/** How a replica joins: it finds out who leads, or has itself elected, and copies the leader's store. */
module StartUp {
  import opened Protocol
  import opened Quorum
  import opened Attempts
  import opened Cells
  import opened Worlds
  import opened Faithful
  import opened Refinement
  import opened CatchUp
  import opened Forwarding
  import opened Replicas
  import opened Services

  /** The options of a replica and what becomes of its calls while it starts: asking each replica for its leader,
      triggering an election, the election itself, and fetching the store. */
  datatype Plan = Plan(leads: bool, elects: bool, ask: NodeId -> Outcome, trigger: Outcome, election: Oracle,
                       fetch: Outcome)

  function Responding(members: seq<NodeId>, ask: NodeId -> Outcome): set<NodeId> {
    set n | n in members && ask(n) == Delivered
  }

  /** The leaders that the answers name; a replica that knows none answers with an empty name. */
  function Named(nodes: Cluster, members: seq<NodeId>, ask: NodeId -> Outcome): set<string> {
    set n | n in members && n in nodes && ask(n) == Delivered && nodes[n].leader != "" :: nodes[n].leader
  }

  /** All answers agree on a leader and that leader answered too. */
  predicate Agreed(nodes: Cluster, members: seq<NodeId>, ask: NodeId -> Outcome, leader: NodeId) {
    Named(nodes, members, ask) == {leader} && leader in Responding(members, ask)
  }

  function Adopting(s: NodeState, leader: string): NodeState {
    s.(leader := leader, applied := s.applied - {LEADER_KEY})
  }

  /** Copying the store of the named leader, unless that is nobody or the replica itself; a call that fails gives an
      empty snapshot. */
  function Fetched(nodes: Cluster, self: NodeId, fetch: Outcome): Cluster
    requires self in nodes
  {
    var leader := nodes[self].leader;
    if leader == "" || leader == self || leader !in nodes then nodes
    else nodes[self := Recovered(nodes[self], if fetch == Delivered then nodes[leader].kv else map[])]
  }

  ghost predicate StartsUp(nodes: Cluster, members: seq<NodeId>, self: NodeId, plan: Plan, nodes': Cluster)
    requires Clustered(nodes, members) && self in nodes
  {
    if plan.leads then
      nodes' == nodes[self := Adopting(nodes[self], self)]
    else if exists l :: Agreed(nodes, members, plan.ask, l) then
      exists l :: Agreed(nodes, members, plan.ask, l) &&
        nodes' == Fetched(nodes[self := Adopting(nodes[self], l)], self, plan.fetch)
    else if plan.elects then
      var (elected, ok) := Trigger(nodes, members, self, plan.trigger, plan.election);
      nodes' == if ok && self in elected then Fetched(elected, self, plan.fetch) else elected
    else
      nodes' == Fetched(nodes, self, plan.fetch)
  }

  lemma AgreedIsUnique(nodes: Cluster, members: seq<NodeId>, ask: NodeId -> Outcome, l: NodeId, l': NodeId)
    requires Agreed(nodes, members, ask, l) && Agreed(nodes, members, ask, l')
    ensures l == l' != ""
  {
    assert l in Named(nodes, members, ask) && l' in Named(nodes, members, ask);
  }

  /** Starting up beside a leader that everyone who answers agrees on is adopting that name and recovering from it. */
  lemma JoiningIsTwoEvents(w: World, self: NodeId, l: NodeId, plan: Plan, nodes': Cluster)
    requires Sound(w) && self in w.nodes && self != l && !plan.leads && plan.fetch == Delivered
    requires Agreed(w.nodes, w.members, plan.ask, l)
    requires StartsUp(w.nodes, w.members, self, plan, nodes')
    ensures Enabled(w, Adopt(self, l)) && Sound(Next(w, Adopt(self, l))) && l in w.nodes
    ensures Enabled(Next(w, Adopt(self, l)), Recover(self, l))
    ensures nodes' == Next(Next(w, Adopt(self, l)), Recover(self, l)).nodes
  {
    NextSound(w, Adopt(self, l));
    assert l in Elems(w.members);
    var l' :| Agreed(w.nodes, w.members, plan.ask, l') &&
      nodes' == Fetched(w.nodes[self := Adopting(w.nodes[self], l')], self, plan.fetch);
    AgreedIsUnique(w.nodes, w.members, plan.ask, l, l');
  }

  /** What a starting replica has to hear: the elected leader, which is faithful, answers, and of the others that answer
      the ones that are not faithful know no leader or the same one. */
  ghost predicate HearsOfLeader(w: World, t: Trace, faithful: set<NodeId>, self: NodeId, l: NodeId, plan: Plan) {
    && Trusted(w, t, faithful) && self in w.nodes && self !in faithful && l in faithful && l != ""
    && Idle(Run(w, t), LEADER_KEY) && LastOk(HistoryOf(Run(w, t).history, LEADER_KEY)) == Some(l)
    && !plan.leads && plan.fetch == Delivered && plan.ask(l) == Delivered
    && (forall n :: n in w.members && n in Run(w, t).nodes && plan.ask(n) == Delivered ==>
          n in faithful || Run(w, t).nodes[n].leader == "" || Run(w, t).nodes[n].leader == l)
  }

  /** A replica that starts in this situation, whatever it stored and whatever else is going on, names the elected
      leader, and holds the plain value of every idle key except those that it alone holds. */
  lemma StartedReplicaRejoins(w: World, t: Trace, faithful: set<NodeId>, self: NodeId, l: NodeId, plan: Plan,
                              nodes': Cluster, key: string)
    requires HearsOfLeader(w, t, faithful, self, l, plan)
    requires StartsUp(Run(w, t).nodes, w.members, self, plan, nodes')
    ensures self in nodes' && nodes'[self].leader == l
    ensures key != LEADER_KEY && Idle(Run(w, t), key)
            && (key in Run(w, t).nodes[self].kv ==> key in Run(w, t).nodes[l].kv) ==>
              Lookup(nodes'[self].kv, key) == Lookup(Plain(Run(w, t).history), key)
  {
    LeaderIsAgreed(w, t, faithful, self, l, plan);
    Joined(Run(w, t).nodes, w.members, self, l, plan, nodes');
    if key != LEADER_KEY && Idle(Run(w, t), key) {
      ValueRefinement(w, t, faithful, l, key);
    }
  }

  /** In particular a replica that lost everything and comes back while no attempt is running stores exactly the plain
      map. */
  lemma RestartedReplicaRejoins(w: World, t: Trace, faithful: set<NodeId>, self: NodeId, l: NodeId, plan: Plan,
                                nodes': Cluster)
    requires HearsOfLeader(w, t, faithful, self, l, plan)
    requires Run(w, t).active == map[] && Run(w, t).nodes[self].kv.Keys <= Run(w, t).nodes[l].kv.Keys
    requires StartsUp(Run(w, t).nodes, w.members, self, plan, nodes')
    ensures self in nodes' && nodes'[self].kv == Plain(Run(w, t).history) && nodes'[self].leader == l
  {
    LeaderIsAgreed(w, t, faithful, self, l, plan);
    Joined(Run(w, t).nodes, w.members, self, l, plan, nodes');
    MapRefinement(w, t, faithful, l);
    CoveredBy(Run(w, t).nodes[self].kv, Run(w, t).nodes[l].kv);
  }

  lemma CoveredBy(m: map<string, string>, m': map<string, string>)
    requires m.Keys <= m'.Keys
    ensures m + m' == m'
  {
  }

  /** And it stays that way: its start-up is two events of a run, and if it then hears every success call, it stores
      exactly the plain map and names the same leader as the others, whenever no attempt is running. */
  lemma RejoinedForGood(w: World, t: Trace, t': Trace, faithful: set<NodeId>, self: NodeId, l: NodeId, plan: Plan,
                        nodes': Cluster)
    requires HearsOfLeader(w, t, faithful, self, l, plan)
    requires StartsOver(w, t, self, l, faithful)
    requires StartsUp(Run(w, t).nodes, w.members, self, plan, nodes')
    requires Trusted(w, t', faithful) && Run(w, t').active == map[]
    requires HearsEverything(w, t', StartTrace(t, self, l, l), self, Run(w, t).sent)
    ensures Valid(w, StartTrace(t, self, l, l)) && Run(w, StartTrace(t, self, l, l)).nodes == nodes'
    ensures Run(w, t').nodes[self].kv == Plain(Run(w, t').history)
    ensures Run(w, t').nodes[self].leader == Run(w, t').nodes[l].leader
  {
    LeaderIsAgreed(w, t, faithful, self, l, plan);
    JoiningIsTwoEvents(Run(w, t), self, l, plan, nodes');
    StartTraceIsTrusted(w, t, self, l, faithful);
    CatchUpForGood(w, t, t', self, l, faithful);
  }

  lemma LeaderIsAgreed(w: World, t: Trace, faithful: set<NodeId>, self: NodeId, l: NodeId, plan: Plan)
    requires HearsOfLeader(w, t, faithful, self, l, plan)
    ensures l in Run(w, t).nodes && Run(w, t).nodes[l].leader == l
    ensures Agreed(Run(w, t).nodes, w.members, plan.ask, l)
  {
    AllNameLeader(w, t, faithful, l);
    AnswersAgree(Run(w, t).nodes, w.members, plan.ask, l);
  }

  lemma AllNameLeader(w: World, t: Trace, faithful: set<NodeId>, l: NodeId)
    requires Trusted(w, t, faithful) && Idle(Run(w, t), LEADER_KEY)
    requires LastOk(HistoryOf(Run(w, t).history, LEADER_KEY)) == Some(l)
    ensures forall n :: n in faithful ==> n in Run(w, t).nodes && Run(w, t).nodes[n].leader == l
  {
    forall n | n in faithful ensures n in Run(w, t).nodes && Run(w, t).nodes[n].leader == l {
      ElectionAgreement(w, t, faithful, n);
    }
  }

  lemma AnswersAgree(nodes: Cluster, members: seq<NodeId>, ask: NodeId -> Outcome, l: NodeId)
    requires nodes.Keys == Elems(members) && l in nodes && nodes[l].leader == l != "" && ask(l) == Delivered
    requires forall n :: n in members && n in nodes && ask(n) == Delivered ==> nodes[n].leader in {"", l}
    ensures Agreed(nodes, members, ask, l)
  {
    assert l in Elems(members);
    assert nodes[l].leader in Named(nodes, members, ask);
    forall m | m in Named(nodes, members, ask) ensures m == l {
      var n :| n in members && n in nodes && ask(n) == Delivered && nodes[n].leader != "" && nodes[n].leader == m;
    }
  }

  lemma Joined(nodes: Cluster, members: seq<NodeId>, self: NodeId, l: NodeId, plan: Plan, nodes': Cluster)
    requires Clustered(nodes, members) && self in nodes && l in nodes && self != l && !plan.leads
    requires Agreed(nodes, members, plan.ask, l) && plan.fetch == Delivered
    requires StartsUp(nodes, members, self, plan, nodes')
    ensures self in nodes' && nodes'[self].kv == nodes[self].kv + nodes[l].kv && nodes'[self].leader == l
  {
    var l' :| Agreed(nodes, members, plan.ask, l') &&
      nodes' == Fetched(nodes[self := Adopting(nodes[self], l')], self, plan.fetch);
    AgreedIsUnique(nodes, members, plan.ask, l, l');
  }

  // ----- In place -----

  method AdoptLeader(cluster: Nodes, self: NodeId, leader: string)
    requires Apart(cluster) && self in cluster
    modifies cluster[self]
    ensures States(cluster) == old(States(cluster))[self := Adopting(old(States(cluster))[self], leader)]
  {
    cluster[self].leader := leader;
    cluster[self].applied := cluster[self].applied - {LEADER_KEY};
  }

  method AskForLeader(members: seq<NodeId>, cluster: Nodes, ask: NodeId -> Outcome)
    returns (leaders: set<string>, liveReplicas: set<NodeId>)
    requires Elems(members) == cluster.Keys
    ensures liveReplicas == Responding(members, ask) && leaders == Named(States(cluster), members, ask)
  {
    leaders, liveReplicas := {}, {};
    for i := 0 to |members|
      invariant liveReplicas == Responding(members[..i], ask)
      invariant leaders == Named(States(cluster), members[..i], ask)
    {
      var key := members[i];
      assert key in Elems(members) && members[..i + 1] == members[..i] + [key];
      NamedMore(States(cluster), members[..i], key, ask);
      if ask(key) == Delivered {
        liveReplicas := liveReplicas + {key};
        if cluster[key].leader != "" {
          leaders := leaders + {cluster[key].leader};
        }
      }
    }
    assert members[..|members|] == members;
  }

  lemma NamedMore(nodes: Cluster, members: seq<NodeId>, key: NodeId, ask: NodeId -> Outcome)
    requires key in nodes
    ensures Responding(members + [key], ask) == Responding(members, ask) + (if ask(key) == Delivered then {key} else {})
    ensures Named(nodes, members + [key], ask) == Named(nodes, members, ask) +
            (if ask(key) == Delivered && nodes[key].leader != "" then {nodes[key].leader} else {})
  {
    var more := Named(nodes, members + [key], ask);
    forall l | l in more
      ensures l in Named(nodes, members, ask)
              || (ask(key) == Delivered && nodes[key].leader != "" && l == nodes[key].leader)
    {
      var n :| n in members + [key] && n in nodes && ask(n) == Delivered && nodes[n].leader == l != "";
    }
    assert key in members + [key];
  }

  method RecoverFrom(cluster: Nodes, self: NodeId, snapshot: map<string, string>)
    requires Apart(cluster) && self in cluster
    modifies cluster[self]
    ensures States(cluster) == old(States(cluster))[self := Recovered(old(States(cluster))[self], snapshot)]
  {
    cluster[self].Recover(snapshot);
  }

  method FetchStore(cluster: Nodes, self: NodeId, fetch: Outcome)
    requires Apart(cluster) && self in cluster
    modifies cluster[self]
    ensures States(cluster) == Fetched(old(States(cluster)), self, fetch)
  {
    var leader := cluster[self].leader;
    if leader == "" || leader == self || leader !in cluster {
      return;
    }
    var leaderDb: map<string, string> := map[];
    if fetch == Delivered {
      leaderDb := cluster[leader].GetDB();
    }
    RecoverFrom(cluster, self, leaderDb);
  }

  lemma OneNamed(s: set<string>) returns (l: string)
    requires |s| == 1
    ensures s == {l}
  {
    assert s != {};
    l :| l in s;
    assert |s - {l}| == 0;
  }

  method Coordinate(self: NodeId, members: seq<NodeId>, cluster: Nodes, plan: Plan)
    requires Apart(cluster) && Distinct(members) && cluster.Keys == Elems(members) && self in cluster
    modifies cluster.Values
    ensures StartsUp(old(States(cluster)), members, self, plan, States(cluster))
  {
    if plan.leads {
      AdoptLeader(cluster, self, self);
      return;
    }
    var leaders, liveReplicas := AskForLeader(members, cluster, plan.ask);
    if |leaders| == 1 && leaders <= liveReplicas {
      ghost var l := OneNamed(leaders);
      var leader :| leader in leaders;
      assert Agreed(States(cluster), members, plan.ask, leader);
      AdoptLeader(cluster, self, leader);
    } else {
      assert forall l :: !Agreed(States(cluster), members, plan.ask, l);
      if plan.elects {
        var ok := TriggerElection(self, members, cluster, plan.trigger, plan.election);
        if !ok {
          return;
        }
      }
    }
    FetchStore(cluster, self, plan.fetch);
  }
}
