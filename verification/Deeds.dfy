/** What a client's request, however it is forwarded, makes the cluster do: replicas serve it themselves, or stand for
    election, one after another. */
module Deeds {
  import opened Protocol
  import opened Quorum
  import opened Attempts
  import opened Cells
  import opened Isolated
  import opened Forwarding

  /** The replica serves the request as the leader that it takes itself for, or has itself elected. */
  datatype Deed = Serving(actor: NodeId, oracle: Oracle) | Standing(actor: NodeId, oracle: Oracle)

  /** Deeds one after another, the latest outermost. */
  datatype Trail = Nothing | After(before: Trail, last: Deed)

  ghost predicate Legal(members: seq<NodeId>, trail: Trail) {
    trail.After? ==> Legal(members, trail.before) && trail.last.actor in Elems(members)
  }

  function Performed(nodes: Cluster, members: seq<NodeId>, service: Service, d: Deed): (nodes': Cluster)
    requires Clustered(nodes, members) && d.actor in nodes
    ensures Clustered(nodes', members)
  {
    match d
    case Serving(actor, oracle) => ServeLocally(nodes, members, actor, service, oracle).0
    case Standing(actor, oracle) => Elect(nodes, members, actor, oracle).0
  }

  ghost function Replay(nodes: Cluster, members: seq<NodeId>, service: Service, trail: Trail): (nodes': Cluster)
    requires Clustered(nodes, members) && Legal(members, trail)
    ensures Clustered(nodes', members)
  {
    match trail
    case Nothing => nodes
    case After(before, d) => Performed(Replay(nodes, members, service, before), members, service, d)
  }

  /** Whoever serves the request names itself leader at that moment. */
  ghost predicate Genuine(nodes: Cluster, members: seq<NodeId>, service: Service, trail: Trail)
    requires Clustered(nodes, members) && Legal(members, trail)
  {
    trail.After? ==>
      && Genuine(nodes, members, service, trail.before)
      && (trail.last.Serving? ==>
            Replay(nodes, members, service, trail.before)[trail.last.actor].leader == trail.last.actor)
  }

  /** The last deed was to serve the request, and `answer` is what came out of it. */
  ghost predicate Answers(nodes: Cluster, members: seq<NodeId>, service: Service, trail: Trail, answer: Answer)
    requires Clustered(nodes, members) && Legal(members, trail)
  {
    && trail.After? && trail.last.Serving?
    && answer == ServeLocally(Replay(nodes, members, service, trail.before), members, trail.last.actor, service,
                              trail.last.oracle).1
  }

  /** `r` is what these deeds lead to, starting from `nodes`. */
  ghost predicate Explains(nodes: Cluster, members: seq<NodeId>, service: Service, trail: Trail, r: Served) {
    && Clustered(nodes, members) && Legal(members, trail) && Genuine(nodes, members, service, trail)
    && r.nodes == Replay(nodes, members, service, trail)
    && (r.answer.Done? ==> Answers(nodes, members, service, trail, r.answer))
  }

  function Join(t: Trail, u: Trail): Trail {
    if u.Nothing? then t else After(Join(t, u.before), u.last)
  }

  lemma {:induction false} JoinReplays(nodes: Cluster, members: seq<NodeId>, service: Service, t: Trail, u: Trail)
    requires Clustered(nodes, members) && Legal(members, t) && Legal(members, u)
    ensures Legal(members, Join(t, u))
    ensures Replay(nodes, members, service, Join(t, u))
            == Replay(Replay(nodes, members, service, t), members, service, u)
  {
    if u.After? {
      JoinReplays(nodes, members, service, t, u.before);
    }
  }

  lemma {:induction false} JoinIsGenuine(nodes: Cluster, members: seq<NodeId>, service: Service, t: Trail, u: Trail)
    requires Clustered(nodes, members) && Legal(members, t) && Legal(members, u) && Genuine(nodes, members, service, t)
    requires Genuine(Replay(nodes, members, service, t), members, service, u)
    ensures Legal(members, Join(t, u)) && Genuine(nodes, members, service, Join(t, u))
  {
    if u.After? {
      JoinIsGenuine(nodes, members, service, t, u.before);
      JoinReplays(nodes, members, service, t, u.before);
    }
  }

  lemma JoinExplains(nodes: Cluster, members: seq<NodeId>, service: Service, t: Trail, first: Served, u: Trail,
                     r: Served)
    requires Explains(nodes, members, service, t, first) && Explains(first.nodes, members, service, u, r)
    ensures Explains(nodes, members, service, Join(t, u), r)
  {
    JoinReplays(nodes, members, service, t, u);
    JoinIsGenuine(nodes, members, service, t, u);
    if r.answer.Done? {
      JoinReplays(nodes, members, service, t, u.before);
    }
  }

  lemma ServesOnce(nodes: Cluster, members: seq<NodeId>, self: NodeId, service: Service, oracle: Oracle)
    requires Clustered(nodes, members) && self in nodes && nodes[self].leader == self
    ensures var (nodes', answer) := ServeLocally(nodes, members, self, service, oracle);
            Explains(nodes, members, service, After(Nothing, Serving(self, oracle)), Served(nodes', answer, 0))
  {
    assert Legal(members, Nothing);
  }

  lemma TriggerExplains(nodes: Cluster, members: seq<NodeId>, self: NodeId, service: Service, outcome: Outcome,
                        oracle: Oracle)
    returns (trail: Trail)
    requires Clustered(nodes, members) && self in nodes
    ensures Explains(nodes, members, service, trail,
                     Served(Trigger(nodes, members, self, outcome, oracle).0, Failed, 0))
  {
    trail := if outcome == Lost then Nothing else After(Nothing, Standing(self, oracle));
    assert Legal(members, Nothing);
  }

  /** Whatever the network does, a request comes down to replicas that serve it as the leader they take themselves for
      and replicas that have themselves elected; and if it is answered, then by the last one that served it, after which
      nothing else happened. */
  lemma {:induction false} RequestIsDeeds(nodes: Cluster, members: seq<NodeId>, self: NodeId, service: Service,
                                          net: Net, path: Path, budget: nat)
    returns (trail: Trail)
    requires Clustered(nodes, members) && self in nodes
    ensures Explains(nodes, members, service, trail, Handle(nodes, members, self, service, net, path, budget))
    decreases budget, 1
  {
    var leader := nodes[self].leader;
    if leader == self && leader != "" {
      ServesOnce(nodes, members, self, service, net.attempt(path));
      trail := After(Nothing, Serving(self, net.attempt(path)));
    } else if leader == "" || leader !in nodes {
      trail := Nothing;
    } else {
      var t := ForwardIsDeeds(nodes, members, leader, service, net, path + [false], budget);
      var first := Forward(nodes, members, leader, service, net, path + [false], budget);
      trail := if first.answer.Done? then t else Nothing;
      if first.answer.Failed? {
        var u := RetryIsDeeds(first.nodes, members, self, service, net, path, budget);
        JoinExplains(nodes, members, service, t, first, u,
                     Retry(first.nodes, members, self, service, net, path, budget));
        trail := Join(t, u);
      }
    }
  }

  lemma {:induction false} RetryIsDeeds(nodes: Cluster, members: seq<NodeId>, self: NodeId, service: Service, net: Net,
                                        path: Path, budget: nat)
    returns (trail: Trail)
    requires Clustered(nodes, members) && self in nodes
    ensures Explains(nodes, members, service, trail, Retry(nodes, members, self, service, net, path, budget))
    decreases budget, 1, 0
  {
    trail := TriggerExplains(nodes, members, self, service, net.trigger(path), net.election(path));
    var (nodes', elected) := Trigger(nodes, members, self, net.trigger(path), net.election(path));
    if elected && nodes'[self].leader in nodes' {
      var u := ForwardIsDeeds(nodes', members, nodes'[self].leader, service, net, path + [true], budget);
      JoinExplains(nodes, members, service, trail, Served(nodes', Failed, 0), u,
                   Forward(nodes', members, nodes'[self].leader, service, net, path + [true], budget));
      trail := Join(trail, u);
    }
  }

  lemma {:induction false} ForwardIsDeeds(nodes: Cluster, members: seq<NodeId>, to: NodeId, service: Service, net: Net,
                                          path: Path, budget: nat)
    returns (trail: Trail)
    requires Clustered(nodes, members) && to in nodes
    ensures Explains(nodes, members, service, trail, Forward(nodes, members, to, service, net, path, budget))
    decreases budget, 0
  {
    if Fate(net, path) == Lost || budget == 0 {
      trail := Nothing;
      ForwardFails(nodes, members, to, service, net, path, budget);
    } else {
      trail := RequestIsDeeds(nodes, members, to, service, net, path, Deeper(budget));
      PassedExplains(nodes, members, service, trail, Handle(nodes, members, to, service, net, path, Deeper(budget)),
                     Fate(net, path));
    }
  }

  lemma PassedExplains(nodes: Cluster, members: seq<NodeId>, service: Service, trail: Trail, r: Served,
                       outcome: Outcome)
    requires Explains(nodes, members, service, trail, r)
    ensures Explains(nodes, members, service, trail, Passed(r, outcome))
  {
  }

  // ----- Set calls -----

  /** `r` is the outcome of one OK attempt for the set call, made from `nodes` by a replica that names itself leader. */
  ghost predicate OneCommit(r: Served, members: seq<NodeId>, nodes: Cluster, leader: NodeId, request: Request,
                            o: Oracle) {
    && Clustered(nodes, members) && leader in nodes && nodes[leader].leader == leader
    && Attempted(nodes, members, leader, request, o).1.ok
    && r.nodes == Attempted(nodes, members, leader, request, o).0
  }

  /** If a set call is answered, the last thing that happened is one OK attempt for it by a replica that names itself
      leader; before that there were only attempts of the same kind and elections. */
  lemma SetWasCommitted(nodes: Cluster, members: seq<NodeId>, self: NodeId, key: string, value: string,
                        net: Net, path: Path, budget: nat)
    returns (before: Trail, leader: NodeId, o: Oracle)
    requires Clustered(nodes, members) && self in nodes
    requires Handle(nodes, members, self, Set(key, value), net, path, budget).answer.Done?
    ensures Legal(members, before) && Genuine(nodes, members, Set(key, value), before)
    ensures OneCommit(Handle(nodes, members, self, Set(key, value), net, path, budget), members,
                      Replay(nodes, members, Set(key, value), before), leader, SetRequest(key, value), o)
  {
    var trail := RequestIsDeeds(nodes, members, self, Set(key, value), net, path, budget);
    before, leader, o := trail.before, trail.last.actor, trail.last.oracle;
  }

  /** The replicas that hold a set call's outcome in their logs. */
  ghost predicate HeldByQuorum(nodes: Cluster, members: seq<NodeId>, h: set<NodeId>, key: string, round: nat,
                               value: string) {
    && h <= nodes.Keys && |h| >= (|members| + 1) / 2
    && forall n :: n in h ==>
         var e := EntryAt(RoundsOf(nodes[n].log, key), round);
         e.aServerId == PROPOSE_ID && e.acceptedValue == value
  }

  /** Whatever the network did, after a set call was answered a quorum of replicas holds an accepted value for its key
      at one round. */
  lemma AnsweredSetIsDurable(nodes: Cluster, members: seq<NodeId>, self: NodeId, key: string, value: string,
                             net: Net, path: Path, budget: nat)
    returns (h: set<NodeId>, round: nat, accepted: string)
    requires Clustered(nodes, members) && self in nodes
    requires Handle(nodes, members, self, Set(key, value), net, path, budget).answer.Done?
    ensures HeldByQuorum(Handle(nodes, members, self, Set(key, value), net, path, budget).nodes, members, h, key, round,
                         accepted)
  {
    var before, leader, o := SetWasCommitted(nodes, members, self, key, value, net, path, budget);
    var nodes' := Replay(nodes, members, Set(key, value), before);
    assert leader in Elems(members);
    h := OkIsDurable(nodes', members, leader, SetRequest(key, value), o);
    round := NextRound(nodes'[leader], key);
    accepted := Attempted(nodes', members, leader, SetRequest(key, value), o).1.acceptance.value;
  }

  // ----- What a request leaves alone -----

  ghost predicate SameElsewhere(nodes: Cluster, nodes': Cluster, key: string) {
    && nodes'.Keys == nodes.Keys
    && forall n, k :: n in nodes && k != key ==> Lookup(nodes'[n].kv, k) == Lookup(nodes[n].kv, k)
  }

  lemma AttemptStaysAtKey(nodes: Cluster, members: seq<NodeId>, self: NodeId, request: Request, oracle: Oracle)
    requires Clustered(nodes, members) && self in nodes
    ensures SameElsewhere(nodes, Attempted(nodes, members, self, request, oracle).0, request.key)
  {
    assert self in Elems(members);
    var a := Begin(self, request, members, NextRound(nodes[self], request.key));
    BeginWellformed(self, request, members, NextRound(nodes[self], request.key));
    forall n | n in nodes
      ensures n in Execute(nodes, a, oracle).0
      ensures forall k :: k != request.key ==> Lookup(Execute(nodes, a, oracle).0[n].kv, k) == Lookup(nodes[n].kv, k)
    {
      AttemptIsFramed(nodes, a, oracle, n);
    }
  }

  lemma DeedStaysAtKey(nodes: Cluster, members: seq<NodeId>, key: string, value: string, d: Deed)
    requires Clustered(nodes, members) && d.actor in nodes
    ensures SameElsewhere(nodes, Performed(nodes, members, Set(key, value), d), key)
  {
    match d
    case Serving(actor, oracle) => AttemptStaysAtKey(nodes, members, actor, SetRequest(key, value), oracle);
    case Standing(actor, oracle) => ElectionKeepsStores(nodes, members, actor, oracle);
  }

  lemma {:induction false} DeedsStayAtKey(nodes: Cluster, members: seq<NodeId>, key: string, value: string,
                                          trail: Trail)
    requires Clustered(nodes, members) && Legal(members, trail)
    ensures SameElsewhere(nodes, Replay(nodes, members, Set(key, value), trail), key)
  {
    if trail.After? {
      DeedsStayAtKey(nodes, members, key, value, trail.before);
      DeedStaysAtKey(Replay(nodes, members, Set(key, value), trail.before), members, key, value, trail.last);
    }
  }

  /** However a set call is forwarded and however it ends, it changes stores at its own key only. */
  lemma SetStaysAtKey(nodes: Cluster, members: seq<NodeId>, self: NodeId, key: string, value: string,
                      net: Net, path: Path, budget: nat)
    requires Clustered(nodes, members) && self in nodes
    ensures SameElsewhere(nodes, Handle(nodes, members, self, Set(key, value), net, path, budget).nodes, key)
  {
    var trail := RequestIsDeeds(nodes, members, self, Set(key, value), net, path, budget);
    DeedsStayAtKey(nodes, members, key, value, trail);
  }
}
