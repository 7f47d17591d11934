/** What a replica that starts does in each situation it can find, and what happens to a leader that restarts. */
module Starts {
  import opened Protocol
  import opened Quorum
  import opened Attempts
  import opened Forwarding
  import opened StartUp
  import opened Requests

  // ----- Whom it adopts -----

  /** Of the replicas that answered, one names `l`, nobody names anyone else, and `l` itself is one of them. */
  ghost predicate Vouched(nodes: Cluster, members: seq<NodeId>, ask: NodeId -> Outcome, l: NodeId) {
    && l != "" && l in members && ask(l) == Delivered
    && (exists n :: n in members && n in nodes && ask(n) == Delivered && nodes[n].leader == l)
    && (forall n :: n in members && n in nodes && ask(n) == Delivered ==> nodes[n].leader == "" || nodes[n].leader == l)
  }

  lemma VouchedExactly(nodes: Cluster, members: seq<NodeId>, ask: NodeId -> Outcome, l: NodeId)
    ensures Agreed(nodes, members, ask, l) <==> Vouched(nodes, members, ask, l)
  {
    var named := Named(nodes, members, ask);
    assert forall n :: n in members && n in nodes && ask(n) == Delivered && nodes[n].leader != "" ==>
      nodes[n].leader in named;
    if Agreed(nodes, members, ask, l) {
      assert l in named;
    } else if Vouched(nodes, members, ask, l) {
      assert l in named && forall m :: m in named ==> m == l;
    }
  }

  /** The store that a replica which names `l` ends up with: its own under that of `l`, if there is an `l` to copy from
      and the answer arrives. */
  function StoreBeside(nodes: Cluster, self: NodeId, l: NodeId, fetch: Outcome): map<string, string>
    requires self in nodes
  {
    if fetch == Delivered && l != "" && l != self && l in nodes then nodes[self].kv + nodes[l].kv else nodes[self].kv
  }

  lemma FetchedIs(nodes: Cluster, self: NodeId, fetch: Outcome)
    requires self in nodes
    ensures var nodes' := Fetched(nodes, self, fetch);
            && nodes'.Keys == nodes.Keys && OthersStay(nodes, nodes', self)
            && nodes'[self].log == nodes[self].log && nodes'[self].leader == nodes[self].leader
            && nodes'[self].kv == StoreBeside(nodes, self, nodes[self].leader, fetch)
  {
    assert nodes[self].kv + map[] == nodes[self].kv;
  }

  ghost predicate OthersStay(nodes: Cluster, nodes': Cluster, self: NodeId) {
    forall n :: n in nodes && n != self ==> n in nodes' && nodes'[n] == nodes[n]
  }

  ghost predicate Starting(nodes: Cluster, members: seq<NodeId>, self: NodeId, plan: Plan, nodes': Cluster) {
    Clustered(nodes, members) && self in nodes && self in members && StartsUp(nodes, members, self, plan, nodes')
  }

  /** A replica that is told to lead names itself, whoever else may lead; it asks nobody and copies nothing. */
  lemma StartsAsLeader(nodes: Cluster, members: seq<NodeId>, self: NodeId, plan: Plan, nodes': Cluster)
    requires Starting(nodes, members, self, plan, nodes') && plan.leads
    ensures self in nodes' && OthersStay(nodes, nodes', self)
    ensures nodes'[self].leader == self && nodes'[self].log == nodes[self].log && nodes'[self].kv == nodes[self].kv
  {
  }

  /** If some leader is vouched for, the replica adopts it and copies its store, if that is not itself and the store
      arrives. */
  lemma StartsBeside(nodes: Cluster, members: seq<NodeId>, self: NodeId, plan: Plan, nodes': Cluster, l: NodeId)
    requires Starting(nodes, members, self, plan, nodes') && !plan.leads && Vouched(nodes, members, plan.ask, l)
    ensures self in nodes' && OthersStay(nodes, nodes', self)
    ensures nodes'[self].leader == l && nodes'[self].log == nodes[self].log
    ensures nodes'[self].kv == StoreBeside(nodes, self, l, plan.fetch)
  {
    VouchedExactly(nodes, members, plan.ask, l);
    var l' :| Agreed(nodes, members, plan.ask, l') &&
      nodes' == Fetched(nodes[self := Adopting(nodes[self], l')], self, plan.fetch);
    AgreedIsUnique(nodes, members, plan.ask, l, l');
    FetchedIs(nodes[self := Adopting(nodes[self], l)], self, plan.fetch);
  }

  ghost predicate NobodyVouched(nodes: Cluster, members: seq<NodeId>, ask: NodeId -> Outcome) {
    forall l :: !Vouched(nodes, members, ask, l)
  }

  lemma NobodyAgreed(nodes: Cluster, members: seq<NodeId>, ask: NodeId -> Outcome)
    requires NobodyVouched(nodes, members, ask)
    ensures !exists l :: Agreed(nodes, members, ask, l)
  {
    forall l ensures !Agreed(nodes, members, ask, l) {
      VouchedExactly(nodes, members, ask, l);
    }
  }

  /** If nobody is vouched for and it may not stand for election, it goes on naming whom it named, and copies that
      replica's store. */
  lemma StartsAlone(nodes: Cluster, members: seq<NodeId>, self: NodeId, plan: Plan, nodes': Cluster)
    requires Starting(nodes, members, self, plan, nodes') && !plan.leads && !plan.elects
    requires NobodyVouched(nodes, members, plan.ask)
    ensures self in nodes' && OthersStay(nodes, nodes', self)
    ensures nodes'[self].leader == nodes[self].leader && nodes'[self].log == nodes[self].log
    ensures nodes'[self].kv == StoreBeside(nodes, self, nodes[self].leader, plan.fetch)
  {
    NobodyAgreed(nodes, members, plan.ask);
    FetchedIs(nodes, self, plan.fetch);
  }

  /** If nobody is vouched for and it may, it makes one attempt for its own address, over a call to itself. Unless that
      is won nothing else happens and no store changes; if it is, the replica names the agreed value, and copies that
      replica's store unless it is itself. */
  lemma StartsWithElection(nodes: Cluster, members: seq<NodeId>, self: NodeId, plan: Plan, nodes': Cluster)
    requires Starting(nodes, members, self, plan, nodes') && !plan.leads && plan.elects
    requires NobodyVouched(nodes, members, plan.ask)
    ensures var (elected, won) := Trigger(nodes, members, self, plan.trigger, plan.election);
            var a := Candidacy(nodes, members, self, plan.election).1;
            && (won <==> plan.trigger == Delivered && a.ok)
            && self in nodes' && self in elected && OthersStay(elected, nodes', self)
            && SameStores(nodes, elected) && nodes'[self].leader == elected[self].leader
            && (!won ==> nodes' == elected && (plan.trigger == Lost ==> nodes' == nodes))
            && (won ==> nodes'[self].leader == a.acceptance.value
                        && nodes'[self].kv == StoreBeside(elected, self, a.acceptance.value, plan.fetch))
  {
    var (elected, won) := Trigger(nodes, members, self, plan.trigger, plan.election);
    NobodyAgreed(nodes, members, plan.ask);
    ElectionExactly(nodes, members, self, plan.trigger, plan.election);
    if plan.trigger != Lost {
      ElectionKeepsStores(nodes, members, self, plan.election);
    }
    FetchedIs(elected, self, plan.fetch);
  }

  // ----- What follows from the cases -----

  /** A start that holds no election and leaves another leader name than before has heard from that very replica, and
      from one that names it. */
  lemma NewLeaderHasAnswered(nodes: Cluster, members: seq<NodeId>, self: NodeId, plan: Plan, nodes': Cluster)
    requires Starting(nodes, members, self, plan, nodes') && !plan.leads && (plan.elects ==> plan.trigger == Lost)
    ensures self in nodes' && OthersStay(nodes, nodes', self)
    ensures var l := nodes'[self].leader; l != nodes[self].leader ==> Vouched(nodes, members, plan.ask, l)
  {
    if NobodyVouched(nodes, members, plan.ask) {
      if plan.elects {
        StartsWithElection(nodes, members, self, plan, nodes');
      } else {
        StartsAlone(nodes, members, self, plan, nodes');
      }
    } else {
      var l :| Vouched(nodes, members, plan.ask, l);
      StartsBeside(nodes, members, self, plan, nodes', l);
    }
  }

  /** The others still name a leader that is down: it is not adopted. A replica that may stand for election does, and if
      that is not won, it has copied nothing. */
  lemma DeadLeaderIsNotAdopted(nodes: Cluster, members: seq<NodeId>, self: NodeId, plan: Plan, nodes': Cluster,
                               dead: NodeId)
    requires Starting(nodes, members, self, plan, nodes') && !plan.leads && plan.elects && plan.ask(dead) != Delivered
    requires forall n :: n in members && n in nodes && plan.ask(n) == Delivered ==> nodes[n].leader in {"", dead}
    ensures var (elected, won) := Trigger(nodes, members, self, plan.trigger, plan.election);
            var a := Candidacy(nodes, members, self, plan.election).1;
            && (won <==> plan.trigger == Delivered && a.ok)
            && self in nodes' && self in nodes
            && (won ==> nodes'[self].leader == a.acceptance.value)
            && (!won ==> nodes' == elected && SameStores(nodes, nodes'))
  {
    assert NobodyVouched(nodes, members, plan.ask);
    StartsWithElection(nodes, members, self, plan, nodes');
  }

  // ----- A leader that restarts -----

  /** A leader that lost everything and comes back while the others still name it is vouched for by its own answer: it
      takes itself for the leader again, and since a leader copies from nobody it leads with an empty store. Every get
      call at a replica that reaches it is then told that the key does not exist. */
  lemma RestartedLeaderForgets(nodes: Cluster, members: seq<NodeId>, self: NodeId, plan: Plan, nodes': Cluster,
                               asked: NodeId, key: string, net: Net, path: Path, budget: nat)
    requires Starting(nodes, members, self, plan, nodes') && !plan.leads && self != ""
    requires nodes[self] == NodeState(map[], map[], "", map[]) && plan.ask(self) == Delivered
    requires asked in nodes && asked != self && nodes[asked].leader == self && plan.ask(asked) == Delivered
    requires forall n :: n in members && n in nodes && plan.ask(n) == Delivered ==> nodes[n].leader in {"", self}
    requires net.forward(path + [false]) == Delivered && budget > 0
    ensures self in nodes' && nodes'[self].leader == self && nodes'[self].kv == map[] && nodes'[self].log == map[]
    ensures Clustered(nodes', members) && asked in nodes'
    ensures Handle(nodes', members, asked, Get(key), net, path, budget) == Served(nodes', Done("", 1), 1)
  {
    assert asked in Elems(members);
    assert Vouched(nodes, members, plan.ask, self);
    StartsBeside(nodes, members, self, plan, nodes', self);
    StartKeepsMembers(nodes, members, self, plan, nodes');
    GetFromLeader(nodes', members, asked, self, key, net, path, budget);
  }

  lemma StartKeepsMembers(nodes: Cluster, members: seq<NodeId>, self: NodeId, plan: Plan, nodes': Cluster)
    requires Starting(nodes, members, self, plan, nodes')
    ensures Clustered(nodes', members)
  {
  }
}
