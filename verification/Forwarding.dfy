/** Clients may ask any replica: one that does not name itself leader forwards the request to the replica it does name,
    and if that fails it has itself elected and tries once more at the leader it then names. */
module Forwarding {
  import opened Protocol
  import opened Quorum
  import opened Attempts
  import opened Isolated

  datatype Service = Get(key: string) | Set(key: string, value: string)

  /** The answer to a client. A set call answers with an empty value and no error; anything but OK is a failure. */
  datatype Answer = Done(value: string, error: int) | Failed

  /** Which of the nested forwarding calls: `false` leads into a first one, `true` into a retry. */
  type Path = seq<bool>

  /** What becomes of the calls that a request gives rise to: forwarding it, asking oneself for an election, and the
      remote calls of the attempts. */
  datatype Net = Net(forward: Path -> Outcome, trigger: Path -> Outcome, election: Path -> Oracle,
                     attempt: Path -> Oracle)

  /** What is left of the budget one level deeper. */
  function Deeper(budget: nat): nat
    requires budget > 0
  {
    budget - 1
  }

  function Fate(net: Net, path: Path): Outcome {
    net.forward(path)
  }

  /** `hops` counts the forwarding calls whose answer the reply is built on. */
  datatype Served = Served(nodes: Cluster, answer: Answer, hops: nat)

  ghost predicate Clustered(nodes: Cluster, members: seq<NodeId>) {
    Distinct(members) && nodes.Keys == Elems(members)
  }

  function Looked(kv: map<string, string>, key: string): Answer {
    if key in kv then Done(kv[key], 0) else Done("", 1)
  }

  function Attempted(nodes: Cluster, members: seq<NodeId>, self: NodeId, request: Request, oracle: Oracle)
    : (r: (Cluster, Attempt))
    requires Clustered(nodes, members) && self in nodes
    ensures Clustered(r.0, members)
  {
    assert self in Elems(members);
    RunAttempt(nodes, members, self, request, oracle)
  }

  /** The election handler, for the key and value it is called with: an attempt, and on OK the replica names the agreed
      value as its leader, whatever the key is. */
  function ElectFor(nodes: Cluster, members: seq<NodeId>, self: NodeId, key: string, value: string, oracle: Oracle)
    : (r: (Cluster, bool))
    requires Clustered(nodes, members) && self in nodes
    ensures Clustered(r.0, members)
  {
    var (nodes', a) := Attempted(nodes, members, self, Request(key, value, 0, 0, 0, SET_LEADER), oracle);
    (if a.ok then nodes'[self := nodes'[self].(leader := a.acceptance.value)] else nodes', a.ok)
  }

  /** Replicas only ever call it for the leader key, with their own address. */
  function Elect(nodes: Cluster, members: seq<NodeId>, self: NodeId, oracle: Oracle): (r: (Cluster, bool))
    requires Clustered(nodes, members) && self in nodes
    ensures Clustered(r.0, members)
  {
    ElectFor(nodes, members, self, LEADER_KEY, self, oracle)
  }

  /** The replica calls its own election handler over the network. */
  function Trigger(nodes: Cluster, members: seq<NodeId>, self: NodeId, outcome: Outcome, oracle: Oracle)
    : (r: (Cluster, bool))
    requires Clustered(nodes, members) && self in nodes
    ensures Clustered(r.0, members)
  {
    if outcome == Lost then (nodes, false)
    else
      var (nodes', ok) := Elect(nodes, members, self, oracle);
      (nodes', ok && outcome == Delivered)
  }

  /** What the leader does itself. */
  function ServeLocally(nodes: Cluster, members: seq<NodeId>, self: NodeId, service: Service, oracle: Oracle)
    : (r: (Cluster, Answer))
    requires Clustered(nodes, members) && self in nodes
    ensures Clustered(r.0, members)
  {
    match service
    case Get(key) => (nodes, Looked(nodes[self].kv, key))
    case Set(key, value) =>
      var (nodes', a) := Attempted(nodes, members, self, SetRequest(key, value), oracle);
      (nodes', if a.ok then Done("", 0) else Failed)
  }

  /** A request at the replica `self`. `budget` bounds how deep forwarding calls nest before deadlines end them. */
  function Handle(nodes: Cluster, members: seq<NodeId>, self: NodeId, service: Service, net: Net, path: Path,
                  budget: nat)
    : (r: Served)
    requires Clustered(nodes, members) && self in nodes
    ensures Clustered(r.nodes, members)
    decreases budget, 2
  {
    var leader := nodes[self].leader;
    if leader == "" then
      Served(nodes, Failed, 0)
    else if leader == self then
      var (nodes', answer) := ServeLocally(nodes, members, self, service, net.attempt(path));
      Served(nodes', answer, 0)
    else if leader !in nodes then
      Served(nodes, Failed, 0)
    else
      var first := Forward(nodes, members, leader, service, net, path + [false], budget);
      if first.answer.Done? then first
      else Retry(first.nodes, members, self, service, net, path, budget)
  }

  /** What follows a forwarding call that failed and left `nodes`. */
  function Retry(nodes: Cluster, members: seq<NodeId>, self: NodeId, service: Service, net: Net, path: Path,
                 budget: nat)
    : (r: Served)
    requires Clustered(nodes, members) && self in nodes
    ensures Clustered(r.nodes, members)
    decreases budget, 1
  {
    var (nodes', elected) := Trigger(nodes, members, self, net.trigger(path), net.election(path));
    if !elected || nodes'[self].leader !in nodes' then
      Served(nodes', Failed, 0)
    else
      Forward(nodes', members, nodes'[self].leader, service, net, path + [true], budget)
  }

  function Forward(nodes: Cluster, members: seq<NodeId>, to: NodeId, service: Service, net: Net, path: Path,
                   budget: nat)
    : (r: Served)
    requires Clustered(nodes, members) && to in nodes
    ensures Clustered(r.nodes, members)
    decreases budget, 0
  {
    if Fate(net, path) == Lost || budget == 0 then
      Served(nodes, Failed, 0)
    else
      Passed(Handle(nodes, members, to, service, net, path, Deeper(budget)), Fate(net, path))
  }

  /** The answer to a forwarding call whose handler ran, as its caller sees it. */
  function Passed(r: Served, outcome: Outcome): Served {
    if outcome == Delivered then r.(hops := r.hops + 1) else r.(answer := Failed)
  }

  // ----- A leader that everyone can reach -----

  /** `self` names a leader that names itself and can be reached. */
  predicate Reaches(nodes: Cluster, self: NodeId, leader: NodeId, net: Net, path: Path, budget: nat) {
    && self in nodes && leader in nodes && leader != ""
    && nodes[self].leader == leader && nodes[leader].leader == leader
    && (self != leader ==> net.forward(path + [false]) == Delivered && budget > 0)
  }

  function PathOf(self: NodeId, leader: NodeId, path: Path): Path {
    if self == leader then path else path + [false]
  }

  function Hops(self: NodeId, leader: NodeId): nat {
    if self == leader then 0 else 1
  }

  lemma AtLeader(nodes: Cluster, members: seq<NodeId>, leader: NodeId, service: Service, net: Net, path: Path,
                 budget: nat)
    requires Clustered(nodes, members) && leader in nodes && leader != "" && nodes[leader].leader == leader
    ensures var (nodes', answer) := ServeLocally(nodes, members, leader, service, net.attempt(path));
            Handle(nodes, members, leader, service, net, path, budget) == Served(nodes', answer, 0)
  {
  }

  /** The request ends up as one local service of the leader, if that answers OK. */
  lemma ReachesLeader(nodes: Cluster, members: seq<NodeId>, self: NodeId, leader: NodeId, service: Service,
                      net: Net, path: Path, budget: nat)
    requires Clustered(nodes, members) && Reaches(nodes, self, leader, net, path, budget)
    ensures var (nodes', answer) := ServeLocally(nodes, members, leader, service,
                                                 net.attempt(PathOf(self, leader, path)));
            var r := Handle(nodes, members, self, service, net, path, budget);
            && (answer.Done? || self == leader ==> r == Served(nodes', answer, Hops(self, leader)))
  {
    if self == leader {
      AtLeader(nodes, members, leader, service, net, path, budget);
    } else {
      AtLeader(nodes, members, leader, service, net, path + [false], Deeper(budget));
      var (nodes', answer) := ServeLocally(nodes, members, leader, service, net.attempt(path + [false]));
      assert Forward(nodes, members, leader, service, net, path + [false], budget) == Served(nodes', answer, 1);
    }
  }

  /** A get call is then answered from the leader's store after at most one hop, with error 1 exactly when the key is
      absent there, and changes nothing. */
  lemma GetFromLeader(nodes: Cluster, members: seq<NodeId>, self: NodeId, leader: NodeId, key: string,
                      net: Net, path: Path, budget: nat)
    requires Clustered(nodes, members) && Reaches(nodes, self, leader, net, path, budget)
    ensures Handle(nodes, members, self, Get(key), net, path, budget)
            == Served(nodes, Looked(nodes[leader].kv, key), Hops(self, leader))
    ensures Looked(nodes[leader].kv, key).error == 1 <==> key !in nodes[leader].kv
  {
    ReachesLeader(nodes, members, self, leader, Get(key), net, path, budget);
  }

  /** A set call is then one attempt by the leader; if that returns OK, so does the call, after at most one hop and
      without an election. */
  lemma SetAtLeader(nodes: Cluster, members: seq<NodeId>, self: NodeId, leader: NodeId, key: string, value: string,
                    net: Net, path: Path, budget: nat)
    requires Clustered(nodes, members) && Reaches(nodes, self, leader, net, path, budget)
    ensures var (nodes', a) := Attempted(nodes, members, leader, SetRequest(key, value),
                                         net.attempt(PathOf(self, leader, path)));
            var r := Handle(nodes, members, self, Set(key, value), net, path, budget);
            && (a.ok ==> r == Served(nodes', Done("", 0), Hops(self, leader)))
            && (!a.ok && self == leader ==> r == Served(nodes', Failed, 0))
  {
    ReachesLeader(nodes, members, self, leader, Set(key, value), net, path, budget);
  }

  // ----- A leader that does not answer -----

  /** If the named leader cannot be reached, the replica is elected with its own name and it reaches itself, a get call
      is answered from its own store. */
  lemma FailOver(nodes: Cluster, members: seq<NodeId>, self: NodeId, key: string, net: Net, path: Path, budget: nat)
    requires Clustered(nodes, members) && self in nodes && self != ""
    requires nodes[self].leader != "" && nodes[self].leader != self && nodes[self].leader in nodes
    requires net.forward(path + [false]) == Lost && net.forward(path + [true]) == Delivered && budget > 0
    requires net.trigger(path) == Delivered
    requires var a := Attempted(nodes, members, self, ElectionRequest(self), net.election(path)).1;
             a.ok && a.acceptance.value == self
    ensures var r := Handle(nodes, members, self, Get(key), net, path, budget);
            && r == Served(Elect(nodes, members, self, net.election(path)).0, Looked(nodes[self].kv, key), 1)
            && r.nodes[self].leader == self
  {
    var nodes' := Elect(nodes, members, self, net.election(path)).0;
    ElectionKeepsStores(nodes, members, self, net.election(path));
    ForwardFails(nodes, members, nodes[self].leader, Get(key), net, path + [false], budget);
    HandleRetries(nodes, members, self, Get(key), net, path, budget, Served(nodes, Failed, 0), nodes');
    ForwardToLeader(nodes', members, self, Get(key), net, path + [true], budget);
  }

  /** A call that is forwarded straight to a replica that names itself leader. */
  lemma ForwardToLeader(nodes: Cluster, members: seq<NodeId>, leader: NodeId, service: Service, net: Net, path: Path,
                        budget: nat)
    requires Clustered(nodes, members) && leader in nodes && leader != "" && nodes[leader].leader == leader
    requires Fate(net, path) == Delivered && budget > 0
    ensures var (nodes', answer) := ServeLocally(nodes, members, leader, service, net.attempt(path));
            Forward(nodes, members, leader, service, net, path, budget) == Served(nodes', answer, 1)
  {
    AtLeader(nodes, members, leader, service, net, path, Deeper(budget));
  }

  /** After a failed forwarding call and an OK election the retry decides. */
  lemma HandleRetries(nodes: Cluster, members: seq<NodeId>, self: NodeId, service: Service, net: Net, path: Path,
                      budget: nat, first: Served, elected: Cluster)
    requires Clustered(nodes, members) && self in nodes
    requires nodes[self].leader != "" && nodes[self].leader != self && nodes[self].leader in nodes
    requires first == Forward(nodes, members, nodes[self].leader, service, net, path + [false], budget)
    requires first.answer.Failed? && self in first.nodes
    requires Trigger(first.nodes, members, self, net.trigger(path), net.election(path)) == (elected, true)
    requires self in elected && elected[self].leader in elected
    ensures Clustered(elected, members)
    ensures Handle(nodes, members, self, service, net, path, budget)
            == Forward(elected, members, elected[self].leader, service, net, path + [true], budget)
  {
  }

  /** If the attempt of a reachable leader aborts, the replica in front of it does not tell that from a dead leader: it
      has itself elected and makes the attempt once more as the new leader. */
  lemma RetryAfterAbort(nodes: Cluster, members: seq<NodeId>, self: NodeId, leader: NodeId, key: string, value: string,
                        net: Net, path: Path, budget: nat, aborted: Cluster, elected: Cluster)
    requires Clustered(nodes, members) && Reaches(nodes, self, leader, net, path, budget) && self != leader
             && self != ""
    requires var (nodes', a) := Attempted(nodes, members, leader, SetRequest(key, value), net.attempt(path + [false]));
             aborted == nodes' && !a.ok
    requires self in aborted && net.trigger(path) == Delivered
    requires Elect(aborted, members, self, net.election(path)) == (elected, true)
    requires self in elected && elected[self].leader == self && net.forward(path + [true]) == Delivered
    ensures var (nodes', a) := Attempted(elected, members, self, SetRequest(key, value), net.attempt(path + [true]));
            Handle(nodes, members, self, Set(key, value), net, path, budget)
            == Served(nodes', if a.ok then Done("", 0) else Failed, 1)
  {
    ForwardToLeader(nodes, members, leader, Set(key, value), net, path + [false], budget);
    HandleRetries(nodes, members, self, Set(key, value), net, path, budget, Served(aborted, Failed, 1), elected);
    ForwardToLeader(elected, members, self, Set(key, value), net, path + [true], budget);
  }

  // ----- Whatever the network does -----

  predicate SameStores(nodes: Cluster, nodes': Cluster) {
    nodes'.Keys == nodes.Keys && forall n :: n in nodes ==> nodes'[n].kv == nodes[n].kv
  }

  lemma ElectionKeepsStores(nodes: Cluster, members: seq<NodeId>, self: NodeId, oracle: Oracle)
    requires Clustered(nodes, members) && self in nodes
    ensures SameStores(nodes, Elect(nodes, members, self, oracle).0)
  {
    assert self in Elems(members);
    var a := Begin(self, ElectionRequest(self), members, NextRound(nodes[self], LEADER_KEY));
    BeginWellformed(self, ElectionRequest(self), members, NextRound(nodes[self], LEADER_KEY));
    forall n | n in nodes ensures n in Execute(nodes, a, oracle).0 && Execute(nodes, a, oracle).0[n].kv == nodes[n].kv {
      AttemptIsFramed(nodes, a, oracle, n);
    }
  }

  ghost predicate Truthful(nodes: Cluster, r: Served, key: string) {
    && SameStores(nodes, r.nodes)
    && (r.answer.Done? ==> exists n :: n in nodes && r.answer == Looked(nodes[n].kv, key))
  }

  lemma TruthTravels(nodes: Cluster, nodes': Cluster, r: Served, key: string)
    requires SameStores(nodes, nodes') && Truthful(nodes', r, key)
    ensures Truthful(nodes, r, key)
  {
    if r.answer.Done? {
      var n :| n in nodes' && r.answer == Looked(nodes'[n].kv, key);
      assert n in nodes && r.answer == Looked(nodes[n].kv, key);
    }
  }

  lemma ForwardFails(nodes: Cluster, members: seq<NodeId>, to: NodeId, service: Service, net: Net, path: Path,
                     budget: nat)
    requires Clustered(nodes, members) && to in nodes && (net.forward(path) == Lost || budget == 0)
    ensures Forward(nodes, members, to, service, net, path, budget) == Served(nodes, Failed, 0)
  {
  }

  lemma PassedOn(nodes: Cluster, r: Served, r': Served, key: string)
    requires Truthful(nodes, r, key) && r'.nodes == r.nodes && (r'.answer == r.answer || r'.answer == Failed)
    ensures Truthful(nodes, r', key)
  {
  }

  /** A get call changes no store, however often it is forwarded and whatever elections it sets off; and if it is
      answered, the answer is what some replica stores. */
  lemma {:induction false} GetTellsTheTruth(nodes: Cluster, members: seq<NodeId>, self: NodeId, key: string,
                                            net: Net, path: Path, budget: nat)
    requires Clustered(nodes, members) && self in nodes
    ensures Truthful(nodes, Handle(nodes, members, self, Get(key), net, path, budget), key)
    decreases budget, 1
  {
    var leader := nodes[self].leader;
    assert Looked(nodes[self].kv, key).Done?;
    if leader != "" && leader != self && leader in nodes {
      ForwardTellsTheTruth(nodes, members, leader, key, net, path + [false], budget);
      var first := Forward(nodes, members, leader, Get(key), net, path + [false], budget);
      if !first.answer.Done? {
        ElectionKeepsStores(first.nodes, members, self, net.election(path));
        var (nodes', elected) := Trigger(first.nodes, members, self, net.trigger(path), net.election(path));
        if elected && nodes'[self].leader in nodes' {
          ForwardTellsTheTruth(nodes', members, nodes'[self].leader, key, net, path + [true], budget);
          var r := Forward(nodes', members, nodes'[self].leader, Get(key), net, path + [true], budget);
          TruthTravels(nodes, nodes', r, key);
        }
      }
    }
  }

  lemma {:induction false} ForwardTellsTheTruth(nodes: Cluster, members: seq<NodeId>, to: NodeId, key: string,
                                                net: Net, path: Path, budget: nat)
    requires Clustered(nodes, members) && to in nodes
    ensures Truthful(nodes, Forward(nodes, members, to, Get(key), net, path, budget), key)
    decreases budget, 0
  {
    var r' := Forward(nodes, members, to, Get(key), net, path, budget);
    if net.forward(path) != Lost && budget > 0 {
      GetTellsTheTruth(nodes, members, to, key, net, path, Deeper(budget));
      PassedOn(nodes, Handle(nodes, members, to, Get(key), net, path, Deeper(budget)), r', key);
    } else {
      ForwardFails(nodes, members, to, Get(key), net, path, budget);
    }
  }
}
