/** The client-facing handlers, elections and start-up, working on the replica objects. */
module Services {
  import opened Protocol
  import opened Quorum
  import opened Attempts
  import opened Replicas
  import opened Forwarding

  // ----- Elections -----

  method NameLeader(cluster: Nodes, self: NodeId, leader: string)
    requires Apart(cluster) && self in cluster
    modifies cluster[self]
    ensures States(cluster) == old(States(cluster))[self := old(States(cluster))[self].(leader := leader)]
  {
    cluster[self].leader := leader;
  }

  /** The election handler of the replica named `self`. */
  method ElectLeader(self: NodeId, members: seq<NodeId>, cluster: Nodes, key: string, value: string, oracle: Oracle)
    returns (ok: bool)
    requires Apart(cluster) && Distinct(members) && cluster.Keys == Elems(members) && self in cluster
    modifies cluster.Values
    ensures (States(cluster), ok) == ElectFor(old(States(cluster)), members, self, key, value, oracle)
  {
    var r := Request(key, value, 0, 0, 0, SET_LEADER);
    var reply := AttemptConsensus(self, members, cluster, r, oracle);
    if reply.Ok? {
      NameLeader(cluster, self, reply.response.value);
    }
    ok := reply.Ok?;
  }

  /** The replica calls that handler on itself, for the leader key and its own address. */
  method TriggerElection(self: NodeId, members: seq<NodeId>, cluster: Nodes, outcome: Outcome, oracle: Oracle)
    returns (ok: bool)
    requires Apart(cluster) && Distinct(members) && cluster.Keys == Elems(members) && self in cluster
    modifies cluster.Values
    ensures (States(cluster), ok) == Trigger(old(States(cluster)), members, self, outcome, oracle)
  {
    if outcome == Lost {
      return false;
    }
    ok := ElectLeader(self, members, cluster, LEADER_KEY, self, oracle);
    ok := ok && outcome == Delivered;
  }

  // ----- Requests of clients -----

  ghost predicate Ends(nodes: Cluster, members: seq<NodeId>, self: NodeId, service: Service, net: Net, path: Path,
                       budget: nat, r: Served) {
    Clustered(nodes, members) && self in nodes && r == Handle(nodes, members, self, service, net, path, budget)
  }

  /** `r` is what a forwarding call leads to. */
  ghost predicate Forwarded(nodes: Cluster, members: seq<NodeId>, to: NodeId, service: Service, net: Net, path: Path,
                            budget: nat, r: Served) {
    if Fate(net, path) == Lost || budget == 0 then r == Served(nodes, Failed, 0)
    else exists served :: Ends(nodes, members, to, service, net, path, Deeper(budget), served)
                          && r == Passed(served, Fate(net, path))
  }

  lemma ForwardedIs(nodes: Cluster, members: seq<NodeId>, to: NodeId, service: Service, net: Net, path: Path,
                    budget: nat, r: Served)
    requires Clustered(nodes, members) && to in nodes && Forwarded(nodes, members, to, service, net, path, budget, r)
    ensures r == Forward(nodes, members, to, service, net, path, budget)
  {
  }

  ghost predicate RetryEnds(nodes: Cluster, members: seq<NodeId>, self: NodeId, service: Service, net: Net, path: Path,
                            budget: nat, r: Served) {
    Clustered(nodes, members) && self in nodes && r == Retry(nodes, members, self, service, net, path, budget)
  }

  lemma RetryEndsBy(nodes: Cluster, members: seq<NodeId>, self: NodeId, service: Service, net: Net, path: Path,
                    budget: nat, elected: Cluster, r: Served)
    requires Clustered(nodes, members) && self in nodes && self in elected && elected[self].leader in elected
    requires Trigger(nodes, members, self, net.trigger(path), net.election(path)) == (elected, true)
    requires Forwarded(elected, members, elected[self].leader, service, net, path + [true], budget, r)
    ensures RetryEnds(nodes, members, self, service, net, path, budget, r)
  {
    ForwardedIs(elected, members, elected[self].leader, service, net, path + [true], budget, r);
  }

  lemma EndsAtOnce(nodes: Cluster, members: seq<NodeId>, self: NodeId, service: Service, net: Net, path: Path,
                   budget: nat, r: Served)
    requires Clustered(nodes, members) && self in nodes
    requires nodes[self].leader != "" && nodes[self].leader != self && nodes[self].leader in nodes && r.answer.Done?
    requires Forwarded(nodes, members, nodes[self].leader, service, net, path + [false], budget, r)
    ensures Ends(nodes, members, self, service, net, path, budget, r)
  {
    ForwardedIs(nodes, members, nodes[self].leader, service, net, path + [false], budget, r);
  }

  lemma EndsByRetry(nodes: Cluster, members: seq<NodeId>, self: NodeId, service: Service, net: Net, path: Path,
                    budget: nat, first: Served, r: Served)
    requires Clustered(nodes, members) && self in nodes
    requires nodes[self].leader != "" && nodes[self].leader != self && nodes[self].leader in nodes
             && first.answer.Failed?
    requires Forwarded(nodes, members, nodes[self].leader, service, net, path + [false], budget, first)
    requires RetryEnds(first.nodes, members, self, service, net, path, budget, r)
    ensures Ends(nodes, members, self, service, net, path, budget, r)
  {
    ForwardedIs(nodes, members, nodes[self].leader, service, net, path + [false], budget, first);
  }

  method HandleGet(self: NodeId, members: seq<NodeId>, cluster: Nodes, key: string, net: Net, path: Path, budget: nat)
    returns (answer: Answer, ghost r: Served)
    requires Apart(cluster) && Distinct(members) && cluster.Keys == Elems(members) && self in cluster
    modifies cluster.Values
    ensures Ends(old(States(cluster)), members, self, Get(key), net, path, budget, r)
    ensures r.nodes == States(cluster) && r.answer == answer
    decreases budget, 1
  {
    ghost var nodes := States(cluster);
    var addr := cluster[self].leader;
    if addr == "" {
      return Failed, Served(nodes, Failed, 0);
    }
    if addr == self {
      var value, error := cluster[self].GetKV(key);
      return Done(value, error), Served(nodes, Done(value, error), 0);
    }
    if addr !in cluster {
      return Failed, Served(nodes, Failed, 0);
    }
    answer, r := ForwardGet(addr, members, cluster, key, net, path + [false], budget);
    if answer.Failed? {
      ghost var first := r;
      answer, r := RetryGet(self, members, cluster, key, net, path, budget);
      EndsByRetry(nodes, members, self, Get(key), net, path, budget, first, r);
    } else {
      EndsAtOnce(nodes, members, self, Get(key), net, path, budget, r);
    }
  }

  method RetryGet(self: NodeId, members: seq<NodeId>, cluster: Nodes, key: string, net: Net, path: Path, budget: nat)
    returns (answer: Answer, ghost r: Served)
    requires Apart(cluster) && Distinct(members) && cluster.Keys == Elems(members) && self in cluster
    modifies cluster.Values
    ensures RetryEnds(old(States(cluster)), members, self, Get(key), net, path, budget, r)
    ensures r.nodes == States(cluster) && r.answer == answer
    decreases budget, 1, 0
  {
    ghost var before := States(cluster);
    var elected := TriggerElection(self, members, cluster, net.trigger(path), net.election(path));
    var addr := cluster[self].leader;
    if !elected || addr !in cluster {
      return Failed, Served(States(cluster), Failed, 0);
    }
    ghost var after := States(cluster);
    answer, r := ForwardGet(addr, members, cluster, key, net, path + [true], budget);
    RetryEndsBy(before, members, self, Get(key), net, path, budget, after, r);
  }

  method ForwardGet(to: NodeId, members: seq<NodeId>, cluster: Nodes, key: string, net: Net, path: Path, budget: nat)
    returns (answer: Answer, ghost r: Served)
    requires Apart(cluster) && Distinct(members) && cluster.Keys == Elems(members) && to in cluster
    modifies cluster.Values
    ensures Forwarded(old(States(cluster)), members, to, Get(key), net, path, budget, r)
    ensures r.nodes == States(cluster) && r.answer == answer
    decreases budget, 0
  {
    if Fate(net, path) == Lost || budget == 0 {
      return Failed, Served(States(cluster), Failed, 0);
    }
    answer, r := HandleGet(to, members, cluster, key, net, path, Deeper(budget));
    if Fate(net, path) != Delivered {
      answer := Failed;
    }
    r := Passed(r, Fate(net, path));
  }

  method HandleSet(self: NodeId, members: seq<NodeId>, cluster: Nodes, key: string, value: string, net: Net,
                   path: Path, budget: nat)
    returns (answer: Answer, ghost r: Served)
    requires Apart(cluster) && Distinct(members) && cluster.Keys == Elems(members) && self in cluster
    modifies cluster.Values
    ensures Ends(old(States(cluster)), members, self, Set(key, value), net, path, budget, r)
    ensures r.nodes == States(cluster) && r.answer == answer
    decreases budget, 1
  {
    ghost var nodes := States(cluster);
    var addr := cluster[self].leader;
    if addr == "" {
      return Failed, Served(nodes, Failed, 0);
    }
    if addr == self {
      var reply := AttemptConsensus(self, members, cluster, SetRequest(key, value), net.attempt(path));
      answer := if reply.Ok? then Done("", 0) else Failed;
      return answer, Served(States(cluster), answer, 0);
    }
    if addr !in cluster {
      return Failed, Served(nodes, Failed, 0);
    }
    answer, r := ForwardSet(addr, members, cluster, key, value, net, path + [false], budget);
    if answer.Failed? {
      ghost var first := r;
      answer, r := RetrySet(self, members, cluster, key, value, net, path, budget);
      EndsByRetry(nodes, members, self, Set(key, value), net, path, budget, first, r);
    } else {
      EndsAtOnce(nodes, members, self, Set(key, value), net, path, budget, r);
    }
  }

  method RetrySet(self: NodeId, members: seq<NodeId>, cluster: Nodes, key: string, value: string, net: Net,
                   path: Path, budget: nat)
    returns (answer: Answer, ghost r: Served)
    requires Apart(cluster) && Distinct(members) && cluster.Keys == Elems(members) && self in cluster
    modifies cluster.Values
    ensures RetryEnds(old(States(cluster)), members, self, Set(key, value), net, path, budget, r)
    ensures r.nodes == States(cluster) && r.answer == answer
    decreases budget, 1, 0
  {
    ghost var before := States(cluster);
    var elected := TriggerElection(self, members, cluster, net.trigger(path), net.election(path));
    var addr := cluster[self].leader;
    if !elected || addr !in cluster {
      return Failed, Served(States(cluster), Failed, 0);
    }
    ghost var after := States(cluster);
    answer, r := ForwardSet(addr, members, cluster, key, value, net, path + [true], budget);
    RetryEndsBy(before, members, self, Set(key, value), net, path, budget, after, r);
  }

  method ForwardSet(to: NodeId, members: seq<NodeId>, cluster: Nodes, key: string, value: string, net: Net,
                   path: Path, budget: nat)
    returns (answer: Answer, ghost r: Served)
    requires Apart(cluster) && Distinct(members) && cluster.Keys == Elems(members) && to in cluster
    modifies cluster.Values
    ensures Forwarded(old(States(cluster)), members, to, Set(key, value), net, path, budget, r)
    ensures r.nodes == States(cluster) && r.answer == answer
    decreases budget, 0
  {
    if Fate(net, path) == Lost || budget == 0 {
      return Failed, Served(States(cluster), Failed, 0);
    }
    answer, r := HandleSet(to, members, cluster, key, value, net, path, Deeper(budget));
    if Fate(net, path) != Delivered {
      answer := Failed;
    }
    r := Passed(r, Fate(net, path));
  }
}
