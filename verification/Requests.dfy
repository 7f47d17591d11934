/** What a client can tell from the answer to its request, case by case: when there is one, which call it comes from,
    and what has happened to the cluster when there is none. */
module Requests {
  import opened Protocol
  import opened Quorum
  import opened Attempts
  import opened Isolated
  import opened Forwarding

  // ----- Elections -----

  /** The attempt behind an election of `self`. */
  ghost function Candidacy(nodes: Cluster, members: seq<NodeId>, self: NodeId, oracle: Oracle): (r: (Cluster, Attempt))
    requires Clustered(nodes, members) && self in members
    ensures self in r.0
  {
    assert self in Elems(members);
    RunAttempt(nodes, members, self, Request("leader", self, 0, 0, 0, SET_LEADER), oracle)
  }

  /** A replica counts its election as won if and only if its call to itself was answered and the attempt returned OK.
      The attempt happens unless the call is lost, and if it returned OK the replica names the agreed value, whether it
      hears so or not; otherwise it goes on naming whom it named. */
  lemma ElectionExactly(nodes: Cluster, members: seq<NodeId>, self: NodeId, outcome: Outcome, oracle: Oracle)
    requires Clustered(nodes, members) && self in members && self in nodes
    ensures var (nodes', won) := Trigger(nodes, members, self, outcome, oracle);
            var (after, a) := Candidacy(nodes, members, self, oracle);
            && (won <==> outcome == Delivered && a.ok)
            && (outcome == Lost ==> nodes' == nodes)
            && (outcome != Lost ==> nodes' == after[self := after[self].(leader := nodes'[self].leader)])
            && nodes'[self].leader
               == (if outcome != Lost && a.ok then a.acceptance.value else nodes[self].leader)
  {
    var (after, a) := Candidacy(nodes, members, self, oracle);
    if !a.ok {
      CandidacyAborts(nodes, members, self, oracle);
      assert after[self := after[self].(leader := after[self].leader)] == after;
    }
  }

  lemma CandidacyAborts(nodes: Cluster, members: seq<NodeId>, self: NodeId, oracle: Oracle)
    requires Clustered(nodes, members) && self in members && self in nodes
    requires !Candidacy(nodes, members, self, oracle).1.ok
    ensures Candidacy(nodes, members, self, oracle).0[self].leader == nodes[self].leader
  {
    var q := Request("leader", self, 0, 0, 0, SET_LEADER);
    var a := Begin(self, q, members, NextRound(nodes[self], "leader"));
    BeginWellformed(self, q, members, NextRound(nodes[self], "leader"));
    AbortIsAtomic(nodes, a, oracle);
  }

  /** The election handler answers OK exactly if its attempt does, whatever key and value it is called with. */
  lemma ElectionHandlerExactly(nodes: Cluster, members: seq<NodeId>, self: NodeId, key: string, value: string,
                               oracle: Oracle)
    requires Clustered(nodes, members) && self in members && self in nodes
    ensures var (nodes', won) := ElectFor(nodes, members, self, key, value, oracle);
            var (after, a) := RunAttempt(nodes, members, self, Request(key, value, 0, 0, 0, SET_LEADER), oracle);
            && (won <==> a.ok) && self in after
            && nodes' == if a.ok then after[self := after[self].(leader := a.acceptance.value)] else after
  {
  }

  // ----- Requests that are not forwarded -----

  /** A replica that names nobody, or somebody who is not in the cluster, fails the request at once: nothing is asked of
      anyone, and every log, store and leader name is what it was. */
  lemma NobodyToAsk(nodes: Cluster, members: seq<NodeId>, self: NodeId, service: Service, net: Net, path: Path,
                    budget: nat)
    requires Clustered(nodes, members) && self in nodes
    requires nodes[self].leader == "" || nodes[self].leader !in nodes
    ensures var r := Handle(nodes, members, self, service, net, path, budget);
            r.nodes == nodes && r.answer.Failed?
  {
  }

  /** A replica that names itself answers a get call from its store, and a set call OK exactly if its own attempt for it
      does. */
  lemma LeaderAnswers(nodes: Cluster, members: seq<NodeId>, self: NodeId, service: Service, net: Net, path: Path,
                      budget: nat)
    requires Clustered(nodes, members) && self in members && self in nodes && nodes[self].leader == self != ""
    ensures var r, kv := Handle(nodes, members, self, service, net, path, budget), nodes[self].kv;
            match service
            case Get(key) =>
              r.nodes == nodes && r.answer == (if key in kv then Done(kv[key], 0) else Done("", 1))
            case Set(key, value) =>
              var (after, a) := RunAttempt(nodes, members, self, Request(key, value, 0, 0, 0, GET), net.attempt(path));
              r.nodes == after && r.answer == (if a.ok then Done("", 0) else Failed)
  {
    AtLeader(nodes, members, self, service, net, path, budget);
  }

  // ----- Requests that are forwarded -----

  /** `self` names another member. */
  ghost predicate Forwards(nodes: Cluster, members: seq<NodeId>, self: NodeId) {
    && Clustered(nodes, members) && self in members && self in nodes
    && nodes[self].leader in nodes && nodes[self].leader != "" && nodes[self].leader != self
  }

  /** A forwarding call reaches its target unless it is lost or too deep, and its answer counts only if it arrives. */
  lemma ForwardingCall(nodes: Cluster, members: seq<NodeId>, to: NodeId, service: Service, net: Net, path: Path,
                       budget: nat)
    requires Clustered(nodes, members) && to in nodes
    ensures var r := Forward(nodes, members, to, service, net, path, budget);
            if net.forward(path) == Lost || budget == 0 then r.nodes == nodes && r.answer.Failed?
            else
              && Deeper(budget) + 1 == budget
              && var inner := Handle(nodes, members, to, service, net, path, Deeper(budget));
                 r.nodes == inner.nodes && r.answer == (if net.forward(path) == Delivered then inner.answer else Failed)
  {
  }

  /** What the leader that `self` names does with the request, if it gets it. */
  function AtNamed(nodes: Cluster, members: seq<NodeId>, self: NodeId, service: Service, net: Net, path: Path,
                   budget: nat): Served
    requires Clustered(nodes, members) && self in nodes && nodes[self].leader in nodes && budget > 0
  {
    Handle(nodes, members, nodes[self].leader, service, net, path, Deeper(budget))
  }

  /** The call to the leader that `self` names is answered. */
  predicate IsAnswered(nodes: Cluster, members: seq<NodeId>, self: NodeId, service: Service, net: Net, path: Path,
                    budget: nat)
    requires Clustered(nodes, members) && self in nodes && nodes[self].leader in nodes
  {
    && budget > 0 && net.forward(path) == Delivered
    && AtNamed(nodes, members, self, service, net, path, budget).answer.Done?
  }

  /** The cluster after that call, whatever became of it. */
  function AfterCall(nodes: Cluster, members: seq<NodeId>, self: NodeId, service: Service, net: Net, path: Path,
                     budget: nat): (nodes': Cluster)
    requires Clustered(nodes, members) && self in nodes && nodes[self].leader in nodes
    ensures Clustered(nodes', members)
  {
    if net.forward(path) == Lost || budget == 0 then nodes
    else AtNamed(nodes, members, self, service, net, path, budget).nodes
  }

  lemma CallIs(nodes: Cluster, members: seq<NodeId>, self: NodeId, service: Service, net: Net, path: Path, budget: nat)
    requires Clustered(nodes, members) && self in nodes && nodes[self].leader in nodes
    ensures var r := Forward(nodes, members, nodes[self].leader, service, net, path, budget);
            && r.nodes == AfterCall(nodes, members, self, service, net, path, budget)
            && (r.answer.Done? <==> IsAnswered(nodes, members, self, service, net, path, budget))
            && (r.answer.Done? ==> r.answer == AtNamed(nodes, members, self, service, net, path, budget).answer)
  {
    ForwardingCall(nodes, members, nodes[self].leader, service, net, path, budget);
  }

  /** If the leader answers the first call, its answer is passed on and there is no election. */
  lemma FirstAnswerStands(nodes: Cluster, members: seq<NodeId>, self: NodeId, service: Service, net: Net, path: Path,
                          budget: nat)
    requires Forwards(nodes, members, self)
    requires IsAnswered(nodes, members, self, service, net, path + [false], budget)
    ensures var r := Handle(nodes, members, self, service, net, path, budget);
            var inner := AtNamed(nodes, members, self, service, net, path + [false], budget);
            r.nodes == inner.nodes && r.answer == inner.answer
  {
    CallIs(nodes, members, self, service, net, path + [false], budget);
  }

  /** The first call was not answered, because it was lost, its answer was, or the leader failed the request; `first` is
      what it left. */
  ghost predicate Unanswered(nodes: Cluster, members: seq<NodeId>, self: NodeId, service: Service, net: Net, path: Path,
                             budget: nat, first: Cluster) {
    && Forwards(nodes, members, self)
    && !IsAnswered(nodes, members, self, service, net, path + [false], budget)
    && first == AfterCall(nodes, members, self, service, net, path + [false], budget)
  }

  lemma ThenRetries(nodes: Cluster, members: seq<NodeId>, self: NodeId, service: Service, net: Net, path: Path,
                    budget: nat, first: Cluster)
    requires Unanswered(nodes, members, self, service, net, path, budget, first)
    ensures Clustered(first, members) && self in first && self in members
    ensures Handle(nodes, members, self, service, net, path, budget)
            == Retry(first, members, self, service, net, path, budget)
  {
    CallIs(nodes, members, self, service, net, path + [false], budget);
    assert self in Elems(members);
  }

  /** Then the replica asks itself for an election. If that is not won, because its own call is lost, or the answer to
      it, or the attempt aborts, the request fails and only the election has happened. */
  lemma LostElectionFails(nodes: Cluster, members: seq<NodeId>, self: NodeId, service: Service, net: Net, path: Path,
                          budget: nat, first: Cluster)
    requires Unanswered(nodes, members, self, service, net, path, budget, first)
    requires Clustered(first, members) && self in first
             && (net.trigger(path) == Delivered ==> !Candidacy(first, members, self, net.election(path)).1.ok)
    ensures var r := Handle(nodes, members, self, service, net, path, budget);
            && r.answer.Failed? && self in r.nodes
            && r.nodes == Trigger(first, members, self, net.trigger(path), net.election(path)).0
            && (net.trigger(path) == Lost ==> r.nodes == first)
  {
    ThenRetries(nodes, members, self, service, net, path, budget, first);
    ElectionExactly(first, members, self, net.trigger(path), net.election(path));
  }

  /** In particular if the answer to its call is lost: the client is told that there is no leader, although the replica
      now names the agreed value, exactly if the attempt returned OK. */
  lemma UnheardElection(nodes: Cluster, members: seq<NodeId>, self: NodeId, service: Service, net: Net, path: Path,
                        budget: nat, first: Cluster)
    requires Unanswered(nodes, members, self, service, net, path, budget, first) && net.trigger(path) == ReplyLost
    requires Clustered(first, members) && self in first
    ensures var r := Handle(nodes, members, self, service, net, path, budget);
            var a := Candidacy(first, members, self, net.election(path)).1;
            && r.answer.Failed? && self in r.nodes
            && r.nodes[self].leader == (if a.ok then a.acceptance.value else first[self].leader)
  {
    LostElectionFails(nodes, members, self, service, net, path, budget, first);
    ElectionExactly(first, members, self, ReplyLost, net.election(path));
  }

  /** If it is won, the request goes to the leader that is named now, and only its answer to that second call is an
      answer to the client. Nothing that the first call may have brought about is answered for. */
  lemma OnlyRetryAnswers(nodes: Cluster, members: seq<NodeId>, self: NodeId, service: Service, net: Net, path: Path,
                         budget: nat, first: Cluster, elected: Cluster)
    requires Unanswered(nodes, members, self, service, net, path, budget, first)
    requires Clustered(first, members) && self in first && self in elected
    requires Trigger(first, members, self, net.trigger(path), net.election(path)) == (elected, true)
    requires Clustered(elected, members)
    ensures var r := Handle(nodes, members, self, service, net, path, budget);
            if elected[self].leader !in elected then r.nodes == elected && r.answer.Failed?
            else
              && r.nodes == AfterCall(elected, members, self, service, net, path + [true], budget)
              && (r.answer.Done? <==> IsAnswered(elected, members, self, service, net, path + [true], budget))
              && (r.answer.Done? ==>
                    r.answer == AtNamed(elected, members, self, service, net, path + [true], budget).answer)
  {
    ThenRetries(nodes, members, self, service, net, path, budget, first);
    if elected[self].leader in elected {
      CallIs(elected, members, self, service, net, path + [true], budget);
    }
  }

  /** Put together: the client of a replica that forwards gets an answer if and only if the first call is answered, or
      the election after it is won and the second call, to the leader named then, is answered. */
  lemma AnsweredExactly(nodes: Cluster, members: seq<NodeId>, self: NodeId, service: Service, net: Net, path: Path,
                        budget: nat, first: Cluster, elected: Cluster)
    requires Forwards(nodes, members, self) && Clustered(first, members) && self in first
    requires first == AfterCall(nodes, members, self, service, net, path + [false], budget)
    requires elected == Trigger(first, members, self, net.trigger(path), net.election(path)).0 && self in elected
    ensures Handle(nodes, members, self, service, net, path, budget).answer.Done? <==>
              || IsAnswered(nodes, members, self, service, net, path + [false], budget)
              || (   net.trigger(path) == Delivered && Candidacy(first, members, self, net.election(path)).1.ok
                  && elected[self].leader in elected
                  && IsAnswered(elected, members, self, service, net, path + [true], budget))
  {
    ElectionExactly(first, members, self, net.trigger(path), net.election(path));
    if IsAnswered(nodes, members, self, service, net, path + [false], budget) {
      FirstAnswerStands(nodes, members, self, service, net, path, budget);
    } else if net.trigger(path) == Delivered && Candidacy(first, members, self, net.election(path)).1.ok {
      OnlyRetryAnswers(nodes, members, self, service, net, path, budget, first, elected);
    } else {
      LostElectionFails(nodes, members, self, service, net, path, budget, first);
    }
  }
}
