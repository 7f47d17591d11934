/** What one attempt that nothing interferes with does, from any state and under any outcomes of its remote calls. */
module Isolated {
  import opened Protocol
  import opened Quorum
  import opened Attempts
  import opened Phases

  // ----- An aborted attempt leaves the stores alone -----

  predicate SameStore(s: NodeState, s': NodeState) {
    s'.kv == s.kv && s'.leader == s.leader && s'.applied == s.applied
  }

  lemma StoreAfterCall(s: NodeState, call: Call, outcome: Outcome)
    requires !call.Success?
    ensures SameStore(s, Transmit(s, call, outcome).0)
  {
  }

  lemma InformingPersists(a: Attempt, reply: Option<Reply>)
    requires a.todo != [] && a.stage == Informing
    ensures Receive(a, reply).stage == Informing || Receive(a, reply).ok
  {
  }

  /** An attempt that returns ABORTED has changed no replica's store and no replica's leader. */
  lemma {:induction false} AbortIsAtomic(nodes: Cluster, a: Attempt, oracle: Oracle)
    requires Hosts(nodes, a) && !Execute(nodes, a, oracle).1.ok
    ensures a.stage != Informing && !a.ok
    ensures forall n :: n in nodes ==>
              n in Execute(nodes, a, oracle).0 && SameStore(nodes[n], Execute(nodes, a, oracle).0[n])
    decreases Rank(a), |a.todo|
  {
    if a.stage != Returned {
      var outcome := oracle(a.stage, a.todo[0]);
      ExecuteStep(nodes, a, oracle);
      CallStepHosts(nodes, a, outcome);
      var (nodes', b) := CallStep(nodes, a, outcome);
      AbortIsAtomic(nodes', b, oracle);
      if a.stage == Informing {
        InformingPersists(a, Transmit(nodes[a.todo[0]], NextCall(a), outcome).1);
      } else {
        StoreAfterCall(nodes[a.todo[0]], NextCall(a), outcome);
      }
    }
  }

  // ----- Every attempt stays at its own key and round -----

  /** `s'` differs from `s` at most in the entry at `key` and `round`, and in what is stored for `key`; an election
      touches no store and a set call no leader. */
  ghost predicate Framed(s: NodeState, s': NodeState, key: string, round: nat) {
    && (forall k, r :: k != key || r != round ==>
          && (r in RoundsOf(s'.log, k) <==> r in RoundsOf(s.log, k))
          && EntryAt(RoundsOf(s'.log, k), r) == EntryAt(RoundsOf(s.log, k), r))
    && (forall k :: k != key ==> (k in s'.kv <==> k in s.kv) && (k in s.kv ==> s'.kv[k] == s.kv[k]))
    && (if key == LEADER_KEY then s'.kv == s.kv else s'.leader == s.leader)
  }

  lemma CallFramed(s: NodeState, call: Call, outcome: Outcome, key: string, round: nat)
    requires call.Ping? || (call.request.key == key && call.request.round == round)
    ensures Framed(s, Transmit(s, call, outcome).0, key, round)
  {
    if outcome != Lost {
      ServeFramed(s, call, key, round);
    }
  }

  lemma ServeFramed(s: NodeState, call: Call, key: string, round: nat)
    requires call.Ping? || (call.request.key == key && call.request.round == round)
    ensures Framed(s, Serve(s, call).0, key, round)
  {
  }

  lemma NextCallRound(a: Attempt)
    requires Wellformed(a) && a.stage != Returned
    ensures NextCall(a).Ping? || (NextCall(a).request.key == a.request.key && NextCall(a).request.round == a.round)
  {
  }

  lemma FramedTransitive(s: NodeState, s': NodeState, s'': NodeState, key: string, round: nat)
    requires Framed(s, s', key, round) && Framed(s', s'', key, round)
    ensures Framed(s, s'', key, round)
  {
  }

  /** Whatever its result, an attempt changes log entries at its own key and round only, on every replica. */
  lemma {:induction false} AttemptIsFramed(nodes: Cluster, a: Attempt, oracle: Oracle, n: NodeId)
    requires Hosts(nodes, a) && n in nodes
    ensures n in Execute(nodes, a, oracle).0
    ensures Framed(nodes[n], Execute(nodes, a, oracle).0[n], a.request.key, a.round)
    decreases Rank(a), |a.todo|
  {
    if a.stage != Returned {
      var outcome := oracle(a.stage, a.todo[0]);
      ExecuteStep(nodes, a, oracle);
      CallStepHosts(nodes, a, outcome);
      var (nodes', b) := CallStep(nodes, a, outcome);
      NextCallRound(a);
      CallFramed(nodes[a.todo[0]], NextCall(a), outcome, a.request.key, a.round);
      AttemptIsFramed(nodes', b, oracle, n);
      FramedTransitive(nodes[n], nodes'[n], Execute(nodes', b, oracle).0[n], a.request.key, a.round);
    }
  }

  // ----- OK is durable -----

  predicate LogsValue(s: NodeState, q: Request) {
    var e := EntryAt(RoundsOf(s.log, q.key), q.round);
    e.aServerId == PROPOSE_ID && e.acceptedValue == q.value && e.op == q.op
  }

  function Holders(nodes: Cluster, asked: seq<NodeId>, q: Request): set<NodeId> {
    set n | n in asked && n in nodes && LogsValue(nodes[n], q)
  }

  ghost predicate HeldBy(nodes: Cluster, h: set<NodeId>, q: Request) {
    h <= nodes.Keys && forall n :: n in h ==> LogsValue(nodes[n], q)
  }

  /** A quorum of replicas has the accepted value in its log. */
  ghost predicate Durable(nodes: Cluster, members: seq<NodeId>, q: Request) {
    exists h: set<NodeId> :: HeldBy(nodes, h, q) && !NoQuorum(|h|, |members|)
  }

  ghost predicate Tally(nodes: Cluster, a: Attempt) {
    match a.stage
    case Pinging => true
    case Proposing => true
    case Accepting => a.acceptances <= |Holders(nodes, Asked(a), AcceptRequest(a))|
    case Informing => Durable(nodes, a.members, AcceptRequest(a))
    case Returned => a.ok ==> Durable(nodes, a.members, AcceptRequest(a))
  }

  lemma CallHolds(s: NodeState, call: Call, outcome: Outcome, q: Request)
    requires call == Accept(q) || call == Success(q)
    requires q.pServerId == PROPOSE_ID
    ensures LogsValue(s, q) ==> LogsValue(Transmit(s, call, outcome).0, q)
    ensures outcome != Lost ==> LogsValue(Transmit(s, call, outcome).0, q)
  {
  }

  lemma AcceptTally(nodes: Cluster, nodes': Cluster, a: Attempt, outcome: Outcome)
    requires AcceptingShape(a) && Distinct(a.live) && a.stage == Accepting && Tally(nodes, a)
    requires a.todo[0] in nodes
    requires nodes' == nodes[a.todo[0] := Transmit(nodes[a.todo[0]], NextCall(a), outcome).0]
    ensures var m := Absorb(a, a.todo[0], Transmit(nodes[a.todo[0]], NextCall(a), outcome).1).(todo := a.todo[1..]);
            m.acceptances <= |Holders(nodes', Asked(m), AcceptRequest(a))|
  {
    var n, q := a.todo[0], AcceptRequest(a);
    var reply := Transmit(nodes[n], NextCall(a), outcome).1;
    AskedMore(a, reply);
    CallHolds(nodes[n], NextCall(a), outcome, q);
    var m := Absorb(a, n, reply).(todo := a.todo[1..]);
    var before, after := Holders(nodes, Asked(a), q), Holders(nodes', Asked(m), q);
    assert before <= after && n !in before;
    if reply.Some? {
      assert n in after;
      SubsetSize(before + {n}, after);
    } else {
      SubsetSize(before, after);
    }
  }

  lemma SettleTally(nodes: Cluster, m: Attempt)
    requires m.stage == Accepting && !m.ok
    requires m.acceptances <= |Holders(nodes, Asked(m), AcceptRequest(m))|
    ensures Tally(nodes, Settle(m))
  {
    if Settle(m).stage == Informing {
      var h := Holders(nodes, Asked(m), AcceptRequest(m));
      assert HeldBy(nodes, h, AcceptRequest(m)) && !NoQuorum(|h|, |m.members|);
      assert Durable(nodes, m.members, AcceptRequest(m));
    }
  }

  lemma InformTally(nodes: Cluster, nodes': Cluster, a: Attempt, outcome: Outcome)
    requires a.stage == Informing && Tally(nodes, a) && a.todo != [] && a.todo[0] in nodes
    requires a.acceptance == Echo(AcceptRequest(a))
    requires nodes' == nodes[a.todo[0] := Transmit(nodes[a.todo[0]], NextCall(a), outcome).0]
    ensures Durable(nodes', a.members, AcceptRequest(a))
  {
    var q := AcceptRequest(a);
    CallHolds(nodes[a.todo[0]], NextCall(a), outcome, q);
    var h: set<NodeId> :| HeldBy(nodes, h, q) && !NoQuorum(|h|, |a.members|);
    assert HeldBy(nodes', h, q);
  }

  lemma StepTally(nodes: Cluster, a: Attempt, outcome: Outcome)
    requires Hosts(nodes, a) && a.stage != Returned && Tally(nodes, a) && a.todo != [] && a.todo[0] in nodes
    ensures Tally(CallStep(nodes, a, outcome).0, CallStep(nodes, a, outcome).1)
  {
    var (nodes', b) := CallStep(nodes, a, outcome);
    var reply := Transmit(nodes[a.todo[0]], NextCall(a), outcome).1;
    if a.stage == Accepting {
      AcceptTally(nodes, nodes', a, outcome);
      AskedMore(a, reply);
      SettleTally(nodes', Absorb(a, a.todo[0], reply).(todo := a.todo[1..]));
    } else if a.stage == Informing {
      InformTally(nodes, nodes', a, outcome);
    } else {
      assert a.acceptances == 0 && b.acceptances == 0 && !a.ok;
    }
  }

  lemma {:induction false} ExecuteTally(nodes: Cluster, a: Attempt, oracle: Oracle)
    requires Hosts(nodes, a) && Tally(nodes, a)
    ensures Tally(Execute(nodes, a, oracle).0, Execute(nodes, a, oracle).1)
    decreases Rank(a), |a.todo|
  {
    if a.stage != Returned {
      var outcome := oracle(a.stage, a.todo[0]);
      ExecuteStep(nodes, a, oracle);
      CallStepHosts(nodes, a, outcome);
      StepTally(nodes, a, outcome);
      ExecuteTally(CallStep(nodes, a, outcome).0, CallStep(nodes, a, outcome).1, oracle);
    }
  }

  /** When an attempt returns OK, at least half of the replicas, rounded up, hold an accepted entry with the returned
      value and operation at its key and round, whoever proposed and whatever was lost. */
  lemma OkIsDurable(nodes: Cluster, members: seq<NodeId>, proposer: NodeId, request: Request, oracle: Oracle)
    returns (h: set<NodeId>)
    requires Distinct(members) && nodes.Keys == Elems(members) && proposer in members
    requires RunAttempt(nodes, members, proposer, request, oracle).1.ok
    ensures h <= Elems(members) && |h| >= (|members| + 1) / 2
    ensures var (nodes', a) := RunAttempt(nodes, members, proposer, request, oracle);
            forall n :: n in h ==>
              var e := EntryAt(RoundsOf(nodes'[n].log, request.key), NextRound(nodes[proposer], request.key));
              e.aServerId == PROPOSE_ID && e.acceptedValue == a.acceptance.value && e.op == a.acceptance.op
  {
    var round := NextRound(nodes[proposer], request.key);
    BeginWellformed(proposer, request, members, round);
    ExecuteTally(nodes, Begin(proposer, request, members, round), oracle);
    var (nodes', a) := RunAttempt(nodes, members, proposer, request, oracle);
    assert Durable(nodes', members, AcceptRequest(a));
    h :| HeldBy(nodes', h, AcceptRequest(a)) && !NoQuorum(|h|, |members|);
  }
}
