/** The exact outcome of an undisturbed attempt, whatever becomes of each of its calls. */
module Outcomes {
  import opened Protocol
  import opened Quorum
  import opened Attempts
  import opened Cells
  import opened Phases

  /** The states of logs that runs produce: see `AnyRuns.NeverOutOfDate`. */
  predicate KnownIds(s: NodeState, key: string, round: nat) {
    var e := EntryAt(RoundsOf(s.log, key), round);
    e.pServerId == 0 && (e.aServerId == 0 || e.aServerId == PROPOSE_ID)
  }

  ghost predicate AllKnown(nodes: Cluster, key: string, round: nat) {
    forall n :: n in nodes ==> KnownIds(nodes[n], key, round)
  }

  predicate Accepted(s: NodeState, key: string, round: nat) {
    EntryAt(RoundsOf(s.log, key), round).aServerId > 0
  }

  /** The replicas whose answers to the ping, and to the propose and accept calls after it, arrive. */
  function Live(members: seq<NodeId>, oracle: Oracle): seq<NodeId> {
    Answering(members, Pinging, oracle)
  }

  function Promisers(members: seq<NodeId>, oracle: Oracle): seq<NodeId> {
    Answering(Live(members, oracle), Proposing, oracle)
  }

  function Voters(members: seq<NodeId>, oracle: Oracle): seq<NodeId> {
    Answering(Live(members, oracle), Accepting, oracle)
  }

  lemma ReachedElems(members: seq<NodeId>, oracle: Oracle)
    ensures Elems(Live(members, oracle)) == set n | n in members && oracle(Pinging, n) == Delivered
    ensures Elems(Promisers(members, oracle))
            == set n | n in members && oracle(Pinging, n) == Delivered && oracle(Proposing, n) == Delivered
    ensures Elems(Voters(members, oracle))
            == set n | n in members && oracle(Pinging, n) == Delivered && oracle(Accepting, n) == Delivered
  {
    var live := Live(members, oracle);
    AnsweringElems(members, Pinging, oracle);
    AnsweringElems(live, Proposing, oracle);
    AnsweringElems(live, Accepting, oracle);
    assert forall n :: n in live <==> n in Elems(live);
  }

  // ----- Which value is adopted -----

  /** The accept call that follows from what these replicas have accepted before: the value of the first of them, in
      member order, that has accepted one at this key and round, and the client's value if there is none. */
  predicate Follows(q: Request, nodes: Cluster, side: seq<NodeId>, request: Request, round: nat)
    requires Elems(side) <= nodes.Keys
  {
    && q.key == request.key && q.round == round && q.pServerId == PROPOSE_ID
    && (   (q.value == request.value && q.op == request.op && q.aServerId == 0
            && forall n :: n in Elems(side) ==> !Accepted(nodes[n], request.key, round))
        || exists i :: 0 <= i < |side| && Leads(q, nodes, side, i))
  }

  predicate Leads(q: Request, nodes: Cluster, side: seq<NodeId>, i: nat)
    requires i < |side| && Elems(side) <= nodes.Keys
  {
    assert forall j :: 0 <= j < |side| ==> side[j] in Elems(side);
    var e := EntryAt(RoundsOf(nodes[side[i]].log, q.key), q.round);
    && e.aServerId > 0 && q.value == e.acceptedValue && q.op == e.op && q.aServerId == e.aServerId
    && forall j :: 0 <= j < i ==> !Accepted(nodes[side[j]], q.key, q.round)
  }

  lemma FollowsExactly(q: Request, nodes: Cluster, side: seq<NodeId>, request: Request, round: nat)
    requires Elems(side) <= nodes.Keys && Follows(q, nodes, side, request, round)
    ensures q.aServerId == 0 <==> forall n :: n in Elems(side) ==> !Accepted(nodes[n], request.key, round)
    ensures q.aServerId == 0 ==> q.value == request.value && q.op == request.op
  {
    assert forall i :: 0 <= i < |side| ==> side[i] in Elems(side);
  }

  /** The answer to a propose call offers exactly what the replica has accepted. */
  lemma OffersOwn(s: NodeState, q: Request)
    requires KnownIds(s, q.key, q.round) && q.pServerId == PROPOSE_ID
    ensures var reply, e := ServePropose(s, q).1, EntryAt(RoundsOf(s.log, q.key), q.round);
            && reply.Ok? && reply.response.aServerId == e.aServerId
            && (e.aServerId > 0 ==> reply.response.value == e.acceptedValue && reply.response.op == e.op)
  {
  }

  lemma FollowsMore(q: Request, nodes: Cluster, side: seq<NodeId>, request: Request, round: nat, n: NodeId)
    requires n in nodes && Elems(side) <= nodes.Keys && Follows(q, nodes, side, request, round)
    requires q.aServerId > 0 || !Accepted(nodes[n], request.key, round)
    ensures Elems(side + [n]) <= nodes.Keys && Follows(q, nodes, side + [n], request, round)
  {
    assert Elems(side + [n]) == Elems(side) + {n};
    assert forall i :: 0 <= i < |side| ==> (side + [n])[i] == side[i] && side[i] in Elems(side);
    if i :| 0 <= i < |side| && Leads(q, nodes, side, i) {
      assert Leads(q, nodes, side + [n], i);
    }
  }

  lemma FollowsFirst(q: Request, q': Request, nodes: Cluster, side: seq<NodeId>, request: Request, round: nat,
                     n: NodeId)
    requires n in nodes && Elems(side) <= nodes.Keys && Follows(q, nodes, side, request, round) && q.aServerId == 0
    requires q'.key == request.key && q'.round == round && q'.pServerId == PROPOSE_ID
    requires var e := EntryAt(RoundsOf(nodes[n].log, request.key), round);
             e.aServerId > 0 && q'.value == e.acceptedValue && q'.op == e.op && q'.aServerId == e.aServerId
    ensures Elems(side + [n]) <= nodes.Keys && Follows(q', nodes, side + [n], request, round)
  {
    FollowsExactly(q, nodes, side, request, round);
    assert Elems(side + [n]) == Elems(side) + {n};
    assert forall i :: 0 <= i < |side| ==> (side + [n])[i] == side[i] && side[i] in Elems(side);
    assert Leads(q', nodes, side + [n], |side|);
  }

  /** The propose loop counts the answers that arrive, and adopts from them what `Follows` says. */
  lemma {:induction false} ProposeLoop(nodes: Cluster, a: Attempt, targets: seq<NodeId>, oracle: Oracle)
    requires a.stage == Proposing && a.acceptedId == 0 && a.promises == 0 && Elems(targets) <= nodes.Keys
    requires AllKnown(nodes, a.request.key, a.round)
    ensures var b := AbsorbAll(a, targets, Replies(nodes, targets, Propose(PrepareRequest(a)), Proposing, oracle));
            var side := Answering(targets, Proposing, oracle);
            && b.promises == |side| && b.acceptedId in {0, PROPOSE_ID} && Elems(side) <= nodes.Keys
            && Follows(AcceptRequest(b), nodes, side, a.request, a.round)
  {
    var q := PrepareRequest(a);
    if targets != [] {
      var front, n := targets[..|targets| - 1], targets[|targets| - 1];
      assert Elems(front) <= Elems(targets) && n in Elems(targets);
      ProposeLoop(nodes, a, front, oracle);
      var rs := Replies(nodes, targets, Propose(q), Proposing, oracle);
      assert rs[..|front|] == Replies(nodes, front, Propose(q), Proposing, oracle);
      var b := AbsorbAll(a, front, rs[..|front|]);
      var side := Answering(front, Proposing, oracle);
      PromiseFollows(nodes, a, b, side, n, oracle(Proposing, n));
      assert Answering(targets, Proposing, oracle) == if oracle(Proposing, n) == Delivered then side + [n] else side;
      assert AbsorbAll(a, targets, rs) == Absorb(b, n, rs[|front|]);
    } else {
      assert Answering(targets, Proposing, oracle) == [];
    }
  }

  /** One more answer to a propose call. */
  lemma PromiseFollows(nodes: Cluster, a: Attempt, b: Attempt, side: seq<NodeId>, n: NodeId, outcome: Outcome)
    requires a.stage == Proposing && b.stage == Proposing && b.request == a.request && b.round == a.round
    requires n in nodes && KnownIds(nodes[n], a.request.key, a.round) && Elems(side) <= nodes.Keys
    requires b.acceptedId in {0, PROPOSE_ID} && Follows(AcceptRequest(b), nodes, side, a.request, a.round)
    ensures var c := Absorb(b, n, Transmit(nodes[n], Propose(PrepareRequest(a)), outcome).1);
            var more := if outcome == Delivered then side + [n] else side;
            && c.promises == b.promises + (if outcome == Delivered then 1 else 0) && c.acceptedId in {0, PROPOSE_ID}
            && Elems(more) <= nodes.Keys && Follows(AcceptRequest(c), nodes, more, a.request, a.round)
  {
    if outcome == Delivered {
      OffersOwn(nodes[n], PrepareRequest(a));
      var c := Absorb(b, n, Transmit(nodes[n], Propose(PrepareRequest(a)), outcome).1);
      if b.acceptedId == 0 && Accepted(nodes[n], a.request.key, a.round) {
        FollowsFirst(AcceptRequest(b), AcceptRequest(c), nodes, side, a.request, a.round, n);
      } else {
        FollowsMore(AcceptRequest(b), nodes, side, a.request, a.round, n);
      }
    }
  }

  // ----- All four stages -----

  /** The request that the propose calls of an attempt carry. */
  function Prepare(request: Request, round: nat): Request {
    Request(request.key, request.value, PROPOSE_ID, 0, round, GET)
  }

  /** What each stage leaves, if the attempt gets that far. */
  function Prepared(nodes: Cluster, members: seq<NodeId>, prepare: Request, oracle: Oracle): Cluster {
    Phase(nodes, Live(members, oracle), Propose(prepare), Proposing, oracle)
  }

  function Balloted(nodes: Cluster, members: seq<NodeId>, prepare: Request, q: Request, oracle: Oracle): Cluster {
    Phase(Prepared(nodes, members, prepare, oracle), Live(members, oracle), Accept(q), Accepting, oracle)
  }

  function Informed(nodes: Cluster, members: seq<NodeId>, prepare: Request, q: Request, oracle: Oracle): Cluster {
    Phase(Balloted(nodes, members, prepare, q, oracle), members, Success(q), Informing, oracle)
  }

  /** How far an attempt gets: each quorum test counts the answers that arrived. */
  predicate Passes(count: nat, members: seq<NodeId>) {
    !NoQuorum(count, |members|)
  }

  ghost predicate Outcomes(nodes: Cluster, members: seq<NodeId>, request: Request, round: nat, oracle: Oracle,
                           q: Request, nodes': Cluster, a: Attempt) {
    var prepare := Prepare(request, round);
    if !Passes(|Live(members, oracle)|, members) then
      !a.ok && nodes' == nodes
    else if !Passes(|Promisers(members, oracle)|, members) then
      !a.ok && nodes' == Prepared(nodes, members, prepare, oracle)
    else if !Passes(|Voters(members, oracle)|, members) then
      !a.ok && nodes' == Balloted(nodes, members, prepare, q, oracle)
    else
      a.ok && a.acceptance == Echo(q) && nodes' == Informed(nodes, members, prepare, q, oracle)
  }

  lemma SkipPhase(nodes: Cluster, targets: seq<NodeId>, oracle: Oracle)
    ensures Phase(nodes, targets, Ping, Pinging, oracle) == nodes
  {
  }

  /** From the success stage on. */
  lemma FromInforming(nodes: Cluster, a: Attempt, oracle: Oracle, q: Request)
    requires Hosts(nodes, a) && a.stage == Informing && a.todo == a.members && !a.ok
    requires a.acceptance == Echo(q) && q.key == a.request.key
    ensures var (nodes', b) := Execute(nodes, a, oracle);
            b.ok && b.acceptance == Echo(q) && nodes' == Phase(nodes, a.members, Success(q), Informing, oracle)
  {
    PhaseExecutes(nodes, a, oracle);
  }

  /** From the accept stage on. */
  lemma FromAccepting(nodes: Cluster, a: Attempt, oracle: Oracle)
    requires Hosts(nodes, a) && a.stage == Accepting && a.acceptances == 0 && a.todo == a.live && !a.ok
    ensures var q := AcceptRequest(a);
            var (nodes', b) := Execute(nodes, a, oracle);
            var balloted := Phase(nodes, a.live, Accept(q), Accepting, oracle);
            if !Passes(|Answering(a.live, Accepting, oracle)|, a.members) then !b.ok && nodes' == balloted
            else b.ok && b.acceptance == Echo(q) && nodes' == Phase(balloted, a.members, Success(q), Informing, oracle)
  {
    var q := AcceptRequest(a);
    PhaseExecutes(nodes, a, oracle);
    AcceptLoop(nodes, a, a.live, q, oracle);
    var b := Settle(LoopDone(nodes, a, oracle));
    if b.stage == Informing {
      FromInforming(Phase(nodes, a.live, Accept(q), Accepting, oracle), b, oracle, q);
    }
  }

  lemma ProposeStage(nodes: Cluster, a: Attempt, oracle: Oracle)
    requires a.stage == Proposing && a.acceptedId == 0 && a.promises == 0 && a.todo == a.live
    requires Elems(a.live) <= nodes.Keys && AllKnown(nodes, a.request.key, a.round)
    ensures var b, side := LoopDone(nodes, a, oracle), Answering(a.live, Proposing, oracle);
            && b.promises == |side| && Elems(side) <= nodes.Keys
            && Follows(AcceptRequest(b), nodes, side, a.request, a.round)
  {
    ProposeLoop(nodes, a, a.live, oracle);
  }

  /** From the propose stage on, in terms of the attempt that enters the next stage, or returns. */
  lemma AfterProposing(nodes: Cluster, a: Attempt, b: Attempt, oracle: Oracle)
    requires Hosts(nodes, a) && a.stage == Proposing && a.acceptances == 0 && a.todo == a.live && !a.ok
    requires Elems(a.todo) <= nodes.Keys && b == LoopDone(nodes, a, oracle)
    ensures var prepared := Phase(nodes, a.live, Propose(PrepareRequest(a)), Proposing, oracle);
            if !Passes(b.promises, a.members) then Execute(nodes, a, oracle) == (prepared, Settle(b)) && !Settle(b).ok
            else && Hosts(prepared, Settle(b)) && Settle(b) == b.(stage := Accepting, todo := a.live)
                 && Execute(nodes, a, oracle) == Execute(prepared, Settle(b), oracle)
  {
    PhaseExecutes(nodes, a, oracle);
  }

  /** From the propose stage on. */
  lemma FromProposing(nodes: Cluster, a: Attempt, oracle: Oracle)
    requires Hosts(nodes, a) && a.stage == Proposing && a.acceptances == 0 && a.promises == 0 && a.acceptedId == 0
    requires a.todo == a.live == Live(a.members, oracle) && !a.ok && Passes(|a.live|, a.members)
    requires Elems(a.todo) <= nodes.Keys && AllKnown(nodes, a.request.key, a.round)
    ensures var (nodes', b) := Execute(nodes, a, oracle);
            Outcomes(nodes, a.members, a.request, a.round, oracle, AcceptRequest(LoopDone(nodes, a, oracle)), nodes', b)
  {
    var b := LoopDone(nodes, a, oracle);
    ProposeStage(nodes, a, oracle);
    AfterProposing(nodes, a, b, oracle);
    if Passes(b.promises, a.members) {
      FromAccepting(Phase(nodes, a.live, Propose(PrepareRequest(a)), Proposing, oracle), Settle(b), oracle);
    }
  }

  /** The outcome of an attempt, for any fate of each of its calls. The three quorum tests count the answers to the
      ping, propose and accept calls; every replica that was called has served the call unless it was lost; and the
      value is that of the first replica which answered the ping and the propose call and has accepted one at this key
      and round, or the client's own if there is none. */
  lemma AttemptOutcome(nodes: Cluster, members: seq<NodeId>, proposer: NodeId, request: Request, oracle: Oracle)
    returns (q: Request)
    requires Distinct(members) && nodes.Keys == Elems(members) && proposer in members
    requires AllKnown(nodes, request.key, NextRound(nodes[proposer], request.key))
    ensures Elems(Promisers(members, oracle)) <= nodes.Keys
    ensures Follows(q, nodes, Promisers(members, oracle), request, NextRound(nodes[proposer], request.key))
    ensures var (nodes', a) := RunAttempt(nodes, members, proposer, request, oracle);
            Outcomes(nodes, members, request, NextRound(nodes[proposer], request.key), oracle, q, nodes', a)
  {
    var round := NextRound(nodes[proposer], request.key);
    var a := Begin(proposer, request, members, round);
    BeginWellformed(proposer, request, members, round);
    PhaseExecutes(nodes, a, oracle);
    SkipPhase(nodes, members, oracle);
    PingLoop(nodes, a, members, oracle);
    var b := Settle(LoopDone(nodes, a, oracle));
    if b.stage == Proposing {
      TodoIsHosted(nodes, b);
      ProposeStage(nodes, b, oracle);
      FromProposing(nodes, b, oracle);
      q := AcceptRequest(LoopDone(nodes, b, oracle));
    } else {
      q := SomeFollows(nodes, members, request, round, oracle);
    }
  }

  /** The adopted value is defined even if the attempt never gets that far. */
  lemma SomeFollows(nodes: Cluster, members: seq<NodeId>, request: Request, round: nat, oracle: Oracle)
    returns (q: Request)
    requires nodes.Keys == Elems(members) && AllKnown(nodes, request.key, round)
    ensures Elems(Promisers(members, oracle)) <= nodes.Keys
    ensures Follows(q, nodes, Promisers(members, oracle), request, round)
  {
    ReachedElems(members, oracle);
    var a := Begin("", request, members, round).(stage := Proposing);
    ProposeLoop(nodes, a, Live(members, oracle), oracle);
    q := AcceptRequest(AbsorbAll(a, Live(members, oracle),
                                 Replies(nodes, Live(members, oracle), Propose(PrepareRequest(a)), Proposing, oracle)));
  }

  // ----- When an attempt commits its own value -----

  /** An attempt that returns OK has committed its own request, unadopted, if and only if none of the replicas that
      answered both its ping and its propose call has accepted anything at the round that it read off the size of the
      proposer's log. Otherwise it has committed what the first of them, in member order, has accepted there. */
  lemma OwnValueExactlyWhenUnaccepted(nodes: Cluster, members: seq<NodeId>, proposer: NodeId, request: Request,
                                      oracle: Oracle)
    requires Distinct(members) && nodes.Keys == Elems(members) && proposer in members
    requires AllKnown(nodes, request.key, NextRound(nodes[proposer], request.key))
    requires RunAttempt(nodes, members, proposer, request, oracle).1.ok
    ensures var round, a := NextRound(nodes[proposer], request.key),
                            RunAttempt(nodes, members, proposer, request, oracle).1;
            && (a.acceptance.aServerId == 0 <==>
                  forall n :: n in nodes && oracle(Pinging, n) == Delivered && oracle(Proposing, n) == Delivered ==>
                                !Accepted(nodes[n], request.key, round))
            && (a.acceptance.aServerId == 0 ==>
                  a.acceptance.value == request.value && a.acceptance.op == request.op)
            && (a.acceptance.aServerId != 0 ==>
                  exists i :: 0 <= i < |members| && FirstAccepted(nodes, members, i, request.key, round, oracle)
                              && TakenFromReplica(nodes, members[i], request.key, round, a.acceptance))
  {
    var q := AttemptOutcome(nodes, members, proposer, request, oracle);
    var round, side := NextRound(nodes[proposer], request.key), Promisers(members, oracle);
    FollowsExactly(q, nodes, side, request, round);
    ReachedElems(members, oracle);
    assert forall n :: n in Elems(side) ==> n in nodes;
    assert forall n :: n in nodes && oracle(Pinging, n) == Delivered && oracle(Proposing, n) == Delivered ==>
      n in Elems(members) && n in Elems(side);
    if q.aServerId != 0 {
      var i :| 0 <= i < |side| && Leads(q, nodes, side, i);
      var j := LedByFirst(q, nodes, members, i, round, oracle);
    }
  }

  /** Whether the replica answers both the ping and the propose call. */
  predicate Heard(n: NodeId, oracle: Oracle) {
    oracle(Pinging, n) == Delivered && oracle(Proposing, n) == Delivered
  }

  /** Member `i` is the first, of those that answer both calls, that has accepted a value. */
  predicate FirstAccepted(nodes: Cluster, members: seq<NodeId>, i: nat, key: string, round: nat, oracle: Oracle)
    requires i < |members|
  {
    && members[i] in nodes && Heard(members[i], oracle) && Accepted(nodes[members[i]], key, round)
    && forall j :: 0 <= j < i && members[j] in nodes && Heard(members[j], oracle) ==>
                     !Accepted(nodes[members[j]], key, round)
  }

  predicate TakenFromReplica(nodes: Cluster, n: NodeId, key: string, round: nat, r: Response) {
    && n in nodes
    && var e := EntryAt(RoundsOf(nodes[n].log, key), round);
       r.value == e.acceptedValue && r.op == e.op && r.aServerId == e.aServerId
  }

  lemma {:induction false} PromisersSplit(members: seq<NodeId>, i: nat, oracle: Oracle) returns (j: nat)
    requires i < |Promisers(members, oracle)|
    ensures j < |members| && members[j] == Promisers(members, oracle)[i] && Heard(members[j], oracle)
    ensures Promisers(members[..j], oracle) == Promisers(members, oracle)[..i]
  {
    var front, n := members[..|members| - 1], members[|members| - 1];
    assert Promisers(members, oracle)
        == Promisers(front, oracle) + (if Heard(n, oracle) then [n] else []) by { PromisersMore(members, oracle); }
    if i < |Promisers(front, oracle)| {
      j := PromisersSplit(front, i, oracle);
      assert members[..j] == front[..j];
    } else {
      j := |members| - 1;
    }
  }

  lemma PromisersMore(members: seq<NodeId>, oracle: Oracle)
    requires members != []
    ensures var front, n := members[..|members| - 1], members[|members| - 1];
            Promisers(members, oracle) == Promisers(front, oracle) + (if Heard(n, oracle) then [n] else [])
  {
    var front, n := members[..|members| - 1], members[|members| - 1];
    var live := Live(front, oracle);
    if oracle(Pinging, n) == Delivered {
      assert Live(members, oracle) == live + [n] && (live + [n])[..|live|] == live;
    } else {
      assert Live(members, oracle) == live;
    }
  }

  lemma LedByFirst(q: Request, nodes: Cluster, members: seq<NodeId>, i: nat, round: nat, oracle: Oracle)
    returns (j: nat)
    requires Elems(Promisers(members, oracle)) <= nodes.Keys && i < |Promisers(members, oracle)| && q.round == round
    requires Leads(q, nodes, Promisers(members, oracle), i)
    ensures j < |members| && FirstAccepted(nodes, members, j, q.key, round, oracle)
    ensures TakenFromReplica(nodes, members[j], q.key, round, Echo(q))
  {
    var side := Promisers(members, oracle);
    j := PromisersSplit(members, i, oracle);
    assert side[i] in Elems(side);
    forall k | 0 <= k < j && members[k] in nodes && Heard(members[k], oracle)
      ensures !Accepted(nodes[members[k]], q.key, round)
    {
      ReachedElems(members[..j], oracle);
      assert members[..j][k] in members[..j];
      assert members[k] in Elems(Promisers(members[..j], oracle));
      assert members[k] in side[..i];
      var l :| 0 <= l < i && side[l] == members[k];
      assert side[l] in Elems(side);
    }
  }

  /** What the first replica, in member order, that answers both its calls and has accepted a value has accepted. */
  function FirstHeard(nodes: Cluster, members: seq<NodeId>, key: string, round: nat, oracle: Oracle): Option<LogEntry> {
    if members == [] then None
    else if members[0] in nodes && Heard(members[0], oracle) && Accepted(nodes[members[0]], key, round) then
      Some(EntryAt(RoundsOf(nodes[members[0]].log, key), round))
    else FirstHeard(nodes, members[1..], key, round, oracle)
  }

  lemma {:induction false} FirstHeardIs(nodes: Cluster, members: seq<NodeId>, i: nat, key: string, round: nat,
                                        oracle: Oracle)
    requires i < |members| && FirstAccepted(nodes, members, i, key, round, oracle)
    ensures FirstHeard(nodes, members, key, round, oracle) == Some(EntryAt(RoundsOf(nodes[members[i]].log, key), round))
  {
    if i > 0 {
      var rest := members[1..];
      assert forall j :: 0 <= j < i ==> rest[j] == members[j + 1];
      assert rest[i - 1] == members[i];
      FirstHeardIs(nodes, rest, i - 1, key, round, oracle);
    }
  }

  lemma {:induction false} SomeoneIsFirst(nodes: Cluster, members: seq<NodeId>, key: string, round: nat,
                                          oracle: Oracle)
    returns (i: nat)
    requires FirstHeard(nodes, members, key, round, oracle).Some?
    ensures i < |members| && FirstAccepted(nodes, members, i, key, round, oracle)
  {
    if members[0] in nodes && Heard(members[0], oracle) && Accepted(nodes[members[0]], key, round) {
      i := 0;
    } else {
      var rest := members[1..];
      i := SomeoneIsFirst(nodes, rest, key, round, oracle);
      assert forall j :: 0 <= j < |rest| ==> rest[j] == members[j + 1];
      i := i + 1;
      assert forall j :: 0 < j < i ==> members[j] == rest[j - 1];
    }
  }

  lemma {:induction false} NobodyHeard(nodes: Cluster, members: seq<NodeId>, key: string, round: nat, oracle: Oracle)
    ensures FirstHeard(nodes, members, key, round, oracle).None? <==>
            forall n :: n in members && n in nodes && Heard(n, oracle) ==> !Accepted(nodes[n], key, round)
    ensures FirstHeard(nodes, members, key, round, oracle).Some? ==>
              exists n :: n in members && n in nodes && Heard(n, oracle) && Accepted(nodes[n], key, round)
                          && FirstHeard(nodes, members, key, round, oracle).value
                             == EntryAt(RoundsOf(nodes[n].log, key), round)
  {
    if members != [] {
      NobodyHeard(nodes, members[1..], key, round, oracle);
      assert forall n :: n in members <==> n == members[0] || n in members[1..];
    }
  }

  /** Which value the next attempt at a round commits, if it returns OK: the one that it hears of first, or its own if
      it hears of none. */
  lemma CommitsFirstHeard(nodes: Cluster, members: seq<NodeId>, proposer: NodeId, request: Request, oracle: Oracle)
    requires Distinct(members) && nodes.Keys == Elems(members) && proposer in members
    requires AllKnown(nodes, request.key, NextRound(nodes[proposer], request.key))
    requires RunAttempt(nodes, members, proposer, request, oracle).1.ok
    ensures var heard := FirstHeard(nodes, members, request.key, NextRound(nodes[proposer], request.key), oracle);
            var r := RunAttempt(nodes, members, proposer, request, oracle).1.acceptance;
            if heard.Some? then r.value == heard.value.acceptedValue && r.op == heard.value.op
            else r.value == request.value && r.op == request.op
  {
    var key, round := request.key, NextRound(nodes[proposer], request.key);
    OwnValueExactlyWhenUnaccepted(nodes, members, proposer, request, oracle);
    NobodyHeard(nodes, members, key, round, oracle);
    var r := RunAttempt(nodes, members, proposer, request, oracle).1.acceptance;
    assert forall n :: n in nodes <==> n in Elems(members);
    if r.aServerId != 0 {
      var i :| 0 <= i < |members| && FirstAccepted(nodes, members, i, key, round, oracle)
               && TakenFromReplica(nodes, members[i], key, round, r);
      FirstHeardIs(nodes, members, i, key, round, oracle);
    }
  }

  /** With an odd number of replicas, an OK attempt at a round at which a quorum has accepted something hears of a
      value, so it commits the one that it hears of first, never its own. */
  lemma QuorumIsHeard(nodes: Cluster, members: seq<NodeId>, proposer: NodeId, request: Request, oracle: Oracle,
                      holders: set<NodeId>)
    requires Distinct(members) && |members| % 2 == 1 && nodes.Keys == Elems(members) && proposer in members
    requires AllKnown(nodes, request.key, NextRound(nodes[proposer], request.key))
    requires holders <= nodes.Keys && !NoQuorum(|holders|, |members|)
    requires forall n :: n in holders ==> Accepted(nodes[n], request.key, NextRound(nodes[proposer], request.key))
    requires RunAttempt(nodes, members, proposer, request, oracle).1.ok
    ensures var heard := FirstHeard(nodes, members, request.key, NextRound(nodes[proposer], request.key), oracle);
            heard.Some? && RunAttempt(nodes, members, proposer, request, oracle).1.acceptance.value
                           == heard.value.acceptedValue
  {
    var key, round := request.key, NextRound(nodes[proposer], request.key);
    var q := AttemptOutcome(nodes, members, proposer, request, oracle);
    var promisers := Elems(Promisers(members, oracle));
    PromisersDistinct(members, oracle);
    ReachedElems(members, oracle);
    OddQuorumsMeet(Elems(members), holders, promisers);
    var n :| n in holders * promisers;
    NobodyHeard(nodes, members, key, round, oracle);
    assert n in members && n in nodes && Heard(n, oracle) && Accepted(nodes[n], key, round);
    CommitsFirstHeard(nodes, members, proposer, request, oracle);
  }

  lemma PromisersDistinct(members: seq<NodeId>, oracle: Oracle)
    requires Distinct(members)
    ensures Distinct(Promisers(members, oracle))
  {
    AnsweringDistinct(members, Pinging, oracle);
    AnsweringDistinct(Live(members, oracle), Proposing, oracle);
  }

  // ----- Who turns a success call down -----

  /** The state in which a replica receives the success call of an attempt for `q` that gets so far. */
  function WhenInformed(nodes: Cluster, members: seq<NodeId>, request: Request, q: Request, oracle: Oracle): Cluster {
    Balloted(nodes, members, Prepare(request, q.round), q, oracle)
  }

  /** It turns the call down if and only if its log had a higher round before the attempt. */
  lemma TurnedDownExactly(nodes: Cluster, members: seq<NodeId>, request: Request, q: Request, oracle: Oracle, n: NodeId)
    requires n in nodes && request.key == q.key
    ensures var called := WhenInformed(nodes, members, request, q, oracle);
            n in called && (Serve(called[n], Success(q)).1.Aborted? <==>
                            exists r :: r in RoundsOf(nodes[n].log, q.key) && r > q.round)
  {
    var s := WhenInformed(nodes, members, request, q, oracle)[n];
    var e, rounds := EntryAt(RoundsOf(s.log, q.key), q.round), RoundsOf(nodes[n].log, q.key);
    assert RoundsOf(s.log, q.key) == rounds || RoundsOf(s.log, q.key) == rounds[q.round := e];
    OutdatedByOthers(rounds, q.round, e);
    OutdatedByOthers(RoundsOf(s.log, q.key), q.round, LogEntry(e.pServerId, q.pServerId, q.op, q.value));
  }
}
