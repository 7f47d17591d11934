/** With an odd number of replicas, a value that an attempt got past its accept quorum, when no other value had been
    sent at its key and round, stays the only value of that round: by any later proposer, under any message loss, delay
    or repetition, and even if later attempts overlap, as long as those of its voters that do not restart still pass the
    quorum test. `Boundaries.RestartsForgetExactly` shows that they must. */
module Chosen {
  import opened Protocol
  import opened Quorum
  import opened Attempts
  import opened Cells
  import opened Worlds

  datatype Ballot = Ballot(round: nat, value: string, op: Operation)

  predicate IsVote(e: LogEntry, b: Ballot) {
    e.aServerId == PROPOSE_ID && e.acceptedValue == b.value && e.op == b.op
  }

  predicate Carries(q: Request, b: Ballot) {
    q.pServerId == PROPOSE_ID && q.value == b.value && q.op == b.op
  }

  /** No message and no log entry of the round carries anything but the ballot. */
  ghost predicate Uniform(v: View, b: Ballot) {
    && (forall p :: p in v.sent && (p.call.Accept? || p.call.Success?) && p.call.request.round == b.round ==>
          Carries(p.call.request, b))
    && (forall n :: n in v.cells ==>
          EntryAt(v.cells[n].rounds, b.round).aServerId == 0 || IsVote(EntryAt(v.cells[n].rounds, b.round), b))
  }

  function Supporters(cells: map<NodeId, Cell>, asked: seq<NodeId>, b: Ballot): set<NodeId> {
    set n | n in asked && n in cells && IsVote(EntryAt(cells[n].rounds, b.round), b)
  }

  /** The attempt is collecting acceptances for the ballot: every one it counted is in some replica's log, or was in
      the log of a replica that restarted since. */
  ghost predicate Voting(v: View, id: AttemptId, b: Ballot, lost: set<NodeId>) {
    && v.active.Keys == {id}
    && var a := v.active[id];
       && a.stage == Accepting && a.round == b.round && Carries(AcceptRequest(a), b)
       && Uniform(v, b)
       && a.acceptances <= |Supporters(v.cells, Asked(a), b) + Elems(Asked(a)) * lost|
  }

  /** The propose loop has seen the ballot, or has counted only replicas outside the quorum. */
  ghost predicate Swayed(a: Attempt, b: Ballot, quorum: set<NodeId>) {
    if a.acceptedId == 0 then a.promises <= |Elems(Asked(a)) - quorum|
    else a.acceptedId == PROPOSE_ID && a.acceptedValue == b.value && a.acceptedOp == b.op
  }

  /** What the ballot obliges a later attempt at the same round to. */
  ghost predicate Bound(a: Attempt, b: Ballot, quorum: set<NodeId>) {
    match a.stage
    case Pinging => true
    case Proposing => Swayed(a, b, quorum)
    case Accepting => Carries(AcceptRequest(a), b)
    case Informing => Carries(AcceptRequest(a), b)
    case Returned => true
  }

  ghost predicate Decided(v: View, b: Ballot, quorum: set<NodeId>) {
    && quorum <= v.cells.Keys && !NoQuorum(|quorum|, |v.members|)
    && (forall n :: n in quorum ==> IsVote(EntryAt(v.cells[n].rounds, b.round), b))
    && Uniform(v, b)
    && (forall id :: id in v.active && v.active[id].round == b.round ==> Bound(v.active[id], b, quorum))
  }

  // ----- One call -----

  predicate CallAgrees(call: Call, b: Ballot) {
    (call.Accept? || call.Success?) && call.request.round == b.round ==> Carries(call.request, b)
  }

  ghost predicate CellAgrees(c: Cell, b: Ballot) {
    EntryAt(c.rounds, b.round).aServerId == 0 || IsVote(EntryAt(c.rounds, b.round), b)
  }

  lemma ServeAgrees(c: Cell, call: Call, b: Ballot)
    requires CellAgrees(c, b) && CallAgrees(call, b)
    ensures CellAgrees(ServeCell(c, call).0, b)
    ensures IsVote(EntryAt(c.rounds, b.round), b) ==> IsVote(EntryAt(ServeCell(c, call).0.rounds, b.round), b)
    ensures call.Accept? && call.request.round == b.round ==>
              IsVote(EntryAt(ServeCell(c, call).0.rounds, b.round), b)
  {
  }

  /** A replica that already voted answers a propose call with the ballot, or not at all. */
  lemma VoterAnswers(c: Cell, q: Request, b: Ballot)
    requires CellAgrees(c, b) && q.round == b.round
    ensures var reply := ServeCell(c, Propose(q)).1;
            reply.Ok? ==>
              if IsVote(EntryAt(c.rounds, b.round), b) then
                reply.response.aServerId == PROPOSE_ID && reply.response.value == b.value && reply.response.op == b.op
              else reply.response.aServerId == 0
  {
  }

  lemma UniformAfter(v: View, v': View, b: Ballot, n: NodeId, call: Call)
    requires Uniform(v, b) && n in v.cells && CallAgrees(call, b)
    requires v'.cells == v.cells[n := ServeCell(v.cells[n], call).0] || v'.cells == v.cells
    requires v'.sent == v.sent || v'.sent == Posted(v.sent, n, call)
    ensures Uniform(v', b)
    ensures forall m :: m in v.cells && IsVote(EntryAt(v.cells[m].rounds, b.round), b) ==>
              IsVote(EntryAt(v'.cells[m].rounds, b.round), b)
  {
    ServeAgrees(v.cells[n], call, b);
  }

  /** The next call of an attempt, seen from a given round. */
  lemma NextCallAgrees(a: Attempt, b: Ballot, quorum: set<NodeId>)
    requires Wellformed(a) && a.stage != Returned && (a.round == b.round ==> Bound(a, b, quorum))
    ensures CallAgrees(NextCall(a), b)
  {
  }

  // ----- Counting -----

  /** Too few replicas lie outside an accept quorum for a propose quorum among them. */
  lemma OutsidersTooFew(live: seq<NodeId>, members: seq<NodeId>, quorum: set<NodeId>, promises: nat)
    requires Distinct(members) && |members| % 2 == 1
    requires Elems(live) <= Elems(members) && quorum <= Elems(members)
    requires !NoQuorum(|quorum|, |members|) && promises <= |Elems(live) - quorum|
    ensures NoQuorum(promises, |members|)
  {
    SubsetSize(Elems(live) - quorum, Elems(members) - quorum);
    assert Elems(members) == quorum + (Elems(members) - quorum);
  }

  lemma ProposeInforms(a: Attempt, m: Attempt, c: Cell, reply: Option<Reply>, b: Ballot, quorum: set<NodeId>)
    requires Wellformed(a) && a.stage == Proposing && a.round == b.round && Swayed(a, b, quorum)
    requires CellAgrees(c, b) && (a.todo[0] in quorum ==> IsVote(EntryAt(c.rounds, b.round), b))
    requires reply.Some? ==> reply.value == ServeCell(c, Propose(PrepareRequest(a))).1
    requires m == Absorb(a, a.todo[0], reply).(todo := a.todo[1..])
    ensures Swayed(m, b, quorum)
  {
    var n := a.todo[0];
    VoterAnswers(c, PrepareRequest(a), b);
    AskedMore(a, reply);
    OutsidersGrow(Asked(a), n, quorum);
  }

  lemma OutsidersGrow(asked: seq<NodeId>, n: NodeId, quorum: set<NodeId>)
    requires n !in asked
    ensures |Elems(asked + [n]) - quorum| == |Elems(asked) - quorum| + (if n in quorum then 0 else 1)
  {
    var before, after := Elems(asked) - quorum, Elems(asked + [n]) - quorum;
    assert Elems(asked + [n]) == Elems(asked) + {n};
    assert after == if n in quorum then before else before + {n};
  }

  lemma ProposeBound(a: Attempt, c: Cell, outcome: Outcome, b: Ballot, quorum: set<NodeId>)
    requires Wellformed(a) && a.stage == Proposing && a.round == b.round && Bound(a, b, quorum)
    requires CellAgrees(c, b) && (a.todo[0] in quorum ==> IsVote(EntryAt(c.rounds, b.round), b))
    requires |a.members| % 2 == 1 && quorum <= Elems(a.members) && !NoQuorum(|quorum|, |a.members|)
    ensures Bound(Receive(a, TransmitCell(c, NextCall(a), outcome).1), b, quorum)
  {
    var reply := TransmitCell(c, NextCall(a), outcome).1;
    var m := Absorb(a, a.todo[0], reply).(todo := a.todo[1..]);
    ProposeInforms(a, m, c, reply, b, quorum);
    AskedMore(a, reply);
    SettleBound(m, b, quorum);
  }

  lemma SettleBound(m: Attempt, b: Ballot, quorum: set<NodeId>)
    requires m.stage == Proposing && Swayed(m, b, quorum)
    requires m.todo == [] ==> Asked(m) == m.live
    requires Distinct(m.members) && Elems(m.live) <= Elems(m.members)
    requires |m.members| % 2 == 1 && quorum <= Elems(m.members) && !NoQuorum(|quorum|, |m.members|)
    ensures Bound(Settle(m), b, quorum)
  {
    if m.todo == [] && m.acceptedId == 0 {
      OutsidersTooFew(m.live, m.members, quorum, m.promises);
    }
  }

  // ----- Decided stays decided -----

  lemma StepDecided(v: View, key: string, id: AttemptId, outcome: Outcome, b: Ballot, quorum: set<NodeId>)
    requires ViewSound(v, key) && EnabledIn(v, Step(id, outcome), key) && |v.members| % 2 == 1
    requires Decided(v, b, quorum)
    ensures Decided(NextIn(v, Step(id, outcome), key), b, quorum)
  {
    StepReadyIn(v, id, key);
    var a := v.active[id];
    assert JobSound(id, a, v.members);
    var n := a.todo[0];
    NextCallAgrees(a, b, quorum);
    UniformAfter(v, NextIn(v, Step(id, outcome), key), b, n, NextCall(a));
    ReceiveProgress(a, TransmitCell(v.cells[n], NextCall(a), outcome).1);
    if a.round == b.round {
      StepBound(a, v.cells[n], outcome, b, quorum);
    }
  }

  lemma PingBound(a: Attempt, reply: Option<Reply>, b: Ballot, quorum: set<NodeId>)
    requires Wellformed(a) && a.stage == Pinging
    ensures Bound(Receive(a, reply), b, quorum)
  {
  }

  lemma VoteBound(a: Attempt, reply: Option<Reply>, b: Ballot, quorum: set<NodeId>)
    requires a.todo != [] && (a.stage == Accepting || a.stage == Informing) && Bound(a, b, quorum)
    ensures Bound(Receive(a, reply), b, quorum)
  {
  }

  lemma StepBound(a: Attempt, c: Cell, outcome: Outcome, b: Ballot, quorum: set<NodeId>)
    requires Wellformed(a) && a.stage != Returned && a.round == b.round && Bound(a, b, quorum)
    requires CellAgrees(c, b) && (a.todo[0] in quorum ==> IsVote(EntryAt(c.rounds, b.round), b))
    requires |a.members| % 2 == 1 && quorum <= Elems(a.members) && !NoQuorum(|quorum|, |a.members|)
    ensures Bound(Receive(a, TransmitCell(c, NextCall(a), outcome).1), b, quorum)
  {
    match a.stage
    case Pinging => PingBound(a, TransmitCell(c, NextCall(a), outcome).1, b, quorum);
    case Proposing => ProposeBound(a, c, outcome, b, quorum);
    case Accepting => VoteBound(a, TransmitCell(c, NextCall(a), outcome).1, b, quorum);
    case Informing => VoteBound(a, TransmitCell(c, NextCall(a), outcome).1, b, quorum);
  }

  lemma NextDecided(v: View, key: string, e: Event, b: Ballot, quorum: set<NodeId>)
    requires ViewSound(v, key) && EnabledIn(v, e, key) && |v.members| % 2 == 1
    requires Decided(v, b, quorum) && (e.Restart? ==> e.node !in quorum)
    ensures Decided(NextIn(v, e, key), b, quorum)
  {
    match e
    case Restart(_) =>
    case Start(_, _, _) =>
    case Step(id, outcome) => StepDecided(v, key, id, outcome, b, quorum);
    case Finish(id) => ProposerIsCell(v, id, key);
    case Deliver(p) => UniformAfter(v, NextIn(v, e, key), b, p.dest, p.call);
    case Recover(_, _) =>
    case Adopt(_, _) =>
  }

  // ----- From the vote to the decision -----

  /** The attempt is the only one on its key and has collected its accept quorum. Who of it has not restarted since
      still has the ballot in its log. */
  ghost predicate VotedThrough(v: View, id: AttemptId, b: Ballot, lost: set<NodeId>, quorum: set<NodeId>) {
    && v.active.Keys == {id}
    && v.active[id].stage == Informing && v.active[id].round == b.round && Carries(AcceptRequest(v.active[id]), b)
    && Uniform(v, b)
    && quorum <= v.cells.Keys && !NoQuorum(|quorum|, |v.members|)
    && (forall n :: n in quorum && n !in lost ==> IsVote(EntryAt(v.cells[n].rounds, b.round), b))
  }

  predicate IsOver(v: View, id: AttemptId) {
    v.active.Keys <= {id} && (id in v.active ==> v.active[id].stage == Returned)
  }

  ghost predicate Open(v: View, id: AttemptId, b: Ballot, lost: set<NodeId>) {
    Voting(v, id, b, lost) || (exists quorum :: VotedThrough(v, id, b, lost, quorum)) || IsOver(v, id)
  }

  /** The voters that have kept their logs, if they still pass the quorum test, decide the round. */
  lemma VotedDecides(v: View, id: AttemptId, b: Ballot, lost: set<NodeId>, quorum: set<NodeId>, kept: set<NodeId>)
    requires VotedThrough(v, id, b, lost, quorum) && kept <= quorum && kept * lost == {}
    requires !NoQuorum(|kept|, |v.members|)
    ensures Decided(v, b, kept)
  {
    assert forall n :: n in kept && n in lost ==> n in kept * lost;
  }

  lemma VotersGrow(cells: map<NodeId, Cell>, cells': map<NodeId, Cell>, asked: seq<NodeId>,
                   n: NodeId, b: Ballot, lost: set<NodeId>, voted: bool)
    requires n !in asked
    requires forall m :: m in cells && IsVote(EntryAt(cells[m].rounds, b.round), b) ==>
               m in cells' && IsVote(EntryAt(cells'[m].rounds, b.round), b)
    requires voted ==> n in cells' && IsVote(EntryAt(cells'[n].rounds, b.round), b)
    ensures |Supporters(cells', asked + [n], b) + Elems(asked + [n]) * lost|
            >= |Supporters(cells, asked, b) + Elems(asked) * lost| + (if voted then 1 else 0)
  {
    var before := Supporters(cells, asked, b) + Elems(asked) * lost;
    var after := Supporters(cells', asked + [n], b) + Elems(asked + [n]) * lost;
    assert before <= after && n !in before;
    SubsetSize(before + (if voted then {n} else {}), after);
  }

  lemma VoteCounts(v: View, v': View, a: Attempt, outcome: Outcome, b: Ballot, lost: set<NodeId>)
    requires Wellformed(a) && a.stage == Accepting && a.round == b.round && Carries(AcceptRequest(a), b)
    requires a.acceptances <= |Supporters(v.cells, Asked(a), b) + Elems(Asked(a)) * lost|
    requires Uniform(v, b) && a.todo[0] in v.cells
    requires v'.cells == v.cells[a.todo[0] := TransmitCell(v.cells[a.todo[0]], NextCall(a), outcome).0]
    requires v'.sent == Posted(v.sent, a.todo[0], NextCall(a))
    ensures Uniform(v', b)
    ensures var reply := TransmitCell(v.cells[a.todo[0]], NextCall(a), outcome).1;
            var m := Absorb(a, a.todo[0], reply).(todo := a.todo[1..]);
            m.acceptances <= |Supporters(v'.cells, Asked(m), b) + Elems(Asked(m)) * lost|
  {
    var n := a.todo[0];
    var reply := TransmitCell(v.cells[n], NextCall(a), outcome).1;
    UniformAfter(v, v', b, n, NextCall(a));
    ServeAgrees(v.cells[n], NextCall(a), b);
    AskedMore(a, reply);
    VotersGrow(v.cells, v'.cells, Asked(a), n, b, lost, reply.Some?);
  }

  lemma SettleVoting(v: View, id: AttemptId, m: Attempt, b: Ballot, lost: set<NodeId>)
    requires m.stage == Accepting && m.round == b.round && Carries(AcceptRequest(m), b) && !m.ok
    requires m.todo == [] ==> Asked(m) == m.live
    requires v.active.Keys == {id} && v.active[id] == Settle(m) && v.members == m.members
    requires v.cells.Keys == Elems(m.members) && Elems(m.live) <= Elems(m.members)
    requires Uniform(v, b) && m.acceptances <= |Supporters(v.cells, Asked(m), b) + Elems(Asked(m)) * lost|
    ensures Open(v, id, b, lost)
  {
    if m.todo != [] {
      assert Voting(v, id, b, lost);
    } else if NoQuorum(m.acceptances, |m.members|) {
      assert IsOver(v, id);
    } else {
      assert VotedThrough(v, id, b, lost, Supporters(v.cells, m.live, b) + Elems(m.live) * lost);
    }
  }

  lemma VotingStep(v: View, key: string, id: AttemptId, outcome: Outcome, b: Ballot, lost: set<NodeId>)
    requires ViewSound(v, key) && EnabledIn(v, Step(id, outcome), key) && Voting(v, id, b, lost)
    ensures Open(NextIn(v, Step(id, outcome), key), id, b, lost)
  {
    StepReadyIn(v, id, key);
    var a := v.active[id];
    assert JobSound(id, a, v.members);
    var v' := NextIn(v, Step(id, outcome), key);
    var reply := TransmitCell(v.cells[a.todo[0]], NextCall(a), outcome).1;
    VoteCounts(v, v', a, outcome, b, lost);
    AskedMore(a, reply);
    SettleVoting(v', id, Absorb(a, a.todo[0], reply).(todo := a.todo[1..]), b, lost);
  }

  /** The replica that an event wipes out, if any. */
  function Wiped(e: Event): set<NodeId> {
    if e.Restart? then {e.node} else {}
  }

  lemma VotingOther(v: View, key: string, id: AttemptId, e: Event, b: Ballot, lost: set<NodeId>)
    requires ViewSound(v, key) && EnabledIn(v, e, key) && Voting(v, id, b, lost)
    requires e.Deliver? || e.Recover? || e.Adopt? || e.Restart?
    ensures Voting(NextIn(v, e, key), id, b, lost + Wiped(e))
  {
    if e.Deliver? {
      UniformAfter(v, NextIn(v, e, key), b, e.packet.dest, e.packet.call);
    } else {
      NodeEventUniform(v, NextIn(v, e, key), key, e, b);
    }
    VotersStay(v.cells, NextIn(v, e, key).cells, Asked(v.active[id]), b, lost, Wiped(e));
  }

  lemma NodeEventUniform(v: View, v': View, key: string, e: Event, b: Ballot)
    requires ViewSound(v, key) && EnabledIn(v, e, key) && Uniform(v, b) && v' == NextIn(v, e, key)
    requires e.Recover? || e.Adopt? || e.Restart?
    ensures Uniform(v', b)
    ensures forall n :: n in v.cells && n !in Wiped(e) && IsVote(EntryAt(v.cells[n].rounds, b.round), b) ==>
              IsVote(EntryAt(v'.cells[n].rounds, b.round), b)
  {
  }

  lemma VotersStay(cells: map<NodeId, Cell>, cells': map<NodeId, Cell>, asked: seq<NodeId>, b: Ballot,
                   lost: set<NodeId>, wiped: set<NodeId>)
    requires forall m :: m in cells && m !in wiped && IsVote(EntryAt(cells[m].rounds, b.round), b) ==>
               m in cells' && IsVote(EntryAt(cells'[m].rounds, b.round), b)
    ensures |Supporters(cells', asked, b) + Elems(asked) * (lost + wiped)|
            >= |Supporters(cells, asked, b) + Elems(asked) * lost|
  {
    SubsetSize(Supporters(cells, asked, b) + Elems(asked) * lost,
               Supporters(cells', asked, b) + Elems(asked) * (lost + wiped));
  }

  lemma VotedStep(v: View, key: string, id: AttemptId, outcome: Outcome, b: Ballot, lost: set<NodeId>,
                  quorum: set<NodeId>)
    requires ViewSound(v, key) && EnabledIn(v, Step(id, outcome), key) && VotedThrough(v, id, b, lost, quorum)
    ensures Open(NextIn(v, Step(id, outcome), key), id, b, lost)
  {
    StepReadyIn(v, id, key);
    var a, v' := v.active[id], NextIn(v, Step(id, outcome), key);
    assert JobSound(id, a, v.members);
    NextCallAgrees(a, b, quorum);
    UniformAfter(v, v', b, a.todo[0], NextCall(a));
    ReceiveProgress(a, TransmitCell(v.cells[a.todo[0]], NextCall(a), outcome).1);
    assert v'.active[id].stage == Returned ==> IsOver(v', id);
    assert v'.active[id].stage == Informing ==> VotedThrough(v', id, b, lost, quorum);
  }

  lemma VotedOther(v: View, key: string, id: AttemptId, e: Event, b: Ballot, lost: set<NodeId>, quorum: set<NodeId>)
    requires ViewSound(v, key) && EnabledIn(v, e, key) && VotedThrough(v, id, b, lost, quorum)
    requires e.Deliver? || e.Recover? || e.Adopt? || e.Restart?
    ensures VotedThrough(NextIn(v, e, key), id, b, lost + Wiped(e), quorum)
  {
    if e.Deliver? {
      UniformAfter(v, NextIn(v, e, key), b, e.packet.dest, e.packet.call);
    }
  }

  lemma NextOpen(v: View, key: string, id: AttemptId, e: Event, b: Ballot, lost: set<NodeId>)
    requires ViewSound(v, key) && EnabledIn(v, e, key) && Open(v, id, b, lost) && !e.Start?
    ensures Open(NextIn(v, e, key), id, b, lost + Wiped(e))
  {
    assert !e.Restart? ==> lost + Wiped(e) == lost;
    if e.Finish? {
      assert IsOver(NextIn(v, e, key), id);
    } else if Voting(v, id, b, lost) {
      if e.Step? {
        VotingStep(v, key, id, e.outcome, b, lost);
      } else {
        VotingOther(v, key, id, e, b, lost);
      }
    } else if quorum :| VotedThrough(v, id, b, lost, quorum) {
      if e.Step? {
        VotedStep(v, key, id, e.outcome, b, lost, quorum);
      } else {
        VotedOther(v, key, id, e, b, lost, quorum);
      }
    } else {
      assert IsOver(NextIn(v, e, key), id);
    }
  }

  // ----- Whole runs -----

  /** The call puts this entry, apart from the promised id, into the log at this round. */
  predicate Writes(call: Call, round: nat, e: LogEntry) {
    && (call.Accept? || call.Success?) && call.request.round == round
    && call.request.pServerId == e.aServerId && call.request.value == e.acceptedValue && call.request.op == e.op
  }

  /** Accepted entries do not appear by themselves: a call that writes them was sent. */
  ghost predicate Traced(v: View) {
    forall n, r :: n in v.cells && EntryAt(v.cells[n].rounds, r).aServerId != 0 ==>
                     WasSent(v.sent, r, EntryAt(v.cells[n].rounds, r))
  }

  ghost predicate WasSent(sent: set<Packet>, round: nat, e: LogEntry) {
    exists p :: p in sent && Writes(p.call, round, e)
  }

  lemma ServeWrites(c: Cell, call: Call, r: nat)
    ensures var e, e' := EntryAt(c.rounds, r), EntryAt(ServeCell(c, call).0.rounds, r);
            e' == e || Writes(call, r, e')
  {
  }

  lemma CallTraced(v: View, v': View, n: NodeId, call: Call)
    requires Traced(v) && n in v.cells && v.sent <= v'.sent
    requires call.Accept? || call.Success? ==> exists m :: Packet(m, call) in v'.sent
    requires v'.cells == v.cells[n := ServeCell(v.cells[n], call).0] || v'.cells == v.cells
    ensures Traced(v')
  {
    forall m, r | m in v'.cells && EntryAt(v'.cells[m].rounds, r).aServerId != 0
      ensures WasSent(v'.sent, r, EntryAt(v'.cells[m].rounds, r))
    {
      ServeWrites(v.cells[n], call, r);
      if EntryAt(v'.cells[m].rounds, r) == EntryAt(v.cells[m].rounds, r) {
        var p :| p in v.sent && Writes(p.call, r, EntryAt(v.cells[m].rounds, r));
        assert p in v'.sent;
      } else {
        var d :| Packet(d, call) in v'.sent;
        assert Writes(Packet(d, call).call, r, EntryAt(v'.cells[m].rounds, r));
      }
    }
  }

  lemma StepTraced(v: View, key: string, e: Event)
    requires ViewSound(v, key) && EnabledIn(v, e, key) && Traced(v) && e.Step?
    ensures Traced(NextIn(v, e, key))
  {
    StepReadyIn(v, e.id, key);
    var a := v.active[e.id];
    IsPosted(v.sent, a.todo[0], NextCall(a));
    CallTraced(v, NextIn(v, e, key), a.todo[0], NextCall(a));
  }

  lemma IsPosted(sent: set<Packet>, n: NodeId, call: Call)
    ensures !call.Ping? ==> Packet(n, call) in Posted(sent, n, call)
    ensures sent <= Posted(sent, n, call)
  {
  }

  lemma NextTraced(v: View, key: string, e: Event)
    requires ViewSound(v, key) && EnabledIn(v, e, key) && Traced(v)
    ensures Traced(NextIn(v, e, key))
  {
    match e
    case Step(_, _) => StepTraced(v, key, e);
    case Deliver(p) =>
      assert Packet(p.dest, p.call) in v.sent;
      CallTraced(v, NextIn(v, e, key), p.dest, p.call);
    case Finish(id) => ProposerIsCell(v, id, key);
    case _ =>
  }

  lemma {:induction false} RunTraced(w: World, t: Trace, key: string)
    requires Initial(w) && Valid(w, t)
    ensures Traced(ViewOf(Run(w, t), key))
  {
    if t.Then? {
      RunTraced(w, t.before, key);
      NextByKey(Run(w, t.before), t.event, key);
      if Relevant(t.event, key) {
        NextTraced(ViewOf(Run(w, t.before), key), key, t.event);
      }
    }
  }

  predicate SentFor(call: Call, key: string, round: nat) {
    (call.Accept? || call.Success?) && call.request.key == key && call.request.round == round
  }

  /** The attempt is the only one on its key and is about to send its first accept call, and every accept or success
      call ever sent at its key and round carries the same value: because there is none, or because the attempt has
      adopted it. */
  ghost predicate OnlyValue(w: World, id: AttemptId) {
    && id in w.active
    && (forall other :: other in w.active && other.key == id.key ==> other == id)
    && var a := w.active[id];
       && a.stage == Accepting && a.todo == a.live && a.acceptances == 0
       && forall p :: p in w.sent && SentFor(p.call, id.key, a.round) ==> Carries(p.call.request, BallotOf(a))
  }

  /** `t` goes on where `from` stops, and no attempt on the key starts in between. */
  ghost predicate NoneStarts(t: Trace, from: Trace, key: string) {
    t == from || (t.Then? && NoneStarts(t.before, from, key) && !(t.event.Start? && t.event.id.key == key))
  }

  ghost predicate Later(t: Trace, from: Trace) {
    t == from || (t.Then? && Later(t.before, from))
  }

  /** The replicas that restart between `from` and `t`. */
  ghost function RestartedSince(t: Trace, from: Trace): set<NodeId> {
    if t == from || t.Begun? then {} else RestartedSince(t.before, from) + Wiped(t.event)
  }

  function BallotOf(a: Attempt): Ballot {
    Ballot(a.round, AcceptRequest(a).value, AcceptRequest(a).op)
  }

  lemma FirstVote(w: World, t: Trace, id: AttemptId)
    requires Initial(w) && Valid(w, t) && OnlyValue(Run(w, t), id)
    ensures Voting(ViewOf(Run(w, t), id.key), id, BallotOf(Run(w, t).active[id]), {})
  {
    RunTraced(w, t, id.key);
    OnlyRunning(Run(w, t), id);
    UniformByTrace(ViewOf(Run(w, t), id.key), BallotOf(Run(w, t).active[id]));
  }

  lemma OnlyRunning(w: World, id: AttemptId)
    requires Sound(w) && OnlyValue(w, id)
    ensures ViewOf(w, id.key).active == map[id := w.active[id]]
    ensures UniformlySent(ViewOf(w, id.key), BallotOf(w.active[id]))
  {
    assert ViewOf(w, id.key).active.Keys == {id};
  }

  predicate UniformlySent(v: View, b: Ballot) {
    forall p :: p in v.sent && (p.call.Accept? || p.call.Success?) && p.call.request.round == b.round ==>
                  Carries(p.call.request, b)
  }

  lemma UniformByTrace(v: View, b: Ballot)
    requires Traced(v) && UniformlySent(v, b)
    ensures Uniform(v, b)
  {
    forall n | n in v.cells && EntryAt(v.cells[n].rounds, b.round).aServerId != 0
      ensures IsVote(EntryAt(v.cells[n].rounds, b.round), b)
    {
      var p :| p in v.sent && Writes(p.call, b.round, EntryAt(v.cells[n].rounds, b.round));
    }
  }

  lemma OpenStep(w: World, e: Event, id: AttemptId, b: Ballot, lost: set<NodeId>)
    requires Sound(w) && Enabled(w, e) && !(e.Start? && e.id.key == id.key)
    requires Open(ViewOf(w, id.key), id, b, lost)
    ensures Open(ViewOf(Next(w, e), id.key), id, b, lost + Wiped(e))
  {
    NextByKey(w, e, id.key);
    if Relevant(e, id.key) {
      NextOpen(ViewOf(w, id.key), id.key, id, e, b, lost);
    } else {
      assert lost + Wiped(e) == lost;
    }
  }

  lemma {:induction false} OpenRun(w: World, from: Trace, t: Trace, id: AttemptId, b: Ballot)
    requires Initial(w) && Valid(w, from) && Valid(w, t)
    requires NoneStarts(t, from, id.key) && Open(ViewOf(Run(w, from), id.key), id, b, {})
    ensures Open(ViewOf(Run(w, t), id.key), id, b, RestartedSince(t, from))
    decreases t
  {
    if t != from {
      OpenRun(w, from, t.before, id, b);
      OpenStep(Run(w, t.before), t.event, id, b, RestartedSince(t.before, from));
    }
  }

  lemma DecidedStep(w: World, e: Event, key: string, b: Ballot, kept: set<NodeId>)
    requires Sound(w) && Enabled(w, e) && |w.members| % 2 == 1 && kept * Wiped(e) == {}
    requires Decided(ViewOf(w, key), b, kept)
    ensures Decided(ViewOf(Next(w, e), key), b, kept)
  {
    assert forall n :: n in kept ==> n !in Wiped(e) || n in kept * Wiped(e);
    NextByKey(w, e, key);
    if Relevant(e, key) {
      NextDecided(ViewOf(w, key), key, e, b, kept);
    }
  }

  lemma {:induction false} DecidedRun(w: World, from: Trace, t: Trace, key: string, b: Ballot, kept: set<NodeId>)
    requires Initial(w) && Valid(w, from) && Valid(w, t) && |w.members| % 2 == 1
    requires Later(t, from) && kept * RestartedSince(t, from) == {} && Decided(ViewOf(Run(w, from), key), b, kept)
    ensures Decided(ViewOf(Run(w, t), key), b, kept)
    decreases t
  {
    if t != from {
      assert kept * RestartedSince(t.before, from) <= kept * RestartedSince(t, from);
      assert kept * Wiped(t.event) <= kept * RestartedSince(t, from);
      DecidedRun(w, from, t.before, key, b, kept);
      DecidedStep(Run(w, t.before), t.event, key, b, kept);
    }
  }

  /** At the end of `first` the attempt is about to send accept calls, and its value is the only one sent at its key and
      round; until the end of `passed`, where it has got past its accept quorum, it is alone on its key. Any replica may
      restart meanwhile. */
  ghost predicate Chose(w: World, first: Trace, passed: Trace, id: AttemptId) {
    && Initial(w) && Valid(w, first) && Valid(w, passed)
    && OnlyValue(Run(w, first), id) && NoneStarts(passed, first, id.key)
    && IsInforming(Run(w, passed), id)
  }

  predicate IsInforming(w: World, id: AttemptId) {
    id in w.active && w.active[id].stage == Informing
  }

  /** The value it committed. */
  ghost function ChosenBy(w: World, first: Trace, passed: Trace, id: AttemptId): Ballot
    requires Chose(w, first, passed, id)
  {
    BallotOf(Run(w, first).active[id])
  }

  /** The attempt has chosen with the votes of `quorum`: of these replicas, all that did not restart meanwhile have the
      value in their logs. */
  ghost predicate ChoseWith(w: World, first: Trace, passed: Trace, id: AttemptId, quorum: set<NodeId>) {
    && Chose(w, first, passed, id)
    && VotedThrough(ViewOf(Run(w, passed), id.key), id, ChosenBy(w, first, passed, id),
                    RestartedSince(passed, first), quorum)
  }

  /** An attempt that chose has an accept quorum of voters behind it. */
  lemma QuorumVoted(w: World, first: Trace, passed: Trace, id: AttemptId)
    returns (quorum: set<NodeId>)
    requires Chose(w, first, passed, id)
    ensures ChoseWith(w, first, passed, id, quorum) && !NoQuorum(|quorum|, |w.members|)
  {
    var b := ChosenBy(w, first, passed, id);
    FirstVote(w, first, id);
    OpenRun(w, first, passed, id, b);
    quorum := InformingMeansVoted(Run(w, passed), id, b, RestartedSince(passed, first));
  }

  lemma InformingMeansVoted(w: World, id: AttemptId, b: Ballot, lost: set<NodeId>) returns (quorum: set<NodeId>)
    requires IsInforming(w, id) && Open(ViewOf(w, id.key), id, b, lost)
    ensures VotedThrough(ViewOf(w, id.key), id, b, lost, quorum)
  {
    var v := ViewOf(w, id.key);
    assert id in v.active && !Voting(v, id, b, lost) && !IsOver(v, id);
    quorum :| VotedThrough(v, id, b, lost, quorum);
  }

  /** Some of the voters, enough to pass the quorum test, restart neither until the end of `passed` nor from there to
      the end of `t`. */
  ghost predicate Kept(w: World, first: Trace, passed: Trace, t: Trace, quorum: set<NodeId>, kept: set<NodeId>) {
    && kept <= quorum && !NoQuorum(|kept|, |w.members|)
    && kept * RestartedSince(passed, first) == {} && Later(t, passed) && kept * RestartedSince(t, passed) == {}
  }

  /** As long as enough voters have kept their logs, the round is decided. */
  lemma KeptVotesDecide(w: World, first: Trace, passed: Trace, t: Trace, id: AttemptId, quorum: set<NodeId>,
                        kept: set<NodeId>)
    requires ChoseWith(w, first, passed, id, quorum) && Kept(w, first, passed, t, quorum, kept)
    requires Valid(w, t) && |w.members| % 2 == 1
    ensures Decided(ViewOf(Run(w, t), id.key), ChosenBy(w, first, passed, id), kept)
  {
    var b := ChosenBy(w, first, passed, id);
    VotedDecides(ViewOf(Run(w, passed), id.key), id, b, RestartedSince(passed, first), quorum, kept);
    DecidedRun(w, passed, t, id.key, b, kept);
  }

  /** The attempt is in its accept or success stage at the round of the ballot. */
  predicate Sends(w: World, id: AttemptId, b: Ballot) {
    && id in w.active && w.active[id].round == b.round
    && (w.active[id].stage == Accepting || w.active[id].stage == Informing)
  }

  lemma BoundCall(w: World, id: AttemptId, b: Ballot, quorum: set<NodeId>)
    requires Sound(w) && Sends(w, id, b) && Decided(ViewOf(w, id.key), b, quorum)
    ensures Carries(NextCall(w.active[id]).request, b)
  {
    assert JobSound(id, w.active[id], w.members);
    assert id in ViewOf(w, id.key).active;
  }

  /** If the attempt is about to call a replica for the ballot's key and round, the call carries the ballot. */
  predicate SendsOnly(w: World, id: AttemptId, b: Ballot) {
    Sends(w, id, b) ==> Carries(NextCall(w.active[id]).request, b)
  }

  /** Then every attempt that is in its accept or success stage at that key and round sends that value. */
  lemma ChosenStaysChosen(w: World, first: Trace, passed: Trace, t: Trace, id: AttemptId, other: AttemptId,
                          quorum: set<NodeId>, kept: set<NodeId>)
    requires ChoseWith(w, first, passed, id, quorum) && Kept(w, first, passed, t, quorum, kept)
    requires Valid(w, t) && |w.members| % 2 == 1 && other.key == id.key
    ensures SendsOnly(Run(w, t), other, ChosenBy(w, first, passed, id))
  {
    KeptVotesDecide(w, first, passed, t, id, quorum, kept);
    if Sends(Run(w, t), other, ChosenBy(w, first, passed, id)) {
      BoundCall(Run(w, t), other, ChosenBy(w, first, passed, id), kept);
    }
  }

  /** In particular if nobody restarts at all. */
  lemma ChosenWithoutRestarts(w: World, first: Trace, passed: Trace, t: Trace, id: AttemptId, other: AttemptId)
    requires Chose(w, first, passed, id) && Valid(w, t) && |w.members| % 2 == 1 && other.key == id.key
    requires Later(t, passed) && RestartedSince(passed, first) == RestartedSince(t, passed) == {}
    ensures SendsOnly(Run(w, t), other, ChosenBy(w, first, passed, id))
  {
    var quorum := QuorumVoted(w, first, passed, id);
    ChosenStaysChosen(w, first, passed, t, id, other, quorum, quorum);
  }
}
