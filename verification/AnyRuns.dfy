/** What holds in every run: any proposers, overlapping attempts, lost, late and repeated messages, restarts,
    recoveries. */
module AnyRuns {
  import opened Protocol
  import opened Attempts
  import opened Cells
  import opened Worlds

  /** The values that an event adds to those already requested. */
  function Added(e: Event, key: string): set<string> {
    if e.Start? && e.request.key == key then {e.request.value} else {}
  }

  /** The values that clients have asked to store under `key`, or to elect. */
  function Requested(t: Trace, key: string): set<string> {
    match t
    case Begun => {}
    case Then(before, e) =>
      Requested(before, key) + Added(e, key)
  }

  predicate EntryKnown(e: LogEntry, values: set<string>) {
    && e.pServerId == 0
    && (e.aServerId == 0 || (e.aServerId == PROPOSE_ID && e.acceptedValue in values))
  }

  predicate CallKnown(call: Call, values: set<string>) {
    match call
    case Ping => true
    case Propose(q) => q.pServerId == PROPOSE_ID
    case Accept(q) => q.pServerId == PROPOSE_ID && q.value in values
    case Success(q) => q.pServerId == PROPOSE_ID && q.value in values
  }

  ghost predicate CellKnown(c: Cell, key: string, values: set<string>) {
    && (forall r :: r in c.rounds ==> EntryKnown(c.rounds[r], values))
    && (key != LEADER_KEY && c.current.Some? ==> c.current.value in values)
    && (c.applied.Some? ==> c.applied.value in c.rounds)
  }

  predicate AttemptKnown(a: Attempt, values: set<string>) {
    && a.request.value in values
    && (a.acceptedId == 0 || (a.acceptedId == PROPOSE_ID && a.acceptedValue in values))
  }

  ghost predicate AllRequested(v: View, key: string, values: set<string>) {
    && (forall p :: p in v.sent ==> CallKnown(p.call, values))
    && (forall n :: n in v.cells ==> CellKnown(v.cells[n], key, values))
    && (forall id :: id in v.active ==> AttemptKnown(v.active[id], values))
  }

  lemma ServeKnown(c: Cell, call: Call, key: string, values: set<string>)
    requires CellKnown(c, key, values) && CallKnown(call, values)
    ensures CellKnown(ServeCell(c, call).0, key, values)
    ensures call.Propose? ==>
              var reply := ServeCell(c, call).1;
              && reply.Ok?
              && (reply.response.aServerId == 0
                  || (reply.response.aServerId == PROPOSE_ID && reply.response.value in values))
  {
  }

  /** An applied round is the largest in the log when it is applied, and logs only grow, so applied rounds never
      decrease; and a call other than an applied success call leaves the stored value alone. */
  lemma ServeNeverGoesBack(c: Cell, call: Call)
    requires c.applied.Some? ==> c.applied.value in c.rounds
    ensures var c' := ServeCell(c, call).0;
            && (c.applied.Some? ==> c'.applied.Some? && c'.applied.value >= c.applied.value)
            && (c'.applied.Some? ==> c'.applied.value in c'.rounds)
            && (c' != c.(rounds := c'.rounds) ==>
                  && call.Success? && c'.current == Some(call.request.value) && c'.applied == Some(call.request.round)
                  && forall r :: r in c'.rounds ==> r <= call.request.round)
  {
    if call.Success? && c.applied.Some? {
      var q := call.request;
      var rounds := Recorded(c.rounds, q.round, q.pServerId, q.op, q.value);
      assert c.applied.value in rounds;
    }
  }

  lemma NextCallKnown(a: Attempt, values: set<string>)
    requires Wellformed(a) && a.stage != Returned && AttemptKnown(a, values)
    ensures CallKnown(NextCall(a), values)
  {
  }

  lemma ReceiveKnown(a: Attempt, c: Cell, outcome: Outcome, key: string, values: set<string>)
    requires Wellformed(a) && a.stage != Returned && a.todo != []
    requires AttemptKnown(a, values) && CellKnown(c, key, values)
    ensures AttemptKnown(Receive(a, TransmitCell(c, NextCall(a), outcome).1), values)
  {
    if a.stage == Proposing {
      ServeKnown(c, NextCall(a), key, values);
    }
  }

  lemma MoreValues(v: View, key: string, values: set<string>, more: set<string>)
    requires AllRequested(v, key, values) && values <= more
    ensures AllRequested(v, key, more)
  {
  }

  lemma StepKnown(v: View, e: Event, key: string, values: set<string>)
    requires ViewSound(v, key) && EnabledIn(v, e, key) && e.Step? && AllRequested(v, key, values)
    ensures AllRequested(NextIn(v, e, key), key, values)
  {
    StepReadyIn(v, e.id, key);
    var a := v.active[e.id];
    assert JobSound(e.id, a, v.members);
    NextCallKnown(a, values);
    ServeKnown(v.cells[a.todo[0]], NextCall(a), key, values);
    ReceiveKnown(a, v.cells[a.todo[0]], e.outcome, key, values);
  }

  lemma FinishKnown(v: View, id: AttemptId, key: string, values: set<string>)
    requires ViewSound(v, key) && EnabledIn(v, Finish(id), key) && AllRequested(v, key, values)
    ensures AllRequested(NextIn(v, Finish(id), key), key, values)
  {
    ProposerIsCell(v, id, key);
    assert JobSound(id, v.active[id], v.members);
    assert AttemptKnown(v.active[id], values);
  }

  lemma NodeEventKnown(v: View, e: Event, key: string, values: set<string>)
    requires ViewSound(v, key) && EnabledIn(v, e, key) && (e.Restart? || e.Recover? || e.Adopt? || e.Deliver?)
    requires AllRequested(v, key, values)
    ensures AllRequested(NextIn(v, e, key), key, values)
  {
    if e.Deliver? {
      ServeKnown(v.cells[e.packet.dest], e.packet.call, key, values);
    } else {
      assert CellKnown(v.cells[e.node], key, values);
      assert e.Recover? ==> CellKnown(v.cells[e.source], key, values);
    }
  }

  lemma NextKnown(v: View, e: Event, key: string, values: set<string>)
    requires ViewSound(v, key) && EnabledIn(v, e, key) && AllRequested(v, key, values)
    ensures AllRequested(NextIn(v, e, key), key, values + Added(e, key))
  {
    match e
    case Start(_, _, request) => MoreValues(v, key, values, values + {request.value});
    case Step(_, _) => StepKnown(v, e, key, values);
    case Finish(id) => FinishKnown(v, id, key, values);
    case _ => NodeEventKnown(v, e, key, values);
  }

  lemma KnownStep(w: World, e: Event, key: string, values: set<string>)
    requires Sound(w) && Enabled(w, e) && AllRequested(ViewOf(w, key), key, values)
    ensures AllRequested(ViewOf(Next(w, e), key), key, values + Added(e, key))
  {
    NextByKey(w, e, key);
    if Relevant(e, key) {
      NextKnown(ViewOf(w, key), e, key, values);
    }
  }

  lemma {:induction false} RunKnown(w: World, t: Trace, key: string)
    requires Initial(w) && Valid(w, t)
    ensures AllRequested(ViewOf(Run(w, t), key), key, Requested(t, key))
  {
    match t
    case Begun => assert ViewOf(w, key).sent == {} && ViewOf(w, key).active == map[];
    case Then(before, e) =>
      RunKnown(w, before, key);
      KnownStep(Run(w, before), e, key, Requested(before, key));
  }

  /** Every value accepted for a key, and every value stored under it, was the value of some client's request for
      that key. */
  lemma NoValueFromNowhere(w: World, t: Trace, n: NodeId, key: string)
    requires Initial(w) && Valid(w, t) && n in w.nodes
    ensures var s := Run(w, t).nodes[n];
            && (forall r :: EntryAt(RoundsOf(s.log, key), r).aServerId > 0 ==>
                  EntryAt(RoundsOf(s.log, key), r).acceptedValue in Requested(t, key))
            && (key in s.kv ==> s.kv[key] in Requested(t, key))
  {
    RunKnown(w, t, key);
    assert CellKnown(ViewOf(Run(w, t), key).cells[n], key, Requested(t, key));
  }

  /** Promised ids stay 0 and accepted ids are 0 or 1, so no propose call is ever rejected as out of date. */
  lemma NeverOutOfDate(w: World, t: Trace, n: NodeId, key: string, round: nat, p: Packet)
    requires Initial(w) && Valid(w, t) && n in w.nodes
    ensures EntryAt(RoundsOf(Run(w, t).nodes[n].log, key), round).pServerId == 0
    ensures EntryAt(RoundsOf(Run(w, t).nodes[n].log, key), round).aServerId in {0, 1}
    ensures p in Run(w, t).sent && p.call.Propose? ==> Serve(Run(w, t).nodes[n], p.call).1.Ok?
  {
    RunKnown(w, t, key);
    assert CellKnown(ViewOf(Run(w, t), key).cells[n], key, Requested(t, key));
    if p in Run(w, t).sent && p.call.Propose? {
      var k := p.call.request.key;
      RunKnown(w, t, k);
      assert p in ViewOf(Run(w, t), k).sent;
      ServeKnown(ViewOf(Run(w, t), k).cells[n], p.call, k, Requested(t, k));
      ServeByKey(Run(w, t).nodes[n], p.call, k);
    }
  }

  /** Consensus on the leader key never creates a pair in a store. */
  lemma LeaderIsNoKey(w: World, t: Trace, n: NodeId)
    requires Initial(w) && Valid(w, t) && n in w.nodes
    ensures LEADER_KEY !in Run(w, t).nodes[n].kv
  {
  }

  // ----- One replica over time -----

  /** Between `from` and `t` the replica neither restarts nor takes part in start-up recovery. */
  ghost predicate StaysUp(t: Trace, from: Trace, n: NodeId) {
    t == from || (
      && t.Then?
      && (t.event.Restart? || t.event.Recover? || t.event.Adopt? ==> t.event.node != n)
      && StaysUp(t.before, from, n))
  }

  lemma NextNeverGoesBack(v: View, e: Event, key: string, n: NodeId)
    requires ViewSound(v, key) && EnabledIn(v, e, key) && n in v.cells
    requires e.Restart? || e.Recover? || e.Adopt? ==> e.node != n
    requires v.cells[n].applied.Some? ==> v.cells[n].applied.value in v.cells[n].rounds
    ensures var c, c' := v.cells[n], NextIn(v, e, key).cells[n];
            c.applied.Some? ==> c'.applied.Some? && c'.applied.value >= c.applied.value
  {
    match e
    case Step(id, outcome) =>
      StepReadyIn(v, id, key);
      if v.active[id].todo[0] == n {
        ServeNeverGoesBack(v.cells[n], NextCall(v.active[id]));
      }
    case Deliver(p) =>
      if p.dest == n {
        ServeNeverGoesBack(v.cells[n], p.call);
      }
    case Finish(id) => ProposerIsCell(v, id, key);
    case _ =>
  }

  /** Under any order, loss or repetition of messages, the rounds that a replica applies to a key never decrease. */
  lemma {:induction false} NoGoingBack(w: World, from: Trace, t: Trace, n: NodeId, key: string)
    requires Initial(w) && Valid(w, from) && Valid(w, t) && StaysUp(t, from, n) && n in w.nodes
    requires key in Run(w, from).nodes[n].applied
    ensures key in Run(w, t).nodes[n].applied
    ensures Run(w, t).nodes[n].applied[key] >= Run(w, from).nodes[n].applied[key]
    decreases t
  {
    if t != from {
      NoGoingBack(w, from, t.before, n, key);
      RunKnown(w, t.before, key);
      StepNeverGoesBack(Run(w, t.before), t.event, n, key, Requested(t.before, key));
    }
  }

  lemma StepNeverGoesBack(w: World, e: Event, n: NodeId, key: string, values: set<string>)
    requires Sound(w) && Enabled(w, e) && n in w.nodes && AllRequested(ViewOf(w, key), key, values)
    requires e.Restart? || e.Recover? || e.Adopt? ==> e.node != n
    requires key in w.nodes[n].applied
    ensures n in Next(w, e).nodes && key in Next(w, e).nodes[n].applied
    ensures Next(w, e).nodes[n].applied[key] >= w.nodes[n].applied[key]
  {
    NextByKey(w, e, key);
    NextSound(w, e);
    var v := ViewOf(w, key);
    assert CellKnown(v.cells[n], key, values);
    assert v.cells[n] == CellOf(w.nodes[n], key);
    if Relevant(e, key) {
      NextNeverGoesBack(v, e, key, n);
    }
    assert n in ViewOf(Next(w, e), key).cells;
    assert ViewOf(Next(w, e), key).cells[n] == CellOf(Next(w, e).nodes[n], key);
  }

  /** The replica never copied a store. */
  ghost predicate NeverRecovers(t: Trace, n: NodeId) {
    t.Then? ==> !(t.event.Recover? && t.event.node == n) && NeverRecovers(t.before, n)
  }

  lemma StepApplied(v: View, e: Event, key: string, n: NodeId)
    requires ViewSound(v, key) && EnabledIn(v, e, key) && n in v.cells && e.Step?
    requires v.cells[n].current.Some? ==> v.cells[n].applied.Some?
    ensures NextIn(v, e, key).cells[n].current.Some? ==> NextIn(v, e, key).cells[n].applied.Some?
  {
    StepReadyIn(v, e.id, key);
    var a := v.active[e.id];
    ServeApplied(v.cells[a.todo[0]], NextCall(a), e.outcome);
  }

  lemma ServeApplied(c: Cell, call: Call, outcome: Outcome)
    ensures var c' := TransmitCell(c, call, outcome).0;
            (c'.current == c.current && c'.applied == c.applied) || c'.applied.Some?
  {
  }

  lemma NextApplied(v: View, e: Event, key: string, n: NodeId)
    requires ViewSound(v, key) && EnabledIn(v, e, key) && n in v.cells && key != LEADER_KEY
    requires !(e.Recover? && e.node == n)
    requires v.cells[n].current.Some? ==> v.cells[n].applied.Some?
    ensures NextIn(v, e, key).cells[n].current.Some? ==> NextIn(v, e, key).cells[n].applied.Some?
  {
    match e
    case Step(_, _) => StepApplied(v, e, key, n);
    case Finish(id) =>
      ProposerIsCell(v, id, key);
      assert JobSound(id, v.active[id], v.members);
    case _ =>
  }

  /** Without recovery, every stored value was put there by a success call. */
  lemma {:induction false} StoredMeansApplied(w: World, t: Trace, n: NodeId, key: string)
    requires Initial(w) && Valid(w, t) && NeverRecovers(t, n) && n in w.nodes && key != LEADER_KEY
    ensures key in Run(w, t).nodes[n].kv ==> key in Run(w, t).nodes[n].applied
  {
    if t.Then? {
      StoredMeansApplied(w, t.before, n, key);
      var w' := Run(w, t.before);
      NextByKey(w', t.event, key);
      assert ViewOf(w', key).cells[n] == CellOf(w'.nodes[n], key);
      if Relevant(t.event, key) {
        NextApplied(ViewOf(w', key), t.event, key, n);
      }
      assert ViewOf(Run(w, t), key).cells[n] == CellOf(Run(w, t).nodes[n], key);
    }
  }

  // ----- What a caller may rely on when it gets OK -----

  /** The success call of an attempt, as its result determines it. */
  function Announcement(f: Finished): Call {
    Success(Request(f.request.key, f.response.value, f.response.pServerId, f.response.aServerId, f.response.round,
                    f.response.op))
  }

  /** The success loop of the attempt has called the replica. */
  predicate HasTold(a: Attempt, n: NodeId) {
    (a.stage == Informing || (a.stage == Returned && a.ok)) && n !in a.todo
  }

  ghost predicate Announced(w: World) {
    && (forall id, n :: id in w.active && n in w.members && HasTold(w.active[id], n) ==>
          Packet(n, Success(SuccessRequest(w.active[id]))) in w.sent)
    && (forall f, n :: f in w.history && n in w.members && f.ok ==> Packet(n, Announcement(f)) in w.sent)
  }

  lemma ReceiveTells(a: Attempt, reply: Option<Reply>, n: NodeId)
    requires a.todo != [] && a.stage != Returned && !a.ok && n in a.members && HasTold(Receive(a, reply), n)
    ensures a.stage == Informing && (HasTold(a, n) || n == a.todo[0])
    ensures SuccessRequest(Receive(a, reply)) == SuccessRequest(a)
  {
  }

  lemma StepAnnounced(w: World, e: Event)
    requires Sound(w) && Enabled(w, e) && e.Step? && Announced(w)
    ensures Announced(Next(w, e))
  {
    StepReady(w, e.id);
    var a := w.active[e.id];
    assert JobSound(e.id, a, w.members);
    var reply := Transmit(w.nodes[a.todo[0]], NextCall(a), e.outcome).1;
    forall n | n in w.members && HasTold(Receive(a, reply), n)
      ensures Packet(n, Success(SuccessRequest(Receive(a, reply)))) in Next(w, e).sent
    {
      ReceiveTells(a, reply, n);
    }
  }

  lemma FinishAnnounced(w: World, id: AttemptId)
    requires Sound(w) && Enabled(w, Finish(id)) && Announced(w)
    ensures Announced(Next(w, Finish(id)))
  {
    var a := w.active[id];
    assert JobSound(id, a, w.members);
    assert Announcement(Finished(id, a.request, a.ok, a.acceptance)) == Success(SuccessRequest(a));
  }

  lemma NextAnnounced(w: World, e: Event)
    requires Sound(w) && Enabled(w, e) && Announced(w)
    ensures Announced(Next(w, e))
  {
    match e
    case Step(_, _) => StepAnnounced(w, e);
    case Finish(id) => FinishAnnounced(w, id);
    case _ =>
  }

  /** In every run, an attempt that has returned OK has sent its success call to every replica. */
  lemma {:induction false} OkWasAnnounced(w: World, t: Trace)
    requires Initial(w) && Valid(w, t)
    ensures Announced(Run(w, t))
  {
    if t.Then? {
      OkWasAnnounced(w, t.before);
      NextAnnounced(Run(w, t.before), t.event);
    }
  }
}
