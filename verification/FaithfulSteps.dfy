/** Every event of a faithful run preserves the invariant. */
module FaithfulSteps {
  import opened Protocol
  import opened Quorum
  import opened Attempts
  import opened Cells
  import opened Worlds
  import opened Faithful

  lemma {:induction false} RangeSize(m: nat, s: set<nat>)
    requires forall r: nat :: r in s <==> r < m
    ensures |s| == m
  {
    if m == 0 {
      assert s == {};
    } else {
      RangeSize(m - 1, s - {m - 1});
    }
  }

  /** A log that holds every round below `m`, and no other, has size `m`: reading the size gives a fresh round. */
  lemma CompleteSize(c: Cell, m: nat)
    requires Complete(c, m) && forall r :: r in c.rounds ==> r < m
    ensures |c.rounds| == m
  {
    RangeSize(m, c.rounds.Keys);
  }

  /** What the next call of `a` does to the cells and to the set of sent messages. */
  ghost predicate CallMade(v: View, v': View, a: Attempt, outcome: Outcome) {
    && a.stage != Returned && a.todo != [] && a.todo[0] in v.cells
    && v'.cells == v.cells[a.todo[0] := TransmitCell(v.cells[a.todo[0]], NextCall(a), outcome).0]
    && v'.sent == Posted(v.sent, a.todo[0], NextCall(a))
    && v'.history == v.history
  }

  function ReplyOf(v: View, a: Attempt, outcome: Outcome): Option<Reply>
    requires a.stage != Returned && a.todo != [] && a.todo[0] in v.cells
  {
    TransmitCell(v.cells[a.todo[0]], NextCall(a), outcome).1
  }

  lemma MovedFits(v: View, v': View, a: Attempt, outcome: Outcome, g: Ledger)
    requires CallMade(v, v', a, outcome) && AllFit(v, g) && CallFits(NextCall(a), g)
    ensures AllFit(v', g)
    ensures forall n :: n in v.cells ==> n in v'.cells && v.cells[n].rounds.Keys <= v'.cells[n].rounds.Keys
    ensures a.stage != Informing ==> forall n :: n in v.cells ==> v'.cells[n].current == v.cells[n].current
    ensures outcome != Lost && a.stage != Pinging ==> NextCall(a).request.round in v'.cells[a.todo[0]].rounds
  {
    ServeFits(v.cells[a.todo[0]], NextCall(a), g);
  }

  lemma NextCallFits(v: View, s: Setting, g: Ledger, a: Attempt)
    requires Covers(v, s) && StageFits(v, s, g, a) && a.stage != Returned
    requires a.stage == Informing ==> a.acceptance == Echo(AcceptRequest(a))
    ensures CallFits(NextCall(a), g)
    ensures a.stage == Informing ==> SuccessRequest(a).round == a.round == |g| - 1
  {
  }

  /** Growing logs with unchanged values and history keep the faithful cells in step. */
  lemma StillInStep(v: View, v': View, s: Setting, g: Ledger, m: nat)
    requires Covers(v, s) && InStep(v, s, g, m)
    requires v'.history == v.history
    requires forall n :: n in s.faithful ==>
               && n in v'.cells
               && v.cells[n].rounds.Keys <= v'.cells[n].rounds.Keys
               && v'.cells[n].current == v.cells[n].current
    ensures Covers(v', s) && InStep(v', s, g, m)
  {
    forall f | f in s.faithful ensures Complete(v'.cells[f], m) {
      assert Complete(v.cells[f], m);
    }
  }

  lemma StartFits(v: View, s: Setting, g: Ledger, proposer: NodeId, request: Request)
    requires Covers(v, s) && AllFit(v, g) && InStep(v, s, g, |g|) && proposer in s.faithful
    requires v.cells.Keys == Elems(v.members)
    ensures StageFits(v, s, g, Begin(proposer, request, v.members, |v.cells[proposer].rounds|))
  {
    CompleteSize(v.cells[proposer], |g|);
    assert forall f :: f in s.faithful ==> f in Elems(v.members);
  }

  lemma OpenRound(v: View, s: Setting, g: Ledger, d: Decision)
    requires Covers(v, s) && AllFit(v, g) && InStep(v, s, g, |g|) && !d.committed
    ensures AllFit(v, g + [d]) && InStep(v, s, g + [d], |g|) && Untouched(v, |g|)
  {
    LatestGrows(g, d);
    forall p | p in v.sent ensures CallFits(p.call, g + [d]) { LedgerGrows(RestartedCell(""), p.call, g, d); }
    forall n | n in v.cells ensures CellFits(v.cells[n], g + [d]) { LedgerGrows(v.cells[n], Ping, g, d); }
  }

  lemma PingFits(v: View, v': View, s: Setting, g: Ledger, a: Attempt, outcome: Outcome)
    returns (g': Ledger)
    requires Covers(v, s) && AllFit(v, g) && StageFits(v, s, g, a) && a.stage == Pinging && PingingShape(a)
    requires CallMade(v, v', a, outcome) && Honest(a, outcome, s.faithful) && !a.ok
    ensures Covers(v', s) && AllFit(v', g') && StageFits(v', s, g', Receive(a, ReplyOf(v, a, outcome)))
    ensures LedgerStep(g, g', a, Receive(a, ReplyOf(v, a, outcome)))
  {
    PingIsStill(v.cells, a.todo[0], outcome);
    assert v'.cells == v.cells && v'.sent == v.sent;
    var b := Receive(a, ReplyOf(v, a, outcome));
    assert forall f :: f in s.faithful ==> f in a.todo[1..] || f in b.live;
    if b.stage == Proposing {
      var d := Decision(a.request.value, a.request.op, false);
      OpenRound(v', s, g, d);
      g' := g + [d];
    } else {
      g' := g;
    }
  }

  /** The round of the attempt is fresh, so no propose reply carries an accepted value. */
  lemma FreshReply(v: View, g: Ledger, a: Attempt, outcome: Outcome)
    requires AllFit(v, g) && a.stage == Proposing && Owns(a, g, false) && Untouched(v, a.round)
    requires a.todo != [] && a.todo[0] in v.cells
    ensures var r := ReplyOf(v, a, outcome);
            r.Some? ==> r.value.Ok? && r.value.response.aServerId == 0
  {
    assert EntryAt(v.cells[a.todo[0]].rounds, a.round).aServerId == 0;
  }

  lemma ProposeMoves(v: View, v': View, s: Setting, g: Ledger, a: Attempt, outcome: Outcome)
    requires Covers(v, s) && AllFit(v, g) && StageFits(v, s, g, a) && a.stage == Proposing
    requires CallMade(v, v', a, outcome) && Honest(a, outcome, s.faithful)
    ensures Covers(v', s) && AllFit(v', g) && InStep(v', s, g, |g| - 1) && Untouched(v', a.round)
    ensures forall f :: f in s.faithful ==> f in a.todo[1..] || a.round in v'.cells[f].rounds
  {
    MovedFits(v, v', a, outcome, g);
    StillInStep(v, v', s, g, |g| - 1);
    assert EntryAt(v.cells[a.todo[0]].rounds, a.round).aServerId == 0;
    forall f | f in s.faithful && f !in a.todo[1..] ensures a.round in v'.cells[f].rounds {
      if f != a.todo[0] {
        assert f !in a.todo;
      }
    }
  }

  lemma ProposeFits(v: View, v': View, s: Setting, g: Ledger, a: Attempt, outcome: Outcome)
    requires Covers(v, s) && AllFit(v, g) && StageFits(v, s, g, a) && a.stage == Proposing
    requires CallMade(v, v', a, outcome) && Honest(a, outcome, s.faithful) && !a.ok
    ensures Covers(v', s) && AllFit(v', g) && StageFits(v', s, g, Receive(a, ReplyOf(v, a, outcome)))
  {
    FreshReply(v, g, a, outcome);
    ProposeMoves(v, v', s, g, a, outcome);
    ProposeSettlesFits(v', s, g, Absorb(a, a.todo[0], ReplyOf(v, a, outcome)).(todo := a.todo[1..]));
  }

  lemma ProposeSettlesFits(v: View, s: Setting, g: Ledger, m: Attempt)
    requires Covers(v, s) && AllFit(v, g) && m.stage == Proposing && !m.ok && Owns(m, g, false)
    requires InStep(v, s, g, |g| - 1) && Untouched(v, m.round)
    requires forall f :: f in s.faithful ==> f in m.live && (f in m.todo || m.round in v.cells[f].rounds)
    ensures StageFits(v, s, g, Settle(m))
  {
    if m.todo == [] {
      forall f | f in s.faithful ensures Complete(v.cells[f], |g|) {
        assert Complete(v.cells[f], |g| - 1);
      }
    }
  }

  lemma AcceptFits(v: View, v': View, s: Setting, g: Ledger, a: Attempt, outcome: Outcome)
    returns (g': Ledger)
    requires Covers(v, s) && AllFit(v, g) && StageFits(v, s, g, a) && a.stage == Accepting
    requires CallMade(v, v', a, outcome) && v.cells.Keys == Elems(a.members) && !a.ok
    ensures Covers(v', s) && AllFit(v', g') && StageFits(v', s, g', Receive(a, ReplyOf(v, a, outcome)))
    ensures LedgerStep(g, g', a, Receive(a, ReplyOf(v, a, outcome)))
  {
    MovedFits(v, v', a, outcome, g);
    StillInStep(v, v', s, g, |g|);
    g' := AcceptSettlesFits(v', s, g, a, Absorb(a, a.todo[0], ReplyOf(v, a, outcome)).(todo := a.todo[1..]));
  }

  lemma AcceptSettlesFits(v: View, s: Setting, g: Ledger, a: Attempt, m: Attempt) returns (g': Ledger)
    requires Covers(v, s) && AllFit(v, g) && InStep(v, s, g, |g|) && a.stage == Accepting == m.stage && !m.ok
    requires Owns(m, g, false) && v.cells.Keys == Elems(m.members)
    ensures AllFit(v, g') && StageFits(v, s, g', Settle(m)) && LedgerStep(g, g', a, Settle(m))
  {
    g' := g;
    if Settle(m).stage == Informing {
      g' := WithCommit(g);
      StartSpreading(v, s, g, Settle(m));
    }
  }

  lemma StartSpreading(v: View, s: Setting, g: Ledger, b: Attempt)
    requires Covers(v, s) && AllFit(v, g) && InStep(v, s, g, |g|) && Owns(b, g, false)
    requires v.cells.Keys == Elems(b.members) && b.todo == b.members
    ensures AllFit(v, WithCommit(g)) && Spreading(v, s, WithCommit(g), b)
  {
    CommitAllFits(v, g);
    LatestCommitted(g);
    assert forall f :: f in s.faithful ==> f in Elems(b.members);
  }

  lemma CommitAllFits(v: View, g: Ledger)
    requires AllFit(v, g) && g != []
    ensures AllFit(v, WithCommit(g))
  {
    forall p | p in v.sent ensures CallFits(p.call, WithCommit(g)) { CommitFits(RestartedCell(""), p.call, g); }
    forall n | n in v.cells ensures CellFits(v.cells[n], WithCommit(g)) { CommitFits(v.cells[n], Ping, g); }
  }

  lemma InformMoves(v: View, v': View, s: Setting, g: Ledger, a: Attempt, outcome: Outcome)
    requires Covers(v, s) && AllFit(v, g) && Spreading(v, s, g, a) && a.stage == Informing
    requires CallMade(v, v', a, outcome) && Honest(a, outcome, s.faithful)
    requires NextCall(a) == Success(Request(a.request.key, a.request.value, PROPOSE_ID, 0, a.round, a.request.op))
    ensures Covers(v', s) && AllFit(v', g) && Spreading(v', s, g, a.(todo := a.todo[1..]))
  {
    MovedFits(v, v', a, outcome, g);
    var n := a.todo[0];
    if n in s.faithful {
      assert Complete(v.cells[n], |g|);
      SpreadingIsOneWay(v.cells[n], NextCall(a), g);
    }
    forall f | f in s.faithful ensures Complete(v'.cells[f], |g|) {
      assert Complete(v.cells[f], |g|);
    }
    forall f | f in s.faithful
      ensures || v'.cells[f].current == Some(a.request.value)
              || (f in a.todo[1..] && v'.cells[f].current == Expected(g[..|g| - 1], s.initial[f]))
    {
      if f != n && f in a.todo {
        assert f in a.todo[1..];
      }
    }
  }

  lemma InformFits(v: View, v': View, s: Setting, g: Ledger, a: Attempt, outcome: Outcome)
    requires Covers(v, s) && AllFit(v, g) && StageFits(v, s, g, a) && a.stage == Informing
    requires CallMade(v, v', a, outcome) && Honest(a, outcome, s.faithful)
    requires a.acceptance == Echo(AcceptRequest(a))
    ensures Covers(v', s) && AllFit(v', g) && StageFits(v', s, g, Receive(a, ReplyOf(v, a, outcome)))
  {
    InformMoves(v, v', s, g, a, outcome);
  }

  lemma FinishFits(v: View, s: Setting, g: Ledger, a: Attempt, f: Finished, cells: map<NodeId, Cell>)
    requires Covers(v, s) && AllFit(v, g) && StageFits(v, s, g, a) && a.stage == Returned && a.todo == []
    requires f.request == a.request && f.ok == a.ok
    requires a.ok ==> a.acceptance == Echo(AcceptRequest(a))
    requires a.proposer in s.faithful
    requires cells == if Elects(a) then v.cells[a.proposer := v.cells[a.proposer].(current := Some(a.acceptance.value))]
                      else v.cells
    ensures cells == v.cells
    ensures InStep(v.(history := v.history + [f]), s, g, |g|)
  {
    assert (v.history + [f])[..|v.history|] == v.history;
  }

  lemma DeliverFits(v: View, v': View, s: Setting, g: Ledger, cur: Option<Attempt>, p: Packet)
    requires Covers(v, s) && AllFit(v, g) && p in v.sent && p.dest in v.cells
    requires match cur case None => InStep(v, s, g, |g|) case Some(a) => StageFits(v, s, g, a)
    requires v' == v.(cells := v.cells[p.dest := ServeCell(v.cells[p.dest], p.call).0])
    ensures Covers(v', s) && AllFit(v', g)
    ensures match cur case None => InStep(v', s, g, |g|) case Some(a) => StageFits(v', s, g, a)
  {
    ServeFits(v.cells[p.dest], p.call, g);
    if cur.Some? && (cur.value.stage == Informing || (cur.value.stage == Returned && cur.value.ok)) {
      DeliverSpreading(v, v', s, g, cur.value, p);
    } else {
      DeliverInStep(v, v', s, g, if cur.Some? && cur.value.stage == Proposing then |g| - 1 else |g|, p);
    }
  }

  lemma DeliverInStep(v: View, v': View, s: Setting, g: Ledger, m: nat, p: Packet)
    requires Covers(v, s) && AllFit(v, g) && p in v.sent && p.dest in v.cells && InStep(v, s, g, m)
    requires m == |g| || (g != [] && !g[|g| - 1].committed && m == |g| - 1)
    requires v' == v.(cells := v.cells[p.dest := ServeCell(v.cells[p.dest], p.call).0])
    ensures Covers(v', s) && InStep(v', s, g, m)
  {
    ServeFits(v.cells[p.dest], p.call, g);
    if p.dest in s.faithful {
      assert Complete(v.cells[p.dest], m);
      LateIsHarmless(v.cells[p.dest], p.call, g, s.initial[p.dest]);
    }
    StillInStep(v, v', s, g, m);
  }

  lemma DeliverSpreading(v: View, v': View, s: Setting, g: Ledger, a: Attempt, p: Packet)
    requires Covers(v, s) && AllFit(v, g) && p in v.sent && p.dest in v.cells && Spreading(v, s, g, a)
    requires v' == v.(cells := v.cells[p.dest := ServeCell(v.cells[p.dest], p.call).0])
    ensures Covers(v', s) && Spreading(v', s, g, a)
  {
    ServeFits(v.cells[p.dest], p.call, g);
    if p.dest in s.faithful {
      assert Complete(v.cells[p.dest], |g|);
      SpreadingIsOneWay(v.cells[p.dest], p.call, g);
    }
    forall f | f in s.faithful ensures Complete(v'.cells[f], |g|) {
      assert Complete(v.cells[f], |g|);
    }
  }

  lemma OutsiderFits(v: View, v': View, s: Setting, g: Ledger, cur: Option<Attempt>, n: NodeId, c: Cell)
    requires Covers(v, s) && AllFit(v, g) && n in v.cells && n !in s.faithful
    requires match cur case None => InStep(v, s, g, |g|) case Some(a) => StageFits(v, s, g, a)
    requires CellFits(c, g) && (c.rounds == map[] || c.rounds == v.cells[n].rounds)
    requires v' == v.(cells := v.cells[n := c])
    ensures Covers(v', s) && AllFit(v', g)
    ensures match cur case None => InStep(v', s, g, |g|) case Some(a) => StageFits(v', s, g, a)
  {
    if !(cur.Some? && (cur.value.stage == Informing || (cur.value.stage == Returned && cur.value.ok))) {
      StillInStep(v, v', s, g, if cur.Some? && cur.value.stage == Proposing then |g| - 1 else |g|);
    }
  }

  // ----- Putting the cases together -----

  /** An event leaves the ledger alone, opens one undecided round, or commits the newest round. */
  ghost predicate LedgerStep(g: Ledger, g': Ledger, a: Attempt, b: Attempt) {
    || g' == g
    || (exists d: Decision :: !d.committed && g' == g + [d] && a.stage == Pinging && b.stage == Proposing)
    || (g != [] && !g[|g| - 1].committed && g' == WithCommit(g) && a.stage == Accepting && b.stage == Informing)
  }

  lemma StepShape(v: View, key: string, id: AttemptId, outcome: Outcome)
    requires ViewSound(v, key) && id in v.active && v.active[id].stage != Returned
    ensures var a := v.active[id];
            && CallMade(v, NextIn(v, Step(id, outcome), key), a, outcome) && !a.ok
            && v.cells.Keys == Elems(a.members)
            && (a.stage == Pinging ==> PingingShape(a))
            && (a.stage == Informing ==> a.acceptance == Echo(AcceptRequest(a)))
            && NextIn(v, Step(id, outcome), key).active == v.active[id := Receive(a, ReplyOf(v, a, outcome))]
            && Receive(a, ReplyOf(v, a, outcome)).proposer == a.proposer
  {
    StepReadyIn(v, id, key);
    assert JobSound(id, v.active[id], v.members);
    ReceiveProgress(v.active[id], ReplyOf(v, v.active[id], outcome));
  }

  lemma StepFaith(v: View, v': View, s: Setting, g: Ledger, id: AttemptId, a: Attempt, outcome: Outcome)
    returns (g': Ledger)
    requires Faith(v, s, g, id, Some(a)) && a.stage != Returned && Honest(a, outcome, s.faithful)
    requires CallMade(v, v', a, outcome) && !a.ok
    requires v.cells.Keys == Elems(a.members)
    requires a.stage == Pinging ==> PingingShape(a)
    requires a.stage == Informing ==> a.acceptance == Echo(AcceptRequest(a))
    ensures Covers(v', s) && AllFit(v', g') && StageFits(v', s, g', Receive(a, ReplyOf(v, a, outcome)))
    ensures LedgerStep(g, g', a, Receive(a, ReplyOf(v, a, outcome)))
  {
    g' := g;
    match a.stage
    case Pinging => g' := PingFits(v, v', s, g, a, outcome);
    case Proposing => ProposeFits(v, v', s, g, a, outcome);
    case Accepting => g' := AcceptFits(v, v', s, g, a, outcome);
    case Informing => InformFits(v, v', s, g, a, outcome);
  }

  lemma AttemptShape(v: View, key: string, id: AttemptId)
    requires ViewSound(v, key) && id in v.active && v.active[id].stage == Returned
    ensures var a := v.active[id];
            a.todo == [] && a.proposer in v.cells && (a.ok ==> a.acceptance == Echo(AcceptRequest(a)))
  {
    ProposerIsCell(v, id, key);
    assert JobSound(id, v.active[id], v.members);
  }

  lemma FinishFaith(v: View, key: string, s: Setting, g: Ledger, id: AttemptId, a: Attempt)
    requires ViewSound(v, key) && Faith(v, s, g, id, Some(a)) && a.stage == Returned
    ensures Faith(NextIn(v, Finish(id), key), s, g, id, None)
  {
    AttemptShape(v, key, id);
    FinishFits(v, s, g, a, Finished(id, a.request, a.ok, a.acceptance), NextIn(v, Finish(id), key).cells);
  }

  lemma OutsiderFaith(v: View, key: string, s: Setting, g: Ledger, id: AttemptId, cur: Option<Attempt>, e: Event)
    requires ViewSound(v, key) && EnabledIn(v, e, key) && (e.Restart? || e.Recover? || e.Adopt?)
    requires Faith(v, s, g, id, cur) && KeepsFaith(v, e, s, key)
    ensures Faith(NextIn(v, e, key), s, g, id, cur)
  {
    var n := e.node;
    var c := NextIn(v, e, key).cells[n];
    OutsiderFits(v, NextIn(v, e, key), s, g, cur, n, c);
  }

  lemma StartFaith(v: View, key: string, s: Setting, g: Ledger, id: AttemptId, e: Event)
    requires ViewSound(v, key) && EnabledIn(v, e, key) && e.Start?
    requires Faith(v, s, g, id, None) && KeepsFaith(v, e, s, key)
    ensures var a := Begin(e.proposer, e.request, v.members, |v.cells[e.proposer].rounds|);
            Faith(NextIn(v, e, key), s, g, e.id, Some(a))
  {
    StartFits(v, s, g, e.proposer, e.request);
  }

  lemma StepEventFaith(v: View, key: string, s: Setting, g: Ledger, id: AttemptId, a: Attempt, outcome: Outcome)
    returns (g': Ledger)
    requires ViewSound(v, key) && a.stage != Returned
    requires Faith(v, s, g, id, Some(a)) && Honest(a, outcome, s.faithful)
    ensures a.todo != [] && a.todo[0] in v.cells
    ensures Faith(NextIn(v, Step(id, outcome), key), s, g', id, Some(Receive(a, ReplyOf(v, a, outcome))))
    ensures LedgerStep(g, g', a, Receive(a, ReplyOf(v, a, outcome)))
  {
    StepShape(v, key, id, outcome);
    g' := StepFaith(v, NextIn(v, Step(id, outcome), key), s, g, id, a, outcome);
    StillFaithful(NextIn(v, Step(id, outcome), key), s, g', id, a, Receive(a, ReplyOf(v, a, outcome)));
  }

  lemma StillFaithful(v: View, s: Setting, g: Ledger, id: AttemptId, a: Attempt, b: Attempt)
    requires Covers(v, s) && AllFit(v, g) && StageFits(v, s, g, b)
    requires a.proposer in s.faithful && b.proposer == a.proposer && v.active == map[id := a][id := b]
    ensures Faith(v, s, g, id, Some(b))
  {
    assert map[id := a][id := b] == map[id := b];
  }

  lemma DeliverFaith(v: View, key: string, s: Setting, g: Ledger, id: AttemptId, cur: Option<Attempt>, p: Packet)
    requires ViewSound(v, key) && p in v.sent && Faith(v, s, g, id, cur)
    ensures Faith(NextIn(v, Deliver(p), key), s, g, id, cur)
  {
    DeliverFits(v, NextIn(v, Deliver(p), key), s, g, cur, p);
  }

  /** The invariant survives every event of a faithful run. */
  lemma NextFaith(v: View, key: string, s: Setting, g: Ledger, id: AttemptId, cur: Option<Attempt>, e: Event)
    returns (g': Ledger, id': AttemptId, cur': Option<Attempt>)
    requires ViewSound(v, key) && EnabledIn(v, e, key)
    requires Faith(v, s, g, id, cur) && KeepsFaith(v, e, s, key)
    ensures Faith(NextIn(v, e, key), s, g', id', cur')
    ensures !e.Step? ==> g' == g
    ensures e.Step? ==>
              && cur.Some? && cur'.Some? && cur.value.todo != [] && cur.value.todo[0] in v.cells
              && cur.value.stage != Returned
              && cur'.value == Receive(cur.value, ReplyOf(v, cur.value, e.outcome))
              && LedgerStep(g, g', cur.value, cur'.value)
  {
    g', id', cur' := g, id, cur;
    match e
    case Start(i, proposer, request) =>
      StartFaith(v, key, s, g, id, e);
      id', cur' := i, Some(Begin(proposer, request, v.members, |v.cells[proposer].rounds|));
    case Step(_, outcome) =>
      g' := StepEventFaith(v, key, s, g, id, cur.value, outcome);
      cur' := Some(Receive(cur.value, ReplyOf(v, cur.value, outcome)));
    case Finish(_) =>
      FinishFaith(v, key, s, g, id, cur.value);
      cur' := None;
    case Deliver(p) => DeliverFaith(v, key, s, g, id, cur, p);
    case Restart(_) => OutsiderFaith(v, key, s, g, id, cur, e);
    case Recover(_, _) => OutsiderFaith(v, key, s, g, id, cur, e);
    case Adopt(_, _) => OutsiderFaith(v, key, s, g, id, cur, e);
  }
}
