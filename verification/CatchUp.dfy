/** A restarted replica that copies the store of a faithful one, but not its log, and then hears every success call,
    keeps up with the faithful replicas for good. Of the messages sent before that, only a success call can set it
    back, and only one that no higher round in its log shows to be outdated. */
module CatchUp {
  import opened Protocol
  import opened Quorum
  import opened Attempts
  import opened Cells
  import opened Worlds
  import opened Faithful
  import opened FaithfulSteps
  import opened Refinement

  /** The replica `x` that follows, the value the faithful source started with, the first round used after the
      recovery and the messages that were sent before it. */
  datatype Follower = Follower(x: NodeId, initial: Option<string>, base: nat, stale: set<Packet>)

  predicate Hearing(cur: Option<Attempt>, x: NodeId) {
    cur.Some? && cur.value.stage == Informing && x in cur.value.todo
  }

  /** The follower has logged every round committed since the recovery and stores the expected value; while success
      calls go out it may not have heard of the newest round. */
  ghost predicate CellFollows(c: Cell, fl: Follower, g: Ledger, hearing: bool) {
    && (forall r :: fl.base <= r < |g| && g[r].committed ==> r in c.rounds || (hearing && r == |g| - 1))
    && (c.current == Expected(g, fl.initial)
        || (hearing && g != [] && c.current == Expected(g[..|g| - 1], fl.initial)))
  }

  ghost predicate KeepsPace(v: View, fl: Follower, g: Ledger, cur: Option<Attempt>) {
    && fl.x in v.cells
    && fl.base <= |g|
    && CellFollows(v.cells[fl.x], fl, g, Hearing(cur, fl.x))
    && (forall p :: p in v.sent && p !in fl.stale ==> !p.call.Ping? && p.call.request.round >= fl.base)
    && (cur.Some? ==> cur.value.round >= fl.base)
  }

  /** A success call that the log shows to be outdated, or that carries the value that is there anyway. */
  predicate Harmless(c: Cell, q: Request) {
    Outdated(c.rounds, q.round) || c.current == Some(q.value)
  }

  /** The follower hears success calls and does not restart or rejoin again; a success call from before it rejoined
      that arrives late is harmless when it arrives. */
  predicate HeardEvent(a: Option<Attempt>, c: Cell, e: Event, fl: Follower, key: string) {
    match e
    case Start(_, _, _) => true
    case Step(_, outcome) => Hearing(a, fl.x) && a.value.todo[0] == fl.x ==> outcome != Lost
    case Finish(_) => true
    case Deliver(p) => p.dest == fl.x && p in fl.stale && p.call.Success? ==> Harmless(c, p.call.request)
    case Restart(n) => n != fl.x
    case Recover(n, _) => n != fl.x || key == LEADER_KEY
    case Adopt(n, _) => n != fl.x
  }

  /** Any propose or accept call, and any success call about a round since the follower rejoined, or else harmless,
      keeps the follower's cell on course. */
  lemma ServeFollows(c: Cell, call: Call, fl: Follower, g: Ledger, hearing: bool)
    requires CellFits(c, g) && CallFits(call, g) && CellFollows(c, fl, g, hearing)
    requires call.Success? ==> call.request.round >= fl.base || Harmless(c, call.request)
    ensures CellFollows(ServeCell(c, call).0, fl, g, hearing)
    ensures call.Success? && call.request.round == |g| - 1 ==> CellFollows(ServeCell(c, call).0, fl, g, false)
  {
    var c' := ServeCell(c, call).0;
    ServeFits(c, call, g);
    if call.Success? {
      var q := call.request;
      var rounds := Recorded(c.rounds, q.round, q.pServerId, q.op, q.value);
      if q.round == |g| - 1 {
        assert !Outdated(rounds, q.round);
        LatestIs(g, q.round);
      } else if q.round < fl.base {
        OutdatedByOthers(c.rounds, q.round, rounds[q.round]);
        assert c'.current == c.current;
      } else if !Outdated(rounds, q.round) {
        forall i | q.round < i < |g| && g[i].committed ensures hearing && i == |g| - 1 {
          assert i !in rounds;
        }
        if g[|g| - 1].committed {
          LatestIs(g[..|g| - 1], q.round);
        } else {
          LatestIs(g, q.round);
        }
      }
    }
  }

  /** Leaving a loop, with the change to the ledger that goes with it. */
  lemma SettleFollows(c: Cell, fl: Follower, g: Ledger, g': Ledger, a: Attempt, b: Attempt)
    requires a.todo != [] && fl.x in Elems(a.members)
    requires CellFollows(c, fl, g, a.stage == Informing && fl.x in a.todo[1..])
    requires b.stage == Informing ==> b.todo == if a.stage == Informing then a.todo[1..] else a.members
    requires b.stage != Informing && a.stage == Informing ==> a.todo[1..] == []
    requires LedgerStep(g, g', a, b)
    ensures CellFollows(c, fl, g', Hearing(Some(b), fl.x))
  {
    if g' == g {
    } else if b.stage == Proposing {
      LatestGrows(g, g'[|g|]);
    } else {
      LatestCommitted(g);
      assert fl.x in b.todo;
    }
  }

  lemma ReceiveStages(a: Attempt, reply: Option<Reply>)
    requires a.todo != [] && a.stage != Returned && a.members != []
    ensures var b := Receive(a, reply);
            && b.round == a.round
            && (b.stage == Informing ==> b.todo == if a.stage == Informing then a.todo[1..] else a.members)
            && (b.stage != Informing && a.stage == Informing ==> a.todo[1..] == [])
  {
  }

  lemma StepFollows(v: View, v': View, fl: Follower, g: Ledger, g': Ledger, a: Attempt, outcome: Outcome)
    requires AllFit(v, g) && KeepsPace(v, fl, g, Some(a)) && CallMade(v, v', a, outcome)
    requires CallFits(NextCall(a), g) && (a.stage == Informing ==> SuccessRequest(a).round == a.round == |g| - 1)
    requires LedgerStep(g, g', a, Receive(a, ReplyOf(v, a, outcome)))
    requires Hearing(Some(a), fl.x) && a.todo[0] == fl.x ==> outcome != Lost
    requires v.cells.Keys == Elems(a.members)
    ensures KeepsPace(v', fl, g', Some(Receive(a, ReplyOf(v, a, outcome))))
  {
    var b := Receive(a, ReplyOf(v, a, outcome));
    ReceiveStages(a, ReplyOf(v, a, outcome));
    CellStepFollows(v.cells[fl.x], v'.cells[fl.x], fl, g, a, outcome, a.todo[0] == fl.x);
    SettleFollows(v'.cells[fl.x], fl, g, g', a, b);
  }

  /** The effect of one call of the attempt on the follower's cell, before the loop is left. */
  lemma CellStepFollows(c: Cell, c': Cell, fl: Follower, g: Ledger, a: Attempt, outcome: Outcome, called: bool)
    requires CellFits(c, g) && a.stage != Returned && CallFits(NextCall(a), g) && a.todo != []
    requires a.round >= fl.base && (a.stage == Informing ==> SuccessRequest(a).round == a.round == |g| - 1)
    requires CellFollows(c, fl, g, a.stage == Informing && fl.x in a.todo)
    requires c' == if called then TransmitCell(c, NextCall(a), outcome).0 else c
    requires called <==> a.todo[0] == fl.x
    requires called && a.stage == Informing ==> outcome != Lost
    ensures CellFollows(c', fl, g, a.stage == Informing && fl.x in a.todo[1..])
  {
    if called {
      ServeFollows(c, NextCall(a), fl, g, a.stage == Informing && fl.x in a.todo);
      if a.stage == Informing {
        FollowsWeaker(c', fl, g, fl.x in a.todo[1..]);
      }
    }
  }

  lemma FollowsWeaker(c: Cell, fl: Follower, g: Ledger, hearing: bool)
    requires CellFollows(c, fl, g, false)
    ensures CellFollows(c, fl, g, hearing)
  {
  }

  lemma StepEventFollows(v: View, key: string, s: Setting, g: Ledger, id: AttemptId, a: Attempt, outcome: Outcome,
                         g': Ledger, fl: Follower)
    requires ViewSound(v, key) && Faith(v, s, g, id, Some(a)) && a.stage != Returned
    requires KeepsPace(v, fl, g, Some(a))
    requires Hearing(Some(a), fl.x) && a.todo[0] == fl.x ==> outcome != Lost
    requires a.todo != [] && a.todo[0] in v.cells
    requires LedgerStep(g, g', a, Receive(a, ReplyOf(v, a, outcome)))
    ensures KeepsPace(NextIn(v, Step(id, outcome), key), fl, g', Some(Receive(a, ReplyOf(v, a, outcome))))
  {
    StepShape(v, key, id, outcome);
    NextCallFits(v, s, g, a);
    StepFollows(v, NextIn(v, Step(id, outcome), key), fl, g, g', a, outcome);
  }

  lemma DeliverFollows(v: View, key: string, s: Setting, g: Ledger, id: AttemptId, cur: Option<Attempt>, p: Packet,
                       fl: Follower)
    requires ViewSound(v, key) && Faith(v, s, g, id, cur) && p in v.sent
    requires KeepsPace(v, fl, g, cur) && HeardEvent(cur, v.cells[fl.x], Deliver(p), fl, key)
    ensures KeepsPace(NextIn(v, Deliver(p), key), fl, g, cur)
  {
    if p.dest == fl.x {
      ServeFollows(v.cells[fl.x], p.call, fl, g, Hearing(cur, fl.x));
    }
  }

  lemma OtherFollows(v: View, key: string, s: Setting, g: Ledger, id: AttemptId, cur: Option<Attempt>, e: Event,
                     cur': Option<Attempt>, fl: Follower)
    requires ViewSound(v, key) && EnabledIn(v, e, key) && !e.Step? && !e.Deliver?
    requires Faith(v, s, g, id, cur) && KeepsFaith(v, e, s, key) && fl.x !in s.faithful
    requires KeepsPace(v, fl, g, cur) && HeardEvent(cur, v.cells[fl.x], e, fl, key)
    requires Faith(NextIn(v, e, key), s, g, id, cur') || (e.Start? && Faith(NextIn(v, e, key), s, g, e.id, cur'))
    ensures KeepsPace(NextIn(v, e, key), fl, g, cur')
  {
    if e.Finish? {
      AttemptShape(v, key, e.id);
    }
  }

  lemma NextFollows(v: View, key: string, s: Setting, g: Ledger, id: AttemptId, cur: Option<Attempt>, e: Event,
                    fl: Follower)
    returns (g': Ledger, id': AttemptId, cur': Option<Attempt>)
    requires ViewSound(v, key) && EnabledIn(v, e, key)
    requires Faith(v, s, g, id, cur) && KeepsFaith(v, e, s, key) && fl.x !in s.faithful
    requires KeepsPace(v, fl, g, cur) && HeardEvent(cur, v.cells[fl.x], e, fl, key)
    ensures Faith(NextIn(v, e, key), s, g', id', cur')
    ensures KeepsPace(NextIn(v, e, key), fl, g', cur')
  {
    g', id', cur' := g, id, cur;
    if e.Step? {
      g' := StepEventFaith(v, key, s, g, id, cur.value, e.outcome);
      StepEventFollows(v, key, s, g, id, cur.value, e.outcome, g', fl);
      cur' := Some(Receive(cur.value, ReplyOf(v, cur.value, e.outcome)));
    } else if e.Deliver? {
      DeliverFaith(v, key, s, g, id, cur, e.packet);
      DeliverFollows(v, key, s, g, id, cur, e.packet, fl);
    } else {
      if e.Start? {
        StartFaith(v, key, s, g, id, e);
        id', cur' := e.id, Some(Begin(e.proposer, e.request, v.members, |v.cells[e.proposer].rounds|));
      } else if e.Finish? {
        FinishFaith(v, key, s, g, id, cur.value);
        cur' := None;
      } else {
        OutsiderFaith(v, key, s, g, id, cur, e);
      }
      OtherFollows(v, key, s, g, id, cur, e, cur', fl);
    }
  }

  // ----- Whole runs -----

  /** The same for a run: what the replica has to hear about one key. */
  predicate HeardIn(w: World, e: Event, x: NodeId, stale: set<Packet>, key: string)
    requires Enabled(w, e) && x in w.nodes
  {
    match e
    case Start(_, _, _) => true
    case Step(id, outcome) =>
      var a := w.active[id];
      id.key == key && a.stage == Informing && a.todo != [] && a.todo[0] == x ==> outcome != Lost
    case Finish(_) => true
    case Deliver(p) => p.dest == x && p in stale && IsSuccess(p.call, key) ==>
      Harmless(CellOf(w.nodes[x], key), p.call.request)
    case Restart(n) => n != x
    case Recover(n, _) => n != x || key == LEADER_KEY
    case Adopt(n, _) => n != x || key != LEADER_KEY
  }

  predicate IsSuccess(call: Call, key: string) {
    call.Success? && call.request.key == key
  }

  /** All events of `t` after those of `from` are heard by `x`. */
  ghost predicate HearsAll(w: World, t: Trace, from: Trace, x: NodeId, stale: set<Packet>, key: string)
    requires Sound(w) && Valid(w, t) && x in w.nodes
  {
    t == from || (
      && t.Then?
      && HearsAll(w, t.before, from, x, stale, key)
      && HeardIn(Run(w, t.before), t.event, x, stale, key))
  }

  /** While the key is idle, `x` takes over what the faithful replica `f` holds for it: from its store, or, for the
      leader key, by naming the same leader. */
  ghost predicate Rejoins(w: World, t: Trace, e: Event, x: NodeId, f: NodeId, faithful: set<NodeId>, key: string) {
    && Trusted(w, t, faithful) && f in faithful && x in w.nodes && x !in faithful
    && Idle(Run(w, t), key)
    && if key == LEADER_KEY then e == Adopt(x, Run(w, t).nodes[f].leader)
       else e == Recover(x, f) && (key in Run(w, t).nodes[x].kv ==> key in Run(w, t).nodes[f].kv)
  }

  ghost predicate Tracks(v: View, s: Setting, fl: Follower, g: Ledger, id: AttemptId, cur: Option<Attempt>) {
    Faith(v, s, g, id, cur) && KeepsPace(v, fl, g, cur)
  }

  lemma AfterRejoining(w: World, t: Trace, e: Event, x: NodeId, f: NodeId, faithful: set<NodeId>, key: string)
    returns (g: Ledger, id: AttemptId, base: nat)
    requires Rejoins(w, t, e, x, f, faithful, key)
    ensures var w' := Run(w, t);
            var s := SettingOf(w, faithful, key);
            && Enabled(w', e)
            && Tracks(ViewOf(Next(w', e), key), s, Follower(x, s.initial[f], base, w'.sent), g, id, None)
  {
    g, id := IdleFaith(w, t, faithful, key);
    base := |g|;
    RejoinInView(Run(w, t), key, SettingOf(w, faithful, key), g, id, e, x, f);
  }

  lemma IdleFaith(w: World, t: Trace, faithful: set<NodeId>, key: string) returns (g: Ledger, id: AttemptId)
    requires Trusted(w, t, faithful) && Idle(Run(w, t), key)
    ensures Faith(ViewOf(Run(w, t), key), SettingOf(w, faithful, key), g, id, None)
  {
    var cur;
    g, id, cur := KeyInvariant(w, t, faithful, key);
    IdleInView(Run(w, t), key, SettingOf(w, faithful, key), g, id, cur);
  }

  lemma RejoinInView(w: World, key: string, s: Setting, g: Ledger, id: AttemptId, e: Event, x: NodeId, f: NodeId)
    requires Sound(w) && Faith(ViewOf(w, key), s, g, id, None)
    requires f in s.faithful && f in w.nodes && x in w.nodes && x !in s.faithful
    requires if key == LEADER_KEY then e == Adopt(x, w.nodes[f].leader)
             else e == Recover(x, f) && (key in w.nodes[x].kv ==> key in w.nodes[f].kv)
    ensures Enabled(w, e)
    ensures Tracks(ViewOf(Next(w, e), key), s, Follower(x, s.initial[f], |g|, w.sent), g, id, None)
  {
    NextByKey(w, e, key);
    var v := ViewOf(w, key);
    assert v.cells[f] == CellOf(w.nodes[f], key) && v.cells[x] == CellOf(w.nodes[x], key);
    RejoinFollows(v, key, s, g, id, e, x, f);
    StaleOfKey(NextIn(v, e, key), Follower(x, s.initial[f], |g|, v.sent), g, w.sent);
  }

  /** Messages about other keys do not matter. */
  lemma StaleOfKey(v: View, fl: Follower, g: Ledger, stale: set<Packet>)
    requires KeepsPace(v, fl, g, None) && fl.stale <= stale
    ensures KeepsPace(v, fl.(stale := stale), g, None)
  {
  }

  lemma RejoinFollows(v: View, key: string, s: Setting, g: Ledger, id: AttemptId, e: Event, x: NodeId, f: NodeId)
    requires ViewSound(v, key) && EnabledIn(v, e, key) && Faith(v, s, g, id, None)
    requires f in s.faithful && x in v.cells && x !in s.faithful
    requires if key == LEADER_KEY then e.Adopt? && e.node == x && Some(e.leader) == v.cells[f].current
             else e == Recover(x, f) && (v.cells[f].current.None? ==> v.cells[x].current.None?)
    ensures Tracks(NextIn(v, e, key), s, Follower(x, s.initial[f], |g|, v.sent), g, id, None)
  {
    OutsiderFaith(v, key, s, g, id, None, e);
  }

  lemma HeardInView(w: World, e: Event, key: string, s: Setting, g: Ledger, id: AttemptId, cur: Option<Attempt>,
                    fl: Follower)
    requires Sound(w) && Enabled(w, e) && Relevant(e, key) && fl.x in w.nodes && HeardIn(w, e, fl.x, fl.stale, key)
    requires Faith(ViewOf(w, key), s, g, id, cur)
    ensures HeardEvent(cur, ViewOf(w, key).cells[fl.x], e, fl, key)
  {
    if e.Step? {
      RunningInView(w, e.id, s, g, id, cur);
      StepReady(w, e.id);
    }
  }

  lemma FollowStep(w: World, e: Event, key: string, s: Setting, g: Ledger, id: AttemptId, cur: Option<Attempt>,
                   fl: Follower)
    returns (g': Ledger, id': AttemptId, cur': Option<Attempt>)
    requires Sound(w) && Enabled(w, e) && FaithfulEvent(w, e, s.faithful)
    requires fl.x in w.nodes && HeardIn(w, e, fl.x, fl.stale, key) && fl.x !in s.faithful
    requires Tracks(ViewOf(w, key), s, fl, g, id, cur)
    ensures Tracks(ViewOf(Next(w, e), key), s, fl, g', id', cur')
  {
    g', id', cur' := g, id, cur;
    NextByKey(w, e, key);
    if Relevant(e, key) {
      FaithfulInView(w, e, s.faithful, s.initial, key);
      HeardInView(w, e, key, s, g, id, cur, fl);
      g', id', cur' := NextFollows(ViewOf(w, key), key, s, g, id, cur, e, fl);
    }
  }

  /** Once on course after `from`, on course for the rest of the run. */
  lemma {:induction false} FollowRun(w: World, from: Trace, t: Trace, key: string, s: Setting, fl: Follower,
                                     g0: Ledger, id0: AttemptId)
    returns (g: Ledger, id: AttemptId, cur: Option<Attempt>)
    requires Trusted(w, t, s.faithful) && fl.x in w.nodes && HearsAll(w, t, from, fl.x, fl.stale, key)
    requires fl.x !in s.faithful
    requires Valid(w, from) && Tracks(ViewOf(Run(w, from), key), s, fl, g0, id0, None)
    ensures Tracks(ViewOf(Run(w, t), key), s, fl, g, id, cur)
    decreases t
  {
    if t == from {
      g, id, cur := g0, id0, None;
    } else {
      g, id, cur := FollowRun(w, from, t.before, key, s, fl, g0, id0);
      g, id, cur := FollowStep(Run(w, t.before), t.event, key, s, g, id, cur, fl);
    }
  }

  /** On course means in agreement, while the key is idle. */
  lemma TracksAgrees(w: World, key: string, s: Setting, fl: Follower, g: Ledger, id: AttemptId, cur: Option<Attempt>,
                     f: NodeId)
    requires Tracks(ViewOf(w, key), s, fl, g, id, cur) && Idle(w, key) && f in s.faithful && fl.initial == s.initial[f]
    requires fl.x in w.nodes && f in w.nodes
    ensures CellOf(w.nodes[fl.x], key).current == CellOf(w.nodes[f], key).current
  {
    IdleInView(w, key, s, g, id, cur);
    var v := ViewOf(w, key);
    assert v.cells[fl.x] == CellOf(w.nodes[fl.x], key) && v.cells[f] == CellOf(w.nodes[f], key);
  }

  /** A replica outside the faithful set has rejoined and heard what it has to. */
  ghost predicate KeptUp(w: World, earlier: Trace, e: Event, t: Trace, x: NodeId, f: NodeId, faithful: set<NodeId>,
                         key: string) {
    && Rejoins(w, earlier, e, x, f, faithful, key)
    && Trusted(w, t, faithful)
    && HearsAll(w, t, Then(earlier, e), x, Run(w, earlier).sent, key)
    && Idle(Run(w, t), key)
  }

  lemma RejoinIsEnabled(w: World, earlier: Trace, e: Event, x: NodeId, f: NodeId, faithful: set<NodeId>, key: string)
    requires Rejoins(w, earlier, e, x, f, faithful, key)
    ensures Valid(w, Then(earlier, e)) && Run(w, Then(earlier, e)) == Next(Run(w, earlier), e)
  {
  }

  lemma OnCourseAfter(w: World, earlier: Trace, e: Event, x: NodeId, f: NodeId, faithful: set<NodeId>, key: string)
    returns (fl: Follower, g: Ledger, id: AttemptId)
    requires Rejoins(w, earlier, e, x, f, faithful, key)
    ensures fl.x == x && fl.initial == SettingOf(w, faithful, key).initial[f] && fl.stale == Run(w, earlier).sent
    ensures Valid(w, Then(earlier, e))
    ensures Tracks(ViewOf(Run(w, Then(earlier, e)), key), SettingOf(w, faithful, key), fl, g, id, None)
  {
    var base;
    g, id, base := AfterRejoining(w, earlier, e, x, f, faithful, key);
    RejoinIsEnabled(w, earlier, e, x, f, faithful, key);
    fl := Follower(x, SettingOf(w, faithful, key).initial[f], base, Run(w, earlier).sent);
  }

  /** A replica outside the faithful set that takes over the store of a faithful one, but not its log, while the key is
      idle, and then hears every success call, agrees with that replica whenever the key is idle again: whatever its log
      lacks, whatever propose and accept calls it misses, and whatever messages from before arrive late, as long as the
      late success calls are harmless. The same holds for the leader that it names. */
  lemma CatchUpWithoutLog(w: World, earlier: Trace, e: Event, t: Trace, x: NodeId, f: NodeId, faithful: set<NodeId>,
                          key: string)
    requires KeptUp(w, earlier, e, t, x, f, faithful, key)
    ensures var w' := Run(w, t);
            && CellOf(w'.nodes[x], key).current == CellOf(w'.nodes[f], key).current
            && (key != LEADER_KEY ==> Lookup(w'.nodes[x].kv, key) == Lookup(Plain(w'.history), key))
  {
    var s := SettingOf(w, faithful, key);
    var fl, g0, id0 := OnCourseAfter(w, earlier, e, x, f, faithful, key);
    var g, id, cur := FollowRun(w, Then(earlier, e), t, key, s, fl, g0, id0);
    TracksAgrees(Run(w, t), key, s, fl, g, id, cur, f);
    if key != LEADER_KEY {
      ValueRefinement(w, t, faithful, f, key);
    }
  }

  // ----- The condition is exact -----

  /** A success call leaves what is held for its key alone exactly when it is harmless. */
  lemma LateSuccessExactly(c: Cell, q: Request)
    ensures ServeCell(c, Success(q)).0.current == c.current <==> Harmless(c, q)
  {
    OutdatedByOthers(c.rounds, q.round, Recorded(c.rounds, q.round, q.pServerId, q.op, q.value)[q.round]);
  }

  /** When one more message from before arrives at a replica that has kept up, it still agrees with the faithful replica
      if and only if the message is no success call for the key, or a harmless one. */
  lemma LateMessageExactly(w: World, earlier: Trace, e: Event, t: Trace, x: NodeId, f: NodeId, faithful: set<NodeId>,
                           key: string, p: Packet)
    requires KeptUp(w, earlier, e, t, x, f, faithful, key) && p in Run(w, t).sent && p.dest == x
    ensures var w' := Run(w, t);
            var w'' := Next(w', Deliver(p));
            CellOf(w''.nodes[x], key).current == CellOf(w''.nodes[f], key).current <==>
              (IsSuccess(p.call, key) ==> Harmless(CellOf(w'.nodes[x], key), p.call.request))
  {
    CatchUpWithoutLog(w, earlier, e, t, x, f, faithful, key);
    LateMessageAt(Run(w, t), x, f, key, p);
  }

  lemma LateMessageAt(w: World, x: NodeId, f: NodeId, key: string, p: Packet)
    requires Sound(w) && x in w.nodes && f in w.nodes && x != f && p in w.sent && p.dest == x
    requires CellOf(w.nodes[x], key).current == CellOf(w.nodes[f], key).current
    ensures var w' := Next(w, Deliver(p));
            CellOf(w'.nodes[x], key).current == CellOf(w'.nodes[f], key).current <==>
              (IsSuccess(p.call, key) ==> Harmless(CellOf(w.nodes[x], key), p.call.request))
  {
    ServeByKey(w.nodes[x], p.call, key);
    if IsSuccess(p.call, key) {
      LateSuccessExactly(CellOf(w.nodes[x], key), p.call.request);
    }
  }

  /** Hence a success call sent before a recovery, arriving after it, puts its old value back over the copied one,
      whatever its round: the log that would show it to be outdated was not copied. */
  lemma StaleSuccessUndoesRecovery(snapshot: map<string, string>, q: Request)
    requires q.key != LEADER_KEY
    ensures Serve(Recovered(BLANK_NODE, snapshot), Success(q)).0.kv == snapshot[q.key := q.value]
  {
    var s := Recovered(BLANK_NODE, snapshot);
    assert map[] + snapshot == snapshot;
    assert !Outdated(Recorded(map[], q.round, q.pServerId, q.op, q.value), q.round);
  }

  // ----- Everything at once -----

  ghost predicate HearsEverything(w: World, t: Trace, from: Trace, x: NodeId, stale: set<Packet>)
    requires Sound(w) && Valid(w, t) && x in w.nodes
  {
    forall key :: HearsAll(w, t, from, x, stale, key)
  }

  /** A replica starts up while nothing is running: it names the leader that `f` names and copies the store of `f`. */
  ghost predicate StartsOver(w: World, t: Trace, x: NodeId, f: NodeId, faithful: set<NodeId>) {
    && Trusted(w, t, faithful) && f in faithful && x in w.nodes && x !in faithful
    && Run(w, t).active == map[]
    && Run(w, t).nodes[x].kv.Keys <= Run(w, t).nodes[f].kv.Keys
  }

  function StartTrace(t: Trace, x: NodeId, f: NodeId, leader: NodeId): Trace {
    Then(Then(t, Adopt(x, leader)), Recover(x, f))
  }

  lemma StartTraceIsTrusted(w: World, t: Trace, x: NodeId, f: NodeId, faithful: set<NodeId>)
    requires StartsOver(w, t, x, f, faithful)
    ensures var l := Run(w, t).nodes[f].leader;
            var adopted := Then(t, Adopt(x, l));
            && Trusted(w, adopted, faithful) && Trusted(w, StartTrace(t, x, f, l), faithful)
            && Run(w, adopted) == Next(Run(w, t), Adopt(x, l))
            && Run(w, StartTrace(t, x, f, l)) == Next(Run(w, adopted), Recover(x, f))
  {
  }

  /** Recovering is nothing to hear about the leader key. */
  lemma {:induction false} HearsFromBefore(w: World, t: Trace, from: Trace, x: NodeId, f: NodeId, stale: set<Packet>)
    requires Sound(w) && Valid(w, t) && x in w.nodes
    requires HearsAll(w, t, Then(from, Recover(x, f)), x, stale, LEADER_KEY)
    ensures HearsAll(w, t, from, x, stale, LEADER_KEY)
  {
    if t != Then(from, Recover(x, f)) {
      HearsFromBefore(w, t.before, from, x, f, stale);
    }
    HearsMore(w, t, from, x, stale, LEADER_KEY);
  }

  lemma HearsMore(w: World, t: Trace, from: Trace, x: NodeId, stale: set<Packet>, key: string)
    requires Sound(w) && Valid(w, t) && x in w.nodes && t.Then? && HearsAll(w, t.before, from, x, stale, key)
    requires HeardIn(Run(w, t.before), t.event, x, stale, key)
    ensures HearsAll(w, t, from, x, stale, key)
  {
  }

  lemma KeptUpOnLeader(w: World, t: Trace, t': Trace, x: NodeId, f: NodeId, faithful: set<NodeId>)
    requires StartsOver(w, t, x, f, faithful) && Trusted(w, t', faithful) && Run(w, t').active == map[]
    requires HearsAll(w, t', StartTrace(t, x, f, Run(w, t).nodes[f].leader), x, Run(w, t).sent, LEADER_KEY)
    ensures CellOf(Run(w, t').nodes[x], LEADER_KEY).current == CellOf(Run(w, t').nodes[f], LEADER_KEY).current
  {
    var e := Adopt(x, Run(w, t).nodes[f].leader);
    HearsFromBefore(w, t', Then(t, e), x, f, Run(w, t).sent);
    CatchUpWithoutLog(w, t, e, t', x, f, faithful, LEADER_KEY);
  }

  lemma KeptUpOnValue(w: World, t: Trace, t': Trace, x: NodeId, f: NodeId, faithful: set<NodeId>, key: string)
    requires StartsOver(w, t, x, f, faithful) && Trusted(w, t', faithful) && Run(w, t').active == map[]
    requires HearsAll(w, t', StartTrace(t, x, f, Run(w, t).nodes[f].leader), x, Run(w, t).sent, key)
    requires key != LEADER_KEY
    ensures CellOf(Run(w, t').nodes[x], key).current == CellOf(Run(w, t').nodes[f], key).current
  {
    var adopted := Then(t, Adopt(x, Run(w, t).nodes[f].leader));
    StartTraceIsTrusted(w, t, x, f, faithful);
    RejoinsAfterAdopting(w, t, x, f, faithful, key);
    CatchUpWithoutLog(w, adopted, Recover(x, f), t', x, f, faithful, key);
  }

  lemma RejoinsAfterAdopting(w: World, t: Trace, x: NodeId, f: NodeId, faithful: set<NodeId>, key: string)
    requires StartsOver(w, t, x, f, faithful) && key != LEADER_KEY
    ensures var adopted := Then(t, Adopt(x, Run(w, t).nodes[f].leader));
            Rejoins(w, adopted, Recover(x, f), x, f, faithful, key) && Run(w, adopted).sent == Run(w, t).sent
  {
    StartTraceIsTrusted(w, t, x, f, faithful);
    AdoptingKeeps(Run(w, t), x, Run(w, t).nodes[f].leader);
  }

  lemma AdoptingKeeps(v: World, x: NodeId, l: NodeId)
    requires Sound(v) && x in v.nodes
    ensures var v' := Next(v, Adopt(x, l));
            && v'.sent == v.sent && v'.active == v.active && v'.nodes.Keys == v.nodes.Keys
            && forall n :: n in v.nodes ==> v'.nodes[n].kv == v.nodes[n].kv
  {
  }

  /** A replica that has started up beside a faithful one and then hears every success call stores exactly the plain map
      and names the same leader whenever no attempt is running, for the rest of the run. */
  lemma CatchUpForGood(w: World, t: Trace, t': Trace, x: NodeId, f: NodeId, faithful: set<NodeId>)
    requires StartsOver(w, t, x, f, faithful) && Trusted(w, t', faithful) && Run(w, t').active == map[]
    requires HearsEverything(w, t', StartTrace(t, x, f, Run(w, t).nodes[f].leader), x, Run(w, t).sent)
    ensures Run(w, t').nodes[x].kv == Plain(Run(w, t').history)
    ensures Run(w, t').nodes[x].leader == Run(w, t').nodes[f].leader
  {
    var v, from := Run(w, t'), StartTrace(t, x, f, Run(w, t).nodes[f].leader);
    forall key ensures CellOf(v.nodes[x], key).current == CellOf(v.nodes[f], key).current {
      assert HearsAll(w, t', from, x, Run(w, t).sent, key);
      if key == LEADER_KEY {
        KeptUpOnLeader(w, t, t', x, f, faithful);
      } else {
        KeptUpOnValue(w, t, t', x, f, faithful, key);
      }
    }
    assert CellOf(v.nodes[x], LEADER_KEY).current == CellOf(v.nodes[f], LEADER_KEY).current;
    SameStoredValues(v.nodes[x], v.nodes[f]);
    MapRefinement(w, t', faithful, f);
  }

  lemma SameStoredValues(s: NodeState, s': NodeState)
    requires LEADER_KEY !in s.kv && LEADER_KEY !in s'.kv
    requires forall key :: CellOf(s, key).current == CellOf(s', key).current
    ensures s.kv == s'.kv
  {
    forall key ensures Lookup(s.kv, key) == Lookup(s'.kv, key) {
      assert CellOf(s, key).current == CellOf(s', key).current;
    }
    SameLookups(s.kv, s'.kv);
  }
}
