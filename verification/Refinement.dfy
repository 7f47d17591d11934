/** What faithful runs guarantee: the replicated map is one plain map. */
module Refinement {
  import opened Protocol
  import opened Attempts
  import opened Cells
  import opened Worlds
  import opened Faithful
  import opened FaithfulSteps
  import AnyRuns

  /** The map a single machine would hold after exactly the requests whose attempt returned OK, in order. */
  function Plain(h: seq<Finished>): map<string, string> {
    if h == [] then map[]
    else
      var f := h[|h| - 1];
      if f.ok && f.request.key != LEADER_KEY then Plain(h[..|h| - 1])[f.request.key := f.request.value]
      else Plain(h[..|h| - 1])
  }

  lemma {:induction false} PlainByKey(h: seq<Finished>, key: string)
    requires forall f :: f in h ==> f.request.key == f.id.key
    requires key != LEADER_KEY
    ensures Lookup(Plain(h), key) == LastOk(HistoryOf(h, key))
  {
    if h != [] {
      var rest, f := h[..|h| - 1], h[|h| - 1];
      PlainByKey(rest, key);
      if f.id.key == key {
        assert HistoryOf(h, key)[..|HistoryOf(rest, key)|] == HistoryOf(rest, key);
      } else {
        assert HistoryOf(h, key) == HistoryOf(rest, key);
      }
    }
  }

  lemma {:induction false} PlainLeavesLeaderOut(h: seq<Finished>)
    ensures LEADER_KEY !in Plain(h)
  {
    if h != [] {
      PlainLeavesLeaderOut(h[..|h| - 1]);
    }
  }

  /** Proposers are faithful, attempts on one key do not overlap, and faithful replicas are up and reached. */
  predicate FaithfulEvent(w: World, e: Event, faithful: set<NodeId>)
    requires Enabled(w, e)
  {
    match e
    case Start(id, proposer, _) => proposer in faithful && forall other :: other in w.active ==> other.key != id.key
    case Step(id, outcome) => Honest(w.active[id], outcome, faithful)
    case Finish(_) => true
    case Deliver(_) => true
    case Restart(node) => node !in faithful
    case Recover(node, _) => node !in faithful
    case Adopt(node, _) => node !in faithful
  }

  ghost predicate FaithfulRun(w: World, t: Trace, faithful: set<NodeId>)
    requires Sound(w) && Valid(w, t)
  {
    t.Then? ==> FaithfulRun(w, t.before, faithful) && FaithfulEvent(Run(w, t.before), t.event, faithful)
  }

  /** A run from an initial world that keeps the set `faithful` faithful. */
  ghost predicate Trusted(w: World, t: Trace, faithful: set<NodeId>) {
    Initial(w) && faithful <= w.nodes.Keys && Valid(w, t) && FaithfulRun(w, t, faithful)
  }

  predicate Idle(w: World, key: string) {
    forall id :: id in w.active ==> id.key != key
  }

  function SettingOf(w: World, faithful: set<NodeId>, key: string): Setting
    requires faithful <= w.nodes.Keys
  {
    Setting(faithful, map f | f in faithful :: CellOf(w.nodes[f], key).current)
  }

  lemma FaithfulInView(w: World, e: Event, faithful: set<NodeId>, initial: map<NodeId, Option<string>>, key: string)
    requires Sound(w) && Enabled(w, e) && Relevant(e, key) && FaithfulEvent(w, e, faithful)
    requires EnabledIn(ViewOf(w, key), e, key)
    ensures KeepsFaith(ViewOf(w, key), e, Setting(faithful, initial), key)
  {
    if e.Start? {
      assert ViewOf(w, key).active == map[];
    }
  }

  lemma FaithStep(w: World, e: Event, key: string, s: Setting, g: Ledger, id: AttemptId, cur: Option<Attempt>)
    returns (g': Ledger, id': AttemptId, cur': Option<Attempt>)
    requires Sound(w) && Enabled(w, e) && FaithfulEvent(w, e, s.faithful) && Faith(ViewOf(w, key), s, g, id, cur)
    ensures Faith(ViewOf(Next(w, e), key), s, g', id', cur')
  {
    g', id', cur' := g, id, cur;
    NextByKey(w, e, key);
    if Relevant(e, key) {
      FaithfulInView(w, e, s.faithful, s.initial, key);
      g', id', cur' := NextFaith(ViewOf(w, key), key, s, g, id, cur, e);
    }
  }

  /** The invariant holds for every key in every world that a faithful run reaches. */
  lemma {:induction false} KeyInvariant(w: World, t: Trace, faithful: set<NodeId>, key: string)
    returns (g: Ledger, id: AttemptId, cur: Option<Attempt>)
    requires Trusted(w, t, faithful)
    ensures Faith(ViewOf(Run(w, t), key), SettingOf(w, faithful, key), g, id, cur)
  {
    match t
    case Begun =>
      g, id, cur := [], AttemptId(key, 0), None;
      InitialFaith(w, SettingOf(w, faithful, key), key, id);
    case Then(before, e) =>
      g, id, cur := KeyInvariant(w, before, faithful, key);
      g, id, cur := FaithStep(Run(w, before), e, key, SettingOf(w, faithful, key), g, id, cur);
  }

  lemma InitialFaith(w: World, s: Setting, key: string, id: AttemptId)
    requires Initial(w) && s.faithful <= w.nodes.Keys && s == SettingOf(w, s.faithful, key)
    ensures Faith(ViewOf(w, key), s, [], id, None)
  {
    var v := ViewOf(w, key);
    assert v.active == map[] && v.sent == {} && v.history == [];
  }

  lemma IdleInView(w: World, key: string, s: Setting, g: Ledger, id: AttemptId, cur: Option<Attempt>)
    requires Idle(w, key) && Faith(ViewOf(w, key), s, g, id, cur)
    ensures cur.None?
  {
    assert ViewOf(w, key).active == map[];
    assert cur.Some? ==> id in ViewOf(w, key).active;
  }

  lemma RunningInView(w: World, id: AttemptId, s: Setting, g: Ledger, i: AttemptId, cur: Option<Attempt>)
    requires Sound(w) && id in w.active && Faith(ViewOf(w, id.key), s, g, i, cur)
    ensures cur == Some(w.active[id])
  {
    assert id in ViewOf(w, id.key).active;
  }

  // ----- What a faithful run may do -----

  /** What a faithful target owes an attempt. */
  predicate Owed(a: Attempt, outcome: Outcome) {
    match a.stage
    case Pinging => outcome == Delivered
    case Accepting => true
    case _ => outcome != Lost
  }

  ghost predicate Permitted(w: World, e: Event, faithful: set<NodeId>)
    requires Sound(w) && Enabled(w, e)
  {
    match e
    case Start(id, proposer, _) => proposer in faithful && Idle(w, id.key)
    case Step(id, outcome) =>
      StepReady(w, id);
      w.active[id].todo[0] in faithful ==> Owed(w.active[id], outcome)
    case Finish(_) => true
    case Deliver(_) => true
    case Restart(n) => n !in faithful
    case Recover(n, _) => n !in faithful
    case Adopt(n, _) => n !in faithful
  }

  lemma PermittedExactly(w: World, e: Event, faithful: set<NodeId>)
    requires Sound(w) && Enabled(w, e)
    ensures FaithfulEvent(w, e, faithful) <==> Permitted(w, e, faithful)
  {
    if e.Step? {
      StepReady(w, e.id);
    }
  }

  /** A run stays faithful exactly when no faithful replica starts over, fails to answer a ping or misses a propose or
      success call, and when only faithful replicas propose, one at a time for each key. Messages from any time before
      may arrive, and the other replicas may do anything. */
  lemma StaysFaithfulExactly(w: World, t: Trace, faithful: set<NodeId>, e: Event)
    requires Trusted(w, t, faithful) && Enabled(Run(w, t), e)
    ensures Trusted(w, Then(t, e), faithful) <==> Permitted(Run(w, t), e, faithful)
  {
    PermittedExactly(Run(w, t), e, faithful);
  }

  // ----- The replicated map -----

  /** Between attempts on a key, every faithful replica stores what the plain map stores. */
  lemma ValueRefinement(w: World, t: Trace, faithful: set<NodeId>, f: NodeId, key: string)
    requires Trusted(w, t, faithful) && f in faithful && key != LEADER_KEY
    requires Idle(Run(w, t), key)
    ensures Lookup(Run(w, t).nodes[f].kv, key) == Lookup(Plain(Run(w, t).history), key)
  {
    var w' := Run(w, t);
    var g, id, cur := KeyInvariant(w, t, faithful, key);
    IdleInView(w', key, SettingOf(w, faithful, key), g, id, cur);
    PlainByKey(w'.history, key);
    assert ViewOf(w', key).cells[f] == CellOf(w'.nodes[f], key);
  }

  /** The attempt is past its accept quorum, and has not returned to its caller yet. */
  predicate Committing(w: World, id: AttemptId) {
    id in w.active && (w.active[id].stage == Informing || w.active[id].ok)
  }

  /** The value it is spreading has arrived at the replica. */
  predicate Told(w: World, id: AttemptId, n: NodeId) {
    Committing(w, id) && n !in w.active[id].todo
  }

  /** While an attempt on a key is running, a faithful replica stores the plain value until the attempt is past its
      accept quorum, the plain value or the one of the attempt until its success call has gone out to the replica, and
      the one of the attempt from then on, though the caller has no answer yet. */
  lemma BusyValue(w: World, t: Trace, faithful: set<NodeId>, f: NodeId, id: AttemptId)
    requires Trusted(w, t, faithful) && f in faithful && id in Run(w, t).active && id.key != LEADER_KEY
    ensures var v := Run(w, t);
            var stored, before, after := Lookup(v.nodes[f].kv, id.key), Lookup(Plain(v.history), id.key),
                                      Some(v.active[id].request.value);
            && (!Committing(v, id) ==> stored == before)
            && (Committing(v, id) ==> stored == before || stored == after)
            && (Told(v, id, f) ==> stored == after)
  {
    var w' := Run(w, t);
    var g, i, cur := KeyInvariant(w, t, faithful, id.key);
    RunningInView(w', id, SettingOf(w, faithful, id.key), g, i, cur);
    PlainByKey(w'.history, id.key);
    assert JobSound(id, w'.active[id], w'.members);
    assert ViewOf(w', id.key).cells[f] == CellOf(w'.nodes[f], id.key);
  }

  /** Between attempts, the store of every faithful replica is the plain map: attempts that returned OK took effect
      everywhere in the order in which they returned, and aborted attempts left no trace. */
  lemma MapRefinement(w: World, t: Trace, faithful: set<NodeId>, f: NodeId)
    requires Trusted(w, t, faithful) && f in faithful
    requires Run(w, t).active == map[]
    ensures Run(w, t).nodes[f].kv == Plain(Run(w, t).history)
  {
    var w' := Run(w, t);
    PlainLeavesLeaderOut(w'.history);
    forall key
      ensures Lookup(w'.nodes[f].kv, key) == Lookup(Plain(w'.history), key)
    {
      if key != LEADER_KEY {
        ValueRefinement(w, t, faithful, f, key);
      }
    }
    SameLookups(w'.nodes[f].kv, Plain(w'.history));
  }

  /** Once an attempt on the leader key has returned OK, all faithful replicas name the leader that the latest such
      attempt elected, whenever no attempt on that key is running. */
  lemma ElectionAgreement(w: World, t: Trace, faithful: set<NodeId>, f: NodeId)
    requires Trusted(w, t, faithful) && f in faithful
    requires Idle(Run(w, t), LEADER_KEY)
    requires LastOk(HistoryOf(Run(w, t).history, LEADER_KEY)).Some?
    ensures Some(Run(w, t).nodes[f].leader) == LastOk(HistoryOf(Run(w, t).history, LEADER_KEY))
  {
    var w' := Run(w, t);
    var g, id, cur := KeyInvariant(w, t, faithful, LEADER_KEY);
    IdleInView(w', LEADER_KEY, SettingOf(w, faithful, LEADER_KEY), g, id, cur);
    assert ViewOf(w', LEADER_KEY).cells[f] == CellOf(w'.nodes[f], LEADER_KEY);
  }

  // ----- Rounds -----

  /** The number that a new attempt of a faithful proposer takes as its round has never been used for the key, by any
      replica or in any message, while all smaller numbers are in the log of every faithful replica. */
  lemma RoundFreshness(w: World, t: Trace, faithful: set<NodeId>, proposer: NodeId, key: string)
    requires Trusted(w, t, faithful) && proposer in faithful && Idle(Run(w, t), key)
    ensures var w' := Run(w, t);
            var m := NextRound(w'.nodes[proposer], key);
            && (forall f :: f in faithful ==> forall r: nat :: r in RoundsOf(w'.nodes[f].log, key) <==> r < m)
            && (forall n, r :: n in w'.nodes && r in RoundsOf(w'.nodes[n].log, key) ==> r < m)
            && (forall p :: p in w'.sent && p.call.request.key == key ==> p.call.request.round < m)
  {
    var w' := Run(w, t);
    var g, id, cur := KeyInvariant(w, t, faithful, key);
    IdleInView(w', key, SettingOf(w, faithful, key), g, id, cur);
    var v := ViewOf(w', key);
    forall n | n in w'.nodes
      ensures forall r :: r in RoundsOf(w'.nodes[n].log, key) ==> r < |g|
    {
      assert CellFits(v.cells[n], g);
    }
    CompleteSize(v.cells[proposer], |g|);
    forall f | f in faithful
      ensures forall r: nat :: r in RoundsOf(w'.nodes[f].log, key) <==> r < |g|
    {
      assert Complete(v.cells[f], |g|);
    }
    forall p | p in w'.sent && p.call.request.key == key ensures p.call.request.round < |g| {
      assert p in v.sent;
    }
  }

  /** All replicas that accepted a value for a key and round accepted the same one, at any moment of the run. */
  lemma OneValuePerRound(w: World, t: Trace, faithful: set<NodeId>, key: string, round: nat, n: NodeId, m: NodeId)
    requires Trusted(w, t, faithful) && n in w.nodes && m in w.nodes
    requires EntryAt(RoundsOf(Run(w, t).nodes[n].log, key), round).aServerId > 0
    requires EntryAt(RoundsOf(Run(w, t).nodes[m].log, key), round).aServerId > 0
    ensures EntryAt(RoundsOf(Run(w, t).nodes[n].log, key), round)
            == EntryAt(RoundsOf(Run(w, t).nodes[m].log, key), round)
  {
    var w' := Run(w, t);
    var g, id, cur := KeyInvariant(w, t, faithful, key);
    var v := ViewOf(w', key);
    assert CellFits(v.cells[n], g) && CellFits(v.cells[m], g);
    assert EntryFits(v.cells[n].rounds[round], g[round]) && EntryFits(v.cells[m].rounds[round], g[round]);
  }

  /** On any replica, a value written by a success call equals the accepted value of the round it was applied for,
      whatever was proposed or accepted in higher rounds since. */
  lemma StoreMatchesLog(w: World, t: Trace, faithful: set<NodeId>, key: string, n: NodeId)
    requires Trusted(w, t, faithful) && n in w.nodes
    requires key in Run(w, t).nodes[n].applied
    ensures var s := Run(w, t).nodes[n];
            var e := EntryAt(RoundsOf(s.log, key), s.applied[key]);
            e.aServerId > 0 && CellOf(s, key).current == Some(e.acceptedValue)
  {
    var g, id, cur := KeyInvariant(w, t, faithful, key);
    var v := ViewOf(Run(w, t), key);
    assert CellFits(v.cells[n], g);
  }

  /** On a replica that never copied a store, every stored value is the accepted value that the log has for the round
      last applied to its key. */
  lemma StoreFollowsLog(w: World, t: Trace, faithful: set<NodeId>, key: string, n: NodeId)
    requires Trusted(w, t, faithful) && n in w.nodes && AnyRuns.NeverRecovers(t, n) && key != LEADER_KEY
    requires key in Run(w, t).nodes[n].kv
    ensures var s := Run(w, t).nodes[n];
            && key in s.applied
            && var e := EntryAt(RoundsOf(s.log, key), s.applied[key]);
               e.aServerId > 0 && s.kv[key] == e.acceptedValue
  {
    AnyRuns.StoredMeansApplied(w, t, n, key);
    StoreMatchesLog(w, t, faithful, key, n);
  }

  // ----- The client's own value -----

  lemma FreshEntry(v: View, g: Ledger, n: NodeId, round: nat)
    requires AllFit(v, g) && Untouched(v, round) && n in v.cells
    ensures EntryAt(v.cells[n].rounds, round).aServerId == 0 == EntryAt(v.cells[n].rounds, round).pServerId
  {
  }

  /** No propose answer carries a value, so a faithful proposer never adopts one. */
  lemma NoReplyCarriesAValue(w: World, t: Trace, faithful: set<NodeId>, id: AttemptId)
    requires Trusted(w, t, faithful)
    requires id in Run(w, t).active && Run(w, t).active[id].stage == Proposing
    ensures var a := Run(w, t).active[id];
            && a.todo != [] && a.todo[0] in Run(w, t).nodes
            && Serve(Run(w, t).nodes[a.todo[0]], NextCall(a)).1 == Ok(Response("", PROPOSE_ID, 0, a.round, GET))
            && AcceptRequest(a).value == a.request.value && AcceptRequest(a).op == a.request.op
  {
    var w' := Run(w, t);
    var g, i, cur := KeyInvariant(w, t, faithful, id.key);
    RunningInView(w', id, SettingOf(w, faithful, id.key), g, i, cur);
    StepReady(w', id);
    var a := w'.active[id];
    FreshEntry(ViewOf(w', id.key), g, a.todo[0], a.round);
    ServeByKey(w'.nodes[a.todo[0]], NextCall(a), id.key);
    assert JobSound(id, a, w'.members);
  }

  /** The answer an OK attempt gives its caller: the request's own value and operation. */
  predicate AnswersOwnRequest(f: Finished) {
    f.ok ==> f.response.value == f.request.value && f.response.op == f.request.op
  }

  lemma FinishAnswers(w: World, t: Trace, faithful: set<NodeId>, id: AttemptId)
    requires Trusted(w, t, faithful) && id in Run(w, t).active && Run(w, t).active[id].ok
    ensures var a := Run(w, t).active[id];
            a.acceptance.value == a.request.value && a.acceptance.op == a.request.op
  {
    var w' := Run(w, t);
    var g, i, cur := KeyInvariant(w, t, faithful, id.key);
    RunningInView(w', id, SettingOf(w, faithful, id.key), g, i, cur);
    assert JobSound(id, w'.active[id], w'.members);
  }

  lemma HistoryStep(w: World, e: Event)
    requires Sound(w) && Enabled(w, e)
    ensures forall f :: f in Next(w, e).history ==>
              f in w.history ||
              (e.Finish? && f.ok == w.active[e.id].ok && f.request == w.active[e.id].request
               && f.response == w.active[e.id].acceptance)
  {
  }

  /** Every attempt that returned OK committed, and answered with, the value of its own request. */
  lemma {:induction false} OwnValueCommitted(w: World, t: Trace, faithful: set<NodeId>)
    requires Trusted(w, t, faithful)
    ensures forall f :: f in Run(w, t).history ==> AnswersOwnRequest(f)
  {
    if t.Then? {
      OwnValueCommitted(w, t.before, faithful);
      HistoryStep(Run(w, t.before), t.event);
      if t.event.Finish? && Run(w, t.before).active[t.event.id].ok {
        FinishAnswers(w, t.before, faithful, t.event.id);
      }
    }
  }

  /** In any run at all, the success call repeats the accept call of its attempt word for word. */
  lemma SuccessRepeatsAccept(w: World, id: AttemptId)
    requires Sound(w) && id in w.active && w.active[id].stage == Informing
    ensures SuccessRequest(w.active[id]) == AcceptRequest(w.active[id])
  {
    assert JobSound(id, w.active[id], w.members);
  }
}
