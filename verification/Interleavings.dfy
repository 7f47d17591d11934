/** Attempts on different keys do not see each other, so any interleaving in which attempts on one key do not overlap
    ends in the same state, and gives the same results in the same order, as running the attempts one after another. */
module Interleavings {
  import opened Protocol
  import opened Attempts
  import opened Cells
  import opened Worlds

  predicate OfAttempt(e: Event) {
    e.Start? || e.Step? || e.Finish?
  }

  predicate AttemptsOnly(t: Trace) {
    t.Then? ==> OfAttempt(t.event) && AttemptsOnly(t.before)
  }

  function ByKey(t: Trace, key: string): (u: Trace)
    requires AttemptsOnly(t)
    ensures AttemptsOnly(u)
  {
    if t.Begun? then Begun
    else if t.event.id.key == key then Then(ByKey(t.before, key), t.event)
    else ByKey(t.before, key)
  }

  /** The events of one attempt, and all others. */
  function Only(t: Trace, id: AttemptId): (u: Trace)
    requires AttemptsOnly(t)
    ensures AttemptsOnly(u)
  {
    if t.Begun? then Begun
    else if t.event.id == id then Then(Only(t.before, id), t.event)
    else Only(t.before, id)
  }

  function Without(t: Trace, id: AttemptId): (u: Trace)
    requires AttemptsOnly(t)
    ensures AttemptsOnly(u) && Size(u) <= Size(t)
  {
    if t.Begun? then Begun
    else if t.event.id == id then Without(t.before, id)
    else Then(Without(t.before, id), t.event)
  }

  function Size(t: Trace): nat {
    if t.Begun? then 0 else 1 + Size(t.before)
  }

  function Append(t: Trace, u: Trace): (r: Trace)
    requires AttemptsOnly(t) && AttemptsOnly(u)
    ensures AttemptsOnly(r)
  {
    if u.Begun? then t else Then(Append(t, u.before), u.event)
  }

  predicate Mentions(t: Trace, id: AttemptId)
    requires AttemptsOnly(t)
  {
    t.Then? && (t.event.id == id || Mentions(t.before, id))
  }

  /** The attempts one after another, in the order of their last events. */
  function Serialize(t: Trace): (u: Trace)
    requires AttemptsOnly(t)
    ensures AttemptsOnly(u)
    decreases Size(t)
  {
    if t.Begun? then Begun
    else Append(Serialize(Without(t, t.event.id)), Only(t, t.event.id))
  }

  /** Each attempt runs from its first to its last event without any other event in between. */
  predicate OneAfterAnother(t: Trace)
    requires AttemptsOnly(t)
    decreases Size(t)
  {
    t.Then? ==>
      var id := t.event.id;
      t == Append(Without(t, id), Only(t, id)) && OneAfterAnother(Without(t, id))
  }

  // ----- Runs of attempts, for the cluster and for one key -----

  /** Enabled events, unused ids, and no two attempts on one key at a time. */
  ghost predicate Orderly(w: World, t: Trace)
    requires Sound(w) && AttemptsOnly(t)
  {
    && Valid(w, t)
    && (t.Then? ==>
          && Orderly(w, t.before)
          && (t.event.Start? ==>
                !Mentions(t.before, t.event.id) && ActiveOf(Run(w, t.before).active, t.event.id.key) == map[]))
  }

  ghost predicate OrderlyIn(v: View, t: Trace, key: string)
    requires ViewSound(v, key) && AttemptsOnly(t)
    decreases t, 0
  {
    t.Then? ==>
      && OrderlyIn(v, t.before, key)
      && EnabledIn(RunIn(v, t.before, key), t.event, key)
      && (t.event.Start? ==> !Mentions(t.before, t.event.id) && RunIn(v, t.before, key).active == map[])
  }

  ghost function RunIn(v: View, t: Trace, key: string): (v': View)
    requires ViewSound(v, key) && AttemptsOnly(t) && OrderlyIn(v, t, key)
    ensures ViewSound(v', key)
    decreases t, 1
  {
    if t.Begun? then v
    else
      NextInSound(RunIn(v, t.before, key), t.event, key);
      NextIn(RunIn(v, t.before, key), t.event, key)
  }

  lemma NextInSound(v: View, e: Event, key: string)
    requires ViewSound(v, key) && EnabledIn(v, e, key)
    ensures ViewSound(NextIn(v, e, key), key)
  {
    match e
    case Start(id, proposer, request) =>
      BeginWellformed(proposer, request, v.members, |v.cells[proposer].rounds|);
    case Step(id, outcome) => StepInSound(v, id, outcome, key);
    case Finish(id) => ProposerIsCell(v, id, key);
    case _ =>
  }

  lemma StepInSound(v: View, id: AttemptId, outcome: Outcome, key: string)
    requires ViewSound(v, key) && EnabledIn(v, Step(id, outcome), key)
    ensures ViewSound(NextIn(v, Step(id, outcome), key), key)
  {
    StepReadyIn(v, id, key);
    var a := v.active[id];
    assert JobSound(id, a, v.members);
    var reply := TransmitCell(v.cells[a.todo[0]], NextCall(a), outcome).1;
    ReceiveWellformed(a, reply);
    ReceiveProgress(a, reply);
    NextCallKey(a);
  }

  lemma MentionsByKey(t: Trace, id: AttemptId)
    requires AttemptsOnly(t)
    ensures Mentions(ByKey(t, id.key), id) == Mentions(t, id)
  {
  }

  lemma OrderlyStepByKey(w: World, t: Trace, key: string)
    requires Sound(w) && AttemptsOnly(t) && t.Then? && Orderly(w, t)
    requires OrderlyIn(ViewOf(w, key), ByKey(t.before, key), key)
    requires ViewOf(Run(w, t.before), key) == RunIn(ViewOf(w, key), ByKey(t.before, key), key)
    ensures OrderlyIn(ViewOf(w, key), ByKey(t, key), key)
    ensures ViewOf(Run(w, t), key) == RunIn(ViewOf(w, key), ByKey(t, key), key)
  {
    NextByKey(Run(w, t.before), t.event, key);
    MentionsByKey(t.before, t.event.id);
  }

  /** The events on one key determine what happens to that key. */
  lemma {:induction false} RunByKey(w: World, t: Trace, key: string)
    requires Sound(w) && AttemptsOnly(t) && Orderly(w, t)
    ensures ViewSound(ViewOf(w, key), key) && OrderlyIn(ViewOf(w, key), ByKey(t, key), key)
    ensures ViewOf(Run(w, t), key) == RunIn(ViewOf(w, key), ByKey(t, key), key)
  {
    ViewIsSound(w, key);
    if t.Then? {
      RunByKey(w, t.before, key);
      OrderlyStepByKey(w, t, key);
    }
  }

  lemma EnabledByKey(w: World, e: Event)
    requires Sound(w) && OfAttempt(e) && ViewSound(ViewOf(w, e.id.key), e.id.key)
    requires EnabledIn(ViewOf(w, e.id.key), e, e.id.key)
    ensures Enabled(w, e)
  {
  }

  /** Conversely, if the events on each key can happen on their own, the whole trace can. */
  lemma {:induction false} OrderlyFromKeys(w: World, t: Trace)
    requires Sound(w) && AttemptsOnly(t)
    requires forall key :: ViewSound(ViewOf(w, key), key) && OrderlyIn(ViewOf(w, key), ByKey(t, key), key)
    ensures Orderly(w, t)
  {
    if t.Then? {
      forall key ensures ViewSound(ViewOf(w, key), key) && OrderlyIn(ViewOf(w, key), ByKey(t.before, key), key) {
        assert OrderlyIn(ViewOf(w, key), ByKey(t, key), key);
      }
      OrderlyFromKeys(w, t.before);
      var k := t.event.id.key;
      assert OrderlyIn(ViewOf(w, k), ByKey(t, k), k);
      RunByKey(w, t.before, k);
      EnabledByKey(Run(w, t.before), t.event);
      MentionsByKey(t.before, t.event.id);
    }
  }

  // ----- Rearranging traces -----

  lemma ByKeyAppend(t: Trace, u: Trace, key: string)
    requires AttemptsOnly(t) && AttemptsOnly(u)
    ensures ByKey(Append(t, u), key) == Append(ByKey(t, key), ByKey(u, key))
  {
  }

  lemma ByKeySplit(t: Trace, id: AttemptId, key: string)
    requires AttemptsOnly(t)
    ensures ByKey(Without(t, id), key) == Without(ByKey(t, key), id)
    ensures ByKey(Only(t, id), key) == (if id.key == key then Only(ByKey(t, key), id) else Begun)
    ensures id.key != key ==> Without(ByKey(t, key), id) == ByKey(t, key)
  {
  }

  lemma Unmentioned(t: Trace, id: AttemptId)
    requires AttemptsOnly(t) && !Mentions(t, id)
    ensures Without(t, id) == t && Only(t, id) == Begun
  {
  }

  predicate Together(t: Trace, id: AttemptId)
    requires AttemptsOnly(t)
  {
    t == Append(Without(t, id), Only(t, id))
  }

  /** While an attempt is running it is the only one on its key, and nothing else has happened since it started. */
  lemma {:induction false} RunningIsTogether(v: View, t: Trace, key: string, id: AttemptId)
    requires ViewSound(v, key) && AttemptsOnly(t) && OrderlyIn(v, t, key) && v.active == map[]
    requires id in RunIn(v, t, key).active
    ensures RunIn(v, t, key).active.Keys == {id} && Together(t, id)
  {
    var e, b := t.event, t.before;
    if e.Start? {
      Unmentioned(b, e.id);
    } else if e.Step? {
      RunningIsTogether(v, b, key, e.id);
    } else {
      RunningIsTogether(v, b, key, e.id);
    }
  }

  lemma LastIsTogether(v: View, t: Trace, key: string)
    requires ViewSound(v, key) && AttemptsOnly(t) && OrderlyIn(v, t, key) && v.active == map[] && t.Then?
    ensures Together(t, t.event.id)
  {
    if t.event.Start? {
      Unmentioned(t.before, t.event.id);
    } else {
      RunningIsTogether(v, t.before, key, t.event.id);
    }
  }

  lemma {:induction false} PrefixOrderly(v: View, t: Trace, u: Trace, key: string)
    requires ViewSound(v, key) && AttemptsOnly(t) && AttemptsOnly(u) && OrderlyIn(v, Append(t, u), key)
    ensures OrderlyIn(v, t, key)
  {
    if u.Then? {
      PrefixOrderly(v, t, u.before, key);
    }
  }

  lemma {:induction false} KeyIsOneAfterAnother(v: View, t: Trace, key: string)
    requires ViewSound(v, key) && AttemptsOnly(t) && OrderlyIn(v, t, key) && v.active == map[]
    ensures OneAfterAnother(t)
    decreases Size(t)
  {
    if t.Then? {
      var id := t.event.id;
      LastIsTogether(v, t, key);
      PrefixOrderly(v, Without(t, id), Only(t, id), key);
      KeyIsOneAfterAnother(v, Without(t, id), key);
    }
  }

  ghost predicate EachKeyInTurn(t: Trace)
    requires AttemptsOnly(t)
  {
    forall key :: OneAfterAnother(ByKey(t, key))
  }

  lemma TurnsWithoutLast(t: Trace)
    requires AttemptsOnly(t) && t.Then? && EachKeyInTurn(t)
    ensures EachKeyInTurn(Without(t, t.event.id))
  {
    var id := t.event.id;
    forall key ensures OneAfterAnother(ByKey(Without(t, id), key)) {
      ByKeySplit(t, id, key);
      assert OneAfterAnother(ByKey(t, key));
    }
  }

  /** Serializing keeps the order of events on each key. */
  lemma {:induction false} SerializeByKey(t: Trace, key: string)
    requires AttemptsOnly(t) && EachKeyInTurn(t)
    ensures ByKey(Serialize(t), key) == ByKey(t, key)
    decreases Size(t)
  {
    if t.Then? {
      var id := t.event.id;
      TurnsWithoutLast(t);
      SerializeByKey(Without(t, id), key);
      ByKeyAppend(Serialize(Without(t, id)), Only(t, id), key);
      ByKeySplit(t, id, key);
      assert OneAfterAnother(ByKey(t, key));
    }
  }

  lemma MentionsAppend(t: Trace, u: Trace, id: AttemptId)
    requires AttemptsOnly(t) && AttemptsOnly(u)
    ensures Mentions(Append(t, u), id) == (Mentions(t, id) || Mentions(u, id))
  {
  }

  lemma MentionsSplit(t: Trace, id: AttemptId, other: AttemptId)
    requires AttemptsOnly(t)
    ensures Mentions(Without(t, id), other) == (other != id && Mentions(t, other))
    ensures Mentions(Only(t, id), other) == (other == id && Mentions(t, other))
  {
  }

  lemma {:induction false} SerializeMentions(t: Trace, id: AttemptId)
    requires AttemptsOnly(t)
    ensures Mentions(Serialize(t), id) == Mentions(t, id)
    decreases Size(t)
  {
    if t.Then? {
      var last := t.event.id;
      SerializeMentions(Without(t, last), id);
      MentionsAppend(Serialize(Without(t, last)), Only(t, last), id);
      MentionsSplit(t, last, id);
    }
  }

  lemma SplitAppend(t: Trace, u: Trace, id: AttemptId)
    requires AttemptsOnly(t) && AttemptsOnly(u)
    ensures Without(Append(t, u), id) == Append(Without(t, id), Without(u, id))
    ensures Only(Append(t, u), id) == Append(Only(t, id), Only(u, id))
  {
  }

  lemma SplitOnly(t: Trace, id: AttemptId)
    requires AttemptsOnly(t)
    ensures Without(Only(t, id), id) == Begun && Only(Only(t, id), id) == Only(t, id)
    ensures Append(Begun, Only(t, id)) == Only(t, id)
  {
  }

  /** The serialized trace does run one attempt after another. */
  lemma {:induction false} SerializeIsSerial(t: Trace)
    requires AttemptsOnly(t)
    ensures OneAfterAnother(Serialize(t))
    decreases Size(t)
  {
    if t.Then? {
      var id := t.event.id;
      var front := Serialize(Without(t, id));
      SerializeIsSerial(Without(t, id));
      SerializeMentions(Without(t, id), id);
      MentionsSplit(t, id, id);
      Unmentioned(front, id);
      SplitAppend(front, Only(t, id), id);
      SplitOnly(t, id);
    }
  }

  // ----- The order of results -----

  function Finishes(t: Trace): seq<AttemptId>
    requires AttemptsOnly(t)
  {
    if t.Begun? then [] else Finishes(t.before) + (if t.event.Finish? then [t.event.id] else [])
  }

  lemma FinishesAppend(t: Trace, u: Trace)
    requires AttemptsOnly(t) && AttemptsOnly(u)
    ensures Finishes(Append(t, u)) == Finishes(t) + Finishes(u)
  {
    if u.Then? {
      FinishesAppend(t, u.before);
    }
  }

  lemma FinishesSplit(t: Trace, id: AttemptId)
    requires AttemptsOnly(t) && id !in Finishes(t)
    ensures Finishes(Without(t, id)) == Finishes(t) && Finishes(Only(t, id)) == []
  {
  }

  lemma {:induction false} RunningIsUnfinished(w: World, t: Trace, id: AttemptId)
    requires Sound(w) && AttemptsOnly(t) && Orderly(w, t) && w.active == map[]
    requires id in Run(w, t).active || !Mentions(t, id)
    ensures id !in Finishes(t)
  {
    if t.Then? {
      if id in Run(w, t.before).active || !Mentions(t.before, id) {
        RunningIsUnfinished(w, t.before, id);
      }
    }
  }

  lemma LastFinishes(w: World, t: Trace)
    requires Sound(w) && AttemptsOnly(t) && Orderly(w, t) && w.active == map[] && t.Then?
    ensures Finishes(Without(t, t.event.id)) + Finishes(Only(t, t.event.id)) == Finishes(t)
  {
    var id := t.event.id;
    RunningIsUnfinished(w, t.before, id);
    FinishesSplit(t.before, id);
  }

  lemma OrderlyInTurn(w: World, t: Trace)
    requires Sound(w) && AttemptsOnly(t) && Orderly(w, t) && w.active == map[]
    ensures EachKeyInTurn(t)
  {
    forall key ensures OneAfterAnother(ByKey(t, key)) {
      RunByKey(w, t, key);
      assert ViewOf(w, key).active == map[];
      KeyIsOneAfterAnother(ViewOf(w, key), ByKey(t, key), key);
    }
  }

  lemma WithoutLastIsOrderly(w: World, t: Trace)
    requires Sound(w) && AttemptsOnly(t) && Orderly(w, t) && w.active == map[] && t.Then?
    ensures Orderly(w, Without(t, t.event.id))
  {
    var id := t.event.id;
    OrderlyInTurn(w, t);
    forall key
      ensures ViewSound(ViewOf(w, key), key) && OrderlyIn(ViewOf(w, key), ByKey(Without(t, id), key), key)
    {
      RunByKey(w, t, key);
      ByKeySplit(t, id, key);
      if key == id.key {
        assert OneAfterAnother(ByKey(t, key));
        PrefixOrderly(ViewOf(w, key), Without(ByKey(t, key), id), Only(ByKey(t, key), id), key);
      }
    }
    OrderlyFromKeys(w, Without(t, id));
  }

  lemma {:induction false} SerializeFinishes(w: World, t: Trace)
    requires Sound(w) && AttemptsOnly(t) && Orderly(w, t) && w.active == map[]
    ensures Finishes(Serialize(t)) == Finishes(t)
    decreases Size(t)
  {
    if t.Then? {
      var id := t.event.id;
      WithoutLastIsOrderly(w, t);
      SerializeFinishes(w, Without(t, id));
      FinishesAppend(Serialize(Without(t, id)), Only(t, id));
      LastFinishes(w, t);
    }
  }

  function Ids(h: seq<Finished>): seq<AttemptId> {
    if h == [] then [] else Ids(h[..|h| - 1]) + [h[|h| - 1].id]
  }

  lemma NextIds(w: World, e: Event)
    requires Sound(w) && Enabled(w, e)
    ensures Ids(Next(w, e).history) == Ids(w.history) + (if e.Finish? then [e.id] else [])
  {
    if e.Finish? {
      assert Next(w, e).history[..|w.history|] == w.history;
    }
  }

  lemma Associate<T>(a: seq<T>, b: seq<T>, c: seq<T>)
    ensures (a + b) + c == a + (b + c)
  {
  }

  lemma {:induction false} HistoryIds(w: World, t: Trace)
    requires Sound(w) && Valid(w, t) && AttemptsOnly(t)
    ensures Ids(Run(w, t).history) == Ids(w.history) + Finishes(t)
  {
    match t
    case Begun =>
    case Then(before, e) =>
      HistoryIds(w, before);
      NextIds(Run(w, before), e);
      Associate(Ids(w.history), Finishes(before), if e.Finish? then [e.id] else []);
  }

  lemma IdsSize(h: seq<Finished>)
    ensures |Ids(h)| == |h|
  {
  }

  lemma DropLast<T>(a: seq<T>, b: seq<T>, x: seq<T>, y: seq<T>)
    requires a + x == b + y && |x| == |y|
    ensures a == b && x == y
  {
    assert |a| == |b|;
    assert a == (a + x)[..|a|] && b == (b + y)[..|b|];
    assert x == (a + x)[|a|..] && y == (b + y)[|b|..];
  }

  /** The order of the attempts and the results on each key determine the whole history. */
  lemma {:induction false} SameHistory(h: seq<Finished>, h': seq<Finished>)
    requires Ids(h) == Ids(h') && forall key :: HistoryOf(h, key) == HistoryOf(h', key)
    ensures h == h'
    decreases |h|
  {
    IdsSize(h);
    IdsSize(h');
    if h != [] {
      var r, r' := h[..|h| - 1], h'[..|h'| - 1];
      var f, f' := h[|h| - 1], h'[|h'| - 1];
      assert Ids(h)[|h| - 1] == f.id && Ids(h')[|h'| - 1] == f'.id by {
        IdsSize(r);
        IdsSize(r');
      }
      assert Ids(r) == Ids(h)[..|r|] && Ids(r') == Ids(h')[..|r'|] by {
        IdsSize(r);
        IdsSize(r');
      }
      assert h == r + [f] && h' == r' + [f'] && f.id == f'.id;
      forall key ensures HistoryOf(r, key) == HistoryOf(r', key) {
        HistoryOfSnoc(r, f, key);
        HistoryOfSnoc(r', f', key);
        DropLast(HistoryOf(r, key), HistoryOf(r', key), if f.id.key == key then [f] else [],
                 if f.id.key == key then [f'] else []);
      }
      SameHistory(r, r');
      HistoryOfSnoc(r, f, f.id.key);
      HistoryOfSnoc(r', f', f.id.key);
      assert HistoryOf(h, f.id.key)[|HistoryOf(r, f.id.key)|] == f;
      assert HistoryOf(h', f.id.key)[|HistoryOf(r', f.id.key)|] == f';
    }
  }

  // ----- The reduction -----

  /** The same log entries, store, leader and applied rounds. */
  ghost predicate SameState(s: NodeState, s': NodeState) {
    && (forall key :: RoundsOf(s.log, key) == RoundsOf(s'.log, key))
    && s.kv == s'.kv && s.leader == s'.leader && s.applied == s'.applied
  }

  lemma SameCells(s: NodeState, s': NodeState)
    requires LEADER_KEY !in s.kv && LEADER_KEY !in s'.kv
    requires forall key :: CellOf(s, key) == CellOf(s', key)
    ensures SameState(s, s')
  {
    forall key ensures RoundsOf(s.log, key) == RoundsOf(s'.log, key) { assert CellOf(s, key) == CellOf(s', key); }
    forall key ensures Lookup(s.kv, key) == Lookup(s'.kv, key) { assert CellOf(s, key) == CellOf(s', key); }
    forall key ensures Lookup(s.applied, key) == Lookup(s'.applied, key) { assert CellOf(s, key) == CellOf(s', key); }
    SameLookups(s.kv, s'.kv);
    SameLookups(s.applied, s'.applied);
    assert CellOf(s, LEADER_KEY) == CellOf(s', LEADER_KEY);
  }

  lemma SerializeViews(w: World, t: Trace)
    requires Sound(w) && AttemptsOnly(t) && Orderly(w, t) && w.active == map[]
    ensures Orderly(w, Serialize(t))
    ensures forall key :: ViewOf(Run(w, Serialize(t)), key) == ViewOf(Run(w, t), key)
  {
    OrderlyInTurn(w, t);
    forall key
      ensures ViewSound(ViewOf(w, key), key) && OrderlyIn(ViewOf(w, key), ByKey(Serialize(t), key), key)
    {
      RunByKey(w, t, key);
      SerializeByKey(t, key);
    }
    OrderlyFromKeys(w, Serialize(t));
    forall key ensures ViewOf(Run(w, Serialize(t)), key) == ViewOf(Run(w, t), key) {
      RunByKey(w, t, key);
      RunByKey(w, Serialize(t), key);
      SerializeByKey(t, key);
    }
  }

  lemma SameWorlds(w: World, w': World)
    requires Sound(w) && Sound(w') && w.nodes.Keys == w'.nodes.Keys
    requires forall key :: ViewOf(w, key) == ViewOf(w', key)
    ensures w.sent == w'.sent && w.active == w'.active
    ensures forall n :: n in w.nodes ==> SameState(w.nodes[n], w'.nodes[n])
  {
    forall p ensures p in w.sent <==> p in w'.sent {
      if !p.call.Ping? {
        assert ViewOf(w, p.call.request.key).sent == ViewOf(w', p.call.request.key).sent;
        assert p in w.sent <==> p in ViewOf(w, p.call.request.key).sent;
        assert p in w'.sent <==> p in ViewOf(w', p.call.request.key).sent;
      }
    }
    forall id ensures id in w.active <==> id in w'.active && (id in w.active ==> w.active[id] == w'.active[id]) {
      assert ViewOf(w, id.key).active == ViewOf(w', id.key).active;
      assert id in w.active <==> id in ViewOf(w, id.key).active;
      assert id in w'.active <==> id in ViewOf(w', id.key).active;
    }
    forall n | n in w.nodes ensures SameState(w.nodes[n], w'.nodes[n]) {
      forall key ensures CellOf(w.nodes[n], key) == CellOf(w'.nodes[n], key) {
        assert ViewOf(w, key).cells[n] == ViewOf(w', key).cells[n];
      }
      SameCells(w.nodes[n], w'.nodes[n]);
    }
  }

  /** Any interleaving of attempts in which attempts on one key do not overlap can be replaced by the same attempts,
      with the same outcome of every remote call, run one after another in the order in which they end: every
      replica's log, store and leader, every message and every result, in order, come out the same. */
  lemma InterleavingReduction(w: World, t: Trace)
    requires Sound(w) && AttemptsOnly(t) && Orderly(w, t) && w.active == map[]
    ensures OneAfterAnother(Serialize(t)) && Orderly(w, Serialize(t))
    ensures forall id :: Only(Serialize(t), id) == Only(t, id)
    ensures var u, u' := Run(w, t), Run(w, Serialize(t));
            && u'.history == u.history && u'.sent == u.sent && u'.active == u.active
            && forall n :: n in w.nodes ==> SameState(u.nodes[n], u'.nodes[n])
  {
    SerializeIsSerial(t);
    SerializeViews(w, t);
    var u, u' := Run(w, t), Run(w, Serialize(t));
    SameWorlds(u, u');
    HistoryIds(w, t);
    HistoryIds(w, Serialize(t));
    SerializeFinishes(w, t);
    forall key ensures HistoryOf(u.history, key) == HistoryOf(u'.history, key) {
      assert ViewOf(u, key) == ViewOf(u', key);
    }
    SameHistory(u.history, u'.history);
    OrderlyInTurn(w, t);
    forall id ensures Only(Serialize(t), id) == Only(t, id) {
      SerializeByKey(t, id.key);
      OnlyByKey(t, id);
      OnlyByKey(Serialize(t), id);
    }
  }

  lemma OnlyByKey(t: Trace, id: AttemptId)
    requires AttemptsOnly(t)
    ensures Only(ByKey(t, id.key), id) == Only(t, id)
  {
  }
}
