/** Runs in which a fixed set of replicas is faithful: they never restart, answer every ping and receive every propose
    and every success call; all proposers are among them and attempts on one key do not overlap. Every other remote
    call, and every other replica, may fail in any way. This module has the invariant, key by key. */
module Faithful {
  import opened Protocol
  import opened Attempts
  import opened Cells
  import opened Worlds

  /** What the attempt that used a round proposed, and whether it reached its accept quorum. */
  datatype Decision = Decision(value: string, op: Operation, committed: bool)

  /** One decision for each round used so far. */
  type Ledger = seq<Decision>

  function Latest(g: Ledger): Option<string> {
    if g == [] then None
    else if g[|g| - 1].committed then Some(g[|g| - 1].value)
    else Latest(g[..|g| - 1])
  }

  function Expected(g: Ledger, initial: Option<string>): Option<string> {
    if Latest(g).Some? then Latest(g) else initial
  }

  /** The value of the last attempt that returned OK. */
  function LastOk(h: seq<Finished>): Option<string> {
    if h == [] then None
    else if h[|h| - 1].ok then Some(h[|h| - 1].request.value)
    else LastOk(h[..|h| - 1])
  }

  // ----- Single messages and single cells -----

  predicate EntryFits(e: LogEntry, d: Decision) {
    && e.pServerId == 0
    && (e.aServerId == 0 || (e.aServerId == PROPOSE_ID && e.acceptedValue == d.value && e.op == d.op))
  }

  predicate RequestFits(q: Request, g: Ledger) {
    && q.round < |g|
    && q.pServerId == PROPOSE_ID
    && q.value == g[q.round].value && q.op == g[q.round].op
  }

  predicate CallFits(call: Call, g: Ledger) {
    match call
    case Ping => true
    case Propose(q) => q.round < |g| && q.pServerId == PROPOSE_ID
    case Accept(q) => RequestFits(q, g)
    case Success(q) => RequestFits(q, g) && g[q.round].committed
  }

  /** Accepted entries carry the decision of their round; the stored value is the one of the last applied round. */
  ghost predicate CellFits(c: Cell, g: Ledger) {
    && (forall r :: r in c.rounds ==> r < |g| && EntryFits(c.rounds[r], g[r]))
    && (c.applied.Some? ==>
          var r := c.applied.value;
          && r in c.rounds && c.rounds[r].aServerId == PROPOSE_ID
          && g[r].committed && c.current == Some(c.rounds[r].acceptedValue))
  }

  ghost predicate Complete(c: Cell, m: nat) {
    forall r: nat :: r < m ==> r in c.rounds
  }

  lemma ServeFits(c: Cell, call: Call, g: Ledger)
    requires CellFits(c, g) && CallFits(call, g)
    ensures CellFits(ServeCell(c, call).0, g)
    ensures c.rounds.Keys <= ServeCell(c, call).0.rounds.Keys
    ensures !call.Ping? ==> call.request.round in ServeCell(c, call).0.rounds
    ensures call.Propose? ==> ServeCell(c, call).1.Ok?
    ensures !call.Success? ==> ServeCell(c, call).0.current == c.current
  {
  }

  /** A repeated or late message cannot move a complete cell off the expected value. */
  lemma LateIsHarmless(c: Cell, call: Call, g: Ledger, initial: Option<string>)
    requires CellFits(c, g) && CallFits(call, g)
    requires Complete(c, |g|) || (g != [] && !g[|g| - 1].committed && Complete(c, |g| - 1))
    requires c.current == Expected(g, initial)
    ensures ServeCell(c, call).0.current == Expected(g, initial)
  {
    if call.Success? {
      var q := call.request;
      var rounds := Recorded(c.rounds, q.round, q.pServerId, q.op, q.value);
      if Complete(c, |g|) {
        if q.round < |g| - 1 {
          assert |g| - 1 in rounds;
        }
      } else if q.round < |g| - 2 {
        assert |g| - 2 in rounds;
      } else {
        assert q.round == |g| - 2;
        var h := g[..|g| - 1];
        assert h[|h| - 1] == g[q.round];
        assert Latest(g) == Latest(h) == Some(q.value);
      }
    }
  }

  /** While the winning value spreads, a cell moves from the previous value to the new one and not elsewhere. */
  lemma SpreadingIsOneWay(c: Cell, call: Call, g: Ledger)
    requires CellFits(c, g) && CallFits(call, g) && g != [] && Complete(c, |g|)
    ensures var c' := ServeCell(c, call).0;
            c'.current == c.current || (g[|g| - 1].committed && c'.current == Some(g[|g| - 1].value))
    ensures call.Success? && call.request.round == |g| - 1 ==>
              ServeCell(c, call).0.current == Some(g[|g| - 1].value)
  {
    if call.Success? {
      var q := call.request;
      var rounds := Recorded(c.rounds, q.round, q.pServerId, q.op, q.value);
      if q.round < |g| - 1 {
        assert |g| - 1 in rounds;
        assert Outdated(rounds, q.round);
      } else {
        assert !Outdated(rounds, q.round);
      }
    }
  }

  /** Opening a round and committing it disturb no cell and no message. */
  lemma LedgerGrows(c: Cell, call: Call, g: Ledger, d: Decision)
    ensures CellFits(c, g) ==> CellFits(c, g + [d])
    ensures CallFits(call, g) ==> CallFits(call, g + [d])
  {
  }

  function WithCommit(g: Ledger): Ledger
    requires g != []
  {
    g[|g| - 1 := g[|g| - 1].(committed := true)]
  }

  lemma CommitFits(c: Cell, call: Call, g: Ledger)
    requires g != []
    ensures CellFits(c, g) ==> CellFits(c, WithCommit(g))
    ensures CallFits(call, g) ==> CallFits(call, WithCommit(g))
  {
  }

  lemma LatestGrows(g: Ledger, d: Decision)
    ensures Latest(g + [d]) == if d.committed then Some(d.value) else Latest(g)
  {
    assert (g + [d])[..|g|] == g;
  }

  lemma LatestCommitted(g: Ledger)
    requires g != [] && !g[|g| - 1].committed
    ensures Latest(WithCommit(g)) == Some(g[|g| - 1].value)
    ensures WithCommit(g)[..|g| - 1] == g[..|g| - 1]
    ensures Latest(g) == Latest(g[..|g| - 1])
  {
  }

  lemma {:induction false} LatestIs(g: Ledger, r: nat)
    requires r < |g| && g[r].committed
    requires forall i :: r < i < |g| ==> !g[i].committed
    ensures Latest(g) == Some(g[r].value)
  {
    if r < |g| - 1 {
      LatestIs(g[..|g| - 1], r);
    }
  }

  // ----- The invariant of one key -----

  /** The faithful replicas and the value each of them starts with. */
  datatype Setting = Setting(faithful: set<NodeId>, initial: map<NodeId, Option<string>>)

  ghost predicate Covers(v: View, s: Setting) {
    s.faithful <= v.cells.Keys && s.faithful <= s.initial.Keys
  }

  ghost predicate AllFit(v: View, g: Ledger) {
    && (forall p :: p in v.sent ==> CallFits(p.call, g))
    && (forall n :: n in v.cells ==> CellFits(v.cells[n], g))
  }

  ghost predicate AllComplete(v: View, s: Setting, m: nat)
    requires Covers(v, s)
  {
    forall f :: f in s.faithful ==> Complete(v.cells[f], m)
  }

  /** The faithful cells hold every round below `m` and the value that the ledger predicts. */
  ghost predicate InStep(v: View, s: Setting, g: Ledger, m: nat)
    requires Covers(v, s)
  {
    && AllComplete(v, s, m)
    && (forall f :: f in s.faithful ==> v.cells[f].current == Expected(g, s.initial[f]))
    && LastOk(v.history) == Latest(g)
  }

  /** The attempt has opened the newest round of the ledger. */
  predicate Owns(a: Attempt, g: Ledger, committed: bool) {
    && g != [] && a.round == |g| - 1
    && g[|g| - 1] == Decision(a.request.value, a.request.op, committed)
    && a.acceptedId == 0
  }

  ghost predicate Untouched(v: View, round: nat) {
    && (forall p :: p in v.sent && (p.call.Accept? || p.call.Success?) ==> p.call.request.round != round)
    && (forall n :: n in v.cells ==> EntryAt(v.cells[n].rounds, round).aServerId == 0)
  }

  /** While the success calls go out, a faithful cell that was not called yet may still hold the previous value. */
  ghost predicate Spreading(v: View, s: Setting, g: Ledger, a: Attempt)
    requires Covers(v, s)
  {
    && Owns(a, g, true)
    && AllComplete(v, s, |g|)
    && (forall f :: f in s.faithful ==>
          || v.cells[f].current == Some(a.request.value)
          || (f in a.todo && v.cells[f].current == Expected(g[..|g| - 1], s.initial[f])))
    && LastOk(v.history) == Latest(g[..|g| - 1])
  }

  ghost predicate StageFits(v: View, s: Setting, g: Ledger, a: Attempt)
    requires Covers(v, s)
  {
    match a.stage
    case Pinging =>
      && a.round == |g|
      && InStep(v, s, g, |g|)
      && (forall f :: f in s.faithful ==> f in a.todo || f in a.live)
    case Proposing =>
      && Owns(a, g, false)
      && Untouched(v, a.round)
      && InStep(v, s, g, |g| - 1)
      && (forall f :: f in s.faithful ==> f in a.live && (f in a.todo || a.round in v.cells[f].rounds))
    case Accepting => Owns(a, g, false) && InStep(v, s, g, |g|)
    case Informing => Spreading(v, s, g, a)
    case Returned => if a.ok then Spreading(v, s, g, a) else InStep(v, s, g, |g|)
  }

  /** The invariant. `cur` is the attempt that is running on this key, if any. */
  ghost predicate Faith(v: View, s: Setting, g: Ledger, id: AttemptId, cur: Option<Attempt>) {
    && Covers(v, s)
    && v.active == (if cur.Some? then map[id := cur.value] else map[])
    && AllFit(v, g)
    && match cur
       case None => InStep(v, s, g, |g|)
       case Some(a) => a.proposer in s.faithful && StageFits(v, s, g, a)
  }

  /** The events that keep the set faithful. */
  predicate KeepsFaith(v: View, e: Event, s: Setting, key: string)
    requires EnabledIn(v, e, key)
  {
    match e
    case Start(_, proposer, _) => v.active == map[] && proposer in s.faithful
    case Step(id, outcome) => Honest(v.active[id], outcome, s.faithful)
    case Finish(_) => true
    case Deliver(_) => true
    case Restart(node) => node !in s.faithful
    case Recover(node, _) => node !in s.faithful
    case Adopt(node, _) => node !in s.faithful
  }

  /** A faithful replica answers pings and receives propose and success calls. */
  predicate Honest(a: Attempt, outcome: Outcome, faithful: set<NodeId>) {
    a.todo != [] && a.todo[0] in faithful ==>
      && (a.stage == Pinging ==> outcome == Delivered)
      && (a.stage == Proposing || a.stage == Informing ==> outcome != Lost)
  }
}
