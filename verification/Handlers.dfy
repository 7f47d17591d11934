/** What the handlers promise to their callers, in terms of the log, the store and the leader name alone. */
module Handlers {
  import opened Protocol

  /** The log after one entry was written; other rounds and other keys are what they were. */
  predicate EntryWritten(log: map<string, Rounds>, log': map<string, Rounds>, key: string, round: nat, e: LogEntry) {
    log' == log[key := RoundsOf(log, key)[round := e]]
  }

  function Logged(log: map<string, Rounds>, key: string, round: nat): LogEntry {
    EntryAt(RoundsOf(log, key), round)
  }

  /** The caller of a success call can tell from the answer what has become of it: it is ABORTED if and only if the
      log has a higher round, and then store and leader stay; after an OK the value is stored, or named as leader. The
      entry is recorded in either case. */
  lemma SuccessTells(s: NodeState, q: Request)
    ensures var (s', reply) := Serve(s, Success(q));
            && (reply.Aborted? <==> exists r :: r in RoundsOf(s.log, q.key) && r > q.round)
            && (reply.Aborted? ==> s'.kv == s.kv && s'.leader == s.leader && s'.applied == s.applied)
            && (reply.Ok? ==>
                  && s'.kv == (if q.key == "leader" then s.kv else s.kv[q.key := q.value])
                  && s'.leader == (if q.key == "leader" then q.value else s.leader)
                  && s'.applied == s.applied[q.key := q.round])
            && EntryWritten(s.log, s'.log, q.key, q.round,
                      LogEntry(Logged(s.log, q.key, q.round).pServerId, q.pServerId, q.op, q.value))
  {
    var rounds := RoundsOf(s.log, q.key);
    OutdatedByOthers(rounds, q.round, LogEntry(EntryAt(rounds, q.round).pServerId, q.pServerId, q.op, q.value));
  }

  /** A propose call is turned down if and only if a higher id was promised. Otherwise it is answered with what has
      been accepted at its round, and with no value if that is nothing. It leaves nothing behind but a blank entry,
      where there was none. */
  lemma ProposeTells(s: NodeState, q: Request)
    ensures var (s', reply) := Serve(s, Propose(q));
            var e := Logged(s.log, q.key, q.round);
            && (reply.Aborted? <==> e.pServerId > q.pServerId)
            && (reply.Ok? && e.aServerId > 0 ==>
                  reply.response == Response(e.acceptedValue, 0, e.aServerId, 0, e.op))
            && (reply.Ok? && e.aServerId <= 0 ==> reply.response == Response("", q.pServerId, 0, q.round, GET))
            && s' == s.(log := s'.log) && EntryWritten(s.log, s'.log, q.key, q.round, e)
            && (q.round !in RoundsOf(s.log, q.key) ==> e == LogEntry(0, 0, GET, ""))
  {
    var rounds := RoundsOf(s.log, q.key);
    assert Touched(rounds, q.round)[q.round] == EntryAt(rounds, q.round);
  }

  /** An accept call is never turned down, whatever was promised or accepted before; it leaves its own id, operation
      and value in the log, and its answer repeats the call. */
  lemma AcceptTells(s: NodeState, q: Request)
    ensures var (s', reply) := Serve(s, Accept(q));
            && reply == Ok(Response(q.value, q.pServerId, q.aServerId, q.round, q.op))
            && s' == s.(log := s'.log)
            && EntryWritten(s.log, s'.log, q.key, q.round,
                      LogEntry(Logged(s.log, q.key, q.round).pServerId, q.pServerId, q.op, q.value))
  {
  }

  /** What was accepted is what the next proposer at that key and round is told, unless another accept or success call
      for them comes in between. */
  lemma AcceptedIsOffered(s: NodeState, q: Request, prepare: Request, between: Call)
    requires prepare.key == q.key && prepare.round == q.round && q.pServerId > 0
    requires prepare.pServerId >= Logged(s.log, q.key, q.round).pServerId
    requires between.Ping? || between.Propose? || between.request.key != q.key || between.request.round != q.round
    ensures var s' := Serve(Serve(s, Accept(q)).0, between).0;
            Serve(s', Propose(prepare)).1 == Ok(Response(q.value, 0, q.pServerId, 0, q.op))
  {
    var s1 := Serve(s, Accept(q)).0;
    var s2 := Serve(s1, between).0;
    AcceptTells(s, q);
    OtherEntriesStay(s1, between, q.key, q.round);
    ProposeTells(s2, prepare);
  }

  /** Only accept and success calls change an entry, and only the one at their key and round. */
  lemma OtherEntriesStay(s: NodeState, call: Call, key: string, round: nat)
    requires call.Ping? || call.Propose? || call.request.key != key || call.request.round != round
    ensures Logged(Serve(s, call).0.log, key, round) == Logged(s.log, key, round)
  {
    match call
    case Ping =>
    case Propose(q) => ProposeTells(s, q);
    case Accept(q) => AcceptTells(s, q);
    case Success(q) => SuccessTells(s, q);
  }

  /** A call that arrives a second time right away changes nothing more and is answered as before. */
  lemma RepeatIsIdle(s: NodeState, call: Call)
    ensures var (s', reply) := Serve(s, call); Serve(s', call) == (s', reply)
  {
    var s' := Serve(s, call).0;
    match call
    case Ping =>
    case Propose(q) =>
      ProposeTells(s, q);
      ProposeTells(s', q);
      var e := Logged(s.log, q.key, q.round);
      WritesOver(s.log, s'.log, Serve(s', call).0.log, q.key, q.round, e, e);
    case Accept(q) =>
      AcceptTells(s, q);
      AcceptTells(s', q);
      var e := Logged(s'.log, q.key, q.round);
      WritesOver(s.log, s'.log, Serve(s', call).0.log, q.key, q.round, e, e);
    case Success(q) => SuccessRepeats(s, q);
  }

  lemma SuccessRepeats(s: NodeState, q: Request)
    ensures var (s', reply) := Serve(s, Success(q)); Serve(s', Success(q)) == (s', reply)
  {
    var s' := Serve(s, Success(q)).0;
    SuccessTells(s, q);
    SuccessTells(s', q);
    var e := Logged(s'.log, q.key, q.round);
    OutdatedByOthers(RoundsOf(s.log, q.key), q.round, e);
    WritesOver(s.log, s'.log, Serve(s', Success(q)).0.log, q.key, q.round, e, e);
    assert s'.applied == Serve(s', Success(q)).0.applied && s'.kv == Serve(s', Success(q)).0.kv;
  }

  /** Of two entries written at the same place the second one stays. */
  lemma WritesOver(log: map<string, Rounds>, log': map<string, Rounds>, log'': map<string, Rounds>, key: string,
                   round: nat, e: LogEntry, e': LogEntry)
    requires EntryWritten(log, log', key, round, e) && EntryWritten(log', log'', key, round, e')
    ensures Logged(log', key, round) == e && EntryWritten(log, log'', key, round, e')
  {
    assert RoundsOf(log, key)[round := e][round := e'] == RoundsOf(log, key)[round := e'];
  }

  /** The caller gets an answer exactly when it is delivered; a call whose answer is lost was served all the same. */
  lemma OutcomesDiffer(s: NodeState, call: Call, outcome: Outcome)
    ensures var (s', answer) := Transmit(s, call, outcome);
            && (outcome == Lost ==> s' == s)
            && (outcome != Lost ==> s' == Serve(s, call).0)
            && (answer.Some? <==> outcome == Delivered)
            && (answer.Some? ==> answer.value == Serve(s, call).1)
            && (call.Ping? ==> s' == s && (answer.Some? ==> answer.value.Ok?))
  {
  }

  /** Recovery: the snapshot wins over what was stored, keys that it lacks stay, and so do log and leader. */
  lemma RecoveryKeepsTheRest(s: NodeState, snapshot: map<string, string>, key: string)
    ensures var s' := Recovered(s, snapshot);
            && s'.log == s.log && s'.leader == s.leader
            && (key in s'.kv <==> key in snapshot || key in s.kv)
            && (key in s'.kv ==> s'.kv[key] == if key in snapshot then snapshot[key] else s.kv[key])
            && (key in s'.applied <==> key in s.applied && key !in snapshot)
            && (key in s'.applied ==> s'.applied[key] == s.applied[key])
  {
  }
}
