/** What a replica keeps about one single key. Every handler touches the key of its request and no other. */
module Cells {
  import opened Protocol

  /** `current` is the stored value, or the named leader when the key is the leader key. */
  datatype Cell = Cell(rounds: Rounds, current: Option<string>, applied: Option<nat>)

  function Lookup<V>(m: map<string, V>, key: string): Option<V> {
    if key in m then Some(m[key]) else None
  }

  lemma SameLookups<V>(m: map<string, V>, m': map<string, V>)
    requires forall key :: Lookup(m, key) == Lookup(m', key)
    ensures m == m'
  {
    forall key ensures key in m <==> key in m' && (key in m ==> m[key] == m'[key]) {
      assert Lookup(m, key) == Lookup(m', key);
    }
  }

  function CellOf(s: NodeState, key: string): Cell {
    Cell(RoundsOf(s.log, key),
         if key == LEADER_KEY then Some(s.leader) else Lookup(s.kv, key),
         Lookup(s.applied, key))
  }

  function ServeCell(c: Cell, call: Call): (Cell, Reply) {
    match call
    case Ping => (c, Ok(BLANK_RESPONSE))
    case Propose(q) =>
      (c.(rounds := Touched(c.rounds, q.round)), ProposeReply(EntryAt(c.rounds, q.round), q))
    case Accept(q) =>
      (c.(rounds := Recorded(c.rounds, q.round, q.pServerId, q.op, q.value)), Ok(Echo(q)))
    case Success(q) =>
      var rounds := Recorded(c.rounds, q.round, q.pServerId, q.op, q.value);
      if Outdated(rounds, q.round) then
        (c.(rounds := rounds), Aborted)
      else
        (Cell(rounds, Some(q.value), Some(q.round)), Ok(BLANK_RESPONSE))
  }

  function TransmitCell(c: Cell, call: Call, outcome: Outcome): (Cell, Option<Reply>) {
    match outcome
    case Lost => (c, None)
    case ReplyLost => (ServeCell(c, call).0, None)
    case Delivered => (ServeCell(c, call).0, Some(ServeCell(c, call).1))
  }

  function RestartedCell(key: string): Cell {
    CellOf(BLANK_NODE, key)
  }

  /** A pair of the snapshot overwrites the value; the leader name is not part of a snapshot. */
  function RecoveredCell(c: Cell, source: Cell, key: string): Cell {
    if key != LEADER_KEY && source.current.Some? then c.(current := source.current, applied := None) else c
  }

  /** Key by key, a handler does exactly what the single-key handler does, and its answer depends on that key only. */
  lemma ServeByKey(s: NodeState, call: Call, key: string)
    ensures CellOf(Serve(s, call).0, key) ==
            if !call.Ping? && call.request.key == key then ServeCell(CellOf(s, key), call).0 else CellOf(s, key)
    ensures call.Ping? || call.request.key == key ==> Serve(s, call).1 == ServeCell(CellOf(s, key), call).1
  {
    if !call.Ping? {
      var q := call.request;
      assert RoundsOf(Serve(s, call).0.log, q.key) == ServeCell(CellOf(s, q.key), call).0.rounds;
    }
  }

  lemma TransmitByKey(s: NodeState, call: Call, outcome: Outcome, key: string)
    ensures CellOf(Transmit(s, call, outcome).0, key) ==
            if !call.Ping? && call.request.key == key then TransmitCell(CellOf(s, key), call, outcome).0
            else CellOf(s, key)
    ensures call.Ping? || call.request.key == key ==>
              Transmit(s, call, outcome).1 == TransmitCell(CellOf(s, key), call, outcome).1
  {
    ServeByKey(s, call, key);
  }

  lemma RecoverByKey(s: NodeState, source: NodeState, key: string)
    requires LEADER_KEY !in source.kv
    ensures CellOf(Recovered(s, source.kv), key) == RecoveredCell(CellOf(s, key), CellOf(source, key), key)
  {
  }
}
