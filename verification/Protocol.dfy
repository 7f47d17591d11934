/** The messages of the consensus service and what one replica does with them. */
module Protocol {

  type NodeId = string

  /** Consensus on this key names the leader instead of storing a value. */
  const LEADER_KEY: string := "leader"

  /** Every attempt proposes with this id. */
  const PROPOSE_ID: int := 1

  datatype Option<+T> = None | Some(value: T)

  datatype Operation = GET | SET | DELETE | SET_LEADER | NOT_SET

  datatype LogEntry = LogEntry(pServerId: int, aServerId: int, op: Operation, acceptedValue: string)

  type Rounds = map<nat, LogEntry>

  datatype Request = Request(key: string, value: string, pServerId: int, aServerId: int, round: nat, op: Operation)

  datatype Response = Response(value: string, pServerId: int, aServerId: int, round: nat, op: Operation)

  datatype Reply = Ok(response: Response) | Aborted

  datatype Call =
    | Ping
    | Propose(request: Request)
    | Accept(request: Request)
    | Success(request: Request)

  /** The fate of one remote call: the handler never ran, it ran but its answer was lost, or it ran and answered. */
  datatype Outcome = Lost | ReplyLost | Delivered

  /** One replica: its log, its key-value store and the leader it names.
      `applied` is a history variable: the round whose success call last wrote the key, unless a recovery did since. */
  datatype NodeState = NodeState(
    log: map<string, Rounds>,
    kv: map<string, string>,
    leader: string,
    applied: map<string, nat>)

  const BLANK_ENTRY := LogEntry(0, 0, GET, "")
  const BLANK_RESPONSE := Response("", 0, 0, 0, GET)
  const BLANK_NODE := NodeState(map[], map[], "", map[])

  /** What a client's set call asks consensus for; the operation is left at its default. */
  function SetRequest(key: string, value: string): Request {
    Request(key, value, 0, 0, 0, GET)
  }

  /** A replica has itself elected under its own address. */
  function ElectionRequest(self: NodeId): Request {
    Request(LEADER_KEY, self, 0, 0, 0, SET_LEADER)
  }

  function RoundsOf(log: map<string, Rounds>, key: string): Rounds {
    if key in log then log[key] else map[]
  }

  function EntryAt(rounds: Rounds, round: nat): LogEntry {
    if round in rounds then rounds[round] else BLANK_ENTRY
  }

  /** Reading an entry inserts a blank one when there is none. */
  function Touched(rounds: Rounds, round: nat): Rounds {
    rounds[round := EntryAt(rounds, round)]
  }

  /** Recording an acceptance keeps the promised id and overwrites the rest. */
  function Recorded(rounds: Rounds, round: nat, aServer: int, op: Operation, value: string): Rounds {
    rounds[round := LogEntry(EntryAt(rounds, round).pServerId, aServer, op, value)]
  }

  predicate Outdated(rounds: Rounds, round: nat) {
    exists r :: r in rounds && r > round
  }

  /** Only other rounds matter for that. */
  lemma OutdatedByOthers(rounds: Rounds, round: nat, e: LogEntry)
    ensures Outdated(rounds[round := e], round) == Outdated(rounds, round)
  {
    if Outdated(rounds, round) {
      var r :| r in rounds && r > round;
      assert r in rounds[round := e];
    }
  }

  function ProposeReply(e: LogEntry, q: Request): Reply {
    if e.pServerId > q.pServerId then Aborted
    else if e.aServerId > 0 then Ok(Response(e.acceptedValue, 0, e.aServerId, 0, e.op))
    else Ok(Response("", q.pServerId, 0, q.round, GET))
  }

  function Echo(q: Request): Response {
    Response(q.value, q.pServerId, q.aServerId, q.round, q.op)
  }

  function ServePropose(s: NodeState, q: Request): (NodeState, Reply) {
    var rounds := Touched(RoundsOf(s.log, q.key), q.round);
    (s.(log := s.log[q.key := rounds]), ProposeReply(rounds[q.round], q))
  }

  function ServeAccept(s: NodeState, q: Request): (NodeState, Reply) {
    var rounds := Recorded(RoundsOf(s.log, q.key), q.round, q.pServerId, q.op, q.value);
    (s.(log := s.log[q.key := rounds]), Ok(Echo(q)))
  }

  function ServeSuccess(s: NodeState, q: Request): (NodeState, Reply) {
    var rounds := Recorded(RoundsOf(s.log, q.key), q.round, q.pServerId, q.op, q.value);
    var logged := s.(log := s.log[q.key := rounds]);
    if Outdated(rounds, q.round) then
      (logged, Aborted)
    else if q.key == LEADER_KEY then
      (logged.(leader := q.value, applied := s.applied[q.key := q.round]), Ok(BLANK_RESPONSE))
    else
      (logged.(kv := s.kv[q.key := q.value], applied := s.applied[q.key := q.round]), Ok(BLANK_RESPONSE))
  }

  function Serve(s: NodeState, call: Call): (NodeState, Reply) {
    match call
    case Ping => (s, Ok(BLANK_RESPONSE))
    case Propose(q) => ServePropose(s, q)
    case Accept(q) => ServeAccept(s, q)
    case Success(q) => ServeSuccess(s, q)
  }

  function Transmit(s: NodeState, call: Call, outcome: Outcome): (NodeState, Option<Reply>) {
    match outcome
    case Lost => (s, None)
    case ReplyLost => (Serve(s, call).0, None)
    case Delivered => (Serve(s, call).0, Some(Serve(s, call).1))
  }

  /** What start-up recovery leaves: every pair of the snapshot is written over the store; the log is not copied. */
  function Recovered(s: NodeState, snapshot: map<string, string>): NodeState {
    s.(kv := s.kv + snapshot, applied := s.applied - snapshot.Keys)
  }
}
