/** One run of the proposer: four loops over the replicas with a quorum test after each of the first three. */
module Attempts {
  import opened Protocol
  import opened Quorum

  datatype Stage = Pinging | Proposing | Accepting | Informing | Returned

  /** The local variables of a running attempt. `todo` holds the replicas that the current loop has not called yet. */
  datatype Attempt = Attempt(
    proposer: NodeId, request: Request, members: seq<NodeId>, round: nat,
    stage: Stage, todo: seq<NodeId>, live: seq<NodeId>,
    promises: nat, acceptedId: int, acceptedValue: string, acceptedOp: Operation,
    acceptances: nat, acceptance: Response, ok: bool)

  type Cluster = map<NodeId, NodeState>

  /** The outcome of each remote call; an attempt calls a replica at most once in each stage. */
  type Oracle = (Stage, NodeId) -> Outcome

  function NextRound(s: NodeState, key: string): nat {
    |RoundsOf(s.log, key)|
  }

  function Begin(proposer: NodeId, request: Request, members: seq<NodeId>, round: nat): Attempt {
    Attempt(proposer, request, members, round, Pinging, members, [], 0, 0, "", NOT_SET, 0, BLANK_RESPONSE, false)
  }

  function PrepareRequest(a: Attempt): Request {
    Request(a.request.key, a.request.value, PROPOSE_ID, 0, a.round, GET)
  }

  function AcceptRequest(a: Attempt): Request {
    if a.acceptedId > 0 then
      Request(a.request.key, a.acceptedValue, PROPOSE_ID, a.acceptedId, a.round, a.acceptedOp)
    else
      Request(a.request.key, a.request.value, PROPOSE_ID, 0, a.round, a.request.op)
  }

  function SuccessRequest(a: Attempt): Request {
    Request(a.request.key, a.acceptance.value, a.acceptance.pServerId, a.acceptance.aServerId,
            a.acceptance.round, a.acceptance.op)
  }

  function NextCall(a: Attempt): Call
    requires a.stage != Returned
  {
    match a.stage
    case Pinging => Ping
    case Proposing => Propose(PrepareRequest(a))
    case Accepting => Accept(AcceptRequest(a))
    case Informing => Success(SuccessRequest(a))
  }

  /** One loop body: what the attempt keeps of the answer of `n`, or of its absence. */
  function Absorb(a: Attempt, n: NodeId, reply: Option<Reply>): Attempt {
    if reply.None? || reply.value.Aborted? then
      a
    else
      var r := reply.value.response;
      match a.stage
      case Pinging => a.(live := a.live + [n])
      case Proposing =>
        if r.aServerId > a.acceptedId then
          a.(promises := a.promises + 1, acceptedId := r.aServerId, acceptedValue := r.value, acceptedOp := r.op)
        else
          a.(promises := a.promises + 1)
      case Accepting => a.(acceptances := a.acceptances + 1, acceptance := r)
      case Informing => a
      case Returned => a
  }

  /** Leaving a loop: the quorum test, then the next loop or the return. */
  function Settle(a: Attempt): Attempt {
    if a.todo != [] then
      a
    else
      match a.stage
      case Pinging =>
        if NoQuorum(|a.live|, |a.members|) then a.(stage := Returned) else a.(stage := Proposing, todo := a.live)
      case Proposing =>
        if NoQuorum(a.promises, |a.members|) then a.(stage := Returned) else a.(stage := Accepting, todo := a.live)
      case Accepting =>
        if NoQuorum(a.acceptances, |a.members|) then a.(stage := Returned)
        else a.(stage := Informing, todo := a.members)
      case Informing => a.(stage := Returned, ok := true)
      case Returned => a
  }

  function Receive(a: Attempt, reply: Option<Reply>): Attempt
    requires a.todo != []
  {
    Settle(Absorb(a, a.todo[0], reply).(todo := a.todo[1..]))
  }

  /** The replicas that the propose or accept loop has called so far. */
  function Asked(a: Attempt): seq<NodeId> {
    if |a.todo| <= |a.live| then a.live[..|a.live| - |a.todo|] else []
  }

  ghost predicate Suffix<T>(t: seq<T>, s: seq<T>) {
    |t| <= |s| && t == s[|s| - |t|..]
  }

  /** The shape every attempt keeps, whatever the network does. */
  ghost predicate Wellformed(a: Attempt) {
    match a.stage
    case Pinging => CommonShape(a) && PingingShape(a)
    case Proposing => CommonShape(a) && ProposingShape(a)
    case Accepting => CommonShape(a) && AcceptingShape(a)
    case Informing => CommonShape(a) && InformingShape(a)
    case Returned => CommonShape(a) && ReturnedShape(a)
  }

  ghost predicate CommonShape(a: Attempt) {
    && a.proposer in a.members
    && Distinct(a.members)
    && Distinct(a.live)
    && Elems(a.live) <= Elems(a.members)
    && (a.ok ==> a.stage == Returned)
    && (a.acceptances > 0 ==> a.acceptance == Echo(AcceptRequest(a)))
    && a.acceptedId >= 0
  }

  ghost predicate PingingShape(a: Attempt) {
    && a.todo != [] && Suffix(a.todo, a.members)
    && Elems(a.live) <= Elems(a.members[..|a.members| - |a.todo|])
    && a.promises == a.acceptances == 0
    && a.acceptedId == 0
  }

  ghost predicate ProposingShape(a: Attempt) {
    && a.todo != [] && Suffix(a.todo, a.live)
    && a.promises <= |a.live| - |a.todo|
    && a.acceptances == 0
  }

  ghost predicate AcceptingShape(a: Attempt) {
    a.todo != [] && Suffix(a.todo, a.live)
  }

  ghost predicate InformingShape(a: Attempt) {
    && a.todo != [] && Suffix(a.todo, a.members)
    && !NoQuorum(a.acceptances, |a.members|) && a.acceptances > 0
  }

  ghost predicate ReturnedShape(a: Attempt) {
    a.todo == [] && (a.ok ==> !NoQuorum(a.acceptances, |a.members|) && a.acceptances > 0)
  }

  lemma BeginWellformed(proposer: NodeId, request: Request, members: seq<NodeId>, round: nat)
    requires Distinct(members) && proposer in members
    ensures Wellformed(Begin(proposer, request, members, round))
  {
  }

  lemma SuffixStep<T>(t: seq<T>, s: seq<T>)
    requires Suffix(t, s) && t != []
    ensures Suffix(t[1..], s)
    ensures t[0] == s[|s| - |t|]
    ensures s[..|s| - |t| + 1] == s[..|s| - |t|] + [t[0]]
  {
  }

  lemma DistinctExtend<T>(s: seq<T>, n: T)
    requires Distinct(s) && n !in s
    ensures Distinct(s + [n])
  {
    assert Elems(s + [n]) == Elems(s) + {n};
  }

  /** The answers that a replica can give to the next call of an attempt. */
  ghost predicate Possible(a: Attempt, reply: Option<Reply>) {
    a.stage == Accepting && reply.Some? && reply.value.Ok? ==> reply.value.response == Echo(AcceptRequest(a))
  }

  /** What the ping loop knows after one more call. */
  lemma PingMore(a: Attempt, n: NodeId)
    requires Wellformed(a) && a.stage == Pinging && n == a.todo[0]
    ensures Suffix(a.todo[1..], a.members)
    ensures Distinct(a.live + [n])
    ensures Elems(a.live + [n]) <= Elems(a.members[..|a.members| - |a.todo| + 1])
    ensures Elems(a.live) <= Elems(a.members[..|a.members| - |a.todo| + 1])
    ensures Elems(a.live + [n]) <= Elems(a.members)
  {
    SuffixStep(a.todo, a.members);
    var done := a.members[..|a.members| - |a.todo|];
    NotBefore(a.members, |done|);
    assert n !in Elems(done) && n !in Elems(a.live);
    DistinctExtend(a.live, n);
    assert Elems(a.live + [n]) == Elems(a.live) + {n};
    assert Elems(done + [n]) == Elems(done) + {n};
  }

  lemma ReceivePinging(a: Attempt, reply: Option<Reply>)
    requires Wellformed(a) && a.stage == Pinging
    ensures Wellformed(Receive(a, reply))
  {
    PingMore(a, a.todo[0]);
    PingSettles(Absorb(a, a.todo[0], reply).(todo := a.todo[1..]));
  }

  lemma PingSettles(b: Attempt)
    requires CommonShape(b) && b.stage == Pinging && Suffix(b.todo, b.members)
    requires Elems(b.live) <= Elems(b.members[..|b.members| - |b.todo|])
    requires b.promises == b.acceptances == 0 == b.acceptedId
    ensures Wellformed(Settle(b))
  {
    assert b.live == b.live[0..];
  }

  lemma ReceiveProposing(a: Attempt, reply: Option<Reply>)
    requires Wellformed(a) && a.stage == Proposing
    ensures Wellformed(Receive(a, reply))
  {
    SuffixStep(a.todo, a.live);
    ProposeSettles(Absorb(a, a.todo[0], reply).(todo := a.todo[1..]));
  }

  lemma ProposeSettles(b: Attempt)
    requires CommonShape(b) && b.stage == Proposing && Suffix(b.todo, b.live)
    requires b.promises <= |b.live| - |b.todo| && b.acceptances == 0
    ensures Wellformed(Settle(b))
  {
    assert b.live == b.live[0..];
  }

  lemma ReceiveAccepting(a: Attempt, reply: Option<Reply>)
    requires Wellformed(a) && a.stage == Accepting && Possible(a, reply)
    ensures Wellformed(Receive(a, reply))
  {
    SuffixStep(a.todo, a.live);
    AcceptSettles(Absorb(a, a.todo[0], reply).(todo := a.todo[1..]));
  }

  lemma AcceptSettles(b: Attempt)
    requires CommonShape(b) && b.stage == Accepting && Suffix(b.todo, b.live)
    ensures Wellformed(Settle(b))
  {
    assert b.members == b.members[0..];
  }

  lemma ReceiveInforming(a: Attempt, reply: Option<Reply>)
    requires Wellformed(a) && a.stage == Informing
    ensures Wellformed(Receive(a, reply))
  {
    SuffixStep(a.todo, a.members);
    InformSettles(Absorb(a, a.todo[0], reply).(todo := a.todo[1..]));
  }

  lemma InformSettles(b: Attempt)
    requires CommonShape(b) && b.stage == Informing && Suffix(b.todo, b.members)
    requires !NoQuorum(b.acceptances, |b.members|) && b.acceptances > 0
    ensures Wellformed(Settle(b))
  {
  }

  lemma ReceiveWellformed(a: Attempt, reply: Option<Reply>)
    requires Wellformed(a) && a.stage != Returned && Possible(a, reply)
    ensures Wellformed(Receive(a, reply))
  {
    if a.stage == Pinging {
      ReceivePinging(a, reply);
    } else if a.stage == Proposing {
      ReceiveProposing(a, reply);
    } else if a.stage == Accepting {
      ReceiveAccepting(a, reply);
    } else {
      ReceiveInforming(a, reply);
    }
  }

  lemma TransmitPossible(s: NodeState, a: Attempt, outcome: Outcome)
    requires a.stage != Returned
    ensures Possible(a, Transmit(s, NextCall(a), outcome).1)
  {
  }

  ghost predicate Hosts(nodes: Cluster, a: Attempt) {
    Wellformed(a) && nodes.Keys == Elems(a.members)
  }

  /** One more call of the propose or accept loop. */
  lemma AskedMore(a: Attempt, reply: Option<Reply>)
    requires a.todo != [] && Suffix(a.todo, a.live) && Distinct(a.live)
    requires a.stage == Proposing || a.stage == Accepting
    ensures var b := Absorb(a, a.todo[0], reply).(todo := a.todo[1..]);
            && Asked(b) == Asked(a) + [a.todo[0]] && a.todo[0] !in Asked(a)
            && (b.todo == [] ==> Asked(b) == a.live)
            && b.live == a.live && (a.stage == Accepting ==> AcceptRequest(b) == AcceptRequest(a))
  {
    AbsorbKeepsTargets(a, a.todo[0], reply);
    NextTarget(a.live, a.todo);
  }

  lemma AbsorbKeepsTargets(a: Attempt, n: NodeId, reply: Option<Reply>)
    requires a.stage == Proposing || a.stage == Accepting
    ensures Absorb(a, n, reply).live == a.live
    ensures a.stage == Accepting ==> AcceptRequest(Absorb(a, n, reply)) == AcceptRequest(a)
  {
  }

  lemma NextTarget(live: seq<NodeId>, todo: seq<NodeId>)
    requires todo != [] && Suffix(todo, live) && Distinct(live)
    ensures live[..|live| - |todo[1..]|] == live[..|live| - |todo|] + [todo[0]] && todo[0] !in live[..|live| - |todo|]
  {
    NotBefore(live, |live| - |todo|);
  }

  lemma NextIsMember(a: Attempt)
    requires Wellformed(a) && a.stage != Returned
    ensures a.todo[0] in a.members && a.todo[0] in Elems(a.members)
  {
    if a.stage == Proposing || a.stage == Accepting {
      assert a.todo[0] in Elems(a.live);
    }
  }

  lemma ReceiveProgress(a: Attempt, reply: Option<Reply>)
    requires a.todo != [] && a.stage != Returned
    ensures var b := Receive(a, reply);
            && b.members == a.members && b.request == a.request && b.round == a.round && b.proposer == a.proposer
            && (Rank(b) < Rank(a) || (Rank(b) == Rank(a) && |b.todo| < |a.todo|))
  {
  }

  /** One loop iteration: the next remote call with the given outcome. */
  function CallStep(nodes: Cluster, a: Attempt, outcome: Outcome): (Cluster, Attempt)
    requires a.stage != Returned && a.todo != [] && a.todo[0] in nodes
  {
    var answer := Transmit(nodes[a.todo[0]], NextCall(a), outcome);
    (nodes[a.todo[0] := answer.0], Receive(a, answer.1))
  }

  lemma CallStepHosts(nodes: Cluster, a: Attempt, outcome: Outcome)
    requires Hosts(nodes, a) && a.stage != Returned
    ensures a.todo != [] && a.todo[0] in nodes
    ensures var (nodes', b) := CallStep(nodes, a, outcome);
            && Hosts(nodes', b)
            && b.members == a.members && b.request == a.request && b.round == a.round && b.proposer == a.proposer
            && (Rank(b) < Rank(a) || (Rank(b) == Rank(a) && |b.todo| < |a.todo|))
  {
    NextIsMember(a);
    var answer := Transmit(nodes[a.todo[0]], NextCall(a), outcome);
    TransmitPossible(nodes[a.todo[0]], a, outcome);
    ReceiveWellformed(a, answer.1);
    ReceiveProgress(a, answer.1);
  }

  function Rank(a: Attempt): nat {
    match a.stage
    case Pinging => 4
    case Proposing => 3
    case Accepting => 2
    case Informing => 1
    case Returned => 0
  }

  /** The rest of an attempt that nothing else interferes with. */
  function Execute(nodes: Cluster, a: Attempt, oracle: Oracle): (r: (Cluster, Attempt))
    requires Hosts(nodes, a)
    ensures Hosts(r.0, r.1) && r.1.stage == Returned
    ensures r.1.members == a.members && r.1.request == a.request && r.1.round == a.round && r.1.proposer == a.proposer
    decreases Rank(a), |a.todo|
  {
    if a.stage == Returned then
      (nodes, a)
    else
      CallStepHosts(nodes, a, oracle(a.stage, a.todo[0]));
      var (nodes', a') := CallStep(nodes, a, oracle(a.stage, a.todo[0]));
      Execute(nodes', a', oracle)
  }

  /** A whole attempt by `proposer`, from the round number it reads off its own log. */
  function RunAttempt(nodes: Cluster, members: seq<NodeId>, proposer: NodeId, request: Request, oracle: Oracle)
    : (r: (Cluster, Attempt))
    requires Distinct(members) && nodes.Keys == Elems(members) && proposer in members
    ensures Hosts(r.0, r.1) && r.1.stage == Returned
    ensures r.1.members == members && r.1.request == request && r.1.proposer == proposer
    ensures r.1.round == NextRound(nodes[proposer], request.key)
  {
    BeginWellformed(proposer, request, members, NextRound(nodes[proposer], request.key));
    Execute(nodes, Begin(proposer, request, members, NextRound(nodes[proposer], request.key)), oracle)
  }
}
