/** Why attempts on one key must not overlap: two concurrent set calls at one proposer, with every call answered, both
    return OK and leave the replicas different for good. */
module Overlaps {
  import opened Protocol
  import opened Quorum
  import opened Attempts
  import opened Cells
  import opened Phases
  import opened Outcomes
  import opened Worlds
  import opened Stretches

  function Everything(): Oracle {
    (stage: Stage, n: NodeId) => Delivered
  }

  lemma {:induction false} EveryoneAnswers(targets: seq<NodeId>, stage: Stage)
    ensures Answering(targets, stage, Everything()) == targets
  {
    if targets != [] {
      EveryoneAnswers(targets[..|targets| - 1], stage);
    }
  }

  // ----- The cluster, with at most round 0 in use for the key -----

  predicate RoundZero(s: NodeState, key: string) {
    forall r :: r in RoundsOf(s.log, key) ==> r == 0
  }

  ghost predicate Quiet(nodes: Cluster, members: seq<NodeId>, key: string) {
    && nodes.Keys == Elems(members)
    && forall n :: n in nodes ==> RoundZero(nodes[n], key)
  }

  ghost predicate Unvoted(nodes: Cluster, key: string) {
    forall n :: n in nodes ==> EntryAt(RoundsOf(nodes[n].log, key), 0) == BLANK_ENTRY
  }

  predicate AboutRoundZero(call: Call, key: string) {
    !call.Ping? ==> call.request.key == key && call.request.round == 0
  }

  lemma ServeQuiet(s: NodeState, call: Call, key: string)
    requires RoundZero(s, key) && AboutRoundZero(call, key)
    ensures RoundZero(Serve(s, call).0, key)
    ensures call.Ping? || call.Propose? ==>
              EntryAt(RoundsOf(Serve(s, call).0.log, key), 0) == EntryAt(RoundsOf(s.log, key), 0)
    ensures call.Success? && key != LEADER_KEY ==> Lookup(Serve(s, call).0.kv, key) == Some(call.request.value)
  {
  }

  lemma PhaseQuiet(nodes: Cluster, members: seq<NodeId>, targets: seq<NodeId>, call: Call, stage: Stage, key: string)
    requires Quiet(nodes, members, key) && AboutRoundZero(call, key)
    ensures var nodes' := Phase(nodes, targets, call, stage, Everything());
            && Quiet(nodes', members, key)
            && (Unvoted(nodes, key) && (call.Ping? || call.Propose?) ==> Unvoted(nodes', key))
  {
    forall n | n in nodes
      ensures RoundZero(Serve(nodes[n], call).0, key)
      ensures call.Ping? || call.Propose? ==>
                EntryAt(RoundsOf(Serve(nodes[n], call).0.log, key), 0) == EntryAt(RoundsOf(nodes[n].log, key), 0)
    {
      ServeQuiet(nodes[n], call, key);
    }
  }

  /** After a success loop the replicas that were called store the value, the others what they did. */
  lemma PhaseStores(nodes: Cluster, members: seq<NodeId>, targets: seq<NodeId>, q: Request, key: string)
    requires Quiet(nodes, members, key) && q.key == key != LEADER_KEY && q.round == 0
    ensures var nodes' := Phase(nodes, targets, Success(q), Informing, Everything());
            && (forall n :: n in nodes && n in targets ==> n in nodes' && Lookup(nodes'[n].kv, key) == Some(q.value))
            && (forall n :: n in nodes && n !in targets ==> n in nodes' && nodes'[n] == nodes[n])
  {
    forall n | n in nodes ensures Lookup(Serve(nodes[n], Success(q)).0.kv, key) == Some(q.value) {
      ServeQuiet(nodes[n], Success(q), key);
    }
  }

  // ----- The attempt, stage by stage -----

  function AcceptOf(request: Request): Request {
    Request(request.key, request.value, PROPOSE_ID, 0, 0, request.op)
  }

  ghost predicate Fresh(a: Attempt, members: seq<NodeId>, request: Request) {
    a == Begin(a.proposer, request, members, 0) && members != []
  }

  predicate ReadyToPropose(a: Attempt, members: seq<NodeId>, request: Request) {
    && a.stage == Proposing && a.todo == a.live == a.members == members && a.request == request && a.round == 0
    && a.promises == 0 && a.acceptedId == 0 && a.acceptances == 0 && !a.ok
  }

  predicate ReadyToAccept(a: Attempt, members: seq<NodeId>, request: Request) {
    && a.stage == Accepting && a.todo == a.live == a.members == members && a.request == request
    && a.acceptances == 0 && !a.ok && AcceptRequest(a) == AcceptOf(request)
  }

  predicate ReadyToInform(a: Attempt, todo: seq<NodeId>, request: Request) {
    && a.stage == Informing && a.todo == todo && a.request == request && !a.ok
    && a.acceptance == Echo(AcceptOf(request))
  }

  predicate Over(a: Attempt, request: Request) {
    a.stage == Returned && a.ok && a.request == request && a.acceptance == Echo(AcceptOf(request))
  }

  lemma AllPass(members: seq<NodeId>)
    requires members != []
    ensures !NoQuorum(|members|, |members|)
  {
  }

  lemma PingsDone(nodes: Cluster, members: seq<NodeId>, a: Attempt, request: Request)
    requires Fresh(a, members, request) && Elems(members) <= nodes.Keys
    ensures ReadyToPropose(Settle(LoopDone(nodes, a, Everything())), members, request)
  {
    PingLoop(nodes, a, members, Everything());
    EveryoneAnswers(members, Pinging);
    AllPass(members);
  }

  lemma ProposesDone(nodes: Cluster, members: seq<NodeId>, a: Attempt, request: Request)
    requires ReadyToPropose(a, members, request) && Elems(members) <= nodes.Keys && members != []
    requires Unvoted(nodes, request.key)
    ensures ReadyToAccept(Settle(LoopDone(nodes, a, Everything())), members, request)
  {
    ProposeStage(nodes, a, Everything());
    EveryoneAnswers(members, Proposing);
    AllPass(members);
    FollowsExactly(AcceptRequest(LoopDone(nodes, a, Everything())), nodes, members, request, 0);
  }

  lemma AcceptsDone(nodes: Cluster, members: seq<NodeId>, a: Attempt, request: Request)
    requires ReadyToAccept(a, members, request) && Elems(members) <= nodes.Keys && members != []
    ensures ReadyToInform(Settle(LoopDone(nodes, a, Everything())), members, request)
  {
    AcceptLoop(nodes, a, members, AcceptRequest(a), Everything());
    EveryoneAnswers(members, Accepting);
    AllPass(members);
  }

  lemma InformsDone(nodes: Cluster, todo: seq<NodeId>, a: Attempt, request: Request)
    requires ReadyToInform(a, todo, request) && Elems(todo) <= nodes.Keys && todo != []
    ensures Over(Settle(LoopDone(nodes, a, Everything())), request)
  {
  }

  // ----- The run -----

  /** The run so far has reached `nodes` with these attempts under way and this history, and nothing was lost. */
  ghost predicate Stands(w: World, t: Trace, nodes: Cluster, active: map<AttemptId, Attempt>, history: seq<Finished>) {
    && Sound(w) && Valid(w, t) && NothingLost(t)
    && Run(w, t).nodes == nodes && Run(w, t).active == active && Run(w, t).history == history
  }

  lemma LoopStands(w: World, t: Trace, nodes: Cluster, active: map<AttemptId, Attempt>, history: seq<Finished>,
                   id: AttemptId)
    returns (t': Trace, nodes': Cluster, a: Attempt)
    requires Stands(w, t, nodes, active, history) && id in active && active[id].stage != Returned
    ensures Elems(active[id].todo) <= nodes.Keys
    ensures nodes' == Phase(nodes, active[id].todo, NextCall(active[id]), active[id].stage, Everything())
    ensures a == Settle(LoopDone(nodes, active[id], Everything()))
    ensures Stands(w, t', nodes', active[id := a], history)
  {
    t' := LoopMoves(w, t, id, active[id], Everything());
    nodes' := Phase(nodes, active[id].todo, NextCall(active[id]), active[id].stage, Everything());
    a := Settle(LoopDone(nodes, active[id], Everything()));
  }

  /** Ping loop. */
  lemma Pings(w: World, t: Trace, nodes: Cluster, active: map<AttemptId, Attempt>, id: AttemptId, request: Request)
    returns (t': Trace, nodes': Cluster, a: Attempt)
    requires Stands(w, t, nodes, active, []) && id in active && Fresh(active[id], w.members, request)
    requires Quiet(nodes, w.members, request.key) && Unvoted(nodes, request.key)
    ensures Stands(w, t', nodes', active[id := a], []) && ReadyToPropose(a, w.members, request)
    ensures Quiet(nodes', w.members, request.key) && Unvoted(nodes', request.key)
  {
    t', nodes', a := LoopStands(w, t, nodes, active, [], id);
    PingsDone(nodes, w.members, active[id], request);
    PhaseQuiet(nodes, w.members, w.members, Ping, Pinging, request.key);
  }

  /** Propose loop. */
  lemma Proposes(w: World, t: Trace, nodes: Cluster, active: map<AttemptId, Attempt>, id: AttemptId, request: Request)
    returns (t': Trace, nodes': Cluster, a: Attempt)
    requires Stands(w, t, nodes, active, []) && id in active && ReadyToPropose(active[id], w.members, request)
    requires Quiet(nodes, w.members, request.key) && Unvoted(nodes, request.key) && w.members != []
    ensures Stands(w, t', nodes', active[id := a], []) && ReadyToAccept(a, w.members, request)
    ensures Quiet(nodes', w.members, request.key) && Unvoted(nodes', request.key)
  {
    t', nodes', a := LoopStands(w, t, nodes, active, [], id);
    ProposeLoopLeaves(nodes, w.members, active[id], request);
  }

  lemma ProposeLoopLeaves(nodes: Cluster, members: seq<NodeId>, a: Attempt, request: Request)
    requires ReadyToPropose(a, members, request) && members != []
    requires Quiet(nodes, members, request.key) && Unvoted(nodes, request.key)
    ensures ReadyToAccept(Settle(LoopDone(nodes, a, Everything())), members, request)
    ensures var nodes' := Phase(nodes, members, NextCall(a), Proposing, Everything());
            Quiet(nodes', members, request.key) && Unvoted(nodes', request.key)
  {
    ProposesDone(nodes, members, a, request);
    PhaseQuiet(nodes, members, members, NextCall(a), Proposing, request.key);
  }

  /** Both. */
  lemma PreparesAll(w: World, t: Trace, nodes: Cluster, active: map<AttemptId, Attempt>, id: AttemptId,
                    request: Request)
    returns (t': Trace, nodes': Cluster, a: Attempt)
    requires Stands(w, t, nodes, active, []) && id in active && Fresh(active[id], w.members, request)
    requires Quiet(nodes, w.members, request.key) && Unvoted(nodes, request.key)
    ensures Stands(w, t', nodes', active[id := a], []) && ReadyToAccept(a, w.members, request)
    ensures Quiet(nodes', w.members, request.key) && Unvoted(nodes', request.key)
  {
    var t1, n1, b := Pings(w, t, nodes, active, id, request);
    t', nodes', a := Proposes(w, t1, n1, active[id := b], id, request);
    PutTwice(active, id, b, a);
  }

  lemma PutTwice<K, V>(m: map<K, V>, k: K, v: V, v': V)
    ensures m[k := v][k := v'] == m[k := v']
  {
  }

  /** Two different keys and their values. */
  function Pair<K, V>(k: K, v: V, k': K, v': V): map<K, V> {
    map[k := v, k' := v']
  }

  lemma PairPuts<K, V>(k: K, v: V, k': K, v': V, u: V)
    requires k != k'
    ensures Pair(k, v, k', v')[k := u] == Pair(k, u, k', v') && Pair(k, v, k', v')[k' := u] == Pair(k, v, k', u)
    ensures k in Pair(k, v, k', v') && k' in Pair(k, v, k', v')
    ensures Pair(k, v, k', v')[k] == v && Pair(k, v, k', v')[k'] == v'
  {
  }

  lemma PairGrows<K, V>(k: K, v: V, k': K, v': V)
    requires k != k'
    ensures k' !in map[k := v] && map[k := v][k' := v'] == Pair(k, v, k', v')
  {
  }

  lemma PairShrinks<K, V>(k: K, v: V, k': K, v': V)
    requires k != k'
    ensures Pair(k, v, k', v') - {k} == map[k' := v'] && map[k' := v'] - {k'} == map[]
  {
  }

  /** Accept loop. */
  lemma VotesAll(w: World, t: Trace, nodes: Cluster, active: map<AttemptId, Attempt>, id: AttemptId, request: Request)
    returns (t': Trace, nodes': Cluster, a: Attempt)
    requires Stands(w, t, nodes, active, []) && id in active && ReadyToAccept(active[id], w.members, request)
    requires Quiet(nodes, w.members, request.key) && w.members != []
    ensures Stands(w, t', nodes', active[id := a], []) && ReadyToInform(a, w.members, request)
    ensures Quiet(nodes', w.members, request.key)
  {
    t', nodes', a := LoopStands(w, t, nodes, active, [], id);
    AcceptsDone(nodes, w.members, active[id], request);
    PhaseQuiet(nodes, w.members, active[id].todo, NextCall(active[id]), Accepting, request.key);
  }

  /** What is left of the success loop. */
  lemma InformsRest(w: World, t: Trace, nodes: Cluster, active: map<AttemptId, Attempt>, id: AttemptId,
                    todo: seq<NodeId>, request: Request)
    returns (t': Trace, nodes': Cluster, a: Attempt)
    requires Stands(w, t, nodes, active, []) && id in active && ReadyToInform(active[id], todo, request) && todo != []
    requires Quiet(nodes, w.members, request.key) && request.key != LEADER_KEY
    ensures Stands(w, t', nodes', active[id := a], []) && Over(a, request)
    ensures Quiet(nodes', w.members, request.key)
    ensures forall n :: n in nodes && n in todo ==>
              n in nodes' && Lookup(nodes'[n].kv, request.key) == Some(request.value)
    ensures forall n :: n in nodes && n !in todo ==> n in nodes' && nodes'[n] == nodes[n]
  {
    t', nodes', a := LoopStands(w, t, nodes, active, [], id);
    InformsDone(nodes, todo, active[id], request);
    PhaseQuiet(nodes, w.members, todo, Success(AcceptOf(request)), Informing, request.key);
    PhaseStores(nodes, w.members, todo, AcceptOf(request), request.key);
  }

  /** The first call of the success loop. */
  lemma InformsFirst(w: World, t: Trace, nodes: Cluster, active: map<AttemptId, Attempt>, id: AttemptId,
                     request: Request)
    returns (t': Trace, nodes': Cluster, a: Attempt)
    requires Stands(w, t, nodes, active, []) && id in active && ReadyToInform(active[id], w.members, request)
    requires Quiet(nodes, w.members, request.key) && |w.members| >= 2
    ensures Stands(w, t', nodes', active[id := a], []) && ReadyToInform(a, w.members[1..], request)
    ensures Quiet(nodes', w.members, request.key)
  {
    t', nodes', a := CallMoves(w, t, {}, id, active[id], Everything());
    FirstCall(nodes, w.members, active[id], request);
  }

  lemma FirstCall(nodes: Cluster, members: seq<NodeId>, a: Attempt, request: Request)
    requires ReadyToInform(a, members, request) && Quiet(nodes, members, request.key) && |members| >= 2
    requires members[0] in nodes
    ensures var (nodes', b) := CallStep(nodes, a, Delivered);
            ReadyToInform(b, members[1..], request) && Quiet(nodes', members, request.key)
  {
    ServeQuiet(nodes[members[0]], NextCall(a), request.key);
  }

  lemma Begins(w: World, t: Trace, nodes: Cluster, active: map<AttemptId, Attempt>, id: AttemptId, p: NodeId,
               request: Request)
    returns (t': Trace)
    requires Stands(w, t, nodes, active, []) && id !in active && p in nodes && id.key == request.key
    requires request.op == GET && NextRound(nodes[p], request.key) == 0
    ensures Stands(w, t', nodes, active[id := Begin(p, request, w.members, 0)], [])
  {
    t' := StartMoves(w, t, {}, id, p, request);
  }

  /** The result of an attempt that committed its own request. */
  function Answered(id: AttemptId, request: Request): Finished {
    Finished(id, request, true, Echo(AcceptOf(request)))
  }

  lemma Returns(w: World, t: Trace, nodes: Cluster, active: map<AttemptId, Attempt>, history: seq<Finished>,
                id: AttemptId, request: Request)
    returns (t': Trace)
    requires Stands(w, t, nodes, active, history) && id in active && Over(active[id], request) && request.op == GET
    ensures Stands(w, t', nodes, active - {id}, history + [Answered(id, request)])
  {
    t' := FinishMoves(w, t, {}, id);
    OverIsAnswered(nodes, id, active[id], request);
  }

  lemma OverIsAnswered(nodes: Cluster, id: AttemptId, a: Attempt, request: Request)
    requires Over(a, request) && request.op == GET
    ensures Concluded(nodes, a) == nodes && Finished(id, a.request, a.ok, a.acceptance) == Answered(id, request)
  {
  }

  // ----- Two at once -----

  /** Both attempts start, and each finishes its propose loop before the other sends an accept call. */
  lemma BothPropose(w: World, p: NodeId, key: string, v: string, u: string)
    returns (t: Trace, nodes: Cluster, a: Attempt, b: Attempt)
    requires Initial(w) && p in w.nodes && w.members != []
    ensures Stands(w, t, nodes, Pair(AttemptId(key, 0), a, AttemptId(key, 1), b), [])
    ensures ReadyToAccept(a, w.members, SetRequest(key, v)) && ReadyToAccept(b, w.members, SetRequest(key, u))
    ensures Quiet(nodes, w.members, key)
  {
    var i, j := AttemptId(key, 0), AttemptId(key, 1);
    var a0, b0 := Begin(p, SetRequest(key, v), w.members, 0), Begin(p, SetRequest(key, u), w.members, 0);
    var t1 := Begins(w, Begun, w.nodes, map[], i, p, SetRequest(key, v));
    PairGrows(i, a0, j, b0);
    var t2 := Begins(w, t1, w.nodes, map[i := a0], j, p, SetRequest(key, u));
    PairPuts(i, a0, j, b0, a0);
    t, nodes, a := PreparesAll(w, t2, w.nodes, Pair(i, a0, j, b0), i, SetRequest(key, v));
    PairPuts(i, a0, j, b0, a);
    PairPuts(i, a, j, b0, a);
    t, nodes, b := PreparesAll(w, t, nodes, Pair(i, a, j, b0), j, SetRequest(key, u));
    PairPuts(i, a, j, b0, b);
  }

  /** Then both go through their accept loops. */
  lemma BothVote(w: World, t0: Trace, n0: Cluster, a0: Attempt, b0: Attempt, key: string, v: string, u: string)
    returns (t: Trace, nodes: Cluster, a: Attempt, b: Attempt)
    requires Stands(w, t0, n0, Pair(AttemptId(key, 0), a0, AttemptId(key, 1), b0), [])
    requires ReadyToAccept(a0, w.members, SetRequest(key, v)) && ReadyToAccept(b0, w.members, SetRequest(key, u))
    requires Quiet(n0, w.members, key) && w.members != []
    ensures Stands(w, t, nodes, Pair(AttemptId(key, 0), a, AttemptId(key, 1), b), [])
    ensures ReadyToInform(a, w.members, SetRequest(key, v)) && ReadyToInform(b, w.members, SetRequest(key, u))
    ensures Quiet(nodes, w.members, key)
  {
    var i, j := AttemptId(key, 0), AttemptId(key, 1);
    PairPuts(i, a0, j, b0, a0);
    t, nodes, a := VotesAll(w, t0, n0, Pair(i, a0, j, b0), i, SetRequest(key, v));
    PairPuts(i, a0, j, b0, a);
    PairPuts(i, a, j, b0, a);
    t, nodes, b := VotesAll(w, t, nodes, Pair(i, a, j, b0), j, SetRequest(key, u));
    PairPuts(i, a, j, b0, b);
  }

  /** The first member stores the second value, every other member the first. */
  ghost predicate Diverged(nodes: Cluster, members: seq<NodeId>, key: string, v: string, u: string) {
    && members != [] && members[0] in nodes && Lookup(nodes[members[0]].kv, key) == Some(u)
    && forall n :: n in members[1..] ==> n in nodes && Lookup(nodes[n].kv, key) == Some(v)
  }

  /** The success calls: the first attempt informs the first member, then the second attempt informs everyone, then the
      first attempt informs the others. */
  lemma BothInform(w: World, t0: Trace, n0: Cluster, a0: Attempt, b0: Attempt, key: string, v: string, u: string)
    returns (t: Trace, nodes: Cluster, a: Attempt, b: Attempt)
    requires Stands(w, t0, n0, Pair(AttemptId(key, 0), a0, AttemptId(key, 1), b0), [])
    requires ReadyToInform(a0, w.members, SetRequest(key, v)) && ReadyToInform(b0, w.members, SetRequest(key, u))
    requires Quiet(n0, w.members, key) && |w.members| >= 2 && key != LEADER_KEY
    ensures Stands(w, t, nodes, Pair(AttemptId(key, 0), a, AttemptId(key, 1), b), [])
    ensures Over(a, SetRequest(key, v)) && Over(b, SetRequest(key, u)) && Diverged(nodes, w.members, key, v, u)
  {
    var i, j := AttemptId(key, 0), AttemptId(key, 1);
    PairPuts(i, a0, j, b0, a0);
    var t1, n1, a1 := InformsFirst(w, t0, n0, Pair(i, a0, j, b0), i, SetRequest(key, v));
    PairPuts(i, a0, j, b0, a1);
    PairPuts(i, a1, j, b0, a1);
    var t2, n2;
    t2, n2, b := InformsRest(w, t1, n1, Pair(i, a1, j, b0), j, w.members, SetRequest(key, u));
    PairPuts(i, a1, j, b0, b);
    PairPuts(i, a1, j, b, b);
    t, nodes, a := InformsRest(w, t2, n2, Pair(i, a1, j, b), i, w.members[1..], SetRequest(key, v));
    PairPuts(i, a1, j, b, a);
    InformedApart(n1, n2, nodes, w.members, key, v, u);
  }

  lemma InformedApart(n1: Cluster, n2: Cluster, nodes: Cluster, members: seq<NodeId>, key: string, v: string, u: string)
    requires Distinct(members) && |members| >= 2 && n1.Keys == n2.Keys == Elems(members)
    requires forall n :: n in n1 && n in members ==> Lookup(n2[n].kv, key) == Some(u)
    requires forall n :: n in n2 && n in members[1..] ==> n in nodes && Lookup(nodes[n].kv, key) == Some(v)
    requires forall n :: n in n2 && n !in members[1..] ==> n in nodes && nodes[n] == n2[n]
    ensures Diverged(nodes, members, key, v, u)
  {
    assert members[0] in Elems(members) && members[0] in n1;
    FirstIsAlone(members);
    forall n | n in members[1..] ensures n in nodes && Lookup(nodes[n].kv, key) == Some(v) {
      assert n in members && n in Elems(members);
    }
  }

  lemma FirstIsAlone(members: seq<NodeId>)
    requires Distinct(members) && members != []
    ensures members[0] !in members[1..]
  {
    var first, rest := members[0], Elems(members[1..]);
    ElemsSize(members[1..]);
    assert Elems(members) == {first} + rest;
    assert |{first} + rest| > |rest|;
    assert first in rest ==> {first} + rest == rest;
  }

  /** In every cluster of at least two replicas, two set calls for one key that overlap at one proposer can both return
      OK, with every single call answered, and leave two replicas with different values while nothing is running. */
  lemma OverlapDiverges(w: World, p: NodeId, key: string, v: string, u: string)
    returns (t: Trace)
    requires Initial(w) && p in w.nodes && |w.members| >= 2 && key != LEADER_KEY && v != u
    ensures Valid(w, t) && NothingLost(t) && Run(w, t).active == map[]
    ensures Run(w, t).history
            == [Answered(AttemptId(key, 0), SetRequest(key, v)), Answered(AttemptId(key, 1), SetRequest(key, u))]
    ensures Diverged(Run(w, t).nodes, w.members, key, v, u)
  {
    var nodes, a, b;
    t, nodes, a, b := BothPropose(w, p, key, v, u);
    t, nodes, a, b := BothVote(w, t, nodes, a, b, key, v, u);
    t, nodes, a, b := BothInform(w, t, nodes, a, b, key, v, u);
    t := BothEnd(w, t, nodes, a, b, key, v, u);
  }

  lemma OneByOne<T>(x: T, y: T)
    ensures [] + [x] + [y] == [x, y]
  {
  }

  lemma BothEnd(w: World, t0: Trace, nodes: Cluster, a: Attempt, b: Attempt, key: string, v: string, u: string)
    returns (t: Trace)
    requires Stands(w, t0, nodes, Pair(AttemptId(key, 0), a, AttemptId(key, 1), b), [])
    requires Over(a, SetRequest(key, v)) && Over(b, SetRequest(key, u))
    ensures Stands(w, t, nodes, map[],
                   [Answered(AttemptId(key, 0), SetRequest(key, v)), Answered(AttemptId(key, 1), SetRequest(key, u))])
  {
    var i, j := AttemptId(key, 0), AttemptId(key, 1);
    PairPuts(i, a, j, b, a);
    PairShrinks(i, a, j, b);
    t := Returns(w, t0, nodes, Pair(i, a, j, b), [], i, SetRequest(key, v));
    var f, g := Answered(i, SetRequest(key, v)), Answered(j, SetRequest(key, u));
    OneByOne(f, g);
    t := Returns(w, t, nodes, map[j := b], [] + [f], j, SetRequest(key, u));
  }
}
