/** A direct account of an undisturbed attempt: who answered which call decides the result, and which calls a replica
    served decides what it is left with. */
module Accounts {
  import opened Protocol
  import opened Quorum
  import opened Attempts
  import opened Cells
  import opened Phases
  import opened Outcomes
  import opened Handlers
  import opened Worlds
  import AnyRuns

  // ----- The result -----

  function Alive(members: seq<NodeId>, oracle: Oracle): set<NodeId> {
    set n | n in members && oracle(Pinging, n) == Delivered
  }

  function Promising(members: seq<NodeId>, oracle: Oracle): set<NodeId> {
    set n | n in members && oracle(Pinging, n) == Delivered && oracle(Proposing, n) == Delivered
  }

  function Agreeing(members: seq<NodeId>, oracle: Oracle): set<NodeId> {
    set n | n in members && oracle(Pinging, n) == Delivered && oracle(Accepting, n) == Delivered
  }

  /** At least half of the replicas answered the ping. */
  predicate GetsToPropose(members: seq<NodeId>, oracle: Oracle) {
    2 * |Alive(members, oracle)| >= |members|
  }

  /** At least half of them answered the propose call as well. */
  predicate GetsToAccept(members: seq<NodeId>, oracle: Oracle) {
    GetsToPropose(members, oracle) && 2 * |Promising(members, oracle)| >= |members|
  }

  /** And at least half the accept call. */
  predicate GetsToInform(members: seq<NodeId>, oracle: Oracle) {
    GetsToAccept(members, oracle) && 2 * |Agreeing(members, oracle)| >= |members|
  }

  lemma StagesCounted(members: seq<NodeId>, oracle: Oracle)
    requires Distinct(members)
    ensures Passes(|Live(members, oracle)|, members) <==> GetsToPropose(members, oracle)
    ensures Passes(|Promisers(members, oracle)|, members) <==> 2 * |Promising(members, oracle)| >= |members|
    ensures Passes(|Voters(members, oracle)|, members) <==> 2 * |Agreeing(members, oracle)| >= |members|
  {
    ReachedElems(members, oracle);
    PromisersDistinct(members, oracle);
    AnsweringDistinct(members, Pinging, oracle);
    AnsweringDistinct(Live(members, oracle), Accepting, oracle);
  }

  /** The result is OK if and only if at least half of the replicas answered in each of the three stages, counting for
      the last two only those that had answered the ping. */
  lemma OkExactly(nodes: Cluster, members: seq<NodeId>, proposer: NodeId, request: Request, oracle: Oracle)
    requires Distinct(members) && nodes.Keys == Elems(members) && proposer in members
    requires AllKnown(nodes, request.key, NextRound(nodes[proposer], request.key))
    ensures RunAttempt(nodes, members, proposer, request, oracle).1.ok <==> GetsToInform(members, oracle)
  {
    var q := AttemptOutcome(nodes, members, proposer, request, oracle);
    StagesCounted(members, oracle);
  }

  // ----- The value -----

  /** What the attempt asks its acceptors for: what it heard of first, or its own request. */
  predicate AsksFor(q: Request, request: Request, round: nat, heard: Option<LogEntry>) {
    && q.key == request.key && q.round == round && q.pServerId == 1
    && (heard.None? ==> q.value == request.value && q.op == request.op && q.aServerId == 0)
    && (heard.Some? ==>
          q.value == heard.value.acceptedValue && q.op == heard.value.op && q.aServerId == heard.value.aServerId)
  }

  lemma FollowsHeard(q: Request, nodes: Cluster, members: seq<NodeId>, request: Request, round: nat, oracle: Oracle)
    requires nodes.Keys == Elems(members) && Elems(Promisers(members, oracle)) <= nodes.Keys
    requires Follows(q, nodes, Promisers(members, oracle), request, round)
    ensures AsksFor(q, request, round, FirstHeard(nodes, members, request.key, round, oracle))
  {
    var side := Promisers(members, oracle);
    ReachedElems(members, oracle);
    NobodyHeard(nodes, members, request.key, round, oracle);
    if i :| 0 <= i < |side| && Leads(q, nodes, side, i) {
      var j := LedByFirst(q, nodes, members, i, round, oracle);
      FirstHeardIs(nodes, members, j, request.key, round, oracle);
    } else {
      assert forall n :: n in members && n in nodes && Heard(n, oracle) ==> n in Elems(side);
    }
  }

  // ----- One replica -----

  /** The calls of an attempt that a replica has served. */
  datatype Calls = Calls(prepared: bool, voted: bool, informed: bool)

  function CallsServed(members: seq<NodeId>, oracle: Oracle, n: NodeId): Calls {
    Calls(GetsToPropose(members, oracle) && oracle(Pinging, n) == Delivered && oracle(Proposing, n) != Lost,
          GetsToAccept(members, oracle) && oracle(Pinging, n) == Delivered && oracle(Accepting, n) != Lost,
          GetsToInform(members, oracle) && oracle(Informing, n) != Lost)
  }

  /** The log of a replica is left with an accepted entry if it served an accept or success call, else with the entry it
      had, or a blank one, if it served a propose call; store or leader change if it served a success call and knows of
      no higher round. */
  ghost predicate LeftWith(s: NodeState, s': NodeState, q: Request, calls: Calls) {
    var rounds := RoundsOf(s.log, q.key);
    var e := if calls.voted || calls.informed then LogEntry(0, 1, q.op, q.value)
             else if q.round in rounds then rounds[q.round]
             else LogEntry(0, 0, GET, "");
    var applies := calls.informed && forall r :: r in rounds ==> r <= q.round;
    && s'.log == (if calls == Calls(false, false, false) then s.log else s.log[q.key := rounds[q.round := e]])
    && s'.kv == (if applies && q.key != "leader" then s.kv[q.key := q.value] else s.kv)
    && s'.leader == (if applies && q.key == "leader" then q.value else s.leader)
  }

  lemma AfterPropose(s: NodeState, prepare: Request, q: Request, prepared: bool)
    requires prepare.key == q.key && prepare.round == q.round && KnownIds(s, q.key, q.round)
    ensures var s1 := if prepared then ServePropose(s, prepare).0 else s;
            LeftWith(s, s1, q, Calls(prepared, false, false)) && KnownIds(s1, q.key, q.round)
  {
    ProposeTells(s, prepare);
  }

  lemma AfterAccept(s: NodeState, s1: NodeState, q: Request, prepared: bool, voted: bool)
    requires LeftWith(s, s1, q, Calls(prepared, false, false)) && KnownIds(s1, q.key, q.round) && q.pServerId == 1
    ensures var s2 := if voted then ServeAccept(s1, q).0 else s1;
            LeftWith(s, s2, q, Calls(prepared, voted, false)) && KnownIds(s2, q.key, q.round)
  {
    AcceptTells(s1, q);
    var s2 := ServeAccept(s1, q).0;
    var e := LogEntry(0, 1, q.op, q.value);
    if voted && prepared {
      WritesOver(s.log, s1.log, s2.log, q.key, q.round, Logged(s1.log, q.key, q.round), e);
    }
  }

  lemma AfterSuccess(s: NodeState, s2: NodeState, q: Request, prepared: bool, voted: bool, informed: bool)
    requires LeftWith(s, s2, q, Calls(prepared, voted, false)) && KnownIds(s2, q.key, q.round) && q.pServerId == 1
    ensures LeftWith(s, if informed then ServeSuccess(s2, q).0 else s2, q, Calls(prepared, voted, informed))
  {
    SuccessTells(s2, q);
    var s3 := ServeSuccess(s2, q).0;
    var e := LogEntry(0, 1, q.op, q.value);
    if informed {
      OutdatedByOthers(RoundsOf(s.log, q.key), q.round, Logged(s2.log, q.key, q.round));
      if prepared || voted {
        WritesOver(s.log, s2.log, s3.log, q.key, q.round, Logged(s2.log, q.key, q.round), e);
      }
    }
  }

  /** What an attempt that ends at any stage leaves at a replica. */
  lemma OutcomeAtReplica(nodes: Cluster, members: seq<NodeId>, request: Request, round: nat, oracle: Oracle,
                         q: Request, nodes': Cluster, a: Attempt, n: NodeId)
    requires Outcomes.Outcomes(nodes, members, request, round, oracle, q, nodes', a) && Distinct(members)
    requires n in nodes && n in members && KnownIds(nodes[n], request.key, round)
    requires q.key == request.key && q.round == round && q.pServerId == 1
    ensures n in nodes' && LeftWith(nodes[n], nodes'[n], q, CallsServed(members, oracle, n))
  {
    var calls := CallsServed(members, oracle, n);
    var s, prepare := nodes[n], Prepare(request, round);
    StagesCounted(members, oracle);
    ReachedElems(members, oracle);
    assert n in Live(members, oracle) <==> n in Elems(Live(members, oracle));
    var s1 := if calls.prepared then ServePropose(s, prepare).0 else s;
    var s2 := if calls.voted then ServeAccept(s1, q).0 else s1;
    AfterPropose(s, prepare, q, calls.prepared);
    AfterAccept(s, s1, q, calls.prepared, calls.voted);
    AfterSuccess(s, s2, q, calls.prepared, calls.voted, calls.informed);
  }

  /** The complete account. For every fate of every call, and every replica: its log, store and leader name after the
      attempt, whether that returned OK or ABORTED, and the answer if it returned OK. */
  lemma AttemptAtReplica(nodes: Cluster, members: seq<NodeId>, proposer: NodeId, request: Request, oracle: Oracle,
                         n: NodeId)
    returns (q: Request)
    requires Distinct(members) && nodes.Keys == Elems(members) && proposer in members && n in nodes
    requires AllKnown(nodes, request.key, NextRound(nodes[proposer], request.key))
    ensures var round := NextRound(nodes[proposer], request.key);
            AsksFor(q, request, round, FirstHeard(nodes, members, request.key, round, oracle))
    ensures var (nodes', a) := RunAttempt(nodes, members, proposer, request, oracle);
            && n in nodes' && LeftWith(nodes[n], nodes'[n], q, CallsServed(members, oracle, n))
            && (a.ok <==> GetsToInform(members, oracle))
            && (a.ok ==> a.acceptance == Response(q.value, q.pServerId, q.aServerId, q.round, q.op))
  {
    var round := NextRound(nodes[proposer], request.key);
    var (nodes', a) := RunAttempt(nodes, members, proposer, request, oracle);
    q := AttemptOutcome(nodes, members, proposer, request, oracle);
    FollowsHeard(q, nodes, members, request, round, oracle);
    OkExactly(nodes, members, proposer, request, oracle);
    assert n in Elems(members);
    OutcomeAtReplica(nodes, members, request, round, oracle, q, nodes', a, n);
    StagesCounted(members, oracle);
  }

  /** A replica stores the committed value if and only if it served the success call and its log had no higher round;
      every replica that served the accept or the success call has the value in its log. */
  lemma OkOutcomeAtReplica(nodes: Cluster, members: seq<NodeId>, proposer: NodeId, request: Request, oracle: Oracle,
                           n: NodeId)
    requires Distinct(members) && nodes.Keys == Elems(members) && proposer in members && n in nodes
    requires AllKnown(nodes, request.key, NextRound(nodes[proposer], request.key))
    requires RunAttempt(nodes, members, proposer, request, oracle).1.ok
    ensures var key, round := request.key, NextRound(nodes[proposer], request.key);
            var (nodes', a) := RunAttempt(nodes, members, proposer, request, oracle);
            var voted := oracle(Pinging, n) == Delivered && oracle(Accepting, n) != Lost;
            && n in nodes'
            && CellOf(nodes'[n], key).current
               == (if oracle(Informing, n) != Lost && !Outdated(RoundsOf(nodes[n].log, key), round)
                   then Some(a.acceptance.value) else CellOf(nodes[n], key).current)
            && (voted || oracle(Informing, n) != Lost ==>
                  RoundsOf(nodes'[n].log, key)
                  == RoundsOf(nodes[n].log, key)[round := LogEntry(0, PROPOSE_ID, a.acceptance.op, a.acceptance.value)])
  {
    var q := AttemptAtReplica(nodes, members, proposer, request, oracle, n);
  }

  /** The account holds in every state that any run leads to. */
  lemma AnyStateIsAccounted(w: World, t: Trace, key: string, round: nat)
    requires Initial(w) && Valid(w, t)
    ensures AllKnown(Run(w, t).nodes, key, round)
  {
    forall n | n in Run(w, t).nodes ensures KnownIds(Run(w, t).nodes[n], key, round) {
      assert n in w.nodes;
      AnyRuns.NeverOutOfDate(w, t, n, key, round, Packet(n, Ping));
    }
  }
}
