/** The outcome of an attempt in a partitioned cluster: a set of replicas is reached by everything except that accept
    calls reach only some of them, and nobody else is reached at all. */
module Partitions {
  import opened Protocol
  import opened Quorum
  import opened Attempts
  import opened Cells
  import opened Phases
  import opened Outcomes
  import opened Accounts

  /** `reached` answers pings, proposes and success calls, `voters` answers accepts; all other calls are lost. */
  function Split(reached: set<NodeId>, voters: set<NodeId>): Oracle {
    (stage: Stage, n: NodeId) => if n in (if stage == Accepting then voters else reached) then Delivered else Lost
  }

  /** The replicas of the proposer's side, in member order. */
  function Side(members: seq<NodeId>, reached: set<NodeId>): seq<NodeId> {
    Live(members, Split(reached, {}))
  }

  lemma {:induction false} AnsweringSplit(targets: seq<NodeId>, reached: set<NodeId>, voters: set<NodeId>)
    ensures Answering(targets, Pinging, Split(reached, voters)) == Side(targets, reached)
  {
    if targets != [] {
      AnsweringSplit(targets[..|targets| - 1], reached, voters);
    }
  }

  lemma {:induction false} AnsweringAll(targets: seq<NodeId>, stage: Stage, oracle: Oracle)
    requires forall n :: n in targets ==> oracle(stage, n) == Delivered
    ensures Answering(targets, stage, oracle) == targets
  {
    if targets != [] {
      AnsweringAll(targets[..|targets| - 1], stage, oracle);
    }
  }

  lemma SideElems(members: seq<NodeId>, reached: set<NodeId>)
    ensures Elems(Side(members, reached)) == Elems(members) * reached
    ensures Distinct(members) ==> Distinct(Side(members, reached))
  {
    AnsweringElems(members, Pinging, Split(reached, {}));
    if Distinct(members) {
      AnsweringDistinct(members, Pinging, Split(reached, {}));
    }
  }

  /** Who answers which calls. */
  lemma SplitAnswers(members: seq<NodeId>, reached: set<NodeId>, voters: set<NodeId>)
    requires Distinct(members)
    ensures var side, o := Side(members, reached), Split(reached, voters);
            && Live(members, o) == side && Promisers(members, o) == side
            && |Voters(members, o)| == |Elems(side) * voters| && |side| == |Elems(members) * reached|
  {
    var side, o := Side(members, reached), Split(reached, voters);
    AnsweringSplit(members, reached, voters);
    SideElems(members, reached);
    assert forall n :: n in side ==> n in Elems(side);
    AnsweringAll(side, Proposing, o);
    AnsweringElems(side, Accepting, o);
    AnsweringDistinct(side, Accepting, o);
    assert Elems(Answering(side, Accepting, o)) == Elems(side) * voters;
  }

  /** The state after the propose, accept and success stages. */
  function SidePrepared(nodes: Cluster, side: seq<NodeId>, prepare: Request): Cluster {
    map n | n in nodes :: if n in side then ServePropose(nodes[n], prepare).0 else nodes[n]
  }

  function SideVoted(nodes: Cluster, side: seq<NodeId>, voters: set<NodeId>, q: Request): Cluster {
    map n | n in nodes :: if n in side && n in voters then ServeAccept(nodes[n], q).0 else nodes[n]
  }

  function SideInformed(nodes: Cluster, side: seq<NodeId>, q: Request): Cluster {
    map n | n in nodes :: if n in side then ServeSuccess(nodes[n], q).0 else nodes[n]
  }

  lemma SidePrepares(nodes: Cluster, side: seq<NodeId>, reached: set<NodeId>, voters: set<NodeId>, q: Request)
    requires forall n :: n in side ==> n in reached
    ensures Phase(nodes, side, Propose(q), Proposing, Split(reached, voters)) == SidePrepared(nodes, side, q)
  {
  }

  lemma SideVotes(nodes: Cluster, side: seq<NodeId>, reached: set<NodeId>, voters: set<NodeId>, q: Request)
    ensures Phase(nodes, side, Accept(q), Accepting, Split(reached, voters)) == SideVoted(nodes, side, voters, q)
  {
  }

  lemma SideHears(nodes: Cluster, members: seq<NodeId>, reached: set<NodeId>, voters: set<NodeId>, q: Request)
    requires Elems(members) == nodes.Keys
    ensures Phase(nodes, members, Success(q), Informing, Split(reached, voters))
            == SideInformed(nodes, Side(members, reached), q)
  {
    SideElems(members, reached);
    var side := Side(members, reached);
    assert forall n :: n in side <==> n in Elems(side);
    assert forall n :: n in nodes <==> n in Elems(members);
  }

  /** If the proposer's side is large enough, the attempt returns OK exactly when the voters among it are, and then it
      has committed on the whole side the value first accepted there, or the client's own value if there is none. The
      other replicas keep their state. */
  lemma PartitionOutcome(nodes: Cluster, members: seq<NodeId>, proposer: NodeId, request: Request,
                         reached: set<NodeId>, voters: set<NodeId>)
    returns (q: Request)
    requires Distinct(members) && nodes.Keys == Elems(members) && proposer in members
    requires !NoQuorum(|Elems(members) * reached|, |members|)
    requires AllKnown(nodes, request.key, NextRound(nodes[proposer], request.key))
    ensures Elems(Side(members, reached)) == Elems(members) * reached
    ensures Follows(q, nodes, Side(members, reached), request, NextRound(nodes[proposer], request.key))
    ensures var side := Side(members, reached);
            var round := NextRound(nodes[proposer], request.key);
            var (nodes', a) := RunAttempt(nodes, members, proposer, request, Split(reached, voters));
            var voted := SideVoted(SidePrepared(nodes, side, Prepare(request, round)), side, voters, q);
            && (a.ok <==> !NoQuorum(|Elems(side) * voters|, |members|))
            && (a.ok ==> a.acceptance == Echo(q) && nodes' == SideInformed(voted, side, q))
            && (!a.ok ==> nodes' == voted)
  {
    SplitAnswers(members, reached, voters);
    SideElems(members, reached);
    q := AttemptOutcome(nodes, members, proposer, request, Split(reached, voters));
    SplitPhases(nodes, members, reached, voters, Prepare(request, NextRound(nodes[proposer], request.key)), q);
  }

  lemma SplitPhases(nodes: Cluster, members: seq<NodeId>, reached: set<NodeId>, voters: set<NodeId>, prepare: Request,
                    q: Request)
    requires Distinct(members) && nodes.Keys == Elems(members)
    ensures var side, o := Side(members, reached), Split(reached, voters);
            var voted := SideVoted(SidePrepared(nodes, side, prepare), side, voters, q);
            && Balloted(nodes, members, prepare, q, o) == voted
            && Informed(nodes, members, prepare, q, o) == SideInformed(voted, side, q)
  {
    var side := Side(members, reached);
    SplitAnswers(members, reached, voters);
    SideElems(members, reached);
    assert forall n :: n in side ==> n in Elems(side);
    SidePrepares(nodes, side, reached, voters, prepare);
    var prepared := SidePrepared(nodes, side, prepare);
    SideVotes(prepared, side, reached, voters, q);
    SideHears(SideVoted(prepared, side, voters, q), members, reached, voters, q);
  }

  /** An attempt that reaches all of a large enough side, and nobody else, returns OK. It commits its own request if and
      only if nobody on the side has accepted anything at its round, and exactly the replicas of the side whose log has
      no higher round take the value over. */
  lemma SideOutcome(nodes: Cluster, members: seq<NodeId>, proposer: NodeId, request: Request, side: set<NodeId>)
    requires Distinct(members) && nodes.Keys == Elems(members) && proposer in members
    requires side <= Elems(members) && !NoQuorum(|side|, |members|)
    requires AllKnown(nodes, request.key, NextRound(nodes[proposer], request.key))
    ensures var key, round := request.key, NextRound(nodes[proposer], request.key);
            var (nodes', a) := RunAttempt(nodes, members, proposer, request, Split(side, side));
            && a.ok
            && (a.acceptance.aServerId == 0 <==>
                  forall n :: n in nodes && n in side ==> !Accepted(nodes[n], key, round))
            && (a.acceptance.aServerId == 0 ==>
                  a.acceptance.value == request.value && a.acceptance.op == request.op)
            && (forall n :: n in nodes ==> n in nodes')
            && (forall n :: n in nodes ==>
                  CellOf(nodes'[n], key).current
                  == if n in side && !Outdated(RoundsOf(nodes[n].log, key), round) then Some(a.acceptance.value)
                     else CellOf(nodes[n], key).current)
  {
    var o := Split(side, side);
    assert Elems(members) * side == side && side * side == side;
    var q := PartitionOutcome(nodes, members, proposer, request, side, side);
    OwnValueExactlyWhenUnaccepted(nodes, members, proposer, request, o);
    assert forall n :: n in side <==> n in nodes && o(Pinging, n) == Delivered && o(Proposing, n) == Delivered;
    forall n | n in nodes
      ensures var (nodes', a) := RunAttempt(nodes, members, proposer, request, o);
              n in nodes' && CellOf(nodes'[n], request.key).current
              == if n in side && !Outdated(RoundsOf(nodes[n].log, request.key), NextRound(nodes[proposer], request.key))
                 then Some(a.acceptance.value) else CellOf(nodes[n], request.key).current
    {
      OkOutcomeAtReplica(nodes, members, proposer, request, o, n);
    }
  }
}
