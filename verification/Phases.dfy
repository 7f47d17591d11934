/** An attempt that nothing interferes with, told without its loops: in each stage every replica that is called answers
    from the state it had when the stage began, and the proposer folds the list of answers. */
module Phases {
  import opened Protocol
  import opened Quorum
  import opened Attempts

  /** Every target serves the call, as far as its outcome lets it. */
  function Phase(nodes: Cluster, targets: seq<NodeId>, call: Call, stage: Stage, oracle: Oracle): Cluster {
    map n | n in nodes :: if n in targets then Transmit(nodes[n], call, oracle(stage, n)).0 else nodes[n]
  }

  function Replies(nodes: Cluster, targets: seq<NodeId>, call: Call, stage: Stage, oracle: Oracle)
    : (r: seq<Option<Reply>>)
    requires Elems(targets) <= nodes.Keys
    ensures |r| == |targets|
  {
    if targets == [] then []
    else
      assert Elems(targets[..|targets| - 1]) <= Elems(targets) && targets[|targets| - 1] in Elems(targets);
      Replies(nodes, targets[..|targets| - 1], call, stage, oracle)
      + [Transmit(nodes[targets[|targets| - 1]], call, oracle(stage, targets[|targets| - 1])).1]
  }

  /** The fold of one loop over a list of answers. */
  function AbsorbAll(a: Attempt, targets: seq<NodeId>, replies: seq<Option<Reply>>): (b: Attempt)
    requires |targets| == |replies|
    ensures b.stage == a.stage && b.todo == a.todo && b.members == a.members && b.request == a.request
    ensures b.round == a.round && b.ok == a.ok && b.proposer == a.proposer
    ensures a.stage != Pinging ==> b.live == a.live
    ensures a.stage != Proposing ==>
              b.promises == a.promises && b.acceptedId == a.acceptedId
              && b.acceptedValue == a.acceptedValue && b.acceptedOp == a.acceptedOp
    ensures a.stage != Accepting ==> b.acceptances == a.acceptances && b.acceptance == a.acceptance
  {
    if targets == [] then a
    else Absorb(AbsorbAll(a, targets[..|targets| - 1], replies[..|targets| - 1]),
                targets[|targets| - 1], replies[|targets| - 1])
  }

  /** The attempt after its current loop has called everyone. */
  function LoopDone(nodes: Cluster, a: Attempt, oracle: Oracle): Attempt
    requires a.stage != Returned && Elems(a.todo) <= nodes.Keys
  {
    AbsorbAll(a, a.todo, Replies(nodes, a.todo, NextCall(a), a.stage, oracle)).(todo := [])
  }

  lemma TodoIsHosted(nodes: Cluster, a: Attempt)
    requires Hosts(nodes, a) && a.stage != Returned
    ensures Elems(a.todo) <= nodes.Keys && Distinct(a.todo)
  {
    var over := if a.stage == Pinging || a.stage == Informing then a.members else a.live;
    assert Suffix(a.todo, over) && Elems(over) <= Elems(a.members);
    DistinctSuffix(a.todo, over);
  }

  lemma DistinctSuffix(t: seq<NodeId>, s: seq<NodeId>)
    requires Suffix(t, s) && Distinct(s)
    ensures Distinct(t) && Elems(t) <= Elems(s)
  {
    var k := |s| - |t|;
    ElemsSplit(s, k);
    ElemsSize(s[..k]);
    ElemsSize(t);
    assert s[k..] == t;
  }

  /** The state in the middle of a loop, after `k` calls. */
  function Midway(nodes: Cluster, a: Attempt, oracle: Oracle, k: nat): (Cluster, Attempt)
    requires a.stage != Returned && Elems(a.todo) <= nodes.Keys && k <= |a.todo|
  {
    var done := a.todo[..k];
    assert Elems(done) <= Elems(a.todo);
    (Phase(nodes, done, NextCall(a), a.stage, oracle),
     AbsorbAll(a, done, Replies(nodes, done, NextCall(a), a.stage, oracle)).(todo := a.todo[k..]))
  }

  lemma SameCall(a: Attempt, b: Attempt)
    requires a.stage != Returned && b.stage == a.stage && b.request == a.request && b.round == a.round
    requires a.stage == Accepting ==>
               b.acceptedId == a.acceptedId && b.acceptedValue == a.acceptedValue && b.acceptedOp == a.acceptedOp
    requires a.stage == Informing ==> b.acceptance == a.acceptance
    ensures NextCall(b) == NextCall(a)
  {
  }

  /** One more call brings the loop from one middle to the next. */
  lemma MidwayMore(nodes: Cluster, a: Attempt, oracle: Oracle, k: nat)
    requires a.stage != Returned && Elems(a.todo) <= nodes.Keys && Distinct(a.todo) && k < |a.todo|
    ensures a.todo[k] in Midway(nodes, a, oracle, k).0
    ensures var (nodes', b) := Midway(nodes, a, oracle, k);
            var answer := Transmit(nodes'[a.todo[k]], NextCall(a), oracle(a.stage, a.todo[k]));
            Midway(nodes, a, oracle, k + 1)
            == (nodes'[a.todo[k] := answer.0], Absorb(b, a.todo[k], answer.1).(todo := a.todo[k + 1..]))
  {
    var (nodes', b) := Midway(nodes, a, oracle, k);
    var n := a.todo[k];
    NotBefore(a.todo, k);
    assert n in Elems(a.todo);
    var done, more := a.todo[..k], a.todo[..k + 1];
    assert more[..k] == done && more[k] == n;
    assert nodes'[n] == nodes[n];
    var answer := Transmit(nodes[n], NextCall(a), oracle(a.stage, n));
    assert nodes'[n := answer.0] == Phase(nodes, more, NextCall(a), a.stage, oracle);
    var rs := Replies(nodes, more, NextCall(a), a.stage, oracle);
    assert rs[..k] == Replies(nodes, done, NextCall(a), a.stage, oracle) && rs[k] == answer.1;
    AbsorbIgnoresTodo(AbsorbAll(a, done, rs[..k]), n, answer.1, a.todo[k..]);
  }

  lemma MidwayStep(nodes: Cluster, a: Attempt, oracle: Oracle, k: nat)
    requires a.stage != Returned && Elems(a.todo) <= nodes.Keys && Distinct(a.todo) && k < |a.todo|
    ensures var (nodes', b) := Midway(nodes, a, oracle, k);
            && b.todo != [] && b.todo[0] in nodes' && b.stage == a.stage
            && var (nodes'', c) := CallStep(nodes', b, oracle(b.stage, b.todo[0]));
               nodes'' == Midway(nodes, a, oracle, k + 1).0 && c == Settle(Midway(nodes, a, oracle, k + 1).1)
  {
    MidwayMore(nodes, a, oracle, k);
    var b := Midway(nodes, a, oracle, k).1;
    SameCall(a, b);
    assert b.todo == a.todo[k..] && b.todo[0] == a.todo[k] && b.todo[1..] == a.todo[k + 1..];
  }

  lemma AbsorbIgnoresTodo(a: Attempt, n: NodeId, reply: Option<Reply>, todo: seq<NodeId>)
    ensures Absorb(a.(todo := todo), n, reply) == Absorb(a, n, reply).(todo := todo)
  {
  }

  lemma ExecuteStep(nodes: Cluster, a: Attempt, oracle: Oracle)
    requires Hosts(nodes, a) && a.stage != Returned
    ensures a.todo != [] && a.todo[0] in nodes
    ensures var (nodes', b) := CallStep(nodes, a, oracle(a.stage, a.todo[0]));
            Hosts(nodes', b) && Execute(nodes, a, oracle) == Execute(nodes', b, oracle)
  {
    CallStepHosts(nodes, a, oracle(a.stage, a.todo[0]));
  }

  ghost predicate SameRest(nodes: Cluster, a: Attempt, nodes': Cluster, b: Attempt, oracle: Oracle) {
    Hosts(nodes, a) && Hosts(nodes', b) && Execute(nodes', b, oracle) == Execute(nodes, a, oracle)
  }

  lemma MidwayNext(nodes: Cluster, a: Attempt, oracle: Oracle, k: nat)
    requires a.stage != Returned && Elems(a.todo) <= nodes.Keys && Distinct(a.todo) && k < |a.todo|
    requires SameRest(nodes, a, Midway(nodes, a, oracle, k).0, Midway(nodes, a, oracle, k).1, oracle)
    ensures SameRest(nodes, a, Midway(nodes, a, oracle, k + 1).0, Settle(Midway(nodes, a, oracle, k + 1).1), oracle)
  {
    MidwayStep(nodes, a, oracle, k);
    var (nodes', b) := Midway(nodes, a, oracle, k);
    ExecuteStep(nodes', b, oracle);
  }

  lemma MidwayStart(nodes: Cluster, a: Attempt, oracle: Oracle)
    requires a.stage != Returned && Elems(a.todo) <= nodes.Keys
    ensures Midway(nodes, a, oracle, 0) == (nodes, a)
  {
    assert a.todo[0..] == a.todo && a.todo[..0] == [];
    assert Phase(nodes, [], NextCall(a), a.stage, oracle) == nodes;
  }

  /** In the middle of a loop nothing is settled yet. */
  lemma MidwayWaits(nodes: Cluster, a: Attempt, oracle: Oracle, k: nat)
    requires a.stage != Returned && Elems(a.todo) <= nodes.Keys && k < |a.todo|
    ensures Settle(Midway(nodes, a, oracle, k).1) == Midway(nodes, a, oracle, k).1
  {
  }

  lemma MidwayGoesOn(nodes: Cluster, a: Attempt, oracle: Oracle, k: nat)
    requires a.stage != Returned && Elems(a.todo) <= nodes.Keys && Distinct(a.todo) && k + 1 < |a.todo|
    requires SameRest(nodes, a, Midway(nodes, a, oracle, k).0, Midway(nodes, a, oracle, k).1, oracle)
    ensures SameRest(nodes, a, Midway(nodes, a, oracle, k + 1).0, Midway(nodes, a, oracle, k + 1).1, oracle)
  {
    MidwayNext(nodes, a, oracle, k);
    MidwayWaits(nodes, a, oracle, k + 1);
  }

  lemma MidwayExecutes(nodes: Cluster, a: Attempt, oracle: Oracle, k: nat)
    requires Hosts(nodes, a) && a.stage != Returned && Elems(a.todo) <= nodes.Keys && Distinct(a.todo)
    requires k < |a.todo|
    ensures SameRest(nodes, a, Midway(nodes, a, oracle, k).0, Midway(nodes, a, oracle, k).1, oracle)
  {
    MidwayStart(nodes, a, oracle);
    for i := 0 to k
      invariant SameRest(nodes, a, Midway(nodes, a, oracle, i).0, Midway(nodes, a, oracle, i).1, oracle)
    {
      MidwayGoesOn(nodes, a, oracle, i);
    }
  }

  /** The loop form of a stage and its phase form lead to the same execution. */
  lemma PhaseExecutes(nodes: Cluster, a: Attempt, oracle: Oracle)
    requires Hosts(nodes, a) && a.stage != Returned
    ensures Elems(a.todo) <= nodes.Keys
    ensures SameRest(nodes, a, Phase(nodes, a.todo, NextCall(a), a.stage, oracle), Settle(LoopDone(nodes, a, oracle)),
                     oracle)
  {
    TodoIsHosted(nodes, a);
    MidwayExecutes(nodes, a, oracle, |a.todo| - 1);
    MidwayNext(nodes, a, oracle, |a.todo| - 1);
    MidwayEnds(nodes, a, oracle);
  }

  lemma MidwayEnds(nodes: Cluster, a: Attempt, oracle: Oracle)
    requires a.stage != Returned && Elems(a.todo) <= nodes.Keys
    ensures Midway(nodes, a, oracle, |a.todo|)
            == (Phase(nodes, a.todo, NextCall(a), a.stage, oracle), LoopDone(nodes, a, oracle))
  {
    assert a.todo[..|a.todo|] == a.todo && a.todo[|a.todo|..] == [];
  }

  // ----- What each loop gathers -----

  /** The targets, in order, that satisfy the outcome. */
  function Answering(targets: seq<NodeId>, stage: Stage, oracle: Oracle): seq<NodeId> {
    if targets == [] then []
    else
      var n := targets[|targets| - 1];
      Answering(targets[..|targets| - 1], stage, oracle) + (if oracle(stage, n) == Delivered then [n] else [])
  }

  lemma {:induction false} AnsweringElems(targets: seq<NodeId>, stage: Stage, oracle: Oracle)
    ensures Elems(Answering(targets, stage, oracle)) == set n | n in targets && oracle(stage, n) == Delivered
    ensures |Answering(targets, stage, oracle)| <= |targets|
  {
    if targets != [] {
      var front, n := targets[..|targets| - 1], targets[|targets| - 1];
      AnsweringElems(front, stage, oracle);
      assert targets == front + [n];
      assert Elems(Answering(targets, stage, oracle)) ==
             Elems(Answering(front, stage, oracle)) + (if oracle(stage, n) == Delivered then {n} else {});
    }
  }

  lemma {:induction false} AnsweringDistinct(targets: seq<NodeId>, stage: Stage, oracle: Oracle)
    requires Distinct(targets)
    ensures Distinct(Answering(targets, stage, oracle))
  {
    if targets != [] {
      var front, n := targets[..|targets| - 1], targets[|targets| - 1];
      NotBefore(targets, |targets| - 1);
      AnsweringDistinct(front, stage, oracle);
      AnsweringElems(front, stage, oracle);
      if oracle(stage, n) == Delivered {
        assert n !in Elems(Answering(front, stage, oracle));
        DistinctExtend(Answering(front, stage, oracle), n);
      } else {
        assert Answering(targets, stage, oracle) == Answering(front, stage, oracle);
      }
    }
  }

  lemma {:induction false} PingLoop(nodes: Cluster, a: Attempt, targets: seq<NodeId>, oracle: Oracle)
    requires a.stage == Pinging && Elems(targets) <= nodes.Keys
    ensures AbsorbAll(a, targets, Replies(nodes, targets, Ping, Pinging, oracle)).live
            == a.live + Answering(targets, Pinging, oracle)
  {
    if targets != [] {
      var front := targets[..|targets| - 1];
      assert Elems(front) <= Elems(targets);
      PingLoop(nodes, a, front, oracle);
      var rs := Replies(nodes, targets, Ping, Pinging, oracle);
      assert rs[..|front|] == Replies(nodes, front, Ping, Pinging, oracle);
    }
  }

  lemma {:induction false} AcceptLoop(nodes: Cluster, a: Attempt, targets: seq<NodeId>, q: Request, oracle: Oracle)
    requires a.stage == Accepting && Elems(targets) <= nodes.Keys && a.acceptances == 0
    ensures var b := AbsorbAll(a, targets, Replies(nodes, targets, Accept(q), Accepting, oracle));
            && b.acceptances == |Answering(targets, Accepting, oracle)|
            && (b.acceptances > 0 ==> b.acceptance == Echo(q))
  {
    if targets != [] {
      var front := targets[..|targets| - 1];
      assert Elems(front) <= Elems(targets);
      AcceptLoop(nodes, a, front, q, oracle);
      var rs := Replies(nodes, targets, Accept(q), Accepting, oracle);
      assert rs[..|front|] == Replies(nodes, front, Accept(q), Accepting, oracle);
    }
  }

  /** Whether answer `i` offers a value that was accepted before, and under which id. */
  function OfferedId(reply: Option<Reply>): int {
    if reply.Some? && reply.value.Ok? then reply.value.response.aServerId else 0
  }

  /** Answer `i` is the first OK one with the largest accepted id. */
  predicate BestOffer(replies: seq<Option<Reply>>, i: nat)
    requires i < |replies|
  {
    && OfferedId(replies[i]) > 0
    && (forall j :: 0 <= j < |replies| ==> OfferedId(replies[j]) <= OfferedId(replies[i]))
    && (forall j :: 0 <= j < i ==> OfferedId(replies[j]) < OfferedId(replies[i]))
  }

  /** The id, value and operation of the first OK answer with the largest accepted id, or nothing to adopt. */
  ghost predicate Adopts(b: Attempt, replies: seq<Option<Reply>>) {
    if b.acceptedId == 0 then
      forall j :: 0 <= j < |replies| ==> OfferedId(replies[j]) <= 0
    else
      exists i :: 0 <= i < |replies| && BestOffer(replies, i) && TakenFrom(b, replies[i])
  }

  predicate TakenFrom(b: Attempt, reply: Option<Reply>) {
    && OfferedId(reply) > 0
    && b.acceptedId == OfferedId(reply)
    && b.acceptedValue == reply.value.response.value
    && b.acceptedOp == reply.value.response.op
  }

  lemma AdoptsMore(b: Attempt, n: NodeId, front: seq<Option<Reply>>, reply: Option<Reply>)
    requires b.stage == Proposing && b.acceptedId >= 0 && Adopts(b, front)
    ensures Adopts(Absorb(b, n, reply), front + [reply])
  {
    var c, all := Absorb(b, n, reply), front + [reply];
    if OfferedId(reply) > b.acceptedId {
      assert BestOffer(all, |front|) by {
        if b.acceptedId != 0 {
          var i :| 0 <= i < |front| && BestOffer(front, i) && TakenFrom(b, front[i]);
        }
      }
      assert TakenFrom(c, all[|front|]);
    } else if b.acceptedId != 0 {
      var i :| 0 <= i < |front| && BestOffer(front, i) && TakenFrom(b, front[i]);
      assert BestOffer(all, i) && TakenFrom(c, all[i]);
    }
  }

  /** After any list of answers the propose loop has adopted the id, value and operation of the first OK answer with
      the largest accepted id, or nothing when no answer offers one. */
  lemma {:induction false} SelectionLoop(a: Attempt, targets: seq<NodeId>, replies: seq<Option<Reply>>)
    requires a.stage == Proposing && a.acceptedId == 0 && |targets| == |replies|
    ensures AbsorbAll(a, targets, replies).acceptedId >= 0
    ensures Adopts(AbsorbAll(a, targets, replies), replies)
  {
    if targets != [] {
      var k := |replies| - 1;
      SelectionLoop(a, targets[..k], replies[..k]);
      AdoptsMore(AbsorbAll(a, targets[..k], replies[..k]), targets[k], replies[..k], replies[k]);
      assert replies == replies[..k] + [replies[k]];
    }
  }

  predicate IsOk(reply: Option<Reply>) {
    reply.Some? && reply.value.Ok?
  }

  /** The propose loop counts the OK answers. */
  lemma {:induction false} PromiseCount(a: Attempt, targets: seq<NodeId>, replies: seq<Option<Reply>>)
    requires a.stage == Proposing && |targets| == |replies|
    ensures AbsorbAll(a, targets, replies).promises == a.promises + |Oks(replies)|
  {
    if targets != [] {
      var k := |replies| - 1;
      PromiseCount(a, targets[..k], replies[..k]);
      OksMore(replies);
    }
  }

  /** The places of the OK answers. */
  function Oks(replies: seq<Option<Reply>>): set<int> {
    set i | 0 <= i < |replies| && IsOk(replies[i])
  }

  lemma OksMore(replies: seq<Option<Reply>>)
    requires replies != []
    ensures var k := |replies| - 1;
            |Oks(replies)| == |Oks(replies[..k])| + (if IsOk(replies[k]) then 1 else 0)
  {
    var k := |replies| - 1;
    assert Oks(replies) == Oks(replies[..k]) + (if IsOk(replies[k]) then {k} else {});
  }
}
