/** An attempt that goes on while nothing else happens is a stretch of a run: in any run, for any outcome of its calls,
    and whatever other attempts are under way. If the run was faithful and the outcomes are, it stays faithful. */
module Stretches {
  import opened Protocol
  import opened Quorum
  import opened Attempts
  import opened Worlds
  import opened Phases
  import opened Refinement
  import opened Forwarding

  /** Faithful replicas answer pings and receive propose and success calls; accept calls may fail anywhere. */
  ghost predicate HonestOracle(oracle: Oracle, faithful: set<NodeId>) {
    forall n :: n in faithful ==>
      oracle(Pinging, n) == Delivered && oracle(Proposing, n) != Lost && oracle(Informing, n) != Lost
  }

  ghost predicate Reliable(oracle: Oracle) {
    forall stage, n :: oracle(stage, n) == Delivered
  }

  /** Every call is answered, nothing arrives late or twice, and no replica restarts or starts up. */
  predicate NothingLost(t: Trace) {
    t.Then? ==>
      && NothingLost(t.before)
      && (t.event.Start? || t.event.Finish? || (t.event.Step? && t.event.outcome == Delivered))
  }

  ghost predicate StaysTrusted(w: World, t: Trace, t': Trace, faithful: set<NodeId>) {
    Trusted(w, t, faithful) ==> Trusted(w, t', faithful)
  }

  lemma ValidThen(w: World, t: Trace, faithful: set<NodeId>, e: Event)
    requires Sound(w) && Valid(w, t) && Enabled(Run(w, t), e)
    ensures Valid(w, Then(t, e)) && Run(w, Then(t, e)) == Next(Run(w, t), e)
    ensures FaithfulEvent(Run(w, t), e, faithful) ==> StaysTrusted(w, t, Then(t, e), faithful)
  {
  }

  /** From `v` to `v'` only the attempt `id` has moved, to `a`, and left `nodes`. */
  ghost predicate Moved(v: World, v': World, id: AttemptId, nodes: Cluster, a: Attempt) {
    && v'.nodes == nodes
    && v'.active == v.active[id := a]
    && v'.history == v.history
  }

  lemma MovedOn(v: World, v': World, v'': World, id: AttemptId, nodes': Cluster, b: Attempt,
                nodes'': Cluster, c: Attempt)
    requires Moved(v, v', id, nodes', b) && Moved(v', v'', id, nodes'', c)
    ensures Moved(v, v'', id, nodes'', c)
  {
  }

  lemma StandsStill(v: World, id: AttemptId)
    requires id in v.active
    ensures Moved(v, v, id, v.nodes, v.active[id])
  {
  }

  ghost predicate StepsTo(v: World, e: Event, id: AttemptId, nodes: Cluster, b: Attempt) {
    Sound(v) && Enabled(v, e) && Moved(v, Next(v, e), id, nodes, b)
  }

  lemma StepMoves(v: World, id: AttemptId, a: Attempt, oracle: Oracle)
    returns (e: Event, nodes: Cluster, b: Attempt)
    requires Sound(v) && id in v.active && v.active[id] == a && a.stage != Returned
    ensures a.todo != [] && a.todo[0] in v.nodes && e == Step(id, oracle(a.stage, a.todo[0]))
    ensures CallStep(v.nodes, a, oracle(a.stage, a.todo[0])) == (nodes, b)
    ensures StepsTo(v, e, id, nodes, b)
  {
    StepReady(v, id);
    e := Step(id, oracle(a.stage, a.todo[0]));
    var moved := CallStep(v.nodes, a, oracle(a.stage, a.todo[0]));
    nodes, b := moved.0, moved.1;
    StepIsCall(v, id, oracle(a.stage, a.todo[0]));
  }

  lemma StepIsCall(v: World, id: AttemptId, outcome: Outcome)
    requires Sound(v) && Enabled(v, Step(id, outcome)) && v.active[id].todo != [] && v.active[id].todo[0] in v.nodes
    ensures var (nodes, b) := CallStep(v.nodes, v.active[id], outcome);
            Moved(v, Next(v, Step(id, outcome)), id, nodes, b)
  {
  }

  lemma StepIsHonest(v: World, id: AttemptId, oracle: Oracle, faithful: set<NodeId>)
    requires id in v.active && v.active[id].stage != Returned && v.active[id].todo != []
    ensures var a := v.active[id];
            HonestOracle(oracle, faithful) ==>
              FaithfulEvent(v, Step(id, oracle(a.stage, a.todo[0])), faithful)
  {
  }

  lemma JobIsHosted(w: World, id: AttemptId)
    requires Sound(w) && id in w.active
    ensures Hosts(w.nodes, w.active[id])
  {
    assert JobSound(id, w.active[id], w.members);
  }

  /** One call of the attempt. */
  lemma CallMoves(w: World, t: Trace, faithful: set<NodeId>, id: AttemptId, a: Attempt, oracle: Oracle)
    returns (t': Trace, nodes: Cluster, b: Attempt)
    requires Sound(w) && Valid(w, t) && id in Run(w, t).active && Run(w, t).active[id] == a && a.stage != Returned
    ensures Valid(w, t') && Moved(Run(w, t), Run(w, t'), id, nodes, b)
    ensures a.todo != [] && a.todo[0] in Run(w, t).nodes
    ensures CallStep(Run(w, t).nodes, a, oracle(a.stage, a.todo[0])) == (nodes, b)
    ensures HonestOracle(oracle, faithful) ==> StaysTrusted(w, t, t', faithful)
    ensures Reliable(oracle) && NothingLost(t) ==> NothingLost(t')
  {
    var e;
    e, nodes, b := StepMoves(Run(w, t), id, a, oracle);
    StepIsHonest(Run(w, t), id, oracle, faithful);
    ValidThen(w, t, faithful, e);
    t' := Then(t, e);
  }

  lemma StepDescends(nodes: Cluster, a: Attempt, oracle: Oracle)
    requires Hosts(nodes, a) && a.stage != Returned
    ensures a.todo != [] && a.todo[0] in nodes
    ensures var (nodes', b) := CallStep(nodes, a, oracle(a.stage, a.todo[0]));
            && Hosts(nodes', b) && Execute(nodes, a, oracle) == Execute(nodes', b, oracle)
            && (Rank(b) < Rank(a) || (Rank(b) == Rank(a) && |b.todo| < |a.todo|))
  {
    CallStepHosts(nodes, a, oracle(a.stage, a.todo[0]));
    ExecuteStep(nodes, a, oracle);
  }

  /** At any point of a run an attempt can go on alone to its end, as `Execute` says. */
  lemma {:induction false} ExecuteMoves(w: World, t: Trace, faithful: set<NodeId>, id: AttemptId, a: Attempt,
                                        oracle: Oracle)
    returns (t': Trace)
    requires Sound(w) && Valid(w, t) && id in Run(w, t).active && Run(w, t).active[id] == a
    ensures Hosts(Run(w, t).nodes, a) && Valid(w, t')
    ensures var (nodes, b) := Execute(Run(w, t).nodes, a, oracle); Moved(Run(w, t), Run(w, t'), id, nodes, b)
    ensures HonestOracle(oracle, faithful) ==> StaysTrusted(w, t, t', faithful)
    decreases Rank(a), |a.todo|
  {
    var v := Run(w, t);
    JobIsHosted(v, id);
    if a.stage == Returned {
      t' := t;
      StandsStill(v, id);
    } else {
      var t1, nodes1, b := CallMoves(w, t, faithful, id, a, oracle);
      StepDescends(v.nodes, a, oracle);
      t' := ExecuteMoves(w, t1, faithful, id, b, oracle);
      var (nodes2, c) := Execute(nodes1, b, oracle);
      MovedOn(v, Run(w, t1), Run(w, t'), id, nodes1, b, nodes2, c);
    }
  }

  // ----- One loop -----

  /** The attempt has made the first `k` calls of the loop that it was about to begin in `v`. */
  ghost predicate InLoop(v: World, v': World, id: AttemptId, a: Attempt, oracle: Oracle, k: nat) {
    && a.stage != Returned && Elems(a.todo) <= v.nodes.Keys && k <= |a.todo|
    && Moved(v, v', id, Midway(v.nodes, a, oracle, k).0, Settle(Midway(v.nodes, a, oracle, k).1))
  }

  /** At any point of a run an attempt can go on alone to the end of its current loop. */
  lemma LoopMoves(w: World, t: Trace, id: AttemptId, a: Attempt, oracle: Oracle) returns (t': Trace)
    requires Sound(w) && Valid(w, t) && id in Run(w, t).active && Run(w, t).active[id] == a && a.stage != Returned
    ensures Elems(a.todo) <= Run(w, t).nodes.Keys && Valid(w, t')
    ensures Moved(Run(w, t), Run(w, t'), id, Phase(Run(w, t).nodes, a.todo, NextCall(a), a.stage, oracle),
                  Settle(LoopDone(Run(w, t).nodes, a, oracle)))
    ensures Reliable(oracle) && NothingLost(t) ==> NothingLost(t')
  {
    LoopBegins(Run(w, t), id, a, oracle);
    t' := t;
    for k := 0 to |a.todo|
      invariant Valid(w, t') && InLoop(Run(w, t), Run(w, t'), id, a, oracle, k)
      invariant Reliable(oracle) && NothingLost(t) ==> NothingLost(t')
    {
      t' := MidwayMoves(w, t, t', id, a, oracle, k);
    }
    LoopEnds(Run(w, t), Run(w, t'), id, a, oracle);
  }

  lemma LoopBegins(v: World, id: AttemptId, a: Attempt, oracle: Oracle)
    requires Sound(v) && id in v.active && v.active[id] == a && a.stage != Returned
    ensures Elems(a.todo) <= v.nodes.Keys && Distinct(a.todo) && InLoop(v, v, id, a, oracle, 0)
  {
    StepReady(v, id);
    JobIsHosted(v, id);
    TodoIsHosted(v.nodes, a);
    MidwayStart(v.nodes, a, oracle);
    StandsStill(v, id);
  }

  lemma LoopEnds(v: World, v': World, id: AttemptId, a: Attempt, oracle: Oracle)
    requires InLoop(v, v', id, a, oracle, |a.todo|)
    ensures Moved(v, v', id, Phase(v.nodes, a.todo, NextCall(a), a.stage, oracle), Settle(LoopDone(v.nodes, a, oracle)))
  {
    MidwayEnds(v.nodes, a, oracle);
  }

  lemma MidwayMoves(w: World, t: Trace, t1: Trace, id: AttemptId, a: Attempt, oracle: Oracle, k: nat)
    returns (t': Trace)
    requires Sound(w) && Valid(w, t) && Valid(w, t1) && a.stage != Returned
    requires Elems(a.todo) <= Run(w, t).nodes.Keys && Distinct(a.todo) && k < |a.todo|
    requires InLoop(Run(w, t), Run(w, t1), id, a, oracle, k)
    ensures Valid(w, t') && InLoop(Run(w, t), Run(w, t'), id, a, oracle, k + 1)
    ensures Reliable(oracle) && NothingLost(t1) ==> NothingLost(t')
  {
    var (nodes, b) := Midway(Run(w, t).nodes, a, oracle, k);
    MidwayWaits(Run(w, t).nodes, a, oracle, k);
    MidwayStep(Run(w, t).nodes, a, oracle, k);
    var nodes', c;
    t', nodes', c := CallMoves(w, t1, {}, id, b, oracle);
    MovedOn(Run(w, t), Run(w, t1), Run(w, t'), id, nodes, b, nodes', c);
  }

  // ----- A whole attempt -----

  lemma StartMoves(w: World, t: Trace, faithful: set<NodeId>, id: AttemptId, proposer: NodeId, request: Request)
    returns (t': Trace)
    requires Sound(w) && Valid(w, t) && proposer in Run(w, t).nodes && id !in Run(w, t).active
    requires id.key == request.key && Admissible(request)
    ensures Valid(w, t')
    ensures var v := Run(w, t);
            var a := Begin(proposer, request, w.members, NextRound(v.nodes[proposer], request.key));
            Moved(v, Run(w, t'), id, v.nodes, a)
    ensures proposer in faithful && Idle(Run(w, t), request.key) ==> StaysTrusted(w, t, t', faithful)
    ensures NothingLost(t) ==> NothingLost(t')
  {
    var e := Start(id, proposer, request);
    ValidThen(w, t, faithful, e);
    t' := Then(t, e);
  }

  /** An OK election leaves its winner's name at the proposer in any case. */
  function Concluded(nodes: Cluster, a: Attempt): Cluster {
    if Elects(a) && a.proposer in nodes then nodes[a.proposer := nodes[a.proposer].(leader := a.acceptance.value)]
    else nodes
  }

  /** From `v` to `v'` the attempt `id` has returned its result to the caller. */
  ghost predicate Ended(v: World, v': World, id: AttemptId, nodes: Cluster, a: Attempt) {
    && v'.nodes == Concluded(nodes, a)
    && v'.active == v.active - {id}
    && v'.history == v.history + [Finished(id, a.request, a.ok, a.acceptance)]
  }

  lemma FinishMoves(w: World, t: Trace, faithful: set<NodeId>, id: AttemptId) returns (t': Trace)
    requires Sound(w) && Valid(w, t) && id in Run(w, t).active && Run(w, t).active[id].stage == Returned
    ensures Valid(w, t') && Ended(Run(w, t), Run(w, t'), id, Run(w, t).nodes, Run(w, t).active[id])
    ensures StaysTrusted(w, t, t', faithful)
    ensures NothingLost(t) ==> NothingLost(t')
  {
    ProposerIsNode(Run(w, t), id);
    ValidThen(w, t, faithful, Finish(id));
    t' := Then(t, Finish(id));
  }

  /** From `v` to `v'` a whole attempt was made, from its start to its finish. */
  ghost predicate Concludes(v: World, v': World, id: AttemptId, request: Request, nodes: Cluster, a: Attempt) {
    && v'.nodes == Concluded(nodes, a) && v'.active == v.active
    && v'.history == v.history + [Finished(id, request, a.ok, a.acceptance)]
  }

  lemma MovesConclude(v: World, v1: World, v2: World, v': World, id: AttemptId, b: Attempt, nodes: Cluster, a: Attempt)
    requires id !in v.active && Moved(v, v1, id, v.nodes, b) && Moved(v1, v2, id, nodes, a)
             && Ended(v2, v', id, nodes, a)
    ensures Concludes(v, v', id, a.request, nodes, a)
  {
    assert v.active[id := b][id := a] - {id} == v.active;
  }

  lemma AttemptedIs(nodes: Cluster, members: seq<NodeId>, l: NodeId, request: Request, oracle: Oracle)
    requires Clustered(nodes, members) && l in nodes
    ensures var b := Begin(l, request, members, NextRound(nodes[l], request.key));
            Hosts(nodes, b) && Attempted(nodes, members, l, request, oracle) == Execute(nodes, b, oracle)
  {
    assert l in Elems(members);
    BeginWellformed(l, request, members, NextRound(nodes[l], request.key));
  }

  /** At any point of a run any replica can make a whole attempt while everything else waits. */
  lemma AttemptMoves(w: World, t: Trace, faithful: set<NodeId>, id: AttemptId, l: NodeId, request: Request,
                     oracle: Oracle)
    returns (t': Trace)
    requires Sound(w) && Valid(w, t) && l in Run(w, t).nodes && id !in Run(w, t).active
    requires id.key == request.key && Admissible(request)
    ensures Clustered(Run(w, t).nodes, w.members) && Valid(w, t')
    ensures var (nodes, a) := Attempted(Run(w, t).nodes, w.members, l, request, oracle);
            Concludes(Run(w, t), Run(w, t'), id, request, nodes, a)
    ensures l in faithful && Idle(Run(w, t), request.key) && HonestOracle(oracle, faithful) ==>
              StaysTrusted(w, t, t', faithful)
  {
    var v := Run(w, t);
    AttemptedIs(v.nodes, w.members, l, request, oracle);
    var b := Begin(l, request, w.members, NextRound(v.nodes[l], request.key));
    var t1 := StartMoves(w, t, faithful, id, l, request);
    t' := StartedMoves(w, t, t1, faithful, id, b, oracle);
  }

  lemma StartedMoves(w: World, t: Trace, t1: Trace, faithful: set<NodeId>, id: AttemptId, b: Attempt, oracle: Oracle)
    returns (t': Trace)
    requires Sound(w) && Valid(w, t) && Valid(w, t1) && id !in Run(w, t).active
    requires Moved(Run(w, t), Run(w, t1), id, Run(w, t).nodes, b) && Hosts(Run(w, t).nodes, b)
    ensures Valid(w, t')
    ensures var (nodes, a) := Execute(Run(w, t).nodes, b, oracle);
            Concludes(Run(w, t), Run(w, t'), id, b.request, nodes, a)
    ensures HonestOracle(oracle, faithful) ==> StaysTrusted(w, t1, t', faithful)
  {
    var t2 := ExecuteMoves(w, t1, faithful, id, b, oracle);
    t' := FinishMoves(w, t2, faithful, id);
    var (nodes, a) := Execute(Run(w, t).nodes, b, oracle);
    MovesConclude(Run(w, t), Run(w, t1), Run(w, t2), Run(w, t'), id, b, nodes, a);
  }
}
