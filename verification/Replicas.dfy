/** The replicas as the program has them: objects whose log, store and leader name change in place, handlers that work
    on them step by step, and the proposer as a method with its four loops. Every method is tied to the functions of
    `Protocol` and `Attempts`, so what is proved about those holds of it. */
module Replicas {
  import opened Protocol
  import opened Quorum
  import opened Attempts
  import opened Phases

  /** The smallest value of a 32-bit integer, below every round. */
  const INT_MIN: int := -0x8000_0000

  // ----- Steps inside one entry -----

  function Amended(log: map<string, Rounds>, key: string, round: nat, e: LogEntry): map<string, Rounds> {
    log[key := RoundsOf(log, key)[round := e]]
  }

  lemma AmendedTwice(log: map<string, Rounds>, key: string, round: nat, e: LogEntry, e': LogEntry)
    ensures Amended(Amended(log, key, round, e), key, round, e') == Amended(log, key, round, e')
    ensures EntryAt(RoundsOf(Amended(log, key, round, e), key), round) == e
  {
    var l := Amended(log, key, round, e);
    assert RoundsOf(l, key)[round := e'] == RoundsOf(log, key)[round := e'];
  }

  lemma OnePairMore(kv: map<string, string>, snapshot: map<string, string>, rest: set<string>, key: string)
    requires key in rest && rest <= snapshot.Keys
    ensures kv + (snapshot - (rest - {key})) == (kv + (snapshot - rest))[key := snapshot[key]]
  {
  }

  class Node {
    var log: map<string, Rounds>
    var kv: map<string, string>
    var leader: string
    ghost var applied: map<string, nat>

    ghost function State(): NodeState
      reads this
    {
      NodeState(log, kv, leader, applied)
    }

    constructor ()
      ensures State() == BLANK_NODE
    {
      log, kv, leader, applied := map[], map[], "", map[];
    }

    // ----- The log -----

    method TouchLog(key: string, round: nat)
      modifies this`log
      ensures State() == old(State()).(log := old(log)[key := Touched(RoundsOf(old(log), key), round)])
    {
      log := log[key := Touched(RoundsOf(log, key), round)];
    }

    /** Three assignments to fields of one entry; each access to a missing entry inserts a blank one. */
    method RecordLog(key: string, round: nat, aServer: int, op: Operation, value: string)
      modifies this`log
      ensures State() == old(State()).(
                log := old(log)[key := Recorded(RoundsOf(old(log), key), round, aServer, op, value)])
    {
      ghost var e := EntryAt(RoundsOf(log, key), round);
      SetEntry(key, round, ReadAt(key, round).(aServerId := aServer));
      SetEntry(key, round, ReadAt(key, round).(op := op));
      SetEntry(key, round, ReadAt(key, round).(acceptedValue := value));
      AmendedTwice(old(log), key, round, e.(aServerId := aServer), e.(aServerId := aServer, op := op));
      AmendedTwice(old(log), key, round, e.(aServerId := aServer, op := op),
                   e.(aServerId := aServer, op := op, acceptedValue := value));
    }

    function ReadAt(key: string, round: nat): LogEntry
      reads this
    {
      EntryAt(RoundsOf(log, key), round)
    }

    method SetEntry(key: string, round: nat, e: LogEntry)
      modifies this`log
      ensures State() == old(State()).(log := Amended(old(log), key, round, e))
    {
      log := log[key := RoundsOf(log, key)[round := e]];
    }

    method ReadEntry(key: string, round: nat) returns (e: LogEntry)
      modifies this`log
      ensures State() == old(State()).(log := old(log)[key := Touched(RoundsOf(old(log), key), round)])
      ensures e == EntryAt(RoundsOf(old(log), key), round)
    {
      TouchLog(key, round);
      e := log[key][round];
    }

    method ReadRounds(key: string) returns (rounds: Rounds)
      modifies this`log
      ensures State() == old(State()).(log := old(log)[key := RoundsOf(old(log), key)])
      ensures rounds == RoundsOf(old(log), key)
    {
      log := log[key := RoundsOf(log, key)];
      rounds := log[key];
    }

    // ----- The store -----

    /** The value and 0, or an empty value and 1 when there is none. */
    method GetKV(key: string) returns (value: string, error: int)
      ensures error == 1 <==> key !in kv
      ensures error == 0 <==> key in kv
      ensures value == if key in kv then kv[key] else ""
    {
      if key !in kv {
        return "", 1;
      }
      return kv[key], 0;
    }

    method SetKV(key: string, value: string)
      modifies this`kv
      ensures State() == old(State()).(kv := old(kv)[key := value])
    {
      kv := kv[key := value];
    }

    method GetDB() returns (db: map<string, string>)
      ensures db == kv
    {
      db := kv;
    }

    // ----- The handlers -----

    method Propose(q: Request) returns (reply: Reply)
      modifies this`log
      ensures (State(), reply) == ServePropose(old(State()), q)
    {
      TouchLog(q.key, q.round);
      var e := ReadEntry(q.key, q.round);
      AmendedTwice(old(log), q.key, q.round, e, e);
      if e.pServerId > q.pServerId {
        return Aborted;
      }
      var response := BLANK_RESPONSE;
      if e.aServerId > 0 {
        response := response.(aServerId := e.aServerId);
        response := response.(op := e.op);
        response := response.(value := e.acceptedValue);
        return Ok(response);
      }
      response := response.(round := q.round);
      response := response.(pServerId := q.pServerId);
      return Ok(response);
    }

    method Accept(q: Request) returns (reply: Reply)
      modifies this`log
      ensures (State(), reply) == ServeAccept(old(State()), q)
    {
      var e := ReadEntry(q.key, q.round);
      var response := BLANK_RESPONSE.(op := q.op, value := q.value, pServerId := q.pServerId,
                                      aServerId := q.aServerId, round := q.round);
      RecordLog(q.key, q.round, q.pServerId, q.op, q.value);
      AmendedTwice(old(log), q.key, q.round, e, LogEntry(e.pServerId, q.pServerId, q.op, q.value));
      return Ok(response);
    }

    /** The largest round of the log, or `INT_MIN` when there is none. */
    static method LargestRound(rounds: Rounds) returns (largest: int)
      ensures forall r :: r in rounds ==> r <= largest
      ensures if rounds == map[] then largest == INT_MIN else largest in rounds.Keys
    {
      largest := INT_MIN;
      var rest := rounds.Keys;
      while rest != {}
        invariant rest <= rounds.Keys
        invariant forall r :: r in rounds && r !in rest ==> r <= largest
        invariant if rest == rounds.Keys then largest == INT_MIN else largest in rounds.Keys
        decreases |rest|
      {
        var r: nat :| r in rest;
        largest := if largest < r then r else largest;
        rest := rest - {r};
      }
    }

    method Success(q: Request) returns (reply: Reply)
      modifies this
      ensures (State(), reply) == ServeSuccess(old(State()), q)
    {
      RecordLog(q.key, q.round, q.pServerId, q.op, q.value);
      var rounds := ReadRounds(q.key);
      assert log == old(log)[q.key := rounds];
      var largest := LargestRound(rounds);
      if largest > q.round {
        return Aborted;
      }
      if q.key == LEADER_KEY {
        leader := q.value;
      } else {
        SetKV(q.key, q.value);
      }
      applied := applied[q.key := q.round];
      return Ok(BLANK_RESPONSE);
    }

    method Dispatch(call: Call) returns (reply: Reply)
      modifies this
      ensures (State(), reply) == Serve(old(State()), call)
    {
      match call
      case Ping => reply := Ok(BLANK_RESPONSE);
      case Propose(q) => reply := Propose(q);
      case Accept(q) => reply := Accept(q);
      case Success(q) => reply := Success(q);
    }

    /** A remote call to this replica, as its caller sees it. */
    method Respond(call: Call, outcome: Outcome) returns (reply: Option<Reply>)
      modifies this
      ensures (State(), reply) == Transmit(old(State()), call, outcome)
    {
      if outcome == Lost {
        return None;
      }
      var r := Dispatch(call);
      reply := if outcome == Delivered then Some(r) else None;
    }

    // ----- Start-up -----

    /** Every pair of the snapshot is written over the store, one by one. */
    method Recover(snapshot: map<string, string>)
      modifies this`kv, this`applied
      ensures State() == Recovered(old(State()), snapshot)
    {
      var rest := snapshot.Keys;
      while rest != {}
        invariant rest <= snapshot.Keys
        invariant kv == old(kv) + (snapshot - rest)
        invariant State() == old(State()).(kv := kv)
        decreases |rest|
      {
        var key :| key in rest;
        OnePairMore(old(kv), snapshot, rest, key);
        SetKV(key, snapshot[key]);
        rest := rest - {key};
      }
      assert snapshot - {} == snapshot;
      applied := applied - snapshot.Keys;
    }
  }

  type Nodes = map<NodeId, Node>

  /** Each replica is an object of its own. */
  ghost predicate Apart(cluster: Nodes) {
    forall n, m :: n in cluster && m in cluster && cluster[n] == cluster[m] ==> n == m
  }

  ghost function States(cluster: Nodes): Cluster
    reads cluster.Values
  {
    map n | n in cluster :: cluster[n].State()
  }

  method CallNode(cluster: Nodes, n: NodeId, call: Call, outcome: Outcome) returns (reply: Option<Reply>)
    requires Apart(cluster) && n in cluster
    modifies cluster[n]
    ensures States(cluster) == old(States(cluster))[n := Transmit(old(States(cluster))[n], call, outcome).0]
    ensures reply == Transmit(old(States(cluster))[n], call, outcome).1
  {
    reply := cluster[n].Respond(call, outcome);
  }

  // ----- The proposer -----

  /** The ping loop: on return `a` has been through it. */
  method PingAll(members: seq<NodeId>, cluster: Nodes, oracle: Oracle, ghost a: Attempt)
    returns (liveNodes: seq<NodeId>)
    requires Apart(cluster) && Elems(members) <= cluster.Keys && Distinct(members)
    requires a.stage == Pinging && a.todo == members && a.live == []
    modifies cluster.Values
    ensures (States(cluster), a.(todo := [], live := liveNodes)) == Midway(old(States(cluster)), a, oracle, |members|)
  {
    liveNodes := [];
    ghost var nodes := States(cluster);
    MidwayStart(nodes, a, oracle);
    for i := 0 to |members|
      invariant (States(cluster), a.(todo := members[i..], live := liveNodes)) == Midway(nodes, a, oracle, i)
    {
      MidwayMore(nodes, a, oracle, i);
      var res := CallNode(cluster, members[i], Call.Ping, oracle(Pinging, members[i]));
      if IsOk(res) {
        liveNodes := liveNodes + [members[i]];
      }
    }
    assert members[|members|..] == [];
  }

  /** The attempt `a` with the variables of the propose loop set. */
  function Promised(a: Attempt, todo: seq<NodeId>, promises: nat, id: int, value: string, op: Operation): Attempt {
    a.(todo := todo, promises := promises, acceptedId := id, acceptedValue := value, acceptedOp := op)
  }

  lemma OneMorePromise(a: Attempt, todo: seq<NodeId>, todo': seq<NodeId>, n: NodeId, reply: Option<Reply>,
                       promises: nat, id: int, value: string, op: Operation)
    requires a.stage == Proposing
    ensures Absorb(Promised(a, todo, promises, id, value, op), n, reply).(todo := todo') ==
            if !IsOk(reply) then Promised(a, todo', promises, id, value, op)
            else
              var r := reply.value.response;
              if r.aServerId > id then Promised(a, todo', promises + 1, r.aServerId, r.value, r.op)
              else Promised(a, todo', promises + 1, id, value, op)
  {
  }

  /** The propose loop, with the selection of an accepted value. */
  method ProposeAll(liveNodes: seq<NodeId>, prepareRequest: Request, cluster: Nodes, oracle: Oracle, ghost a: Attempt)
    returns (numAcceptedProposals: nat, acceptedId: int, acceptedValue: string, acceptedOp: Operation)
    requires Apart(cluster) && Elems(liveNodes) <= cluster.Keys && Distinct(liveNodes)
    requires a.stage == Proposing && a.todo == liveNodes && NextCall(a) == Call.Propose(prepareRequest)
    requires a.promises == 0 && a.acceptedId == 0 && a.acceptedValue == "" && a.acceptedOp == NOT_SET
    modifies cluster.Values
    ensures (States(cluster), Promised(a, [], numAcceptedProposals, acceptedId, acceptedValue, acceptedOp))
            == Midway(old(States(cluster)), a, oracle, |liveNodes|)
  {
    numAcceptedProposals, acceptedId, acceptedValue, acceptedOp := 0, 0, "", NOT_SET;
    ghost var nodes := States(cluster);
    ghost var m := a;
    MidwayStart(nodes, a, oracle);
    for i := 0 to |liveNodes|
      invariant (States(cluster), m) == Midway(nodes, a, oracle, i)
      invariant m == Promised(a, liveNodes[i..], numAcceptedProposals, acceptedId, acceptedValue, acceptedOp)
    {
      MidwayMore(nodes, a, oracle, i);
      var response := CallNode(cluster, liveNodes[i], Call.Propose(prepareRequest), oracle(Proposing, liveNodes[i]));
      m := Absorb(m, liveNodes[i], response).(todo := liveNodes[i + 1..]);
      OneMorePromise(a, liveNodes[i..], liveNodes[i + 1..], liveNodes[i], response, numAcceptedProposals, acceptedId,
                     acceptedValue, acceptedOp);
      if IsOk(response) {
        numAcceptedProposals := numAcceptedProposals + 1;
        if response.value.response.aServerId > acceptedId {
          acceptedId := response.value.response.aServerId;
          acceptedValue := response.value.response.value;
          acceptedOp := response.value.response.op;
        }
      }
    }
    assert liveNodes[|liveNodes|..] == [];
  }

  /** The attempt `a` with the variables of the accept loop set. */
  function Polled(a: Attempt, todo: seq<NodeId>, acceptances: nat, acceptance: Response): Attempt {
    a.(todo := todo, acceptances := acceptances, acceptance := acceptance)
  }

  lemma OneMoreVote(a: Attempt, todo: seq<NodeId>, todo': seq<NodeId>, n: NodeId, reply: Option<Reply>,
                    acceptances: nat, acceptance: Response)
    requires a.stage == Accepting
    ensures Absorb(Polled(a, todo, acceptances, acceptance), n, reply).(todo := todo') ==
            if IsOk(reply) then Polled(a, todo', acceptances + 1, reply.value.response)
            else Polled(a, todo', acceptances, acceptance)
  {
  }

  /** The accept loop. */
  method AcceptAll(liveNodes: seq<NodeId>, acceptRequest: Request, cluster: Nodes, oracle: Oracle, ghost a: Attempt)
    returns (numFinalAcceptances: nat, acceptance: Response)
    requires Apart(cluster) && Elems(liveNodes) <= cluster.Keys && Distinct(liveNodes)
    requires a.stage == Accepting && a.todo == liveNodes && NextCall(a) == Call.Accept(acceptRequest)
    requires a.acceptances == 0 && a.acceptance == BLANK_RESPONSE
    modifies cluster.Values
    ensures (States(cluster), Polled(a, [], numFinalAcceptances, acceptance))
            == Midway(old(States(cluster)), a, oracle, |liveNodes|)
  {
    numFinalAcceptances, acceptance := 0, BLANK_RESPONSE;
    ghost var nodes := States(cluster);
    ghost var m := a;
    MidwayStart(nodes, a, oracle);
    for i := 0 to |liveNodes|
      invariant (States(cluster), m) == Midway(nodes, a, oracle, i)
      invariant m == Polled(a, liveNodes[i..], numFinalAcceptances, acceptance)
    {
      MidwayMore(nodes, a, oracle, i);
      var response := CallNode(cluster, liveNodes[i], Call.Accept(acceptRequest), oracle(Accepting, liveNodes[i]));
      m := Absorb(m, liveNodes[i], response).(todo := liveNodes[i + 1..]);
      OneMoreVote(a, liveNodes[i..], liveNodes[i + 1..], liveNodes[i], response, numFinalAcceptances, acceptance);
      if IsOk(response) {
        numFinalAcceptances := numFinalAcceptances + 1;
        acceptance := response.value.response;
      }
    }
    assert liveNodes[|liveNodes|..] == [];
  }

  /** The success loop; its answers are not looked at. */
  method InformAll(members: seq<NodeId>, successRequest: Request, cluster: Nodes, oracle: Oracle, ghost a: Attempt)
    requires Apart(cluster) && Elems(members) <= cluster.Keys && Distinct(members)
    requires a.stage == Informing && a.todo == members && NextCall(a) == Call.Success(successRequest)
    modifies cluster.Values
    ensures (States(cluster), a.(todo := [])) == Midway(old(States(cluster)), a, oracle, |members|)
  {
    ghost var nodes := States(cluster);
    MidwayStart(nodes, a, oracle);
    for i := 0 to |members|
      invariant (States(cluster), a.(todo := members[i..])) == Midway(nodes, a, oracle, i)
    {
      MidwayMore(nodes, a, oracle, i);
      var response := CallNode(cluster, members[i], Call.Success(successRequest), oracle(Informing, members[i]));
    }
    assert members[|members|..] == [];
  }

  /** The rest of the attempt `a` in the cluster as it stands ends as `whole`. */
  ghost predicate OnCourse(nodes: Cluster, a: Attempt, oracle: Oracle, whole: (Cluster, Attempt)) {
    Hosts(nodes, a) && Execute(nodes, a, oracle) == whole
  }

  lemma Started(nodes: Cluster, members: seq<NodeId>, self: NodeId, r: Request, oracle: Oracle)
    requires Distinct(members) && nodes.Keys == Elems(members) && self in members
    ensures OnCourse(nodes, Begin(self, r, members, NextRound(nodes[self], r.key)), oracle,
                     RunAttempt(nodes, members, self, r, oracle))
  {
    BeginWellformed(self, r, members, NextRound(nodes[self], r.key));
  }

  /** What a loop needs to start, and what it has achieved when it is through. */
  lemma LoopRuns(nodes: Cluster, a: Attempt, oracle: Oracle, whole: (Cluster, Attempt))
    requires OnCourse(nodes, a, oracle, whole) && a.stage != Returned
    ensures Elems(a.todo) <= nodes.Keys && Distinct(a.todo)
    ensures var (nodes', b) := Midway(nodes, a, oracle, |a.todo|);
            OnCourse(nodes', Settle(b), oracle, whole)
  {
    TodoIsHosted(nodes, a);
    PhaseExecutes(nodes, a, oracle);
    MidwayEnds(nodes, a, oracle);
  }

  lemma HasReturned(nodes: Cluster, a: Attempt, oracle: Oracle, whole: (Cluster, Attempt))
    requires OnCourse(nodes, a, oracle, whole) && a.stage == Returned
    ensures whole == (nodes, a)
  {
  }

  /** What the caller of an attempt is told. */
  function Result(a: Attempt): Reply {
    if a.ok then Ok(a.acceptance) else Aborted
  }

  /** The success stage. */
  method EnterSuccess(members: seq<NodeId>, cluster: Nodes, key: string, acceptance: Response, oracle: Oracle,
                      ghost a: Attempt, ghost whole: (Cluster, Attempt))
    returns (reply: Reply)
    requires Apart(cluster) && OnCourse(States(cluster), a, oracle, whole)
    requires a.stage == Informing && a.members == members && a.todo == members
    requires a.request.key == key && a.acceptance == acceptance
    modifies cluster.Values
    ensures States(cluster) == whole.0 && reply == Result(whole.1)
  {
    LoopRuns(States(cluster), a, oracle, whole);
    var successRequest := Request(key, acceptance.value, acceptance.pServerId, acceptance.aServerId,
                                  acceptance.round, acceptance.op);
    InformAll(members, successRequest, cluster, oracle, a);
    HasReturned(States(cluster), Settle(a.(todo := [])), oracle, whole);
    return Ok(acceptance);
  }

  /** The accept stage and what follows. */
  method EnterAccept(members: seq<NodeId>, cluster: Nodes, liveNodes: seq<NodeId>, r: Request, round: nat,
                     acceptedId: int, acceptedValue: string, acceptedOp: Operation, oracle: Oracle,
                     ghost a: Attempt, ghost whole: (Cluster, Attempt))
    returns (reply: Reply)
    requires Apart(cluster) && OnCourse(States(cluster), a, oracle, whole)
    requires a.stage == Accepting && a.members == members && a.todo == a.live == liveNodes
    requires a.request == r && a.round == round && a.acceptances == 0 && a.acceptance == BLANK_RESPONSE
    requires a.acceptedId == acceptedId && a.acceptedValue == acceptedValue && a.acceptedOp == acceptedOp
    modifies cluster.Values
    ensures States(cluster) == whole.0 && reply == Result(whole.1)
  {
    var acceptRequest := Request(r.key, "", PROPOSE_ID, 0, round, GET);
    if acceptedId > 0 {
      acceptRequest := acceptRequest.(op := acceptedOp, value := acceptedValue, aServerId := acceptedId);
    } else {
      acceptRequest := acceptRequest.(op := r.op, value := r.value);
    }
    LoopRuns(States(cluster), a, oracle, whole);
    var numFinalAcceptances, acceptance := AcceptAll(liveNodes, acceptRequest, cluster, oracle, a);
    ghost var b := Settle(Polled(a, [], numFinalAcceptances, acceptance));
    if NoQuorum(numFinalAcceptances, |members|) {
      HasReturned(States(cluster), b, oracle, whole);
      return Aborted;
    }
    reply := EnterSuccess(members, cluster, r.key, acceptance, oracle, b, whole);
  }

  /** The proposal stage and what follows. */
  method EnterProposal(members: seq<NodeId>, cluster: Nodes, liveNodes: seq<NodeId>, r: Request, round: nat,
                       oracle: Oracle, ghost a: Attempt, ghost whole: (Cluster, Attempt))
    returns (reply: Reply)
    requires Apart(cluster) && OnCourse(States(cluster), a, oracle, whole)
    requires a == Begin(a.proposer, r, members, round).(stage := Proposing, todo := liveNodes, live := liveNodes)
    modifies cluster.Values
    ensures States(cluster) == whole.0 && reply == Result(whole.1)
  {
    var prepareRequest := Request(r.key, r.value, PROPOSE_ID, 0, round, GET);
    LoopRuns(States(cluster), a, oracle, whole);
    var numAcceptedProposals, acceptedId, acceptedValue, acceptedOp :=
      ProposeAll(liveNodes, prepareRequest, cluster, oracle, a);
    ghost var b := Settle(Promised(a, [], numAcceptedProposals, acceptedId, acceptedValue, acceptedOp));
    if NoQuorum(numAcceptedProposals, |members|) {
      HasReturned(States(cluster), b, oracle, whole);
      return Aborted;
    }
    reply := EnterAccept(members, cluster, liveNodes, r, round, acceptedId, acceptedValue, acceptedOp, oracle, b,
                         whole);
  }

  /** One attempt by the replica named `self`: it ends, for the cluster and for the caller, as the function
      `RunAttempt` says. */
  method AttemptConsensus(self: NodeId, members: seq<NodeId>, cluster: Nodes, r: Request, oracle: Oracle)
    returns (reply: Reply)
    requires Apart(cluster) && Distinct(members) && cluster.Keys == Elems(members) && self in members
    modifies cluster.Values
    ensures var (nodes', a) := RunAttempt(old(States(cluster)), members, self, r, oracle);
            States(cluster) == nodes' && reply == Result(a)
  {
    assert self in Elems(members);
    var round := |RoundsOf(cluster[self].log, r.key)|;
    ghost var a := Begin(self, r, members, round);
    ghost var whole := RunAttempt(States(cluster), members, self, r, oracle);
    Started(States(cluster), members, self, r, oracle);
    LoopRuns(States(cluster), a, oracle, whole);
    var liveNodes := PingAll(members, cluster, oracle, a);
    ghost var b := Settle(a.(todo := [], live := liveNodes));
    if NoQuorum(|liveNodes|, |members|) {
      HasReturned(States(cluster), b, oracle, whole);
      return Aborted;
    }
    reply := EnterProposal(members, cluster, liveNodes, r, round, oracle, b, whole);
  }
}
