/** The guarantees of runs, as a client sees them through the forwarding layer. */
module Sessions {
  import opened Protocol
  import opened Quorum
  import opened Attempts
  import opened Cells
  import opened Worlds
  import opened Partitions
  import opened Faithful
  import opened Refinement
  import opened Forwarding
  import opened Stretches

  /** From the end of `t` to the end of `t'` one attempt was made, and both are ends of faithful runs. */
  ghost predicate OneAttempt(w: World, t: Trace, t': Trace, faithful: set<NodeId>, request: Request,
                             nodes: Cluster, a: Attempt) {
    && Trusted(w, t, faithful) && Trusted(w, t', faithful)
    && Concludes(Run(w, t), Run(w, t'), AttemptId(request.key, 0), request, nodes, a)
  }

  /** An attempt that the faithful replica `l` makes on an idle key keeps the run faithful. */
  lemma FaithfulAttempt(w: World, t: Trace, faithful: set<NodeId>, l: NodeId, request: Request, oracle: Oracle)
    returns (t': Trace)
    requires Trusted(w, t, faithful) && Idle(Run(w, t), request.key) && l in faithful
    requires HonestOracle(oracle, faithful) && Admissible(request)
    ensures l in Run(w, t).nodes && Clustered(Run(w, t).nodes, w.members)
    ensures var (nodes, a) := Attempted(Run(w, t).nodes, w.members, l, request, oracle);
            OneAttempt(w, t, t', faithful, request, nodes, a)
  {
    t' := AttemptMoves(w, t, faithful, AttemptId(request.key, 0), l, request, oracle);
  }

  // ----- What clients see -----

  /** The last leader elected is the faithful replica `l`, and no election is under way; other attempts may be. */
  ghost predicate Led(w: World, t: Trace, faithful: set<NodeId>, l: NodeId) {
    && Trusted(w, t, faithful) && Idle(Run(w, t), LEADER_KEY)
    && l in faithful && l != "" && LastOk(HistoryOf(Run(w, t).history, LEADER_KEY)) == Some(l)
  }

  /** The forwarding call to the leader goes through, if one is needed. */
  predicate Reachable(self: NodeId, l: NodeId, net: Net, path: Path, budget: nat) {
    self != l ==> net.forward(path + [false]) == Delivered && budget > 0
  }

  lemma LedReaches(w: World, t: Trace, faithful: set<NodeId>, l: NodeId, self: NodeId, net: Net, path: Path,
                   budget: nat)
    requires Led(w, t, faithful, l) && self in faithful && Reachable(self, l, net, path, budget)
    ensures Clustered(Run(w, t).nodes, w.members) && Reaches(Run(w, t).nodes, self, l, net, path, budget)
  {
    ElectionAgreement(w, t, faithful, self);
    ElectionAgreement(w, t, faithful, l);
  }

  /** A get call at any faithful replica that reaches the leader returns what the plain map holds, in at most one hop,
      and changes nothing, whatever is going on on other keys. */
  lemma GetReturnsThePlainValue(w: World, t: Trace, faithful: set<NodeId>, l: NodeId, self: NodeId, key: string,
                                net: Net, path: Path, budget: nat)
    requires Led(w, t, faithful, l) && self in faithful && Reachable(self, l, net, path, budget)
    requires Idle(Run(w, t), key)
    ensures Clustered(Run(w, t).nodes, w.members) && self in Run(w, t).nodes
    ensures Handle(Run(w, t).nodes, w.members, self, Get(key), net, path, budget)
            == Served(Run(w, t).nodes, Looked(Plain(Run(w, t).history), key), Hops(self, l))
  {
    LedReaches(w, t, faithful, l, self, net, path, budget);
    GetFromLeader(Run(w, t).nodes, w.members, self, l, key, net, path, budget);
    PlainAnswer(w, t, faithful, l, key);
  }

  /** A get call for a key with an attempt under way returns the plain value or, once the attempt is past its accept
      quorum, possibly the value of the attempt, and certainly that one once its success call has gone out to the
      leader. */
  lemma GetOnBusyKey(w: World, t: Trace, faithful: set<NodeId>, l: NodeId, self: NodeId, id: AttemptId,
                     net: Net, path: Path, budget: nat)
    requires Led(w, t, faithful, l) && self in faithful && Reachable(self, l, net, path, budget)
    requires id in Run(w, t).active && id.key != LEADER_KEY
    ensures Clustered(Run(w, t).nodes, w.members) && self in Run(w, t).nodes
    ensures var v := Run(w, t);
            var r := Handle(v.nodes, w.members, self, Get(id.key), net, path, budget);
            var before, after := Looked(Plain(v.history), id.key), Done(v.active[id].request.value, 0);
            && r.nodes == v.nodes && r.hops == Hops(self, l)
            && (!Committing(v, id) ==> r.answer == before)
            && (Committing(v, id) ==> r.answer == before || r.answer == after)
            && (Told(v, id, l) ==> r.answer == after)
  {
    LedReaches(w, t, faithful, l, self, net, path, budget);
    GetFromLeader(Run(w, t).nodes, w.members, self, l, id.key, net, path, budget);
    BusyValue(w, t, faithful, l, id);
  }

  lemma PlainAnswer(w: World, t: Trace, faithful: set<NodeId>, f: NodeId, key: string)
    requires Trusted(w, t, faithful) && f in faithful && Idle(Run(w, t), key)
    ensures Looked(Run(w, t).nodes[f].kv, key) == Looked(Plain(Run(w, t).history), key)
  {
    if key == LEADER_KEY {
      PlainLeavesLeaderOut(Run(w, t).history);
    } else {
      ValueRefinement(w, t, faithful, f, key);
      SameAnswer(Run(w, t).nodes[f].kv, Plain(Run(w, t).history), key);
    }
  }

  lemma SameAnswer(m: map<string, string>, m': map<string, string>, key: string)
    requires Lookup(m, key) == Lookup(m', key)
    ensures Looked(m, key) == Looked(m', key)
  {
  }

  lemma PlainMore(h: seq<Finished>, f: Finished)
    ensures Plain(h + [f])
            == if f.ok && f.request.key != LEADER_KEY then Plain(h)[f.request.key := f.request.value] else Plain(h)
  {
    assert (h + [f])[..|h|] == h;
  }

  lemma StaysLed(w: World, t: Trace, t': Trace, faithful: set<NodeId>, l: NodeId, request: Request,
                 nodes: Cluster, a: Attempt)
    requires Led(w, t, faithful, l) && OneAttempt(w, t, t', faithful, request, nodes, a)
    requires request.key != LEADER_KEY
    ensures Led(w, t', faithful, l)
  {
    OtherHistory(Run(w, t).history, Finished(AttemptId(request.key, 0), request, a.ok, a.acceptance), LEADER_KEY);
  }

  lemma OtherHistory(h: seq<Finished>, f: Finished, key: string)
    requires f.id.key != key
    ensures HistoryOf(h + [f], key) == HistoryOf(h, key)
  {
    HistoryOfSnoc(h, f, key);
  }

  lemma PlainAfter(w: World, t: Trace, t': Trace, faithful: set<NodeId>, request: Request, nodes: Cluster, a: Attempt)
    requires OneAttempt(w, t, t', faithful, request, nodes, a) && request.key != LEADER_KEY
    ensures Plain(Run(w, t').history)
            == if a.ok then Plain(Run(w, t).history)[request.key := request.value] else Plain(Run(w, t).history)
  {
    PlainMore(Run(w, t).history, Finished(AttemptId(request.key, 0), request, a.ok, a.acceptance));
  }

  lemma AfterSet(w: World, t: Trace, t': Trace, faithful: set<NodeId>, l: NodeId, request: Request,
                 nodes: Cluster, a: Attempt)
    requires Led(w, t, faithful, l) && OneAttempt(w, t, t', faithful, request, nodes, a)
    requires request.key != LEADER_KEY && request.op != SET_LEADER && a.request == request
    ensures Led(w, t', faithful, l) && Run(w, t').nodes == nodes && Run(w, t').active == Run(w, t).active
    ensures Plain(Run(w, t').history)
            == if a.ok then Plain(Run(w, t).history)[request.key := request.value] else Plain(Run(w, t).history)
  {
    StaysLed(w, t, t', faithful, l, request, nodes, a);
    PlainAfter(w, t, t', faithful, request, nodes, a);
  }

  /** An attempt for a set call by the leader itself. */
  lemma LedAttempt(w: World, t: Trace, faithful: set<NodeId>, l: NodeId, key: string, value: string, oracle: Oracle)
    returns (t': Trace, nodes: Cluster, a: Attempt)
    requires Led(w, t, faithful, l) && key != LEADER_KEY && Idle(Run(w, t), key) && HonestOracle(oracle, faithful)
    ensures l in Run(w, t).nodes && Clustered(Run(w, t).nodes, w.members)
    ensures (nodes, a) == Attempted(Run(w, t).nodes, w.members, l, SetRequest(key, value), oracle)
    ensures Led(w, t', faithful, l) && Run(w, t').nodes == nodes && Run(w, t').active == Run(w, t).active
    ensures Plain(Run(w, t').history)
            == if a.ok then Plain(Run(w, t).history)[key := value] else Plain(Run(w, t).history)
  {
    t' := FaithfulAttempt(w, t, faithful, l, SetRequest(key, value), oracle);
    var whole := Attempted(Run(w, t).nodes, w.members, l, SetRequest(key, value), oracle);
    nodes, a := whole.0, whole.1;
    AfterSet(w, t, t', faithful, l, SetRequest(key, value), nodes, a);
  }

  /** How a set call at `self` ended: the cluster it left and the attempt that the leader made for it. */
  ghost predicate SetEnded(w: World, t: Trace, self: NodeId, l: NodeId, key: string, value: string, net: Net,
                           path: Path, budget: nat, nodes: Cluster, a: Attempt) {
    && Sound(w) && Valid(w, t) && Clustered(Run(w, t).nodes, w.members) && self in Run(w, t).nodes
    && l in Run(w, t).nodes
    && (nodes, a) == Attempted(Run(w, t).nodes, w.members, l, SetRequest(key, value),
                               net.attempt(PathOf(self, l, path)))
    && (a.ok || self == l ==>
          Handle(Run(w, t).nodes, w.members, self, Set(key, value), net, path, budget)
          == Served(nodes, if a.ok then Done("", 0) else Failed, Hops(self, l)))
  }

  lemma SetEnds(w: World, t: Trace, faithful: set<NodeId>, l: NodeId, self: NodeId, key: string, value: string,
                net: Net, path: Path, budget: nat)
    returns (nodes: Cluster, a: Attempt)
    requires Led(w, t, faithful, l) && self in faithful && Reachable(self, l, net, path, budget)
    ensures SetEnded(w, t, self, l, key, value, net, path, budget, nodes, a)
  {
    LedReaches(w, t, faithful, l, self, net, path, budget);
    SetAtLeader(Run(w, t).nodes, w.members, self, l, key, value, net, path, budget);
    var whole := Attempted(Run(w, t).nodes, w.members, l, SetRequest(key, value), net.attempt(PathOf(self, l, path)));
    nodes, a := whole.0, whole.1;
  }

  /** A set call at any faithful replica that reaches the leader is one attempt by the leader. It leads to a state that
      is again part of a faithful run, with the same leader; if the attempt returned OK, so did the call, and the plain
      map has the new value; if not, the plain map is what it was. */
  lemma SetUpdatesThePlainMap(w: World, t: Trace, faithful: set<NodeId>, l: NodeId, self: NodeId, key: string,
                              value: string, net: Net, path: Path, budget: nat)
    returns (t': Trace, nodes: Cluster, a: Attempt)
    requires Led(w, t, faithful, l) && self in faithful && Reachable(self, l, net, path, budget) && key != LEADER_KEY
    requires HonestOracle(net.attempt(PathOf(self, l, path)), faithful) && Idle(Run(w, t), key)
    ensures SetEnded(w, t, self, l, key, value, net, path, budget, nodes, a)
    ensures Led(w, t', faithful, l) && Run(w, t').nodes == nodes && Run(w, t').active == Run(w, t).active
    ensures Plain(Run(w, t').history)
            == if a.ok then Plain(Run(w, t).history)[key := value] else Plain(Run(w, t).history)
  {
    nodes, a := SetEnds(w, t, faithful, l, self, key, value, net, path, budget);
    t', nodes, a := LedAttempt(w, t, faithful, l, key, value, net.attempt(PathOf(self, l, path)));
  }

  /** After a set call whose attempt returned OK, a get call at any faithful replica returns its value. */
  lemma SetThenGet(w: World, t: Trace, faithful: set<NodeId>, l: NodeId, self: NodeId, other: NodeId, key: string,
                   value: string, net: Net, path: Path, budget: nat, net': Net, path': Path, budget': nat)
    returns (nodes: Cluster, a: Attempt)
    requires Led(w, t, faithful, l) && self in faithful && other in faithful && key != LEADER_KEY
    requires Reachable(self, l, net, path, budget) && Reachable(other, l, net', path', budget')
    requires HonestOracle(net.attempt(PathOf(self, l, path)), faithful) && Idle(Run(w, t), key)
    ensures SetEnded(w, t, self, l, key, value, net, path, budget, nodes, a)
    ensures Clustered(nodes, w.members) && other in nodes
    ensures a.ok ==> Handle(nodes, w.members, other, Get(key), net', path', budget').answer == Done(value, 0)
    ensures !a.ok ==> Handle(nodes, w.members, other, Get(key), net', path', budget').answer
                      == Looked(Plain(Run(w, t).history), key)
  {
    var t';
    t', nodes, a := SetUpdatesThePlainMap(w, t, faithful, l, self, key, value, net, path, budget);
    GetReturnsThePlainValue(w, t', faithful, l, other, key, net', path', budget');
  }

  // ----- Elections -----

  /** An election by a faithful replica that returns OK makes it the leader of all faithful replicas, and every store is
      what it was: afterwards a get call at any of them that reaches the new leader returns the plain value. */
  lemma ElectedLeads(w: World, t: Trace, faithful: set<NodeId>, self: NodeId, oracle: Oracle)
    returns (t': Trace)
    requires Trusted(w, t, faithful) && Idle(Run(w, t), LEADER_KEY) && self in faithful && self != ""
    requires HonestOracle(oracle, faithful)
    ensures Clustered(Run(w, t).nodes, w.members) && self in Run(w, t).nodes
    ensures var (nodes, ok) := Elect(Run(w, t).nodes, w.members, self, oracle);
            && Trusted(w, t', faithful) && Run(w, t').nodes == nodes
            && (ok ==> Led(w, t', faithful, self))
            && Run(w, t').active == Run(w, t).active
            && Plain(Run(w, t').history) == Plain(Run(w, t).history)
  {
    t' := FaithfulAttempt(w, t, faithful, self, ElectionRequest(self), oracle);
    ElectIs(Run(w, t).nodes, w.members, self, oracle);
    var (nodes, a) := Attempted(Run(w, t).nodes, w.members, self, ElectionRequest(self), oracle);
    LedByWinner(w, t, t', faithful, self, nodes, a);
  }

  lemma ElectIs(nodes: Cluster, members: seq<NodeId>, self: NodeId, oracle: Oracle)
    requires Clustered(nodes, members) && self in nodes
    ensures var (nodes', a) := Attempted(nodes, members, self, ElectionRequest(self), oracle);
            Elect(nodes, members, self, oracle) == (Concluded(nodes', a), a.ok)
  {
    AttemptedIs(nodes, members, self, ElectionRequest(self), oracle);
  }

  lemma LastOkMore(h: seq<Finished>, f: Finished)
    ensures LastOk(h + [f]) == if f.ok then Some(f.request.value) else LastOk(h)
  {
    assert (h + [f])[..|h|] == h;
  }

  lemma OwnHistory(h: seq<Finished>, f: Finished, key: string)
    requires f.id.key == key
    ensures LastOk(HistoryOf(h + [f], key)) == if f.ok then Some(f.request.value) else LastOk(HistoryOf(h, key))
  {
    HistoryOfSnoc(h, f, key);
    LastOkMore(HistoryOf(h, key), f);
  }

  lemma LedByWinner(w: World, t: Trace, t': Trace, faithful: set<NodeId>, self: NodeId, nodes: Cluster, a: Attempt)
    requires OneAttempt(w, t, t', faithful, ElectionRequest(self), nodes, a) && self in faithful && self != ""
    requires Idle(Run(w, t), LEADER_KEY)
    ensures a.ok ==> Led(w, t', faithful, self)
    ensures Plain(Run(w, t').history) == Plain(Run(w, t).history)
  {
    var f := Finished(AttemptId(LEADER_KEY, 0), ElectionRequest(self), a.ok, a.acceptance);
    OwnHistory(Run(w, t).history, f, LEADER_KEY);
    PlainMore(Run(w, t).history, f);
  }

  /** A faithful replica that gets OK for its own election has been elected under its own name. */
  lemma ElectionNamesProposer(w: World, t: Trace, faithful: set<NodeId>, self: NodeId, oracle: Oracle)
    requires Trusted(w, t, faithful) && Idle(Run(w, t), LEADER_KEY) && self in faithful
             && HonestOracle(oracle, faithful)
    ensures self in Run(w, t).nodes && Clustered(Run(w, t).nodes, w.members)
    ensures var a := Attempted(Run(w, t).nodes, w.members, self, ElectionRequest(self), oracle).1;
            a.ok ==> a.acceptance.value == self
  {
    var request := ElectionRequest(self);
    var t' := FaithfulAttempt(w, t, faithful, self, request, oracle);
    var a := Attempted(Run(w, t).nodes, w.members, self, request, oracle).1;
    var f := Finished(AttemptId(request.key, 0), request, a.ok, a.acceptance);
    OwnValueCommitted(w, t', faithful);
    LastFinished(Run(w, t).history, f);
    assert AnswersOwnRequest(f);
  }

  lemma LastFinished(h: seq<Finished>, f: Finished)
    ensures f in h + [f]
  {
    assert (h + [f])[|h|] == f;
  }

  /** If the elected leader cannot be reached, a faithful replica that has itself elected instead still answers a get
      call with the plain value. */
  lemma GetSurvivesTheLeader(w: World, t: Trace, faithful: set<NodeId>, l: NodeId, self: NodeId, key: string,
                             net: Net, path: Path, budget: nat)
    requires Led(w, t, faithful, l) && self in faithful && self != l && self != "" && Idle(Run(w, t), key)
    requires net.forward(path + [false]) == Lost && net.forward(path + [true]) == Delivered && budget > 0
    requires net.trigger(path) == Delivered && HonestOracle(net.election(path), faithful)
    ensures self in Run(w, t).nodes && Clustered(Run(w, t).nodes, w.members)
    ensures var (nodes, ok) := Elect(Run(w, t).nodes, w.members, self, net.election(path));
            ok ==> Handle(Run(w, t).nodes, w.members, self, Get(key), net, path, budget)
                   == Served(nodes, Looked(Plain(Run(w, t).history), key), 1)
  {
    ElectionAgreement(w, t, faithful, self);
    ElectionNamesProposer(w, t, faithful, self, net.election(path));
    PlainAnswer(w, t, faithful, self, key);
    if Elect(Run(w, t).nodes, w.members, self, net.election(path)).1 {
      FailOver(Run(w, t).nodes, w.members, self, key, net, path, budget);
    }
  }

  /** What a set call leads to when the attempt of the leader `l` aborts and `self`, in front of it, takes over. */
  ghost predicate TookOver(w: World, t: Trace, self: NodeId, l: NodeId, key: string, value: string, net: Net,
                           path: Path, budget: nat, aborted: Cluster, elected: Cluster, nodes: Cluster, a: Attempt) {
    && Sound(w) && Valid(w, t) && Clustered(Run(w, t).nodes, w.members) && self in Run(w, t).nodes
    && l in Run(w, t).nodes
    && aborted == Attempted(Run(w, t).nodes, w.members, l, SetRequest(key, value), net.attempt(path + [false])).0
    && self in aborted && elected == Elect(aborted, w.members, self, net.election(path)).0
    && self in elected
    && (nodes, a) == Attempted(elected, w.members, self, SetRequest(key, value), net.attempt(path + [true]))
    && Handle(Run(w, t).nodes, w.members, self, Set(key, value), net, path, budget)
       == Served(nodes, if a.ok then Done("", 0) else Failed, 1)
  }

  /** An aborted set call deposes its leader: if the election that follows returns OK, the replica that the client asked
      leads from then on, the call is answered by its own attempt, and the plain map is updated exactly if that one
      returns OK; the aborted attempt contributes nothing. */
  lemma AbortedSetElects(w: World, t: Trace, faithful: set<NodeId>, l: NodeId, self: NodeId, key: string, value: string,
                         net: Net, path: Path, budget: nat)
    returns (t': Trace, aborted: Cluster, elected: Cluster, nodes: Cluster, a: Attempt)
    requires Led(w, t, faithful, l) && self in faithful && Reachable(self, l, net, path, budget) && key != LEADER_KEY
    requires self != l && self != "" && net.trigger(path) == Delivered && net.forward(path + [true]) == Delivered
    requires HonestOracle(net.attempt(path + [false]), faithful) && HonestOracle(net.election(path), faithful)
    requires HonestOracle(net.attempt(path + [true]), faithful)
    requires Idle(Run(w, t), key) && AbortsThenElects(w, t, self, l, key, value, net, path)
    ensures TookOver(w, t, self, l, key, value, net, path, budget, aborted, elected, nodes, a)
    ensures Led(w, t', faithful, self) && Run(w, t').nodes == nodes && Run(w, t').active == Run(w, t).active
    ensures Plain(Run(w, t').history)
            == if a.ok then Plain(Run(w, t).history)[key := value] else Plain(Run(w, t).history)
  {
    LedReaches(w, t, faithful, l, self, net, path, budget);
    var t1, a1, t3;
    t1, aborted, a1 := LedAttempt(w, t, faithful, l, key, value, net.attempt(path + [false]));
    var t2 := ElectedLeads(w, t1, faithful, self, net.election(path));
    elected := Elect(aborted, w.members, self, net.election(path)).0;
    ElectionAgreement(w, t2, faithful, self);
    t3, nodes, a := LedAttempt(w, t2, faithful, self, key, value, net.attempt(path + [true]));
    RetryAfterAbort(Run(w, t).nodes, w.members, self, l, key, value, net, path, budget, aborted, elected);
    t' := t3;
  }

  ghost predicate AbortsThenElects(w: World, t: Trace, self: NodeId, l: NodeId, key: string, value: string,
                                   net: Net, path: Path) {
    && Sound(w) && Valid(w, t) && Clustered(Run(w, t).nodes, w.members) && l in Run(w, t).nodes
    && var (aborted, a) := Attempted(Run(w, t).nodes, w.members, l, SetRequest(key, value),
                                     net.attempt(path + [false]));
       !a.ok && self in aborted && Elect(aborted, w.members, self, net.election(path)).1
  }

  // ----- Such runs exist -----

  /** From every initial world in which everyone is reachable there is a run after which any given replica leads. */
  lemma LedRunsExist(w: World, self: NodeId) returns (t: Trace)
    requires Initial(w) && self in w.nodes && self != ""
    ensures Led(w, t, w.nodes.Keys, self)
  {
    var all := Elems(w.members);
    assert Trusted(w, Begun, all);
    t := ElectedLeads(w, Begun, all, self, Split(all, all));
    EveryoneVotes(w.nodes, w.members, self, ElectionRequest(self));
  }

  /** With everyone reachable, an attempt on a key that nobody has in its log returns OK. */
  lemma EveryoneVotes(nodes: Cluster, members: seq<NodeId>, self: NodeId, request: Request)
    requires Clustered(nodes, members) && self in nodes
    requires forall n :: n in nodes ==> request.key !in nodes[n].log
    ensures Attempted(nodes, members, self, request, Split(Elems(members), Elems(members))).1.ok
  {
    var all := Elems(members);
    assert self in all && all * all == all;
    var q := PartitionOutcome(nodes, members, self, request, all, all);
  }
}
