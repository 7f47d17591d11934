/** Runs that show what the protocol does not guarantee, and so why the hypotheses of the other theorems are there. */
module Boundaries {
  import opened Protocol
  import opened Quorum
  import opened Attempts
  import opened Cells
  import opened Outcomes
  import opened Partitions
  import opened Worlds
  import opened Refinement
  import opened Stretches
  import opened CatchUp
  import AnyRuns

  ghost predicate Blank(nodes: Cluster) {
    forall n :: n in nodes ==> nodes[n] == BLANK_NODE
  }

  lemma Prepares(s: NodeState, prepare: Request)
    ensures var s' := ServePropose(s, prepare).0;
            && s'.kv == s.kv && s'.leader == s.leader
            && RoundsOf(s'.log, prepare.key) == Touched(RoundsOf(s.log, prepare.key), prepare.round)
  {
  }

  lemma Accepts(s: NodeState, q: Request)
    ensures var s' := ServeAccept(s, q).0;
            && s'.kv == s.kv && s'.leader == s.leader
            && RoundsOf(s'.log, q.key) == Recorded(RoundsOf(s.log, q.key), q.round, q.pServerId, q.op, q.value)
  {
  }

  /** Prepare, accept and success at one replica: the value is stored exactly when no higher round is in the log. */
  lemma Commits(s: NodeState, prepare: Request, q: Request)
    requires prepare.key == q.key != LEADER_KEY && prepare.round == q.round && q.pServerId == PROPOSE_ID && q.op == GET
    requires EntryAt(RoundsOf(s.log, q.key), q.round).pServerId == 0
    ensures var s' := ServeSuccess(ServeAccept(ServePropose(s, prepare).0, q).0, q).0;
            && s'.leader == s.leader
            && s'.kv == (if Outdated(RoundsOf(s.log, q.key), q.round) then s.kv else s.kv[q.key := q.value])
            && RoundsOf(s'.log, q.key) == RoundsOf(s.log, q.key)[q.round := LogEntry(0, PROPOSE_ID, GET, q.value)]
  {
    var s1 := ServePropose(s, prepare).0;
    var s2 := ServeAccept(s1, q).0;
    Prepares(s, prepare);
    Accepts(s1, q);
    var rounds := Recorded(RoundsOf(s2.log, q.key), q.round, q.pServerId, q.op, q.value);
    assert rounds == RoundsOf(s.log, q.key)[q.round := LogEntry(0, PROPOSE_ID, GET, q.value)];
    OutdatedByOthers(RoundsOf(s.log, q.key), q.round, LogEntry(0, PROPOSE_ID, GET, q.value));
    assert RoundsOf(ServeSuccess(s2, q).0.log, q.key) == rounds;
  }

  /** `s'` is `s` after the commit of `q`. */
  ghost predicate CommittedAt(s: NodeState, s': NodeState, q: Request) {
    && s'.kv == (if Outdated(RoundsOf(s.log, q.key), q.round) then s.kv else s.kv[q.key := q.value])
    && RoundsOf(s'.log, q.key) == RoundsOf(s.log, q.key)[q.round := LogEntry(0, PROPOSE_ID, GET, q.value)]
  }

  /** The side commits `q`, everyone else stays. */
  ghost predicate CommittedOn(nodes: Cluster, nodes': Cluster, side: set<NodeId>, q: Request) {
    && nodes'.Keys == nodes.Keys
    && forall n :: n in nodes ==> if n in side then CommittedAt(nodes[n], nodes'[n], q) else nodes'[n] == nodes[n]
  }

  lemma SideCommits(nodes: Cluster, l: seq<NodeId>, side: set<NodeId>, prepare: Request, q: Request)
    requires Elems(l) == side
    requires prepare.key == q.key != LEADER_KEY && prepare.round == q.round && q.pServerId == PROPOSE_ID && q.op == GET
    requires forall n :: n in nodes ==> KnownIds(nodes[n], q.key, q.round)
    ensures CommittedOn(nodes, SideInformed(SideVoted(SidePrepared(nodes, l, prepare), l, side, q), l, q), side, q)
  {
    var nodes' := SideInformed(SideVoted(SidePrepared(nodes, l, prepare), l, side, q), l, q);
    assert forall n :: n in l <==> n in Elems(l);
    forall n | n in nodes
      ensures if n in side then CommittedAt(nodes[n], nodes'[n], q) else nodes'[n] == nodes[n]
    {
      if n in side {
        Commits(nodes[n], prepare, q);
      }
    }
  }

  /** At this key and round only set calls have been accepted so far. */
  ghost predicate OnlySets(nodes: Cluster, key: string, round: nat) {
    forall n :: n in nodes ==>
      KnownIds(nodes[n], key, round) &&
      (Accepted(nodes[n], key, round) ==> EntryAt(RoundsOf(nodes[n].log, key), round).op == GET)
  }

  lemma FollowsSets(q: Request, nodes: Cluster, l: seq<NodeId>, key: string, value: string, round: nat)
    requires Elems(l) <= nodes.Keys && OnlySets(nodes, key, round)
    requires Follows(q, nodes, l, SetRequest(key, value), round)
    ensures q.op == GET
  {
    if i :| 0 <= i < |l| && Leads(q, nodes, l, i) {
      assert l[i] in Elems(l);
    }
  }

  /** One isolated attempt for a client's set call: everything reaches `reached` except that accept calls reach
      only `voters`, and nothing reaches any other replica. */
  ghost predicate SetCall(nodes: Cluster, members: seq<NodeId>, proposer: NodeId, key: string, value: string,
                          reached: set<NodeId>, voters: set<NodeId>, nodes': Cluster, a: Attempt) {
    && Distinct(members) && nodes.Keys == Elems(members) && proposer in members
    && (nodes', a) == RunAttempt(nodes, members, proposer, SetRequest(key, value), Split(reached, voters))
  }

  lemma CallSet(nodes: Cluster, members: seq<NodeId>, proposer: NodeId, key: string, value: string,
                reached: set<NodeId>, voters: set<NodeId>)
    returns (nodes': Cluster, a: Attempt)
    requires Distinct(members) && nodes.Keys == Elems(members) && proposer in members
    ensures SetCall(nodes, members, proposer, key, value, reached, voters, nodes', a)
    ensures nodes'.Keys == nodes.Keys && a.round == NextRound(nodes[proposer], key)
  {
    var run := RunAttempt(nodes, members, proposer, SetRequest(key, value), Split(reached, voters));
    nodes', a := run.0, run.1;
  }

  function Commit(key: string, value: string, round: nat): Request {
    Request(key, value, PROPOSE_ID, 0, round, GET)
  }

  /** If nobody on the side has accepted anything, the client's value goes through. */
  lemma UnacceptedFollows(q: Request, nodes: Cluster, l: seq<NodeId>, key: string, value: string, round: nat)
    requires Elems(l) <= nodes.Keys && Follows(q, nodes, l, SetRequest(key, value), round)
    requires forall n :: n in Elems(l) ==> !Accepted(nodes[n], key, round)
    ensures q == Commit(key, value, round)
  {
    assert forall i :: 0 <= i < |l| ==> l[i] in Elems(l);
  }

  /** A set call that reaches everything on a side that is large enough returns OK and commits there. */
  lemma SetOnSide(nodes: Cluster, members: seq<NodeId>, proposer: NodeId, key: string, value: string,
                  side: set<NodeId>, nodes': Cluster, a: Attempt)
    returns (q: Request)
    requires SetCall(nodes, members, proposer, key, value, side, side, nodes', a) && key != LEADER_KEY
    requires side <= Elems(members) && !NoQuorum(|side|, |members|)
    requires OnlySets(nodes, key, NextRound(nodes[proposer], key))
    ensures Elems(Side(members, side)) == side
    ensures Follows(q, nodes, Side(members, side), SetRequest(key, value), NextRound(nodes[proposer], key))
    ensures a.ok && a.acceptance == Echo(q) && CommittedOn(nodes, nodes', side, q)
  {
    assert Elems(members) * side == side && side * side == side;
    var request, round := SetRequest(key, value), NextRound(nodes[proposer], key);
    q := PartitionOutcome(nodes, members, proposer, request, side, side);
    FollowsSets(q, nodes, Side(members, side), key, value, round);
    SideCommits(nodes, Side(members, side), side, Prepare(request, round), q);
  }

  /** On a side where nothing was accepted at the round, a set call commits its own value. */
  lemma FreshSet(nodes: Cluster, members: seq<NodeId>, proposer: NodeId, key: string, value: string,
                 side: set<NodeId>, nodes': Cluster, a: Attempt)
    requires SetCall(nodes, members, proposer, key, value, side, side, nodes', a) && key != LEADER_KEY
    requires side <= Elems(members) && !NoQuorum(|side|, |members|)
    requires OnlySets(nodes, key, NextRound(nodes[proposer], key))
    requires forall n :: n in side ==> !Accepted(nodes[n], key, NextRound(nodes[proposer], key))
    ensures a.ok && a.acceptance.value == value
    ensures CommittedOn(nodes, nodes', side, Commit(key, value, NextRound(nodes[proposer], key)))
  {
    var q := SetOnSide(nodes, members, proposer, key, value, side, nodes', a);
    UnacceptedFollows(q, nodes, Side(members, side), key, value, NextRound(nodes[proposer], key));
  }

  // ----- What the replicas hold for the key, while only round 0 is in use -----

  /** The log entry at round 0 and the stored value. */
  datatype Holding = Holding(entry: Option<LogEntry>, stored: Option<string>)

  const NOTHING := Holding(None, None)
  const PREPARED := Holding(Some(BLANK_ENTRY), None)

  function Vote(value: string): LogEntry {
    LogEntry(0, PROPOSE_ID, GET, value)
  }

  function Voted(value: string): Holding {
    Holding(Some(Vote(value)), None)
  }

  function Stored(value: string): Holding {
    Holding(Some(Vote(value)), Some(value))
  }

  predicate Holds(s: NodeState, key: string, h: Holding) {
    && RoundsOf(s.log, key) == (if h.entry.Some? then map[0 := h.entry.value] else map[])
    && Lookup(s.kv, key) == h.stored
  }

  type Picture = map<NodeId, Holding>

  predicate HasVote(h: Holding) {
    h.entry.Some? && h.entry.value.aServerId > 0
  }

  predicate FromSets(h: Holding) {
    h.entry.Some? ==> h.entry.value == BLANK_ENTRY || h.entry.value == Vote(h.entry.value.acceptedValue)
  }

  /** The picture shows what each replica holds. */
  ghost predicate Shows(pic: Picture, nodes: Cluster, key: string) {
    && pic.Keys == nodes.Keys
    && forall n :: n in nodes ==> Holds(nodes[n], key, pic[n]) && FromSets(pic[n])
  }

  function Painted(pic: Picture, side: set<NodeId>, h: Holding): Picture {
    map n | n in pic :: if n in side then h else pic[n]
  }

  /** One part of the cluster has stored `v`, the rest `v'`. */
  function Divided(nodes: Cluster, part: set<NodeId>, v: string, v': string): Picture {
    map n | n in nodes :: Stored(if n in part then v else v')
  }

  lemma CommitHolds(s: NodeState, s': NodeState, q: Request, h: Holding)
    requires CommittedAt(s, s', q) && q.round == 0 && Holds(s, q.key, h)
    ensures Holds(s', q.key, Stored(q.value))
  {
    assert !Outdated(RoundsOf(s.log, q.key), 0);
  }

  lemma CommitShows(nodes: Cluster, nodes': Cluster, side: set<NodeId>, q: Request, pic: Picture)
    requires CommittedOn(nodes, nodes', side, q) && q.round == 0 && Shows(pic, nodes, q.key)
    ensures Shows(Painted(pic, side, Stored(q.value)), nodes', q.key)
  {
    forall n | n in side && n in nodes ensures Holds(nodes'[n], q.key, Stored(q.value)) {
      CommitHolds(nodes[n], nodes'[n], q, pic[n]);
    }
  }

  lemma ShowsSets(nodes: Cluster, key: string, pic: Picture)
    requires Shows(pic, nodes, key)
    ensures OnlySets(nodes, key, 0)
    ensures forall n :: n in nodes ==> (Accepted(nodes[n], key, 0) <==> HasVote(pic[n]))
    ensures forall n :: n in nodes && pic[n].entry.None? ==> NextRound(nodes[n], key) == 0
  {
  }

  /** A set call from an empty log, on a side without votes, puts its own value there. */
  lemma FreshStep(nodes: Cluster, members: seq<NodeId>, p: NodeId, key: string, value: string, side: set<NodeId>,
                  pic: Picture)
    returns (nodes': Cluster, a: Attempt)
    requires Distinct(members) && nodes.Keys == Elems(members) && key != LEADER_KEY
    requires side <= Elems(members) && p in side && !NoQuorum(|side|, |members|)
    requires Shows(pic, nodes, key) && pic[p].entry.None?
    requires forall n :: n in side ==> !HasVote(pic[n])
    ensures SetCall(nodes, members, p, key, value, side, side, nodes', a) && nodes'.Keys == nodes.Keys
    ensures a.ok && a.round == 0 && a.acceptance.value == value
    ensures Shows(Painted(pic, side, Stored(value)), nodes', key)
  {
    assert p in Elems(members);
    ShowsSets(nodes, key, pic);
    nodes', a := CallSet(nodes, members, p, key, value, side, side);
    FreshSet(nodes, members, p, key, value, side, nodes', a);
    CommitShows(nodes, nodes', side, Commit(key, value, 0), pic);
  }

  /** A set call from an empty log, on a side where the first member has voted, puts that vote's value there. */
  lemma LedStep(nodes: Cluster, members: seq<NodeId>, p: NodeId, key: string, value: string, side: set<NodeId>,
                pic: Picture, w: string)
    returns (nodes': Cluster, a: Attempt)
    requires Distinct(members) && nodes.Keys == Elems(members) && key != LEADER_KEY
    requires side <= Elems(members) && p in side && !NoQuorum(|side|, |members|)
    requires Shows(pic, nodes, key) && pic[p].entry.None?
    requires members != [] && members[0] in side && pic[members[0]].entry == Some(Vote(w))
    ensures SetCall(nodes, members, p, key, value, side, side, nodes', a) && nodes'.Keys == nodes.Keys
    ensures a.ok && a.round == 0 && a.acceptance.value == w
    ensures Shows(Painted(pic, side, Stored(w)), nodes', key)
  {
    assert p in Elems(members) && members[0] in Elems(members);
    ShowsSets(nodes, key, pic);
    nodes', a := CallSet(nodes, members, p, key, value, side, side);
    var q := SetOnSide(nodes, members, p, key, value, side, nodes', a);
    FirstOfSide(members, side);
    FirstLeads(q, nodes, Side(members, side), members[0], key, value, w);
    CommitShows(nodes, nodes', side, q, pic);
  }

  /** The first member comes first on every side it belongs to. */
  lemma {:induction false} FirstOfSide(members: seq<NodeId>, side: set<NodeId>)
    requires members != [] && members[0] in side
    ensures Side(members, side) != [] && Side(members, side)[0] == members[0]
  {
    if |members| > 1 {
      FirstOfSide(members[..|members| - 1], side);
    } else {
      assert Side([], side) == [];
    }
  }

  /** The first replica of the side, if it has accepted a value, decides what is committed. */
  lemma FirstLeads(q: Request, nodes: Cluster, l: seq<NodeId>, first: NodeId, key: string, u: string, w: string)
    requires Elems(l) <= nodes.Keys && l != [] && l[0] == first && Follows(q, nodes, l, SetRequest(key, u), 0)
    requires first in nodes && EntryAt(RoundsOf(nodes[first].log, key), 0) == Vote(w)
    ensures q.value == w && q.key == key && q.round == 0
  {
    assert first in Elems(l) && Accepted(nodes[first], key, 0);
    var i :| 0 <= i < |l| && Leads(q, nodes, l, i);
    assert i == 0;
  }

  lemma BlankShows(nodes: Cluster, key: string) returns (pic: Picture)
    requires Blank(nodes)
    ensures Shows(pic, nodes, key) && pic == map n | n in nodes :: NOTHING
  {
    pic := map n | n in nodes :: NOTHING;
  }

  // ----- An even number of replicas splits -----

  lemma SomeOf(s: set<NodeId>) returns (n: NodeId)
    requires |s| >= 1
    ensures n in s
  {
    assert s != {};
    n :| n in s;
  }

  /** For every even number of replicas, two attempts whose proposers sit in disjoint halves both return OK with
      different values at the same key and round, and each half stores its own. */
  lemma EvenClustersSplit(nodes: Cluster, members: seq<NodeId>, key: string, v: string, v': string)
    returns (p: NodeId, p': NodeId, half: set<NodeId>, half': set<NodeId>,
             n1: Cluster, a: Attempt, n2: Cluster, b: Attempt)
    requires Distinct(members) && |members| % 2 == 0 && |members| >= 2
    requires nodes.Keys == Elems(members) && Blank(nodes) && key != LEADER_KEY && v != v'
    ensures half + half' == Elems(members) && half * half' == {}
    ensures SetCall(nodes, members, p, key, v, half, half, n1, a)
    ensures SetCall(n1, members, p', key, v', half', half', n2, b)
    ensures a.ok && b.ok && a.round == b.round && a.acceptance.value == v && b.acceptance.value == v'
    ensures Shows(Divided(nodes, half, v, v'), n2, key)
  {
    half, half' := EvenQuorumsSplit(members);
    p := SomeOf(half);
    p' := SomeOf(half');
    var pic := BlankShows(nodes, key);
    n1, a := FreshStep(nodes, members, p, key, v, half, pic);
    var pic' := Painted(pic, half, Stored(v));
    HalvesPicture(nodes, half, half', v, v');
    n2, b := FreshStep(n1, members, p', key, v', half', pic');
  }

  lemma HalvesPicture(nodes: Cluster, half: set<NodeId>, half': set<NodeId>, v: string, v': string)
    requires half + half' == nodes.Keys && half * half' == {}
    ensures var pic := Painted(map n | n in nodes :: NOTHING, half, Stored(v));
            && (forall n :: n in half' ==> n in pic && pic[n] == NOTHING)
            && Painted(pic, half', Stored(v')) == Divided(nodes, half, v, v')
  {
    assert forall n :: n in half && n in half' ==> n in half * half';
    assert forall n :: n in nodes ==> n in half || n in half';
  }

  // ----- Five replicas, one value committed twice over -----

  /** Three attempts on one key, all at round 0, in a cluster of five: `a` gets its value accepted at itself only and
      aborts; `b` commits `v` at `b`, `d` and `e`; then `c`, which does not reach `b` and `e`, adopts the aborted value
      of `a`, whose answer comes first, and commits it. `d` goes from `v` to `w`, though `v` was committed. */
  lemma CommittedValueIsLost(nodes: Cluster, a: NodeId, b: NodeId, c: NodeId, d: NodeId, e: NodeId,
                             key: string, v: string, w: string, u: string)
    returns (n1: Cluster, r1: Attempt, n2: Cluster, r2: Attempt, n3: Cluster, r3: Attempt)
    requires Distinct([a, b, c, d, e]) && nodes.Keys == Elems([a, b, c, d, e]) && Blank(nodes)
    requires key != LEADER_KEY && v != w
    ensures SetCall(nodes, [a, b, c, d, e], a, key, w, {a, d, e}, {a}, n1, r1)
    ensures SetCall(n1, [a, b, c, d, e], b, key, v, {b, d, e}, {b, d, e}, n2, r2)
    ensures SetCall(n2, [a, b, c, d, e], c, key, u, {a, c, d}, {a, c, d}, n3, r3)
    ensures !r1.ok && r2.ok && r3.ok && r1.round == r2.round == r3.round == 0
    ensures r2.acceptance.value == v && r3.acceptance.value == w
    ensures Shows(AfterTwo(nodes, a, c, v, w), n2, key)
    ensures Shows(Divided(nodes, {a, c, d}, w, v), n3, key)
  {
    FiveNames(a, b, c, d, e);
    n1, r1, n2, r2, n3, r3 := ThreeSets(nodes, [a, b, c, d, e], a, b, c, {a, d, e}, {b, d, e}, {a, c, d}, key, v, w, u);
  }

  /** When that happens, for any number of replicas, any state and any fate of the calls: the next OK attempt at a round
      commits another value than `v` if and only if the first replica that it hears of, in member order, has accepted
      another one there, or if it hears of none and asks for another itself. */
  lemma CommittedValueIsLostExactly(nodes: Cluster, members: seq<NodeId>, proposer: NodeId, request: Request,
                                    oracle: Oracle, v: string)
    requires Distinct(members) && nodes.Keys == Elems(members) && proposer in members
    requires AllKnown(nodes, request.key, NextRound(nodes[proposer], request.key))
    requires RunAttempt(nodes, members, proposer, request, oracle).1.ok
    ensures var round := NextRound(nodes[proposer], request.key);
            var unheard := forall n :: n in members && n in nodes && Heard(n, oracle) ==>
                                         !Accepted(nodes[n], request.key, round);
            RunAttempt(nodes, members, proposer, request, oracle).1.acceptance.value != v <==>
              || (unheard && request.value != v)
              || (exists i :: 0 <= i < |members| && FirstAccepted(nodes, members, i, request.key, round, oracle)
                              && EntryAt(RoundsOf(nodes[members[i]].log, request.key), round).acceptedValue != v)
  {
    var key, round := request.key, NextRound(nodes[proposer], request.key);
    CommitsFirstHeard(nodes, members, proposer, request, oracle);
    NobodyHeard(nodes, members, key, round, oracle);
    if FirstHeard(nodes, members, key, round, oracle).Some? {
      var i := SomeoneIsFirst(nodes, members, key, round, oracle);
    }
    forall i | 0 <= i < |members| && FirstAccepted(nodes, members, i, key, round, oracle)
      ensures FirstHeard(nodes, members, key, round, oracle)
              == Some(EntryAt(RoundsOf(nodes[members[i]].log, key), round))
    {
      FirstHeardIs(nodes, members, i, key, round, oracle);
    }
  }

  lemma ThreeSets(nodes: Cluster, members: seq<NodeId>, a: NodeId, b: NodeId, c: NodeId,
                  asked: set<NodeId>, side: set<NodeId>, side': set<NodeId>, key: string, v: string, w: string,
                      u: string)
    returns (n1: Cluster, r1: Attempt, n2: Cluster, r2: Attempt, n3: Cluster, r3: Attempt)
    requires Distinct(members) && nodes.Keys == Elems(members) && Blank(nodes) && key != LEADER_KEY
    requires asked <= Elems(members) && side <= Elems(members) && side' <= Elems(members)
    requires |members| == 5 && |asked| == |side| == |side'| == 3 && members[0] == a
    requires a in asked && b in side && c in side' && a in side'
    requires b !in asked && a !in side && c !in side && c !in asked
    requires forall n :: n in nodes ==> n == a || n == c || n in side
    ensures SetCall(nodes, members, a, key, w, asked, {a}, n1, r1)
    ensures SetCall(n1, members, b, key, v, side, side, n2, r2)
    ensures SetCall(n2, members, c, key, u, side', side', n3, r3)
    ensures !r1.ok && r2.ok && r3.ok && r1.round == r2.round == r3.round == 0
    ensures r2.acceptance.value == v && r3.acceptance.value == w
    ensures Shows(AfterTwo(nodes, a, c, v, w), n2, key)
    ensures Shows(Divided(nodes, side', w, v), n3, key)
  {
    n1, r1 := AbortedVote(nodes, members, a, key, w, asked);
    FivePictures(nodes, a, c, asked, side, side', v, w);
    n2, r2 := SecondSet(nodes, n1, members, a, b, asked, side, key, v, w);
    n3, r3 := ThirdSet(nodes, n2, members, a, c, side', key, v, w, u);
  }

  lemma SecondSet(nodes: Cluster, n1: Cluster, members: seq<NodeId>, a: NodeId, b: NodeId,
                  asked: set<NodeId>, side: set<NodeId>, key: string, v: string, w: string)
    returns (n2: Cluster, r2: Attempt)
    requires Distinct(members) && n1.Keys == nodes.Keys == Elems(members) && key != LEADER_KEY
    requires side <= Elems(members) && |members| == 5 && |side| == 3
    requires b in side && a !in side && b !in asked
    requires Shows(VoteLeft(nodes, a, asked, w), n1, key)
    ensures SetCall(n1, members, b, key, v, side, side, n2, r2) && n2.Keys == nodes.Keys
    ensures r2.ok && r2.round == 0 && r2.acceptance.value == v
    ensures Shows(Painted(VoteLeft(nodes, a, asked, w), side, Stored(v)), n2, key)
  {
    n2, r2 := FreshStep(n1, members, b, key, v, side, VoteLeft(nodes, a, asked, w));
  }

  lemma ThirdSet(nodes: Cluster, n2: Cluster, members: seq<NodeId>, a: NodeId, c: NodeId, side': set<NodeId>,
                 key: string, v: string, w: string, u: string)
    returns (n3: Cluster, r3: Attempt)
    requires Distinct(members) && n2.Keys == nodes.Keys == Elems(members) && key != LEADER_KEY
    requires side' <= Elems(members) && |members| == 5 && |side'| == 3 && members[0] == a
    requires a in side' && c in side' && a != c
    requires Shows(AfterTwo(nodes, a, c, v, w), n2, key)
    ensures SetCall(n2, members, c, key, u, side', side', n3, r3)
    ensures r3.ok && r3.round == 0 && r3.acceptance.value == w
    ensures Shows(Painted(AfterTwo(nodes, a, c, v, w), side', Stored(w)), n3, key)
  {
    n3, r3 := LedStep(n2, members, c, key, u, side', AfterTwo(nodes, a, c, v, w), w);
  }

  /** After the abort of `a` and the commit at everyone but `a` and `c`. */
  function AfterTwo(nodes: Cluster, a: NodeId, c: NodeId, v: string, w: string): Picture {
    map n | n in nodes :: if n == a then Voted(w) else if n == c then NOTHING else Stored(v)
  }

  lemma FivePictures(nodes: Cluster, a: NodeId, c: NodeId, asked: set<NodeId>, side: set<NodeId>, side': set<NodeId>,
                     v: string, w: string)
    requires forall n :: n in nodes ==> n == a || n == c || n in side
    requires a !in side && c !in side && c !in asked && a in side' && c in side'
    ensures Painted(VoteLeft(nodes, a, asked, w), side, Stored(v)) == AfterTwo(nodes, a, c, v, w)
    ensures Painted(AfterTwo(nodes, a, c, v, w), side', Stored(w))
            == Divided(nodes, side', w, v)
  {
  }

  lemma FiveNames(a: NodeId, b: NodeId, c: NodeId, d: NodeId, e: NodeId)
    requires Distinct([a, b, c, d, e])
    ensures Elems([a, b, c, d, e]) == {a, b, c, d, e} && |{a, b, c, d, e}| == 5
    ensures |{a, d, e}| == |{b, d, e}| == |{a, c, d}| == 3
    ensures a != b && a != c && a != d && a != e && b != c && b != d && b != e && c != d && c != e && d != e
  {
    assert Elems([a, b, c, d, e]) == {a, b, c, d, e};
    NotBefore([a, b, c, d, e], 1);
    NotBefore([a, b, c, d, e], 2);
    NotBefore([a, b, c, d, e], 3);
    NotBefore([a, b, c, d, e], 4);
  }

  /** What an attempt leaves whose accept calls reached its proposer only. */
  function VoteLeft(nodes: Cluster, p: NodeId, side: set<NodeId>, w: string): Picture {
    map n | n in nodes :: if n == p then Voted(w) else if n in side then PREPARED else NOTHING
  }

  lemma AbortedVote(nodes: Cluster, members: seq<NodeId>, p: NodeId, key: string, w: string, side: set<NodeId>)
    returns (n1: Cluster, r1: Attempt)
    requires Distinct(members) && nodes.Keys == Elems(members) && Blank(nodes) && key != LEADER_KEY
    requires side <= Elems(members) && p in side && !NoQuorum(|side|, |members|) && NoQuorum(1, |members|)
    ensures SetCall(nodes, members, p, key, w, side, {p}, n1, r1) && n1.Keys == nodes.Keys
    ensures !r1.ok && r1.round == 0 && Shows(VoteLeft(nodes, p, side, w), n1, key)
  {
    assert p in Elems(members) && Elems(members) * side == side && side * {p} == {p};
    n1, r1 := CallSet(nodes, members, p, key, w, side, {p});
    var q := PartitionOutcome(nodes, members, p, SetRequest(key, w), side, {p});
    var l := Side(members, side);
    UnacceptedFollows(q, nodes, l, key, w, 0);
    assert n1 == SideVoted(SidePrepared(nodes, l, Prepare(SetRequest(key, w), 0)), l, {p}, q);
    VoteShows(nodes, l, p, key, w, side, n1);
  }

  lemma VoteShows(nodes: Cluster, l: seq<NodeId>, p: NodeId, key: string, w: string, side: set<NodeId>, n1: Cluster)
    requires Blank(nodes) && Elems(l) == side
    requires n1 == SideVoted(SidePrepared(nodes, l, Prepare(SetRequest(key, w), 0)), l, {p}, Commit(key, w, 0))
    requires p in side && key != LEADER_KEY
    ensures Shows(VoteLeft(nodes, p, side, w), n1, key)
  {
    var prepare, q := Prepare(SetRequest(key, w), 0), Commit(key, w, 0);
    assert forall n :: n in l <==> n in Elems(l);
    Prepares(BLANK_NODE, prepare);
    Accepts(ServePropose(BLANK_NODE, prepare).0, q);
  }

  // ----- A recovered replica proposes -----

  /** Replica state after two commits in a row. */
  predicate HoldsBoth(s: NodeState, key: string, v0: string, v1: string) {
    RoundsOf(s.log, key) == map[0 := Vote(v0), 1 := Vote(v1)] && Lookup(s.kv, key) == Some(v1)
  }

  /** The value has come back at `x` and nowhere else. */
  predicate GoneBack(s: NodeState, n: NodeId, x: NodeId, key: string, v0: string, v1: string) {
    Lookup(s.kv, key) == Some(if n == x then v0 else v1)
  }

  ghost predicate AllStored(nodes: Cluster, key: string, v0: string) {
    forall n :: n in nodes ==> Holds(nodes[n], key, Stored(v0))
  }

  ghost predicate AllBoth(nodes: Cluster, key: string, v0: string, v1: string) {
    forall n :: n in nodes ==> HoldsBoth(nodes[n], key, v0, v1)
  }

  ghost predicate AllGoneBack(nodes: Cluster, x: NodeId, key: string, v0: string, v1: string) {
    forall n :: n in nodes ==> GoneBack(nodes[n], n, x, key, v0, v1)
  }

  lemma FirstCommit(nodes: Cluster, members: seq<NodeId>, p: NodeId, key: string, v0: string)
    returns (n1: Cluster, r1: Attempt)
    requires Distinct(members) && nodes.Keys == Elems(members) && Blank(nodes) && key != LEADER_KEY && p in members
    ensures SetCall(nodes, members, p, key, v0, Elems(members), Elems(members), n1, r1) && n1.Keys == nodes.Keys
    ensures r1.ok && r1.round == 0 && r1.acceptance.value == v0
    ensures AllStored(n1, key, v0)
  {
    var pic := BlankShows(nodes, key);
    n1, r1 := FreshStep(nodes, members, p, key, v0, Elems(members), pic);
  }

  lemma SecondCommit(n1: Cluster, members: seq<NodeId>, p: NodeId, key: string, v0: string, v1: string)
    returns (n2: Cluster, r2: Attempt)
    requires Distinct(members) && n1.Keys == Elems(members) && key != LEADER_KEY && p in members
    requires AllStored(n1, key, v0)
    ensures SetCall(n1, members, p, key, v1, Elems(members), Elems(members), n2, r2) && n2.Keys == n1.Keys
    ensures r2.ok && r2.round == 1 && r2.acceptance.value == v1
    ensures AllBoth(n2, key, v0, v1)
  {
    var all := Elems(members);
    assert p in all;
    RoundOneIsFree(n1, key, v0);
    n2, r2 := CallSet(n1, members, p, key, v1, all, all);
    FreshSet(n1, members, p, key, v1, all, n2, r2);
    BothCommitted(n1, n2, key, v0, v1);
  }

  lemma RoundOneIsFree(n1: Cluster, key: string, v0: string)
    requires AllStored(n1, key, v0)
    ensures OnlySets(n1, key, 1)
    ensures forall n :: n in n1 ==> !Accepted(n1[n], key, 1) && NextRound(n1[n], key) == 1
  {
  }

  lemma BothCommitted(n1: Cluster, n2: Cluster, key: string, v0: string, v1: string)
    requires AllStored(n1, key, v0) && CommittedOn(n1, n2, n1.Keys, Commit(key, v1, 1))
    ensures AllBoth(n2, key, v0, v1)
  {
    forall n | n in n2 ensures HoldsBoth(n2[n], key, v0, v1) {
      assert CommittedAt(n1[n], n2[n], Commit(key, v1, 1));
    }
  }

  /** Everyone on the side but the proposer has accepted `w` at the round, so `w` is committed again. */
  lemma OldValueLeads(q: Request, nodes: Cluster, l: seq<NodeId>, x: NodeId, y: NodeId, key: string, round: nat,
                      u: string, w: string)
    requires Elems(l) <= nodes.Keys && Follows(q, nodes, l, SetRequest(key, u), round)
    requires x in nodes && !Accepted(nodes[x], key, round) && y in Elems(l) && y != x
    requires forall n :: n in nodes && n != x ==> EntryAt(RoundsOf(nodes[n].log, key), round) == Vote(w)
    ensures q.value == w && q.key == key && q.round == round
  {
    assert Accepted(nodes[y], key, round);
    var i :| 0 <= i < |l| && Leads(q, nodes, l, i);
    assert l[i] in Elems(l) && l[i] != x;
  }

  /** `x` has restarted and then copied the store of `p`. */
  function BackUp(nodes: Cluster, x: NodeId, p: NodeId): Cluster
    requires x in nodes && p in nodes
  {
    nodes[x := Recovered(BLANK_NODE, nodes[p].kv)]
  }

  lemma BackUpHolds(nodes: Cluster, x: NodeId, p: NodeId, key: string, v0: string, v1: string)
    requires x in nodes && p in nodes && x != p && AllBoth(nodes, key, v0, v1)
    ensures Lookup(nodes[p].kv, key) == Lookup(BackUp(nodes, x, p)[x].kv, key) == Some(v1)
    ensures RoundsOf(BackUp(nodes, x, p)[x].log, key) == map[]
    ensures forall n :: n in nodes && n != x ==> HoldsBoth(BackUp(nodes, x, p)[n], key, v0, v1)
  {
    assert HoldsBoth(nodes[p], key, v0, v1);
  }

  /** In an attempt from `nodes` that reaches everyone and ends as `a`, replica `n` answers the success call ABORTED. */
  ghost predicate TurnsDown(nodes: Cluster, members: seq<NodeId>, a: Attempt, n: NodeId) {
    var q := SuccessRequest(a);
    var called := WhenInformed(nodes, members, a.request, q, Split(Elems(members), Elems(members)));
    n in called && Serve(called[n], Success(q)).1.Aborted?
  }

  ghost predicate AllTurnDownBut(nodes: Cluster, members: seq<NodeId>, a: Attempt, x: NodeId) {
    forall n :: n in nodes ==> (TurnsDown(nodes, members, a, n) <==> n != x)
  }

  lemma OthersTurnDown(nodes: Cluster, members: seq<NodeId>, a: Attempt, x: NodeId, key: string,
                       v0: string, v1: string)
    requires forall n :: n in nodes && n != x ==> HoldsBoth(nodes[n], key, v0, v1)
    requires x in nodes && RoundsOf(nodes[x].log, key) == map[]
    requires a.request.key == key && a.acceptance.round == 0
    ensures AllTurnDownBut(nodes, members, a, x)
  {
    var all, q := Elems(members), SuccessRequest(a);
    forall n | n in nodes ensures TurnsDown(nodes, members, a, n) <==> n != x {
      TurnedDownExactly(nodes, members, a.request, q, Split(all, all), n);
      assert n != x ==> 1 in RoundsOf(nodes[n].log, key);
    }
  }

  lemma RecoveredProposes(nodes: Cluster, members: seq<NodeId>, x: NodeId, y: NodeId, key: string,
                          v0: string, v1: string, v2: string)
    returns (n3: Cluster, r3: Attempt)
    requires Distinct(members) && nodes.Keys == Elems(members) && key != LEADER_KEY
    requires x in members && y in members && x != y && |members| > 0
    requires forall n :: n in nodes && n != x ==> HoldsBoth(nodes[n], key, v0, v1)
    requires RoundsOf(nodes[x].log, key) == map[]
    ensures SetCall(nodes, members, x, key, v2, Elems(members), Elems(members), n3, r3) && n3.Keys == nodes.Keys
    ensures r3.ok && r3.round == 0 && r3.acceptance.value == v0
    ensures AllGoneBack(n3, x, key, v0, v1) && AllTurnDownBut(nodes, members, r3, x)
  {
    var all := Elems(members);
    assert x in all && y in all;
    n3, r3 := CallSet(nodes, members, x, key, v2, all, all);
    var q := SetOnSide(nodes, members, x, key, v2, all, n3, r3);
    OldValueLeads(q, nodes, Side(members, all), x, y, key, 0, v2, v0);
    OthersTurnDown(nodes, members, r3, x, key, v0, v1);
    forall n | n in n3 ensures GoneBack(n3[n], n, x, key, v0, v1) {
      assert CommittedAt(nodes[n], n3[n], q);
      assert n != x ==> 1 in RoundsOf(nodes[n].log, key);
      assert !Outdated(map[], 0);
    }
  }

  lemma AfterRecovery(n2: Cluster, members: seq<NodeId>, p: NodeId, x: NodeId, key: string,
                      v0: string, v1: string, v2: string)
    returns (n3: Cluster, r3: Attempt)
    requires Distinct(members) && n2.Keys == Elems(members) && key != LEADER_KEY
    requires p in members && x in members && p != x && p in n2 && x in n2 && AllBoth(n2, key, v0, v1)
    ensures Lookup(n2[p].kv, key) == Some(v1)
    ensures SetCall(BackUp(n2, x, p), members, x, key, v2, Elems(members), Elems(members), n3, r3)
    ensures r3.ok && r3.acceptance.value == v0 && AllGoneBack(n3, x, key, v0, v1)
    ensures AllTurnDownBut(BackUp(n2, x, p), members, r3, x)
  {
    BackUpHolds(n2, x, p, key, v0, v1);
    n3, r3 := RecoveredProposes(BackUp(n2, x, p), members, x, p, key, v0, v1, v2);
  }

  lemma TwoCommits(nodes: Cluster, members: seq<NodeId>, p: NodeId, key: string, v0: string, v1: string)
    returns (n1: Cluster, r1: Attempt, n2: Cluster, r2: Attempt)
    requires Distinct(members) && nodes.Keys == Elems(members) && Blank(nodes) && key != LEADER_KEY && p in members
    ensures SetCall(nodes, members, p, key, v0, Elems(members), Elems(members), n1, r1)
    ensures SetCall(n1, members, p, key, v1, Elems(members), Elems(members), n2, r2) && n2.Keys == nodes.Keys
    ensures r1.ok && r2.ok && r1.acceptance.value == v0 && r2.acceptance.value == v1 && AllBoth(n2, key, v0, v1)
  {
    n1, r1 := FirstCommit(nodes, members, p, key, v0);
    n2, r2 := SecondCommit(n1, members, p, key, v0, v1);
  }

  /** A replica `x` that restarted and copied the store of `p` proposes `v2` with everyone reachable. Its call returns
      OK, but commits the oldest value `v0`: `x` itself goes back from `v1` to `v0`, the others turn the success call
      down as outdated, and `v2` is stored nowhere. */
  lemma RecoveredProposerGoesBack(nodes: Cluster, members: seq<NodeId>, p: NodeId, x: NodeId, key: string,
                                  v0: string, v1: string, v2: string)
    returns (n1: Cluster, r1: Attempt, n2: Cluster, r2: Attempt, n3: Cluster, r3: Attempt)
    requires Distinct(members) && nodes.Keys == Elems(members) && Blank(nodes) && key != LEADER_KEY
    requires p in members && x in members && p != x
    ensures SetCall(nodes, members, p, key, v0, Elems(members), Elems(members), n1, r1)
    ensures SetCall(n1, members, p, key, v1, Elems(members), Elems(members), n2, r2)
    ensures x in n2 && p in n2 && Lookup(n2[p].kv, key) == Some(v1)
    ensures SetCall(BackUp(n2, x, p), members, x, key, v2, Elems(members), Elems(members), n3, r3)
    ensures r1.ok && r2.ok && r3.ok && r1.acceptance.value == v0 && r2.acceptance.value == v1
    ensures r3.acceptance.value == v0
    ensures AllGoneBack(n3, x, key, v0, v1) && AllTurnDownBut(BackUp(n2, x, p), members, r3, x)
  {
    assert p in Elems(members) && x in Elems(members);
    n1, r1, n2, r2 := TwoCommits(nodes, members, p, key, v0, v1);
    n3, r3 := AfterRecovery(n2, members, p, x, key, v0, v1, v2);
  }

  // ----- A log with a gap -----

  /** After `x` restarted and round 2 was then committed everywhere: the log of `x` has that round only. */
  predicate HoldsThird(s: NodeState, n: NodeId, x: NodeId, key: string, v0: string, v1: string, v2: string) {
    && RoundsOf(s.log, key) == (if n == x then map[2 := Vote(v2)] else map[0 := Vote(v0), 1 := Vote(v1), 2 := Vote(v2)])
    && Lookup(s.kv, key) == Some(v2)
  }

  ghost predicate AllThird(nodes: Cluster, x: NodeId, key: string, v0: string, v1: string, v2: string) {
    forall n :: n in nodes ==> HoldsThird(nodes[n], n, x, key, v0, v1, v2)
  }

  lemma ThirdCommit(n2: Cluster, members: seq<NodeId>, p: NodeId, x: NodeId, key: string, v0: string, v1: string,
                    v2: string)
    returns (n3: Cluster, r3: Attempt)
    requires Distinct(members) && n2.Keys == Elems(members) && key != LEADER_KEY
    requires p in members && x in n2 && p != x && AllBoth(n2, key, v0, v1)
    ensures SetCall(Restarted(n2, x), members, p, key, v2, Elems(members), Elems(members), n3, r3)
    ensures r3.ok && r3.round == 2 && r3.acceptance.value == v2
    ensures n3.Keys == n2.Keys && AllThird(n3, x, key, v0, v1, v2)
  {
    var all, up := Elems(members), Restarted(n2, x);
    assert p in all;
    RoundTwoIsFree(n2, x, p, key, v0, v1);
    n3, r3 := CallSet(up, members, p, key, v2, all, all);
    FreshSet(up, members, p, key, v2, all, n3, r3);
    forall n | n in n3 ensures HoldsThird(n3[n], n, x, key, v0, v1, v2) {
      ThirdHeld(n2, up, n3, n, x, key, v0, v1, v2);
    }
  }

  lemma RoundTwoIsFree(n2: Cluster, x: NodeId, p: NodeId, key: string, v0: string, v1: string)
    requires AllBoth(n2, key, v0, v1) && x in n2 && p in n2 && p != x
    ensures OnlySets(Restarted(n2, x), key, 2) && NextRound(Restarted(n2, x)[p], key) == 2
    ensures forall n :: n in n2 ==> !Accepted(Restarted(n2, x)[n], key, 2)
  {
    assert HoldsBoth(n2[p], key, v0, v1);
  }

  lemma ThirdHeld(n2: Cluster, up: Cluster, n3: Cluster, n: NodeId, x: NodeId, key: string, v0: string, v1: string,
                  v2: string)
    requires x in n2 && up == Restarted(n2, x) && AllBoth(n2, key, v0, v1) && n in n2
    requires CommittedOn(up, n3, n2.Keys, Commit(key, v2, 2))
    ensures n in n3 && HoldsThird(n3[n], n, x, key, v0, v1, v2)
  {
    assert CommittedAt(up[n], n3[n], Commit(key, v2, 2));
    assert n != x ==> HoldsBoth(n2[n], key, v0, v1);
    assert !Outdated(RoundsOf(up[n].log, key), 2);
  }

  lemma GapProposes(n3: Cluster, members: seq<NodeId>, x: NodeId, y: NodeId, key: string,
                    v0: string, v1: string, v2: string, u: string)
    returns (n4: Cluster, r4: Attempt)
    requires Distinct(members) && n3.Keys == Elems(members) && key != LEADER_KEY
    requires x in members && y in members && x != y && AllThird(n3, x, key, v0, v1, v2)
    ensures SetCall(n3, members, x, key, u, Elems(members), Elems(members), n4, r4)
    ensures r4.ok && r4.round == 1 && r4.acceptance.value == v1 && r4.acceptance.round == 1
    ensures Unmoved(n3, n4, key, v2)
  {
    var all := Elems(members);
    assert x in all && y in all;
    GapRound(n3, x, key, v0, v1, v2);
    n4, r4 := CallSet(n3, members, x, key, u, all, all);
    var q := SetOnSide(n3, members, x, key, u, all, n4, r4);
    OldValueLeads(q, n3, Side(members, all), x, y, key, 1, u, v1);
    forall n | n in n3 ensures n4[n].kv == n3[n].kv && Lookup(n3[n].kv, key) == Some(v2) {
      assert CommittedAt(n3[n], n4[n], q) && HoldsThird(n3[n], n, x, key, v0, v1, v2);
      assert 2 in RoundsOf(n3[n].log, key);
    }
  }

  lemma GapRound(n3: Cluster, x: NodeId, key: string, v0: string, v1: string, v2: string)
    requires AllThird(n3, x, key, v0, v1, v2) && x in n3
    ensures NextRound(n3[x], key) == 1 && OnlySets(n3, key, 1) && !Accepted(n3[x], key, 1)
    ensures forall n :: n in n3 && n != x ==> EntryAt(RoundsOf(n3[n].log, key), 1) == Vote(v1)
  {
    assert HoldsThird(n3[x], x, x, key, v0, v1, v2);
    assert forall n :: n in n3 ==> HoldsThird(n3[n], n, x, key, v0, v1, v2);
  }

  /** `x` restarts, `v2` is committed everywhere at round 2, and then `x` proposes `u`. */
  lemma AfterGap(n2: Cluster, members: seq<NodeId>, p: NodeId, x: NodeId, key: string,
                 v0: string, v1: string, v2: string, u: string)
    returns (n3: Cluster, r3: Attempt, n4: Cluster, r4: Attempt)
    requires Distinct(members) && n2.Keys == Elems(members) && key != LEADER_KEY
    requires p in members && x in members && p != x && x in n2 && AllBoth(n2, key, v0, v1)
    ensures SetCall(Restarted(n2, x), members, p, key, v2, Elems(members), Elems(members), n3, r3)
    ensures SetCall(n3, members, x, key, u, Elems(members), Elems(members), n4, r4)
    ensures x in n3 && RoundsOf(n3[x].log, key).Keys == {2} && r3.ok && r3.round == 2 && r3.acceptance.value == v2
    ensures r4.ok && r4.round == 1 && r4.acceptance.value == v1 && r4.acceptance.round == 1
    ensures Unmoved(n3, n4, key, v2)
  {
    n3, r3 := ThirdCommit(n2, members, p, x, key, v0, v1, v2);
    n4, r4 := GapProposes(n3, members, x, p, key, v0, v1, v2, u);
    assert HoldsThird(n3[x], x, x, key, v0, v1, v2);
  }

  /** No store has changed, and all of them hold `v`. */
  ghost predicate Unmoved(nodes: Cluster, nodes': Cluster, key: string, v: string) {
    && nodes'.Keys == nodes.Keys
    && forall n :: n in nodes ==> nodes'[n].kv == nodes[n].kv && Lookup(nodes[n].kv, key) == Some(v)
  }

  // ----- Restarts undo a decided round -----

  /** Restarting leaves nothing of a replica's log and store. */
  function Restarted(nodes: Cluster, b: NodeId): Cluster
    requires b in nodes
  {
    nodes[b := BLANK_NODE]
  }

  function AllRestarted(nodes: Cluster, lost: set<NodeId>): Cluster {
    map n | n in nodes :: if n in lost then BLANK_NODE else nodes[n]
  }

  lemma RestartShows(nodes: Cluster, lost: set<NodeId>, key: string, pic: Picture)
    requires Shows(pic, nodes, key)
    ensures Shows(Painted(pic, lost, NOTHING), AllRestarted(nodes, lost), key)
  {
  }

  /** If too few of the replicas keep their logs, the others are enough to pass the quorum test. */
  lemma OthersPass(members: seq<NodeId>, kept: set<NodeId>)
    requires Distinct(members) && kept <= Elems(members) && NoQuorum(|kept|, |members|)
    ensures !NoQuorum(|Elems(members) - kept|, |members|)
  {
    assert |Elems(members) - kept| == |members| - |kept|;
  }

  /** Who has voted for `v`, after some of them restarted. */
  function VotesLeft(nodes: Cluster, kept: set<NodeId>, v: string): Picture {
    map n | n in nodes :: if n in kept then Stored(v) else NOTHING
  }

  lemma RestartPictures(nodes: Cluster, side: set<NodeId>, lost: set<NodeId>, v: string, w: string)
    requires lost <= side <= nodes.Keys
    ensures Painted(Painted(map n | n in nodes :: NOTHING, side, Stored(v)), lost, NOTHING)
            == VotesLeft(nodes, side - lost, v)
    ensures Painted(VotesLeft(nodes, side - lost, v), nodes.Keys - (side - lost), Stored(w))
            == Divided(nodes, nodes.Keys - (side - lost), w, v)
  {
  }

  /** The first half of what follows: `v` is committed on `side`, and `lost` restarts. */
  lemma CommitThenRestart(nodes: Cluster, members: seq<NodeId>, p: NodeId, side: set<NodeId>, lost: set<NodeId>,
                          key: string, v: string)
    returns (n1: Cluster, r1: Attempt)
    requires Distinct(members) && nodes.Keys == Elems(members) && Blank(nodes) && key != LEADER_KEY
    requires side <= Elems(members) && p in side && !NoQuorum(|side|, |members|) && lost <= side
    ensures SetCall(nodes, members, p, key, v, side, side, n1, r1) && n1.Keys == nodes.Keys
    ensures r1.ok && r1.round == 0 && r1.acceptance.value == v
    ensures Shows(VotesLeft(nodes, side - lost, v), AllRestarted(n1, lost), key)
  {
    var pic := BlankShows(nodes, key);
    n1, r1 := FreshStep(nodes, members, p, key, v, side, pic);
    RestartShows(n1, lost, key, Painted(pic, side, Stored(v)));
    RestartPictures(nodes, side, lost, v, v);
  }

  /** `v` is committed at round 0 by the votes of `side`, and `lost` of them restart. If the rest does not pass the
      quorum test, a proposer among the others commits `w` at the same key and round, and the cluster is divided. */
  lemma LostVotesUndoDecision(nodes: Cluster, members: seq<NodeId>, p: NodeId, p': NodeId, side: set<NodeId>,
                              lost: set<NodeId>, key: string, v: string, w: string)
    returns (n1: Cluster, r1: Attempt, n2: Cluster, r2: Attempt)
    requires Distinct(members) && nodes.Keys == Elems(members) && Blank(nodes) && key != LEADER_KEY && v != w
    requires side <= Elems(members) && p in side && !NoQuorum(|side|, |members|)
    requires lost <= side && NoQuorum(|side - lost|, |members|) && p' in Elems(members) - (side - lost)
    ensures SetCall(nodes, members, p, key, v, side, side, n1, r1)
    ensures var others := Elems(members) - (side - lost);
            && SetCall(AllRestarted(n1, lost), members, p', key, w, others, others, n2, r2)
            && Shows(Divided(nodes, others, w, v), n2, key)
    ensures r1.ok && r2.ok && r1.round == r2.round == 0 && r1.acceptance.value == v && r2.acceptance.value == w
  {
    n1, r1 := CommitThenRestart(nodes, members, p, side, lost, key, v);
    OthersPass(members, side - lost);
    RestartPictures(nodes, side, lost, v, w);
    n2, r2 := FreshStep(AllRestarted(n1, lost), members, p', key, w, Elems(members) - (side - lost),
                        VotesLeft(nodes, side - lost, v));
  }

  /** This attempt, by a replica that takes round 0 for the next, returns OK with another value than `v`. */
  ghost predicate Differs(nodes: Cluster, members: seq<NodeId>, key: string, v: string, p: NodeId, request: Request,
                          oracle: Oracle) {
    && Distinct(members) && nodes.Keys == Elems(members) && p in members
    && NextRound(nodes[p], key) == 0 && request.key == key
    && RunAttempt(nodes, members, p, request, oracle).1.ok
    && RunAttempt(nodes, members, p, request, oracle).1.acceptance.value != v
  }

  ghost predicate CanDiffer(nodes: Cluster, members: seq<NodeId>, key: string, v: string) {
    exists p, request, oracle :: Differs(nodes, members, key, v, p, request, oracle)
  }

  /** With an odd number of replicas, exactly the restarts that leave too few of the voters to pass the quorum test undo
      the decision: some attempt at the round can then return OK with another value, and otherwise none can, whoever
      makes it and whatever becomes of its calls. */
  lemma RestartsForgetExactly(nodes: Cluster, members: seq<NodeId>, p: NodeId, side: set<NodeId>, lost: set<NodeId>,
                              key: string, v: string)
    returns (n1: Cluster, r1: Attempt)
    requires Distinct(members) && nodes.Keys == Elems(members) && Blank(nodes) && key != LEADER_KEY
    requires |members| % 2 == 1 && side <= Elems(members) && p in side && !NoQuorum(|side|, |members|) && lost <= side
    ensures SetCall(nodes, members, p, key, v, side, side, n1, r1) && r1.ok && r1.acceptance.value == v
    ensures CanDiffer(AllRestarted(n1, lost), members, key, v) <==> NoQuorum(|side - lost|, |members|)
  {
    n1, r1 := CommitThenRestart(nodes, members, p, side, lost, key, v);
    if NoQuorum(|side - lost|, |members|) {
      OthersDiffer(nodes, AllRestarted(n1, lost), members, side - lost, key, v);
    } else {
      forall p', request, oracle ensures !Differs(AllRestarted(n1, lost), members, key, v, p', request, oracle) {
        if Differs(AllRestarted(n1, lost), members, key, v, p', request, oracle) {
          KeptVotesPrevail(nodes, AllRestarted(n1, lost), members, side - lost, p', request, oracle, v);
        }
      }
    }
  }

  /** A string that differs from the given one. */
  function Other(v: string): (w: string)
    ensures w != v
  {
    v + "+"
  }

  lemma OthersDiffer(nodes: Cluster, left: Cluster, members: seq<NodeId>, kept: set<NodeId>, key: string, v: string)
    requires Distinct(members) && nodes.Keys == left.Keys == Elems(members) && key != LEADER_KEY && |members| > 0
    requires kept <= Elems(members) && NoQuorum(|kept|, |members|) && Shows(VotesLeft(nodes, kept, v), left, key)
    ensures CanDiffer(left, members, key, v)
  {
    var others, w := Elems(members) - kept, Other(v);
    OthersPass(members, kept);
    var p := SomeOf(others);
    var n2, r2 := FreshStep(left, members, p, key, w, others, VotesLeft(nodes, kept, v));
    assert Differs(left, members, key, v, p, SetRequest(key, w), Split(others, others));
  }

  lemma KeptVotesPrevail(nodes: Cluster, left: Cluster, members: seq<NodeId>, kept: set<NodeId>, p: NodeId,
                         request: Request, oracle: Oracle, v: string)
    requires Distinct(members) && |members| % 2 == 1 && nodes.Keys == left.Keys == Elems(members) && p in members
    requires kept <= Elems(members) && !NoQuorum(|kept|, |members|)
    requires Shows(VotesLeft(nodes, kept, v), left, request.key) && NextRound(left[p], request.key) == 0
    requires RunAttempt(left, members, p, request, oracle).1.ok
    ensures RunAttempt(left, members, p, request, oracle).1.acceptance.value == v
  {
    ShowsSets(left, request.key, VotesLeft(nodes, kept, v));
    VotesAreFor(nodes, left, kept, request.key, v);
    QuorumIsHeard(left, members, p, request, oracle, kept);
    NobodyHeard(left, members, request.key, 0, oracle);
  }

  lemma VotesAreFor(nodes: Cluster, left: Cluster, kept: set<NodeId>, key: string, v: string)
    requires Shows(VotesLeft(nodes, kept, v), left, key) && kept <= nodes.Keys
    ensures AllKnown(left, key, 0)
    ensures forall n :: n in left ==>
              (Accepted(left[n], key, 0) <==> n in kept)
              && (n in kept ==> EntryAt(RoundsOf(left[n].log, key), 0).acceptedValue == v)
  {
  }

  /** So with any odd number of replicas, at least three, the restart of one replica can make two OK calls commit
      different values at one key and round, with replicas left that store the first value and replicas that store the
      second. */
  lemma OddClustersForget(nodes: Cluster, members: seq<NodeId>, key: string, v: string, w: string)
    returns (side: set<NodeId>, b: NodeId, p: NodeId, n1: Cluster, r1: Attempt, n2: Cluster, r2: Attempt)
    requires Distinct(members) && nodes.Keys == Elems(members) && Blank(nodes) && key != LEADER_KEY && v != w
    requires |members| % 2 == 1 && |members| >= 3
    ensures b in side && side - {b} != {}
    ensures SetCall(nodes, members, p, key, v, side, side, n1, r1)
    ensures var others := Elems(members) - (side - {b});
            && SetCall(AllRestarted(n1, {b}), members, b, key, w, others, others, n2, r2)
            && Shows(Divided(nodes, others, w, v), n2, key)
    ensures r1.ok && r2.ok && r1.round == r2.round == 0 && r1.acceptance.value == v && r2.acceptance.value == w
  {
    var h := |members| / 2;
    var front := Elems(members[..h]);
    b := members[h];
    HalvesApart(members, h);
    side := front + {b};
    assert side - {b} == front;
    p := b;
    n1, r1, n2, r2 := LostVotesUndoDecision(nodes, members, p, b, side, {b}, key, v, w);
  }

  lemma HalvesApart(members: seq<NodeId>, h: nat)
    requires Distinct(members) && h < |members|
    ensures var front, back := Elems(members[..h]), Elems(members[h + 1..]);
            && Elems(members) == (front + {members[h]}) + ({members[h]} + back)
            && members[h] !in front && members[h] !in back && front * back == {}
            && |front| == h && |back| == |members| - h - 1
  {
    var front, back, b := Elems(members[..h]), Elems(members[h + 1..]), members[h];
    NotBefore(members, h);
    ElemsSplit(members, h + 1);
    ElemsSize(members[h + 1..]);
    assert members[..h + 1] == members[..h] + [b];
    assert Elems(members[..h + 1]) == front + {b};
    DisjointParts(front + {b}, back, Elems(members));
  }

  /** A union as large as its two parts together has no element in both. */
  lemma DisjointParts(a: set<NodeId>, b: set<NodeId>, all: set<NodeId>)
    requires all == a + b && |all| >= |a| + |b|
    ensures a * b == {} && |all| == |a| + |b|
    ensures forall n :: n in a ==> n !in b
  {
    assert |a + b| == |a| + |b| - |a * b|;
    assert forall n :: n in a && n in b ==> n in a * b;
  }

  // ----- These are runs -----

  /** The run has reached these states and results, and nothing is running. */
  ghost predicate Rests(w: World, t: Trace, nodes: Cluster, history: seq<Finished>) {
    && Sound(w) && Valid(w, t)
    && Run(w, t).nodes == nodes && Run(w, t).active == map[] && Run(w, t).history == history
  }

  /** Every set call of this module is a stretch of a run. */
  lemma SetCallMoves(w: World, t: Trace, nodes: Cluster, history: seq<Finished>, id: AttemptId, proposer: NodeId,
                     key: string, value: string, reached: set<NodeId>, voters: set<NodeId>, nodes': Cluster, a: Attempt,
                     faithful: set<NodeId>)
    returns (t': Trace)
    requires Rests(w, t, nodes, history) && id.key == key
    requires SetCall(nodes, w.members, proposer, key, value, reached, voters, nodes', a)
    ensures Rests(w, t', nodes', history + [Finished(id, SetRequest(key, value), a.ok, a.acceptance)])
    ensures proposer in faithful && faithful <= reached ==> StaysTrusted(w, t, t', faithful)
  {
    assert proposer in Elems(w.members);
    SplitIsHonest(reached, voters, faithful);
    t' := AttemptMoves(w, t, faithful, id, proposer, SetRequest(key, value), Split(reached, voters));
    SetCallConcludes(nodes, w.members, proposer, key, value, reached, voters, nodes', a);
  }

  lemma SplitIsHonest(reached: set<NodeId>, voters: set<NodeId>, faithful: set<NodeId>)
    ensures faithful <= reached ==> HonestOracle(Split(reached, voters), faithful)
  {
  }

  lemma SetCallConcludes(nodes: Cluster, members: seq<NodeId>, proposer: NodeId, key: string, value: string,
                         reached: set<NodeId>, voters: set<NodeId>, nodes': Cluster, a: Attempt)
    requires SetCall(nodes, members, proposer, key, value, reached, voters, nodes', a)
    ensures Concluded(nodes', a) == nodes' && (a.ok ==> a.acceptance.round == a.round)
  {
    assert Wellformed(a);
  }

  lemma RestartMoves(w: World, t: Trace, nodes: Cluster, history: seq<Finished>, b: NodeId, faithful: set<NodeId>)
    returns (t': Trace)
    requires Rests(w, t, nodes, history) && b in nodes
    ensures Rests(w, t', Restarted(nodes, b), history)
    ensures b !in faithful ==> StaysTrusted(w, t, t', faithful)
  {
    ValidThen(w, t, faithful, Restart(b));
    t' := Then(t, Restart(b));
  }

  /** Any number of replicas can restart one after another. */
  lemma {:induction false} RestartsMove(w: World, t: Trace, nodes: Cluster, history: seq<Finished>, lost: set<NodeId>)
    returns (t': Trace)
    requires Rests(w, t, nodes, history) && lost <= nodes.Keys
    ensures Rests(w, t', AllRestarted(nodes, lost), history)
    decreases |lost|
  {
    if lost == {} {
      t' := t;
      NoRestart(nodes);
    } else {
      var b :| b in lost;
      t' := RestartsMove(w, t, nodes, history, lost - {b});
      t' := RestartMoves(w, t', AllRestarted(nodes, lost - {b}), history, b, {});
      OneMoreRestart(nodes, lost, b);
    }
  }

  lemma NoRestart(nodes: Cluster)
    ensures AllRestarted(nodes, {}) == nodes
  {
  }

  lemma OneMoreRestart(nodes: Cluster, lost: set<NodeId>, b: NodeId)
    requires b in lost && b in nodes
    ensures Restarted(AllRestarted(nodes, lost - {b}), b) == AllRestarted(nodes, lost)
  {
  }

  lemma RecoveryMoves(w: World, t: Trace, nodes: Cluster, history: seq<Finished>, x: NodeId, p: NodeId)
    returns (t': Trace)
    requires Rests(w, t, nodes, history) && x in nodes && p in nodes && x != p
    ensures Rests(w, t', BackUp(nodes, x, p), history)
  {
    var t1 := RestartMoves(w, t, nodes, history, x, {});
    ValidThen(w, t1, {}, Recover(x, p));
    t' := Then(t1, Recover(x, p));
    RestartedBackUp(nodes, x, p);
  }

  lemma RestartedBackUp(nodes: Cluster, x: NodeId, p: NodeId)
    requires x in nodes && p in nodes && x != p
    ensures var up := Restarted(nodes, x); up[x := Recovered(up[x], up[p].kv)] == BackUp(nodes, x, p)
  {
    assert nodes[x := BLANK_NODE][x := Recovered(BLANK_NODE, nodes[p].kv)] == BackUp(nodes, x, p);
  }

  /** The result of an attempt, as a run records it. */
  predicate Reports(f: Finished, key: string, value: string, round: nat) {
    f.id.key == key && f.ok && f.response.value == value && f.response.round == round
  }

  /** So there is a run in which two OK attempts at one key and round commit different values, whenever the replicas
      that restart in between leave too few of the voters to pass the quorum test. */
  lemma RestartsBreakAgreement(w: World, p: NodeId, p': NodeId, side: set<NodeId>, lost: set<NodeId>,
                               key: string, v: string, u: string)
    returns (t: Trace, nodes: Cluster, f: Finished, f': Finished)
    requires Initial(w) && Blank(w.nodes) && key != LEADER_KEY && v != u
    requires side <= w.nodes.Keys && p in side && !NoQuorum(|side|, |w.members|)
    requires lost <= side && NoQuorum(|side - lost|, |w.members|) && p' in w.nodes.Keys - (side - lost)
    ensures Rests(w, t, nodes, [] + [f] + [f']) && Reports(f, key, v, 0) && Reports(f', key, u, 0)
    ensures Shows(Divided(w.nodes, w.nodes.Keys - (side - lost), u, v), nodes, key)
  {
    var n1, r1, r2;
    n1, r1, nodes, r2 := LostVotesUndoDecision(w.nodes, w.members, p, p', side, lost, key, v, u);
    f := Finished(AttemptId(key, 0), SetRequest(key, v), r1.ok, r1.acceptance);
    f' := Finished(AttemptId(key, 1), SetRequest(key, u), r2.ok, r2.acceptance);
    var others := w.nodes.Keys - (side - lost);
    SetCallConcludes(w.nodes, w.members, p, key, v, side, side, n1, r1);
    SetCallConcludes(AllRestarted(n1, lost), w.members, p', key, u, others, others, nodes, r2);
    t := RestartsBetween(w, key, v, u, side, others, lost, p, p', n1, r1, nodes, r2);
  }

  lemma RestartsBetween(w: World, key: string, v: string, u: string, side: set<NodeId>, others: set<NodeId>,
                        lost: set<NodeId>, p: NodeId, p': NodeId, n1: Cluster, r1: Attempt, n2: Cluster, r2: Attempt)
    returns (t: Trace)
    requires Initial(w) && lost <= w.nodes.Keys
    requires SetCall(w.nodes, w.members, p, key, v, side, side, n1, r1)
    requires SetCall(AllRestarted(n1, lost), w.members, p', key, u, others, others, n2, r2)
    ensures Rests(w, t, n2, [] + [Finished(AttemptId(key, 0), SetRequest(key, v), r1.ok, r1.acceptance)]
                               + [Finished(AttemptId(key, 1), SetRequest(key, u), r2.ok, r2.acceptance)])
  {
    assert Rests(w, Begun, w.nodes, []);
    t := SetCallMoves(w, Begun, w.nodes, [], AttemptId(key, 0), p, key, v, side, side, n1, r1, {});
    var h := [] + [Finished(AttemptId(key, 0), SetRequest(key, v), r1.ok, r1.acceptance)];
    t := RestartsMove(w, t, n1, h, lost);
    t := SetCallMoves(w, t, AllRestarted(n1, lost), h, AttemptId(key, 1), p', key, u, others, others, n2, r2, {});
  }

  // ----- A proposer whose log has a gap, in a run -----

  /** With a gap in the log, OK can mean nothing. In this run `v0` and `v1` are committed everywhere, `x` restarts,
      and `v2` is committed everywhere at round 2, the only round that is then in the log of `x`. A set call at `x`
      takes round 1, the size of its log, and returns OK with the old value `v1`, while no store changes: every replica
      knows of round 2. */
  lemma OkStoresNothing(w: World, p: NodeId, x: NodeId, key: string, v0: string, v1: string, v2: string, u: string)
    returns (t: Trace, nodes: Cluster, h: seq<Finished>, f2: Finished,
             t': Trace, nodes': Cluster, f3: Finished)
    requires Initial(w) && Blank(w.nodes) && p in w.nodes && x in w.nodes && p != x && key != LEADER_KEY
    ensures Rests(w, t, nodes, h + [f2]) && Reports(f2, key, v2, 2)
    ensures Rests(w, t', nodes', h + [f2] + [f3]) && Reports(f3, key, v1, 1) && f3.request == SetRequest(key, u)
    ensures x in nodes && RoundsOf(nodes[x].log, key).Keys == {2} && Unmoved(nodes, nodes', key, v2)
  {
    var n2, f0, f1, r3, r4;
    t, n2, f0, f1 := CommitsBeforeRestart(w, p, x, key, v0, v1);
    nodes, r3, nodes', r4 := AfterGap(n2, w.members, p, x, key, v0, v1, v2, u);
    h := [] + [f0] + [f1];
    t, t', f2, f3 := GapMoves(w, t, Restarted(n2, x), h, p, x, key, v2, u, nodes, r3, nodes', r4);
  }

  lemma GapMoves(w: World, t: Trace, up: Cluster, h: seq<Finished>, p: NodeId, x: NodeId, key: string, v2: string,
                 u: string, n3: Cluster, r3: Attempt, n4: Cluster, r4: Attempt)
    returns (t3: Trace, t4: Trace, f2: Finished, f3: Finished)
    requires Rests(w, t, up, h)
    requires SetCall(up, w.members, p, key, v2, Elems(w.members), Elems(w.members), n3, r3) && r3.ok
    requires SetCall(n3, w.members, x, key, u, Elems(w.members), Elems(w.members), n4, r4) && r4.ok
    ensures Rests(w, t3, n3, h + [f2]) && Reports(f2, key, r3.acceptance.value, r3.round)
    ensures Rests(w, t4, n4, h + [f2] + [f3]) && Reports(f3, key, r4.acceptance.value, r4.round)
    ensures f3.request == SetRequest(key, u)
  {
    var all := Elems(w.members);
    SetCallConcludes(up, w.members, p, key, v2, all, all, n3, r3);
    SetCallConcludes(n3, w.members, x, key, u, all, all, n4, r4);
    f2 := Finished(AttemptId(key, 2), SetRequest(key, v2), r3.ok, r3.acceptance);
    f3 := Finished(AttemptId(key, 3), SetRequest(key, u), r4.ok, r4.acceptance);
    t3 := SetCallMoves(w, t, up, h, AttemptId(key, 2), p, key, v2, all, all, n3, r3, {});
    t4 := SetCallMoves(w, t3, n3, h + [f2], AttemptId(key, 3), x, key, u, all, all, n4, r4, {});
  }

  // ----- A late message after a recovery -----

  /** Two commits, and then `x` restarts: what a run that trusts `p` has come to. */
  lemma CommitsBeforeRestart(w: World, p: NodeId, x: NodeId, key: string, v0: string, v1: string)
    returns (t: Trace, n2: Cluster, f0: Finished, f1: Finished)
    requires Initial(w) && Blank(w.nodes) && p in w.nodes && x in w.nodes && p != x && key != LEADER_KEY
    ensures x in n2 && Rests(w, t, Restarted(n2, x), [] + [f0] + [f1]) && Trusted(w, t, {p})
    ensures AllBoth(n2, key, v0, v1) && n2.Keys == w.nodes.Keys && Reports(f0, key, v0, 0) && f0.request.key == key
  {
    var t1;
    t1, n2, f0, f1 := CommitsInARun(w, p, key, v0, v1);
    t := TrustedRestart(w, t1, n2, [] + [f0] + [f1], x, {p});
  }

  lemma TrustedRestart(w: World, t: Trace, nodes: Cluster, history: seq<Finished>, b: NodeId, faithful: set<NodeId>)
    returns (t': Trace)
    requires Rests(w, t, nodes, history) && Trusted(w, t, faithful) && b in nodes && b !in faithful
    ensures Rests(w, t', Restarted(nodes, b), history) && Trusted(w, t', faithful)
  {
    t' := RestartMoves(w, t, nodes, history, b, faithful);
  }

  lemma CommitsInARun(w: World, p: NodeId, key: string, v0: string, v1: string)
    returns (t: Trace, n2: Cluster, f0: Finished, f1: Finished)
    requires Initial(w) && Blank(w.nodes) && p in w.nodes && key != LEADER_KEY
    ensures Rests(w, t, n2, [] + [f0] + [f1]) && Trusted(w, t, {p})
    ensures AllBoth(n2, key, v0, v1) && n2.Keys == w.nodes.Keys && Reports(f0, key, v0, 0) && f0.request.key == key
  {
    var n1, r1, r2;
    n1, r1, n2, r2 := TwoCommits(w.nodes, w.members, p, key, v0, v1);
    f0 := Finished(AttemptId(key, 0), SetRequest(key, v0), r1.ok, r1.acceptance);
    f1 := Finished(AttemptId(key, 0), SetRequest(key, v1), r2.ok, r2.acceptance);
    SetCallConcludes(w.nodes, w.members, p, key, v0, Elems(w.members), Elems(w.members), n1, r1);
    FirstRoundIsZero(w.nodes, w.members, p, key, v0, n1, r1);
    t := TwoSetsMove(w, p, key, v0, v1, n1, r1, n2, r2, {p});
  }

  lemma TwoSetsMove(w: World, p: NodeId, key: string, v0: string, v1: string, n1: Cluster, r1: Attempt,
                    n2: Cluster, r2: Attempt, faithful: set<NodeId>)
    returns (t: Trace)
    requires Initial(w) && p in faithful && faithful <= Elems(w.members)
    requires SetCall(w.nodes, w.members, p, key, v0, Elems(w.members), Elems(w.members), n1, r1)
    requires SetCall(n1, w.members, p, key, v1, Elems(w.members), Elems(w.members), n2, r2)
    ensures Rests(w, t, n2, [] + [Finished(AttemptId(key, 0), SetRequest(key, v0), r1.ok, r1.acceptance)]
                               + [Finished(AttemptId(key, 0), SetRequest(key, v1), r2.ok, r2.acceptance)])
    ensures Trusted(w, t, faithful)
  {
    var all := Elems(w.members);
    assert Rests(w, Begun, w.nodes, []) && Trusted(w, Begun, faithful);
    var t1 := SetCallMoves(w, Begun, w.nodes, [], AttemptId(key, 0), p, key, v0, all, all, n1, r1, faithful);
    var h := [] + [Finished(AttemptId(key, 0), SetRequest(key, v0), r1.ok, r1.acceptance)];
    t := SetCallMoves(w, t1, n1, h, AttemptId(key, 0), p, key, v1, all, all, n2, r2, faithful);
  }

  lemma FirstRoundIsZero(nodes: Cluster, members: seq<NodeId>, p: NodeId, key: string, v0: string,
                         n1: Cluster, r1: Attempt)
    requires SetCall(nodes, members, p, key, v0, Elems(members), Elems(members), n1, r1) && Blank(nodes)
    ensures r1.round == 0
  {
    assert p in Elems(members);
  }

  /** A success call from before a recovery can be under way in a faithful run: `v0` and then `v1` were committed
      everywhere, `x` restarted and copied the store of `p`, and now agrees with it. When the success call for `v0`
      arrives once more, `x` goes back to `v0`. */
  lemma StaleSuccessInARun(w: World, p: NodeId, x: NodeId, key: string, v0: string, v1: string)
    returns (earlier: Trace, t: Trace, packet: Packet)
    requires Initial(w) && Blank(w.nodes) && p in w.nodes && x in w.nodes && p != x && key != LEADER_KEY && v0 != v1
    ensures KeptUp(w, earlier, Recover(x, p), t, x, p, {p}, key)
    ensures packet in Run(w, t).sent && packet.dest == x && IsSuccess(packet.call, key)
    ensures Lookup(Run(w, t).nodes[x].kv, key) == Lookup(Run(w, t).nodes[p].kv, key) == Some(v1)
    ensures !Harmless(CellOf(Run(w, t).nodes[x], key), packet.call.request)
    ensures var w' := Next(Run(w, t), Deliver(packet));
            Lookup(w'.nodes[x].kv, key) == Some(v0) && Lookup(w'.nodes[p].kv, key) == Some(v1)
  {
    var n2, f0, f1;
    earlier, n2, f0, f1 := CommitsBeforeRestart(w, p, x, key, v0, v1);
    RestartedBackUp(n2, x, p);
    BackUpHolds(n2, x, p, key, v0, v1);
    t := Then(earlier, Recover(x, p));
    ValidThen(w, earlier, {p}, Recover(x, p));
    RecoveredKeepsUp(w, earlier, p, x, key);
    packet := Packet(x, AnyRuns.Announcement(f0));
    WasAnnounced(w, earlier, f0, f1, x);
    LateCommit(Run(w, t), p, x, key, v0, v1, packet);
  }

  lemma WasAnnounced(w: World, t: Trace, f0: Finished, f1: Finished, x: NodeId)
    requires Initial(w) && Valid(w, t) && Run(w, t).history == [] + [f0] + [f1] && f0.ok && x in w.nodes
    ensures Packet(x, AnyRuns.Announcement(f0)) in Run(w, t).sent
  {
    AnyRuns.OkWasAnnounced(w, t);
    assert f0 == Run(w, t).history[0] && f0 in Run(w, t).history;
    assert x in Elems(w.members);
  }

  lemma RecoveredKeepsUp(w: World, earlier: Trace, p: NodeId, x: NodeId, key: string)
    requires Trusted(w, earlier, {p}) && p in w.nodes && x in w.nodes && p != x && key != LEADER_KEY
    requires Run(w, earlier).active == map[] && Run(w, earlier).nodes[x] == BLANK_NODE
    ensures KeptUp(w, earlier, Recover(x, p), Then(earlier, Recover(x, p)), x, p, {p}, key)
  {
    RecoveredRejoins(w, earlier, p, x, key);
    ValidThen(w, earlier, {p}, Recover(x, p));
    StillIdle(Run(w, earlier), Recover(x, p));
  }

  lemma RecoveredRejoins(w: World, earlier: Trace, p: NodeId, x: NodeId, key: string)
    requires Trusted(w, earlier, {p}) && p in w.nodes && x in w.nodes && p != x && key != LEADER_KEY
    requires Run(w, earlier).active == map[] && Run(w, earlier).nodes[x] == BLANK_NODE
    ensures Rejoins(w, earlier, Recover(x, p), x, p, {p}, key)
  {
  }

  lemma StillIdle(w: World, e: Event)
    requires Sound(w) && Enabled(w, e) && e.Recover? && w.active == map[]
    ensures Next(w, e).active == map[]
  {
  }

  lemma LateCommit(w: World, p: NodeId, x: NodeId, key: string, v0: string, v1: string, packet: Packet)
    requires Sound(w) && p in w.nodes && x in w.nodes && p != x && packet in w.sent && packet.dest == x && v0 != v1
    requires IsSuccess(packet.call, key) && packet.call.request.value == v0 && key != LEADER_KEY
    requires RoundsOf(w.nodes[x].log, key) == map[]
    requires Lookup(w.nodes[x].kv, key) == Lookup(w.nodes[p].kv, key) == Some(v1)
    ensures !Harmless(CellOf(w.nodes[x], key), packet.call.request)
    ensures var w' := Next(w, Deliver(packet));
            Lookup(w'.nodes[x].kv, key) == Some(v0) && Lookup(w'.nodes[p].kv, key) == Some(v1)
  {
    OutdatedByOthers(map[], packet.call.request.round, BLANK_ENTRY);
  }
}
