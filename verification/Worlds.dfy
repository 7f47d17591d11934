/** Runs of the whole cluster: any number of attempts whose remote calls interleave, late and repeated delivery of
    every message sent, restarts and recoveries. */
module Worlds {
  import opened Protocol
  import opened Quorum
  import opened Attempts
  import opened Cells

  datatype AttemptId = AttemptId(key: string, number: nat)

  datatype Packet = Packet(dest: NodeId, call: Call)

  /** An attempt that has returned, with its result. */
  datatype Finished = Finished(id: AttemptId, request: Request, ok: bool, response: Response)

  datatype World = World(
    members: seq<NodeId>,
    nodes: Cluster,
    sent: set<Packet>,
    active: map<AttemptId, Attempt>,
    history: seq<Finished>)

  datatype Event =
    | Start(id: AttemptId, proposer: NodeId, request: Request)
    | Step(id: AttemptId, outcome: Outcome)
    | Finish(id: AttemptId)
    | Deliver(packet: Packet)
    | Restart(node: NodeId)
    | Recover(node: NodeId, source: NodeId)
    | Adopt(node: NodeId, leader: string)

  /** An election names the leader key; nothing else carries its operation. */
  predicate Admissible(q: Request) {
    q.op == SET_LEADER ==> q.key == LEADER_KEY
  }

  ghost predicate JobSound(id: AttemptId, a: Attempt, members: seq<NodeId>) {
    Wellformed(a) && a.members == members && a.request.key == id.key && Admissible(a.request)
  }

  /** What every reachable world satisfies; in particular no store ever holds the leader key. */
  ghost predicate Sound(w: World) {
    && Distinct(w.members)
    && w.nodes.Keys == Elems(w.members)
    && (forall n :: n in w.nodes ==> LEADER_KEY !in w.nodes[n].kv)
    && (forall p :: p in w.sent ==> p.dest in w.nodes && !p.call.Ping?)
    && (forall id :: id in w.active ==> JobSound(id, w.active[id], w.members))
    && (forall f :: f in w.history ==> f.request.key == f.id.key)
  }

  predicate Enabled(w: World, e: Event) {
    match e
    case Start(id, proposer, request) =>
      id !in w.active && id.key == request.key && proposer in w.nodes && Admissible(request)
    case Step(id, _) => id in w.active && w.active[id].stage != Returned
    case Finish(id) => id in w.active && w.active[id].stage == Returned
    case Deliver(packet) => packet in w.sent
    case Restart(node) => node in w.nodes
    case Recover(node, source) => node in w.nodes && source in w.nodes
    case Adopt(node, _) => node in w.nodes
  }

  /** A call that reaches the network may be delivered again at any later time. */
  function Posted(sent: set<Packet>, dest: NodeId, call: Call): set<Packet> {
    if call.Ping? then sent else sent + {Packet(dest, call)}
  }

  predicate Elects(a: Attempt) {
    a.ok && a.request.op == SET_LEADER
  }

  lemma StepReady(w: World, id: AttemptId)
    requires Sound(w) && id in w.active && w.active[id].stage != Returned
    ensures w.active[id].todo != [] && w.active[id].todo[0] in w.nodes
  {
    assert JobSound(id, w.active[id], w.members);
    NextIsMember(w.active[id]);
  }

  lemma ProposerIsNode(w: World, id: AttemptId)
    requires Sound(w) && id in w.active
    ensures w.active[id].proposer in w.nodes
  {
    assert JobSound(id, w.active[id], w.members);
  }

  function Next(w: World, e: Event): World
    requires Sound(w) && Enabled(w, e)
  {
    match e
    case Start(id, proposer, request) =>
      w.(active := w.active[id := Begin(proposer, request, w.members, NextRound(w.nodes[proposer], request.key))])
    case Step(id, outcome) =>
      StepReady(w, id);
      var a := w.active[id];
      var (nodes, b) := CallStep(w.nodes, a, outcome);
      w.(nodes := nodes, active := w.active[id := b], sent := Posted(w.sent, a.todo[0], NextCall(a)))
    case Finish(id) =>
      ProposerIsNode(w, id);
      var a := w.active[id];
      w.(nodes := if Elects(a) then w.nodes[a.proposer := w.nodes[a.proposer].(leader := a.acceptance.value)]
                  else w.nodes,
         active := w.active - {id},
         history := w.history + [Finished(id, a.request, a.ok, a.acceptance)])
    case Deliver(packet) =>
      w.(nodes := w.nodes[packet.dest := Serve(w.nodes[packet.dest], packet.call).0])
    case Restart(node) => w.(nodes := w.nodes[node := BLANK_NODE])
    case Recover(node, source) =>
      w.(nodes := w.nodes[node := Recovered(w.nodes[node], w.nodes[source].kv)])
    case Adopt(node, leader) =>
      w.(nodes := w.nodes[node := w.nodes[node].(leader := leader, applied := w.nodes[node].applied - {LEADER_KEY})])
  }

  lemma ServeKeepsLeaderKeyOut(s: NodeState, call: Call)
    requires LEADER_KEY !in s.kv
    ensures LEADER_KEY !in Serve(s, call).0.kv
  {
  }

  lemma NextSound(w: World, e: Event)
    requires Sound(w) && Enabled(w, e)
    ensures Sound(Next(w, e)) && Next(w, e).members == w.members
  {
    match e
    case Start(id, proposer, request) =>
      assert proposer in Elems(w.members);
      BeginWellformed(proposer, request, w.members, NextRound(w.nodes[proposer], request.key));
    case Step(id, outcome) => StepSound(w, id, outcome);
    case Finish(id) => FinishSound(w, id);
    case Deliver(packet) => ServeKeepsLeaderKeyOut(w.nodes[packet.dest], packet.call);
    case Restart(node) =>
    case Recover(node, source) =>
    case Adopt(node, leader) =>
  }

  lemma FinishSound(w: World, id: AttemptId)
    requires Sound(w) && Enabled(w, Finish(id))
    ensures Sound(Next(w, Finish(id)))
  {
    ProposerIsNode(w, id);
    assert JobSound(id, w.active[id], w.members);
  }

  lemma StepSound(w: World, id: AttemptId, outcome: Outcome)
    requires Sound(w) && Enabled(w, Step(id, outcome))
    ensures Sound(Next(w, Step(id, outcome)))
  {
    StepReady(w, id);
    var a := w.active[id];
    StepJob(w, id, outcome);
    ServeKeepsLeaderKeyOut(w.nodes[a.todo[0]], NextCall(a));
  }

  lemma StepJob(w: World, id: AttemptId, outcome: Outcome)
    requires Sound(w) && Enabled(w, Step(id, outcome)) && w.active[id].todo != [] && w.active[id].todo[0] in w.nodes
    ensures var (nodes, b) := CallStep(w.nodes, w.active[id], outcome);
            nodes.Keys == w.nodes.Keys && JobSound(id, b, w.members)
  {
    assert JobSound(id, w.active[id], w.members);
    CallStepHosts(w.nodes, w.active[id], outcome);
  }

  /** The events of a run, the latest one outermost. */
  datatype Trace = Begun | Then(before: Trace, event: Event)

  /** `t` can happen from `w`: each event is enabled when its turn comes. */
  ghost predicate Valid(w: World, t: Trace)
    requires Sound(w)
    decreases t, 0
  {
    t.Then? ==> Valid(w, t.before) && Enabled(Run(w, t.before), t.event)
  }

  ghost function Run(w: World, t: Trace): (w': World)
    requires Sound(w) && Valid(w, t)
    ensures Sound(w') && w'.members == w.members && w'.nodes.Keys == w.nodes.Keys
    decreases t, 1
  {
    match t
    case Begun => w
    case Then(before, e) =>
      NextSound(Run(w, before), e);
      Next(Run(w, before), e)
  }

  /** The world before anything was attempted: empty logs and stores, any leader name each. */
  ghost predicate Initial(w: World) {
    && Sound(w)
    && w.sent == {} && w.active == map[] && w.history == []
    && (forall n :: n in w.nodes ==> w.nodes[n] == BLANK_NODE.(leader := w.nodes[n].leader))
  }

  // ----- One key at a time -----

  /** All of a world that concerns one key. */
  datatype View = View(
    members: seq<NodeId>,
    cells: map<NodeId, Cell>,
    sent: set<Packet>,
    active: map<AttemptId, Attempt>,
    history: seq<Finished>)

  function HistoryOf(h: seq<Finished>, key: string): seq<Finished> {
    if h == [] then []
    else HistoryOf(h[..|h| - 1], key) + (if h[|h| - 1].id.key == key then [h[|h| - 1]] else [])
  }

  function CellsOf(nodes: Cluster, key: string): map<NodeId, Cell> {
    map n | n in nodes :: CellOf(nodes[n], key)
  }

  function SentOf(sent: set<Packet>, key: string): set<Packet> {
    set p | p in sent && !p.call.Ping? && p.call.request.key == key
  }

  function ActiveOf(active: map<AttemptId, Attempt>, key: string): map<AttemptId, Attempt> {
    map id | id in active && id.key == key :: active[id]
  }

  function ViewOf(w: World, key: string): View {
    View(w.members, CellsOf(w.nodes, key), SentOf(w.sent, key), ActiveOf(w.active, key), HistoryOf(w.history, key))
  }

  predicate Relevant(e: Event, key: string) {
    match e
    case Start(id, _, _) => id.key == key
    case Step(id, _) => id.key == key
    case Finish(id) => id.key == key
    case Deliver(packet) => !packet.call.Ping? && packet.call.request.key == key
    case Restart(_) => true
    case Recover(_, _) => true
    case Adopt(_, _) => key == LEADER_KEY
  }

  /** What makes a view usable: the single-key part of `Sound`. */
  ghost predicate ViewSound(v: View, key: string) {
    && Distinct(v.members)
    && v.cells.Keys == Elems(v.members)
    && (forall p :: p in v.sent ==> p.dest in v.cells && !p.call.Ping? && p.call.request.key == key)
    && (forall id :: id in v.active ==> JobSound(id, v.active[id], v.members) && id.key == key)
  }

  predicate EnabledIn(v: View, e: Event, key: string) {
    match e
    case Start(id, proposer, request) =>
      id !in v.active && id.key == key == request.key && proposer in v.cells && Admissible(request)
    case Step(id, _) => id in v.active && v.active[id].stage != Returned
    case Finish(id) => id in v.active && v.active[id].stage == Returned
    case Deliver(packet) => packet in v.sent
    case Restart(node) => node in v.cells
    case Recover(node, source) => node in v.cells && source in v.cells
    case Adopt(node, _) => node in v.cells && key == LEADER_KEY
  }

  lemma StepReadyIn(v: View, id: AttemptId, key: string)
    requires ViewSound(v, key) && id in v.active && v.active[id].stage != Returned
    ensures v.active[id].todo != [] && v.active[id].todo[0] in v.cells
  {
    assert JobSound(id, v.active[id], v.members);
    NextIsMember(v.active[id]);
  }

  lemma ProposerIsCell(v: View, id: AttemptId, key: string)
    requires ViewSound(v, key) && id in v.active
    ensures v.active[id].proposer in v.cells
  {
    assert JobSound(id, v.active[id], v.members);
  }

  /** The same transition system for a single key. */
  function NextIn(v: View, e: Event, key: string): View
    requires ViewSound(v, key) && EnabledIn(v, e, key)
  {
    match e
    case Start(id, proposer, request) =>
      v.(active := v.active[id := Begin(proposer, request, v.members, |v.cells[proposer].rounds|)])
    case Step(id, outcome) =>
      StepReadyIn(v, id, key);
      var a := v.active[id];
      var n := a.todo[0];
      var answer := TransmitCell(v.cells[n], NextCall(a), outcome);
      v.(cells := v.cells[n := answer.0],
         active := v.active[id := Receive(a, answer.1)],
         sent := Posted(v.sent, n, NextCall(a)))
    case Finish(id) =>
      ProposerIsCell(v, id, key);
      var a := v.active[id];
      v.(cells := if Elects(a) then v.cells[a.proposer := v.cells[a.proposer].(current := Some(a.acceptance.value))]
                  else v.cells,
         active := v.active - {id},
         history := v.history + [Finished(id, a.request, a.ok, a.acceptance)])
    case Deliver(packet) =>
      v.(cells := v.cells[packet.dest := ServeCell(v.cells[packet.dest], packet.call).0])
    case Restart(node) => v.(cells := v.cells[node := RestartedCell(key)])
    case Recover(node, source) =>
      v.(cells := v.cells[node := RecoveredCell(v.cells[node], v.cells[source], key)])
    case Adopt(node, leader) =>
      v.(cells := v.cells[node := v.cells[node].(current := Some(leader), applied := None)])
  }

  lemma ViewIsSound(w: World, key: string)
    requires Sound(w)
    ensures ViewSound(ViewOf(w, key), key)
  {
  }

  lemma HistoryOfSnoc(h: seq<Finished>, f: Finished, key: string)
    ensures HistoryOf(h + [f], key) == HistoryOf(h, key) + (if f.id.key == key then [f] else [])
  {
    assert (h + [f])[..|h|] == h;
  }

  /** Keys do not interact: an event changes the view of its own key as the single-key system says,
      and no other view at all. */
  lemma NextByKey(w: World, e: Event, key: string)
    requires Sound(w) && Enabled(w, e)
    ensures ViewSound(ViewOf(w, key), key)
    ensures !Relevant(e, key) ==> ViewOf(Next(w, e), key) == ViewOf(w, key)
    ensures Relevant(e, key) ==> EnabledIn(ViewOf(w, key), e, key)
    ensures Relevant(e, key) ==> ViewOf(Next(w, e), key) == NextIn(ViewOf(w, key), e, key)
  {
    ViewIsSound(w, key);
    match e
    case Start(id, proposer, request) => StartByKey(w, e, key);
    case Step(id, outcome) => StepByKey(w, e, key);
    case Finish(id) => FinishByKey(w, e, key);
    case Deliver(packet) => DeliverByKey(w, e, key);
    case Restart(node) => NodeEventByKey(w, e, key);
    case Recover(node, source) => NodeEventByKey(w, e, key);
    case Adopt(node, leader) => NodeEventByKey(w, e, key);
  }

  lemma CellsUpdate(nodes: Cluster, n: NodeId, s: NodeState, key: string)
    requires n in nodes
    ensures CellsOf(nodes[n := s], key) == CellsOf(nodes, key)[n := CellOf(s, key)]
    ensures CellOf(s, key) == CellOf(nodes[n], key) ==> CellsOf(nodes[n := s], key) == CellsOf(nodes, key)
  {
  }

  lemma ActiveUpdate(active: map<AttemptId, Attempt>, id: AttemptId, a: Attempt, key: string)
    ensures ActiveOf(active[id := a], key) ==
            if id.key == key then ActiveOf(active, key)[id := a] else ActiveOf(active, key)
    ensures ActiveOf(active - {id}, key) ==
            if id.key == key then ActiveOf(active, key) - {id} else ActiveOf(active, key)
  {
  }

  lemma SentUpdate(sent: set<Packet>, n: NodeId, call: Call, key: string)
    ensures SentOf(Posted(sent, n, call), key) ==
            if !call.Ping? && call.request.key == key then SentOf(sent, key) + {Packet(n, call)} else SentOf(sent, key)
  {
  }

  lemma StartByKey(w: World, e: Event, key: string)
    requires Sound(w) && Enabled(w, e) && e.Start? && ViewSound(ViewOf(w, key), key)
    ensures !Relevant(e, key) ==> ViewOf(Next(w, e), key) == ViewOf(w, key)
    ensures Relevant(e, key) ==> EnabledIn(ViewOf(w, key), e, key)
    ensures Relevant(e, key) ==> ViewOf(Next(w, e), key) == NextIn(ViewOf(w, key), e, key)
  {
    ActiveUpdate(w.active, e.id, Begin(e.proposer, e.request, w.members, NextRound(w.nodes[e.proposer], e.request.key)),
                 key);
  }

  lemma NextCallKey(a: Attempt)
    requires a.stage != Returned
    ensures !NextCall(a).Ping? ==> NextCall(a).request.key == a.request.key
  {
  }

  lemma PingIsStill(cells: map<NodeId, Cell>, n: NodeId, outcome: Outcome)
    requires n in cells
    ensures cells[n := TransmitCell(cells[n], Ping, outcome).0] == cells
  {
  }

  lemma StepByKey(w: World, e: Event, key: string)
    requires Sound(w) && Enabled(w, e) && e.Step? && ViewSound(ViewOf(w, key), key)
    ensures !Relevant(e, key) ==> ViewOf(Next(w, e), key) == ViewOf(w, key)
    ensures Relevant(e, key) ==> EnabledIn(ViewOf(w, key), e, key)
    ensures Relevant(e, key) ==> ViewOf(Next(w, e), key) == NextIn(ViewOf(w, key), e, key)
  {
    StepReady(w, e.id);
    var a := w.active[e.id];
    assert JobSound(e.id, a, w.members);
    var n, call := a.todo[0], NextCall(a);
    var answer := Transmit(w.nodes[n], call, e.outcome);
    NextCallKey(a);
    TransmitByKey(w.nodes[n], call, e.outcome, key);
    CellsUpdate(w.nodes, n, answer.0, key);
    ActiveUpdate(w.active, e.id, Receive(a, answer.1), key);
    SentUpdate(w.sent, n, call, key);
    var v := ViewOf(w, key);
    if Relevant(e, key) {
      PingIsStill(v.cells, n, e.outcome);
    }
  }

  lemma FinishByKey(w: World, e: Event, key: string)
    requires Sound(w) && Enabled(w, e) && e.Finish? && ViewSound(ViewOf(w, key), key)
    ensures !Relevant(e, key) ==> ViewOf(Next(w, e), key) == ViewOf(w, key)
    ensures Relevant(e, key) ==> EnabledIn(ViewOf(w, key), e, key)
    ensures Relevant(e, key) ==> ViewOf(Next(w, e), key) == NextIn(ViewOf(w, key), e, key)
  {
    ProposerIsNode(w, e.id);
    var a := w.active[e.id];
    assert JobSound(e.id, a, w.members);
    HistoryOfSnoc(w.history, Finished(e.id, a.request, a.ok, a.acceptance), key);
    ActiveUpdate(w.active, e.id, a, key);
    if Elects(a) {
      CellsUpdate(w.nodes, a.proposer, w.nodes[a.proposer].(leader := a.acceptance.value), key);
    }
  }

  lemma DeliverByKey(w: World, e: Event, key: string)
    requires Sound(w) && Enabled(w, e) && e.Deliver? && ViewSound(ViewOf(w, key), key)
    ensures !Relevant(e, key) ==> ViewOf(Next(w, e), key) == ViewOf(w, key)
    ensures Relevant(e, key) ==> EnabledIn(ViewOf(w, key), e, key)
    ensures Relevant(e, key) ==> ViewOf(Next(w, e), key) == NextIn(ViewOf(w, key), e, key)
  {
    ServeByKey(w.nodes[e.packet.dest], e.packet.call, key);
    CellsUpdate(w.nodes, e.packet.dest, Serve(w.nodes[e.packet.dest], e.packet.call).0, key);
  }

  lemma NodeEventByKey(w: World, e: Event, key: string)
    requires Sound(w) && Enabled(w, e) && (e.Restart? || e.Recover? || e.Adopt?) && ViewSound(ViewOf(w, key), key)
    ensures !Relevant(e, key) ==> ViewOf(Next(w, e), key) == ViewOf(w, key)
    ensures Relevant(e, key) ==> EnabledIn(ViewOf(w, key), e, key)
    ensures Relevant(e, key) ==> ViewOf(Next(w, e), key) == NextIn(ViewOf(w, key), e, key)
  {
    if e.Recover? {
      RecoverByKey(w.nodes[e.node], w.nodes[e.source], key);
    }
    CellsUpdate(w.nodes, e.node, Next(w, e).nodes[e.node], key);
  }
}
