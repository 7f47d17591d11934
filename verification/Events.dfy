/** What the events of a run may do and what they leave alone, in terms of states, messages and results. */
module Events {
  import opened Protocol
  import opened Quorum
  import opened Attempts
  import opened Worlds

  /** Nothing has happened at any replica but `n`. */
  ghost predicate OnlyAt(w: World, w': World, n: NodeId) {
    w'.nodes.Keys == w.nodes.Keys && forall m :: m in w.nodes && m != n ==> w'.nodes[m] == w.nodes[m]
  }

  /** One call of an attempt: its target serves it unless it is lost, no other replica and no other attempt notices,
      and the call may still arrive later, even if it was lost or has been answered. */
  lemma StepEffects(w: World, id: AttemptId, outcome: Outcome)
    requires Sound(w) && Enabled(w, Step(id, outcome))
    ensures w.active[id].todo != [] && w.active[id].todo[0] in w.nodes
    ensures var w', a := Next(w, Step(id, outcome)), w.active[id];
            var n, call := a.todo[0], NextCall(a);
            && OnlyAt(w, w', n) && w'.history == w.history
            && w'.nodes[n] == (if outcome == Lost then w.nodes[n] else Serve(w.nodes[n], call).0)
            && (forall i :: i in w.active && i != id ==> i in w'.active && w'.active[i] == w.active[i])
            && (!call.Ping? ==> Enabled(w', Deliver(Packet(n, call))))
  {
    StepReady(w, id);
  }

  /** The calls of an attempt, stage by stage: every proposal has id 1, the accept call carries what was adopted if
      anything was, and the success call repeats the last acceptance. */
  lemma CallsAre(a: Attempt)
    requires a.stage != Returned
    ensures a.stage == Pinging ==> NextCall(a) == Ping
    ensures a.stage == Proposing ==>
              NextCall(a) == Propose(Request(a.request.key, a.request.value, 1, 0, a.round, GET))
    ensures a.stage == Accepting && a.acceptedId > 0 ==>
              NextCall(a) == Accept(Request(a.request.key, a.acceptedValue, 1, a.acceptedId, a.round, a.acceptedOp))
    ensures a.stage == Accepting && a.acceptedId <= 0 ==>
              NextCall(a) == Accept(Request(a.request.key, a.request.value, 1, 0, a.round, a.request.op))
    ensures a.stage == Informing ==>
              var r := a.acceptance;
              NextCall(a) == Success(Request(a.request.key, r.value, r.pServerId, r.aServerId, r.round, r.op))
  {
  }

  /** A message that was sent once can arrive at any later time, any number of times, whatever has happened since. */
  lemma MessagesNeverExpire(w: World, e: Event, packet: Packet)
    requires Sound(w) && Enabled(w, e) && packet in w.sent
    ensures Sound(Next(w, e)) && Enabled(Next(w, e), Deliver(packet))
    ensures var w', w'' := Next(w, e), Next(Next(w, e), Deliver(packet));
            && OnlyAt(w', w'', packet.dest) && packet.dest in w'.nodes
            && w''.nodes[packet.dest] == Serve(w'.nodes[packet.dest], packet.call).0
            && w''.active == w'.active && w''.history == w'.history && packet in w''.sent
  {
    NextSound(w, e);
  }

  /** An attempt that ends records its result; an election that returned OK makes its proposer name the agreed value,
      and nothing else happens at any replica. */
  lemma FinishEffects(w: World, id: AttemptId)
    requires Sound(w) && Enabled(w, Finish(id))
    ensures w.active[id].proposer in w.nodes
    ensures var w', a := Next(w, Finish(id)), w.active[id];
            && w'.history == w.history + [Finished(id, a.request, a.ok, a.acceptance)] && id !in w'.active
            && OnlyAt(w, w', a.proposer) && w'.sent == w.sent
            && var s, s' := w.nodes[a.proposer], w'.nodes[a.proposer];
               && s' == s.(leader := s'.leader)
               && s'.leader == if a.ok && a.request.op == SET_LEADER then a.acceptance.value else s.leader
  {
    ProposerIsNode(w, id);
  }

  /** Any attempt with a free identifier can start at any replica at any time, while others run. */
  lemma AnyoneMayPropose(w: World, id: AttemptId, proposer: NodeId, value: string)
    requires Sound(w) && id !in w.active && proposer in w.nodes
    ensures Enabled(w, Start(id, proposer, Request(id.key, value, 0, 0, 0, GET)))
    ensures id.key == "leader" ==> Enabled(w, Start(id, proposer, Request(id.key, value, 0, 0, 0, SET_LEADER)))
  {
  }

  /** A restart leaves nothing of log, store and leader name; a recovery copies another replica's store pair by pair,
      and adopting a name touches neither log nor store. All of them can happen to any replica at any time, and the
      rest of the world does not notice. */
  lemma ReplicaEffects(w: World, n: NodeId, source: NodeId, leader: string, e: Event)
    requires Sound(w) && n in w.nodes && source in w.nodes
    requires e in {Restart(n), Recover(n, source), Adopt(n, leader)}
    ensures Enabled(w, e)
    ensures var w' := Next(w, e);
            OnlyAt(w, w', n) && w'.active == w.active && w'.sent == w.sent && w'.history == w.history
    ensures var s, s' := w.nodes[n], Next(w, e).nodes[n];
            match e
            case Restart(_) => s' == NodeState(map[], map[], "", map[])
            case Recover(_, _) => s'.log == s.log && s'.leader == s.leader && s'.kv == s.kv + w.nodes[source].kv
            case Adopt(_, _) => s'.log == s.log && s'.leader == leader && s'.kv == s.kv
            case _ => true
  {
  }
}
