/** The round of an attempt is the size of the proposer's log for the key, which is not one more than its largest
    round. */
module RoundNumbers {
  import opened Protocol
  import opened Quorum
  import opened Attempts
  import opened Worlds

  /** Whatever state the cluster is in and whatever becomes of the calls. */
  lemma RoundIsSize(nodes: Cluster, members: seq<NodeId>, proposer: NodeId, request: Request, oracle: Oracle)
    requires Distinct(members) && nodes.Keys == Elems(members) && proposer in members
    ensures var log := nodes[proposer].log;
            RunAttempt(nodes, members, proposer, request, oracle).1.round
            == if request.key in log then |log[request.key]| else 0
  {
  }

  /** In a run the round is fixed when the attempt starts, from the log that the proposer has at that moment, and
      stays what it is through all its calls and all other events. */
  lemma RoundIsFixedAtStart(w: World, id: AttemptId, proposer: NodeId, request: Request)
    requires Sound(w) && Enabled(w, Start(id, proposer, request))
    ensures var w', log := Next(w, Start(id, proposer, request)), w.nodes[proposer].log;
            id in w'.active && w'.active[id].round == (if request.key in log then |log[request.key]| else 0)
  {
  }

  lemma RoundStays(w: World, id: AttemptId, e: Event)
    requires Sound(w) && Enabled(w, e) && id in w.active
    ensures id in Next(w, e).active <==> e != Finish(id)
    ensures id in Next(w, e).active ==>
              var a, b := w.active[id], Next(w, e).active[id];
              b.round == a.round && b.request == a.request && b.proposer == a.proposer && b.members == a.members
  {
    if e.Step? && e.id == id {
      StepReady(w, id);
      ReceiveProgress(w.active[id], Transmit(w.nodes[w.active[id].todo[0]], NextCall(w.active[id]), e.outcome).1);
    }
  }

  /** The numbers below `n`. */
  ghost function Below(n: nat): (s: set<nat>)
    ensures |s| == n
    ensures forall r: nat :: r in s <==> r < n
  {
    if n == 0 then {} else Below(n - 1) + {n - 1}
  }

  /** As many numbers as the numbers below `n` contain one that is not below `n` if and only if they leave out one that
      is. */
  lemma GapExactly(rounds: set<nat>)
    ensures (exists r :: r in rounds && r >= |rounds|) <==> exists r: nat :: r < |rounds| && r !in rounds
  {
    var below := Below(|rounds|);
    if r :| r in rounds && r >= |rounds| {
      if below <= rounds {
        SubsetSize(below + {r}, rounds);
      }
      var r' :| r' in below && r' !in rounds;
      assert r' < |rounds|;
    } else if r: nat :| r < |rounds| && r !in rounds {
      assert rounds <= below;
      SubsetSize(rounds + {r}, below);
    }
  }

  /** So the round is above all rounds that the proposer knows of if and only if its log has no gap, and a proposer
      whose log has one may even propose at a round that it has in its log. */
  lemma RoundIsNewExactly(nodes: Cluster, members: seq<NodeId>, proposer: NodeId, request: Request, oracle: Oracle)
    requires Distinct(members) && nodes.Keys == Elems(members) && proposer in members
    ensures var rounds := RoundsOf(nodes[proposer].log, request.key);
            var round := RunAttempt(nodes, members, proposer, request, oracle).1.round;
            && ((forall r :: r in rounds ==> r < round) <==> forall r: nat :: r < |rounds| ==> r in rounds)
            && ((exists r :: r in rounds && r >= |rounds|) <==> !(forall r :: r in rounds ==> r < round))
            && (round in rounds ==> exists r: nat :: r < round && r !in rounds)
  {
    var rounds := RoundsOf(nodes[proposer].log, request.key);
    RoundIsSize(nodes, members, proposer, request, oracle);
    GapExactly(rounds.Keys);
    assert |rounds.Keys| == |rounds|;
  }
}
