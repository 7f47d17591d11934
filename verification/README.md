# Replication core of the key-value store

A Dafny model of the Paxos-style core of a replicated key-value store, and proofs about it. Every replica keeps a log
`key -> round -> entry`, a key-value store and the name of a leader. A proposer runs four loops over the replicas
(ping, propose, accept, success) with a quorum test after each of the first three; the three handlers of the other side
change the log, and the success handler also writes the store or the leader name. On top of that a replica can have
itself elected, clients' `get` and `set` calls are forwarded to the leader, and a replica that starts copies the
leader's store. The replicated map is meant to behave like one plain map, and the main results say when it does.

The model follows the code, including where the code is not the Paxos of the literature: every proposal has id 1,
promises are never recorded, an accept call overwrites whatever is there, the round of an attempt is the size of the
proposer's own log for the key, and recovery copies the store but not the log. What is true under these rules is
proved; what is not is shown by concrete runs.

Two readings of the quorum differ: the comment in `src/declaration.h:424` asks for more than half of the replicas,
rounded down; the code at `src/app.cc:305` is satisfied with half of them, rounded up. The two agree for an odd number
of replicas only. The model follows the code.

## How the model is built

- `Protocol` has the messages and what one replica does with each of them, as functions on its state. The `applied`
  field is a history variable: the round whose success call last wrote a key.
- `Attempts` has one attempt as a sequence of single calls, each with one of three outcomes: never delivered, delivered
  with its answer lost, answered. `Execute` runs an attempt to its end while nothing else happens.
- `Replicas` has the objects: a `Node` whose log, store and leader name are assigned in place, handlers that work step
  by step, and `AttemptConsensus` with its four loops. `Services` has elections and the client handlers, `StartUp` the
  start-up of a replica. Each method is proved equal to a function that the theorems are about.
- `Worlds` has whole runs: any number of attempts whose calls interleave, delivery of any message ever sent at any later
  time and any number of times, restarts, recoveries, and replicas that adopt a leader name at start-up. `Cells` and the
  second half of `Worlds` project a run onto a single key.
- `Phases`, `Outcomes` and `Accounts` give the outcome of an undisturbed attempt in closed form, down to what each
  replica is left with, `Partitions` the special case of a partitioned cluster, and `Stretches` shows that such an
  attempt is a stretch of a run.
- `Handlers`, `RoundNumbers`, `Events`, `Requests` and `Starts` say, branch by branch and in terms of logs, stores,
  leader names and answers alone, what the handlers, rounds, events, client requests and start-ups do.
- `Faithful`, `FaithfulSteps`, `Refinement`, `CatchUp`, `AnyRuns`, `Chosen`, `Interleavings`, `Isolated`, `Forwarding`,
  `Deeds` and `Sessions` have the theorems, `Boundaries` and `Overlaps` runs that go wrong where their hypotheses fail:
  even numbers of replicas, unfaithful proposers, recovered proposers, too many restarts, late messages after a
  recovery, and attempts that overlap on one key.

A set of replicas is *faithful* in a run if they are up throughout (they neither restart nor start up), answer every
ping and receive every propose and every success call, all proposers are among them, and attempts on one key do not
overlap (`Refinement.FaithfulEvent`). Accept calls may fail anywhere, the answers to propose and success calls may be
lost, the other replicas may do anything, and old messages may arrive late or again.

## Model

| member | source | states |
|---|---|---|
| `Quorum.NoQuorum` | src/app.cc:305 | an attempt gives up exactly when fewer than half of the replicas, rounded up, answered |
| `Quorum.QuorumsMeetExactlyWhenOdd` | src/app.cc:388 | any two sets of replicas that pass the test share a replica if and only if the number of replicas is odd |
| `Quorum.EvenQuorumsSplit` | src/app.cc:388 | an even number of replicas falls into two disjoint halves that both pass the test |
| `Replicas.Node.RecordLog` | src/app.cc:185-191 | the three field assignments overwrite id, operation and value of one entry, keep its promised id, and touch nothing else |
| `Replicas.Node.ReadEntry` | src/app.cc:205-209 | returns the entry, or a blank one which it then also inserts |
| `Replicas.Node.ReadRounds` | src/app.cc:199-203 | returns all rounds of a key and inserts an empty map when there are none |
| `Replicas.Node.GetKV` | src/app.cc:435-454 | error 1 if and only if the key is absent, so an empty stored value is told apart from none |
| `Replicas.Node.SetKV` | src/app.cc:456-465 | sets one pair of the store and changes nothing else |
| `Replicas.Node.Propose` | src/rpc.cc:5-71 | the handler leaves the state and gives the answer of the function on states that every theorem uses |
| `Replicas.Node.Accept` | src/rpc.cc:73-119 | the same for accept: unconditional overwrite, the request echoed |
| `Replicas.Node.LargestRound` | src/rpc.cc:147-150 | the loop finds the largest round of the log, or the smallest 32-bit integer when there is none |
| `Replicas.Node.Success` | src/rpc.cc:121-163 | the entry is recorded in any case; store or leader change exactly when no higher round is in the log, else the answer is ABORTED |
| `Replicas.Node.Recover` | src/app.cc:149-151 | copying pair by pair leaves the old store overridden by the whole snapshot, and the log as it was |
| `Replicas.PingAll` | src/app.cc:296-301 | the ping loop gathers what the fold over single calls gathers |
| `Replicas.ProposeAll` | src/app.cc:323-333 | the propose loop with its five variables computes what the fold over single calls computes |
| `Replicas.AcceptAll` | src/app.cc:366-379 | the accept loop, likewise |
| `Replicas.InformAll` | src/app.cc:406-410 | the success loop, likewise; its answers are ignored |
| `Replicas.AttemptConsensus` | src/app.cc:263-422 | for all outcomes of all calls, the method on objects leaves the cluster and returns the result that the single-call semantics prescribes |
| `Services.ElectLeader` | src/rpc.cc:215-240 | an election is an attempt on the key and value it is called with, and on OK the replica names the agreed value as leader, whatever the key |
| `Services.TriggerElection` | src/rpc.cc:720-742 | a replica proposes its own address under the leader key, over a call to itself that may be lost |
| `Services.HandleGet` | src/rpc.cc:269-364 | the get handler with its forwarding, election and retry does what the recursive specification says |
| `Services.HandleSet` | src/rpc.cc:366-447 | the set handler, likewise |
| `StartUp.AskForLeader` | src/app.cc:97-108 | the loop gathers exactly the replicas that answered and the non-empty names they gave |
| `StartUp.Coordinate` | src/app.cc:75-160 | start-up adopts a leader exactly when all names agree and the named replica answered, else elects itself if told to, and then copies the leader's store |
| `Starts.VouchedExactly` | src/app.cc:112-119 | a leader is adopted if and only if someone who answered names it, nobody who answered names another, and it answered itself |
| `Starts.StartsAsLeader` | src/app.cc:80-87 | a replica that is told to lead names itself, asks nobody and keeps its store |
| `Starts.StartsBeside` | src/app.cc:112-151 | a replica that adopts a leader ends with that leader's store over its own, if the store arrives, and changes nothing elsewhere |
| `Starts.StartsAlone` | src/app.cc:136-151 | with neither flag and nobody to adopt, the leader name stays, and its store is copied |
| `Starts.StartsWithElection` | src/app.cc:119-127 | with nobody to adopt, a replica that may makes one attempt for its own address; if that is not won, nothing else happens and no store changes |
| `Starts.NewLeaderHasAnswered` | src/app.cc:112-119 | a start without an election that changes the leader name has heard from that very replica |
| `Starts.DeadLeaderIsNotAdopted` | src/app.cc:112-127 | if the only name heard belongs to a replica that did not answer, it is not adopted, and the replica stands for election |
| `Starts.RestartedLeaderForgets` | src/app.cc:112-151 | a leader that restarts while the others still name it adopts itself, copies nothing, and every get call is then told that the key does not exist |
| `StartUp.JoiningIsTwoEvents` | src/app.cc:112-151 | starting beside an agreed leader is, for runs, adopting its name and recovering from it |
| `StartUp.StartedReplicaRejoins` | src/app.cc:112-151 | in a faithful run, a replica that starts and hears of the elected leader, even while attempts are under way, names it and holds the plain value of every idle key except those that it alone holds |
| `StartUp.RestartedReplicaRejoins` | src/app.cc:112-151 | if nothing is running and it holds no keys of its own, it stores exactly the plain map |
| `StartUp.RejoinedForGood` | src/app.cc:112-151 | and it stays so for the rest of the run, with the same leader as the others, if it then hears every success call |
| `Attempts.ReceiveWellformed` | src/app.cc:282-392 | whatever the calls bring, an attempt calls each replica at most once per loop, only those that answered the ping in the middle two, and informs only after an accept quorum for its own accept request |
| `Phases.PhaseExecutes` | src/app.cc:296-410 | a loop of calls that answer one after another equals one step in which all targets answer from the state before the loop |
| `Phases.SelectionLoop` | src/app.cc:323-333 | after any answers the adopted id, value and operation are those of the first OK answer with the largest accepted id, or none if no answer has one |
| `Phases.PromiseCount` | src/app.cc:325-326 | the propose loop counts exactly the OK answers |
| `Handlers.SuccessTells` | src/rpc.cc:139-162 | for every state and request the answer is ABORTED if and only if the log has a round above that of the request, and then store and leader stay; after OK the value is stored, or named as leader; the entry is recorded in either case |
| `Handlers.ProposeTells` | src/rpc.cc:28-70 | a propose call is turned down if and only if a higher id was promised; otherwise it is answered with what was accepted at its round, or nothing; it leaves nothing but a blank entry where there was none |
| `Handlers.AcceptTells` | src/rpc.cc:99-118 | an accept call is never turned down, overwrites id, operation and value of its entry, and is echoed |
| `Handlers.AcceptedIsOffered` | src/rpc.cc:50-56 | what was accepted is what the next propose call at that key and round is answered with, unless an accept or success call for them comes in between |
| `Handlers.RepeatIsIdle` | src/rpc.cc:5-163 | a call that arrives a second time right away changes nothing more and is answered as before |
| `Handlers.RecoveryKeepsTheRest` | src/app.cc:143-151 | in a recovery the snapshot wins, keys that it lacks stay, and so do log and leader name |
| `RoundNumbers.RoundIsSize` | src/app.cc:276-277 | from any state, the round of an attempt is the number of rounds in the proposer's log for the key |
| `RoundNumbers.RoundIsFixedAtStart` | src/app.cc:276-277 | the same in runs, from the log at the moment when the attempt starts |
| `RoundNumbers.RoundStays` | src/app.cc:276-403 | no event changes the round, request, proposer or members of an attempt under way |
| `RoundNumbers.RoundIsNewExactly` | src/app.cc:276-277 | the round is above all rounds that the proposer knows of if and only if its log has no gap; with a gap it may even be one of them |
| `Events.StepEffects` | src/app.cc:296-410 | a call changes its target only, and only if it is not lost; even a lost or answered call may still arrive later |
| `Events.MessagesNeverExpire` | src/rpc.cc:5-163 | a message that was sent can arrive after anything else, any number of times, and does then what its handler does |
| `Events.FinishEffects` | src/rpc.cc:232-239 | the result of an attempt is recorded, and an election that returned OK, and nothing else, makes its proposer name the agreed value |
| `Cells.ServeByKey` | src/rpc.cc:5-163 | a handler changes what is kept about the key of its request and about no other key, and its answer depends on that key only |
| `Worlds.NextSound` | src/rpc.cc:156-160 | every event keeps the basic invariant, in particular that no store ever has the leader key |
| `Worlds.NextByKey` | src/app.cc:263-422 | an event acts on its own key as the single-key system does and leaves every other key alone |
| `Isolated.AbortIsAtomic` | src/app.cc:305-392 | from any state and under any outcomes, an attempt that returns ABORTED has changed no store and no leader |
| `Isolated.AttemptIsFramed` | src/rpc.cc:28-30 | any attempt changes log entries at its own key and round only, and stores at its own key only; an election changes no store |
| `Isolated.OkIsDurable` | src/app.cc:368-392 | when an attempt returns OK, at least half of the replicas, rounded up, hold an accepted entry with the returned value at its key and round |
| `Outcomes.AttemptOutcome` | src/app.cc:263-422 | the exact outcome of an attempt for any fate of each of its calls: when it returns OK, which value it commits, and what every replica holds however far it got |
| `Outcomes.OwnValueExactlyWhenUnaccepted` | src/app.cc:357-364 | an OK attempt commits its own value, unadopted, if and only if no replica that answered its ping and its propose call has accepted anything at the round it took from its log size; otherwise what the first such replica has accepted |
| `Outcomes.CommitsFirstHeard` | src/app.cc:323-364 | an OK attempt commits what the first replica that it hears of, in member order, has accepted at its round, and its own value if it hears of none |
| `Outcomes.QuorumIsHeard` | src/app.cc:342 | with an odd number of replicas, an OK attempt at a round at which a quorum has accepted something does hear of a value |
| `Outcomes.TurnedDownExactly` | src/rpc.cc:145-154 | a replica answers the success call of an attempt ABORTED if and only if its log had a higher round before the attempt |
| `Accounts.OkExactly` | src/app.cc:296-392 | an attempt returns OK if and only if at least half of the replicas answered its ping, at least half the ping and the propose call, and at least half the ping and the accept call |
| `Accounts.AttemptAtReplica` | src/app.cc:263-422 | the complete account: for all fates of all calls, the answer, and the exact log, store and leader name of every replica after an attempt, aborted or not |
| `Accounts.AnyStateIsAccounted` | src/rpc.cc:44-56 | that account holds in every state that a run leads to |
| `Accounts.OkOutcomeAtReplica` | src/rpc.cc:121-163 | after an OK attempt a replica holds its value, or names it as leader, exactly if it received the success call and has no higher round in its log; whoever received the accept or success call has it in the log |
| `Partitions.SideOutcome` | src/app.cc:263-422 | the same when everything reaches one side of a partition and nothing the other: the call returns OK and the side takes over the value |
| `Faithful.LateIsHarmless` | src/rpc.cc:139-154 | a late or repeated message cannot move a replica with a complete log off the expected value |
| `FaithfulSteps.NextFaith` | src/app.cc:263-422 | every event of a faithful run keeps the invariant that ties logs, stores, messages and the running attempt to the decisions made so far |
| `Refinement.MapRefinement` | src/entrypoint.cc:220-269 | between attempts, the store of every faithful replica is the plain map updated, in order, by exactly the requests whose attempt returned OK |
| `Refinement.ValueRefinement` | src/rpc.cc:121-163 | the same for one key while attempts on other keys are running |
| `Refinement.BusyValue` | src/app.cc:388-410 | while an attempt on the key is running: the plain value until it is past its accept quorum, then that or the value of the attempt, and the latter once the success call has gone out to the replica |
| `Refinement.StaysFaithfulExactly` | src/app.cc:296-410 | what the hypothesis of these results allows: a run stays faithful exactly when no faithful replica starts over, fails to answer a ping or misses a propose or success call, and only faithful replicas propose, one at a time for each key; late and repeated messages are always allowed |
| `Refinement.RoundFreshness` | src/app.cc:276-277 | the size of a faithful proposer's log is a round that no replica and no message has ever used for the key, and all smaller rounds are in every faithful log |
| `Refinement.OneValuePerRound` | src/rpc.cc:116 | at any moment of a faithful run all accepted entries at a key and round are the same, on all replicas |
| `Refinement.StoreMatchesLog` | src/rpc.cc:139-160 | a value written by a success call is the accepted value of the round it was applied for, whatever was proposed or accepted since |
| `Refinement.StoreFollowsLog` | src/rpc.cc:139-160 | on a replica that never copied a store, every stored value is the accepted value of the last applied round |
| `Refinement.ElectionAgreement` | src/rpc.cc:227-239 | between elections all faithful replicas name the leader of the latest election that returned OK |
| `Refinement.NoReplyCarriesAValue` | src/app.cc:327-331 | in a faithful run no propose answer carries an accepted value, so the client's own value is what the accept calls carry |
| `Refinement.OwnValueCommitted` | src/app.cc:417-421 | every OK attempt of a faithful run answers with its request's own value and operation |
| `Refinement.SuccessRepeatsAccept` | src/app.cc:397-403 | in every run the success request repeats the accept request of its attempt field by field |
| `AnyRuns.NoValueFromNowhere` | src/app.cc:357-364 | in every run, with overlap, loss, delay, restart and recovery, each accepted and each stored value was requested for that same key |
| `AnyRuns.NeverOutOfDate` | src/rpc.cc:44-46 | promised ids stay 0 and accepted ids are 0 or 1, so no propose call is ever rejected as out of date |
| `AnyRuns.ServeNeverGoesBack` | src/rpc.cc:139-160 | an applied round is the largest in the log when it is applied, applied rounds do not decrease, and nothing but an applied success call changes a value |
| `AnyRuns.NoGoingBack` | src/rpc.cc:139-154 | under any order, loss and repetition of messages, the rounds a replica applies to a key never decrease |
| `AnyRuns.StoredMeansApplied` | src/rpc.cc:156-160 | without recovery, every stored value was put there by a success call |
| `AnyRuns.LeaderIsNoKey` | src/rpc.cc:156-160 | in every run the leader key is in no store |
| `AnyRuns.OkWasAnnounced` | src/app.cc:406-410 | in every run, an attempt that has returned OK has sent its success call to every replica |
| `Chosen.QuorumVoted` | src/app.cc:368-392 | an attempt that gets past its accept quorum, when no other value was sent at its key and round before, has a quorum of voters behind it, and all of them that have not restarted since have its value in their logs |
| `Chosen.KeptVotesDecide` | src/app.cc:323-364 | with an odd number of replicas the round stays decided as long as the voters that keep their logs still pass the quorum test, whoever else restarts |
| `Chosen.ChosenStaysChosen` | src/app.cc:323-364 | that long, every attempt at that key and round, by any proposer, under any loss, delay or repetition, and even overlapping, sends that same value; this includes a value that the attempt adopted from an aborted one |
| `Chosen.ChosenWithoutRestarts` | src/app.cc:323-364 | in particular for good if nobody restarts |
| `CatchUp.CatchUpWithoutLog` | src/app.cc:143-151 | a replica that takes over the store but not the log, and then hears every success call, agrees with the faithful replicas on a key, or on the leader, whenever no attempt on it is running; of the messages from before only success calls that the log does not show to be outdated, and that carry another value, may not arrive |
| `CatchUp.LateMessageExactly` | src/rpc.cc:147-160 | that condition is exact: when one more message from before arrives, the replica still agrees if and only if the message is no such success call |
| `CatchUp.CatchUpForGood` | src/app.cc:143-151 | for all keys at once: the store is exactly the plain map and the leader the same, whenever nothing is running |
| `CatchUp.LateSuccessExactly` | src/rpc.cc:147-160 | a success call changes what is held for its key if and only if no higher round is in the log and the value differs |
| `CatchUp.StaleSuccessUndoesRecovery` | src/app.cc:143-151 | a success call from before a recovery that arrives after it overwrites the copied value, whatever its round |
| `Boundaries.StaleSuccessInARun` | src/app.cc:143-151 | as a run: two values are committed, a replica restarts and recovers, and the success call for the first value, still under way, sets it back |
| `Interleavings.InterleavingReduction` | src/app.cc:263-422 | an interleaving in which same-key attempts do not overlap ends as the same attempts with the same outcomes do one after another: same logs, stores, leaders, messages and results |
| `Boundaries.EvenClustersSplit` | src/app.cc:388 | for every even number of replicas, two attempts in disjoint halves both return OK with different values at the same key and round |
| `Boundaries.CommittedValueIsLost` | src/rpc.cc:101-116 | five replicas, three attempts at round 0: a committed value is replaced by the value of an attempt that aborted |
| `Boundaries.CommittedValueIsLostExactly` | src/app.cc:323-364 | when that happens: the next OK attempt at a round commits another value if and only if the first replica that it hears of has accepted another one, or it hears of none and asks for another itself |
| `Boundaries.RecoveredProposerGoesBack` | src/app.cc:276-277 | a recovered replica proposes: its call returns OK, commits the oldest value, sets its own store back, and every other replica answers its success call ABORTED |
| `Boundaries.OkStoresNothing` | src/app.cc:276-277 | what the size rule means for a log with a gap, as a run: a replica that restarted and has only round 2 in its log takes round 1, its set call returns OK with an old value, and no store changes |
| `Boundaries.LostVotesUndoDecision` | src/rpc.cc:50-56 | if so many of the voters for a value restart that the rest does not pass the quorum test, a proposer among the others commits another value at the same key and round |
| `Boundaries.RestartsForgetExactly` | src/rpc.cc:50-56 | with an odd number of replicas, some attempt at the round can commit another value if and only if the voters that keep their logs do not pass the quorum test |
| `Boundaries.OddClustersForget` | src/rpc.cc:50-56 | in every cluster with an odd number of at least three replicas one restart can be enough, and replicas with either value are left |
| `Boundaries.RestartsBreakAgreement` | src/rpc.cc:50-56 | as a run: with any such set of restarts in between, two attempts return OK at one key and round with different values |
| `Boundaries.SetCallMoves` | src/rpc.cc:386-393 | each set call of these examples is a stretch of a run |
| `Boundaries.RecoveryMoves` | src/app.cc:136-151 | and so is a restart followed by copying another replica's store |
| `Overlaps.OverlapDiverges` | src/app.cc:263-422 | in every cluster of at least two replicas, two overlapping set calls at one proposer, with every single call answered, can both return OK and leave replicas with different values while nothing is running |
| `Forwarding.GetFromLeader` | src/rpc.cc:282-307 | with a common reachable leader, a get call at any replica ends after at most one hop with the leader's value, error 1 exactly when the key is absent there, and changes nothing |
| `Forwarding.SetAtLeader` | src/rpc.cc:385-419 | with a common reachable leader, a set call is one attempt by the leader, and if that returns OK the call ends after at most one hop without an election |
| `Forwarding.FailOver` | src/rpc.cc:328-352 | when the leader cannot be reached and the replica has itself elected, a get call is answered from its own store |
| `Forwarding.RetryAfterAbort` | src/rpc.cc:419-442 | when the attempt of a reachable leader aborts, the replica in front of it has itself elected and the call is answered by its own attempt |
| `Forwarding.GetTellsTheTruth` | src/rpc.cc:269-364 | whatever the network does, a get call changes no store, and an answer it gives is what some replica stores |
| `Requests.ElectionExactly` | src/rpc.cc:720-742 | an election is won if and only if the replica's call to itself was answered and the attempt returned OK; the replica names the agreed value exactly if the attempt returned OK, heard or not |
| `Requests.ElectionHandlerExactly` | src/rpc.cc:227-239 | the election handler answers as its attempt does and names the agreed value exactly on OK |
| `Requests.NobodyToAsk` | src/rpc.cc:282-285 | a replica that names nobody, or no member, fails a get or set call at once and leaves every log, store and leader name as it was |
| `Requests.LeaderAnswers` | src/rpc.cc:287-307 | a replica that names itself answers a get call from its store, and a set call as its own attempt ends |
| `Requests.FirstAnswerStands` | src/rpc.cc:354-360 | an answer to the first forwarding call is passed on without an election |
| `Requests.LostElectionFails` | src/rpc.cc:334-340 | if the election after an unanswered call is not won, the request fails and only the election has happened |
| `Requests.UnheardElection` | src/rpc.cc:426-432 | if the answer to the election is lost, the request fails although the replica names the agreed value, exactly if the attempt returned OK |
| `Requests.OnlyRetryAnswers` | src/rpc.cc:438-442 | after an unanswered call and a won election only the answer of the leader named then is an answer to the client |
| `Requests.AnsweredExactly` | src/rpc.cc:309-360 | a forwarded request is answered if and only if the first call is, or the election is won and the second call is |
| `Deeds.RequestIsDeeds` | src/rpc.cc:269-447 | whatever the network does, a request comes down to a sequence of replicas that serve it as the leader they take themselves for and replicas that have themselves elected, and an answer is that of the last one that served it, after which nothing else happened |
| `Deeds.SetWasCommitted` | src/rpc.cc:366-447 | if a set call is answered, the last thing that happened is one OK attempt for it by a replica that names itself leader, and before it, from the cluster the call met, only attempts of the same kind and elections |
| `Deeds.SetStaysAtKey` | src/rpc.cc:366-447 | however a set call is forwarded and however it ends, it changes stores at its own key only |
| `Deeds.AnsweredSetIsDurable` | src/rpc.cc:386-401 | after an answered set call a quorum holds an accepted value for its key at one round |
| `Stretches.ExecuteMoves` | src/app.cc:263-422 | at any point of any run, for any outcomes, an attempt can go on alone, and the run then continues as the closed execution says; a faithful run stays faithful |
| `Stretches.LoopMoves` | src/app.cc:296-410 | likewise for a single loop, while other attempts stand in the middle of theirs |
| `Stretches.AttemptMoves` | src/app.cc:263-422 | likewise for a whole attempt |
| `Sessions.GetReturnsThePlainValue` | src/rpc.cc:282-307 | in a faithful run a get call for an idle key at any faithful replica that reaches the elected leader returns what the plain map holds, whatever is going on on other keys |
| `Sessions.GetOnBusyKey` | src/rpc.cc:282-307 | for a key with an attempt under way it returns the plain value, or the value of the attempt once that is past its accept quorum |
| `Sessions.SetUpdatesThePlainMap` | src/rpc.cc:385-409 | a set call at any faithful replica that reaches the leader updates the plain map if its attempt returns OK, leaves it if not, and the run goes on faithful with the same leader |
| `Sessions.SetThenGet` | src/rpc.cc:269-447 | after a set call whose attempt returned OK, a get call at any faithful replica returns its value; after one whose attempt aborted, the value from before |
| `Sessions.AbortedSetElects` | src/rpc.cc:419-442 | in a faithful run an aborted set call deposes its leader: the replica that the client asked leads from then on, and the plain map is updated exactly if its own attempt returns OK |
| `Sessions.ElectedLeads` | src/rpc.cc:227-239 | a faithful replica whose election returns OK is then named by all faithful replicas, and the plain map is what it was |
| `Sessions.LedRunsExist` | src/rpc.cc:215-240 | from every initial state in which everyone can be reached, a faithful run leads to any given replica being the leader, so the results above are about runs that there are |
| `Sessions.GetSurvivesTheLeader` | src/rpc.cc:328-352 | when the elected leader cannot be reached, a faithful replica that has itself elected instead still answers with the plain value |

## Left out

- Handlers are atomic steps: mutexes and the races inside a handler (`Get_Log` and `Get_KV` take no lock) are not modelled.
- That attempts on one key do not overlap is an assumption of the faithful runs; the code does not enforce it. `Overlaps` has the run that goes wrong without it; `AnyRuns`, and `Chosen` once a value is decided, do without it.
- Channels, deadlines, cancellation and stubs: a call has one of three outcomes, and forwarding calls nest to a depth bounded by a budget that stands for their deadlines. Wall-clock time and the random start-up delay are not modelled.
- Addresses: each replica appears once in the member list and every proposer is in it under its own address (`src/app.cc:48-54`).
- A leader name that is not a member, which a client can bring about by setting the leader key, makes the program throw; in the model the request fails and start-up copies nothing.
- Rounds and ids are unbounded integers; the 32-bit width of the message fields is not modelled.
- Start-up recovery inside whole runs is one atomic event; the loop over the pairs is modelled in `Replicas.Node.Recover`.
- Deletion: `Delete_KV` has no caller and the success handler ignores the operation.
- The unused promise-recording `Set_Log`, `Find_Max_Proposal`, disk access, periodic pings and the address request are dead or stub code.
- Statistics, console output, options, server start-up, user commands, benchmarks and scripts are input, output or configuration.
- The fuller protocol described in `documentation/paxos-consensus.md` (minimum proposals, first unchosen index, retries) is not implemented and not modelled.
- Liveness: the code has no retries and no fairness, so nothing is claimed about attempts eventually succeeding.
