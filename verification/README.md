# A verified model of the IMM VOL connector's rootless engine and metadata manager

The connector lets every MPI rank modify the metadata of an HDF5 file on its own. A rank encodes its
operation, a *rootless* engine spreads it over a skip ring (and, in one mode, collects votes on it), and
each rank keeps received operations in a ledger until they are older than a time window, then executes
them in (time, pid) order. This project models those layers in Dafny and proves what they are for:
the ring reaches everyone once, votes decide unanimously, replicas execute the same log, and what is
encoded is what is decoded.

`dafny verify dfyconfig.toml` checks everything.

## Layers

- **Shared notions** (`Common`).
- **Skip ring** (`Bits`, `SkipRing`, `SpanningTree`). The communicator set-up, level, wall and forwarding
  rules as methods over a class with a send array. The forwarding rule looks only at the sender, the
  rank's wall and the origin; `Parent` is the closed form of the tree it draws: an origin climbs by adding
  its lowest set bit until it wraps to rank 0, everyone else is reached from its wall.
- **Broadcasts** (`Broadcast`). Any number of concurrent broadcasts on an unordered network, with the
  counters of the cleanup loop.
- **Voting** (`VotingNet`, `VotingInv`, `VotingSteps`, `VotingBallots`, `Voting`, `VotingProgress`, `Handlers`,
  `Joint`, `Pickups`, `JointProgress`).
  Successive rounds of one starter that reuse one proposal id, on channels that do not overtake (section 3.5 of
  MPI-3.1), and the handlers of one rank as methods on a single queue that all starters share. The invariant
  lives in `VotingInv`, its preservation in `VotingSteps`, the messages themselves in `VotingBallots`. `Joint`
  runs all starters at once over shared queues and channels and shows that each sees a run of its own;
  `Pickups` says what the applications are handed, and `VotingProgress` and `JointProgress` that every run
  comes to rest.
- **Message lifecycle** (`Lifecycle`). The wait, wait-and-pickup and pickup queues, with allocation.
- **Linked queues and managers** (`GenQueue`, `Proposals`, `Managers`, `Ledger`, `Metadata`). The doubly
  linked queue on the heap, the oldest-record scan, the drain, and the metadata manager that moves nodes
  between ledger and execution queue. Methods are proved against the step system of `Ledger`.
- **Agreement** (`Agreement`, `Submissions`). Replica agreement from the bounded-delay assumption of README.txt: when a
  rank reads a clock beyond a timestamp plus the window, the proposal has reached it. `Submissions` brings in the
  submitter, whose own copy never crosses the network.
- **File close** (`CloseBarrier`). Ranks, network and managers together.
- **Wire formats** (`Bytes`, `Wire`, `Params`, `Codecs`). Little-endian LP64 buffers, cursor encoders and
  decoders, and the first send, which carries only 32768 of the buffer's 32772 bytes.

## Findings

- The origin word takes four bytes of the first send (rootless/rootless_ops.c:1839-1841), so a payload
  survives for certain only up to 32692 bytes. Beyond that `Wire.RoundTripIff` gives the exact condition: the
  bytes not carried must be zero.
- The pass of `MM_make_progress` reads the clock once per ledger node (metadata_update_helper.c:77-78).
  `Agreement.PassIsSafeIffOneReading` shows that it keeps the order of all ledgers exactly if its readings are
  equal; `Agreement.PassIsSafeIffYoungInOrder` gives what can be checked beforehand: whatever the clock does
  during the pass, it is safe exactly if no record still inside the window is older than one behind it in the
  ledger. `Agreement.PassKeepsIff` shows that keeping the order is exactly what replica agreement needs of a
  pass, and `Agreement.TickingPassesDisagree` gives two ranks whose logs differ.
- Elapsed time is an unsigned difference (metadata_update_helper.c:78, 133), so a record stamped ahead of the
  local clock counts as aged at once (`Ledger.AheadOfClock`). The agreement results therefore ask that a rank's
  clock is past the timestamps in its ledger.
- The last vote for a starter's proposal makes it broadcast its decision even inside its cleanup loop
  (rootless/rootless_ops.c:803-814, 1876-1878), after the totals were summed. `Broadcast.PromiseIffNoLateStarts`
  shows that the cleanup keeps its promise at all ranks in every continuation exactly if no rank can start any
  more; `Broadcast.StartReachesChildren` that one late start hurts precisely the children whose own loop
  condition no longer keeps them waiting; `Broadcast.LateInitiationIsMissed` is the smallest case.
- The wait queue is cleaned without a look at `pickup_done` (rootless/rootless_ops.c:1129-1148).
  `Lifecycle.ProgressIsSafeIff` shows that the application may hold messages across a progress call exactly if
  the forwards of all of them are done; `Lifecycle.ProgressWhileHoldingDangles` is the smallest case.

## Model

| member | source | states |
|---|---|---|
| SkipRing.IsPowerOf2 | rootless/rootless_ops.c:1668-1677 | the halving loop answers yes exactly for powers of two |
| SkipRing.GetLevel | rootless/rootless_ops.c:1679-1693 | the level is the number of trailing zeros, and for rank 0 the largest level with 2^level below the world size |
| SkipRing.LastWall | rootless/rootless_ops.c:1696-1704 | the wall is the rank with its lowest set bit cleared |
| SkipRing.Bcomm.constructor | rootless/rootless_ops.c:1706-1774 | every field of a fresh communicator describes the skip ring of its rank, for any world of at least two |
| SkipRing.Bcomm.FillSendList | rootless/rootless_ops.c:1735-1767 | the power-of-two loop and the overflow loop fill the same destinations, cut at the first one that wraps to rank 0 |
| SkipRing.Bcomm.FwdSendCnt | rootless/rootless_ops.c:1811-1831 | counts exactly the sends a forward makes |
| SkipRing.Bcomm.Forward | rootless/rootless_ops.c:1221-1342 | posts exactly those sends, furthest first, each in its request slot |
| SkipRing.UnpassedIsPrefix | rootless/rootless_ops.c:1786-1808 | the origin check only ever drops the furthest destinations |
| SkipRing.SlotsContiguous | rootless/rootless_ops.c:1239-1276 | the request slots posted are 0 to count - 1, so testing the first count slots tests exactly the posted sends |
| SkipRing.SourceBranch | rootless/rootless_ops.c:1237-1263 | the comparison of sender and wall tells a climbing rank from a descending one |
| SkipRing.ParentIsCloser | rootless/rootless_ops.c:1221-1342 | every send moves strictly clockwise away from the origin, so the sends cannot form a cycle |
| SkipRing.InitialSends | rootless/rootless_ops.c:1833-1843 | the origin sends to exactly its children in the tree |
| SkipRing.ForwardSends | rootless/rootless_ops.c:1221-1342 | any other rank forwards to exactly its children, each once |
| SkipRing.FurthestFirst | rootless/rootless_ops.c:1221-1342 | the sends of a start or forward go out in falling clockwise distance |
| SpanningTree.EveryRankOnce | rootless/rootless_ops.c:1221-1342 | each rank but the origin is sent the message by one rank and once; the origin never |
| SpanningTree.TotalSends | rootless/rootless_ops.c:1221-1342 | a broadcast takes n - 1 sends for every n and every origin |
| SkipRing.HopsByLevel | rootless/rootless_ops.c:1679-1704 | hops are bounded by the level on the climb and by the levels left on the descent |
| SkipRing.LatencyBound | rootless/rootless_ops.c:1221-1342 | every rank is reached within twice the rounded-up logarithm of n, so within 2k hops whenever n is at most 2^k |
| Broadcast.RunInv | rootless/rootless_ops.c:600-638 | in every interleaving the messages under way are exactly the tree edges out of ranks that have heard into ranks that have not |
| Broadcast.AtMostOnce | rootless/rootless_ops.c:600-638 | no interleaving delivers a broadcast twice to a rank, or to its origin |
| Broadcast.PacketsAreFirst | rootless/rootless_ops.c:1221-1342 | a message under way is the only one of its broadcast for its rank and will be the first there |
| Broadcast.ExactlyOnceWhenDrained | rootless/rootless_ops.c:1833-1857 | once nothing is under way each rank but the origin has received each broadcast exactly once |
| Broadcast.CleanupLeavesWhenAllHeard | rootless/rootless_ops.c:1859-1878 | unless a rank started late, the two counters never exceed the total; a rank may leave the wait loop exactly when every broadcast has reached it, and then nothing to it is undelivered |
| Broadcast.CleanupDrains | rootless/rootless_ops.c:1859-1878 | the wait loop cannot hang, late starts or not: with nothing left to deliver every rank may leave |
| Broadcast.StartReachesChildren | rootless/rootless_ops.c:1833-1878 | for every world, reachable state, starter and child: a start sends the child a packet and changes nothing its wait loop reads, so the promise survives there exactly if its guard still holds |
| Broadcast.CanDrain | rootless/rootless_ops.c:1876-1878 | from every reachable state deliveries alone empty the network |
| Broadcast.PromiseIffNoLateStarts | rootless/rootless_ops.c:1849-1878 | the cleanup keeps its promise at every rank in every continuation exactly if no rank may start a broadcast any more |
| Broadcast.LateInitiationIsMissed | rootless/rootless_ops.c:1849-1878 | the smallest case of a late start that is missed |
| VotingSteps.RunInv | rootless/rootless_ops.c:691-984 | every handler and every delivery keeps the voting invariant, over any number of rounds of a starter; `Joint.ProjectionIsRun` carries it to all starters together |
| Voting.SkipRingIsWell | rootless/rootless_ops.c:1221-1342 | the skip ring is a tree the protocol can run on |
| Voting.VotesNeededAreSends | rootless/rootless_ops.c:721-746 | a rank waits for as many votes as fwd_send_cnt counts sends |
| Voting.DecisionIsUnanimity | rootless/rootless_ops.c:691-848 | the decision is yes exactly if every other rank received and approved that round's proposal and the starter's own final judgement was yes |
| Voting.OneDecisionPerRound | rootless/rootless_ops.c:779-819 | the channel to each of the starter's children has carried one decision of each finished round, the recorded one, and none of the current round |
| Voting.DecisionMatchesItsRound | rootless/rootless_ops.c:850-905 | though ids are reused, a decision finds exactly the proposal of its own round; one that finds none is a no |
| VotingBallots.RunBallots | rootless/rootless_ops.c:758-777 | in every run a rank has sent its parent exactly one ballot, with that vote, for each round it is recorded to have voted in, and none for others |
| VotingBallots.WireIsRecord | rootless/rootless_ops.c:779-848 | an upward channel holds an untaken ballot exactly while it is recorded as cast and not as counted |
| Voting.VotesAreConserved | rootless/rootless_ops.c:721-848 | votes needed are those received, those in the channels and those the children have never sent |
| Voting.OwnVotesAreConserved | rootless/rootless_ops.c:795-819 | the same at the starter until it decides |
| Voting.OneVotePerReceipt | rootless/rootless_ops.c:721-777 | a rank sends at most one ballot of a round, only to its parent and only once it has received and judged that round's proposal |
| Voting.IdleMeansNonePending | rootless/rootless_ops.c:850-905 | with no message left no rank has a proposal pending |
| Voting.NeverStuck | rootless/rootless_ops.c:779-984 | with no message left the starter has decided and every rank has taken the decision of every round |
| Handlers.VotingEngine.FindProposalMsg | rootless/rootless_ops.c:1150-1170 | finds the first pending proposal of an id, and nothing for a negative id |
| Handlers.VotingEngine.VoteMerge | rootless/rootless_ops.c:1173-1187 | one more vote counted and conjoined in place; tells whether it was the last |
| Handlers.VotingEngine.SubmitProposal | rootless/rootless_ops.c:928-967 | fresh own proposal and the first sends; the one failure, an empty proposal with a pointer, resets the own proposal and sends nothing |
| Handlers.VotingEngine.ProposalHandler | rootless/rootless_ops.c:691-756 | the new local state for all judgements: declined, approved with and without forwards, unknown, own id |
| Handlers.VotingEngine.VoteHandler | rootless/rootless_ops.c:779-848 | the new local state for votes on the own and on others' proposals; -1 and no change exactly for a vote that finds no proposal |
| Handlers.VotingEngine.DecisionHandler | rootless/rootless_ops.c:850-905 | the found proposal leaves the queue, for the application if accepted and for good if refused; a decision that finds none goes to the application; either way it is forwarded |
| Handlers.VotesDisturbNobody | rootless/rootless_ops.c:1173-1187 | a vote for one starter's proposal leaves every other starter's share of the queue as it was |
| Handlers.DecisionsDisturbNobody | rootless/rootless_ops.c:850-905 | the same for decisions |
| Handlers.ProposalsDisturbNobody | rootless/rootless_ops.c:691-756 | the same for proposals |
| Handlers.SubmitRefines | rootless/rootless_ops.c:928-967 | submitting is the protocol's round start, send for send |
| Handlers.ProposalRefines | rootless/rootless_ops.c:691-777 | handling a proposal is the protocol's step on that starter's share, send for send |
| Handlers.VoteRefines | rootless/rootless_ops.c:819-848 | merging a vote is the protocol's step, send for send |
| Handlers.OwnVoteRefines | rootless/rootless_ops.c:779-819 | counting a vote at the starter, with the decision after the last, is the protocol's step |
| Handlers.DecisionRefines | rootless/rootless_ops.c:850-905 | taking a decision is the protocol's step |
| Joint.ProjectionIsRun | rootless/rootless_ops.c:691-984 | with all starters at work on shared queues and channels, what each starter sees is a run of the protocol |
| Joint.DecisionsAreUnanimous | rootless/rootless_ops.c:691-848 | then still the decision frames a starter sends belong to its rounds one by one, counted in the pipe itself, and each says yes exactly if all ranks judged the proposal of that very round yes |
| Joint.DecisionsFindTheirRound | rootless/rootless_ops.c:850-905 | in the run a starter sees, a decision finds the proposal of its own round, or is a no; what this means for the shared queues is `Pickups` |
| Joint.NobodyIsStuck | rootless/rootless_ops.c:779-984 | and with nothing left in any channel whoever has submitted has decided |
| Joint.NothingStaysPending | rootless/rootless_ops.c:850-905 | and no rank still has anybody's proposal pending |
| Pickups.NoYesUnmatched | rootless/rootless_ops.c:850-905 | whatever starters are at work, a decision handed over for want of a pending proposal is always a no; everything handed over is another starter's |
| Pickups.OneProposalPerYes | rootless/rootless_ops.c:850-905 | an application has been handed exactly one proposal of a starter for each of its yes decisions that the rank has taken |
| Pickups.AllAreHandedTheSame | rootless/rootless_ops.c:850-905 | with nothing left in any channel every rank has been handed as many proposals of a starter as that starter sent decisions of yes |
| Pickups.UnmatchedAreRefusals | rootless/rootless_ops.c:861-869 | the decisions an application is handed without a proposal are, starter by starter, as many as the decisions its rank has taken for rounds whose proposal it did not approve |
| Pickups.AllRefusalsAreHanded | rootless/rootless_ops.c:861-869 | with nothing left in any channel they are as many as the rounds it refused or never received |
| VotingProgress.ReceivesBounded | rootless/rootless_ops.c:691-984 | a run of k rounds of a starter delivers at most 3(n - 1)k messages |
| VotingProgress.CanDrain | rootless/rootless_ops.c:779-984 | deliveries alone bring every run to rest, with the starter decided and all decisions taken by all ranks |
| JointProgress.ReceivesBounded | rootless/rootless_ops.c:691-984 | the same bound for all starters together: without further submissions every run ends |
| JointProgress.CanDrain | rootless/rootless_ops.c:779-984 | deliveries alone bring every joint run to rest; then whoever has submitted has decided and nothing is pending anywhere |
| Lifecycle.ProgressEngine.ForwardBcast | rootless/rootless_ops.c:1221-1342 | a received broadcast joins one queue: wait-and-pickup if it was forwarded, pickup if not |
| Lifecycle.ProgressEngine.QueueOwnBcast | rootless/rootless_ops.c:1833-1847 | an own message waits for its sends, unless it is a decision |
| Lifecycle.ProgressEngine.WaitAndPickupQueueProcess | rootless/rootless_ops.c:1109-1126 | where a message goes when its sends are done or not and it was picked up or not |
| Lifecycle.ProgressEngine.WaitOnlyQueueCleanup | rootless/rootless_ops.c:1129-1148 | frees what is done and was a broadcast, never twice, held by the application or not |
| Lifecycle.ProgressEngine.MakeProgressGen | rootless/rootless_ops.c:643-656 | both queue scans leave the state of the step system, whatever the application holds |
| Lifecycle.ProgressEngine.UserPickupNext | rootless/rootless_ops.c:1035-1093 | hands out the first unread message, forwarding ones first, and never one handed out before |
| Lifecycle.ProgressEngine.UserMsgRecycle | rootless/rootless_ops.c:1095-1106 | frees the message if its forwards are done, else leaves it to the cleanup |
| Lifecycle.StepKeeps | rootless/rootless_ops.c:1035-1148 | every step that does not itself write to freed memory keeps the lifecycle invariant of every message |
| Lifecycle.LifecycleHolds | rootless/rootless_ops.c:1035-1148 | in every such run a message is in at most one queue, picked up at most once, freed at most once and only when forwarded and picked up |
| Lifecycle.NothingDangles | rootless/rootless_ops.c:1035-1148 | with an application that recycles in time neither a queue nor the application ever refers to freed memory |
| Lifecycle.QuietMeansReclaimed | rootless/rootless_ops.c:1095-1148 | nothing leaks: with empty queues every received broadcast was picked up once and freed once |
| Lifecycle.SurvivesIffForwarded | rootless/rootless_ops.c:1129-1148 | a held message survives every outcome of a progress call exactly if its forwards had completed before |
| Lifecycle.ProgressIsSafeIff | rootless/rootless_ops.c:1129-1148 | progress keeps all the application's pointers good exactly if the forwards of everything it holds are done |
| Lifecycle.DisciplineSuffices | rootless/rootless_ops.c:1095-1148 | an application that observes that condition never makes the engine touch freed memory |
| Lifecycle.ProgressWhileHoldingDangles | rootless/rootless_ops.c:1129-1148 | the smallest case of a message freed under the application |
| Lifecycle.OwnMessages | rootless/rootless_ops.c:1129-1148 | an own broadcast or proposal is in the wait queue exactly once until its sends complete, a decision never; own broadcasts alone are freed, exactly when their sends have completed; none is handed to the application |
| Lifecycle.OwnReclaimed | rootless/rootless_ops.c:1129-1148 | with an empty wait queue every own broadcast has completed and been freed once and no own proposal has been freed |
| Lifecycle.HistoryIsRecorded | rootless/rootless_ops.c:1833-1847 | the messages these results speak of are exactly those the run received and sent, under the tags it sent them with |
| Lifecycle.PickupOrder | rootless/rootless_ops.c:1035-1093 | messages still being forwarded are picked up in order of arrival, the others in the order in which they became ready |
| GenQueue.OnlyOnce | util_queue.c:50-157 | consistent links imply that no node occurs twice |
| GenQueue.Queue.Append | util_queue.c:50-74 | the sequence grows by the node at its end, links and count consistent |
| GenQueue.Queue.Remove | util_queue.c:109-143 | the node leaves its position, all else in order, whichever of the four cases applies |
| GenQueue.Queue.Concat | util_queue.c:76-106 | the second sequence follows the first, the second queue is empty and its nodes belong to the first; nothing happens if it was empty |
| GenQueue.Queue.Clear | util_queue.c:145-157 | the queue is empty, marked so, and owns no node |
| Managers.GetOldestRecord | LedgerManager.c:46-84 | the scan returns the first of the oldest records by (time, pid), and null for an empty or inactive queue |
| Managers.ExecutionManager.ExecuteAll | ExecutionManager.c:91-107 | the log grows by the drain of the queue, which is left empty |
| Proposals.DrainPermutes | ExecutionManager.c:91-107 | the drain executes exactly the queued records |
| Proposals.DrainSorts | ExecutionManager.c:91-107 | in nondecreasing (time, pid) order: times never fall, nor ids among equal times |
| Proposals.DrainIsStable | ExecutionManager.c:47-84 | records with equal keys keep their queue order |
| Proposals.SortedUnique | ExecutionManager.c:91-107 | with distinct keys there is only one sorted order, so the queue's order does not matter |
| Ledger.PassIsStablePartition | util_queue.c:284-306 | the pass moves exactly the aged records and both halves keep their order |
| Ledger.StepConserves | metadata_update_helper.c:57-149 | no step loses or doubles a record |
| Ledger.RunConserves | metadata_update_helper.c:57-149 | over any run ledger, queue and log together are what came in |
| Ledger.TurnsAreRun | metadata_update_helper.c:116-149 | the aging loop is a run of the step system |
| Ledger.ArrivalsWaitATurn | metadata_update_helper.c:124-147 | what is checked out in a turn is looked at in the next turn at the earliest |
| Ledger.LateTurnsFinish | metadata_update_helper.c:121-148 | the aging loop ends: late turns without arrivals, as many as there are records, empty the ledger |
| Metadata.LateTurnsSuffice | metadata_update_helper.c:121-148 | once nothing arrives and all is late, the loop takes no more turns than the ledger holds records |
| Metadata.MetadataManager.CheckoutProposals | metadata_update_helper.c:57-68 | everything delivered enters the ledger in order |
| Metadata.MetadataManager.AgeOldest | metadata_update_helper.c:124-141 | one turn moves the oldest record if and only if it is older than the window, by unsigned 64-bit subtraction |
| Metadata.MetadataManager.LedgerProcess | metadata_update_helper.c:116-149 | the loop is that many turns and returns exactly when the ledger is empty |
| Metadata.MetadataManager.ProgressCallback | metadata_update_helper.c:70-84 | the successor read before the callback is the node to visit next, whether or not the node moved |
| Metadata.MetadataManager.IterateLedger | util_queue.c:284-306 | iterating with the unlinking callback is one pass over the original ledger |
| Metadata.VisitsSoFar | util_queue.c:284-306 | at any point of the pass the ledger is the kept half of what was visited followed by the rest |
| Metadata.MetadataManager.MakeProgress | metadata_update_helper.c:88-112 | checkout, one pass, one drain |
| Metadata.MetadataManager.SubmitProposal | metadata_update_helper.c:179-227 | when the call returns nothing waits, and what has been executed is all that was held or checked out plus the own copy once; it fails to return only while its copy is too young at every reading or the ledger is not empty |
| Metadata.MetadataManager.AgeOwn | metadata_update_helper.c:205-210 | the waiting loop ends at the first reading at least a window after the proposal's time |
| Metadata.MetadataManager.SubmitBcast | metadata_update_helper.c:228-260 | the copy enters the ledger, then one pass and one drain |
| Metadata.SubmissionRunsAll | metadata_update_helper.c:179-227 | a submission that ends with an empty ledger has executed everything, each record once |
| Metadata.SubmissionIsRun | metadata_update_helper.c:179-227 | a submission is a run of the step system, so the agreement results cover it |
| Ledger.AheadOfClock | metadata_update_helper.c:132-133 | the unsigned subtraction wraps: a record stamped ahead of the clock counts as older than the window exactly unless it is ahead by almost 2^64 |
| Agreement.OldestIsNext | metadata_update_helper.c:130-141 | with bounded delay the oldest aged record is the next one of the global order |
| Agreement.PassKeeps | metadata_update_helper.c:70-112 | a pass that keeps the order moves the next records of the global order, each callback with its own timely clock reading |
| Agreement.PassKeepsIff | metadata_update_helper.c:70-112 | with timely readings a pass leaves log, queue and ledger in step with the global order exactly if it leaves no record behind that is older than one it moves |
| Agreement.LogIsPrefix | metadata_update_helper.c:70-149 | at every moment of a run with timely readings whose passes keep the order, the log, and the log with the queue drained, is a prefix of the global (time, pid) order |
| Agreement.QueueIsInOrder | metadata_update_helper.c:116-149 | fed by the aging loop alone, log followed by queue is that prefix without any sorting |
| Agreement.ReplicasAgree | ExecutionManager.c:91-107 | of any two ranks' logs one extends the other |
| Agreement.MarkedReplicasAgree | metadata_update_helper.c:199-203 | they still agree when each submitter marks its own copy local |
| Submissions.OwnCopyIsWhatArrives | metadata_update_helper.c:199-203 | the submitter's copy is marked local and otherwise the proposal submitted, which is what any other rank checks out of the message |
| Submissions.SubmittersAgree | metadata_update_helper.c:235-238 | a submitter's log agrees with every other rank's if its run would be fair had it checked the proposal out of its own message |
| Agreement.SharedRuns | metadata_update_helper.c:199-203 | the local mark never influences a step |
| Agreement.PassIsSafeIffOneReading | metadata_update_helper.c:70-84 | a pass keeps the order of every ledger exactly if its clock readings are all equal |
| Agreement.PassIsSafeIffYoungInOrder | metadata_update_helper.c:70-112 | whatever the clock does during the pass, it keeps the order exactly if no record still inside the window at its start is older than one behind it |
| Agreement.TickingPassesDisagree | metadata_update_helper.c:70-84 | two ranks with equal ledgers whose logs disagree because one clock ticks during the pass |
| CloseBarrier.CountsOnlySubmitters | H5VL_rlo.c:1620-1626 | a rank never counts more closes than ranks that submitted one |
| CloseBarrier.NobodyClosesEarly | H5VL_rlo.c:4152-4169 | a rank that leaves the close loop knows that every rank has submitted its close |
| CloseBarrier.BarrierOpens | H5VL_rlo.c:4152-4169 | once all have submitted and all is delivered and executed, the count is the number of ranks |
| CloseBarrier.RunInv | H5VL_rlo.c:4152-4169 | every close heard is in a rank's inbox or manager exactly once, in every run |
| Wire.ProposalEncoder | proposal.c:43-87 | the cursor stores give the record's byte layout |
| Wire.ProposalDecoder | proposal.c:90-129 | the cursor loads read the fields at their offsets |
| Wire.ProposalReadBack | proposal.c:43-129 | decoding undoes encoding, for any payload of the announced length |
| Wire.PbufSerialize | rootless/rootless_ops.c:1530-1588 | the pbuf layout, or -1 and an untouched buffer for an empty payload with a pointer |
| Wire.PbufDeserialize | rootless/rootless_ops.c:1613-1647 | reads pid, vote, time stamp and payload from any offset |
| Wire.PbufReadBack | rootless/rootless_ops.c:1530-1647 | the pbuf comes back whatever the skipped size word holds and whatever follows |
| Wire.PbufRoundTrip | rootless/rootless_ops.c:1530-1647 | what is serialised is read back whatever follows it, and starts with its own size |
| Wire.PbufVoteSerialize | rootless/rootless_ops.c:1487-1529 | the vote frame layout of 37 bytes |
| Wire.VoteReadBack | rootless/rootless_ops.c:787 | a vote frame starts with its size and the voter's rank; read four bytes in it yields its pid and vote although its fields are ordered differently |
| Wire.MsgNewBc | rootless/rootless_ops.c:318-327 | origin, size and body in a zeroed buffer |
| Wire.SameAtEveryRank | rootless/rootless_ops.c:1239-1276 | forwards of different length do not matter: every rank receives what the first send carried |
| Wire.MessageReadsBack | rootless/rootless_ops.c:969-984 | every rank reads from a message the origin, the size, and the pbuf with its id, vote, time stamp and the payload bytes carried; so for decisions too |
| Wire.SubmitMessage | VotingPlugin_RLO.c:35-64 | the three encoders in a row give the nested layout |
| Wire.Checkout | VotingPlugin_RLO.c:98-126 | the checkout offset, the pbuf decoder and the record decoder read the nested layout |
| Wire.CheckoutReadsBack | VotingPlugin_RLO.c:98-126 | any rank checks out the submitted proposal with the payload bytes that the first send carried, and its engine reads the proposal's own id, the vote, the time stamp and the origin |
| Wire.RoundTripIff | rootless/rootless_ops.c:1839-1841 | the proposal is unchanged exactly if all payload bytes from 32692 on are zero |
| Codecs.DsCreateEncoder | H5VL_rlo.c:1133-1229 | the stores of a dataset creation; the size computed first is the number of bytes written |
| Codecs.DsCreateDecoder | H5VL_rlo.c:1060-1122 | the loads read what the bytes stand for |
| Codecs.GroupCreateEncoder | H5VL_rlo.c:896-981 | the same for group creation |
| Codecs.GroupCreateDecoder | H5VL_rlo.c:983-1030 | the same for group creation |
| Codecs.AttrCreateEncoder | H5VL_rlo.c:728-817 | the same for attribute creation |
| Codecs.AttrCreateDecoder | H5VL_rlo.c:819-879 | the same for attribute creation |
| Codecs.DtCommitEncoder | H5VL_rlo.c:489-577 | the same for committing a datatype |
| Codecs.DtCommitDecoder | H5VL_rlo.c:579-635 | the same for committing a datatype |
| Codecs.AttrWriteEncoder | H5VL_rlo.c:637-691 | the same for writing an attribute |
| Codecs.AttrWriteDecoder | H5VL_rlo.c:693-726 | the same for writing an attribute |
| Codecs.DsExtendEncoder | H5VL_rlo.c:1306-1362 | the same for extending a dataset, one word per dimension |
| Codecs.DsExtendDecoder | H5VL_rlo.c:1364-1379 | the rank read first says how many words follow |
| Codecs.LocParamsDecoder | H5VL_rlo.c:1530-1597 | the loads of a location by self, name or token |
| Params.FieldsReadBack | H5VL_rlo.c:489-1229 | any table of blobs, ints and words is read back |
| Params.LocParamsEncoder | H5VL_rlo.c:1420-1528 | type words and the union of a location by self, name or token |
| Params.LocRoundTrip | H5VL_rlo.c:1420-1597 | locations by self, name and token survive |
| Params.OperationRoundTrip | H5VL_rlo.c:489-1379 | each of the six operations' decoders undoes its encoder |
| Params.OperationArrives | VotingPlugin_RLO.c:35-126 | operation parameters survive all layers on every rank when they fit the first send |

## Left out

- Params.OperationRoundTrip: does not cover locations by index, because the encoder overwrites the name's length with the name (H5VL_rlo.c:1452-1454) and the decoder does not skip the property list's size (1465-1466, 1565); such locations do not round trip.
- Codecs.DsExtendEncoder: the address and the current rank, which the source asks HDF5 for, are parameters.
- Codecs.DsExtendDecoder: a negative rank word is excluded; the source would copy a huge block.
- Codecs.LocParamsDecoder: reads the bytes of the last blob, where the source reads on in the enclosing buffer. H5VL_token_t, which is not part of this model, is taken to be 16 bytes, and HDF5's own encodings are opaque blobs.
- Wire.MsgNewBc: a body of more than 32760 bytes, which overruns the buffer in the source, is excluded.
- Wire.ProposalDecoder: buffers shorter than they announce are excluded, since the source reads past their end.
- Handlers.ProposalRefines: judgements other than 0 and 1 are handled by the engine model but have no counterpart in the protocol, where every rank votes.
- Joint.ProjectionIsRun: each rank submits under one id of its own, as the callers do with their rank, and submits again only when its previous proposal is decided.
- Handlers.VotingEngine.SubmitProposal: what the call finally returns depends on the progress calls inside it; the model tells failure from success and leaves progress to the runs.
- Voting.DecisionIsUnanimity: votes are booleans; the source's bitwise conjunction agrees for 0 and 1.
- Metadata.MetadataManager.LedgerProcess: the network's deliveries and the clock are parameters; a call whose environment ends before the ledger is empty is reported as not done.
- Metadata.MetadataManager.SubmitProposal: the verdict is a parameter. A broadcast-mode submission promises only its one pass.
- CloseBarrier.NobodyClosesEarly: the proposals travel by plain broadcast; in voting mode it would hold for runs in which no proposal is denied.
- Lifecycle.LifecycleHolds: a run ends where the application would write to freed memory. Received proposals that wait for votes follow another path and are covered only as far as `Handlers` goes.
- SkipRing.GetLevel: the floating-point logarithm and power are exact integer functions.
- How voting results reach the application: the plug-in reports a decided proposal as approved whether the decision was yes or no (VotingPlugin_RLO.c:78-81), and checkout does not look at the vote of a decision that found no proposal.
- MPI itself, allocation failure, leaks of buffers outside the queues, and the list of several engines.
- The HDF5 pass-through callbacks, wrapping and connector information of H5VL_rlo.c.
- The judgement callback, debugging output, benchmarks, tests, the OLD_WAY branch and the proposal pool.
- gen_queue_insert_head and the queue's test code.
