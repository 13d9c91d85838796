# Exactly-once answers in the laundering-detection pipeline, in Dafny

The system is a streaming pipeline of replicated workers that analyse bank transfers. Workers take
batches from shared queues at least once, crash and restart at any moment, and must still give each
client exact answers. This project models the five parts that carry that promise and proves it of
them:

- **A. The EOF barrier.** Replicas that share one input queue record the batches they processed,
  exchange EOFs and batch records with their peers, and call their flush handler when the
  deduplicated processed total reaches what the EOFs announced. A handler is modelled as the
  sequence of its elementary operations (sends, disk writes, memory updates, the flush call), so
  that a crash or an I/O error is a prefix of it (`EofProtocol`). The step system of a whole group
  is in `ReplicaGroup`; safety (`Barrier`), liveness (`Liveness`, `NoLostFlush`, `Drain`), exactly
  which errors and crashes endanger it (`Interrupted`), what they then cost (`LostFlush`) and the
  handover to the next stage (`Stage`, `Handover`, `SplitRouter`, `Repetition`) are proved about it.
  The objects of the program (`ClientStates`, `Coordinator`, `Stateless`) are proved to perform
  exactly those operations.
- **B. The checkpointed engine.** A delta log, acks only after the append, deduplication by batch
  id. `Checkpoint` proves the exactly-once results once, for any processor that meets a few laws
  about draining and replaying changes; `Aggregate`, `AvgByType` and `ScatterGatherJoin` prove the
  laws for three real processors and their change trackers. `CheckpointManagers` holds the objects,
  `CheckpointLog` the lines of the log file and torn tails. `ManagerSteps` and `ManagerLife` prove that
  whatever these objects do, crashes in the middle included, is a run of that model. `AverageQuery` and
  `QueryOverRuns` draw the conclusion for what the processors then answer (`AcceptedItems`).
- **C. The scatter-gather query.** A distributed plan with early pruning and two re-shardings equals
  a one-line set definition (`ScatterGatherQuery`, on top of `Accounts`, `Grouping`, `Aggregate` and
  `ScatterGatherJoin`).
- **D. Batcher and senders.** Weight-bounded cutting and deterministic ids, on which A and B rely to
  recognise replays (`Chunks`, `Batching`, `Senders`).
- **E. Codecs.** Wire frames (`Wire`) and the files of the coordinator (`CoordinatorFiles`), also when
  a write to them fails in the middle of a line or of rewriting a file (`Rewriting`).

`Sums`, `MapOrder` and `Text` are helpers: sums over maps, iteration over Go maps in an unspecified
order, and the little of `strconv`, `strings` and `bufio` that ids and files need. Check the project
with `dafny verify dfyconfig.toml`.

## Assumptions

- The input of a stage is a fixed map from batch id to its counts and a fixed map from EOF id to its
  total; there are as many EOF ids as the stage expects, and their totals add up to the items of all
  distinct batches (`ReplicaGroup.WellFormed`). `Handover` proves that a stage establishes this for
  the next one.
- Hashes, checksums, item weights, the processing of an item, the parsing of floating-point numbers
  and the success of I/O are parameters, so the results hold for all of them.
- Counters are unbounded naturals; amounts are reals. Widths are written out where they decide the
  result: 16-bit counts and lengths on the wire, 64-bit numbers in the coordinator files, 32-bit
  checksums in the log.

## What the proofs found

Where the code does not meet what it is for, it is modelled as it is, with a proof of what happens:

- A crash between the disk write of a batch and the flush decision endangers the flush exactly when
  that disk then holds the whole input (`Interrupted.BatchCrash`); a crash between the write of an
  EOF and the end of its broadcast also when another worker cannot learn the EOF, or a batch that it
  makes due, in another way (`Interrupted.EOFCrash`). What is redelivered is recognised and skipped
  (`Interrupted.RetryIsIgnored`), so without other news the flush is lost for good
  (`LostFlush.FlushLostForGood`, `LoneWorkerNeverFlushes`, `FlushCanBeLost`).
- An error can do the same without any crash: the EOF or batch is in memory already when sending its
  announcement (`handleRemoteEOF` after `addPeerEOF`, `HandleLocalEOF` in its broadcast) or the flush
  handler fails, and the nacked message is ignored when it comes back. `Interrupted.InterruptedLiveIff`
  and, read off the state before, `BatchFailure`, `EOFFailure` and `RemoteEOFFailure` say exactly when
  that harms; errors before it do not (`SendFailure`). A worker so left unflushed calls its flush
  handler after all if and only if some news reaches it (`LostFlush.CallsIffNews`).
- A crash between the flush call and its mark on disk makes the worker call its flush handler twice
  (`Interrupted.CalledTwice`).
- A nacked batch, whose append failed or of which the processor refused an item, is acknowledged as a
  duplicate when it comes back (`Checkpoint.NackedComesBack`), and a crash then loses it
  (`FailedAppendLosesBatch`, `RefusedItemLosesBatch`). Of all steps only such a delivery loses a batch
  (`OnlyDuplicatesLose`).
- Without a crash, a batch of which an item is refused is logged with the effect of the items before
  it and with no size, so that the coordinator counts none of its items (`Checkpoint.ExactlyOnce`,
  `ReportsFollowTheLog`).
- An error of the coordinator when batches are reported after an append is ignored: they are
  acknowledged, but counted only after the next start (`Checkpoint.ReportsFollowTheLog`,
  `NothingMissed`).
- An error of the coordinator when logged batches are reported at a start is ignored as well, but
  leaves the set of processed batches empty: a copy of a logged batch is then processed a second time
  (`Checkpoint.FailedRestoreRepeats`). Nothing else makes a batch count twice (`RepeatsIff`).
- Entries appended to the log after a torn line are not read back, although they were written and
  synced, wherever the line was torn (`CheckpointLog.AppendAfterTornTail`).
- The string key of the join tracker collides for account names with a bar, exactly as
  `ScatterGatherJoin.KeysCollideIff` says, and then a later count is lost in a replay
  (`CollisionLosesUpdate`, `JoinIsLawfulIff`).
- The join tracker forgets every drain whose append failed (`ScatterGatherJoin.RestoreForgets`,
  `RestoreIsSafeIff`).
- Sending the same batch twice in a row through one batcher repeats the ids only if it fits in one
  sub-batch (`Batching.ImmediateReplay`, `ReplayIff`). After an error of the coordinator, or of a
  publication in the middle, that is what happens, and the next stage counts too many items
  (`Repetition.RetryCountsIff`).
- An item that a stateless processor refuses leaves the results of the items before it in the
  batcher; they go out with whatever batch is handled next, under its id (`Repetition.LeftoversGoOn`).
  If that is the same batch again, the next stage counts them on top of its items
  (`Repetition.RefusalCountsIff`).
- Clearing a client rewrites the files of all clients, entry by entry. After an error in the middle of
  a file exactly the entries written before it are left, also of the other clients, and at least one
  of theirs is lost, unless all that is missing is the last newline (`Coordinator.EOFCoordinator.ClearClient`, `Rewriting.UptoIff`,
  `CoordinatorFiles.StoppedBatchesIff`, `StoppedEOFsIff`); right after a file is truncated that is all
  they had (`CoordinatorFiles.OthersCanBeLost`).
- A line of these files that is cut in its last number loads with a smaller number
  (`CoordinatorFiles.StoppedBatchesIff`, `StoppedEOFsIff`). What the next process writes behind a cut
  line is lost, or loads for another client (`BatchAfterTorn`, `EOFAfterTorn`). A flush mark counts as
  soon as its bar is written (`BatchStorage.WriteFlushed`).
- The join announces the number of suspicious pairs, not of the accounts it sends
  (`ScatterGatherJoin.AnnouncedAndSent`).
- The router in front of the groupings sends two results per transfer and counts one; each of the
  two groups still gets what is announced (`SplitRouter.EachGroupOnce`, `SplitHandover`).
- What is counted would depend on the order of Go maps as soon as two replicas disagreed about a
  batch (`Barrier.OrderFreeIff`); they never do (`Barrier.RunSafe`).
- Longer frames are truncated silently (`Wire.RoundTripIff`).

## Model

| member | source | states |
|---|---|---|
| Barrier.BarrierExactness | internal/workers/coordinator/eofcoordinator.go:451-471 | in every run of any number of replicas, with coordination messages duplicated, reordered and lost, I/O errors, and crashes with restore inside any handler: every call of the flush handler passes the survivors of the whole upstream batch set, each batch counted once, and what was counted misses only batches without items |
| Barrier.FlushAgreement | internal/workers/coordinator/clientState.go:138-153 | any two flushes of a client, by any workers, before or after any crash, in one run or in two runs over the same input, pass the same survivor count and the same EOF id |
| Barrier.ReadyIsExact | internal/workers/coordinator/clientState.go:121-131 | a replica that agrees with upstream and finds itself ready holds every upstream EOF, every batch with items, and the exact survivor total |
| Barrier.WholeIsReady | internal/workers/coordinator/clientState.go:121-131 | conversely, knowing every EOF and every batch with items makes the readiness test succeed, in any map order |
| Barrier.AllEOFsKnown | internal/workers/coordinator/clientState.go:133-153 | as many distinct EOF ids as expected means all of them, and the remembered last id is the one that sorts last |
| Barrier.TotalsIgnoreOrder | internal/workers/coordinator/clientState.go:74-98 | with records that agree, processed and survivor totals do not depend on the order in which Go visits the peers |
| Barrier.OrderFreeIff | internal/workers/coordinator/clientState.go:74-98 | for any view whatever, reachable or not: what is counted is the same in every order of visiting the peers if and only if no two peers disagree about an id that is not our own |
| Barrier.DisagreementsCanCancel | internal/workers/coordinator/clientState.go:74-98 | agreement is not necessary for the totals alone: two disagreements can cancel out in every order |
| Barrier.TotalsCanDependOnOrder | internal/workers/coordinator/clientState.go:74-98 | the smallest such case: two peers disagree about one batch, and two orders of visiting them give two totals |
| Barrier.PartIsWhole | internal/workers/coordinator/clientState.go:100-131 | a deduplicated part of the batches that reaches the announced total leaves out only batches without items |
| Barrier.HandlerAgrees | internal/workers/coordinator/eofcoordinator.go:157-373 | no handler sends, stores or announces anything that differs from what upstream sent |
| Barrier.HandlerCalls | internal/workers/coordinator/eofcoordinator.go:157-373 | the only flush a handler can ask for is the one decided on what the replica knows at its end |
| Barrier.RunSafe | internal/workers/coordinator/eofcoordinator.go:95-471 | agreement with upstream and exactness of all flushes hold in every state of every run |
| NoLostFlush.EveryWorkerFlushesOnce | internal/workers/coordinator/eofcoordinator.go:157-471 | in every run without lost messages in which each error and each crash is a harmless one, as InterruptedLiveIff decides it: once no coordination message is in flight and every EOF and every batch with items has been handled by some worker, each worker has flushed exactly once |
| NoLostFlush.NeverTwice | internal/workers/coordinator/eofcoordinator.go:451-471 | at no moment of such a run has a worker flushed twice |
| NoLostFlush.RunLive | internal/workers/coordinator/eofcoordinator.go:255-294 | every state of such a run keeps: all EOFs known means all own batches have reached, or will reach, every peer; all own EOFs have reached or will reach every peer; whoever knows everything has flushed; disk and memory match; one flush call for each mark |
| Liveness.HandlerLands | internal/workers/coordinator/eofcoordinator.go:157-471 | any handler, run to its end, leaves disk and memory equal and has decided on the flush exactly once, on what is then known |
| Liveness.ActorShares | internal/workers/coordinator/eofcoordinator.go:375-427 | the worker that handles an event owes none of its peers a batch or an EOF that is not in flight to them |
| Liveness.OthersStillShare | internal/workers/coordinator/eofcoordinator.go:255-373 | what the other workers owe each other, the event does not lose |
| Liveness.RebootLive | internal/workers/coordinator/eofcoordinator.go:95-130 | a restart, with its wake-up to every peer, keeps the group live although memory of the peers is gone |
| Liveness.EarlyCutLive | internal/workers/coordinator/eofcoordinator.go:157-182 | a crash before a handler has left a durable trace keeps the group live |
| Liveness.LateCutLive | internal/workers/coordinator/eofcoordinator.go:315-373 | a crash after everything durable has been done keeps the group live |
| Interrupted.InterruptedLiveIff | internal/workers/coordinator/eofcoordinator.go:157-471 | for every event, every place in its handler and both ways to stop there, an I/O error or a crash: the group stays live if and only if a flush begun was recorded, what was written was also remembered, the worker is not left knowing everything unflushed, and a new EOF, with the batches it makes due, has been sent to or will reach every other worker |
| Interrupted.BatchCrash | internal/workers/coordinator/eofcoordinator.go:157-182 | a crash after a batch is written and before the flush decision keeps the group live if and only if the disk, with that batch, does not hold every EOF and every batch with items unflushed; so sharing the queue makes it harmless |
| Interrupted.EOFCrash | internal/workers/coordinator/eofcoordinator.go:184-212 | a crash after an EOF is written and before the flush decision keeps the group live if and only if, besides, every other worker was sent the EOF or learns it otherwise, and, if the EOF completes the worker, all its batches |
| Interrupted.PacketCrash | internal/workers/coordinator/eofcoordinator.go:296-373 | a crash while a coordination message is handled harms only between the flush call and its mark on disk |
| Interrupted.SendFailure | internal/workers/coordinator/eofcoordinator.go:157-225 | an error that comes before anything but sends was done is harmless, whatever the event |
| Interrupted.BatchFailure | internal/workers/coordinator/eofcoordinator.go:157-182 | an error after a batch is written and before the flush decision is harmless if and only if the batch was remembered too and the worker did not, with it, know every EOF and every batch with items unflushed |
| Interrupted.EOFFailure | internal/workers/coordinator/eofcoordinator.go:184-225 | the same for an EOF, and besides every other worker was sent the EOF or learns it otherwise, and, if the EOF completes the worker, all its batches |
| Interrupted.RemoteEOFFailure | internal/workers/coordinator/eofcoordinator.go:315-344 | an error after the EOF of a peer was taken in is harmless if and only if the worker is not then left ready to flush and every batch that the EOF makes due was sent or has reached everyone |
| Interrupted.RetryIsIgnored | internal/workers/coordinator/eofcoordinator.go:157-344 | an event whose trace is on disk after a crash, or in memory after an error, does nothing at all when it is delivered again: what was left undone stays undone |
| Interrupted.NewsFlushes | internal/workers/coordinator/eofcoordinator.go:451-471 | a worker that knows everything and is unflushed calls its flush handler with the next news of any kind |
| Interrupted.CalledTwice | internal/workers/coordinator/eofcoordinator.go:451-471 | after a crash between the flush call and its mark the worker comes back unflushed, and the news with which it knows everything again makes it call a second time |
| LostFlush.FlushCanBeLost | internal/workers/coordinator/eofcoordinator.go:157-182 | such a state is reached: a run of one worker with one crash, between the disk write of a batch and the flush decision, after which all input is handled, nothing is in flight, no flush happened and no event makes it happen |
| LostFlush.FlushLostForGood | internal/workers/coordinator/eofcoordinator.go:157-212 | from any live state of any group: if an error or a crash leaves a worker knowing everything and unflushed while the others hold nothing and have no news for it, then whatever deliveries, errors, losses, crashes and restarts follow, it never calls its flush handler again |
| LostFlush.CallsIffNews | internal/workers/coordinator/eofcoordinator.go:157-471 | from any state in which a worker knows everything and is unflushed, along every continuation that does not interrupt it again, with whatever the others do, losses and crashes included: it calls its flush handler if and only if some news reaches it |
| LostFlush.LoneWorkerNeverFlushes | internal/workers/coordinator/eofcoordinator.go:157-212 | for a lone worker whose disk then holds every batch: under every continuation there is |
| LostFlush.LateBatchSavesFlush | internal/workers/coordinator/eofcoordinator.go:157-182 | and otherwise not: any batch not yet on its disk, even an empty one, makes it flush when it comes |
| Drain.DeliveryDecreases | internal/workers/coordinator/eofcoordinator.go:227-253 | each delivery of a coordination message decreases (wake-ups, EOFs, batch messages) in flight, lexicographically |
| Drain.DeliveriesEnd | internal/workers/coordinator/eofcoordinator.go:227-253 | from any state, no schedule delivers messages forever without new input |
| Drain.RunCanDrain | internal/workers/coordinator/eofcoordinator.go:255-427 | from any state of any run, losses and crashes included, the network can be emptied |
| Drain.LossFreeRunThenDrain | internal/workers/coordinator/eofcoordinator.go:255-471 | after such a run that saw all the input, any schedule that delivers what is in flight leaves every worker flushed exactly once |
| ClientStates.ClientState.Totals | internal/workers/coordinator/clientState.go:74-98 | the loop with its set of counted ids computes the sums over a map that holds every id known anywhere once, with our own record if there is one and else with that of some peer |
| ClientStates.ClientState.EofTotals | internal/workers/coordinator/clientState.go:100-119 | the number of distinct EOF ids known, and the sum of their totals, each id once |
| ClientStates.ClientState.IsReadyToFlush | internal/workers/coordinator/clientState.go:121-131 | true exactly when not yet flushed, all EOFs are known and the processed total reaches the expected one |
| ClientStates.ClientState.HasAllEOFs | internal/workers/coordinator/clientState.go:133-136 | true exactly when the union of own and peer EOF ids has the expected size |
| ClientStates.ClientState.GetLastEOFID | internal/workers/coordinator/clientState.go:138-153 | the known id that sorts last is remembered; nothing else changes |
| ClientStates.ClientState.AddOwnEOF | internal/workers/coordinator/clientState.go:58-62 | the EOF is stored and the last id brought up to date |
| ClientStates.ClientState.AddPeerEOF | internal/workers/coordinator/clientState.go:64-70 | the same for the EOF of a peer, other peers untouched |
| ClientStates.ClientState.AddPeerBatch | internal/workers/coordinator/clientState.go:38-43 | the record is stored under that peer and nowhere else |
| ClientStates.ClientState.AddOwnBatch | internal/workers/coordinator/clientState.go:34-36 | the record is stored under its id and nothing else changes |
| Coordinator.PerformedIsStep | internal/workers/coordinator/eofcoordinator.go:157-471 | what the methods of the coordinator object are proved to perform is a step of the replica group, completed or cut short by an error, for every kind of event |
| Coordinator.EOFCoordinator.StepsAlong | internal/workers/coordinator/eofcoordinator.go:157-471 | an object whose memory and files are those of its worker in the group still is its worker after the step it performed |
| Coordinator.EOFCoordinator.Effect | internal/workers/coordinator/eofcoordinator.go:157-471 | the operations booked for a client are exactly what changed its memory and its files, and nothing of other clients changed |
| Coordinator.EOFCoordinator.constructor | internal/workers/coordinator/eofcoordinator.go:42-130 | defaults for expected EOFs and weight; every client is restored from what the three files hold |
| Coordinator.EOFCoordinator.RestoreFromStorage | internal/workers/coordinator/eofcoordinator.go:95-130 | after the three restoring loops each client is what its part of the files says: own batches, own EOFs with the last id, flush mark, no peers |
| Coordinator.EOFCoordinator.RecordBatch | internal/workers/coordinator/eofcoordinator.go:157-182 | a known batch does nothing; a new one is shared if all EOFs are known, written, remembered, and then the flush is decided; after an error a prefix of that was done, and other clients are as before |
| Coordinator.EOFCoordinator.HandleLocalEOF | internal/workers/coordinator/eofcoordinator.go:184-212 | a known EOF does nothing; a new one is written, remembered and broadcast, own batches are shared once all EOFs are known, then the flush is decided |
| Coordinator.EOFCoordinator.HandleRemoteEOF | internal/workers/coordinator/eofcoordinator.go:315-344 | the same for the EOF of a peer, without write and broadcast; messages for cleaned clients are dropped |
| Coordinator.EOFCoordinator.HandleRemoteBatch | internal/workers/coordinator/eofcoordinator.go:346-373 | records that are not our own are remembered for the peer, then the flush is decided; messages for cleaned clients are dropped |
| EofProtocol.LearnedIs | internal/workers/coordinator/eofcoordinator.go:346-373 | after a message with batch records a peer is known to have the batches known before and those named that are not our own; our own records stay |
| Coordinator.EOFCoordinator.HandleWakeUp | internal/workers/coordinator/eofcoordinator.go:255-294 | for every client all own EOFs, and if its EOFs are complete all own batches, go to the replica that woke up; an error ends the answer with a prefix done |
| Coordinator.EOFCoordinator.ShareOwnBatches | internal/workers/coordinator/eofcoordinator.go:412-427 | the own records go out in the messages that a weight-bounded batcher cuts, each to every target as soon as it is cut |
| Coordinator.EOFCoordinator.TryFlush | internal/workers/coordinator/eofcoordinator.go:451-471 | when ready, and only then: the handler is called with the survivor total and the last id, the flush is remembered, then the mark is written; after an error a prefix of that was done |
| Coordinator.EOFCoordinator.SendTo | internal/workers/coordinator/eofcoordinator.go:429-440 | one copy of the message to each target in order; after an error a prefix of them |
| Coordinator.EOFCoordinator.GetClientState | internal/workers/coordinator/eofcoordinator.go:442-449 | a client seen for the first time starts empty; views and files stay as they are |
| Coordinator.EOFCoordinator.HasSeenBatch | internal/workers/coordinator/eofcoordinator.go:148-153 | exactly the own batches count as seen |
| Coordinator.EOFCoordinator.ReachedEOFAmount | internal/workers/coordinator/eofcoordinator.go:473-480 | true exactly when all EOFs of the client are known |
| Coordinator.EOFCoordinator.ClearClient | internal/workers/coordinator/eofcoordinator.go:490-501 | the client is gone from memory and from batches.log and eofs.log but not from flushed.log, other clients stay; after an error, of each file the disk has everything, or all but that client, or exactly the entries written before the error, and then an entry of another client is gone |
| Handover.StageHandover | internal/workers/engine/statelessengine.go:73-127 | in every run of a stage of stateless replicas whose counts fit its outputs, with errors after which a batch keeps its ids and none of its results is left in a batcher: from the moment any replica calls its flush handler, the distinct published sub-batches hold exactly as many items as the survivor count passed to it |
| Handover.NextStageBalanced | internal/workers/engine/statelessengine.go:121-127 | so the stage EOF and the published sub-batches balance, which is what the barrier of the next stage assumes |
| Handover.NextStageWellFormed | internal/workers/coordinator/eofcoordinator.go:42-91 | what any number of groups hand over, one record for each distinct sub-batch and one EOF for each group, is an input for which the barrier of the next stage is proved exact |
| Handover.EnginesFeed | internal/workers/engine/statelessengine.go:109-119 | the records that the engines of the next stage make of the sub-batches they receive count exactly the items handed over, which is what the barrier there assumes |
| Handover.TwoStagesExact | internal/workers/coordinator/eofcoordinator.go:451-471 | two stages in a row: in every run of the second, every flush counts each distinct sub-batch of the first exactly once |
| Handover.GroupsBalance | internal/workers/coordinator/eofcoordinator.go:42-91 | several groups that feed one stage under ids of their own balance together |
| Stage.RunKnownIsPublished | internal/workers/engine/statelessengine.go:73-119 | in such a run any batch record known anywhere (memory, disk, network, a flush) already has all its output sub-batches published |
| Handover.SurvivorsAreResults | internal/workers/engine/statelessengine.go:87-107 | the survivor count never exceeds the number of results, and equals it exactly when every item counted as one gives at most one result |
| Handover.ResultsInOrder | internal/workers/engine/statelessengine.go:82-107 | the results of a batch are those of its items one after the other; an item counts for all its results if it is one with several, and else for one if it has any |
| Handover.SingleOutputsFit | internal/workers/engine/statelessengine.go:73-119 | with at most one result per item counted as one, and positive weights, the outputs of a stage with a single sender fit its counts |
| Handover.RoutedOutputsFit | internal/workers/sender/routedsender.go:45-74 | the same for a stage that spreads its results over the routes of an exchange |
| Handover.RoutedLineageInjective | internal/workers/sender/routedsender.go:45-62 | parent id, route and number can be read back from a published id |
| SplitRouter.EachGroupOnce | internal/workers/processor/routers/origindestinationrouter.go:23-51 | the router in front of the groupings gives each of the two exchanges one copy of a transfer and counts it once, so counts do not fit all that is published |
| SplitRouter.SplitShard | internal/workers/processor/routers/origindestinationrouter.go:23-51 | a transfer goes over the origin route that its sending account hashes to and the destination route that its receiving account hashes to, and over no other |
| SplitRouter.KeptTogether | internal/workers/processor/routers/origindestinationrouter.go:23-51 | transfers with the same sender take the same origin route and transfers with the same receiver the same destination route, and none takes two routes of one exchange |
| SplitRouter.SplitOutputsFit | internal/workers/processor/routers/origindestinationrouter.go:23-37 | for any processor that gives one exchange one result per item, counts fit what goes over that exchange |
| SplitRouter.SplitHandover | internal/workers/processor/routers/origindestinationrouter.go:23-51 | in every run of the router stage each of the two groups receives, in distinct sub-batches, exactly the announced number of transfers |
| Stateless.StatelessEngine.RunProcessor | internal/workers/engine/statelessengine.go:82-107 | results are added in order under the id of the batch, survivors counted as the processor says, up to the first item that the processor refuses or the first publication that fails |
| Stateless.StatelessEngine.HandleDataMessage | internal/workers/engine/statelessengine.go:73-119 | a seen batch is only acknowledged; a new one has its results sent, and then its record names items and survivors; a refused item or a failed publication ends the handling with nothing recorded |
| Stateless.StatelessEngine.HandledPublishes | internal/workers/engine/statelessengine.go:73-119 | from an idle batcher the first sub-batches that the batch determines are published, all of them unless an error stopped it; the batcher is idle again if and only if the batch is recorded or fits in one sub-batch, or, after a failed publication, no sub-batch but the first was begun, or, after a refused item, the items before it gave nothing |
| Stateless.StatelessEngine.HandledIsStep | internal/workers/engine/statelessengine.go:73-119 | the object, which is its worker of the group, takes the step in which the batch arrives, done or cut short, and publishes the outputs that the group attributes to the batch, or the first of them; after a step that is done or keeps the ids its batcher is idle again, unless an item was refused after others had given results, and then it is not |
| Stateless.SendIdle | internal/workers/engine/statelessengine.go:73-119 | an idle batcher publishes exactly what an unrecorded batch determines, and is idle again if and only if the batch is then recorded or took one sub-batch |
| Repetition.RetryCountsIff | internal/workers/engine/statelessengine.go:113-119 | a batch sent, not recorded because of an error, and sent again by the same batcher: whichever copy of a repeated id counts, the next stage counts its items if and only if they fit in one sub-batch, and too many otherwise |
| Repetition.LeftoversGoOn | internal/common/batch/Batcher.go:35-62 | results that a refused item left in the batcher go out with the next batch under its id: the items published for that batch are its own if and only if nothing had been left |
| Repetition.RefusalCountsIff | internal/workers/engine/statelessengine.go:82-107 | an item is refused after others have given results, and the batch comes back and passes: what is published is what a batch with those results before its own would be published as, so the next stage counts its items if and only if there were no such results |
| Stateless.StatelessEngine.HandleTrueEOF | internal/workers/engine/statelessengine.go:121-127 | only the leader announces the survivors, under the namespaced EOF id |
| Checkpoint.ExactlyOnce | internal/workers/checkpoint/checkpoint_manager.go:97-309 | in every run with duplicate deliveries, refused items, failed appends, nacks, failed reports, and a crash between any two actions, for any processor that meets the laws, whose failed drains are given back and whose logged batches are not taken for new: the live state means what processing the accepted batches once each means, up to the item refused; the log rebuilds what the logged batches mean; no batch is accepted twice; and the logged batches are a prefix of the accepted ones |
| AcceptedItems.StateIsOfItems | internal/workers/checkpoint/checkpoint_manager.go:97-309 | for any lawful processor that works item by item: at any moment of every such run the state means what processing the items of the accepted batches in one go means |
| Checkpoint.NothingLost | internal/workers/checkpoint/checkpoint_manager.go:189-309 | in every such run whose duplicates are spared: every batch sent is logged or still has a delivery that is not acknowledged; with none left, exactly the batches sent were processed, once each |
| Checkpoint.OnlyDuplicatesLose | internal/workers/checkpoint/checkpoint_manager.go:189-211 | a step keeps every batch logged or held if and only if it does not acknowledge, as a duplicate, the last delivery of a batch that is not logged |
| Checkpoint.UnsparedLoses | internal/workers/checkpoint/checkpoint_manager.go:189-211 | in every run, the first step that is not spared loses a batch |
| Checkpoint.QuietRunsLoseNothing | internal/workers/checkpoint/checkpoint_manager.go:189-309 | runs in which no delivery is nacked spare every duplicate and lose nothing |
| Checkpoint.NackedComesBack | internal/workers/checkpoint/checkpoint_manager.go:213-285 | in any state, a nack, for a failed append or a refused item, makes the next delivery of that batch a duplicate that is not spared, unless another copy is held |
| Checkpoint.RestoringRunsAreSound | internal/workers/checkpoint/checkpoint_manager.go:97-309 | every run whose starts do not fail is such a run, if the processor can always give a drain back or no append fails |
| Checkpoint.ReportsFollowTheLog | internal/workers/checkpoint/checkpoint_manager.go:278-309 | in every such run the coordinator counts a batch only when it is logged, with its number of items, or with none if one was refused; once the worker is idle it counts every logged batch that was not refused and whose report has not failed since the last start |
| Checkpoint.NothingMissed | internal/workers/checkpoint/checkpoint_manager.go:97-184 | from a start on, no report is missing until one fails: a start that succeeds makes up for earlier failures |
| Checkpoint.LogIsNumbered | internal/workers/checkpoint/checkpoint_manager.go:257-309 | in every run whatever whose starts do not fail: log entries are numbered without gaps, also across restarts, from zero, or from one if a start found an empty log file |
| Checkpoint.RepeatsIff | internal/workers/checkpoint/checkpoint_manager.go:97-211 | a step makes some batch count twice if and only if it takes a logged batch for a new one |
| Checkpoint.FailedRestoreRepeats | internal/workers/checkpoint/checkpoint_manager.go:169-184 | in any state at a start: an error while logged batches are reported again makes the next delivery of any logged batch one that is processed again |
| Checkpoint.StepKept | internal/workers/checkpoint/checkpoint_manager.go:97-309 | the invariant behind these results, which ties pending batches, sizes, log, queue and processor state together, is kept by every step, nacks, refused items and failed reports included |
| Checkpoint.CrashKept | internal/workers/checkpoint/checkpoint_manager.go:97-184 | in particular by a crash with recovery at any point, also between append, reports and acks |
| Checkpoint.RunStaysAhead | internal/workers/checkpoint/checkpoint_manager.go:97-309 | for a processor that can give drains back, in every run whatever, failed starts included: the live state is the one that the log rebuilds and the changes not drained yet |
| Checkpoint.FailedAppendLosesBatch | internal/workers/checkpoint/checkpoint_manager.go:282-285 | and it is reached: for every processor, batch that is not refused and checkpoint interval there is a run in which an append fails, the batch comes back, is taken for a duplicate and acknowledged, and a crash then loses it |
| Checkpoint.RefusedItemLosesBatch | internal/workers/engine/statefulengine.go:90-118 | so does one refused item: for every processor and batch of which an item is refused there is a run without any disk error that loses the batch |
| CheckpointManagers.CheckpointManager.BeginBatch | internal/workers/checkpoint/checkpoint_manager.go:189-211 | a known batch is acknowledged at once; a new one is marked, queued and keeps its ack |
| CheckpointManagers.CheckpointManager.CommitBatch | internal/workers/checkpoint/checkpoint_manager.go:229-247 | the size is noted; a checkpoint is taken when enough batches wait or all EOFs are known |
| CheckpointManagers.CheckpointManager.FlushPendingBatches | internal/workers/checkpoint/checkpoint_manager.go:249-255 | a checkpoint of what waits, unless EOFs are missing |
| CheckpointManagers.CheckpointManager.PersistAndAck | internal/workers/checkpoint/checkpoint_manager.go:257-309 | one entry with batches, changes and sizes; only after it is appended come reports, one for each counted batch with its own size, a new book and acks; if drain or append fails nothing is acknowledged and the changes are given back |
| CheckpointManagers.CheckpointManager.LoadClientState | internal/workers/checkpoint/checkpoint_manager.go:97-184 | changes are replayed entry by entry and every logged batch is reported again with its size, in order; then a batch counts as processed if and only if some entry of the log holds it, numbers go on after the last entry, or from one, and nothing waits; when a report fails no more are made and the book stays as it was |
| CheckpointManagers.CheckpointManager.AbortBatch | internal/workers/checkpoint/checkpoint_manager.go:213-219 | the count of waiting batches goes down by one, unless it is zero, and nothing else changes: the batch stays marked as processed |
| CheckpointManagers.CheckpointManager.ClearState | internal/workers/checkpoint/checkpoint_manager.go:311-339 | the client is forgotten and its waiting deliveries are acknowledged |
| CheckpointManagers.StatefulEngine.HandleDataMessage | internal/workers/engine/statefulengine.go:90-118 | a batch new to the manager is processed once, item by item, and committed; a refused item ends it with the items before processed and the batch still pending but not counted; a known batch leaves no trace but its ack |
| CheckpointManagers.CheckpointManager.ReportAll | internal/workers/checkpoint/checkpoint_manager.go:287-289 | as many new reports as counted batches, each for this client and one of the batches, with the size of that batch, and each batch once |
| ManagerSteps.HandledIsPath | internal/workers/engine/statefulengine.go:90-118 | what the engine does with a delivery is a way through the steps of the model: at its end the book, the log, the processor, the deliveries held and what the coordinator has recorded are as those steps make them, with the delivery nacked exactly if it failed |
| ManagerSteps.FlushedIsPath | internal/workers/checkpoint/checkpoint_manager.go:249-309 | so is a checkpoint that an EOF brings about |
| ManagerSteps.RestoredIsPath | internal/workers/checkpoint/checkpoint_manager.go:97-184 | so are a crash at any moment and the start of an object that knows nothing but the log, also when a report fails: at their end the book is what the model loads from the log and the coordinator has recorded what was reported |
| ManagerSteps.RunGoesOn | internal/workers/engine/statefulengine.go:57-88 | a run of the model goes on wherever its last state leads, so that a call of an object continues it |
| ManagerLife.LifeIsRun | internal/workers/engine/statefulengine.go:45-118 | any sequence of calls of the objects of one client, with crashes in the middle of calls and starts from the log, is a run of the model that ends where the objects stand |
| ManagerLife.LifeIsExactlyOnce | internal/workers/checkpoint/checkpoint_manager.go:97-309 | so at any moment of such a life: the batches in log and book are all different and are exactly those that BeginBatch takes for known, the processor means what processing each of them once means, a restart would bring back what the logged ones mean, and the coordinator counts only logged batches with their sizes, all of them unless refused or missed |
| ManagerLife.FewWait | internal/workers/checkpoint/checkpoint_manager.go:229-276 | as long as drains and appends succeed, fewer batches wait between two calls than a checkpoint takes, and none that counts after a new batch or an EOF was handled with all EOFs known |
| CheckpointLog.LineRoundTrip | internal/workers/checkpoint/checkpoint_manager.go:355-419 | parsing a formatted line gives the payload back, for any payload on one line |
| CheckpointLog.AlteredPayload | internal/workers/checkpoint/checkpoint_manager.go:384-419 | a line of which the payload was altered is read only if its length and its 32-bit checksum are those of the original |
| CheckpointLog.LineLooksLike | internal/workers/checkpoint/checkpoint_manager.go:366-370 | a line is the decimal length, eight hexadecimal digits of the checksum, the first counting most, and the payload |
| CheckpointLog.FileRoundTrip | internal/workers/checkpoint/checkpoint_manager.go:119-164 | reading a file of formatted lines gives all the payloads in order |
| CheckpointLog.TornTail | internal/workers/checkpoint/checkpoint_manager.go:119-164 | when the append of one more line is cut anywhere, exactly the complete lines are read, and the last one too if only its newline is missing |
| CheckpointLog.AppendAfterTornTail | internal/workers/checkpoint/checkpoint_manager.go:119-164 | entries appended after a line cut anywhere are read back, with all before them, if and only if nothing of that line had been written, for any checksum function; otherwise the first of them is gone, and either all the others with it or a longer payload stands in its place |
| CheckpointLog.GluedLineEndsLog | internal/workers/checkpoint/checkpoint_manager.go:355-382 | in particular, if both together are no line, nothing from there on is ever read |
| CheckpointLog.MissingNewlineLosesBoth | internal/workers/checkpoint/checkpoint_manager.go:355-382 | in particular, a last line without its newline, read by one boot, is lost with the line appended next |
| CheckpointLog.TornDigitsLoseAll | internal/workers/checkpoint/checkpoint_manager.go:355-419 | in particular, a line torn inside its length loses every later entry, whatever the checksums are |
| Aggregate.AggregationIsLawful | internal/workers/processor/aggregators/aggregatebyintermediary/checkpoint_tracker.go:51-108 | the laws of the engine hold for aggregation by intermediary: drains bring the log to the live state in any order of the dirty sets, and failed drains can be given back |
| Aggregate.CountsIgnoreOrder | internal/workers/processor/aggregators/aggregatebyintermediary/store.go:19-55 | pair counts depend only on which relations arrived, not on their order or repetition |
| Aggregate.ReplayIgnoresOrder | internal/workers/processor/aggregators/aggregatebyintermediary/checkpoint_tracker.go:92-108 | replaying changes in any order and any number of times rebuilds the same pair counts |
| Accounts.NewOrigin | internal/workers/processor/aggregators/aggregatebyintermediary/store.go:19-36 | a new origin of an intermediary adds one to its pair with each destination of that intermediary, and to no other pair |
| Accounts.NewDestination | internal/workers/processor/aggregators/aggregatebyintermediary/store.go:38-55 | the same for a new destination |
| Accounts.CountsPositive | internal/workers/processor/aggregators/aggregatebyintermediary/store.go:75-83 | no pair is stored with a count of zero |
| Aggregate.IntermediaryStore.AddOrigin | internal/workers/processor/aggregators/aggregatebyintermediary/store.go:19-36 | the incremental loop keeps every pair count equal to the number of intermediaries between origin and destination; tells whether the relation is new |
| Aggregate.IntermediaryStore.AddDestination | internal/workers/processor/aggregators/aggregatebyintermediary/store.go:38-55 | the same for destinations |
| Aggregate.IntermediaryStore.GetPairs | internal/workers/processor/aggregators/aggregatebyintermediary/store.go:75-83 | the counts of the definition |
| Aggregate.IntermediaryStore.GetOrCreateRelations | internal/workers/processor/aggregators/aggregatebyintermediary/store.go:57-73 | the two sides of the intermediary, empty if it is new; the relations stay |
| Aggregate.AggregateByIntermediaryProcessor.Cleanup | internal/workers/processor/aggregators/aggregatebyintermediary/aggregatebyintermediary.go:102-112 | the client is as if it had never been seen; others stay |
| Aggregate.AggregateByIntermediaryProcessor.Process | internal/workers/processor/aggregators/aggregatebyintermediary/aggregatebyintermediary.go:24-55 | a new relation is stored and marked, an old one changes nothing, other clients stay |
| Aggregate.AggregateByIntermediaryProcessor.DrainChanges | internal/workers/processor/aggregators/aggregatebyintermediary/checkpoint_tracker.go:51-73 | one change per dirty relation, origins first; nothing is dirty afterwards |
| Aggregate.AggregateByIntermediaryProcessor.RestoreChanges | internal/workers/processor/aggregators/aggregatebyintermediary/checkpoint_tracker.go:75-90 | the relations of the changes are dirty again |
| Aggregate.AggregateByIntermediaryProcessor.ApplyChange | internal/workers/processor/aggregators/aggregatebyintermediary/checkpoint_tracker.go:92-108 | the relation is added to the store, nothing becomes dirty |
| Aggregate.AggregateByIntermediaryProcessor.Finalize | internal/workers/processor/aggregators/aggregatebyintermediary/aggregatebyintermediary.go:66-100 | every counted pair is yielded once with its count, unless the consumer fails; the state of the client is gone either way |
| AvgByType.AverageIsLawful | internal/workers/processor/groupers/avgbytype/checkpoint_tracker.go:60-183 | the laws of the engine hold for the average by type with its per-format index log, failed appends given back included |
| AvgByType.LogIsPrefix | internal/workers/processor/groupers/avgbytype/checkpoint_tracker.go:60-183 | over any mix of processing, drains, failed appends, nacks and crashes with replay: the logged entries of each format are the prefix of its list up to the checkpoint index |
| AvgByType.SameResults | internal/workers/processor/groupers/avgbytype/avgbytypeprocessor.go:85-136 | states that mean the same, such as a recovered one, yield the same multiset of results in whatever order the formats are visited |
| AvgByType.ResultsAreSmallOnes | internal/workers/processor/groupers/avgbytype/avgbytypeprocessor.go:104-131 | in whatever order the formats are visited: each payment as often as its transactions are small for their format, where small is stated without dividing |
| AvgByType.AvgByTypeClient.Process | internal/workers/processor/groupers/avgbytype/avgbytypeprocessor.go:34-83 | sums and counts of the first period, lists of the second; an item is refused exactly if it is of the first period and its amount does not parse, and then nothing changes |
| AvgByType.AvgByTypeClient.DrainChanges | internal/workers/processor/groupers/avgbytype/checkpoint_tracker.go:60-116 | dirty sums in full, dirty lists from their index on; indices advance and the old ones are kept aside |
| AvgByType.AvgByTypeClient.RestoreChanges | internal/workers/processor/groupers/avgbytype/checkpoint_tracker.go:118-145 | formats are dirty again and the index of each logged list goes back |
| AvgByType.AvgByTypeClient.ApplyChange | internal/workers/processor/groupers/avgbytype/checkpoint_tracker.go:147-183 | sums are set, transactions appended with the index moved on |
| AvgByType.AvgByTypeClient.Finalize | internal/workers/processor/groupers/avgbytype/avgbytypeprocessor.go:85-136 | a payment is yielded exactly as often as there are second-period transactions of that account and amount, in lists of formats with at least one first-period amount, of which the amount parses and, times a hundred and times the count, is less than the sum; if the consumer refuses one, those before it and none more often |
| AverageQuery.AverageIsDefinition | internal/workers/processor/groupers/avgbytype/avgbytypeprocessor.go:34-136 | from any list of transactions and nothing else: a payment is yielded as often as it is in the second period with a format whose first-period amounts, as far as they parse, have an average of more than a hundred times its amount |
| AverageQuery.AverageOverRuns | internal/workers/checkpoint/checkpoint_manager.go:97-309 | so it is at any moment of every run of the checkpointed engine, with duplicates, crashes, replays and failed appends, for the transactions of the distinct accepted batches |
| ScatterGatherJoin.JoinIsLawful | internal/workers/processor/joiners/scattergatherjoin/checkpoint_tracker.go:48-192 | the drain and replay laws of the engine hold for the scatter-gather join over any set of pairs on which keys are injective |
| ScatterGatherJoin.JoinIsLawfulIff | internal/workers/processor/joiners/scattergatherjoin/checkpoint_tracker.go:35-192 | over any set of pairs the laws hold if and only if no two of the pairs share a key; where two do, no relation between live and replayed states makes them hold |
| ScatterGatherJoin.CleanIsInjective | internal/workers/processor/joiners/scattergatherjoin/checkpoint_tracker.go:35-37 | account names without a bar are such a set |
| ScatterGatherJoin.DrainedChanges | internal/workers/processor/joiners/scattergatherjoin/checkpoint_tracker.go:48-123 | a drain hands over only pairs whose count differs from the last drain, each with its count, and never a removal |
| ScatterGatherJoin.ReplayedPaths | internal/workers/processor/joiners/scattergatherjoin/checkpoint_tracker.go:153-192 | replaying what was drained rebuilds exactly the counts at that drain |
| ScatterGatherJoin.KeyInjective | internal/workers/processor/joiners/scattergatherjoin/checkpoint_tracker.go:35-37 | keys of different pairs differ when account names have no bar in them |
| ScatterGatherJoin.KeysCollideIff | internal/workers/processor/joiners/scattergatherjoin/checkpoint_tracker.go:35-37 | two pairs share a key exactly when they are equal or one arises from the other by shifting a bank number between bars from the name of one account into the other |
| ScatterGatherJoin.KeysCollide | internal/workers/processor/joiners/scattergatherjoin/checkpoint_tracker.go:35-37 | so for all banks and names, a bar and a bank number inside the name of the origin give two different pairs one key |
| ScatterGatherJoin.CollisionLosesUpdate | internal/workers/processor/joiners/scattergatherjoin/checkpoint_tracker.go:70-98 | for any two pairs with one key: a later count of one pair looks unchanged, is not logged, and is lost in a replay |
| ScatterGatherJoin.RestoreForgets | internal/workers/processor/joiners/scattergatherjoin/checkpoint_tracker.go:125-151 | whatever was drained: once a failed append has been given back, the next drain hands over nothing |
| ScatterGatherJoin.RestoreIsSafeIff | internal/workers/processor/joiners/scattergatherjoin/checkpoint_tracker.go:125-151 | giving a failed drain back leaves the live state ahead of the log, as the laws ask, if and only if there was nothing to give back |
| ScatterGatherJoin.PutBackIs | internal/workers/processor/joiners/scattergatherjoin/checkpoint_tracker.go:125-151 | what giving back leaves, pair by pair: the count given back, if it is not zero and the changes agree on it, for the pairs named, and the old one for the others; the client is dirty exactly if it was or a count that is not zero was given back; the snapshot stays |
| ScatterGatherJoin.AnnouncedAndSent | internal/workers/processor/joiners/scattergatherjoin/scattergatherjoin.go:62-105 | for any counts: the number that Finalize returns is that of the pairs with a count of at least five; it is the number of accounts sent exactly when no account has such a count with two others |
| ScatterGatherJoin.ScatterGatherStore.Add | internal/workers/processor/joiners/scattergatherjoin/store.go:17-19 | the count of the pair grows by the partial count, others stay |
| ScatterGatherJoin.ScatterGatherStore.SetPairCount | internal/workers/processor/joiners/scattergatherjoin/store.go:21-23 | the count of the pair is replaced, others stay |
| ScatterGatherJoin.ScatterGatherClient.Process | internal/workers/processor/joiners/scattergatherjoin/scattergatherjoin.go:36-60 | the partial count is added to its pair and the client is dirty |
| ScatterGatherJoin.ScatterGatherClient.DrainChanges | internal/workers/processor/joiners/scattergatherjoin/checkpoint_tracker.go:48-123 | the difference to the snapshot, key by key, and a new snapshot |
| ScatterGatherJoin.ScatterGatherClient.RestoreChanges | internal/workers/processor/joiners/scattergatherjoin/checkpoint_tracker.go:125-151 | counts are set and the client is dirty again; the snapshot stays |
| ScatterGatherJoin.ScatterGatherClient.ApplyChange | internal/workers/processor/joiners/scattergatherjoin/checkpoint_tracker.go:153-192 | the count of the pair and the snapshot entry of its key are set |
| ScatterGatherJoin.ScatterGatherClient.Finalize | internal/workers/processor/joiners/scattergatherjoin/scattergatherjoin.go:62-105 | exactly the accounts that have a count of at least five with some other, each once, and the number of such pairs; if the consumer refuses an account, some of them before it and the number zero; the store is gone either way |
| ScatterGatherQuery.PlanIsDefinition | internal/workers/processor/joiners/scattergatherjoin/scattergatherjoin.go:62-105 | for every set of transfers, every number of shards, any hash, any order of arrival and any repetition before counting: an account is sent by some join worker exactly when it reaches some destination through at least five different intermediaries |
| ScatterGatherQuery.SentOnce | internal/workers/processor/routers/joiners/suspiciouspathjoinrouter.go:22-37 | it is sent once, by one worker |
| ScatterGatherQuery.SumIsMiddle | internal/workers/processor/aggregators/aggregatebyintermediary/store.go:19-55 | the sum a join worker reaches for a pair is the number of all its intermediaries, whichever aggregators counted them, or zero if the pair was pruned |
| ScatterGatherQuery.RelatedAt | internal/workers/processor/routers/origindestinationrouter.go:39-51 | the links that a grouping worker holds, of the transfers that the router sends over its route, are for each account all of its links or none |
| ScatterGatherQuery.PruningIsHarmless | internal/workers/processor/groupers/origindestination/groupbyoriginprocessor.go:52-91 | leaving out groups under five on both sides drops no pair that matters |
| ScatterGatherQuery.NamedByGroups | internal/workers/processor/groupers/origindestination/groupbydestinationprocessor.go:52-91 | over all shards, the groups name for an account its neighbours if they are at least five, and nothing otherwise |
| ScatterGatherQuery.PartsAddUp | internal/workers/processor/routers/intermediaryrouter.go:64-84 | sharding by intermediary splits a set of intermediaries into parts whose sizes add up |
| ScatterGatherQuery.PlanCanExecute | internal/workers/processor/routers/intermediaryrouter.go:64-84 | every plan has an execution, so the results above are not about nothing |
| QueryOverRuns.CountsOverRuns | internal/workers/processor/aggregators/aggregatebyintermediary/store.go:19-83 | at any moment of every such run an aggregator counts for a pair the different intermediaries that link it among all accepted events |
| QueryOverRuns.SumsOverRuns | internal/workers/processor/joiners/scattergatherjoin/store.go:17-19 | at any moment of every such run a join worker holds for a pair the sum of the counts accepted for it, over any set of pairs without key collisions |
| Grouping.AccountStore.Add | internal/workers/processor/groupers/origindestination/account_store.go:17-28 | set insertion; tells whether the link is new |
| Grouping.GroupByClient.Process | internal/workers/processor/groupers/origindestination/groupbyoriginprocessor.go:23-41 | the link of the transfer, from its base account, is in the store |
| Grouping.GroupByClient.Finalize | internal/workers/processor/groupers/origindestination/groupbyoriginprocessor.go:52-91 | one group for each base with at least five related accounts, each named once; the store is empty afterwards; if the consumer refuses a group, only correct groups before it went out and the store stays |
| Grouping.RouteGroup | internal/workers/processor/routers/intermediaryrouter.go:64-77 | one routed pair per related account, in order, with that account as intermediary and the base as its account; the plan takes its events from what this gives |
| Grouping.Shard | internal/workers/processor/routers/intermediaryrouter.go:79-84 | an index below the number of routes, for any hash |
| Grouping.SharedShard | internal/workers/processor/routers/intermediaryrouter.go:79-84 | two accounts share a route exactly when their hashes differ by a multiple of the number of routes |
| Chunks.Conservation | internal/common/batch/batch.go:37-62 | the batches cut so far and what is held concatenate to the items added; every batch is within the limit or a single item |
| Chunks.BatchesComplete | internal/common/batch/Batcher.go:35-62 | with positive weights the final flush leaves nothing behind |
| Chunks.SentWhenFull | internal/common/batch/Batcher.go:35-49 | a batch goes out before the end only if the first item of the next one would have made it too heavy |
| Batching.DeterministicReplay | internal/common/batch/Batcher.go:20-62 | a batcher that holds nothing and last worked on another batch publishes, for the same id and items, the same sub-batches under the same ids, on any replica |
| Batching.ImmediateReplay | internal/common/batch/Batcher.go:20-33 | sending a batch again through the same batcher at once repeats the publication exactly when it fits in one sub-batch: the number is not reset |
| Batching.ReplayIff | internal/common/batch/Batcher.go:20-62 | whatever a batcher that holds nothing sent before, it publishes what the id and the items determine if and only if it does not go on with the numbers of that same id; and it is left to do so exactly when there were several sub-batches |
| Senders.StoppedPublishes | internal/common/batch/Batcher.go:35-62 | a failed publication anywhere leaves the first sub-batches of those that the id and the items determine published, the batcher empty and its number at the last one begun |
| Batching.Batch.TryAdd | internal/common/batch/batch.go:37-47 | added exactly when the batch is empty or the weight stays within the limit |
| Batching.Batch.Flush | internal/common/batch/batch.go:49-62 | the result shares the memory of the batch and holds what was added |
| Batching.Batch.IsEmpty | internal/common/batch/batch.go:55-57 | true exactly when the weight is zero |
| Batching.Batcher.SetNewBatchId | internal/common/batch/Batcher.go:20-33 | an empty id becomes a fresh one; the same id changes nothing; another one restarts the numbers |
| Batching.Batcher.Add | internal/common/batch/Batcher.go:35-49 | fails only when the callback does: then what was held is gone, sent or not, the number is not used up and the item is not added; the callback sees the flushed items although the memory is used again |
| Batching.Batcher.Flush | internal/common/batch/Batcher.go:51-62 | what is held goes out under the current number, unless its weight is zero; if the callback fails it is gone from the batcher |
| Senders.LineageInjective | internal/workers/sender/singlesender.go:77-78 | distinct pairs of parent id and number are published under distinct ids, for ids of any characters |
| Senders.PublishedLooksLike | internal/workers/sender/singlesender.go:77-78 | an id is the id of the parent, the namespace and the number, joined by dashes |
| Senders.ForRouteInOrder | internal/workers/sender/routedsender.go:45-62 | what goes to one route are the items for it, in their order |
| Senders.KeyNamesItsClient | internal/workers/sender/routedsender.go:122-133 | the client can be read back from a batcher key, for clients without a NUL in their id |
| Senders.SingleSender.Add | internal/workers/sender/singlesender.go:64-80 | the batcher of the client, new if there is none, is given the namespaced id and the item, or fails as it does; other clients stay |
| Senders.SingleSender.Flush | internal/workers/sender/singlesender.go:82-87 | the batcher of the client, if any, is flushed, or fails as it does; other clients stay |
| Senders.RoutedSender.Add | internal/workers/sender/routedsender.go:45-62 | the batcher of the client and route is given the id with namespace and route, and the item, or fails as it does; all other batchers stay |
| Senders.SingleSender.Send | internal/workers/sender/singlesender.go:64-87 | the engine's use of it: adding the items of a batch and flushing publishes what the batcher of that client makes of them, or stops at the first publication that fails; other clients stay |
| Senders.RoutedSender.Send | internal/workers/sender/routedsender.go:45-74 | the engine's use of it: each route of the client publishes what its batcher makes of the items of that route, in order; other clients stay, also after an error |
| Senders.RoutedSender.Flush | internal/workers/sender/routedsender.go:64-74 | every batcher of the client is flushed, in any order, up to the first that fails to publish, and no other |
| Wire.RoundTripIff | internal/common/external/external.go:48-124 | a frame comes back, whatever follows it, exactly when it has fewer than 65536 records of fewer than 65536 bytes: longer ones are truncated silently |
| Wire.MessageLayout | internal/common/external/external.go:18-260 | byte by byte: 1 or 2, the number of records with the high byte first, and each record behind its length, at the place the records before it leave; 8 for the end; nothing for an empty batch; any other first byte is an error |
| Wire.StreamRoundTrip | internal/common/external/external.go:245-307 | reading the concatenation of encoded messages gives those that are not empty batches and consumes every byte |
| Wire.FramesFit | internal/client/client.go:113-144 | frames built by the batcher of the client are within the limit or hold one record, and under a limit of 128 KB no count is truncated |
| Wire.Uint16RoundTrip | internal/common/external/serializer/serializer.go:29-37 | big-endian 16-bit numbers come back modulo 65536 |
| Wire.ExternalProtocol.SendBatch | internal/common/external/external.go:77-124 | the frame, written piece by piece; nothing for an empty batch; a first part of it when the connection fails |
| Wire.ExternalProtocol.Send | internal/common/external/external.go:77-228 | what is written is the encoding of the message, or a first part of it when the connection fails |
| Wire.ExternalProtocol.ReceiveMsg | internal/common/external/external.go:245-260 | the decoded message and the rest of the stream, or an error |
| Wire.ExternalProtocol.ReceiveBatch | internal/common/external/external.go:262-307 | as many records as the count says, or an error when the stream ends |
| CoordinatorFiles.BatchWritten | internal/workers/coordinator/batchstorage.go:153-160 | loading after one more write is loading before it with the new record put in, for ids without bar and newline |
| CoordinatorFiles.EOFWritten | internal/workers/coordinator/batchstorage.go:162-168 | the same for EOFs |
| CoordinatorFiles.FlushedWritten | internal/workers/coordinator/batchstorage.go:170-176 | the same for flush marks |
| CoordinatorFiles.LineFields | internal/workers/coordinator/batchstorage.go:153-176 | the fields of the three kinds of lines and their order, for ids without bar and newline |
| CoordinatorFiles.LoadedIsStorable | internal/workers/coordinator/batchstorage.go:76-133 | whatever the files hold, what is loaded from them can be written again |
| Rewriting.UptoIff | internal/workers/coordinator/batchstorage.go:217-241 | whatever the order in which the entries of a file are written anew: an entry is there again exactly when it is among those written, and all is as before exactly when none is missing |
| Rewriting.Rewrite | internal/workers/coordinator/batchstorage.go:217-241 | the loops over clients and keys write every entry, or stop at the first write that fails |
| CoordinatorFiles.StoppedBatchesIff | internal/workers/coordinator/batchstorage.go:207-223 | rewriting batches.log stopped in any line, after any number of its bytes: an entry loads as it was if and only if its line was written, up to its newline; the file loads as before if and only if all were; a line cut in its last number loads with a smaller one, and cut before that not at all |
| CoordinatorFiles.StoppedEOFsIff | internal/workers/coordinator/batchstorage.go:225-241 | the same for eofs.log |
| CoordinatorFiles.OthersCanBeLost | internal/workers/coordinator/batchstorage.go:207-241 | with nothing written after the truncation no entry of any client loads |
| CoordinatorFiles.BatchAfterTorn | internal/workers/coordinator/batchstorage.go:76-107 | a record written behind a line that was cut loads for its client if and only if nothing of that line had come to the file; otherwise both are lost or it loads for another client |
| CoordinatorFiles.EOFAfterTorn | internal/workers/coordinator/batchstorage.go:110-133 | the same for EOFs |
| CoordinatorFiles.BatchStorage.LoadBatches | internal/workers/coordinator/batchstorage.go:76-107 | the last line of an id counts; lines that are not as expected are passed over |
| CoordinatorFiles.BatchStorage.LoadEOFs | internal/workers/coordinator/batchstorage.go:110-133 | the same for EOFs |
| CoordinatorFiles.BatchStorage.LoadFlushed | internal/workers/coordinator/batchstorage.go:135-151 | the clients with a flush mark |
| CoordinatorFiles.BatchStorage.WriteBatch | internal/workers/coordinator/batchstorage.go:153-160 | the line is appended and a later load has the record and everything else as before; or the write fails after some bytes, and the load has what these give; a writer that failed once fails again |
| CoordinatorFiles.BatchStorage.WriteEOF | internal/workers/coordinator/batchstorage.go:162-168 | the same for EOFs |
| CoordinatorFiles.BatchStorage.WriteFlushed | internal/workers/coordinator/batchstorage.go:170-176 | the same for flush marks: a mark that was cut counts if its bar was written |
| CoordinatorFiles.BatchStorage.ClearClient | internal/workers/coordinator/batchstorage.go:187-244 | both files are rewritten without the client: every other client loads as before, whatever the files held and in any order; flush marks stay; an error leaves a file as it was, or the lines of the entries written so far and a part of the next |

## Left out

- Checkpoint.ExactlyOnce: runs in which failed drains are given back and no logged batch is taken for new: every run whose starts do not fail, for the processors that can give back (`RestoringRunsAreSound`), and exactly the steps that do not repeat a batch (`RepeatsIff`). The append of one entry is atomic there; torn appends are treated in `CheckpointLog`.
- Checkpoint.NothingLost: the same runs, without the deliveries that `OnlyDuplicatesLose` shows to lose a batch.
- Checkpoint.ReportsFollowTheLog: the same runs as ExactlyOnce.
- AcceptedItems.StateIsOfItems: the same runs.
- AverageQuery.AverageOverRuns: the same runs.
- QueryOverRuns.CountsOverRuns: the same runs.
- QueryOverRuns.SumsOverRuns: the same runs, and only over pairs without key collisions; the others are what `JoinIsLawfulIff` says.
- Checkpoint.FailedAppendLosesBatch: for batches that are not refused; the others are lost as `RefusedItemLosesBatch` says.
- An error while the log, or the log of another client, is read at a start: the client is then not restored at all, and no error is reported.
- ManagerLife.LifeIsExactlyOnce: lives without failed starts, and without failed appends unless the processor can take changes back; the others are runs of the model all the same (`LifeIsRun`), for which `RepeatsIff` and `RestoreIsSafeIff` say what fails. Cleanup of the client is not among the calls.
- What an error of DrainChanges leaves of a processor: it is taken to be nothing else than before. The one value that JSON cannot encode is a sum that is not finite, and then the tracker has not changed yet.
- What the broker does about a delivery that is acknowledged after it was nacked.
- NoLostFlush.EveryWorkerFlushesOnce: excludes lost messages, and of the errors and crashes exactly those after which, by `InterruptedLiveIff`, the group is not live. The group can still be lucky after one of them: other news makes the worker flush (`NewsFlushes`), and a restart repairs what only memory was missing.
- NoLostFlush.NeverTwice: the same runs.
- NoLostFlush.RunLive: the same runs.
- Drain.LossFreeRunThenDrain: the same runs.
- LostFlush.FlushLostForGood: for messages from the queue; while the EOF of a peer is handled, the peer owns an EOF, and tells it again when the worker restarts.
- Handover.StageHandover: excludes errors that leave a batch neither remembered nor unpublished nor of one sub-batch, after which its ids would change (`Repetition.RetryCountsIff`), and refused items after which results are left in the batcher (`Repetition.RefusalCountsIff`), which no step of the group stands for (`Stateless.StatelessEngine.HandledIsStep`); a routed stage is held to one sub-batch in all, though one for each route would do.
- Handover.NextStageBalanced: the same runs.
- Stage.RunKnownIsPublished: the same runs.
- SplitRouter.SplitHandover: the same runs; that router refuses nothing.
- Stateless.StatelessEngine.HandleDataMessage: with the sender that has one batcher for each client; the routed sender is proved on its own.
- ScatterGatherJoin.JoinIsLawful: without giving back a failed drain, which the tracker cannot do (`RestoreIsSafeIff`).
- Coordinator.EOFCoordinator.ClearClient: the object keeps the contents of the files as maps, and a write that fails leaves nothing of its entry there; what a part of a line loads as is in `CoordinatorFiles`. The step system, too, takes a write of the coordinator whole or not at all.
- Senders.SingleSender.Send: not a method of the program; it is the loop of the engine over one batch.
- Senders.RoutedSender.Send: likewise; after an error it says only that other clients stay.
- CoordinatorFiles.BatchWritten: ids without a bar and without a newline only; others are written too, but do not come back as those ids. The coordinator object keeps the file contents as maps, and `CoordinatorFiles` relates such maps to the text.
- Cleanup of disconnected clients in the step system of the replica group; the objects drop late messages of cleaned clients as the program does.
- Wrap-around of 64-bit and 32-bit counters.
- The flush handler running concurrently with processing, and Finalize as a step of the exactly-once model; the results of Finalize are proved for the state it finds.
- The markers eofSent and finalizeComplete, which the log reader knows and nothing writes.
- JSON inside the log lines (changes are datatypes), line-length limits of the scanner, CRC and FNV themselves.
- Floating-point rounding: sums and averages are real numbers.
- The joins for max bank, average by type and microtransactions, and the origin-destination tracker: the first two log earlier results again on each drain while replay appends, so their replay is not exact.
- AvgByType.AvgByTypeClient.Process: the state of one client; the map from client to state around it is not modelled.
- AvgByType.AvgByTypeClient.DrainChanges: one client, as above.
- AvgByType.AvgByTypeClient.RestoreChanges: one client, as above.
- AvgByType.AvgByTypeClient.ApplyChange: one client, as above.
- AvgByType.AvgByTypeClient.Finalize: one client, as above; a client never seen yields nothing.
- ScatterGatherJoin.ScatterGatherClient.Process: the state of one client; the map around it is not modelled.
- ScatterGatherJoin.ScatterGatherClient.DrainChanges: one client, as above.
- ScatterGatherJoin.ScatterGatherClient.RestoreChanges: one client, as above.
- ScatterGatherJoin.ScatterGatherClient.ApplyChange: one client, as above.
- ScatterGatherJoin.ScatterGatherClient.Finalize: one client, as above; which accounts went out before a refused one is only said to be some of them.
- Grouping.GroupByClient.Process: the store of one client; the map around it is not modelled.
- Grouping.GroupByClient.Finalize: one client, as above.
- The send callback of the batcher that packs batch records: its sends are modelled right after the batcher hands the message over, not inside its Add; a failure inside Add is one before any of those sends.
- Sort of the EOF ids: modelled by the element that ends up last, which is all that is used.
- RabbitMQ reconnects without a crash, sockets, protobuf, currency rates, CSV, logging and process wiring.
- The bully election of the supervisors.
