# Kinesis stream lease and export model

A Dafny model of the two halves of this repository that carry its guarantees, with proofs.

**The receiver's shard-lease fleet.** Workers share one lease table. Each worker lists it, plans a fair
share, claims, steals and gives up shards with writes fenced on a counter, and runs one poller a shard
that reads, delivers, checkpoints and releases. `Fleet.dfy` is the whole fleet as a state machine whose
steps are one store call or one critical section each, crashes, stolen leases, lost acknowledgements and
old listings included; `FleetSafety`, `FleetDelivery` and `FleetHandoff` state what holds over all its
runs, and `FleetProgress` that none of them is a dead end. The code of one worker is modelled in its own
imperative form beside it: `LeaseStore` and `DynamoStore` (the two stores), `Taker` (the planner; what
it guarantees is in `TakerLemmas`, `PlanMeaning`, `OwnSteal`, `AcquireOrder`, `Rebalance` and
`UnevenFleets`), `Coordinator` (a reconcile pass, orphan cleanup), `ShardPoller` (the poll loop, against
the turn-by-turn log of `PollTurns`), `Shutdown` (start against stop). They share the fleet's
vocabulary: the poll loop moves the same `PollerMachine` the fleet steps, a reconcile pass plans with
the same `Refreshed`, `FreshShards` and `DrainedShards`, and every store transition is one function,
`LeaseStore.Apply`.

**The exporter's group, repack and send pipeline.** A batch of spans, log records or metrics is grouped
by key (`LeafGrouping`, `MetricGrouping`, `ResourceGrouping`), packed into payloads that fit one record
(`Oversize` over the splits of `SplitHalf` and the truncation of `Truncate`; `Repacking` says what must
come out), cut into PutRecords calls and retried (`Record`, `Chunking`, and `KeyOrder` on the order of
arrival). `Export` puts the stages together.

`dafny verify dfyconfig.toml` verifies the whole project.

## What the environment is taken to do

- A shard's log is append-only; `Env.streams` is its final value, of which a reader sees prefixes.
  Sequence numbers are distinct, not empty, and not one of the two sentinels.
- TRIM_HORIZON is the first record: no record is lost to retention before it is read.
- AFTER_SEQUENCE_NUMBER continues right after that record, and an iterator is nil only when a closed
  shard has been read to its end.
- A listing is a table value that really existed, however old. Worker ids are unique and not empty, and so
  are shard ids.
- ListShards names parents before children, because a parent without a row counts as drained
  (`receiver/awskinesisreceiver/shard_discovery.go:200-206`), and never names a reaped shard again,
  because a re-created row restarts its counter (`LeaseStore.RecreationRevivesHandle`).
- Marshalling and compression are arbitrary functions that may fail; PutRecords answers arbitrarily,
  one code a record. Where a statement also needs replies that count no failures to carry none, it
  says so (`Truthful`).
- Partition keys are arbitrary functions with the two fixed lengths, 16 and 36.

## Where the code and its documentation differ

The model follows the code.

- `docs/adr/0008-leaderless-fair-share-rebalancing.md:53-54` promises an even-as-possible split.
  Seven shards among three workers rest at 3, 3, 1 and four at 2, 2, 0 (`UnevenFleets.SevenAmongThree`,
  `UnevenFleets.FourAmongThree`); `UnevenFleets.EvenIff` says for which fleets the promise holds.
- `receiver/awskinesisreceiver/coordinator.go:200-201` calls the plan identical on every replica.
  Releases and steals are; acquisitions are taken in listing order before they are sorted
  (`AcquireOrder.AcquireIgnoresOrderIff`).
- A steal may name a shard this worker still polls, when the listing shows it with another owner
  (`OwnSteal.StealsOwnIff` says exactly when, `OwnSteal.StealsItsOwn` shows one);
  `receiver/awskinesisreceiver/coordinator.go:241-246` filters it (`Coordinator.Coordinator.Reconcile`).
- `exporter/awskinesisexporter/config.go:75-78` promises order per key; a partial failure can break
  it, exactly when one call carries two records of a key (`KeyOrder.FlushOrderIff`).
- `exporter/awskinesisexporter/signal_metrics.go:143-146` calls a metric the indivisible leaf; the
  code goes on to split its datapoints (`SplitHalf.MetricIndivisibleIff`).
- `internal/lease/dynamodb.go:311-313` says old parent columns migrate as rows are rewritten; no
  update touches that column (`DynamoStore.ParentsNeverMigrate`).
- An encoding error on a batch without items is not terminal, because its drop count is zero
  (`exporter/awskinesisexporter/oversize.go:82-84`); the chain goes on
  (`Oversize.EncodingErrorIsFinalIff`, `Oversize.HollowBatchShips`).
- `exporter/awskinesisexporter/signal.go:17-20` says that the separator keeps joined keys apart; it does so
  exactly for values that do not hold it (`KeyPlan.JoinCollidesIff`).
- A handle with an empty owner passes the memory store's fence on an unowned row and fails the
  DynamoDB one (`DynamoStore.StoresDifferOnlyForNobody`).

## Model

| member | source | states |
|---|---|---|
| `LeaseStore.MemoryStore.List` | internal/lease/memory.go:22-30 | Returns every row of the table exactly once, in some order. |
| `LeaseStore.MemoryStore.EnsureRow` | internal/lease/memory.go:33-46 | Creates an unowned row at TRIM_HORIZON with counter 0, or leaves an existing row alone. |
| `LeaseStore.MemoryStore.AcquireLease` | internal/lease/memory.go:49-66 | Succeeds exactly for a named owner on a row that is there at the expected counter, and then that row alone gets the owner and the next counter; otherwise nothing changes, and empty owner, missing row and counter mismatch are told apart in that order. |
| `LeaseStore.MemoryStore.HeartbeatLease` | internal/lease/memory.go:69-71 | Succeeds exactly when the row has the handle's owner and counter; then counter + 1 and nothing else. |
| `LeaseStore.MemoryStore.CheckpointLease` | internal/lease/memory.go:74-79 | Under the same condition, checkpoint and counter + 1 together. |
| `LeaseStore.MemoryStore.ReleaseLease` | internal/lease/memory.go:82-88 | Under the same condition, the owner cleared and counter + 1. |
| `LeaseStore.MemoryStore.DeleteRow` | internal/lease/memory.go:91-103 | Absent row: success; other counter: conflict; otherwise only that row goes. |
| `LeaseStore.MemoryStore.ConditionalUpdate` | internal/lease/memory.go:105-118 | For any mutation: applied to the current row exactly when the handle matches owner and counter; otherwise the table is untouched and the error tells a missing row from a conflict. |
| `LeaseStore.CallEffect` | internal/lease/memory.go:33-118 | For every table and call: other rows are untouched, errors change nothing, a successful write raises the counter by exactly one, owner moves only by Acquire or Release, checkpoint only by Checkpoint, a row goes only by a Delete at its counter. |
| `LeaseStore.SupersededForever` | internal/lease/lease.go:28-33 | Over any sequence of calls that does not delete the row, a handle with an older counter never passes the fence again. |
| `LeaseStore.SameCounterSameRow` | internal/lease/memory.go:105-118 | Over any calls that do not delete a row its counter never falls, and an unchanged counter means an unchanged row. |
| `LeaseStore.RecreationRevivesHandle` | internal/lease/memory.go:91-103 | After Delete and Ensure the counter restarts, and a handle somebody owned can pass the fence again exactly when its counter is at least 1: every handle from the row's earlier life, so a reaped shard must never be listed again. |
| `DynamoStore.Unmarshal` | internal/lease/dynamodb.go:288-319 | Refuses exactly the rows without a string lease key; every other column has its default; both the string-set and the comma-joined parent forms are read. |
| `DynamoStore.MarshalRoundTrip` | internal/lease/dynamodb.go:269-319 | Reading back a marshalled lease gives the same lease, parents as a set, for every lease including unowned and parentless ones. |
| `DynamoStore.LegacyRoundTrip` | internal/lease/dynamodb.go:310-316 | Splitting a joined parent list gives back the list, when no parent id contains the separator. |
| `DynamoStore.FenceAgrees` | internal/lease/dynamodb.go:114-196 | The condition expression holds on the item exactly when the memory fence passes and the handle names an owner; for Acquire exactly when the row is there at the expected counter. |
| `DynamoStore.WriteRefines` | internal/lease/dynamodb.go:209-242 | One UpdateItem and one memory call succeed together, and a success leaves the same table. |
| `DynamoStore.SentRefines` | internal/lease/dynamodb.go:84-188 | The write of any call keeps items and memory table in agreement. |
| `DynamoStore.StoresDifferOnlyForNobody` | internal/lease/dynamodb.go:190-196 | From items and a table that agree, the item write and the memory call leave them in agreement exactly unless the handle has an empty owner and its row is unowned at that counter, where memory writes and DynamoDB refuses. |
| `DynamoStore.UncountedRowIsStuck` | internal/lease/dynamodb.go:284-287 | Supporting fact: a row written elsewhere without a counter lists as counter 0, yet no Acquire, Heartbeat, Checkpoint or Release of it ever succeeds. |
| `DynamoStore.ParentsWrittenOnce` | internal/lease/dynamodb.go:84-156 | No call changes the parent column of a row that is there; only an Ensure that creates the row writes one, never in the comma-joined form. |
| `DynamoStore.ParentsNeverMigrate` | internal/lease/dynamodb.go:308-316 | Over any sequence of calls a surviving row keeps its parent column as it was: a comma-joined one never migrates. |
| `DynamoStore.QuietAnswersAreMemorys` | internal/lease/dynamodb.go:209-242 | With no other worker acting between the write and the follow-up read, every answer that arrives is the memory store's, with its table. |
| `DynamoStore.Store.Update` | internal/lease/dynamodb.go:209-242 | Success: the same transition as the memory store and its row as result. Refusal: nothing written, and not-found exactly when the row is absent at the follow-up read, whatever others did in between. Lost answer: one or the other. |
| `DynamoStore.Store.AcquireLease` | internal/lease/dynamodb.go:114-123 | As Update, for the expressions Acquire builds, with the empty owner refused before any request. |
| `DynamoStore.Store.HeartbeatLease` | internal/lease/dynamodb.go:128-132 | As Update, for the expressions Heartbeat builds. |
| `DynamoStore.Store.CheckpointLease` | internal/lease/dynamodb.go:137-143 | As Update, for the expressions Checkpoint builds. |
| `DynamoStore.Store.ReleaseLease` | internal/lease/dynamodb.go:149-156 | As Update, for the expressions Release builds, the owner attribute removed. |
| `DynamoStore.Store.EnsureRow` | internal/lease/dynamodb.go:84-108 | Success means the row is there and the table is the memory store's after Ensure; a failed condition counts as success. |
| `DynamoStore.Store.DeleteRow` | internal/lease/dynamodb.go:158-188 | Success means the row is gone; a conflict is reported only for a row present at the follow-up read, and then nothing was deleted by this call. |
| `Taker.Plan` | internal/lease/taker.go:33-73 | The plan is the one the fair-share rules determine (target, surplus, free shards, steal victim), stated without loops. |
| `Taker.AcquirePass` | internal/lease/taker.go:52-63 | Collects exactly the first `want` free drained shards in listing order. |
| `Taker.PickStealTarget` | internal/lease/taker.go:123-159 | The lowest drained shard of the heaviest peer strictly above target, lowest id on ties; none exactly as the rules say. |
| `Taker.ActiveWorkers` | internal/lease/taker.go:87-96 | The number of distinct fresh owners together with self. |
| `PlanMeaning.PlanExists` | internal/lease/taker.go:33-73 | Every snapshot has a plan, so nothing proved about plans is proved about none. |
| `PlanMeaning.TargetMeans` | internal/lease/taker.go:97-106 | The target is the open shards divided by the heartbeating owners and self, rounded up. |
| `PlanMeaning.ReleaseMeans` | internal/lease/taker.go:42-44 | Above the target a worker gives up exactly the highest shard ids, down to the target, and does nothing else; otherwise it gives up nothing. |
| `PlanMeaning.FreeRowTaken` | internal/lease/taker.go:51-63 | While seats are left, every drained shard not polled here that is unowned, its own by the listing, or of an owner that stopped heartbeating is acquired. |
| `PlanMeaning.AcquireMeans` | internal/lease/taker.go:46-66 | Not above the target, a worker acquires only such shards, and as many as it has seats or as there are, whichever is less. |
| `PlanMeaning.StaleShardTaken` | internal/lease/taker.go:60-62 | The shard of a crashed worker is taken over: a drained open row whose owner stopped heartbeating is acquired by a worker with a seat to spare. |
| `PlanMeaning.StealMeans` | internal/lease/taker.go:69-159 | A shard is stolen exactly when seats outnumber the free shards and it is the lowest drained shard of the heaviest heartbeating peer above the target. |
| `TakerLemmas.AcquireGate` | internal/lease/taker.go:51-63 | Everything a plan acquires is an active, drained row not owned here that is unowned, listed as this worker's own, or not fresh. |
| `TakerLemmas.StealGate` | internal/lease/taker.go:118-159 | A stolen shard is a drained, fresh, active row of another worker whose load exceeds the target. |
| `TakerLemmas.PlanStaysWithinTarget` | internal/lease/taker.go:33-73 | Over target: releasing leaves exactly target. Otherwise owned plus acquired plus stolen never exceeds target. Only owned shards are released. |
| `OwnSteal.StealsOwnIff` | internal/lease/taker.go:118-159 | A plan steals a shard its own worker polls exactly when the worker is short of its target, free shards do not make up for it, and the lowest drained fresh row of the heaviest peer above the target is one it polls. |
| `OwnSteal.NeverStealsOwn` | internal/lease/taker.go:118-159 | It cannot happen while no shard the worker polls is listed under a heartbeating peer. |
| `OwnSteal.StealsItsOwn` | internal/lease/taker.go:118-159 | A listing of three rows on which it does. |
| `TakerLemmas.PlanClaimsDisjoint` | internal/lease/taker.go:51-73 | Acquired shards are distinct and the stolen one is not among them. |
| `TakerLemmas.StealEvensOut` | internal/lease/taker.go:69-72 | A victim keeps at least the target, and every steal strictly lowers the sum of the squared loads. |
| `TakerLemmas.PlanIgnoresRowOrder` | internal/lease/taker.go:23-26 | Releases, steal and the number of acquisitions are the same for every order of the same rows. |
| `AcquireOrder.AcquireIgnoresOrderIff` | receiver/awskinesisreceiver/coordinator.go:200-201 | Which shards are acquired is the same for every order of the rows exactly when there is no seat to fill or no more free shards than seats; otherwise some order changes them. |
| `Rebalance.PassLowers` | internal/lease/taker.go:33-73 | In a closed fleet every pass that does anything lowers, lexicographically, the workers without a shard, the total excess over target, the unowned shards. |
| `Rebalance.RebalancingTerminates` | internal/lease/taker.go:33-73 | So any run of passes that each do something is shorter than (workers + 1)(shards + 1) squared. |
| `Rebalance.QuiescentIsFair` | internal/lease/taker.go:97-106 | When no worker has anything to do and all shards are drained, every shard is owned and no owner exceeds ceil(shards / owners). |
| `Rebalance.QuiescentIff` | internal/lease/taker.go:33-159 | For any live workers, idle ones included, and all shards drained: the fleet rests exactly when every shard is owned, no owner exceeds ceil(shards / owners), and either nobody is idle or nobody exceeds ceil(shards / (owners + 1)). |
| `UnevenFleets.EvenIff` | docs/adr/0008-leaderless-fair-share-rebalancing.md:53-54 | For every number of shards and of live workers, idle ones counted with no shard: every resting point of the planner keeps all workers within one shard of each other exactly when each worker that joins while shards are to spare lowers ceil(shards / workers), and at most one shard is missing from full shares or a share is at most two. For every other fleet an uneven resting point is built. |
| `UnevenFleets.SevenAmongThree` | docs/adr/0008-leaderless-fair-share-rebalancing.md:53-54 | Lease rows of seven shards among three live workers, at 1, 3 and 3, on which each of the three plans nothing. |
| `UnevenFleets.FourAmongThree` | docs/adr/0008-leaderless-fair-share-rebalancing.md:53-54 | Lease rows of four shards among three live workers, at 2, 2 and 0, on which each of the three plans nothing. |
| `PollerMachine.MoveInStep` | receiver/awskinesisreceiver/poller.go:139-286 | Every local move of the poll loop keeps its position right after the checkpoint of its handle and counts what it delivered since. |
| `FleetSteps.StepKeepsInv` | receiver/awskinesisreceiver/coordinator.go:171-340 | Each step of the fleet (listing, planning, claiming, polling, heartbeat, save, end, release, reap, crash, lost acknowledgement, clock) keeps the fleet invariant. |
| `FleetSteps.RunKeepsInv` | receiver/awskinesisreceiver/coordinator.go:171-340 | So every run from the empty fleet, under any interleaving, satisfies it. |
| `FleetSteps.FencedHoldsRow` | internal/lease/memory.go:105-118 | A handle that passes the fence equals the whole row. |
| `FleetSafety.NothingLost` | receiver/awskinesisreceiver/poller.go:226-252 | In every reachable state each record at or before a row's checkpoint was handled; SHARD_END, and a reaped shard, mean the whole shard was. |
| `FleetSafety.ParentsBeforeChildren` | receiver/awskinesisreceiver/shard_discovery.go:196-212 | A record of a shard is handled only when every record of each parent that ever had a row was handled. |
| `FleetSafety.HandledChildHasDoneParents` | receiver/awskinesisreceiver/shard_discovery.go:196-212 | And in every reachable state a shard with a handled record has all such parents complete, so none turns up later. |
| `FleetSafety.OneBatchAhead` | receiver/awskinesisreceiver/poller.go:179-252 | No poller, a robbed one included, handles a record max_records or more past the checkpoint in its handle. |
| `FleetSafety.RowsNeverMoveBack` | internal/lease/memory.go:49-103 | Between any two reachable states a surviving row's counter and checkpoint do not fall, SHARD_END stays, and equal counters mean equal rows. |
| `FleetSafety.ReapedStaysReaped` | receiver/awskinesisreceiver/shard_discovery.go:112-115 | Supporting fact, from the assumption that a reaped shard is never listed again: it keeps no row in any continuation of the run. |
| `FleetSafety.HandlesArePastVersions` | receiver/awskinesisreceiver/poller_lease.go:27-47 | Every handle is a value its row really had, written by or for that poller. |
| `FleetSafety.OnlyTheAcquirerWrites` | internal/lease/memory.go:49-118 | Between two acquisitions of a row only the acquirer's writes succeed, each raising the counter by one. |
| `FleetSafety.OneWriterPerRow` | internal/lease/memory.go:105-118 | Two pollers never both hold a handle that passes the fence. |
| `FleetSafety.TakeoverMeansSilence` | receiver/awskinesisreceiver/shard_discovery.go:162-176 | A lease taken from another worker on grounds of staleness had no successful write for a whole lease duration, even when the listing was old; nothing is taken at SHARD_END. |
| `FleetProgress.NoShardIsStuck` | receiver/awskinesisreceiver/coordinator.go:171-221 | Safety is not bought by standing still: from every reachable fleet, whatever crashed or is in flight there, some run of one freshly started worker takes over any listed shard with drained parents, reads it to its end, writes SHARD_END, and then every record of it was handled. |
| `FleetDelivery.StepKeepsBooks` | receiver/awskinesisreceiver/poller.go:226-252 | Each step keeps the books: deliveries of a shard = position of its checkpoint + records pollers delivered and have not saved. |
| `FleetDelivery.DuplicatesBounded` | receiver/awskinesisreceiver/poller.go:226-252 | Deliveries beyond the first of each record are at most max_records for every batch lost ungracefully. |
| `FleetHandoff.StepOrderly` | receiver/awskinesisreceiver/poller.go:83-105 | A graceful step keeps one live poller a shard, holding the newest row, and the shard's deliveries in order. |
| `FleetHandoff.DrainsAreExactlyOnce` | receiver/awskinesisreceiver/coordinator.go:261-276 | In runs whose only handoffs are drains each record is handled exactly once and in order across all owners, and outside a batch exactly the checkpointed ones were. |
| `ShardPoller.Poller.HeartbeatOnce` | receiver/awskinesisreceiver/poller_lease.go:27-36 | Succeeds exactly when the call is answered and the fence passes at the table it meets; the table is the store's after the write, and the handle moves to the heartbeaten row exactly on success. |
| `ShardPoller.Poller.CheckpointOnce` | receiver/awskinesisreceiver/poller_lease.go:38-47 | The same for a checkpoint write. |
| `ShardPoller.Poller.CheckpointWithRetry` | receiver/awskinesisreceiver/poller_lease.go:57-85 | One to three writes of the sequence number under the one handle: another one exactly after an answer that was lost or a call that did not land, none after a lost lease or a cancellation; saved, and the handle moved, exactly when the last was answered and fenced. |
| `ShardPoller.Poller.IteratorAt` | receiver/awskinesisreceiver/poller.go:326-356 | For any checkpoint: the iterator is right after it, at the start for TRIM_HORIZON, and there is none exactly on a drained shard or a failed call. |
| `ShardPoller.Poller.HandleBatch` | receiver/awskinesisreceiver/poller.go:226-241 | Stops exactly at the first record the checkpoint may not leave behind (refused for now, or unprocessable with its dead letter refused), having passed those before it in order, and yields the last passed sequence number. |
| `ShardPoller.Poller.SaveBatch` | receiver/awskinesisreceiver/poller.go:242-252 | After a successful save everything delivered is covered by the checkpoint; after a failed one at most one batch is not. |
| `ShardPoller.Poller.HandleRead` | receiver/awskinesisreceiver/poller.go:213-285 | One answer of GetRecords: exactly the records before the first that must be retried are passed, the last of them is checkpointed, and the loop goes on at the next iterator, at the new checkpoint after a retry, or not at all; nothing unsaved unless the save failed. |
| `ShardPoller.Poller.WriteShardEnd` | receiver/awskinesisreceiver/poller.go:358-373 | One or two writes of SHARD_END under the one handle, the second exactly when the first was not confirmed and the context was cancelled; the handle is at SHARD_END exactly when the last was answered and fenced. |
| `ShardPoller.Poller.Beats` | receiver/awskinesisreceiver/poller.go:107-137 | Heartbeats go out one after the other, each under the newest handle, until one finds the lease lost or the context cancelled; lost answers and failed calls do not stop them. |
| `ShardPoller.Poller.RunTurn` | receiver/awskinesisreceiver/poller.go:151-286 | One turn of the loop is as its log says (`PollTurns.TurnTold`), in terms of the writes sent, the positions handled, the next iterator and how it ended. |
| `PollTurns.NilIteratorCloses` | receiver/awskinesisreceiver/poller.go:157-163 | In every run a turn that begins without an iterator, and meets neither a cancellation nor a lost lease, is the last one and closes the shard, drain or no drain. |
| `PollTurns.ClosedEndsWithEnd` | receiver/awskinesisreceiver/poller.go:358-373 | A run that closes the shard ends with a write of SHARD_END, not one cut short by a cancellation unless it is the second, and the handle is at SHARD_END exactly when that write was answered and fenced. |
| `PollTurns.FairRunDelivers` | receiver/awskinesisreceiver/poller.go:151-286 | While nothing goes wrong the loop handles the stream record by record from its checkpoint, without a gap or a repeat, keeps its checkpoint at the last one handled, and leaves only a closed shard. |
| `ShardPoller.Poller.RunPoll` | receiver/awskinesisreceiver/poller.go:139-287 | The log of a run tells each turn in order: heartbeats under the newest handle, then cancellation, closed shard, drain, wait and read in that order of precedence. However the loop leaves, what it passed was delivered, refused for good or dead-lettered, and is saved, except after a failed save, and then at most one batch. A closed shard leaves with the writes of SHARD_END as its last ones. |
| `ShardPoller.Poller.RunPoller` | receiver/awskinesisreceiver/poller.go:83-105 | The same log, followed by one release under the newest handle, which frees the row when it is still this poller's; without an iterator nothing but the release is sent. |
| `Coordinator.Coordinator.RefreshObservations` | receiver/awskinesisreceiver/shard_discovery.go:162-185 | First-seen times are kept for unchanged counters and reset for changed ones, and both maps are pruned to the listed rows. |
| `Discovery.FreshMeans` | receiver/awskinesisreceiver/shard_discovery.go:162-170 | Over any sequence of listings: a row counts as seen when its counter was first listed in the unbroken run of listings that show it, and is fresh exactly when it is owned and that was less than the lease duration ago. |
| `Coordinator.Coordinator.CleanupOrphans` | receiver/awskinesisreceiver/shard_discovery.go:115-160 | Counters, observations, table and deletes sent are those of the row-by-row rule, for any listing and whatever others write before each row's turn. |
| `Coordinator.CleanedShard` | receiver/awskinesisreceiver/shard_discovery.go:122-159 | What a whole pass does about a shard follows from its own row: a completed, missing, unpolled shard that nobody heartbeats is sent a delete at its listed counter from its third absence on; a delete that passed makes the worker forget it; any other pass moves its absence count by one exactly when it is completed and missing, and clears it when it is live. |
| `Coordinator.PassEffect` | receiver/awskinesisreceiver/shard_discovery.go:96-160 | The absence counter never exceeds the unbroken streak of passes that missed the shard, whatever others write during the pass. |
| `Coordinator.StreakMeansSustained` | receiver/awskinesisreceiver/shard_discovery.go:90-94 | A streak of n means n passes missed the shard with no pass in between that saw it live. |
| `Coordinator.ReapIsSafe` | receiver/awskinesisreceiver/shard_discovery.go:96-114 | Whatever others write between listing and delete, a row this worker deletes was listed at SHARD_END and goes at the listed counter, is not polled here, not live, and was missing in at least three passes with none in between that saw it live or found no row. |
| `Coordinator.RemovedAsListed` | receiver/awskinesisreceiver/shard_discovery.go:112-114 | Unless it was deleted and created again meanwhile, the row removed is the very row listed, at SHARD_END. |
| `Coordinator.Coordinator.TryAcquire` | receiver/awskinesisreceiver/coordinator.go:240-259 | For a shard polled here nothing is sent and nothing changes; otherwise a claim fenced on the listed counter at whatever table it meets, handed straight back once stopped. |
| `Coordinator.Coordinator.CarryOut` | receiver/awskinesisreceiver/coordinator.go:216-222 | Every shard the plan wants that is listed and not polled here is attempted: a claim at the listed counter goes out, and if the row was still there at that counter a poller runs, or, once stopped, the claim is handed straight back. |
| `Coordinator.Coordinator.RecordDiscovery` | receiver/awskinesisreceiver/shard_discovery.go:33-56 | The live set is exactly the shards listed, and an Ensure for each is sent, in order, with its parents. |
| `Coordinator.Coordinator.ReleasePollers` | receiver/awskinesisreceiver/coordinator.go:261-276 | Exactly the running pollers of the named shards join those told to drain. |
| `Coordinator.Coordinator.Decide` | receiver/awskinesisreceiver/coordinator.go:171-208 | The plan is the planner's for this listing, with freshness and drained gates computed from the refreshed observations. |
| `Coordinator.Coordinator.Reconcile` | receiver/awskinesisreceiver/coordinator.go:171-232 | One pass with others writing after the listing and between its writes. It carries out its plan: the surplus is told to drain, every wanted shard not yet polled is claimed at its listed counter, and runs here if that claim passed. It does no more: running pollers are kept, and no write is about a shard already polled, so a steal of an own shard does nothing. Then each listed row has its turn in the clean-up, only if discovery worked and found shards, and what it reaps is reaped safely. |
| `Coordinator.Coordinator.DrainAndStop` | receiver/awskinesisreceiver/coordinator.go:120-135 | Sets stopped and tells every running poller to drain. |
| `Coordinator.DrainedOf` | receiver/awskinesisreceiver/shard_discovery.go:196-212 | A shard counts as drained exactly when each parent with a row in the listing is at SHARD_END. |
| `Shutdown.StepInv` | receiver/awskinesisreceiver/coordinator.go:82-135 | Every step of start, run loop, poller goroutines and drainAndStop keeps the shutdown invariant. |
| `Shutdown.OnePollerPerShard` | receiver/awskinesisreceiver/coordinator.go:240-246 | Under any interleaving no shard has two running pollers on one worker. |
| `Shutdown.WaitGroupCounts` | receiver/awskinesisreceiver/coordinator.go:100-113 | The wait group is never negative and is zero exactly when the run loop and every poller are through. |
| `Shutdown.NothingStartsAfterStop` | receiver/awskinesisreceiver/coordinator.go:296-313 | Once stopped no poller is ever installed again, and a wait group at zero stays there: no Add races the wait. |
| `Shutdown.NobodyMissed` | receiver/awskinesisreceiver/coordinator.go:115-135 | When drainAndStop has returned, every poller still running has been told to drain. |
| `Shutdown.StopAlwaysCompletes` | receiver/awskinesisreceiver/coordinator.go:115-135 | Under every interleaving, once stop has begun what is left can be carried through until everything has exited, the wait group is at zero and drainAndStop has returned, and no run of the remaining steps is longer than a number known at that point: shutdown neither deadlocks nor goes on for ever. |
| `Shutdown.NotStuck` | receiver/awskinesisreceiver/coordinator.go:115-135 | Until then somebody can always take such a step. |
| `Config.Validate` | exporter/awskinesisexporter/config.go:169-280 | A configuration passes exactly when it is servable: limits ordered and positive, keys usable, terminal policies last. |
| `KeyPlan.ResolveParts` | exporter/awskinesisexporter/partition.go:93-115 | One value a component: the resource attribute, datapoint attribute or metric name it names, or nothing, cut down by its regex. |
| `KeyPlan.JoinTellsApart` | exporter/awskinesisexporter/partition.go:170-174 | Values without the separator are told apart: no two lists of as many of them join to one key. |
| `KeyPlan.JoinCollidesIff` | exporter/awskinesisexporter/signal.go:17-20 | A key collides with that of another list of as many values exactly when there are at least two and one of them holds the separator. |
| `KeyPlan.ApplyPromotions` | exporter/awskinesisexporter/partition.go:139-159 | The two attribute maps after all promotions. |
| `KeyPlan.PromotionOnlyAdds` | exporter/awskinesisexporter/partition.go:131-159 | Promotion keeps every existing attribute, and each added one is a non-empty value of a component that promotes to that name. |
| `KeyPlan.FirstPromotionWins` | exporter/awskinesisexporter/partition.go:139-159 | Where the name is free, the first component with a value to promote to it supplies it, resource components to the resource and the others to the leaf. |
| `KeyPlan.ResourcePromotion` | exporter/awskinesisexporter/partition_grouping.go:187-197 | Promoting a shared resource again for another leaf changes nothing, and every leaf promotes it the same way. |
| `KeyPlan.ResourceOnlyPlan` | exporter/awskinesisexporter/partition.go:24-34 | Under a resource-only plan the key is the resource's and no leaf is changed. |
| `Buckets.EnsureScope` | exporter/awskinesisexporter/partition_grouping.go:239-256 | Finds or makes the copies of an origin resource and scope, which stay the last of the bucket. |
| `LeafGrouping.GroupByLeaf` | exporter/awskinesisexporter/partition_grouping.go:263-306 | Keys in first-seen order, and each batch flattens to exactly the items of its key, in order, under their resource and scope, with the promotions. |
| `LeafGrouping.KeysAreDistinct` | exporter/awskinesisexporter/partition_grouping.go:258-262 | The keys are distinct and cover every item. |
| `LeafGrouping.GroupsAddUp` | exporter/awskinesisexporter/partition_grouping.go:258-306 | The groups together hold every item exactly once. |
| `MetricGrouping.EnsureMetric` | exporter/awskinesisexporter/partition_grouping.go:30-62 | Adds at most one metric, the shell of the origin, and no datapoint; an origin met before is left alone. |
| `MetricGrouping.GroupMetricsByLeaf` | exporter/awskinesisexporter/partition_grouping.go:154-218 | Keys in first-seen order; each batch has exactly the datapoints of its key, in order, and exactly the metrics filed under it, metrics without datapoints included, each with its shell and scope and at most promoted additions to its resource. |
| `MetricPartition.MetricGroupsAddUp` | exporter/awskinesisexporter/partition_grouping.go:154-218 | The groups together hold every datapoint exactly once. |
| `ResourceGrouping.GroupByResource` | exporter/awskinesisexporter/signal_traces.go:72-97 | One batch a resource key, each the resources of that key in order, with promotions; the shared empty leaf map is never written. |
| `ResourceGrouping.FastPathAgrees` | exporter/awskinesisexporter/partition.go:24-26 | For a resource-only plan the fast path and the leaf path put the same spans or records, in order, under every key. |
| `MetricPartition.MetricFastPathAgrees` | exporter/awskinesisexporter/signal_metrics.go:106-141 | The same for datapoints. |
| `SplitHalf.SplitTree` | exporter/awskinesisexporter/signal_traces.go:103-156 | The two sides are the halves of the resources, or of the one resource's leaves cut scope by scope. |
| `SplitHalf.HalvesConserve` | exporter/awskinesisexporter/signal_traces.go:99-102 | The two sides one after the other flatten to the input: nothing lost, repeated, reordered or relabelled. |
| `SplitHalf.HalvesAreHalves` | exporter/awskinesisexporter/signal_traces.go:103-130 | Their sizes are the halves rounded down and up. |
| `SplitHalf.IndivisibleIff` | exporter/awskinesisexporter/signal_logs.go:93-113 | The split gives up exactly on at most one resource with at most one leaf. |
| `SplitHalf.SplitSingleMetricDatapoints` | exporter/awskinesisexporter/signal_metrics.go:225-258 | A single metric is cut along its datapoints into two copies of its shell. |
| `SplitHalf.SplitMetrics` | exporter/awskinesisexporter/signal_metrics.go:147-209 | The metrics split: halves, or the datapoints of the only metric. |
| `SplitHalf.MetricHalvesConserve` | exporter/awskinesisexporter/signal_metrics.go:147-258 | A metrics split keeps every datapoint once, in order, under its resource, scope and metric. |
| `SplitHalf.MetricIndivisibleIff` | exporter/awskinesisexporter/signal_metrics.go:161-175 | Metrics give up exactly at one resource, one metric, one datapoint. |
| `SplitHalf.HalvesShallower` | exporter/awskinesisexporter/signal_traces.go:103-156 | Each split lowers ceil(log2 resources) + ceil(log2 most leaves of a resource). |
| `SplitHalf.MetricHalvesShallower` | exporter/awskinesisexporter/signal_metrics.go:147-258 | Each metrics split lowers the three-level depth. |
| `Truncate.ClampStringAttrs` | exporter/awskinesisexporter/signal.go:22-45 | Exactly the over-long string values are cut, and counted. |
| `Truncate.TrimFlat` | exporter/awskinesisexporter/signal_traces.go:32-60 | Truncation works leaf by leaf: it drops, adds and moves nothing. |
| `Truncate.CountsCuts` | exporter/awskinesisexporter/signal.go:22-45 | A count of zero means the attributes are unchanged. |
| `Truncate.TrimmedItemsShort` | exporter/awskinesisexporter/signal.go:22-60 | After truncation no string attribute of a batch of spans or records, its resources or its scopes is longer than the ceiling. |
| `Truncate.TrimmedPointItemsShort` | exporter/awskinesisexporter/signal.go:22-60 | The same for datapoints. |
| `Pipelines.PointsUncut` | exporter/awskinesisexporter/oversize.go:96-108 | A truncation of a traces or logs batch reports no cut exactly when it returned the batch itself. |
| `Pipelines.MetricsUncut` | exporter/awskinesisexporter/oversize.go:96-108 | The same for a metrics batch. |
| `Pipelines.PointPipelineLawful` | exporter/awskinesisexporter/signal_traces.go:19-27 | The traces and logs adapters keep every leaf when splitting and truncating, and splitting lowers their depth. |
| `Pipelines.MetricPipelineLawful` | exporter/awskinesisexporter/signal_metrics.go:20-28 | The same for the metrics adapter. |
| `Oversize.AddReason` | exporter/awskinesisexporter/oversize.go:44-57 | Coalesces by reason: that count grows by the amount, no other changes, one entry a reason. |
| `Oversize.Merge` | exporter/awskinesisexporter/oversize.go:59-64 | Additive, reason by reason and in total. |
| `Oversize.PackSplit` | exporter/awskinesisexporter/oversize.go:188-214 | Payloads and drops are those of the halving recursion, the drops per reason. |
| `Oversize.PackChain` | exporter/awskinesisexporter/oversize.go:78-149 | Payloads and drops are those of the policy chain, for every policy list. |
| `Oversize.ChainConserves` | exporter/awskinesisexporter/oversize.go:66-149 | Each leaf is in exactly one piece, shipped or dropped, in order, whatever the encoder and the policies do. |
| `Oversize.NothingUnaccounted` | exporter/awskinesisexporter/oversize.go:22-42 | Items shipped plus drops reported equal the items of the batch. |
| `Oversize.ChainHonest` | exporter/awskinesisexporter/oversize.go:78-214 | A shipped piece is the encoding of its batch and fits; a dropped piece did not fit and its label is the true reason. |
| `Oversize.ChainFits` | exporter/awskinesisexporter/oversize.go:165-180 | Every payload with its key bytes is within max_record_size. |
| `Oversize.EncodingErrorIsFinalIff` | exporter/awskinesisexporter/oversize.go:78-87 | A batch is given up whole for an encoding error exactly when the encoder fails on it and it has items; without items the chain goes on as for a batch too big. |
| `Oversize.HollowBatchShips` | exporter/awskinesisexporter/oversize.go:82-84 | A batch without items on which the marshaller fails, and which the chain goes on to ship truncated. |
| `Oversize.OnlyHopelessDropped` | exporter/awskinesisexporter/oversize.go:182-214 | With enough attempts and an encoder that never fails, a split chain drops only pieces that split no further and are too big alone. |
| `Repacking.WholeIfItFits` | exporter/awskinesisexporter/oversize.go:80-88 | A batch that encodes goes out whole and untouched exactly when its record, 16 or 36 key bytes included, is within the limit, whatever the policies. |
| `Repacking.LargestPartsShipped` | exporter/awskinesisexporter/oversize.go:182-214 | Splitting stops at the first part that fits: every such part within max_attempts halvings of the batch is shipped as it is. |
| `Repacking.SplitIsParts` | exporter/awskinesisexporter/oversize.go:182-214 | And there is nothing else: each piece is the end of a way down through oversized parts. |
| `Repacking.TruncationCarriedOn` | exporter/awskinesisexporter/oversize.go:91-131 | When truncation comes first and reports a cut, the chain goes on with the truncated batch: it is the one record if it fits, and if it encodes and does not fit the pieces hold exactly its leaves as they are. |
| `Repacking.PristineCarriedOn` | exporter/awskinesisexporter/oversize.go:91-131 | When truncation has nothing to offer, the pieces hold exactly the batch as it came. |
| `Pipelines.PointsDroppedOnlyIfHopeless` | exporter/awskinesisexporter/oversize.go:182-214 | Traces and logs: enough attempts is more than ceil(log2 resources) + ceil(log2 most leaves); each dropped piece then is a single leaf at most. |
| `Pipelines.MetricsDroppedOnlyIfHopeless` | exporter/awskinesisexporter/oversize.go:182-214 | Metrics: with a third term for the datapoints of a metric. |
| `Pipelines.PointsTruncationCarriedOn` | exporter/awskinesisexporter/oversize.go:91-131 | Traces and logs: after such a truncation the pieces hold the truncated spans or records, in order. |
| `Pipelines.MetricsTruncationCarriedOn` | exporter/awskinesisexporter/oversize.go:91-131 | The same for datapoints. |
| `Pipelines.PointsDroppedOnlyTrimmed` | exporter/awskinesisexporter/oversize.go:96-214 | Truncation, then halving with enough attempts: a leaf dropped after a truncation is too big even truncated and alone. |
| `Pipelines.MetricsDroppedOnlyTrimmed` | exporter/awskinesisexporter/oversize.go:96-214 | The same for datapoints. |
| `Record.Residue` | exporter/awskinesisexporter/record.go:185-211 | The retry list is the failing records, in order. |
| `Record.PutRecords` | exporter/awskinesisexporter/record.go:155-223 | The first call carries everything, each next exactly the records that failed before; success exactly when the last reply leaves nothing to send. It gives up only after a failed call, after the fifth call, or when the context is done at the wait that follows the last one, and it looks at the context once before each retry. |
| `Record.ResentIff` | exporter/awskinesisexporter/record.go:185-211 | A record is in the next call exactly when its place in the reply holds an error code. |
| `Record.SettledMeans` | exporter/awskinesisexporter/record.go:172-214 | A run is settled exactly when its last call was answered with no failure counted or with no error code for any of its records. |
| `Record.NeverResent` | exporter/awskinesisexporter/record.go:144-148 | An acknowledged record is in no later call. |
| `Record.AckedExactlyOnce` | exporter/awskinesisexporter/record.go:144-154 | On success every record was acknowledged in exactly one call, when replies that count no failure carry none. |
| `Record.OrderKeptIff` | exporter/awskinesisexporter/record.go:185-223 | For given replies that end in success: records of one key arrived in order exactly when no reply refused a record while accepting a later one of its key. |
| `KeyOrder.OneCallIff` | exporter/awskinesisexporter/config.go:75-78 | One putRecords call keeps the order of every key against every truthful service, in every run, exactly when no two of its records share a key. |
| `KeyOrder.PartialFailureReorders` | exporter/awskinesisexporter/config.go:75-78 | For any two records of one key in one call: throttling the first once puts them out of order, and the call succeeds. |
| `KeyOrder.FlushOrderByChunk` | exporter/awskinesisexporter/record.go:117-142 | A flush keeps the order of every key exactly when each of its chunks does. |
| `KeyOrder.FlushOvertakenIff` | exporter/awskinesisexporter/record.go:117-223 | A successful flush kept the order of every key exactly when no reply in it refused a record while accepting a later one of its key. |
| `KeyOrder.FlushOrderIff` | exporter/awskinesisexporter/config.go:75-78 | Against every truthful service, complete or broken off, a flush keeps the order of every key exactly when no call it cuts carries two records of one key; where it cuts is fixed by the entries and the limits. |
| `KeyOrder.FlushReorders` | exporter/awskinesisexporter/config.go:75-78 | For every flush with such a call: a truthful service with one throttled reply under which it succeeds out of order. |
| `Chunking.NextCut` | exporter/awskinesisexporter/record.go:124-134 | Each chunk is the longest that stays within both limits; a single record always goes. |
| `Chunking.Flush` | exporter/awskinesisexporter/record.go:117-142 | Chunks follow one another without gap, every call belongs to one, and all before the last are acknowledged. It succeeds exactly when they cover the entries and the last one is acknowledged; it fails only when the last chunk gave up, for one of the reasons of PutRecords, or the context was done before a chunk. |
| `Chunking.ChunksRespectLimits` | exporter/awskinesisexporter/record.go:109-112 | Under a validated configuration no chunk exceeds either limit, key bytes counted. |
| `Chunking.GreedyIsOptimal` | exporter/awskinesisexporter/record.go:109-142 | No cut into consecutive allowed calls uses fewer calls. |
| `Chunking.FlushIsOptimal` | exporter/awskinesisexporter/record.go:109-142 | So no flush uses more chunks than any other way would. |
| `Chunking.FlushDelivers` | exporter/awskinesisexporter/record.go:117-142 | A successful flush had every entry acknowledged exactly once. |
| `Export.Emit` | exporter/awskinesisexporter/record.go:70-96 | Entries are the payloads of the groups in order under their group's key, the drop counters are the groups' drops, and it fails only as Flush does. |
| `Export.KeyByStrategy` | exporter/awskinesisexporter/record.go:98-107 | Under tag_hash a record's key is the hash of its tag, so equal tags share a key; otherwise it is a fresh UUID. |
| `Export.TagIsGroups` | exporter/awskinesisexporter/record.go:70-96 | Each payload goes out under the tag of a group from whose batch it was packed. |
| `Export.EntriesFit` | exporter/awskinesisexporter/record.go:98-107 | Every entry, key included, is within max_record_size. |
| `Export.SixReasonsAreAll` | exporter/awskinesisexporter/oversize.go:29-34 | The six drop labels together are everything dropped. |
| `Export.GroupByTags` | exporter/awskinesisexporter/signal_traces.go:62-70 | Whichever of the three groupings the plan selects, the result is the same partition by key. |
| `Export.GroupMetricsByTags` | exporter/awskinesisexporter/signal_metrics.go:106-114 | The same for datapoints. |
| `Export.ExportPoints` | exporter/awskinesisexporter/exporter.go:87-97 | One export of spans or records: each in a record within the limit or in one of six drop counters, and on success every record acknowledged once. |
| `Export.ExportMetrics` | exporter/awskinesisexporter/exporter.go:91-93 | The same for datapoints. |

## Left out

- LeaseStore.CallEffect: counters are unbounded; the source's int64 counter would wrap after 2^63 writes of one row.
- ShardPoller.Poller.RunPoll: runs over the first turns of an environment script of any finite length, because the loop in the source does not end by itself; what the environment does in a turn is arbitrary.
- ShardPoller.Poller.HeartbeatOnce: the heartbeat goroutine acts between two turns of the poll loop, not inside a checkpoint call; both take the same lock around one store call.
- ShardPoller.Poller.SaveBatch: every record has a sequence number, so the source's test for an empty one is always passed.
- Coordinator.Coordinator.Reconcile: pollers do not clear themselves out of `active` while the pass runs; `Shutdown` has that interleaving.
- Fleet.Do: a poller may stop or drain at any time for any reason, and the planner's `owned` set is arbitrary, which only adds runs.
- Shutdown.StepInv: one call each of start and drainAndStop; the release of a lease claimed during shutdown is a store call of the fleet model.
- Shutdown.StopAlwaysCompletes: the bound does not count the claims the run loop still tries from a plan it was carrying out when stop began; a plan is finite.
- FleetProgress.NoShardIsStuck: some run finishes the shard; that the workers' timers take that run is not stated, since another worker may keep competing.
- DynamoStore.Unmarshal: a counter column that is not a 64-bit integer is not represented, and duplicate parent ids, which the service would reject, collapse in the set.
- Buckets.EnsureScope: buckets and destination trees are values updated in a map instead of shared references, so aliasing between a bucket and its output is not represented.
- SplitHalf.SplitTree: destination batches are values; that the input is never mutated is then true by construction.
- KeyPlan.ResolveParts: attribute values are known by their string form and a regex is an arbitrary function of the value.
- Truncate.ClampStringAttrs: strings are byte strings; that a cut keeps UTF-8 valid is not stated, and fails for a ceiling below four bytes when the first codepoint does not fit.
- Record.PutRecords: backoff lengths and deadlines are one arbitrary yes or no a wait; whether an errored call wrote anything is unknown.
- KeyOrder.FlushOrderIff: a helper-level retry sends the whole request again, which is another flush.
- Coordinator.Coordinator.RecordDiscovery: the paged ListShards call has returned; a failing Ensure, which ends the discovery, is not represented.
- Export.Emit: the drop counter is a map, and logging and the other metrics are absent.
- Scan and ListShards paging, AWS clients and error classification are library calls.
- The key plan is taken as compiled; compiling it from the configuration only copies fields.
- Convergence of planner passes that overlap on old listings: the code gives no bound there. Safety covers every interleaving, termination the passes carried out one at a time.
- Poll pacing, stuck backoff, dead-letter payloads, worker-id resolution and telemetry carry no property used here.
