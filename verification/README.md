# MorphFlow: a verified model of the job pipeline

MorphFlow takes jobs over an API, keeps them in a relational database, hands them to Kafka through a transactional
outbox, and processes them in workers that may crash, lose their lease, or meet a failing broker. This project models
that path as state machines and as the imperative services that make their steps, and proves what it keeps.

## How it is organised

| file | models |
|---|---|
| `Domain`, `JobRows` | job statuses and rows; the conditional UPDATEs; sessions, tables and repositories |
| `WorkerService`, `LeaseFencing` | one delivery, transaction by transaction; any number of attempts interleaved on one row; the event log; leases under clock skew |
| `PipelineRoles` | the inference and downstream services as further steps on the row |
| `Retry`, `MessageHandler` | header codecs, backoff, the handler's decision, retry lineages, topic routing |
| `Partition`, `ConsumerLoop` | one partition with its committed offset, position and pause; the batch loop and the concurrent gather over it |
| `Outbox`, `OutboxRelay` | the outbox table, any number of relays as a state machine, the drain loop |
| `Pipeline`, `NoLoss`, `Composition` | creation, relays, partitions, consumers and workers composed; no loss; refinement of the lease protocol |
| `Progress`, `Payloads` | over the same system: every job that is not buried can still succeed; messages keep the body they were created with |
| `BatchItems`, `MicroBatcher` | what running a batch does to its futures; the batching queue, its wake flag and its self-terminating flush loop |
| `JobCreation` | the idempotency reservation and concurrent creation |

`Prelude` holds shared vocabulary. Each state machine has an `Enabled` predicate, a `Next` function, `Legal` and `Exec`
for runs, an invariant, and theorems about every run from the initial state. Classes carry the source's mutable objects;
their methods are proved against the same functions. Crashes, lost commits, commits that take effect but raise, sends
that deliver but raise, and what others do in each gap between two transactions are ordinary steps or arguments. Clock
readings, random draws, processor results, UUIDs and faults are parameters. Automatic induction is switched off in every
lemma: each proof by induction is written out.

## How no loss is proved

The invariant keeps for each job one guardian: the record whose handling made the latest committed claim, or the retry
that replaced it, or, before any claim, the first copy published. A guardian has yet to be disposed of unless the job is
SUCCESS or in the dead-letter topic. An attempt that holds the current epoch is always the guardian's, so a fenced-out
worker that acknowledges its message gives up a record on which nothing depends.

## Where code and documentation differ

- `docs/architecture/runtime.md` and `docs/architecture/data.md` still describe Redis processing locks and publishing
  after the commit. The model follows the code: leases on the job row and a transactional outbox.
- `docs/specs/api/jobs.md` advises repeating a request with the same key after an error 500. When the error came
  between reservation and commit, this cannot succeed before the reservation expires: `Creation.CrashAbandonsItsKey`,
  `Creation.AbandonedKeyIsNeverAnswered`, and the exact condition in `Creation.ReservedKeyGetsAJobIff`.
- `docs/architecture/data.md` says that a FAILED job whose retry succeeds moves to SUCCESS. For the downstream role
  it does not: `PipelineRoles.RetriedDownstreamStaysFailed`, with the condition in
  `PipelineRoles.DownstreamCompletionLandsIff`.
- The API accepts any JSON value as `input.content`. One without a length, such as a number or null, makes building
  the result raise. Alone in its batch the request gets the exception; in a batch of several the flush loop dies, the
  futures from that item on are never resolved, and requests queued behind wait for the next arrival. Integers too
  large for a float in the two options do the same. `MicroBatcher.PayloadStrandsIff` gives the exact condition and
  `MicroBatcher.ContentWithoutLengthStrands` a run.

## Model

| member | source | states |
|---|---|---|
| NoLoss.NoJobIsLost | app/application/worker_service.py:36-137 | In every state that any run of the composed system reaches, a committed job is SUCCESS, or in the dead-letter topic, or has a PENDING outbox row, or is carried by a record at or above the committed offset of its partition. |
| NoLoss.FencedOutAckIsCovered | app/application/worker_service.py:91-95 | When a fenced-out worker acknowledges, a later epoch exists and the job is finished, buried, or guarded by a different record that has yet to be dealt with. |
| NoLoss.GuardianFollowsTheLease | app/application/worker_service.py:48-73 | An attempt at work holds the current epoch exactly when the record it handles is the one the job depends on. |
| NoLoss.StepKeepsInv | app/workers/runner.py:213-252 | Every step of creation, relay, consumer, worker and crash keeps the no-loss invariant. |
| NoLoss.StartKeeps | app/workers/runner.py:101-111 | On its own route a worker never meets a record that it would skip as another role's. |
| NoLoss.WorkKeeps | app/application/worker_service.py:79-135 | Each claim, read and fenced write of an attempt, with any commit fault, keeps the invariant. |
| NoLoss.FinishKeeps | app/workers/runner.py:250-252 | Moving past a record is safe: its job is finished, buried, or guarded by another record. |
| NoLoss.PublishKeeps | app/workers/runner.py:121-156 | Replacing a record by its retry, or burying it, keeps every job carried, also when the send delivers and then raises. |
| NoLoss.RelayKeeps | app/adapters/messaging/outbox_relay.py:48-80 | Relay steps, including an abort after sends, leave every job that nobody claimed pending in the outbox or carried by a record. |
| NoLoss.CreateKeeps | app/application/job_service.py:65-72 | A new job starts with its pending outbox row. |
| Composition.EveryJobRunsTheLeaseProtocol | app/application/worker_service.py:44-135 | Refinement: for every job, a run of the composed system is a run of the lease protocol on its row; every attempt in hand is one of that protocol's attempts, and different hands are different attempts. |
| Composition.HandsHoldDistinctEpochs | app/application/worker_service.py:48-73 | End to end, in every reachable state, no two consumers hold the same epoch of a job. |
| Composition.StepMirrors | app/application/worker_service.py:44-135 | Each step of the composed system is at most one step of the protocol on a given job. |
| Composition.EveryJobsLogReplaysToItsRow | app/application/worker_service.py:64-73 | End to end, in every reachable state, the committed event log of a job replays to its row and its counts balance. |
| Progress.EveryJobCanStillSucceed | app/workers/runner.py:309-346 | From every state that any run of the composed system reaches, every job not in the dead-letter topic, failed and retried ones included, has a legal continuation through relay, broker, consumer and worker in which it becomes SUCCESS. |
| Payloads.EveryMessageIsAsCreated | app/workers/runner.py:117-156 | In every reachable state each message in the outbox, on a topic or in the dead-letter topic carries the body with which its job was created, however often it was relayed or republished. |
| Payloads.EachJobIsCreatedOnce | app/application/job_service.py:40-42 | A run creates a job only once, so that body is the only one. |
| Domain.TransitionTable | app/domain/models.py:21-33 | The table holds exactly the transitions stated on their own: any unfinished job may be worked on, only a job being worked on succeeds, one that has neither failed nor finished may fail, and nothing leaves SUCCESS or returns to PENDING. |
| JobRows.SuccessAdmitsNothing | app/adapters/db/repositories.py:67-93 | A SUCCESS row can be neither claimed nor moved by an update that relies on the transition table, fenced or not. |
| JobRepository.JobRepository.UpdateStatus | app/adapters/db/repositories.py:48-109 | The compare-and-swap takes effect exactly when the row exists, its status may be followed by the target (or is among those expected) and the fencing token given matches; each column of the new row is stated, and otherwise nothing changes. |
| JobRepository.JobRepository.UpdateWhere | app/adapters/db/repositories.py:95-99 | One conditional UPDATE ... RETURNING reports a row exactly when all conditions held and touches no other row. |
| JobRepository.JobRepository.ClaimForProcessing | app/adapters/db/repositories.py:112-151 | A claim is granted exactly on PENDING, on FAILED, and on PROCESSING without an expiry or with one below the reading; the row then is PROCESSING for that owner with the new expiry and the epoch one higher. |
| JobRepository.JobRepository.RenewLease | app/adapters/db/repositories.py:153-166 | A renewal succeeds exactly for the current owner and epoch and moves only the expiry. |
| WorkerService.Worker.ClaimTransaction | app/application/worker_service.py:44-73 | Claim and start event commit together or not at all, for every commit fault. |
| WorkerService.Worker.ReadTransaction | app/application/worker_service.py:51-59 | A refused claim is acknowledged exactly when the job is SUCCESS, and otherwise answered LEASE_HELD. |
| WorkerService.Worker.SuccessTransaction | app/application/worker_service.py:79-108 | The fenced success write commits row and event together; a write that is fenced out is acknowledged and changes nothing. |
| WorkerService.Worker.FailureTransaction | app/application/worker_service.py:109-135 | The fenced failure write commits row and event together; fenced out, it changes nothing and reports the error. |
| WorkerService.Worker.ProcessAndRecord | app/application/worker_service.py:75-137 | Whatever others do between the transactions: a yielded result under the current epoch leaves SUCCESS, the result, no error and one completion in the log, and is acknowledged; under an old epoch it is acknowledged and nothing is written. A failure reply, FAILED and one failure event come only from a failed processor or a failed commit, and are recorded exactly while the epoch is still the one being processed. |
| WorkerService.Worker.HandleEvent | app/application/worker_service.py:36-137 | A whole delivery: a job that is not free is acknowledged if finished and otherwise answered LEASE_HELD; a free one is claimed under the next epoch and processed as above. Undisturbed and without faults, reply, row and log are given by one equation. The log only grows, the epoch never falls, an acknowledgement means finished or claimed again. |
| LeaseFencing.StepKeepsInv | app/adapters/db/repositories.py:87-151 | Every step of every attempt keeps the relation between row, grants and local tokens. |
| LeaseFencing.EachEpochGrantedOnce | app/adapters/db/repositories.py:139-151 | Over all interleavings each epoch is granted to one attempt and one only, and a held token is the one granted. |
| LeaseFencing.WriteTakesEffectIffCurrent | app/adapters/db/repositories.py:87-99 | A result write takes effect if and only if the writer's epoch is current, also when the owner name still matches; otherwise row and log are unchanged. |
| LeaseFencing.FailureTakesEffectIffCurrent | app/application/worker_service.py:113-123 | A failure write takes effect if and only if its epoch is current and the job is not finished, even after an own success whose commit raised. |
| LeaseFencing.SuccessIsTheLastGrantees | app/application/worker_service.py:82-95 | A SUCCESS row shows the result computed by the attempt that was granted its final epoch, and no error. |
| LeaseFencing.OthersKeepTheRely | app/application/worker_service.py:36-137 | What `HandleEvent` assumes of the other workers is what they do. |
| LeaseFencing.ClaimIsGrantedIff | app/adapters/db/repositories.py:124-151 | In every reachable state a claim gives PROCESSING, the next epoch, that owner and the lease exactly when the job is PENDING, FAILED, or PROCESSING with an expiry below the reading; otherwise it changes nothing. |
| LeaseFencing.RenewalHoldsOffClaims | app/adapters/db/repositories.py:153-166 | In every reachable state a renewal before the result write moves the expiry exactly when its epoch is current, and then the next claim is refused exactly when its reading is not past the new expiry. |
| LeaseFencing.AnyJobCanStillSucceed | app/application/worker_service.py:44-108 | From every state of the invariant other than SUCCESS one further delivery can finish the job with any given result. |
| LeaseFencing.AnAttemptMayFailUntilItWrites | app/application/worker_service.py:109-135 | In every reachable state an attempt that has not written may fail, computed or not; row and log show it exactly when its epoch is current, and it is reported either way. |
| EventReplay.LogReplaysToRow | app/application/worker_service.py:64-135 | After any interleaving, lost commit or commit that took effect but raised, replaying the log gives status, epoch, result and error; starts equal the epoch, completions are one exactly on SUCCESS, and epoch = completed + failed + takeovers + processing. |
| EventReplay.TakeoversAreExpiredLeases | app/adapters/db/repositories.py:126-129 | The takeovers counted from the log are exactly the committed claims of a row whose lease had expired by the claimer's clock. |
| LeaseClock.TakeoverOnlyAfterMargin | app/adapters/db/repositories.py:124-129 | With clocks within d of real time a takeover happens only more than L - 2d after the holder's claim reading. |
| LeaseClock.NoFalseFencing | app/application/worker_service.py:82-90 | An attempt that writes within L - 2d of its claim reading is never fenced out. |
| LeaseClock.ProcessingRowsAreLeased | app/adapters/db/repositories.py:139-145 | A row has an owner and an expiry exactly while it is PROCESSING. |
| PipelineRoles.SuccessIsAbsorbing | app/application/pipeline_services.py:114-121 | Under any mixture of unified, inference and unfenced downstream steps a SUCCESS row keeps status, result, error and epoch; it was claimed and shows no error. |
| PipelineRoles.UnifiedMovesAreRoleSteps | app/application/worker_service.py:44-135 | Every move of a unified attempt is at most one of those steps. |
| PipelineRoles.DownstreamCompletionLandsIff | app/application/pipeline_services.py:165-186 | The downstream completion, always acknowledged, leaves SUCCESS if and only if the row was PROCESSING or SUCCESS. |
| PipelineRoles.RetriedDownstreamStaysFailed | app/application/pipeline_services.py:187-203 | A concrete run: a downstream failure followed by a successful retry logs a completion and leaves the row FAILED. |
| PipelineServices.InferencePipelineService.HandOffTransaction | app/application/pipeline_services.py:93-106 | Event and downstream message commit together; the row is neither consulted nor changed. |
| PipelineServices.DownstreamPipelineService.CompletionTransaction | app/application/pipeline_services.py:165-183 | Row update, if admitted, and completion event commit together or not at all, for every commit fault; no other job is touched. |
| PipelineServices.DownstreamPipelineService.FailureTransaction | app/application/pipeline_services.py:188-201 | The unfenced failure write never moves a SUCCESS row, and the failure event is logged all the same. |
| PipelineServices.DownstreamPipelineService.HandleEvent | app/application/pipeline_services.py:150-203 | With workers of any role in every gap and any commit fault: a finished job is acknowledged untouched; a yielded result whose commit holds is acknowledged and logged, and shows in the row exactly when the write found PROCESSING; every other case is a failure of the processor or the commit, reported, logged, and shown in the row unless the write found it failed or finished. Undisturbed, the write found the job as it was. |
| PipelineServices.StepsKeep | app/application/pipeline_services.py:42-203 | Steps of any roles only extend the log, never lower the epoch, and leave a finished job as it is: what `HandleEvent` assumes of the others. |
| Decimal.IntRoundTrip | app/workers/runner.py:57-63 | `int(str(n))` gives back n for every integer. |
| Decimal.DigitsParseIff | app/workers/runner.py:57-63 | A text reads as digits exactly when it is digits with single underscores between them, and then as the value read from left to right. |
| Decimal.StripCutsBlanks | app/workers/runner.py:119-119 | Stripping cuts off blanks only, and all of them, at both ends. |
| Headers.HeadersSurvive | app/adapters/messaging/kafka.py:30-35 | Every dict of headers survives publishing and decoding: the decoded map holds exactly its items. |
| Headers.LastValueCounts | app/workers/runner.py:46-54 | The decoded map holds exactly the keys with a value that is not null, each with the last such value. |
| Headers.DecodeHeaders | app/workers/runner.py:46-54 | The decoding loop drops null values and keeps the last value of a key, as the recursive definition says. |
| Backoff.DelayIsMonotoneAndCapped | app/workers/runner.py:66-69 | The delay never shrinks as retries go on and never exceeds the cap. |
| Backoff.DelayGrowsByTheMultiplier | app/workers/runner.py:66-69 | The first delay is the base and each further one the multiplier times the last, both up to the cap. |
| Backoff.TotalDelayIsBounded | app/workers/runner.py:121-128 | The delays of a whole lineage stay within min(R * max, base * (m^R - 1) / (m - 1)), or R * base for m = 1. |
| Backoff.TotalMillisIsBounded | app/workers/runner.py:132-137 | The same bounds for the delays in whole milliseconds. |
| MessageHandler.NumbersComeFromHeaders | app/workers/runner.py:57-63 | A count comes only from a header that reads as a positive number, a due time only from one that reads as a number; any other text counts as none. |
| MessageHandler.RetryHeadersDecode | app/workers/runner.py:132-138 | A retry record decodes to the count, origin, reason and due time that were written. |
| RetryLineage.FailureAdvances | app/workers/runner.py:117-156 | One failure raises the retry count by exactly one, keeps origin and payload, and dead-letters exactly at the limit. |
| RetryLineage.LineageEnds | app/workers/runner.py:101-156 | A chain that starts on the consume topic is never dropped; it ends at the first success among its first limit + 1 handlings, and otherwise in the dead-letter topic after exactly that many, with payload, origin and the limit as count. |
| RetryLineage.LineageWaits | app/workers/runner.py:121-138 | The waits that a chain of failures writes into its retry records, due time less clock reading, add up to exactly the backoff delays in milliseconds, within both bounds. |
| Roles.RetriesAreSkippedIff | app/workers/roles.py:107-119 | A retry record published by one worker is let through unhandled by another reader of its topic exactly when the two consume different topics; with distinct retry topics, by none. |
| MessageHandler.HandleMessage | app/workers/runner.py:72-166 | The handler raises exactly when the role raises or the send it needs does; one that returns has sent nothing for a foreign retry or an acknowledgement, and else the one replacement: same payload and origin, the reason, and the next count with its due time on the retry topic, or the final count on the dead-letter topic at the limit. |
| Partition.NothingCommittedUnhandled | app/workers/runner.py:211-252 | For any run with failures, deferrals and crashes, every record below the committed offset, that very record with headers and payload, was passed on by a handling that did not raise, and what that handling owes it, its one replacement if it failed, is among the messages sent. |
| MessageHandler.HandlingMeans | app/workers/runner.py:101-156 | The same of the function that the state machines use, so that the loop and the partition runs speak of the same messages. |
| Partition.NothingSkipped | app/workers/runner.py:309-346 | Between loop iterations no record lies between the committed offset and the next position. |
| Partition.CommitNeverGoesBack | app/workers/runner.py:342-346 | No step lowers the committed offset, and it never passes the end of the log. |
| Partition.FirstDisposalsFollowTheLog | app/workers/runner.py:213-252 | First disposals follow log order without a gap, however often the process restarts. |
| Partition.PausesAreHonoured | app/workers/runner.py:216-225 | No retry record reaches the handler before its time, and a paused partition stands on the retry record whose time is stored. |
| Partition.ResumePassIsExact | app/workers/runner.py:169-177 | After a resume pass what is still paused is strictly not due, and what was resumed was due. |
| Partition.StepKeepsInv | app/workers/runner.py:190-252 | Append, poll, defer, start, finish, commit, resume and crash keep the cursor, order, pause and history invariants. |
| ConsumerLoop.ConsumeSplits | app/workers/runner.py:211-252 | Consuming a ++ b equals consuming a and then, unless a stopped, b. |
| ConsumerLoop.DrainIsARun | app/workers/runner.py:213-250 | Consuming a batch is a legal run of the one-record-at-a-time machine. |
| ConsumerLoop.DrainIsConsume | app/workers/runner.py:190-252 | That run ends with exactly the position, pause, commit offset and messages sent which the batch loop computes. |
| ConsumerLoop.ConsumeMeans | app/workers/runner.py:211-252 | Stated without the step function: each record below the offset returned adds nothing if it was foreign or acknowledged and otherwise exactly its one replacement, in order; the record that stopped had to wait or raised, and nothing else was sent but a replacement whose send raised all the same. |
| ConsumerLoop.TurnIsARun | app/workers/runner.py:309-346 | For every batch that a poll may return, poll, batch loop and commit are a legal run of the partition machine, ending with the position, committed offset, pause and messages that the batch loop computes. |
| ConsumerLoop.EveryInterleavingAgrees | app/workers/runner.py:320-346 | Every interleaving of the gathered partitions ends where running them one after another ends. |
| ConsumerLoop.WorkerLoop.ResumeDuePartitions | app/workers/runner.py:169-177 | Exactly the partitions whose time has come are resumed and forgotten. |
| ConsumerLoop.WorkerLoop.ConsumeRecord | app/workers/runner.py:213-250 | One turn of the loop body: a retry whose time has not come stops the loop, is paused until its due time and sends nothing; a record let go has sent exactly what accounts for it; any stop goes back to the record. |
| ConsumerLoop.WorkerLoop.ConsumePartition | app/workers/runner.py:190-252 | The loop returns the offset after the last record let go; every record before it is accounted for on the topics by its own messages, in order, the position is back at the record that stopped, and nothing else was sent. |
| ConsumerLoop.WorkerLoop.Gather | app/workers/runner.py:323-344 | The batches of one poll leave the union of the partitions' outcomes, the offsets of their successful prefixes, and on the topics exactly what accounts for the records below those offsets, partition by partition. |
| ConsumerLoop.EveryOrderSendsTheSame | app/workers/runner.py:323-340 | In whatever order the partitions of a poll run, the same messages are published. |
| ConsumerLoop.WorkerLoop.Iterate | app/workers/runner.py:309-346 | One turn of the main loop, whole: positions, pause table, committed offsets and published messages; the paused set stays equal to the keys of the pause table. |
| OutboxTable.FetchPicksTheFirst | app/adapters/db/repositories.py:216-223 | The fetch returns pending, unlocked rows in id order, at most as many as asked for. |
| OutboxTable.FetchSkipsNone | app/adapters/db/repositories.py:216-223 | It passes over no eligible row and stops short of its limit only when none is left. |
| OutboxRelays.BatchesAreDisjoint | app/adapters/db/repositories.py:222-224 | With any number of relays and crashes, locked batches are pairwise disjoint, increasing and pending, and each relay has sent a prefix of its batch. |
| OutboxRelays.DeliveriesAreAccountedFor | app/adapters/messaging/outbox_relay.py:57-80 | The publish count of a row = sends of aborted drains + failed sends that arrived + sends of open drains + one if PUBLISHED, and `attempts` equals its committed failed sends. |
| OutboxRelays.PublishedIsFinal | app/adapters/db/repositories.py:237-252 | A committed row keeps its message and topic, never leaves PUBLISHED, and its attempts never fall. |
| OutboxRelays.PublishOrderIsIdOrder | app/adapters/messaging/outbox_relay.py:48-84 | With one relay that may crash anywhere, the publish log without repeats is a prefix of the rows in id order, and every committed row is PENDING or was published. |
| OutboxRelays.StepKeepsBalance | app/adapters/messaging/outbox_relay.py:57-80 | Every relay step keeps the balance of deliveries of every row. |
| OutboxRelay.Relay.DrainOnce | app/adapters/messaging/outbox_relay.py:45-84 | A drain sends the first pending rows up to the first failure and commits both marks at once; a lost commit leaves the table as it was while the sends stay sent, and a commit that took effect but raised loses only the count. |
| OutboxRelay.DrainIsARun | app/adapters/messaging/outbox_relay.py:45-84 | For every batch size, send fault and commit fault, and whatever other relays have locked, what `DrainOnce` does to table and topics is a legal run of the machine of relays. |
| OutboxRelay.Relay.DrainUntilIdle | app/adapters/messaging/outbox_relay.py:86-98 | With a publisher that does not fail and no new rows, repeated draining publishes every pending row exactly once, in id order, and leaves none. |
| OutboxRelay.CleanDrainTakesThePrefix | app/adapters/messaging/outbox_relay.py:51-80 | A drain without failures takes exactly the first batch off the backlog. |
| OutboxRelay.CeilingManyDrainsSuffice | app/adapters/messaging/outbox_relay.py:45-84 | ceil(n / batch size) such drains publish all n pending rows in id order exactly once, and one fewer does not. |
| BatchItems.RunBatch | app/adapters/processing/gpu_simulator.py:128-174 | A batch of one always resolves its future. A larger one raises exactly when a latency cannot be resolved, the sleep cannot be expressed, or with these draws an item raises in the loop; it has then resolved just the futures before the first such item. Every future resolved keeps the promise to its own payload and draw: the simulated failure exactly when drawn, else its content, its length, its latency and the size of the batch. |
| BatchItems.RunSingle | app/adapters/processing/gpu_simulator.py:110-126 | A payload run alone is answered as promised: the simulated failure exactly when the draw is below its own or the configured rate; else its content echoed, with that content's length, the latency asked for and batch size 1; or the exception that its options or content cause. |
| BatchItems.Prepare | app/adapters/processing/gpu_simulator.py:154-155 | The latencies are resolved, and the sleep for the slowest expressed, exactly when no option is refused and the sum fits in a float. |
| BatchItems.FinalizeItem | app/adapters/processing/gpu_simulator.py:156-172 | The loop body raises exactly when the failure rate overflows or an item that does not fail has a content without a length, and otherwise resolves the one future as promised: echo, length, latency and the size of the batch. |
| BatchItems.FinalizeItems | app/adapters/processing/gpu_simulator.py:156-172 | The loop resolves exactly the futures before the first item that raises. |
| BatchItems.EachGetsItsOwn | app/adapters/processing/gpu_simulator.py:156-172 | Every future resolved is resolved with the outcome of its own payload and draw. |
| BatchItems.OutcomeIsPromised | app/adapters/processing/gpu_simulator.py:110-126 | The function behind a payload run alone meets that promise for every payload and draw. |
| BatchItems.BatchOutcomeIsPromised | app/adapters/processing/gpu_simulator.py:180-198 | And in a batch of several, for every item that does not raise. |
| BatchItems.ReachIsPromised | app/adapters/processing/gpu_simulator.py:128-174 | Hence for every future that a batch resolves before it ends or raises. |
| BatchItems.RaisesIff | app/adapters/processing/gpu_simulator.py:180-198 | An item raises in the loop exactly when its rate is an integer too large for a float, or the draw lets it through and its content has no length. |
| BatchItems.OverflowsPastTheLargest | app/adapters/processing/gpu_simulator.py:179-184 | `float` of an integer overflows exactly when the value is no nearer to the largest double, (2^53 - 1) * 2^971, than to the next step past it. |
| BatchItems.RaisesIffSomeDraw | app/adapters/processing/gpu_simulator.py:180-198 | A payload can raise in the loop for some draw exactly when its rate overflows, or its content has no length and it is not certain to fail. |
| BatchItems.SafeBatchesArePreparable | app/adapters/processing/gpu_simulator.py:154-155 | A batch of safe payloads gets past resolving and sleeping. |
| MicroBatcher.GpuInferenceSimulator.EnqueueItem | app/adapters/processing/gpu_simulator.py:65-77 | The critical section adds the item, leaves a live flush task behind, and sets the wake flag exactly when a full batch waits. |
| MicroBatcher.GpuInferenceSimulator.TakeBatch | app/adapters/processing/gpu_simulator.py:96-103 | The critical section cuts a full batch off the front, or the whole queue if it is shorter, or ends the task on an empty queue; it sets the flag exactly when a full batch remains. |
| MicroBatcher.StepKeepsInv | app/adapters/processing/gpu_simulator.py:65-108 | Every step of clients and loop, including clearing the flag apart from the cut and raising after a resolved prefix, keeps the invariant. |
| MicroBatcher.BatchesConserveArrivals | app/adapters/processing/gpu_simulator.py:72-77 | At all times the cut batches followed by the queue are the requests of the run in arrival order, and every batch has 1 to batch_size items. |
| MicroBatcher.NothingIsStranded | app/adapters/processing/gpu_simulator.py:87-108 | At most one flush loop is alive; a waiting item has one unless the last loop died, which takes a batch of several with an unsafe payload; a full batch waits only while the flag is set or the loop is between clear and cut. |
| MicroBatcher.PayloadStrandsIff | app/adapters/processing/gpu_simulator.py:128-198 | Requests with a given payload can leave futures unresolved if and only if batches may hold several items and the payload is unsafe: a latency that is refused or cannot be slept, a failure rate that overflows, or a content without a length that is not certain to fail. |
| MicroBatcher.ContentWithoutLengthStrands | app/adapters/processing/gpu_simulator.py:192-198 | A legal run: two requests whose content has no length share a batch, both futures stay unresolved, and the request behind them waits with no live loop. |
| MicroBatcher.StrandedForever | app/adapters/processing/gpu_simulator.py:87-108 | Once running a batch has raised, its remaining futures are never resolved, whatever happens next. |
| MicroBatcher.AnsweredIffReached | app/adapters/processing/gpu_simulator.py:156-172 | In every state of the invariant the futures resolved are exactly those of the batches' resolved prefixes. |
| MicroBatcher.EveryFutureIsResolvedOnce | app/adapters/processing/gpu_simulator.py:128-174 | Futures are resolved at most once, in arrival order, each as promised to its own payload and draw in a batch of that size; when the loop has ended and batches of several held only safe payloads, each exactly once. |
| MicroBatcher.CutMatchesRunBatch | app/adapters/processing/gpu_simulator.py:128-174 | A batch that is over stopped at the item where `RunBatch` stops with the same draws, and resolved the same futures with the same outcomes, each as promised. |
| MicroBatcher.LoopStepsProgress | app/adapters/processing/gpu_simulator.py:87-108 | Every step of the loop leaves strictly less work. |
| MicroBatcher.Drains | app/adapters/processing/gpu_simulator.py:87-108 | Without further arrivals, and with safe payloads or batches of one, the loop empties the queue within that work and then ends. |
| MicroBatcher.NoScheduleIsLonger | app/adapters/processing/gpu_simulator.py:87-108 | No schedule of the loop takes more steps than that. |
| Idempotency.RequestKeysAreInjective | app/adapters/cache/redis_idempotency.py:33-35 | Two requests share a record exactly when they carry the same key. |
| Idempotency.RedisIdempotencyStore.ReserveRequest | app/adapters/cache/redis_idempotency.py:23-27 | Set if absent: the first reservation of a key stands. |
| Idempotency.WritesAreReadBack | app/adapters/cache/redis_idempotency.py:16-35 | A stored record is read back under its own key, and a reader of any other key does not notice. |
| Idempotency.RedisIdempotencyStore.CompleteRequest | app/adapters/cache/redis_idempotency.py:29-31 | The record becomes COMPLETED for the given job; no other key is touched. |
| Creation.StepKeepsInv | app/application/job_service.py:30-76 | Every step of every concurrent call, with lost and half-lost commands, crashes and the rest of the pipeline in between, keeps the invariant. |
| Creation.OneJobPerKey | app/application/job_service.py:40-51 | At most one job is ever committed under a key, and no job under two keys. |
| Creation.SameKeySameJob | app/application/job_service.py:30-76 | Successful answers name committed jobs, and two answers name the same job exactly when they answer the same key. |
| Creation.RowEventAndOutboxTogether | app/application/job_service.py:65-72 | Row, log opening with the request event, and one outbox row exist together or not at all, whatever workers and relays do meanwhile. |
| Creation.RequestCarriesTheCallersBody | app/application/job_service.py:53-72 | For every commit in any run, the one outbox row of its job carries exactly the body of the call that committed it, and that call's key. |
| Creation.NewKeyCanGetAJob | app/application/job_service.py:30-76 | However the other calls stand, a call with an unrecorded key can get its own new job: the answer, the record and the three table entries are stated whole. |
| Creation.OldKeyCanGetItsJob | app/application/job_service.py:33-38 | A repeated call can get the job its key names, and then writes nothing. |
| Creation.ReservationIsNeverRefusedWithoutARecord | app/application/job_service.py:43-51 | Without expiry the error "Unable to reserve idempotency key" is never answered. |
| Creation.ReservedKeyGetsAJobIff | app/application/job_service.py:42-72 | A reserved key can still get a job if and only if it has one or the call that reserved it is about to commit. |
| Creation.AbandonedKeyIsNeverAnswered | app/application/job_service.py:33-38 | Once that call is gone without committing, no call with the key is ever answered with a job. |
| Creation.CrashAbandonsItsKey | app/application/job_service.py:42-72 | A crash between reservation and commit produces such a key, for every key. |
| JobService.JobService.WriteTransaction | app/application/job_service.py:65-72 | Row, event and outbox row are written by one commit, or none of them. |
| JobService.JobService.CommitReserved | app/application/job_service.py:53-76 | From the reservation on: the new job is committed with its payload unless the commit was lost, and the answer names it exactly when neither the commit nor the completed record failed. |
| JobService.JobService.CreateJob | app/application/job_service.py:30-76 | With other clients running at every await, an answered job is committed and is the one its key names; the call commits at most its own job, whole and with exactly the payload it was given, under a key that names it. Without faults and undisturbed, answer, store and tables are given by an equation: a new PENDING job with its event, outbox row and completed record, or the job that the key names and nothing written. |
| JobService.OthersKeepTheRely | app/application/job_service.py:30-76 | What `CreateJob` assumes of the rest of the system is what every other step does. |

## Left out

- JobService.JobService.CreateJob: assumes that reservations do not expire, as all of `Creation` does. With expiry the key may be given a second job.
- NoLoss.NoJobIsLost: modes A and B only. In modes C and BC the inference success write is not fenced and the downstream completion ignores the result of its update, so the claim is false there; those services appear as steps for `PipelineRoles.SuccessIsAbsorbing`.
- NoLoss.NoJobIsLost: one live process per partition. Consumer group rebalances and two processes on one partition are not modelled, and a crash discards the attempt in hand together with any transaction it had not committed.
- Partition.NothingCommittedUnhandled: a crash is modelled per partition; a process crash is the crash of each of its partitions.
- OutboxRelays.PublishOrderIsIdOrder: assumes that rows become visible in id order and claims no order across relays, because the code gives none.
- OutboxRelay.Relay.DrainOnce: one relay without locked rows; several relays are the subject of `OutboxRelays`. The table column `last_error` and the publication time are not kept.
- RetryLineage.LineageEnds: assumes distinct topic names and records written by the workers; a record put on a retry topic by hand without headers starts its count anew.
- Backoff.TotalDelayIsBounded: delays are real numbers; floating-point rounding and overflow of the power are not modelled.
- Decimal.IntRoundTrip: `int` is modelled for decimal text with optional sign, surrounding blanks and underscores; blanks and digits outside ASCII are not.
- Headers.HeadersSurvive: UTF-8 and JSON are taken as injective codecs.
- MicroBatcher.EveryFutureIsResolvedOnce: cancelled futures and cancelled flush tasks are not modelled; sleeps take no time, the semaphore and utilisation values carry no state, and draws are free reals in [0, 1).
- PipelineServices.DownstreamPipelineService.HandleEvent: the text of the missing-job error drops the job id. The claim and failure transactions of the inference service are those of `WorkerService.Worker`.
- WorkerService.Worker.HandleEvent: the event envelope is reduced to the job id; source, trace id and timestamps carry no state.
- Mixing architecture modes during a run.
- Start and stop of the relay, topic auto-creation, deserialisation errors inside `getmany`, and the client libraries of Kafka, Redis and the database.
- Metrics, tracing, logging, health checks, API routes, settings, migrations and deployment files: configuration and I/O.
