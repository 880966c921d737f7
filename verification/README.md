# A model of the ftq job queue

ftq is a job queue on Redis Streams: every change to the queue is one atomic Lua script, workers hold
entries under leases renewed by heartbeats, any worker may reclaim an expired lease, and failed jobs
wait in a delayed set or end in a dead-letter queue (DLQ). This project models that protocol, the
worker's own bookkeeping, and the loops around it (producer, DLQ sweep, chaos verifier, fault planner,
benchmark percentiles), and proves what the code and its documents promise.

## How it is laid out

**The protocol.** `QueueTypes` is the data one queue keeps in Redis. `Scripts` says what each Lua script
does, as a function of the queue. `RedisQueue.Store` holds the same keys as mutable fields and runs the
scripts command by command, loops included; each method is proved to produce exactly the state and reply
of its function. `StepEffects` says what each call does without those functions: who is admitted, renewed, parked,
handed out, and what else changes. `Protocol` puts the scripts into a labelled transition system: a worker that was ever
handed an entry may call any script about it at any later time, any number of times, so crashes, pauses
past the lease, lost replies, steals and re-sends are all runs of it; producers may re-send enqueues, and
anyone may schedule, reclaim, prune or requeue. `Invariants`, `NoLoss` and `Reachable` carry the inductive
invariant; `Behaviors` is induction over runs.

**What follows from it.** `Guarantees` (nothing lost, one result, one effect, DLQ = DEAD jobs),
`Progress` (one worker can always finish any job), `Resend`, `Leases`, `Retries`, `Backpressure`,
`ReclaimAccounting`, and for the chaos verifier `Policy`, `DrainedRuns` and `ReclaimMargin`. `Scenarios` are two
concrete runs.

**Keys that expire.** `Lifetime` bounds how long a copy of a job can be delivered. `Expiry` adds expiring keys to the
protocol, `KeyLives` shows why an accepted TTL is long enough, and `LateRequeue` what it is not long enough for.

**On top of the reclaim script.** `Passes` and `Reaping` describe one reclaim pass and the cursor;
`CrashIsolation` and `CrashIsolationLimit` are the counting theorem of ADR-035 and its exact condition, and
`CrashRuns` and `CrashRunsLimit` carry both over to runs of the protocol.

**The worker.** `WorkerSlots` and `ProcessPool` are its two state machines; `WorkerObjects` are the objects that
take their steps in place.

**The loops.** `Verifier`, `EnqueueMany`, `DlqSweep`, `FaultPlan`, `Percentiles`; `Steps` is the
termination argument that the timed loops share, `Sets` two facts about sets and lists. Random draws and clocks
are nondeterministic choices within their stated ranges. `EnqueueMany` and `DlqSweep` call the scripts of
`RedisQueue` while other clients, which may do whatever the protocol allows, act before each of their calls; a
log holds every call with the queue as it was then, and what is proved is about that log and the queue.

`dafny verify dfyconfig.toml` checks everything.

## What the proofs turned up

- **Crash isolation has a condition.** With `n` crashy jobs and suspect threshold `t`, the bound
  `1 + n*(t-1)` on an innocent entry's deliveries holds in all runs exactly when it does not exceed
  `max_deliveries`. Past that, an innocent entry can already be on its way to the DLQ unrun, and so no
  longer a suspect, when the worker's one suspect crashes it again. One crashy job is always fine (given a
  `max_deliveries` of at least 2).
- **A put-back is not quite "as it was".** `src/ftq/scripts/reclaim.lua:55-61` restores the delivery count,
  but leaves the caller as the entry's owner and sets the idle time to the lease. So the lease is the same as
  before exactly when the caller owned the entry already and it had been idle for exactly the lease. The model
  follows the code; nothing proved here needs the former owner or the longer idle time.
- **A refused move can land later.** A retry or DLQ move answered LEASE_LOST and re-sent later takes effect if
  and only if its caller owns the entry then, as it may after reclaiming it; a run of six steps shows one.
  Re-sends of moves that did take effect are harmless at any distance.
- **A requeue can repeat an effect.** `src/ftq/scripts/requeue.lua:14-15` says that it cannot, because the ledger
  still knows the job's effects. DEAD records live as long as their DLQ entries, but ledger markers expire
  after `done_ttl_seconds`, so a job requeued later than that repeats them; a run of eight steps does. In every
  run, an effect happens twice if and only if some call of the ledger comes after its marker has expired, and
  none does if jobs are put on the stream again within nine tenths of the TTL's margin.
- **A pool that fails to start stays.** `src/ftq/worker.py:526` awaits the new pool before the `try` whose
  handler would forget it, although the comment at `src/ftq/worker.py:698` says a failed start is treated like
  a pool that breaks. A process run of a worker fails before it is inside any pool if and only if some pool of
  that worker failed to start earlier.
- **Identical retries collapse.** The delayed set is keyed by the encoded job, so two equal copies become
  one. `retried` is `delayed + scheduled` plus the number of collapses, so the two agree exactly in the runs in
  which no retry ever found an equal copy waiting. A re-sent enqueue leads to one in which one did, if both
  copies were stamped with the same `enqueued_at_ms`, which is part of what is encoded.
- **A percentile can be a hair too low.** `bench/analysis.py:89` promises upper bounds, but the slack of
  `bench/analysis.py:95` counts a value up to a billionth of a bucket above an edge under that edge, and, for
  buckets of whole millionths, no other value is counted below itself; with other buckets the edge is then also
  rounded, by half a millionth at most.

## Model

| member | source | states |
|---|---|---|
| `Reachable.AlwaysInv` | src/ftq/transitions.py:54-122 | In every state of every run the whole invariant holds: entries are undelivered or pending under an existing consumer, the DLQ is the DEAD jobs, one result per success, one logged effect per marker, the counters conserve, and no accepted job is lost |
| `Reachable.StepKeeps` | src/ftq/scripts/commit.lua:28-86 | Each of the twelve kinds of step keeps that invariant, whoever takes it and however late |
| `Invariants.CommitKeeps` | src/ftq/scripts/commit.lua:32-86 | A commit keeps DLQ, results, PEL and counters in agreement, a late success included |
| `Invariants.RetryKeeps` | src/ftq/scripts/retry.lua:29-76 | A retry keeps them in agreement in each of its four outcomes |
| `Invariants.DeadLetterKeeps` | src/ftq/scripts/dead.lua:33-93 | A DLQ move of an entry's own job keeps them in agreement in each outcome |
| `Invariants.RequeueKeeps` | src/ftq/scripts/requeue.lua:20-56 | A requeue keeps them in agreement |
| `Invariants.ScheduleKeeps` | src/ftq/scripts/schedule.lua:27-35 | Moving due retries keeps them in agreement: `delayed + scheduled <= retried` |
| `Guarantees.NeverLostNeverStuck` | src/ftq/reaper.py:88-103 | In every run each accepted job has a terminal record, waits for its retry, or has a stream entry that is undelivered or pending under a consumer that still exists |
| `Progress.OneWorkerFinishes` | src/ftq/worker.py:392-458 | From any state satisfying the invariant, and whatever time it is, there are steps of any one worker alone that end an accepted job, all at one later time at which every lease and every delay is over |
| `Progress.AlwaysCompletable` | src/ftq/worker.py:257-312 | At every state of every run, for any time `t`, steps of one worker, at times that are not before `t` and never go back, lead on to a terminal record of any accepted job |
| `Guarantees.JobStep` | src/ftq/scripts/commit.lua:40-78 | A job's record moves only none to SUCCEEDED, none to DEAD, DEAD to SUCCEEDED (a late commit), or DEAD to none (a requeue), and a commit's move logs exactly one result with the committer's own data |
| `Guarantees.FirstSuccessWins` | src/ftq/transitions.py:31-34 | Once SUCCEEDED, a job keeps that very record over the rest of any run |
| `Guarantees.ExactlyOneResult` | src/ftq/scripts/commit.lua:70-77 | The results log holds a job once if it has SUCCEEDED and not at all otherwise, in every run |
| `Guarantees.EffectsHappenOnce` | src/ftq/ledger.py:25-38 | An effect key is logged once exactly when its marker exists; a SUCCEEDED job with an effect has exactly one log entry |
| `Guarantees.DlqIsTheDeadJobs` | src/ftq/dlq.py:3-6 | A job is DEAD exactly when a DLQ entry carries it, that entry is the one its record names, and `dead = DLQ + late_successes + requeued`, `processed = results` |
| `Resend.ResentMoveIsHarmless` | src/ftq/scripts/retry.lua:17-32 | A retry or DLQ move that took effect, re-sent at any later point of a run and whatever the time then, changes only `lease_lost` |
| `Resend.ResentCommitIsHarmless` | src/ftq/scripts/commit.lua:28-38 | Any commit re-sent at any later point, whatever the time then, changes only `duplicates_suppressed` |
| `Resend.ResentEffectIsHarmless` | src/ftq/ledger.py:28-29 | A re-sent effect changes only counters |
| `Resend.RequeueActsIffDead` | src/ftq/scripts/requeue.lua:20-27 | A requeue changes something exactly when the job is DEAD at that moment |
| `Resend.MoveActsIffOwned` | src/ftq/scripts/dead.lua:33-37 | A retry or DLQ move, sent for the first time or again, changes more than counters exactly when its caller owns the entry at that moment |
| `Resend.RefusedMoveLandsIffOwned` | src/ftq/scripts/retry.lua:29-33 | The limit of re-sending: a retry or DLQ move refused with LEASE_LOST and re-sent at any later point of a run, whatever the time then, takes effect if and only if its caller owns the entry then |
| `Scenarios.RefusedRetryLands` | src/ftq/scripts/retry.lua:29-33 | A run of six steps, in which the clock never goes back: a retry is refused, its caller reclaims the entry, and the same call takes effect |
| `Retries.RetriesConserve` | src/ftq/scripts/retry.lua:63-72 | Conservation over every run: `retried = delayed + scheduled +` the retries that found an equal copy already waiting |
| `Retries.NoneMissingIff` | src/ftq/scripts/retry.lua:63-72 | So `retried = delayed + scheduled` exactly when no retry of the run ever found an equal copy waiting |
| `Scenarios.TwoRetriesCollapse` | src/ftq/scripts/retry.lua:63-72 | A run in which the retries of the two copies of a re-sent job, both stamped with the same millisecond, become one delayed member |
| `Retries.WaitsItsBackoff` | src/ftq/scripts/retry.lua:60-66 | In every run: no scheduler moves the member that a retry at `t` parked before `t + delay`, unless an equal retry parked it again |
| `Leases.LeaseStep` | src/ftq/scripts/reclaim.lua:47-70 | A pending entry changes owner only by a reclaim of an expired lease, and its delivery count rises by one only if that reclaim keeps it: not on heartbeats, not on put-backs |
| `Leases.BeatHoldsTheEntry` | src/ftq/scripts/heartbeat.lua:33-36 | In every run whose clock never goes back: after a beat of the owner at `t` no reclaim before `t + lease` claims the entry |
| `Passes.ClaimAllEffect` | src/ftq/scripts/reclaim.lua:50-70 | What a pass does to each claimed entry, kept or put back, and that it leaves every other entry alone |
| `Passes.KeptIff` | src/ftq/scripts/reclaim.lua:50-70 | A pass hands out every claimed entry but the suspects before which, in id order, suspects have used up the slots |
| `Passes.PutBackIsExactIff` | src/ftq/scripts/reclaim.lua:53-61 | A put-back leaves the lease as it was exactly when the caller already owned the entry and its idle time was exactly the lease; the count is always restored and the lease still run out |
| `Passes.PutBackChangesTheOwner` | src/ftq/scripts/reclaim.lua:53-61 | A pass that takes an entry from worker 0, hands it to nobody, and leaves it worker 1's |
| `Passes.SuspectsUseSlots` | src/ftq/scripts/reclaim.lua:53-67 | Suspects kept plus slots left are constant over a pass, so it never hands out more suspects than it has slots |
| `ReclaimAccounting.ReclaimsAreCounted` | src/ftq/scripts/reclaim.lua:68 | In every run `reclaims[k]` is the number of entries ever claimed up to count `k`, and each DLQ entry records how far its own entry got |
| `ReclaimMargin.ExcludingCrashy` | chaos/verifier.py:258-262 | The nested loops subtract one at each count from 2 to each crashy entry's last, drop zeros, and return the highest key or 1 |
| `ReclaimMargin.WhatIsLeft` | chaos/verifier.py:254-262 | In every run the difference at each count is the number of other entries that reached it, so it is never negative |
| `ReclaimMargin.HighestIsTrue` | chaos/verifier.py:271 | `max_delivery_excluding_crashy` is the highest count any other entry ever reached, and 1 if none was redelivered |
| `Backpressure.BoundedStep` | src/ftq/client.py:3-7 | An admitted enqueue leaves the depth at most at the high watermark, and no other step but a requeue raises it |
| `Backpressure.DepthIsBounded` | src/ftq/scripts/enqueue.lua:47-68 | In every run, with any number of producers, the depth is at most `high + requeued` |
| `Backpressure.RefusedUntilDrained` | src/ftq/scripts/enqueue.lua:53-68 | In every run, after a refusal every call that is no repeat is refused until one finds the depth below the low watermark, however low it was in between; a known key is answered with its job |
| `Backpressure.ReopensBelowLow` | src/ftq/scripts/enqueue.lua:53-55 | And the first call after a refusal that is no repeat and finds the depth below the low watermark is added, and the flag, set until then, is gone |
| `Backpressure.RepeatGetsTheOriginal` | src/ftq/client.py:86-93 | Until its key expires, a repeat enqueue adds nothing and is answered with the original job id, also when the queue is full |
| `RedisQueue.Store.Enqueue` | src/ftq/scripts/enqueue.lua:36-92 | The script's commands in place: reply and whole new state are those of the specification |
| `RedisQueue.Store.Commit` | src/ftq/scripts/commit.lua:32-86 | The same for the commit |
| `RedisQueue.Store.Heartbeat` | src/ftq/scripts/heartbeat.lua:27-38 | The same for the heartbeat, which checks ownership only |
| `RedisQueue.Store.Retry` | src/ftq/scripts/retry.lua:29-76 | The same for the retry |
| `RedisQueue.Store.DeadLetter` | src/ftq/scripts/dead.lua:33-93 | The same for the DLQ move |
| `RedisQueue.Store.Requeue` | src/ftq/scripts/requeue.lua:20-56 | The same for the requeue |
| `RedisQueue.Store.Apply` | src/ftq/scripts/ledger.lua:20-42 | The same for the ledger |
| `RedisQueue.Store.Schedule` | src/ftq/scripts/schedule.lua:27-35 | The loop that moves each due member, and its one count at the end, amount to moving them one at a time in order |
| `RedisQueue.Store.Reclaim` | src/ftq/scripts/reclaim.lua:39-79 | Claiming all at once and then sifting entry by entry leaves the PEL, histogram and reply of deciding each entry on its own |
| `RedisQueue.Store.Prune` | src/ftq/scripts/prune_consumers.lua:25-53 | The loop deletes exactly the idle consumers other than the caller that own nothing, and discards no pending entry |
| `StepEffects.AdmittedIff` | src/ftq/scripts/enqueue.lua:36-92 | A repeat changes nothing; any other enqueue is added exactly when the depth is below `low`, or the flag is not set and the depth is below `high`, and afterwards the flag is set exactly if it was refused; the new entry, the key and the refusal counters are as said and nothing else changes |
| `StepEffects.BeatRenewsIff` | src/ftq/scripts/heartbeat.lua:27-38 | A beat of the entry's owner sets its lease to run from now with the same count, and changes no other lease; anybody else's is LEASE_LOST and changes a counter only |
| `StepEffects.RetryParks` | src/ftq/scripts/retry.lua:29-76 | A retry by the owner of an unfinished job's entry takes the entry out and parks its job, with the next attempt's number, until exactly `now + delay`; a stranger's retry changes a counter only, and one of a job that has ended only drops the entry |
| `StepEffects.DeadBuries` | src/ftq/scripts/dead.lua:33-93 | A DLQ move by the owner of an unfinished job's entry appends one DLQ entry with the job's fields, delivery count, reason, error and attempts, and records the job as DEAD in it; otherwise as for a retry |
| `StepEffects.CommitDecides` | src/ftq/scripts/commit.lua:28-86 | DUPLICATE exactly for a job that has SUCCEEDED, LATE_SUCCESS exactly for a DEAD one, which leaves the DLQ, and COMMITTED otherwise; the entry goes in each case, and record, result and counters are as said |
| `StepEffects.EffectAppliesIff` | src/ftq/scripts/ledger.lua:20-42 | An effect is logged and its marker set exactly if the marker was not there |
| `StepEffects.RequeueRevivesIff` | src/ftq/scripts/requeue.lua:20-56 | A requeue of a DEAD job puts the fields that its DLQ entry kept back on the stream with attempt 0, and removes its record and that entry; any other requeue changes nothing |
| `StepEffects.PruneDropsIff` | src/ftq/scripts/prune_consumers.lua:25-53 | A consumer stays exactly if it is the caller, was active within the prune interval, or has an entry pending |
| `StepEffects.FetchReadsOldest` | src/ftq/worker.py:314-334 | A read hands out the oldest unread entries, `count` of them or all there are, each as a first delivery at that time |
| `StepEffects.ScheduleMovesDue` | src/ftq/scripts/schedule.lua:27-35 | The scheduler appends the members that are due, longest due first, `batch` of them or all; no other leaves the delayed set |
| `StepEffects.ReclaimHandsOutIff` | src/ftq/scripts/reclaim.lua:39-79 | After a reclaim each entry's lease is a fresh one with one delivery more if it was handed out, a run-out one of the caller with the old count if it was put back, and as before if it was not claimed |
| `StepEffects.SuspectIff` | src/ftq/config.py:288-294 | A suspect has at least `suspect_deliveries`, or is at a lower `max_deliveries`, and is never past `max_deliveries` |
| `Reaping.Reaper.Reclaim` | src/ftq/reaper.py:55-86 | The reply is complete: it lists, in id order, each scanned entry that the pass handed out, with its fields and new count and now under a fresh lease of the caller, and no other; every scanned entry that is no suspect is listed, at most `suspect_slots` suspects are, and if one is left out exactly that many; the cursor moves on and `more` says whether it wrapped |
| `Reaping.SweepReachesAll` | src/ftq/reaper.py:50-53 | However the PEL changes between calls, one cycle of the cursor claims every entry that stays expired |
| `CrashIsolation.ReclaimKeepsOne` | src/ftq/worker.py:290-312 | With the slots a worker asks for, a reclaim never leaves it running two suspects |
| `CrashIsolation.CompanionStep` | src/ftq/reaper.py:32-35 | The potential argument: an innocent entry's next count plus the pre-suspect crashes still to come never exceeds `1 + n*(t-1)` |
| `CrashIsolation.InnocentsAreIsolated` | src/ftq/worker.py:290-312 | In every run with `n` crashy jobs and `1 + n*(t-1) <= max_deliveries`, no other entry is delivered more than `1 + n*(t-1)` times, so none is dead-lettered unrun |
| `CrashIsolation.OneCrashyJob` | src/ftq/config.py:288-294 | With one crashy job no other entry exceeds the suspect threshold, whatever the settings with `max_deliveries >= 2` |
| `CrashRuns.MoveTracks` | src/ftq/worker.py:290-312 | Every step of the protocol, and every crash, keeps the fleet's invariant on the queue's own PEL, as long as workers beat for what they run and only for that, ask for the suspect slots they have left, and dispose only of what they run |
| `CrashRuns.InnocentsAreRun` | src/ftq/worker.py:401-409 | So in every run of the queue itself with such workers no entry but a crashy one is delivered more than `1 + n*(t-1)` times, and none is in the DLQ for its deliveries |
| `CrashRunsLimit.BoundBrokenInTheQueue` | src/ftq/config.py:288-294 | Past the condition a run of the queue breaks the bound: its steps are the scripts', its workers behave, and its clock never goes back |
| `CrashRunsLimit.IsolatedInTheQueueIff` | src/ftq/config.py:288-294 | The exact condition, of the queue's own runs, for `n` crashy jobs that fit below the high watermark |
| `CrashIsolationLimit.IsolatedIff` | src/ftq/config.py:288-294 | The exact condition: the bound holds in all runs if and only if `1 + n*(t-1) <= max_deliveries`; otherwise a run that breaks it is built |
| `Verifier.CheckNoLoss` | chaos/verifier.py:104-117 | I1 accepts exactly when every accepted job ended as its kind must and there was no late success; at most 20 violations are kept, and some exactly when it fails |
| `Verifier.CheckEffects` | chaos/verifier.py:121-139 | I2 accepts exactly when the effects log is the set of keys of SUCCEEDED accepted jobs with an effect, each once |
| `Verifier.CheckResults` | chaos/verifier.py:143-155 | I2b accepts exactly when the results log is the set of SUCCEEDED accepted jobs, each once |
| `Verifier.CheckDlq` | chaos/verifier.py:159-196 | I3 accepts exactly when the DLQ holds each job meant to die once and nothing else, with the right reasons and counts, and crashes stayed within bounds |
| `Verifier.DlqAgrees` | chaos/verifier.py:163-187 | The loop's questions about each job and the strays, put together, are that statement |
| `Verifier.CheckFaults` | chaos/verifier.py:225-234 | I4 accepts exactly when each of the eight minimums was reached, the three that the queue counts by the queue's own count |
| `Verifier.Verify` | chaos/verifier.py:60-264 | The run passes exactly when I1, I2, I2b, I3 and I5 hold and, if an orchestrator counted, I4 and W1 |
| `DrainedRuns.DrainedRunPasses` | chaos/verifier.py:83-216 | Every drained run in which each job ended as its kind must, with no late success, passes I1, I2, I2b, I3's membership and I5, whatever its workers report |
| `Policy.DlqTellsTrue` | src/ftq/worker.py:626-646 | In every run whose workers decide as the source's do, every copy of a job has an attempt left, a DLQ entry for its attempts records exactly `max_attempts`, and one for its deliveries more than `max_deliveries` |
| `DrainedRuns.DrainedRunVerifies` | chaos/verifier.py:79-264 | If besides each DLQ move reports what its job's kind dies of, such a drained run passes the verifier, without an orchestrator's counts |
| `WorkerSlots.StepFits` | src/ftq/worker.py:257-288 | Every event keeps runs, orphans and reserved slots within `concurrency`, and jobs in flight too |
| `WorkerSlots.OfferFillsUp` | src/ftq/worker.py:262-297 | The loop offers every slot that no job and no orphan holds, and asks for one suspect exactly when it has none |
| `WorkerSlots.SlotsBalance` | src/ftq/worker.py:262-288 | The free slots change by exactly one for each job started or ended and each orphan left behind or stopped, so every slot comes back |
| `WorkerSlots.ConnectionsSuffice` | src/ftq/config.py:296-309 | The Redis calls outstanding at once are at most `2*concurrency + 2`, which the connection pool holds |
| `WorkerSlots.WithinLimits` | src/ftq/worker.py:681-689 | In every interleaving: jobs in flight and busy threads within `concurrency`, at most one suspect, connections within the pool |
| `WorkerObjects.Worker.OfferSlots` | src/ftq/worker.py:262-272 | The fetch loop's offer is the step of the slot machine, counting orphans as taken |
| `WorkerObjects.Worker.StartAll` | src/ftq/worker.py:300-312 | Starting every claimed entry, and noting the suspects, is the reply step |
| `WorkerObjects.Worker.StopRun` | src/ftq/worker.py:546-588 | Stopping a timed-out run is the time-out step: a thread or a stubborn coroutine becomes an orphan, a process run does not |
| `ProcessPool.NobodyPaysForAReset` | src/ftq/worker.py:522-544 | In every run at most `process_pool_size` runs hold a slot, a clock runs only in a pool that was fully ready, and a run that failed for its pool's sake was in one that broke by itself |
| `ProcessPool.BystandersGoOn` | src/ftq/worker.py:528-537 | A run whose pool was reset goes on as the same attempt, out of that pool and on a fresh clock, unless it had finished, its own time was up, or the next pool failed to start |
| `ProcessPool.NoRunIsLost` | src/ftq/worker.py:522-544 | In every run of the pool's events each process run is under way from its start until it has ended, whatever happened to its pools |
| `ProcessPool.LeftForGood` | src/ftq/worker.py:537-544 | A pool that a run found broken, or that was reset for a time-out, is never the current one again |
| `ProcessPool.ClockStartsInside` | src/ftq/worker.py:522-527 | What is on a run's clock is one unbroken stay in one ready pool: waiting for pools to start is not counted, nor earlier stays |
| `ProcessPool.AcquireFailsIff` | src/ftq/worker.py:691-720 | A process run fails before it is inside any pool exactly when some pool of this worker has failed to start before |
| `ProcessPool.FailedStartIsReached` | src/ftq/worker.py:524-544 | A worker gets there: its first pool fails to start, and its second run fails at once |
| `ProcessPool.FailedStartIsForever` | src/ftq/worker.py:691-720 | Once a pool has failed to start it stays the current one over the rest of any run |
| `WorkerObjects.ProcessRuns.ReadyProcesses` | src/ftq/worker.py:701-720 | Creating or joining the current pool is the entry step |
| `WorkerObjects.ProcessRuns.TimeOut` | src/ftq/worker.py:590-602 | A time-out forgets and marks the pool and ends only the run whose time was up |
| `WorkerObjects.ProcessRuns.Broken` | src/ftq/worker.py:530-544 | A broken pool restarts the run if this worker reset it, and fails it otherwise |
| `EnqueueMany.Client.EnqueueMany` | src/ftq/client.py:97-148 | Whatever other clients do between the calls: the batch's calls are those of the procedure, run on the queue as it was at each; ids come in input order, or QueueFull with None exactly at the inputs without an answer and the last refusal's depth; every counter grows by what the replies say; nothing is sent later than a sleep's slack past the deadline, block mode gives up only after it, and the rounds are bounded by the poll interval |
| `EnqueueMany.StepIsGap` | src/ftq/client.py:97-106 | Every protocol step is a turn of other clients that the batch allows for |
| `EnqueueMany.Client.Round` | src/ftq/client.py:115-128 | A round sends every outstanding input, in order, and its replies leave exactly the refused ones outstanding |
| `EnqueueMany.SentUntilAnswered` | src/ftq/client.py:107-128 | Each input is sent only while it has no answer, and every time as the same job with the same id |
| `EnqueueMany.AddedInOneEntry` | src/ftq/client.py:150-157 | An input that was added is in exactly one of the entries that the batch appended, alone, under the id it was first sent with |
| `EnqueueMany.LogTallied` | src/ftq/client.py:130-143 | Each refusal is counted once: as blocked or rejected in the first round, as rejected again if the block gives up |
| `EnqueueMany.AloneCounts` | src/ftq/client.py:142 | With no other clients the queue's own `rejected` and `blocked` have moved by exactly those |
| `EnqueueMany.EachCountedOnce` | src/ftq/client.py:56-65 | At every point of a batch each input is accepted, a duplicate, or outstanding, once, and the outstanding ones are those without an answer |
| `EnqueueMany.EachEndsOnce` | src/ftq/client.py:56-65 | When a batch is over, `accepted + duplicates + rejected` have grown by the number of its inputs |
| `DlqSweep.StepIsGap` | src/ftq/dlq.py:67-71 | Every protocol step is interference the sweep allows for: it appends at the end of the DLQ or removes, and keeps DLQ and records in agreement |
| `DlqSweep.RequeueAll` | src/ftq/dlq.py:64-85 | With others acting before every one of its calls the sweep ends; its calls are those of the procedure, run on the queue as it was at each; it returns the number of requeues granted; and nothing is left of what the DLQ held when it began |
| `DlqSweep.SweepLeavesNothing` | src/ftq/dlq.py:64-85 | Of every such log: nothing that was in the DLQ at first is left, and it asked at most once about each of those entries, in order, and about nothing else |
| `DlqSweep.VisitedIfStillThere` | src/ftq/dlq.py:72-84 | An entry is asked about exactly if it was still there when the page that covers it was read |
| `DlqSweep.SweepTotal` | src/ftq/dlq.py:66-85 | The total is at most what the DLQ held; alone it is exactly that, the DLQ is empty, and every dead job is back on the stream once, in order, with attempt 0 |
| `DlqSweep.SweepOne` | src/ftq/dlq.py:51-61 | Undisturbed, each visited entry's job is DEAD when its turn comes and is revived once |
| `FaultPlan.Plan` | chaos/faults.py:77-112 | For every outcome of the draws the planner ends; up to `span` there is a slot at most a gap after the last, and at each a fault starts unless no worker may be picked; no worker has two faults at once, no more than `max(1, workers // 2)` workers have one, and every kind is planned at least four times |
| `FaultPlan.FewAtOnce` | chaos/faults.py:97-108 | At any instant the active faults' workers were all busy when the latest of them was placed, so at most one fault, or half of the workers, is active after rounding too |
| `FaultPlan.PlansDoNotOverlap` | chaos/faults.py:46-48 | Two faults of one worker are the settling time apart |
| `FaultPlan.DrawDuration` | chaos/faults.py:66-74 | Durations and latencies lie in the kind's ranges |
| `Percentiles.Percentile` | bench/analysis.py:54-67 | The value returned is one of the histogram, at least `q` percent of all are at most it, and less than `q` percent are below it; it is the `ceil(q/100*N)`-th in order; an empty histogram and a bad `q` are errors |
| `Percentiles.PercentileIsUnique` | bench/analysis.py:54-67 | Only one value has such counts |
| `Percentiles.PercentileExists` | bench/analysis.py:61-66 | For every `q` in (0, 100] and values in any order there is one: it is at the rank in the sorted list |
| `Percentiles.Histogram` | bench/analysis.py:86-97 | The buckets are the multiset of the values' edges, with the slack of 1e-9 and the edges rounded to six digits |
| `Percentiles.Merge` | bench/analysis.py:100-104 | Merged histograms are the histogram of all the values together |
| `Percentiles.EdgeCoversIff` | bench/analysis.py:89-96 | A value is not above its edge exactly when it is not within the slack above an edge, for buckets of whole millionths |
| `Percentiles.JustAboveAnEdge` | bench/analysis.py:95 | 0.10000000001 is counted under 0.1 |
| `Percentiles.EdgeWithinBucket` | bench/analysis.py:95-96 | For buckets of whole millionths a value is counted under a multiple of the bucket, at most the slack below the value and less than a bucket above it |
| `Percentiles.BucketedPercentile` | bench/analysis.py:87-92 | The percentile of the edges, by the same counts, is the edge of the true percentile: within the slack below it and less than a bucket above it, and not below it exactly when the true one is clear of the slack, for buckets of whole millionths; for others there is a rounding besides |
| `Percentiles.ReportedPercentile` | bench/analysis.py:54-104 | The same for bucketing several lists, merging, and reading a percentile |
| `Lifetime.EndsInTime` | src/ftq/config.py:273-286 | In every timed life of a copy, each delivery is over by `lifetime_bound` |
| `Lifetime.BoundIsReached` | src/ftq/config.py:284-286 | Some life ends exactly one backoff short of the bound, so it is the worst case |
| `Lifetime.AcceptedTtlCovers` | src/ftq/config.py:316-326 | A key written by any delivery, with an accepted TTL, outlives every delivery of every copy enqueued by then |
| `Expiry.OneResultIff` | src/ftq/scripts/commit.lua:61-68 | In every run of the queue in which SUCCEEDED records expire at any time: no job has two results if and only if no commit came after its job's record had expired |
| `Expiry.OneEffectIff` | src/ftq/scripts/ledger.lua:20-33 | The same for effects and the markers of the ledger |
| `Expiry.ResultHasEffect` | src/ftq/ledger.py:25-38 | Whoever has succeeded has had its effect logged, whatever has expired since |
| `KeyLives.OneResultInTime` | src/ftq/config.py:316-326 | With an accepted TTL, calls within the timed lives of copies, and re-sends within nine tenths of the margin: the results log holds each job once if it has succeeded, expired or not, and not at all otherwise |
| `KeyLives.OneEffectInTime` | src/ftq/config.py:316-326 | The same for effects, if jobs are also requeued within that time of their effects |
| `LateRequeue.RequeueRepeatsEffect` | src/ftq/scripts/requeue.lua:14-15 | A run in which every call comes in time and every key lasts for its TTL, and the effect of a dead job that is requeued after its marker expired happens twice |

## Left out

- Redis itself: XREADGROUP, XAUTOCLAIM and ZRANGE are specified by what they may answer; how Redis walks its structures, persistence and replication are not modelled.
- Pending ids whose stream data vanished outside ftq: the model allows for XAUTOCLAIM dropping them but not for XCLAIM dropping them in a heartbeat; in runs of the protocol there are none.
- Malformed entries without a job id: `worker.py` invents an `entry:` id for their DLQ move; here an entry always names its job.
- Expiry of `done` and ledger keys: modelled in `Expiry` for results and effects; the other guarantees are proved with it switched off (TTL 0), as chaos runs have it. Idempotency keys may expire at any time everywhere.
- JSON, UUIDs and field encoding: job ids, payload bodies, results and errors are opaque values that are only compared or copied; timestamps in log entries are dropped.
- Which failures become retries and which go to the DLQ, and the backoff jitter: the protocol lets a worker choose either at any time, so its guarantees hold for every such policy; only `Policy` and `DrainedRuns` look at the source's.
- Handlers: a run ends, fails, hangs or takes its worker down at will; that a success follows its ledger call is an assumption on handlers with an effect.
- Connection errors and client-side retries: a call may be repeated or its reply lost; exceptions on the way are not modelled.
- The gap of a loop turn between a process pool turning ready and its waiting runs entering it, and runs abandoned at shutdown inside the pool.
- CrashRuns.InnocentsAreRun: covers redeliveries caused by crashes of the crashy jobs alone; faults that expire live leases are outside it, as they are outside ADR-035. That the worker's fetch loop asks for the suspect slots it has left is proved apart, of `WorkerSlots`.
- DrainedRuns.DrainedRunVerifies: assumes that each job ended as its kind must and that every DLQ move reports its kind's reason and error; that a poison job is never dead-lettered for its deliveries instead is thereby assumed away. I4, W1 and the bound on crashes count what an orchestrator saw and are not derived from runs.
- Percentiles.Histogram: exact rationals; the rounding errors of floating point, which the slack is for, are not modelled.
- FaultPlan.Plan: rounding to milliseconds may go either way, and the gap's lower end must be positive, without which the loop need not end.
- Lifetime.EndsInTime: time spent waiting undelivered is zero, as the setting's documentation requires of it.
- KeyLives.OneResultInTime: that every call comes within a timed life of a copy born in the run is a condition on the run, as the setting's documentation has it; it is not derived from when workers fetch, reclaim and retry.
- CrashRunsLimit.IsolatedInTheQueueIff: the failing run needs all `n + 1` jobs on the stream at once, so `n` must be below the high watermark.
- Verifier: the report's details and the wording of violations; a violation here names only whom it is about.
- DLQ listing, CLI, logging, metrics output, backoff formula, mix counts, load generation, the injector and supervisor, and infrastructure code.
