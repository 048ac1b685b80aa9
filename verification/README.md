# Hookly: a verified model of its delivery and scheduling logic

Hookly delivers webhooks. A published event becomes delivery jobs in Postgres;
jobs travel through Redis Streams to workers, which call the subscriber's
endpoint, record the outcome and retry with backoff. A sharded scheduler fires
events on cron schedules. This project models the parts of the system that are
protocols rather than CRUD, and proves what they keep over every run.

Check it with `dafny verify dfyconfig.toml`.

How the model is laid out:

- Postgres rows and Redis keys are plain state. One SQL statement, Redis command
  or Lua script is one atomic step. A theorem about a protocol is about *every*
  finite interleaving of such steps: `Legal(INIT, steps)` says that a run is
  possible, and `Exec(INIT, steps)` is where it leads.
- Code that changes things in place is also given in its own form: classes
  (`RedisQueue`, `Repository`, `Limiter`, `Breaker`, `SchedulerRedis`, `Database`,
  `Router`, `LockStore`, `EventService`, `Endpoint`) and methods with loops, each
  proved against the functions and predicates that the theorems are about.
- Clocks, random choices and the outcomes of HTTP calls are parameters, so each
  theorem covers every value of them.
- Where a protocol's promise can be broken, a predicate `Spoils(s, step)` gives, for
  each kind of step, a condition on the state before it; a run without such a step
  is `Clean`. Two theorems go with it: clean runs keep the promise, and from every
  spoiling step there is a clean continuation that breaks it.

| module | models |
|---|---|
| `Wrappers`, `Jobs`, `Shards`, `Redis`, `Arithmetic` | names, statuses and value types the others share; facts about products and quotients |
| `Streams` | a stream with its consumer group, and the queue operations |
| `StreamSet` | the scheduling set and the trimmers, all workers interleaved |
| `Pipeline` | jobs, stream entries and every process that moves them, interleaved |
| `Delivery` | the life of one job: attempts, retries, backoff |
| `Worker` | process_one, the outbox pass, publication and manual retry |
| `ClaimFairness` | least-recently-claimed stream selection |
| `RateLimiter`, `CircuitBreaker` | the endpoint guards, over unbounded histories |
| `ShardDiscovery`, `Fires`, `Reconcile`, `ShardRouting`, `Scheduler` | the sharded cron scheduler |
| `Idempotency` | at-most-once event creation |
| `EventSchema` | property definitions compiled to JSON Schema |
| `Secrets`, `CursorWalk`, `NanoId` | secret rotation, paged listing, time-ordered ids |

## What turned out differently from what the code says it does

Each of these is shown by a concrete run or input, and the exact condition under
which the promise holds is a theorem of its own.

- Stranded jobs. A job is lost for good when it is marked after a worker has already
  dealt with its entry (`Pipeline.SplitMarkStrands`), when the outcome's UPDATE fails
  and the entry is acknowledged all the same (`Pipeline.LostRecordStrands`), when the
  endpoint is paused or without a live secret as the worker looks
  (`Pipeline.GoneEndpointStrands`), and when a raced trim drops the entry of a worker
  that then crashes (`Pipeline.RacedTrimStrands`). A step can strand a job exactly
  when it is one of these four and takes away the last entry that carries the job
  (`Pipeline.StrandsExactlyWhenSpoiling`).
- Trimming can drop a pending entry (`StreamSet.GapIsReachable`): exactly when an
  entry handed out between XPENDING and XINFO, older than the point of the cut, is
  still there and still pending (`StreamSet.TrimLosesExactly`).
- Double fires. A schedule can fire twice for one due time when an API call computes
  a next time and writes its score only after that time has been fired
  (`Fires.SlowUpdateFiresTwice`), when the reconciler adds a score it read before a
  fire (`Fires.SlowReconcilerFiresTwice`), and when a worker dies before it re-scores
  (`Fires.LostRescoreFiresTwice`); in no other way
  (`Fires.SafeExactlyWhenNotSpoiling`).
- Two workers on one job at once can turn a delivered job back into a retrying one
  (`Delivery.OverlapUndoesSuccess`). A success lasts exactly when no worker that had
  fetched the job before it writes a failure or a deferral after it
  (`Delivery.SuccessLastsExactlyWhen`), and attempts are numbered 1, 2, ... exactly
  when no worker writes a result after another's since its own fetch
  (`Delivery.NumberedExactlyWhen`).
- A shard drops out of discovery after a completed API call when two bumps fall into
  one millisecond (`ShardDiscovery.EqualBumpTimesLoseAShard`), and when a later bump
  carries an earlier time, as the reconciler's may. The script passes over exactly the
  bumps at or below the time the worker read (`ShardDiscovery.RemovesExactlyWhen`).
- The reconciler's one-second lookback is enough exactly when every commit takes less
  than a second (`Reconcile.LookbackIsExact`).
- Between a restore's row and its ZINCRBY the routing score is too low
  (`ShardRouting.RestoreInFlightUndercounts`), by at most the restores under way;
  `ShardRouting.ScoreNeverUndercounts` has the exact balance.
- A stream that empties and is registered again goes to the head of the claim order,
  so fairness holds while the claimed stream stays registered
  (`ClaimFairness.ClaimIsFair`), and in no state without that
  (`ClaimFairness.ReRegisteringJumpsTheQueue`).
- The configuration calls the breaker's window sliding; the counter's window is
  fixed. `threshold` failures within one window length are sure to trip it only
  for thresholds up to 2; max(T, 2T - 2) failures always are, and that bound is
  sharp (`CircuitBreaker.EnoughFailuresTrip`, `CircuitBreaker.EnoughIsSharp`).
- The backoff's product overflows in some run exactly when 62 or more attempts are
  configured (`Delivery.BackoffOverflowsExactlyFrom62`).
- A definition with a nullable null or a repeated `required` name compiles to an
  invalid schema, and then every payload passes (`EventSchema.VerdictIsExact`).
- Every rotation renews the grace period of *all* secrets that are still alive, so
  an old secret can outlive any number of rotations
  (`Secrets.AnOldSecretCanBeKeptAlive`); `Secrets.SecretsLiveOnByRenewal` says exactly
  how long.
- A client that follows `next_cursor` never sees the rows at page boundaries, so
  it sees everything exactly when the listing fits on one page
  (`CursorWalk.WalkIsCompleteIffOnePage`).

## Model

| member | source | states |
|---|---|---|
| `Streams.RedisQueue.EnsureConsumerGroup` | src/queue/mod.rs:36-57 | an absent stream is created empty with its group; a present one is untouched |
| `Streams.RedisQueue.Enqueue` | src/queue/mod.rs:60-74 | the job gets an entry with an id above every earlier one, in a stream that is created if it is absent; nothing else changes |
| `Streams.RedisQueue.RegisterStream` | src/queue/mod.rs:169-181 | a stream joins the scheduling set at score 0 and keeps its score if it is there |
| `Streams.RedisQueue.ClaimNextStream` | src/queue/mod.rs:133-164 | a lowest-scored stream is returned and re-scored to now; None exactly when nothing is scheduled |
| `Streams.RedisQueue.RemoveStreamIfEmpty` | src/queue/mod.rs:187-220 | unscheduled exactly when it holds no entry or does not exist |
| `Streams.RedisQueue.XReadGroupSingle` | src/queue/mod.rs:308-346 | hands out undelivered entries with their jobs, at most `count`, and fewer only when that is all; what is left behind is newer than all that is taken; the taken ones are pending and not read again; none exactly when nothing is undelivered |
| `Streams.ReadHasEnd` | src/queue/mod.rs:308-346 | a stream with an undelivered entry always has a position where a read of `count` ends |
| `Streams.RedisQueue.ConsumerTurn` | src/worker/consumer.rs:50-75 | one turn of a consumer: claims a lowest stream, hands out its oldest undelivered entries, at most a batch, and unschedules the stream exactly when it holds no entry |
| `Streams.RedisQueue.Ack` | src/queue/mod.rs:77-89 | removes the id from the pending list and nothing else |
| `Streams.RedisQueue.SafeTrimId` | src/queue/mod.rs:485-505 | the oldest pending id, or the last delivered id when nothing is pending; None without a group |
| `Streams.RedisQueue.XTrimSafe` | src/queue/mod.rs:412-441 | with both reads in one step: keeps every undelivered and every pending entry and the last delivered one; only the oldest entries go, each older than every pending one |
| `Streams.RedisQueue.TrimPass` | src/worker/trim.rs:21-25 | the same for every scheduled stream in one pass, other streams untouched |
| `StreamSet.TrimIsSafe` | src/queue/mod.rs:412-441 | in every interleaving a trim removes no undelivered entry and not the last delivered one, and, unless a read slipped between its two reads, no pending entry, however stale its cutoff |
| `StreamSet.TrimLosesExactly` | src/queue/mod.rs:485-505 | over every run a trim loses a pending entry exactly when an entry handed out in the gap, older than the cut, is still in the stream and still pending; the cutoff is the last entry handed out in the gap |
| `StreamSet.GapIsReachable` | src/queue/mod.rs:485-549 | a run from the start, with two reads of one entry each in the gap, that loses a pending entry |
| `StreamSet.NonEmptyStaysScheduled` | src/queue/mod.rs:133-220 | in every interleaving a non-empty stream is scheduled or has a publisher between XADD and registration |
| `StreamSet.DeliveredNeverLeaves` | src/worker/consumer.rs:60-75 | once an entry was delivered, the last delivered entry stays, the stream never empties, and it never leaves the scheduling set |
| `Pipeline.NoJobIsStranded` | src/worker/consumer.rs:119-303 | in every clean interleaving of publishers, fires, outbox, workers, crashes, reclaims, trims and manual retries, with XADD and mark, and XPENDING, XINFO and XTRIM, all steps of their own: each deliverable job is unmarked or has an entry that is undelivered or pending and not resolved by anyone who holds it |
| `Pipeline.StrandsExactlyWhenSpoiling` | src/worker/consumer.rs:119-303 | after every clean run, a step is one that some clean continuation turns into a stranded job exactly when it spoils: it marks a row that nothing carries any more, gives up or loses the outcome of the last entry that carries a marked job, or trims all that do |
| `Pipeline.ReliableRunsStrandNothing` | src/features/events/service.rs:150-176 | no job is stranded when outcomes are written, endpoints stay live, each row is marked before its entry is dealt with, and no read slips between XPENDING and XINFO |
| `Pipeline.StrandedIsForever` | src/features/delivery/repository.rs:255-280 | no step of any process, spoiling or not, changes a stranded job again |
| `Pipeline.SplitMarkStrands` | src/features/events/service.rs:150-176 | a run that strands a job by a deferral between XADD and the mark, with no other spoiling step |
| `Pipeline.LostRecordStrands` | src/worker/consumer.rs:269-302 | a run that strands a job by one failed outcome UPDATE, with no other spoiling step |
| `Pipeline.GoneEndpointStrands` | src/worker/consumer.rs:129-141 | a run that strands a job by one look at an endpoint that is not live, with no other spoiling step |
| `Pipeline.RacedTrimStrands` | src/queue/mod.rs:485-505 | a run that strands a job by one raced trim and a crash, with no other spoiling step |
| `ClaimFairness.ClaimIsFair` | src/queue/mod.rs:133-181 | between two claims of a stream that stays registered, every other stream registered throughout is claimed |
| `ClaimFairness.ReRegisteringJumpsTheQueue` | src/queue/mod.rs:169-220 | in every state in which a stream is next: removed and registered again after its claim, it is claimed again before any other |
| `ClaimFairness.NoRepeatWithinARound` | src/queue/mod.rs:133-164 | two claims of one stream are at least as many claims apart as there are streams |
| `ClaimFairness.ARoundIsAPermutation` | src/queue/mod.rs:133-164 | n claims over n fixed streams claim each exactly once |
| `RateLimiter.Limiter.TryAcquire` | src/worker/ratelimit.rs:42-74 | a grant is below the limit and adds one to the counter of its own clock minute, which expires after 90 s; a denial changes nothing; a limit below one denies all and changes no count |
| `RateLimiter.Limiter.SetBlocked` | src/worker/ratelimit.rs:78-93 | the block key expires after the given seconds; zero seconds set nothing |
| `RateLimiter.Limiter.BlockedRemainingSecs` | src/worker/ratelimit.rs:19-37 | a positive number of seconds, only while a block is live |
| `RateLimiter.LimiterIsExact` | src/worker/ratelimit.rs:42-74 | after any run the counter equals the grants with the same `at / 60_000`, never exceeds the limit, and denial happens exactly when the limit is used up; so the 90 s expiry never cuts a minute short |
| `RateLimiter.WindowHoldsTwiceTheLimit` | src/worker/ratelimit.rs:8-74 | any 60 s, aligned or not, hold at most twice the limit |
| `RateLimiter.TwiceTheLimitIsReached` | src/worker/ratelimit.rs:8-74 | for every limit, a run that reaches twice the limit within 60 s |
| `RateLimiter.DeferralLandsInALaterMinute` | src/worker/consumer.rs:181-200 | a job over its limit is retried in a later minute than it was denied in, the very next one when the clock is read once |
| `CircuitBreaker.Breaker.RecordFailure` | src/worker/circuitbreaker.rs:37-71 | counts within the window of the counter's first failure and says whether the threshold is reached |
| `CircuitBreaker.Breaker.OpenCircuit` | src/worker/circuitbreaker.rs:73-89 | the open key is set and runs out one cooldown from now; the counter is untouched |
| `CircuitBreaker.Breaker.ResetCircuit` | src/worker/circuitbreaker.rs:91-104 | both keys gone |
| `CircuitBreaker.Breaker.OpenRemainingSecs` | src/worker/circuitbreaker.rs:14-35 | Some exactly while the open key has half a second or more to run, and then its rounded seconds |
| `CircuitBreaker.TripsAreJustified` | src/worker/circuitbreaker.rs:37-71 | in every run a trip ends at least `threshold` failures within one window with no reset among them |
| `CircuitBreaker.OpenMeansRecentTrip` | src/worker/circuitbreaker.rs:14-89 | an open reading means such a trip opened the circuit less than a cooldown ago, with no success since |
| `CircuitBreaker.ReadsOpenExactly` | src/worker/circuitbreaker.rs:14-104 | over every run the circuit reads open at `u` exactly when the log has an opening at some `t` with no reset after it and `u + 500 <= t + cooldown` |
| `CircuitBreaker.EnoughFailuresTrip` | src/worker/circuitbreaker.rs:37-71 | max(T, 2T - 2) failures inside less than one window with no success trip, from every reachable state |
| `CircuitBreaker.EnoughIsSharp` | src/worker/circuitbreaker.rs:37-71 | for every T >= 3, a run where one failure fewer does not |
| `Delivery.BackoffFits` | src/worker/consumer.rs:277-278 | 30 * 2^attempt fits 64 bits exactly up to attempt 59 |
| `Delivery.BackoffOverflowsExactlyFrom62` | src/worker/consumer.rs:275-278 | some run computes a product that does not fit 64 bits exactly when 62 or more attempts are configured |
| `Delivery.BackoffSchedule` | src/worker/consumer.rs:277-278 | n retries wait 30 * (2^n - 1) s in all for n <= 7 and 3810 + 3600 * (n - 7) s beyond |
| `Delivery.AttemptsAreAccounted` | src/worker/consumer.rs:253-302 | over every run: attempt rows are numbered exactly 1..attempt and only the last can be a success; attempt equals the HTTP calls made and is at most max_attempts (at least one) plus manual retries, with equality for a failed job; the waits are the schedule's |
| `Delivery.AttemptCountsCalls` | src/features/delivery/repository.rs:148-218 | from any state, attempt grows by exactly the HTTP calls: deferrals and resets never change it |
| `Delivery.CreationIsKept` | src/features/delivery/repository.rs:32-54 | over every run: a job made by `Create(id, e, st, m, t)` keeps endpoint e, stream st, budget m and creation time t, has an attempt for each call since and none before the first, and never has more than max(1, m) attempts plus its manual retries |
| `Delivery.SuccessIsFinal` | src/features/delivery/repository.rs:73-111 | after success no run changes status or attempt, adds a row or makes a call |
| `Delivery.SuccessLastsExactlyWhen` | src/worker/consumer.rs:253-302 | over every run of fetches and writes by any number of workers: a success lasts exactly when no worker that had fetched the job before it writes a failure or a deferral after it |
| `Delivery.NumberedExactlyWhen` | src/worker/consumer.rs:253-302 | over every run of fetches and writes by any number of workers: attempt is the number of results written, and the rows are numbered 1..attempt exactly when no worker writes a result after another worker's write of that job since its own fetch |
| `Delivery.OverlapUndoesSuccess` | src/worker/consumer.rs:253-302 | two workers that both fetched a job: when the first delivers and the second is to retry, the job is due again and an attempt number repeats |
| `Worker.Repository.CreateJob` | src/features/delivery/repository.rs:32-54 | a pending, unmarked row with no attempts, each value in its own column, listed for the outbox exactly when it is more than 5 s old |
| `Worker.Repository.MarkJobEnqueued` | src/features/delivery/repository.rs:56-63 | the row is marked, whatever its status; a missing row is no error |
| `Worker.Repository.GetJobForDelivery` | src/features/delivery/repository.rs:73-111 | the row exactly when the job is pending or retrying and the endpoint is active, not deleted and has a usable secret; with a secret that has no expiry, or, when all expire, one that expires first |
| `Worker.Repository.InsertAttempt` | src/features/delivery/repository.rs:116-145 | one more attempt row |
| `Worker.Repository.DeferJob` | src/features/delivery/repository.rs:176-194 | retrying, attempt unchanged, listed for the outbox exactly from the given time on; a missing row is no error |
| `Worker.Repository.CompleteJob` | src/features/delivery/repository.rs:148-157 | success, attempt one up, all else unchanged; a missing row is no error |
| `Worker.Repository.FailJob` | src/features/delivery/repository.rs:160-169 | failed, attempt one up, all else unchanged; a missing row is no error |
| `Worker.Repository.ScheduleRetry` | src/features/delivery/repository.rs:200-219 | retrying at the given time, unmarked, attempt one up; a missing row is no error |
| `Worker.Repository.ResetJobForRetry` | src/features/delivery/repository.rs:226-242 | back to pending, unmarked and with its attempts, exactly when it was failed |
| `Worker.ListedExactlyWhenDue` | src/features/delivery/repository.rs:255-280 | after a failed call at `now` with n earlier attempts and tries left a job is listed for the outbox exactly from now + min(30 * 2^n, 3600) s on; a deferred one exactly from the time it was deferred to; a new unmarked one exactly when more than 5 s old; a delivered or exhausted one never |
| `Worker.GuardsInOrder` | src/worker/consumer.rs:149-200 | what the guards answer, in numbers: a block, then an open circuit, with half a second or more to run postpones to its end in whole seconds; a used-up limit to the next minute; else none |
| `Worker.VerdictMeans` | src/worker/consumer.rs:129-200 | skipped exactly when the job is not pending or retrying, the endpoint is inactive or deleted, or no secret is active and unexpired; unread exactly when the fetch fails; otherwise the guards decide |
| `Worker.GuardsLookAhead` | src/worker/consumer.rs:149-200 | every deferral is at least a second ahead, and one for the rate limit in the next minute |
| `Worker.CheckGuards` | src/worker/consumer.rs:149-200 | blocked, then circuit, then limit, each with its time in numbers; the limiter is asked only when the first two pass; a slot of the minute is used exactly when all three pass |
| `Worker.RecordHealth` | src/worker/consumer.rs:226-251 | a timeout, a missing answer or a status from 500 on adds one failure, and one opening for the cooldown exactly when it trips; a refusal with a status below 500 changes nothing; a delivery leaves neither key |
| `Worker.RecordOutcome` | src/worker/consumer.rs:253-300 | one attempt row, and the job row decided from the row as it was fetched and written over whatever the row is now: delivered, failed, or listed again exactly from now + min(30 * 2^n, 3600) s on; no other row or column changes |
| `Worker.Conclude` | src/worker/consumer.rs:211-300 | the same; and exactly a 429 blocks the endpoint, for its Retry-After or 60 s |
| `Worker.ProcessOne` | src/worker/consumer.rs:119-303 | the verdict follows from the stores as they were; job tables, streams, limiter counters, blocks and breaker end up as that verdict says, the row after a call as in `RecordOutcome`; acknowledged on every path except a failed fetch |
| `Worker.Publish` | src/worker/outbox.rs:55-67 | a new undelivered entry, then a scheduled stream and a mark, each of which may fail by itself; nothing at all when XADD fails |
| `Worker.EnqueueDelivery` | src/features/events/service.rs:150-176 | a new job row with each value in its own column, or nothing when that fails; left to the outbox, from 5 s on, exactly when XADD or the mark failed; an entry exactly when XADD worked; scheduled at 0, if it was not, when the registration worked |
| `Worker.RetryDeliveryJob` | src/features/delivery/handlers.rs:18-55 | queued exactly for failed jobs, with an entry and a scheduled stream unless those writes fail; not-found and conflict otherwise, with nothing changed |
| `Worker.OutboxLoop` | src/worker/outbox.rs:54-68 | exactly the listed jobs whose XADD worked get a mark and one new undelivered entry each, in their own streams, and exactly those streams are scheduled; no other entry, score or row changes |
| `Worker.OutboxPass` | src/worker/outbox.rs:37-68 | the same for what list_unqueued returned, and when all went through and the list was not cut at 500, no job is due any more |
| `Worker.PipelineFollowsTheTable` | src/features/delivery/repository.rs:32-242 | every step of the job table is, on status, mark and stream, a step of the `Pipeline` machine, so its theorems are about these rows |
| `ShardDiscovery.RemovalIsRaceSafe` | src/scheduler/shard.rs:99-159 | when bump times increase, a shard is removed only by a worker whose poll came after every bump, and that poll found none of the shard's schedules due |
| `ShardDiscovery.RemovesExactlyWhen` | src/scheduler/shard.rs:15-22 | for arbitrary bump times: with no removal since the score was read, the script removes the shard exactly when every bump since carries a time at or below that score; after a removal, exactly when some later bump carries the score and none a later time |
| `ShardDiscovery.RemovalPassesOverExactlyEqualBumps` | src/scheduler/shard.rs:15-22 | when bump times do not go back, the script removes the shard exactly when it is there and every bump since the score was read carries that very time |
| `ShardDiscovery.EqualBumpTimesLoseAShard` | src/features/schedules/service.rs:493-507 | with bump times that do not go back and one clock, a run that removes a shard bumped after the poll |
| `Fires.OneWorkerPerShard` | src/scheduler/shard.rs:113-129 | with live lock holds under 30 s, in every run, worker deaths included, at most one worker is at work on a shard |
| `Fires.ReleaseFreesItsShard` | src/scheduler/shard.rs:26-32 | over every run, with live lock holds under 30 s, a worker's release makes its own shard free to lock and no other |
| `Fires.FiresAreJustified` | src/scheduler/fire.rs:93-200 | in every clean interleaving of workers, API calls and the reconciler, statement by statement: any two fires of one schedule are separated by a due time computed for it, after the first and no later than the second |
| `Fires.SuspendedFiresNoMore` | src/features/schedules/service.rs:242-302 | after a pause or deletion and until a resumption, in every continuation: no worker computes a fire of the schedule, and the only fires of it still committed are those a worker had computed before |
| `Fires.InactiveExactlyWhenSuspended` | src/features/schedules/repository.rs:328-416 | over every run a schedule is inactive exactly when a pause or deletion of it has not been followed by a resume or restore |
| `Fires.SafeExactlyWhenNotSpoiling` | src/features/schedules/service.rs:206-233 | after every clean run, a step leaves all clean continuations justified exactly when it does not spoil: no score is written that a fire of its schedule has overtaken, and no fire's re-score is lost while the old score stands |
| `Fires.SlowUpdateFiresTwice` | src/features/schedules/service.rs:206-233 | a run with a double fire by an update that computes before a fire and writes after it, with no other spoiling step |
| `Fires.SlowReconcilerFiresTwice` | src/scheduler/reconcile.rs:65-119 | a run with a double fire by a reconciler that reads before a fire and adds after it, with no other spoiling step |
| `Fires.LostRescoreFiresTwice` | src/scheduler/fire.rs:186-198 | a run with a double fire by a worker that dies between commit and re-score, with no other spoiling step |
| `Reconcile.PassCoversAll` | src/scheduler/reconcile.rs:58-142 | when commits take less than a second: after each pass, full or delta, every active schedule the query could see is pending, even if API updates to Redis were lost |
| `Reconcile.PassKeepsScores` | src/scheduler/reconcile.rs:107-118 | no pass changes a score that is there |
| `Reconcile.PassAddsOnlyActive` | src/scheduler/reconcile.rs:65-118 | while no row changes, all that any number of passes add are active schedules, each at its own next run |
| `Reconcile.NoLossNoDrift` | src/features/schedules/service.rs:467-488 | while every API write gets through to Redis, in every run, passes or not, each active schedule is pending at its next run; and without passes none is pending that is switched off |
| `Reconcile.SlowCommitIsMissed` | src/scheduler/reconcile.rs:78-93 | for every longer bound, a run from the start in which the next pass misses a schedule |
| `Reconcile.LookbackIsExact` | src/scheduler/reconcile.rs:78-93 | some run misses a schedule exactly when commits may take longer than the one-second lookback |
| `ShardRouting.Router.PickShard` | src/features/schedules/service.rs:429-461 | the tenant's own shard, or a lowest-scored one with its score one up, or None on an empty set |
| `ShardRouting.Router.ZIncrByRouting` | src/features/schedules/service.rs:509-515 | adds to one shard's score, from zero if it is absent |
| `ShardRouting.PicksBalance` | src/features/schedules/service.rs:21-28 | from n equal shards, k = n * q + r picks leave exactly r shards q + 1 up and the others q up |
| `ShardRouting.ScoreNeverUndercounts` | src/features/schedules/service.rs:80-87 | over any run, row writes and score writes apart: a shard's score with the increments still owed is its live schedules plus open and failed creates, decrements still owed and restores of live rows; so it is too low by at most the restores under way |
| `ShardRouting.StartsBalanced` | src/features/schedules/service.rs:80-87 | an empty system satisfies that balance |
| `ShardRouting.RestoreInFlightUndercounts` | src/features/schedules/service.rs:267-276 | a run in which a restored schedule is live and its shard scores 0 |
| `Scheduler.SchedulerRedis.ZAddPending` | src/features/schedules/service.rs:467-477 | one schedule's score set in one shard |
| `Scheduler.SchedulerRedis.ZRemPending` | src/features/schedules/service.rs:479-488 | one schedule removed from one shard |
| `Scheduler.SchedulerRedis.ZAddShards` | src/features/schedules/service.rs:493-507 | the shard is in the set and no score goes down |
| `Scheduler.SchedulerRedis.AcquireLock` | src/scheduler/shard.rs:113-129 | acquired exactly when no live lock is there, for 30 s |
| `Scheduler.SchedulerRedis.ReleaseLock` | src/scheduler/shard.rs:26-32 | only a lock with this instance's token is deleted, and no other shard's |
| `Scheduler.SchedulerRedis.RemoveIfScoreMatches` | src/scheduler/shard.rs:15-22 | removed exactly when the score is still the one read |
| `Scheduler.InsertAll` | src/scheduler/fire.rs:104-155 | one event and one job naming it per target, in order, appended to the tables |
| `Scheduler.Database.FireInner` | src/scheduler/fire.rs:41-226 | fires exactly when the schedule is active and not deleted, has an endpoint that is up, a valid cron expression and no failing statement: one event and one job per active endpoint, one execution row, the new times, and the new score; else nothing changes |
| `Scheduler.OneJobPerEndpoint` | src/scheduler/fire.rs:104-155 | after a fire every active endpoint has exactly one new job and no other endpoint has any; each new job names a new event for the same endpoint with the schedule's payload |
| `Scheduler.ProcessShard` | src/scheduler/shard.rs:62-183 | nothing happens under another's lock; an idle shard leaves discovery; otherwise exactly the polled schedules that can fire do, once each, and exactly those have a new score, their next run; the lock is gone afterwards |
| `Scheduler.FireAll` | src/scheduler/shard.rs:167-178 | exactly the polled schedules that can fire have fired: one execution each, next run, time of this run and version in the row, the next run as score; no other row or score changes |
| `Scheduler.ReconcileRows` | src/scheduler/reconcile.rs:100-136 | a schedule without a score gets the next run of its first row, no present score moves, every row with a next run is pending, and each shard seen has the pass's time or its own later one in discovery |
| `Idempotency.LockStore.AcquireLock` | src/common/idempotency.rs:41-73 | acquired exactly when no live lock is there, for 60 s |
| `Idempotency.LockStore.ReleaseLock` | src/common/idempotency.rs:77-95 | whatever the timing, only a lock with this token is deleted |
| `Idempotency.EventService.FindByIdempotencyKey` | src/features/events/repository.rs:155-171 | an event with this application and key whose `createdAt + 3_600_000` is after now, or None exactly when there is none |
| `Idempotency.EventService.CreateKeyed` | src/features/events/service.rs:224-285 | busy exactly under another's lock; created only when the key is clear, replayed on an equal hash, conflict otherwise; an error when the lookup or the insert fails, or, with the event stored, when the fetch after the insert does; the lock is released on every path |
| `Idempotency.OneRequestPerKey` | src/common/idempotency.rs:41-95 | with lock holds under 60 s, in every interleaving at most one request works on a key at a time |
| `Idempotency.ReleaseFreesItsKey` | src/common/idempotency.rs:77-95 | over every run, with lock holds under 60 s, a request's release makes its own key free and no other |
| `Idempotency.CreationsAreAnHourApart` | src/features/events/service.rs:224-285 | with lock holds under 60 s, in every interleaving two events with one application and key are created at least 3,600,000 ms apart |
| `Idempotency.LookupWithinTheHour` | src/features/events/service.rs:229-241 | a request that looks within the hour gets that very event on an equal hash and a conflict otherwise |
| `Idempotency.LookupFindsExactly` | src/features/events/repository.rs:155-171 | over every run a lookup finds an event exactly when one with this application and key is less than 3,600,000 ms old |
| `Idempotency.AnswersAreRight` | src/features/events/service.rs:224-285 | over every run: a created event is stored with the request's own application, key and body; a replayed one is stored, of the same body, and less than an hour old when the lock was taken; a conflict is with such an event of another body |
| `EventSchema.BuildJsonSchema` | src/features/event_types/models.rs:76-135 | the map filled insert by insert is the schema the theorems are about |
| `EventSchema.BuildProperties` | src/features/event_types/models.rs:112-118 | each declared property compiled under its own name |
| `EventSchema.CompilationPreservesMeaning` | src/features/event_types/models.rs:76-135 | for every definition and value, at every depth, the compiled schema accepts the value under JSON Schema draft 2020-12 exactly when the value meets the definition |
| `EventSchema.AnnotationsAreKept` | src/features/event_types/models.rs:76-135 | `description` and `format`, the latter by its JSON Schema name, are in the compiled schema exactly as declared |
| `EventSchema.CompiledIsWellFormed` | src/features/event_types/models.rs:76-135 | the result is a valid schema exactly when no nullable null and no repeated required name occurs at any depth |
| `EventSchema.VerdictIsExact` | src/features/events/service.rs:84-113 | a payload passes exactly when it meets the definition or the definition is one of those |
| `Secrets.Endpoint.constructor` | src/features/endpoints/repository.rs:93-153 | one active secret without expiry |
| `Secrets.Endpoint.RotateSecret` | src/features/endpoints/repository.rs:401-463 | each live secret expires after the given seconds, or at once without any; dead ones are untouched; a new one without expiry is appended; not-found and an expiry over 86,400 s change nothing |
| `Secrets.QueriesAgree` | src/features/delivery/repository.rs:95-103 | over every run: exactly one active secret has no expiry, it is the newest, and both queries select it and nothing else |
| `Secrets.WorkerFindsOne` | src/features/delivery/repository.rs:95-103 | while any secret is usable the worker's query returns one: without expiry, or, when all expire, one that expires first |
| `Secrets.OlderSecretsDieWithinADay` | src/features/endpoints/service.rs:282-287 | a day after the last rotation no older secret is usable |
| `Secrets.SecretsLiveOnByRenewal` | src/features/endpoints/repository.rs:426-441 | a secret is usable exactly when each rotation since gave a grace that reached the next |
| `Secrets.AnOldSecretCanBeKeptAlive` | src/features/endpoints/repository.rs:426-441 | for every n, n rotations that leave the first secret usable |
| `CursorWalk.List` | src/features/schedules/repository.rs:420-466 | one page, full if there is a next one: upwards, the rows shown are above the cursor and below the next cursor, in increasing order, and every matching row not shown is at or below the one or at or above the other; downwards, the mirror image |
| `CursorWalk.ListsUpwards` | src/features/schedules/repository.rs:420-466 | the same for the listing of schedules, `id > cursor ORDER BY id ASC`, with plain comparisons of ids |
| `CursorWalk.ListsDownwards` | src/features/schedules/repository.rs:519-556 | the same for executions, `id < cursor ORDER BY id DESC` |
| `CursorWalk.WalkCuts` | src/features/schedules/repository.rs:519-556 | in either direction the cursor finds its place, so the walk cuts the listing into consecutive pages |
| `CursorWalk.WalkRebuildsListing` | src/features/schedules/repository.rs:420-466 | for every table, filter, order and limit: floor(n / (limit + 1)) + 1 pages, and the pages with the cursor rows put back are the listing, whose ids increase upwards and decrease downwards |
| `CursorWalk.RowIsShownUnlessAtBoundary` | src/features/schedules/repository.rs:459-463 | a row is shown exactly when its position is not a page boundary |
| `CursorWalk.WalkIsCompleteIffOnePage` | src/features/schedules/repository.rs:459-463 | the walk shows every row exactly when the listing fits on one page |
| `NanoId.EncodeTs` | src/common/nano_id.rs:66-73 | the in-place loop yields eight characters that decode to ms mod 62^8 |
| `NanoId.DecodeDigits` | src/common/nano_id.rs:66-73 | the last n base-62 digits of a number decode to it mod 62^n |
| `NanoId.LessIsNumeric` | src/common/nano_id.rs:9-14 | byte-wise order on digit strings of one length is numeric order, and equal values are equal strings |
| `NanoId.IdsSortByTime` | src/common/nano_id.rs:52-60 | ids sort by time modulo 62^8 whatever their suffixes |
| `NanoId.IdsInRangeSortByTime` | src/common/nano_id.rs:47-60 | below 62^8 ms ids of different milliseconds differ and sort by time |
| `NanoId.OrderStartsOver` | src/common/nano_id.rs:47-60 | an id of millisecond 62^8 sorts before every earlier one but the first |
| `NanoId.Validate` | src/common/nano_id.rs:83-94 | valid exactly for 16 alphanumeric bytes; a wrong length is reported before a wrong character |
| `NanoId.NewIsValid` | src/common/nano_id.rs:52-73 | every new id is valid and its time can be read back |

## Left out

- HTTP routing, handlers, extractors, logging, metrics, configuration and email: plumbing; only retry_delivery_job is kept.
- Organizations, tenants, users, teams, roles, permissions, platform webhooks, environments and applications: CRUD that would only add easy members.
- AES-GCM, HMAC, SHA-256, JWT and key conversion: library code. A body hash is a value that equal bodies share; the iteration order of `tags` inside it is not modelled.
- The HTTP call in src/worker/deliver.rs: its result is a parameter.
- Cron parsing and time zones: the next run is any time after the instant it is computed at.
- Redis failures that the code answers by carrying on, and Redis data loss: hypotheses, except where a theorem names them (lost XADDs, lost API updates).
- Streams.RedisQueue.EnsureConsumerGroup: start ids (`$` or `0-0`) and a stream that exists without its group are not told apart; a group is taken to exist from a stream's first entry on. Enterprise stream discovery is not modelled.
- The reclaim loop and the consumer's task spawning: their steps are part of the `Pipeline` and `StreamSet` machines, but the loops around process_one are not written as methods; nor are xreadgroup_multi and the parsing of Redis replies.
- create_bulk, the unkeyed path of event creation and the keyed creation of schedules: the same lock around another lookup.
- The wording of schema errors, and `format` and `description` as assertions: they are annotations.
- platform_event_types listing: it sorts by one column and pages on another, so the walk theorems do not apply to it.
- Postgres isolation levels and collation: a statement or transaction is one step, strings compare byte by byte.
- Pipeline.NoJobIsStranded: the outbox may list any unmarked deliverable job, sooner than the retry time and the five-second delay allow; more runs than the code has. That a listed job is enqueued in the end, and a pending entry reclaimed, is not claimed.
- Streams.RedisQueue.XTrimSafe: approximate trimming is any cut up to the cutoff.
- Streams.RedisQueue.ClaimNextStream: ties between scores are broken arbitrarily; Redis breaks them by name.
- Fires.FiresAreJustified: a fire is dated by the instant its next time is computed; `triggered_at` is read a moment later, and a due time can fall between the two. It assumes that no live worker holds a lock for 30 s; whatever else can go wrong is in `Fires.Spoils`.
- Fires.OneWorkerPerShard: says nothing when a hold reaches 30 s: the token is the instance's, shared by its tasks, so one task's release could then free another's lock.
- ShardRouting.ScoreNeverUndercounts: the ZINCRBYs succeed in the end.
- Reconcile.PassCoversAll: says nothing of schedules that changed between the pass's query and its end; the next pass covers them.
- Secrets.QueriesAgree: serial runs with increasing times; two rotations at the same instant are not modelled.
- Delivery.AttemptsAreAccounted: takes each message as one step per job, and writes as successful; `Delivery.SuccessLastsExactlyWhen` takes them apart.
- EventSchema: bounds are exact numbers, not 64-bit floats, and a string's length is a count of characters.
- CircuitBreaker.EnoughFailuresTrip: needs a window of at least one millisecond.
- Worker.ProcessOne: reads the clock once, and its writes succeed; what a lost one does is in `Pipeline`.
- Worker.OutboxPass: registrations and marks succeed there; only XADD may fail. `Worker.Publish` has all three.
- Scheduler.ProcessShard: its commands run without interruption, and every member of the discovery set is a shard id; `ShardDiscovery` and `Fires` interleave the same commands.
- Scheduler.Database.FireInner: ends with the re-score; the XADDs that follow a fire are steps of `Pipeline`, and without them the outbox enqueues the jobs.
- Liveness: an idle shard leaves discovery while it still holds future entries; nothing is claimed about when it returns.
