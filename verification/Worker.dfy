/** The worker's and publisher's code on its mutable stores: the job tables, the
    streams, the limiter and the breaker (src/features/delivery/repository.rs,
    src/worker/consumer.rs, src/worker/outbox.rs,
    src/features/delivery/handlers.rs, src/features/events/service.rs). */
module Worker {
  import opened Wrappers
  import opened Redis
  import opened Jobs
  import opened Delivery
  import Streams
  import Secrets
  import RateLimiter
  import CircuitBreaker
  import Pipeline

  /** The endpoint and its secrets, as the worker's query joins them. */
  datatype EndpointRow = EndpointRow(active: bool, deleted: bool, secrets: seq<Secrets.Secret>)

  /** Postgres keeps microseconds, everything else here milliseconds. */
  predicate IsLive(ep: EndpointRow, now: int) {
    && ep.active && !ep.deleted
    && exists i :: 0 <= i < |ep.secrets| && Secrets.Usable(ep.secrets[i], 1000 * now)
  }

  datatype Fetchable = Fetchable(job: Job, secret: string)

  /** delivery_jobs and delivery_attempts. Each UPDATE names one row; a missing
      row is no error. */
  class Repository {
    var jobs: map<JobId, Job>
    var attempts: seq<Attempt>
    ghost var waits: seq<Wait>
    ghost var retries: map<JobId, nat>

    ghost function View(): Db
      reads this
    {
      Db(jobs, attempts, waits, retries)
    }

    constructor ()
      ensures View() == INIT
    {
      jobs, attempts, waits, retries := map[], [], [], map[];
    }

    method CreateJob(id: JobId, endpoint: string, stream: string, maxAttempts: int, now: int)
      requires id !in jobs
      modifies this
      ensures View() == Next(old(View()), Create(id, endpoint, stream, maxAttempts, now))
      ensures id in jobs && HasColumns(jobs[id], endpoint, stream, maxAttempts, now) && jobs[id].attempt == 0
      ensures forall u :: Unqueued(jobs[id], u) <==> u > now + 5000
    {
      jobs := jobs[id := Job(endpoint, stream, Pending, 0, maxAttempts, None, false, now)];
    }

    method MarkJobEnqueued(id: JobId)
      modifies this
      ensures View() == Next(old(View()), MarkEnqueued(id))
      ensures id in jobs ==> forall u :: !Unqueued(jobs[id], u)
    {
      if id in jobs {
        jobs := jobs[id := jobs[id].(enqueued := true)];
      }
    }

    /** The row a worker may deliver, with the secret to sign it with: deliverable,
        on an active endpoint that is not deleted and has a usable secret. */
    method GetJobForDelivery(id: JobId, ep: EndpointRow, now: int) returns (found: Option<Fetchable>)
      ensures found.Some? <==>
                && id in jobs && (jobs[id].status == Pending || jobs[id].status == Retrying)
                && ep.active && !ep.deleted
                && exists i :: && 0 <= i < |ep.secrets| && ep.secrets[i].isActive
                               && (ep.secrets[i].expiresAt.Some? ==> 1000 * now < ep.secrets[i].expiresAt.value)
      ensures found.Some? ==>
                && found.value.job == jobs[id]
                && exists i: nat ::
                     && Secrets.WorkerPicks(ep.secrets, 1000 * now, i) && found.value.secret == ep.secrets[i].encrypted
                     && (ep.secrets[i].expiresAt.Some? ==>
                           Secrets.ExpiresFirst(ep.secrets, 1000 * now, ep.secrets[i].expiresAt.value))
    {
      found := None;
      if id in jobs && (jobs[id].status == Pending || jobs[id].status == Retrying) && IsLive(ep, now) {
        ghost var one := Secrets.WorkerFindsOne(ep.secrets, 1000 * now);
        assert Secrets.WorkerPicks(ep.secrets, 1000 * now, one);
        var i: nat :| i < |ep.secrets| && Secrets.WorkerPicks(ep.secrets, 1000 * now, i);
        found := Some(Fetchable(jobs[id], ep.secrets[i].encrypted));
      }
    }

    method InsertAttempt(id: JobId, number: nat, outcome: Outcome, httpStatus: Option<int>)
      modifies this`attempts
      ensures attempts == old(attempts) + [Attempt(id, number, outcome, httpStatus)]
    {
      attempts := attempts + [Attempt(id, number, outcome, httpStatus)];
    }

    method DeferJob(id: JobId, until: int)
      modifies this`jobs
      ensures jobs == if id in old(jobs) then old(jobs)[id := Deferred(old(jobs)[id], until)] else old(jobs)
      ensures id in jobs ==> jobs[id].attempt == old(jobs)[id].attempt
      ensures id in jobs ==> forall u :: Unqueued(jobs[id], u) <==> u >= until
    {
      if id in jobs {
        jobs := jobs[id := jobs[id].(status := Retrying, retryAfter := Some(until), enqueued := false)];
      }
    }

    method CompleteJob(id: JobId)
      modifies this`jobs
      ensures jobs == if id in old(jobs) then old(jobs)[id := Counted(old(jobs)[id], Success)] else old(jobs)
    {
      if id in jobs {
        jobs := jobs[id := jobs[id].(status := Success, attempt := jobs[id].attempt + 1)];
      }
    }

    method FailJob(id: JobId)
      modifies this`jobs
      ensures jobs == if id in old(jobs) then old(jobs)[id := Counted(old(jobs)[id], Failed)] else old(jobs)
    {
      if id in jobs {
        jobs := jobs[id := jobs[id].(status := Failed, attempt := jobs[id].attempt + 1)];
      }
    }

    method ScheduleRetry(id: JobId, until: int, ghost secs: nat)
      modifies this`jobs, this`waits
      ensures jobs == if id in old(jobs) then old(jobs)[id := Counted(Deferred(old(jobs)[id], until), Retrying)]
                      else old(jobs)
      ensures waits == old(waits) + [Wait(id, secs)]
    {
      if id in jobs {
        var j := jobs[id];
        jobs := jobs[id := j.(status := Retrying, attempt := j.attempt + 1,
                              retryAfter := Some(until), enqueued := false)];
      }
      waits := waits + [Wait(id, secs)];
    }

    method ResetJobForRetry(id: JobId) returns (j: Option<Job>)
      modifies this
      ensures View() == Next(old(View()), ResetForRetry(id))
      ensures j.Some? <==> id in old(jobs) && old(jobs)[id].status == Failed
      ensures j.Some? ==> j.value == jobs[id] && jobs[id].attempt == old(jobs)[id].attempt
      ensures j.Some? ==> forall u :: Unqueued(jobs[id], u) <==> u > jobs[id].createdAt + 5000
    {
      j := None;
      if id in jobs && jobs[id].status == Failed {
        retries := retries[id := RetriesOf(View(), id) + 1];
        jobs := jobs[id := jobs[id].(status := Pending, enqueued := false)];
        j := Some(jobs[id]);
      }
    }
  }

  predicate HasColumns(j: Job, endpoint: string, stream: string, maxAttempts: int, createdAt: int) {
    j.endpoint == endpoint && j.stream == stream && j.maxAttempts == maxAttempts && j.createdAt == createdAt
  }

  /** One more attempt has been made. */
  function Counted(j: Job, status: Status): Job {
    j.(status := status, attempt := j.attempt + 1)
  }

  // --- process_one ---

  /** What the worker meets: the clock, whether the fetch works, the endpoint's
      state and limit, and what the HTTP call comes to if it is made. */
  datatype World = World(
    now: nat, fetchFails: bool, endpoint: EndpointRow, limit: Option<int>, result: Result)

  /** The limiter's answer; without a limit there is no question. */
  function Allowed(s: RateLimiter.State, endpoint: string, limit: Option<int>, now: int): bool {
    limit.Some? ==> limit.value >= 1 && RateLimiter.Grants(s, RateLimiter.Request(endpoint, limit.value, now))
  }

  /** The guards, in their order: blocked by a 429, circuit open, over the limit.
      The answer is when to try again, or None to go ahead. */
  function GuardOn(
    endpoint: string, w: World,
    blocked: map<string, int>, limits: RateLimiter.State, circuit: CircuitBreaker.State): Option<int>
  {
    var block := RateLimiter.BlockedFor(blocked, endpoint, w.now);
    if block.Some? then Some(w.now + 1000 * Max(block.value, 1))
    else if CircuitBreaker.ReadsOpen(circuit, w.now) then
      Some(w.now + 1000 * Max(TtlSecs(circuit.openUntil.value, w.now), 1))
    else if !Allowed(limits, endpoint, w.limit, w.now) then Some(w.now + 1000 * (60 - w.now / 1000 % 60))
    else None
  }

  function VerdictOn(
    jobs: map<JobId, Job>, id: JobId, w: World,
    blocked: map<string, int>, limits: RateLimiter.State, circuit: CircuitBreaker.State): Verdict
  {
    if w.fetchFails then Unread
    else if id !in jobs || !Deliverable(jobs[id].status) || !IsLive(w.endpoint, w.now) then Skipped
    else
      match GuardOn(jobs[id].endpoint, w, blocked, limits, circuit)
      case Some(until) => Postponed(until)
      case None => Tried(w.result)
  }

  /** What the guards come to, in numbers: a block or an open circuit that has half a
      second or more to run postpones to its end, rounded to seconds; a used-up limit
      postpones to the next minute. */
  lemma GuardsInOrder(
    endpoint: string, w: World,
    blocked: map<string, int>, limits: RateLimiter.State, circuit: CircuitBreaker.State)
    ensures GuardOn(endpoint, w, blocked, limits, circuit)
         == if endpoint in blocked && w.now + 500 <= blocked[endpoint] then
              Some(w.now + (blocked[endpoint] - w.now + 500) / 1000 * 1000)
            else if circuit.openUntil.Some? && w.now + 500 <= circuit.openUntil.value then
              Some(w.now + (circuit.openUntil.value - w.now + 500) / 1000 * 1000)
            else if w.limit.Some? && SlotsUsed(limits, endpoint, w.now) >= w.limit.value then
              Some(w.now + 60_000 - w.now / 1000 % 60 * 1000)
            else None
  {
  }

  /** The counter of the present minute. */
  function SlotsUsed(limits: RateLimiter.State, endpoint: string, now: int): nat {
    RateLimiter.Stored(limits, RateLimiter.CounterKey(endpoint, now / 60_000), now)
  }

  /** What a worker decides, without a guard's or a query's name. */
  lemma VerdictMeans(
    jobs: map<JobId, Job>, id: JobId, w: World,
    blocked: map<string, int>, limits: RateLimiter.State, circuit: CircuitBreaker.State)
    ensures var v := VerdictOn(jobs, id, w, blocked, limits, circuit);
            var fetched := && !w.fetchFails && id in jobs && (jobs[id].status == Pending || jobs[id].status == Retrying)
                           && w.endpoint.active && !w.endpoint.deleted
                           && exists i :: && 0 <= i < |w.endpoint.secrets| && w.endpoint.secrets[i].isActive
                                          && (w.endpoint.secrets[i].expiresAt.Some? ==>
                                                1000 * w.now < w.endpoint.secrets[i].expiresAt.value);
            && (v == Unread <==> w.fetchFails)
            && (v == Skipped <==> !w.fetchFails && !fetched)
            && (fetched ==>
                  var until := GuardOn(jobs[id].endpoint, w, blocked, limits, circuit);
                  v == if until.Some? then Postponed(until.value) else Tried(w.result))
  {
    assert IsLive(w.endpoint, w.now) <==>
           && w.endpoint.active && !w.endpoint.deleted
           && exists i :: && 0 <= i < |w.endpoint.secrets| && w.endpoint.secrets[i].isActive
                          && (w.endpoint.secrets[i].expiresAt.Some? ==>
                                1000 * w.now < w.endpoint.secrets[i].expiresAt.value)
      by {
      LiveMeans(w.endpoint, w.now);
    }
  }

  lemma LiveMeans(ep: EndpointRow, now: int)
    ensures IsLive(ep, now) <==>
            && ep.active && !ep.deleted
            && exists i :: && 0 <= i < |ep.secrets| && ep.secrets[i].isActive
                           && (ep.secrets[i].expiresAt.Some? ==> 1000 * now < ep.secrets[i].expiresAt.value)
  {
    if i :| && 0 <= i < |ep.secrets| && ep.secrets[i].isActive
            && (ep.secrets[i].expiresAt.Some? ==> 1000 * now < ep.secrets[i].expiresAt.value)
    {
      assert Secrets.Usable(ep.secrets[i], 1000 * now);
    }
  }

  /** A postponed job is always due later than now, and one over its limit in a
      later minute. */
  lemma GuardsLookAhead(
    endpoint: string, w: World,
    blocked: map<string, int>, limits: RateLimiter.State, circuit: CircuitBreaker.State)
    ensures var until := GuardOn(endpoint, w, blocked, limits, circuit);
            until.Some? ==>
              && w.now + 1000 <= until.value
              && (RateLimiter.BlockedFor(blocked, endpoint, w.now).None? && !CircuitBreaker.ReadsOpen(circuit, w.now)
                  ==> until.value / 60_000 == w.now / 60_000 + 1)
  {
    RateLimiter.DeferralLandsInALaterMinute(w.now, w.now, w.now);
  }

  /** The endpoint's fault, not the sender's: a timeout, no answer, or a 5xx. */
  predicate IsEndpointFault(r: Result) {
    || r.outcome == TimedOut
    || (r.outcome == Refused && (r.httpStatus.Some? ==> r.httpStatus.value >= 500))
  }

  function CircuitAfter(c: CircuitBreaker.Config, s: CircuitBreaker.State, v: Verdict, now: int): CircuitBreaker.State {
    if !v.Tried? then s
    else if IsEndpointFault(v.result) then
      var s' := CircuitBreaker.Next(c, s, CircuitBreaker.Fail(now));
      if CircuitBreaker.Trips(c, s, now)
      then CircuitBreaker.Next(c, s', CircuitBreaker.Open(now, |s.log|)) else s'
    else if v.result.outcome == Delivered then CircuitBreaker.Next(c, s, CircuitBreaker.Succeed(now))
    else s
  }

  /** A 429 without a Retry-After blocks for a minute. */
  function BlockSecs(r: Result): nat {
    if r.retryAfterSecs.Some? then r.retryAfterSecs.value else 60
  }

  function BlockedAfter(blocked: map<string, int>, endpoint: string, v: Verdict, now: int): map<string, int> {
    if v.Tried? && v.result.httpStatus == Some(429)
    then RateLimiter.Blocked(blocked, endpoint, BlockSecs(v.result), now)
    else blocked
  }

  method RecordHealth(breaker: CircuitBreaker.Breaker, r: Result, now: int)
    requires breaker.Ok()
    modifies breaker
    ensures breaker.Ok()
    ensures breaker.View() == CircuitAfter(breaker.c, old(breaker.View()), Tried(r), now)
    ensures r.outcome == Refused && r.httpStatus.Some? && r.httpStatus.value < 500 ==>
              breaker.View() == old(breaker.View())
    ensures r.outcome == TimedOut || (r.outcome == Refused && (r.httpStatus.None? || r.httpStatus.value >= 500)) ==>
              && |breaker.log| > |old(breaker.log)|
              && breaker.log[..|old(breaker.log)|] == old(breaker.log)
              && var tripped := CircuitBreaker.Trips(breaker.c, old(breaker.View()), now);
              && breaker.log[|old(breaker.log)|..]
                 == (if tripped then [CircuitBreaker.Failure(now, true), CircuitBreaker.Opened(now, |old(breaker.log)|)]
                     else [CircuitBreaker.Failure(now, false)])
              && breaker.openUntil == (if tripped then Some(now + breaker.c.cooldown) else old(breaker.openUntil))
    ensures r.outcome == Delivered ==> breaker.fail == None && breaker.openUntil == None
  {
    if IsEndpointFault(r) {
      ghost var trip := |breaker.log|;
      var tripped := breaker.RecordFailure(now);
      if tripped {
        breaker.OpenCircuit(now, trip);
      }
    } else if r.outcome == Delivered {
      breaker.ResetCircuit(now);
    }
  }

  /** The row after a call: one attempt more; delivered, or failed for good, or due
      again when the backoff is over, 30 s doubled with each attempt made before, up
      to an hour; the other columns and the other rows are as they were. */
  ghost predicate OutcomeWritten(
    was: map<JobId, Job>, jobs: map<JobId, Job>, id: JobId, fetched: Job, r: Result, now: int)
  {
    && id in was && id in jobs && jobs == was[id := jobs[id]]
    && var j := was[id];
    && HasColumns(jobs[id], j.endpoint, j.stream, j.maxAttempts, j.createdAt) && jobs[id].attempt == j.attempt + 1
    && (r.outcome == Delivered ==> jobs[id].status == Success)
    && (r.outcome != Delivered && fetched.attempt + 1 >= fetched.maxAttempts ==> jobs[id].status == Failed)
    && (r.outcome != Delivered && fetched.attempt + 1 < fetched.maxAttempts ==>
          forall u :: Unqueued(jobs[id], u) <==> u >= now + 1000 * Min(30 * Pow2(fetched.attempt), 3600))
  }

  /** A job that failed with `n` tries behind it is listed for the outbox exactly from
      the end of its backoff on; one that was deferred, exactly from the time it was
      deferred to; a new one, exactly when it is more than five seconds old. */
  lemma ListedExactlyWhenDue(db: Db, id: JobId, r: Result, until: int, now: int, u: int)
    requires id in db.jobs && Deliverable(db.jobs[id].status)
    ensures var j := db.jobs[id];
            && (r.outcome != Delivered && j.attempt + 1 < j.maxAttempts ==>
                  (Unqueued(Next(db, Process(id, Tried(r), now)).jobs[id], u) <==>
                   u >= now + 1000 * Min(30 * Pow2(j.attempt), 3600)))
            && (r.outcome == Delivered || j.attempt + 1 >= j.maxAttempts ==>
                  !Unqueued(Next(db, Process(id, Tried(r), now)).jobs[id], u))
            && (Unqueued(Next(db, Process(id, Postponed(until), now)).jobs[id], u) <==> u >= until)
            && (j.status == Pending && !j.enqueued ==> (Unqueued(j, u) <==> u > j.createdAt + 5000))
            && !Unqueued(Next(db, MarkEnqueued(id)).jobs[id], u)
  {
  }

  /** `job` is the row as the worker fetched it, whatever the row is now. */
  method RecordOutcome(repo: Repository, id: JobId, job: Job, r: Result, now: int)
    requires id in repo.jobs
    modifies repo
    ensures repo.View() == WriteBack(old(repo.View()), id, job, r, now)
    ensures repo.attempts == old(repo.attempts) + [Attempt(id, job.attempt + 1, r.outcome, r.httpStatus)]
    ensures OutcomeWritten(old(repo.jobs), repo.jobs, id, job, r, now)
  {
    repo.InsertAttempt(id, job.attempt + 1, r.outcome, r.httpStatus);
    if r.outcome == Delivered {
      repo.CompleteJob(id);
    } else {
      var nextAttempt := job.attempt + 1;
      if nextAttempt < job.maxAttempts {
        var backoffSecs := Min(30 * Pow2(job.attempt), 3600);
        repo.ScheduleRetry(id, now + 1000 * backoffSecs, backoffSecs);
      } else {
        repo.FailJob(id);
      }
    }
  }

  /** The limiter is asked when the first two guards pass and there is a limit. */
  predicate AsksLimiter(endpoint: string, w: World, blocked: map<string, int>, circuit: CircuitBreaker.State) {
    && RateLimiter.BlockedFor(blocked, endpoint, w.now).None?
    && !CircuitBreaker.ReadsOpen(circuit, w.now) && w.limit.Some?
  }

  /** The limiter's state after the guards. A limit below one denies without
      changing any count. */
  ghost predicate LimiterAfter(
    was: RateLimiter.State, now: RateLimiter.State, asked: bool, endpoint: string, w: World)
  {
    if !asked || w.limit.None? then now == was
    else if w.limit.value >= 1 then
      now == RateLimiter.Next(was, RateLimiter.Request(endpoint, w.limit.value, w.now))
    else
      && now.grants == was.grants
      && forall k :: RateLimiter.Stored(now, k, w.now) == RateLimiter.Stored(was, k, w.now)
  }

  method CheckGuards(
    limiter: RateLimiter.Limiter, breaker: CircuitBreaker.Breaker, endpoint: string, w: World)
    returns (until: Option<int>)
    modifies limiter
    ensures until == old(GuardOn(endpoint, w, limiter.blocked, limiter.View(), breaker.View()))
    ensures until == if endpoint in old(limiter.blocked) && w.now + 500 <= old(limiter.blocked)[endpoint] then
                       Some(w.now + (old(limiter.blocked)[endpoint] - w.now + 500) / 1000 * 1000)
                     else if breaker.openUntil.Some? && w.now + 500 <= breaker.openUntil.value then
                       Some(w.now + (breaker.openUntil.value - w.now + 500) / 1000 * 1000)
                     else if w.limit.Some? && SlotsUsed(old(limiter.View()), endpoint, w.now) >= w.limit.value then
                       Some(w.now + 60_000 - w.now / 1000 % 60 * 1000)
                     else None
    ensures limiter.blocked == old(limiter.blocked)
    ensures LimiterAfter(old(limiter.View()), limiter.View(),
                         old(AsksLimiter(endpoint, w, limiter.blocked, breaker.View())), endpoint, w)
    ensures limiter.grants
         == old(limiter.grants) + if until.None? && w.limit.Some? then [RateLimiter.Grant(endpoint, w.now)] else []
  {
    GuardsInOrder(endpoint, w, limiter.blocked, limiter.View(), breaker.View());
    var blockedFor := limiter.BlockedRemainingSecs(endpoint, w.now);
    if blockedFor.Some? {
      return Some(w.now + 1000 * Max(blockedFor.value, 1));
    }
    var openFor := breaker.OpenRemainingSecs(w.now);
    if openFor.Some? {
      return Some(w.now + 1000 * Max(openFor.value, 1));
    }
    if w.limit.Some? {
      var ok := limiter.TryAcquire(endpoint, w.limit.value, w.now);
      if !ok {
        return Some(w.now + 1000 * (60 - w.now / 1000 % 60));
      }
    }
    until := None;
  }

  /** From the HTTP result to the job's new row. */
  method Conclude(
    repo: Repository, limiter: RateLimiter.Limiter, breaker: CircuitBreaker.Breaker, id: JobId, job: Job, w: World)
    requires id in repo.jobs && breaker.Ok()
    modifies repo, limiter, breaker
    ensures breaker.Ok() && limiter.View() == old(limiter.View())
    ensures limiter.blocked == BlockedAfter(old(limiter.blocked), job.endpoint, Tried(w.result), w.now)
    ensures breaker.View() == CircuitAfter(breaker.c, old(breaker.View()), Tried(w.result), w.now)
    ensures repo.View() == WriteBack(old(repo.View()), id, job, w.result, w.now)
    ensures OutcomeWritten(old(repo.jobs), repo.jobs, id, job, w.result, w.now)
    ensures w.result.httpStatus != Some(429) ==> limiter.blocked == old(limiter.blocked)
    ensures w.result.httpStatus == Some(429) && w.result.retryAfterSecs.None? ==>
              limiter.blocked == old(limiter.blocked)[job.endpoint := w.now + 60_000]
    ensures w.result.httpStatus == Some(429) && w.result.retryAfterSecs.Some? && w.result.retryAfterSecs.value > 0 ==>
              limiter.blocked == old(limiter.blocked)[job.endpoint := w.now + 1000 * w.result.retryAfterSecs.value]
  {
    if w.result.httpStatus == Some(429) {
      var ttl := if w.result.retryAfterSecs.Some? then w.result.retryAfterSecs.value else 60;
      limiter.SetBlocked(job.endpoint, ttl, w.now);
    }
    RecordHealth(breaker, w.result, w.now);
    RecordOutcome(repo, id, job, w.result, w.now);
  }

  predicate IsFetched(jobs: map<JobId, Job>, id: JobId, w: World) {
    !w.fetchFails && id in jobs && Deliverable(jobs[id].status) && IsLive(w.endpoint, w.now)
  }

  function EndpointOf(jobs: map<JobId, Job>, id: JobId): string {
    if id in jobs then jobs[id].endpoint else ""
  }

  /** One message, end to end, with the endpoint's own breaker. Every path but
      the failed fetch acknowledges the entry; a slot of the minute is used
      exactly when the call is made. */
  method ProcessOne(
    repo: Repository, queue: Streams.RedisQueue, limiter: RateLimiter.Limiter, breaker: CircuitBreaker.Breaker,
    stream: string, msg: nat, id: JobId, w: World)
    requires queue.Ok() && breaker.Ok()
    modifies repo, queue, limiter, breaker
    ensures queue.Ok() && breaker.Ok() && queue.scheduled == old(queue.scheduled)
    ensures var v := old(VerdictOn(repo.jobs, id, w, limiter.blocked, limiter.View(), breaker.View()));
            && repo.View() == Processed(old(repo.View()), id, v, w.now)
            && queue.streams
               == (if v == Unread then old(queue.streams) else Streams.Acked(old(queue.streams), stream, msg))
            && breaker.View() == CircuitAfter(breaker.c, old(breaker.View()), v, w.now)
            && limiter.blocked == BlockedAfter(old(limiter.blocked), EndpointOf(old(repo.jobs), id), v, w.now)
            && LimiterAfter(old(limiter.View()), limiter.View(),
                            old(IsFetched(repo.jobs, id, w)
                                && AsksLimiter(repo.jobs[id].endpoint, w, limiter.blocked, breaker.View())),
                            EndpointOf(old(repo.jobs), id), w)
            && limiter.grants == old(limiter.grants)
               + if v.Tried? && w.limit.Some? then [RateLimiter.Grant(EndpointOf(old(repo.jobs), id), w.now)] else []
    ensures old(VerdictOn(repo.jobs, id, w, limiter.blocked, limiter.View(), breaker.View())).Tried? ==>
              OutcomeWritten(old(repo.jobs), repo.jobs, id, old(repo.jobs)[id], w.result, w.now)
  {
    if w.fetchFails {
      return;
    }
    var fetched := repo.GetJobForDelivery(id, w.endpoint, w.now);
    if fetched.Some? {
      var until := CheckGuards(limiter, breaker, fetched.value.job.endpoint, w);
      if until.Some? {
        repo.DeferJob(id, until.value);
      } else {
        Conclude(repo, limiter, breaker, id, fetched.value.job, w);
      }
    }
    queue.Ack(stream, msg);
  }

  // --- Into the stream: publisher, outbox and manual retry ---

  /** Which of the three writes fail. */
  datatype Faults = Faults(xadd: bool, register: bool, mark: bool)

  /** XADD of one job, then the registration and the mark. When XADD fails nothing
      else is tried; the other two may fail by themselves, and are only logged. */
  method Publish(repo: Repository, queue: Streams.RedisQueue, stream: string, id: JobId, faults: Faults)
    requires queue.Ok()
    modifies repo, queue
    ensures queue.Ok()
    ensures faults.xadd ==>
              && repo.View() == old(repo.View())
              && queue.streams == old(queue.streams) && queue.scheduled == old(queue.scheduled)
    ensures !faults.xadd ==>
              && Appended(old(queue.streams), queue.streams, stream, id)
              && queue.scheduled
                 == (if faults.register then old(queue.scheduled) else ZAddNX(old(queue.scheduled), stream, 0))
              && repo.View() == if faults.mark then old(repo.View()) else Next(old(repo.View()), MarkEnqueued(id))
  {
    if faults.xadd {
      return;
    }
    var n := queue.Enqueue(stream, id);
    ghost var s := Streams.StreamOf(old(queue.streams), stream);
    assert queue.streams == old(queue.streams)[stream := Streams.XAdd(s, n, id)];
    if !faults.register {
      queue.RegisterStream(stream);
    }
    if !faults.mark {
      repo.MarkJobEnqueued(id);
    }
  }

  ghost predicate Appended(
    was: map<string, Streams.Stream>, streams: map<string, Streams.Stream>, stream: string, id: JobId)
  {
    var s := Streams.StreamOf(was, stream);
    exists n: nat :: n > s.top && streams == was[stream := Streams.XAdd(s, n, id)]
  }

  /** enqueue_delivery. */
  method EnqueueDelivery(
    repo: Repository, queue: Streams.RedisQueue,
    id: JobId, endpoint: string, stream: string, maxAttempts: int, createFails: bool, faults: Faults, now: int)
    requires queue.Ok() && id !in repo.jobs
    modifies repo, queue
    ensures queue.Ok()
    ensures createFails ==> repo.View() == old(repo.View())
    ensures !createFails ==>
              var created := Next(old(repo.View()), Create(id, endpoint, stream, maxAttempts, now));
              repo.View() == if faults.xadd || faults.mark then created else Next(created, MarkEnqueued(id))
    ensures !createFails ==>
              && id in repo.jobs && HasColumns(repo.jobs[id], endpoint, stream, maxAttempts, now)
              && repo.jobs[id].attempt == 0
              && forall u :: Unqueued(repo.jobs[id], u) <==> (faults.xadd || faults.mark) && u > now + 5000
    ensures createFails || faults.xadd ==>
              queue.streams == old(queue.streams) && queue.scheduled == old(queue.scheduled)
    ensures !createFails && !faults.xadd ==>
              && Appended(old(queue.streams), queue.streams, stream, id)
              && queue.scheduled
                 == if faults.register then old(queue.scheduled) else ZAddNX(old(queue.scheduled), stream, 0)
  {
    if createFails {
      return;
    }
    repo.CreateJob(id, endpoint, stream, maxAttempts, now);
    Publish(repo, queue, stream, id, faults);
  }

  datatype RetryAnswer = Queued | Conflict | NotFound

  /** retry_delivery_job: only a failed job is retried. */
  method RetryDeliveryJob(repo: Repository, queue: Streams.RedisQueue, id: JobId, faults: Faults)
    returns (r: RetryAnswer)
    requires queue.Ok()
    modifies repo, queue
    ensures queue.Ok()
    ensures r == NotFound <==> id !in old(repo.jobs)
    ensures r == Queued <==> CanReset(old(repo.View()), id)
    ensures r != Queued ==> repo.View() == old(repo.View())
    ensures r != Queued || faults.xadd ==>
              queue.streams == old(queue.streams) && queue.scheduled == old(queue.scheduled)
    ensures r == Queued ==>
              var reset, stream := Next(old(repo.View()), ResetForRetry(id)), old(repo.jobs)[id].stream;
              && repo.View() == (if faults.xadd || faults.mark then reset else Next(reset, MarkEnqueued(id)))
              && (!faults.xadd ==> Appended(old(queue.streams), queue.streams, stream, id))
              && (!faults.xadd && !faults.register ==> queue.scheduled == ZAddNX(old(queue.scheduled), stream, 0))
  {
    var job := repo.ResetJobForRetry(id);
    if job.None? {
      return if id in repo.jobs then Conflict else NotFound;
    }
    Publish(repo, queue, job.value.stream, id, faults);
    r := Queued;
  }

  /** list_unqueued's WHERE clause. */
  predicate Unqueued(j: Job, now: int) {
    && !j.enqueued
    && ((j.status == Pending && j.createdAt < now - 5000)
        || (j.status == Retrying && j.retryAfter.Some? && j.retryAfter.value <= now))
  }

  /** ... with its ORDER BY and LIMIT. */
  ghost predicate ListsUnqueued(jobs: map<JobId, Job>, now: int, listed: seq<JobId>) {
    && |listed| <= 500
    && (forall i | 0 <= i < |listed| :: listed[i] in jobs && Unqueued(jobs[listed[i]], now))
    && (forall i, j | 0 <= i < j < |listed| ::
          listed[i] != listed[j] && jobs[listed[i]].createdAt <= jobs[listed[j]].createdAt)
    && (|listed| < 500 ==> forall id | id in jobs && Unqueued(jobs[id], now) :: id in listed)
  }

  function MarkedAll(jobs: map<JobId, Job>, ids: set<JobId>): map<JobId, Job> {
    map id | id in jobs :: if id in ids then jobs[id].(enqueued := true) else jobs[id]
  }

  /** The stream only grew at its end: nothing delivered, acknowledged or lost. */
  ghost predicate Grown(was: Streams.Stream, s: Streams.Stream) {
    && s.top >= was.top && s.lastDelivered == was.lastDelivered && s.pending == was.pending
    && (forall n | n in was.entries :: n in s.entries && s.entries[n] == was.entries[n])
    && (forall n | n in s.entries && n <= was.top :: n in was.entries)
  }

  ghost predicate AllGrown(was: map<string, Streams.Stream>, streams: map<string, Streams.Stream>) {
    forall n :: Grown(Streams.StreamOf(was, n), Streams.StreamOf(streams, n))
  }

  /** The job has a stream entry that was not there before, and is undelivered. */
  ghost predicate HasNewEntry(was: Streams.Stream, s: Streams.Stream, id: JobId) {
    exists n :: n in s.entries && n > was.top && n > s.lastDelivered && s.entries[n] == id
  }

  lemma GrowthKeepsNewEntry(was: Streams.Stream, mid: Streams.Stream, s: Streams.Stream, id: JobId)
    requires HasNewEntry(was, mid, id) && Grown(mid, s)
    ensures HasNewEntry(was, s, id)
  {
  }

  lemma AppendGrows(
    was: map<string, Streams.Stream>, mid: map<string, Streams.Stream>, streams: map<string, Streams.Stream>,
    stream: string, id: JobId)
    requires AllGrown(was, mid) && Streams.Valid(Streams.StreamOf(mid, stream)) && Appended(mid, streams, stream, id)
    ensures AllGrown(was, streams) && AllGrown(mid, streams)
    ensures HasNewEntry(Streams.StreamOf(was, stream), Streams.StreamOf(streams, stream), id)
  {
    var s := Streams.StreamOf(mid, stream);
    var n: nat :| n > s.top && streams == mid[stream := Streams.XAdd(s, n, id)];
    var s' := Streams.XAdd(s, n, id);
    assert Streams.StreamOf(streams, stream) == s';
    forall m
      ensures Grown(Streams.StreamOf(was, m), Streams.StreamOf(streams, m))
      ensures Grown(Streams.StreamOf(mid, m), Streams.StreamOf(streams, m))
    {
      assert Grown(Streams.StreamOf(was, m), Streams.StreamOf(mid, m));
      if m == stream {
        AddGrows(Streams.StreamOf(was, m), s, n, id);
      } else {
        assert Streams.StreamOf(streams, m) == Streams.StreamOf(mid, m);
      }
    }
    assert Grown(Streams.StreamOf(was, stream), s);
    assert n in s'.entries && s'.entries[n] == id;
  }

  lemma AddGrows(was: Streams.Stream, s: Streams.Stream, n: nat, id: JobId)
    requires Grown(was, s) && Streams.Valid(s) && n > s.top
    ensures Grown(was, Streams.XAdd(s, n, id)) && Grown(s, Streams.XAdd(s, n, id))
  {
  }

  /** The listed jobs among the first `i` that got through. */
  function Through(listed: seq<JobId>, down: set<JobId>): set<JobId> {
    set i | 0 <= i < |listed| && listed[i] !in down :: listed[i]
  }

  ghost predicate AllAppended(
    jobs: map<JobId, Job>, ids: set<JobId>, was: map<string, Streams.Stream>, streams: map<string, Streams.Stream>)
  {
    forall id | id in ids && id in jobs ::
      HasNewEntry(Streams.StreamOf(was, jobs[id].stream), Streams.StreamOf(streams, jobs[id].stream), id)
  }

  lemma OneMoreAppended(
    jobs: map<JobId, Job>, ids: set<JobId>, was: map<string, Streams.Stream>,
    mid: map<string, Streams.Stream>, streams: map<string, Streams.Stream>, id: JobId)
    requires AllGrown(was, mid) && AllAppended(jobs, ids, was, mid) && id in jobs
    requires Streams.Valid(Streams.StreamOf(mid, jobs[id].stream)) && Appended(mid, streams, jobs[id].stream, id)
    ensures AllGrown(was, streams) && AllAppended(jobs, ids + {id}, was, streams)
  {
    AppendGrows(was, mid, streams, jobs[id].stream, id);
    forall other | other in ids && other in jobs
      ensures var n := jobs[other].stream; HasNewEntry(Streams.StreamOf(was, n), Streams.StreamOf(streams, n), other)
    {
      var n := jobs[other].stream;
      assert Grown(Streams.StreamOf(mid, n), Streams.StreamOf(streams, n));
      GrowthKeepsNewEntry(Streams.StreamOf(was, n), Streams.StreamOf(mid, n), Streams.StreamOf(streams, n), other);
    }
  }

  lemma ThroughStep(listed: seq<JobId>, down: set<JobId>, i: nat)
    requires i < |listed|
    ensures Through(listed[..i + 1], down)
         == Through(listed[..i], down) + if listed[i] in down then {} else {listed[i]}
  {
  }

  lemma NotYetThrough(listed: seq<JobId>, down: set<JobId>, i: nat)
    requires i < |listed| && forall j, k | 0 <= j < k < |listed| :: listed[j] != listed[k]
    ensures listed[i] !in Through(listed[..i], down)
  {
  }

  /** Every new entry is of one of `ids`, in that job's own stream, and no job has
      two. */
  ghost predicate OnlyAppended(
    jobs: map<JobId, Job>, ids: set<JobId>, was: map<string, Streams.Stream>, streams: map<string, Streams.Stream>)
  {
    && (forall name, n | IsNew(was, streams, name, n) ::
          var job := streams[name].entries[n];
          job in ids && job in jobs && jobs[job].stream == name)
    && (forall name, m, n | IsNew(was, streams, name, m) && IsNew(was, streams, name, n) && m != n ::
          streams[name].entries[m] != streams[name].entries[n])
  }

  ghost predicate IsNew(was: map<string, Streams.Stream>, streams: map<string, Streams.Stream>, name: string, n: nat) {
    name in streams && n in streams[name].entries && n > Streams.StreamOf(was, name).top
  }

  lemma OnlyOneMore(
    jobs: map<JobId, Job>, ids: set<JobId>, was: map<string, Streams.Stream>,
    mid: map<string, Streams.Stream>, streams: map<string, Streams.Stream>, id: JobId)
    requires OnlyAppended(jobs, ids, was, mid) && id in jobs && id !in ids
    requires Appended(mid, streams, jobs[id].stream, id)
    ensures OnlyAppended(jobs, ids + {id}, was, streams)
  {
    var home := jobs[id].stream;
    var s := Streams.StreamOf(mid, home);
    var top: nat :| top > s.top && streams == mid[home := Streams.XAdd(s, top, id)];
    forall name, n: nat | IsNew(was, streams, name, n)
      ensures IsNew(was, mid, name, n) || (name == home && n == top)
      ensures streams[name].entries[n]
           == if name == home && n == top then id else Streams.StreamOf(mid, name).entries[n]
    {
    }
  }

  function HomesOf(jobs: map<JobId, Job>, ids: set<JobId>): set<string> {
    set id | id in ids && id in jobs :: jobs[id].stream
  }

  /** ZADD NX of each of `names` at score 0. */
  function WithStreams(z: SortedSet<string>, names: set<string>): SortedSet<string> {
    map n | n in z.Keys + names :: if n in z then z[n] else 0
  }

  lemma OneMoreStream(z: SortedSet<string>, jobs: map<JobId, Job>, ids: set<JobId>, id: JobId)
    requires id in jobs
    ensures WithStreams(z, HomesOf(jobs, ids + {id})) == ZAddNX(WithStreams(z, HomesOf(jobs, ids)), jobs[id].stream, 0)
  {
    assert HomesOf(jobs, ids + {id}) == HomesOf(jobs, ids) + {jobs[id].stream};
  }

  /** What the outbox and the publishers write. */
  datatype Store = Store(jobs: map<JobId, Job>, streams: map<string, Streams.Stream>, scheduled: SortedSet<string>)

  /** `now` is `was` with the jobs `ids` put into their streams, scheduled and
      marked, and nothing else changed. */
  ghost predicate PutThrough(was: Store, now: Store, ids: set<JobId>) {
    && now.jobs == MarkedAll(was.jobs, ids)
    && AllGrown(was.streams, now.streams)
    && AllAppended(was.jobs, ids, was.streams, now.streams)
    && OnlyAppended(was.jobs, ids, was.streams, now.streams)
    && now.scheduled == WithStreams(was.scheduled, HomesOf(was.jobs, ids))
  }

  lemma PutOneMore(was: Store, mid: Store, now: Store, ids: set<JobId>, id: JobId)
    requires PutThrough(was, mid, ids) && id in was.jobs && id !in ids
    requires Streams.Valid(Streams.StreamOf(mid.streams, was.jobs[id].stream))
    requires now.jobs == Marked(mid.jobs, id) && Appended(mid.streams, now.streams, was.jobs[id].stream, id)
    requires now.scheduled == ZAddNX(mid.scheduled, was.jobs[id].stream, 0)
    ensures PutThrough(was, now, ids + {id})
  {
    OneMoreAppended(was.jobs, ids, was.streams, mid.streams, now.streams, id);
    OnlyOneMore(was.jobs, ids, was.streams, mid.streams, now.streams, id);
    OneMoreStream(was.scheduled, was.jobs, ids, id);
    assert now.jobs == MarkedAll(was.jobs, ids + {id});
  }

  lemma PutNothing(was: Store)
    requires forall n | n in was.streams :: Streams.Valid(was.streams[n])
    ensures PutThrough(was, was, {})
  {
    forall name, n: nat
      ensures !IsNew(was.streams, was.streams, name, n)
    {
      assert name in was.streams ==> Streams.Valid(was.streams[name]);
    }
  }

  ghost function StoreOf(repo: Repository, queue: Streams.RedisQueue): Store
    reads repo, queue
  {
    Store(repo.jobs, queue.streams, queue.scheduled)
  }

  /** The body of the outbox's loop. */
  method OutboxOne(
    repo: Repository, queue: Streams.RedisQueue, id: JobId, xaddFails: bool, ghost was: Store, ghost ids: set<JobId>)
    requires queue.Ok() && id in was.jobs && id !in ids
    requires PutThrough(was, StoreOf(repo, queue), ids)
    modifies repo, queue
    ensures queue.Ok() && repo.attempts == old(repo.attempts)
    ensures PutThrough(was, StoreOf(repo, queue), ids + if xaddFails then {} else {id})
  {
    ghost var mid := StoreOf(repo, queue);
    var stream := repo.jobs[id].stream;
    assert stream == was.jobs[id].stream;
    Publish(repo, queue, stream, id, Faults(xaddFails, false, false));
    if xaddFails {
      assert StoreOf(repo, queue) == mid && ids + {} == ids;
    } else {
      PutOneMore(was, mid, StoreOf(repo, queue), ids, id);
    }
  }

  /** The outbox's loop over its list, `down` being the jobs whose XADD fails. */
  method OutboxLoop(repo: Repository, queue: Streams.RedisQueue, listed: seq<JobId>, down: set<JobId>)
    requires queue.Ok()
    requires forall i | 0 <= i < |listed| :: listed[i] in repo.jobs
    requires forall i, j | 0 <= i < j < |listed| :: listed[i] != listed[j]
    modifies repo, queue
    ensures queue.Ok() && repo.attempts == old(repo.attempts)
    ensures PutThrough(old(StoreOf(repo, queue)), StoreOf(repo, queue), Through(listed, down))
  {
    ghost var was := StoreOf(repo, queue);
    PutNothing(was);
    for i := 0 to |listed|
      invariant queue.Ok() && repo.attempts == old(repo.attempts)
      invariant PutThrough(was, StoreOf(repo, queue), Through(listed[..i], down))
    {
      ThroughStep(listed, down, i);
      NotYetThrough(listed, down, i);
      OutboxOne(repo, queue, listed[i], listed[i] in down, was, Through(listed[..i], down));
    }
    assert listed[..|listed|] == listed;
  }

  /** One tick of the outbox: every listed job whose XADD works has a new
      undelivered entry, a scheduled stream and a mark, and nothing else changes;
      if all work and the list was not cut short, no job that was due is left. */
  method OutboxPass(repo: Repository, queue: Streams.RedisQueue, listed: seq<JobId>, down: set<JobId>, now: int)
    requires queue.Ok() && ListsUnqueued(repo.jobs, now, listed)
    modifies repo, queue
    ensures queue.Ok() && repo.attempts == old(repo.attempts)
    ensures PutThrough(old(StoreOf(repo, queue)), StoreOf(repo, queue), Through(listed, down))
    ensures down == {} && |listed| < 500 ==> forall id | id in repo.jobs :: !Unqueued(repo.jobs[id], now)
  {
    ghost var jobs := repo.jobs;
    OutboxLoop(repo, queue, listed, down);
    if down == {} && |listed| < 500 {
      forall id | id in repo.jobs
        ensures !Unqueued(repo.jobs[id], now)
      {
        OutboxLeavesNothingDue(jobs, listed, now, id);
      }
    }
  }

  /** When XADD works and the list was not cut short, nothing due is left. */
  lemma OutboxLeavesNothingDue(jobs: map<JobId, Job>, listed: seq<JobId>, now: int, id: JobId)
    requires ListsUnqueued(jobs, now, listed) && |listed| < 500 && id in jobs
    ensures !Unqueued(MarkedAll(jobs, Through(listed, {}))[id], now)
  {
  }

  // --- The rows of the pipeline are the rows of the table ---

  function RowOf(j: Job): Pipeline.Row {
    Pipeline.Row(j.status, j.enqueued, j.stream)
  }

  ghost predicate SameRows(jobs: map<JobId, Job>, rows: map<JobId, Pipeline.Row>) {
    rows.Keys == jobs.Keys && forall id | id in jobs :: rows[id] == RowOf(jobs[id])
  }

  /** The step of the pipeline that a step of the table is, given who takes it. */
  function PipelineStep(db: Db, step: Step, who: nat): Option<Pipeline.Step>
    requires Enabled(db, step)
  {
    match step
    case Create(id, _, stream, _, _) => Some(Pipeline.CreateJob(who, id, stream))
    case MarkEnqueued(id) => Some(Pipeline.Mark(who))
    case ResetForRetry(id) => if CanReset(db, id) then Some(Pipeline.ResetForRetry(who, id)) else None
    case Process(id, Tried(_), _) => Some(Pipeline.Record(who, Next(db, step).jobs[id].status))
    case Process(id, Postponed(_), _) => Some(Pipeline.Record(who, Retrying))
    case Process(_, _, _) => None
  }

  /** `who` is the process that takes the step: an enqueuer or a task on this job. */
  ghost predicate TakenBy(s: Pipeline.State, step: Step, who: nat) {
    match step
    case MarkEnqueued(id) => who in s.enqueuers && s.enqueuers[who].job == id
    case Process(id, _, _) => who in s.tasks && s.tasks[who].job == id
    case _ => true
  }

  /** Every step of the table is, on the columns the pipeline keeps, the step of the
      pipeline by the process that takes it; or it changes none of them. */
  lemma PipelineFollowsTheTable(db: Db, step: Step, s: Pipeline.State, who: nat)
    requires Enabled(db, step) && SameRows(db.jobs, s.jobs) && TakenBy(s, step, who)
    requires var p := PipelineStep(db, step, who); p.Some? ==> Pipeline.Enabled(s, p.value)
    ensures var p := PipelineStep(db, step, who);
            SameRows(Next(db, step).jobs, if p.Some? then Pipeline.NextJobs(s, p.value) else s.jobs)
  {
  }
}
