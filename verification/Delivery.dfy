/** What happens to one delivery job from creation to its end: the rows of
    delivery_jobs and delivery_attempts (src/features/delivery/repository.rs) and
    process_one (src/worker/consumer.rs), taken as one step per message. */
module Delivery {
  import opened Wrappers
  import opened Jobs

  datatype Job = Job(
    endpoint: string,
    stream: string,
    status: Status,
    attempt: nat,
    maxAttempts: int,
    retryAfter: Option<int>,
    enqueued: bool,
    createdAt: int)

  /** What an HTTP call came to. */
  datatype Outcome = Delivered | Refused | TimedOut
  datatype Result = Result(outcome: Outcome, httpStatus: Option<int>, retryAfterSecs: Option<nat>)

  datatype Attempt = Attempt(job: JobId, number: nat, outcome: Outcome, httpStatus: Option<int>)
  datatype Wait = Wait(job: JobId, secs: nat)

  /** The two tables, with a history of scheduled backoffs and of manual
      retries. */
  datatype Db = Db(jobs: map<JobId, Job>, attempts: seq<Attempt>, waits: seq<Wait>, retries: map<JobId, nat>)

  const INIT := Db(map[], [], [], map[])

  // --- Backoff ---

  function Pow2(n: nat): nat {
    if n == 0 then 1 else 2 * Pow2(n - 1)
  }

  /** Seconds until the next try, after `attempt` earlier ones. */
  function Backoff(attempt: nat): nat {
    Min(30 * Pow2(attempt), 3600)
  }

  function Min(a: int, b: int): int { if a <= b then a else b }
  function Max(a: int, b: int): int { if a <= b then b else a }

  function TotalBackoff(n: nat): nat {
    if n == 0 then 0 else TotalBackoff(n - 1) + Backoff(n - 1)
  }

  lemma {:induction false} Pow2Grows(m: nat, n: nat)
    requires m <= n
    ensures Pow2(m) <= Pow2(n)
    decreases n
  {
    if m == n {
    } else {
      Pow2Grows(m, n - 1);
    }
  }

  lemma SmallPowers()
    ensures Pow2(6) == 64 && Pow2(7) == 128
  {
  }

  lemma {:induction false} Pow2Adds(m: nat, n: nat)
    ensures Pow2(m + n) == Pow2(m) * Pow2(n)
  {
    if m == 0 {
    } else {
      Pow2Adds(m - 1, n);
      assert Pow2(m + n) == 2 * Pow2(m - 1 + n);
    }
  }

  /** The product 30 * 2^attempt fits 64 bits exactly up to attempt 59. */
  lemma BackoffFits(attempt: nat)
    ensures 30 * Pow2(attempt) < Pow2(64) <==> attempt <= 59
  {
    assert Pow2(64) == 32 * Pow2(59) by {
      assert Pow2(5) == 32;
      Pow2Adds(5, 59);
    }
    Pow2Grows(0, 59);
    if attempt <= 59 {
      Pow2Grows(attempt, 59);
    } else {
      Pow2Grows(60, attempt);
    }
  }

  lemma {:induction false} BackoffSchedule(n: nat)
    ensures n <= 7 ==> TotalBackoff(n) == 30 * (Pow2(n) - 1)
    ensures n >= 7 ==> TotalBackoff(n) == 3810 + 3600 * (n - 7)
  {
    SmallPowers();
    if n > 0 {
      BackoffSchedule(n - 1);
      if n <= 7 {
        Pow2Grows(n - 1, 6);
      } else {
        Pow2Grows(7, n - 1);
      }
    }
  }

  // --- Steps ---

  /** What a worker does with a message. */
  datatype Verdict = Unread | Skipped | Postponed(until: int) | Tried(result: Result)

  datatype Step =
    | Create(id: JobId, endpoint: string, stream: string, maxAttempts: int, now: int)
    | MarkEnqueued(id: JobId)
    | Process(id: JobId, verdict: Verdict, now: int)
    | ResetForRetry(id: JobId)

  predicate Enabled(db: Db, step: Step) {
    match step
    case Create(id, _, _, _, _) => id !in db.jobs
    case MarkEnqueued(_) => true
    case Process(id, verdict, _) =>
      verdict.Postponed? || verdict.Tried? ==> id in db.jobs && Deliverable(db.jobs[id].status)
    case ResetForRetry(_) => true
  }

  function Deferred(j: Job, until: int): Job {
    j.(status := Retrying, retryAfter := Some(until), enqueued := false)
  }

  predicate RetriesAgain(j: Job, r: Result) {
    r.outcome != Delivered && j.attempt + 1 < j.maxAttempts
  }

  /** complete_job, schedule_retry or fail_job on the row `j`, decided from the
      row as the worker fetched it. None of them looks at the current status. */
  function Written(j: Job, fetched: Job, r: Result, now: int): Job {
    if r.outcome == Delivered then j.(status := Success, attempt := j.attempt + 1)
    else if RetriesAgain(fetched, r) then
      j.(status := Retrying, attempt := j.attempt + 1, enqueued := false,
         retryAfter := Some(now + 1000 * Backoff(fetched.attempt)))
    else j.(status := Failed, attempt := j.attempt + 1)
  }

  function Concluded(j: Job, r: Result, now: int): Job {
    Written(j, j, r, now)
  }

  /** A worker that fetched `fetched` writes back what its call came to. */
  function WriteBack(db: Db, id: JobId, fetched: Job, r: Result, now: int): Db
    requires id in db.jobs
  {
    Db(db.jobs[id := Written(db.jobs[id], fetched, r, now)],
       db.attempts + [Attempt(id, fetched.attempt + 1, r.outcome, r.httpStatus)],
       if RetriesAgain(fetched, r) then db.waits + [Wait(id, Backoff(fetched.attempt))] else db.waits,
       db.retries)
  }

  function AfterTry(db: Db, id: JobId, r: Result, now: int): Db
    requires id in db.jobs
  {
    WriteBack(db, id, db.jobs[id], r, now)
  }

  function Processed(db: Db, id: JobId, verdict: Verdict, now: int): Db
    requires Enabled(db, Process(id, verdict, now))
  {
    match verdict
    case Postponed(until) => db.(jobs := db.jobs[id := Deferred(db.jobs[id], until)])
    case Tried(r) => AfterTry(db, id, r, now)
    case _ => db
  }

  function RetriesOf(db: Db, id: JobId): nat {
    if id in db.retries then db.retries[id] else 0
  }

  predicate CanReset(db: Db, id: JobId) {
    id in db.jobs && db.jobs[id].status == Failed
  }

  function Reset(db: Db, id: JobId): Db {
    if CanReset(db, id)
    then db.(jobs := db.jobs[id := db.jobs[id].(status := Pending, enqueued := false)],
             retries := db.retries[id := RetriesOf(db, id) + 1])
    else db
  }

  function Marked(jobs: map<JobId, Job>, id: JobId): map<JobId, Job> {
    if id in jobs then jobs[id := jobs[id].(enqueued := true)] else jobs
  }

  function Next(db: Db, step: Step): Db
    requires Enabled(db, step)
  {
    match step
    case Create(id, endpoint, stream, maxAttempts, now) =>
      db.(jobs := db.jobs[id := Job(endpoint, stream, Pending, 0, maxAttempts, None, false, now)])
    case MarkEnqueued(id) => db.(jobs := Marked(db.jobs, id))
    case Process(id, verdict, now) => Processed(db, id, verdict, now)
    case ResetForRetry(id) => Reset(db, id)
  }

  predicate Legal(db: Db, steps: seq<Step>)
    decreases steps
  {
    steps == [] || (Enabled(db, steps[0]) && Legal(Next(db, steps[0]), steps[1..]))
  }

  function Exec(db: Db, steps: seq<Step>): Db
    requires Legal(db, steps)
    decreases steps
  {
    if steps == [] then db else Exec(Next(db, steps[0]), steps[1..])
  }

  // --- Accounting ---

  /** The job's own rows, oldest first. */
  function AttemptsOf(attempts: seq<Attempt>, id: JobId): seq<Attempt> {
    if attempts == [] then [] else
    var last := attempts[|attempts| - 1];
    AttemptsOf(attempts[..|attempts| - 1], id) + if last.job == id then [last] else []
  }

  function WaitsOf(waits: seq<Wait>, id: JobId): seq<nat> {
    if waits == [] then [] else
    var last := waits[|waits| - 1];
    WaitsOf(waits[..|waits| - 1], id) + if last.job == id then [last.secs] else []
  }

  lemma AttemptsOfSnoc(attempts: seq<Attempt>, a: Attempt, id: JobId)
    ensures AttemptsOf(attempts + [a], id) == AttemptsOf(attempts, id) + if a.job == id then [a] else []
  {
  }

  /** Numbered 1, 2, ... without a gap; a delivery that went through is the last. */
  ghost predicate Numbered(rows: seq<Attempt>, j: Job) {
    && |rows| == j.attempt
    && (forall i | 0 <= i < |rows| :: rows[i].number == i + 1)
    && (forall i | 0 <= i < |rows| :: rows[i].outcome == Delivered <==> j.status == Success && i == |rows| - 1)
  }

  /** How many tries a job gets: what it is configured for, at least one, and one
      for each manual retry. */
  function Budget(j: Job, retries: nat): int {
    Max(1, j.maxAttempts) + retries
  }

  ghost predicate WithinBudget(j: Job, retries: nat) {
    match j.status
    case Failed => j.attempt == Budget(j, retries)
    case Success => 1 <= j.attempt <= Budget(j, retries)
    case _ => j.attempt < Budget(j, retries) && (retries > 0 ==> j.attempt == Budget(j, retries) - 1)
  }

  /** The backoffs scheduled so far are the schedule's first ones. */
  ghost predicate OnSchedule(waits: seq<nat>, j: Job) {
    && |waits| == Min(if j.status == Success then j.attempt - 1 else j.attempt, Max(1, j.maxAttempts) - 1)
    && forall i | 0 <= i < |waits| :: waits[i] == Backoff(i)
  }

  ghost predicate Accounted(rows: seq<Attempt>, waits: seq<nat>, j: Job, retries: nat) {
    Numbered(rows, j) && WithinBudget(j, retries) && OnSchedule(waits, j)
  }

  ghost predicate JobInv(db: Db, id: JobId) {
    if id in db.jobs then
      Accounted(AttemptsOf(db.attempts, id), WaitsOf(db.waits, id), db.jobs[id], RetriesOf(db, id))
    else
      AttemptsOf(db.attempts, id) == [] && WaitsOf(db.waits, id) == [] && RetriesOf(db, id) == 0
  }

  lemma TryKeepsAccount(rows: seq<Attempt>, waits: seq<nat>, j: Job, retries: nat, r: Result, now: int, id: JobId)
    requires Accounted(rows, waits, j, retries) && Deliverable(j.status)
    ensures Accounted(rows + [Attempt(id, j.attempt + 1, r.outcome, r.httpStatus)],
                      if RetriesAgain(j, r) then waits + [Backoff(j.attempt)] else waits,
                      Concluded(j, r, now), retries)
  {
  }

  lemma TryAddsOneRow(db: Db, job: JobId, r: Result, now: int, id: JobId)
    requires job in db.jobs
    ensures var j, db' := db.jobs[job], AfterTry(db, job, r, now);
            && AttemptsOf(db'.attempts, id)
               == AttemptsOf(db.attempts, id)
                  + (if job == id then [Attempt(id, j.attempt + 1, r.outcome, r.httpStatus)] else [])
            && WaitsOf(db'.waits, id)
               == WaitsOf(db.waits, id) + (if job == id && RetriesAgain(j, r) then [Backoff(j.attempt)] else [])
  {
  }

  lemma TryKeepsJobInv(db: Db, job: JobId, r: Result, now: int, id: JobId)
    requires JobInv(db, id) && job in db.jobs && Deliverable(db.jobs[job].status)
    ensures JobInv(AfterTry(db, job, r, now), id)
  {
    var rows, waits := AttemptsOf(db.attempts, id), WaitsOf(db.waits, id);
    var db' := AfterTry(db, job, r, now);
    TryAddsOneRow(db, job, r, now, id);
    assert waits + [] == waits && rows + [] == rows;
    assert RetriesOf(db', id) == RetriesOf(db, id);
    if job == id {
      var j := db.jobs[id];
      TryKeepsAccount(rows, waits, j, RetriesOf(db, id), r, now, id);
      assert WaitsOf(db'.waits, id) == if RetriesAgain(j, r) then waits + [Backoff(j.attempt)] else waits;
      assert db'.jobs[id] == Concluded(j, r, now);
    } else if id in db.jobs {
      assert db'.jobs[id] == db.jobs[id];
    }
  }

  lemma UntriedKeepsAccount(rows: seq<Attempt>, waits: seq<nat>, j: Job, retries: nat, j': Job)
    requires Accounted(rows, waits, j, retries) && j'.attempt == j.attempt && j'.maxAttempts == j.maxAttempts
    ensures j.status == j'.status || (Deliverable(j.status) && Deliverable(j'.status)) ==>
              Accounted(rows, waits, j', retries)
    ensures j.status == Failed && j'.status == Pending ==> Accounted(rows, waits, j', retries + 1)
  {
  }

  /** What a step without a call can do to a job that is there. */
  ghost predicate Untried(db: Db, db': Db, id: JobId) {
    && db'.attempts == db.attempts && db'.waits == db.waits && id in db.jobs && id in db'.jobs
    && var j, j' := db.jobs[id], db'.jobs[id];
    && j'.attempt == j.attempt && j'.maxAttempts == j.maxAttempts
    && if RetriesOf(db', id) == RetriesOf(db, id)
       then j.status == j'.status || (Deliverable(j.status) && Deliverable(j'.status))
       else RetriesOf(db', id) == RetriesOf(db, id) + 1 && j.status == Failed && j'.status == Pending
  }

  lemma UntriedStep(db: Db, step: Step, id: JobId)
    requires Enabled(db, step) && !(step.Process? && step.verdict.Tried?) && id in db.jobs
    ensures Untried(db, Next(db, step), id)
  {
  }

  lemma AbsentStep(db: Db, step: Step, id: JobId)
    requires JobInv(db, id) && Enabled(db, step) && !(step.Process? && step.verdict.Tried?) && id !in db.jobs
    ensures JobInv(Next(db, step), id)
  {
    var db' := Next(db, step);
    assert db'.attempts == db.attempts && db'.waits == db.waits && RetriesOf(db', id) == 0;
  }

  lemma UntriedKeepsJobInv(db: Db, db': Db, id: JobId)
    requires JobInv(db, id) && Untried(db, db', id)
    ensures JobInv(db', id)
  {
    UntriedKeepsAccount(
      AttemptsOf(db.attempts, id), WaitsOf(db.waits, id), db.jobs[id], RetriesOf(db, id), db'.jobs[id]);
  }

  lemma StepKeepsJobInv(db: Db, step: Step, id: JobId)
    requires JobInv(db, id) && Enabled(db, step)
    ensures JobInv(Next(db, step), id)
  {
    if step.Process? && step.verdict.Tried? {
      TryKeepsJobInv(db, step.id, step.verdict.result, step.now, id);
    } else if id in db.jobs {
      UntriedStep(db, step, id);
      UntriedKeepsJobInv(db, Next(db, step), id);
    } else {
      AbsentStep(db, step, id);
    }
  }

  lemma {:induction false} RunKeepsJobInv(db: Db, steps: seq<Step>, id: JobId)
    requires JobInv(db, id) && Legal(db, steps)
    ensures JobInv(Exec(db, steps), id)
    decreases steps
  {
    if steps == [] {
    } else {
      StepKeepsJobInv(db, steps[0], id);
      RunKeepsJobInv(Next(db, steps[0]), steps[1..], id);
    }
  }

  /** HTTP calls a run makes for a job. */
  function Calls(steps: seq<Step>, id: JobId): nat {
    if steps == [] then 0
    else (if steps[0].Process? && steps[0].id == id && steps[0].verdict.Tried? then 1 else 0) + Calls(steps[1..], id)
  }

  function AttemptOf(db: Db, id: JobId): nat {
    if id in db.jobs then db.jobs[id].attempt else 0
  }

  lemma {:induction false} AttemptCountsCalls(db: Db, steps: seq<Step>, id: JobId)
    requires Legal(db, steps)
    ensures AttemptOf(Exec(db, steps), id) == AttemptOf(db, id) + Calls(steps, id)
    decreases steps
  {
    if steps == [] {
    } else {
      AttemptCountsCalls(Next(db, steps[0]), steps[1..], id);
    }
  }

  function Sum(s: seq<nat>): nat {
    if s == [] then 0 else Sum(s[..|s| - 1]) + s[|s| - 1]
  }

  lemma {:induction false} SumOfSchedule(waits: seq<nat>)
    requires forall i | 0 <= i < |waits| :: waits[i] == Backoff(i)
    ensures Sum(waits) == TotalBackoff(|waits|)
  {
    if waits == [] {
    } else {
      SumOfSchedule(waits[..|waits| - 1]);
    }
  }

  /** Over every run of creations, deliveries, deferrals, crashes and manual
      retries: the attempt rows of a job are numbered exactly 1 to its attempt
      count, which is the number of HTTP calls made for it and never exceeds the
      configured number plus the manual retries; a failed job has used them all;
      and the waits it was given are the backoff schedule's. */
  lemma AttemptsAreAccounted(steps: seq<Step>, id: JobId)
    requires Legal(INIT, steps) && id in Exec(INIT, steps).jobs
    ensures var db := Exec(INIT, steps);
            var j, budget := db.jobs[id], Max(1, db.jobs[id].maxAttempts) + RetriesOf(db, id);
            && Numbered(AttemptsOf(db.attempts, id), j)
            && j.attempt == Calls(steps, id) <= budget
            && (j.status == Failed ==> j.attempt == budget)
            && (Deliverable(j.status) ==> j.attempt < budget)
            && Sum(WaitsOf(db.waits, id)) == TotalBackoff(|WaitsOf(db.waits, id)|)
            && |WaitsOf(db.waits, id)| <= Max(1, j.maxAttempts) - 1
  {
    RunKeepsJobInv(INIT, steps, id);
    AttemptCountsCalls(INIT, steps, id);
    SumOfSchedule(WaitsOf(Exec(INIT, steps).waits, id));
  }

  /** A run reaches a retry of a job configured for `m` attempts whose product
      does not fit 64 bits. */
  ghost predicate Overflows(steps: seq<Step>, id: JobId, r: Result, m: int) {
    && Legal(INIT, steps) && id in Exec(INIT, steps).jobs
    && var j := Exec(INIT, steps).jobs[id];
    && j.maxAttempts == m && Deliverable(j.status) && RetriesAgain(j, r) && 30 * Pow2(j.attempt) >= Pow2(64)
  }

  /** Some run does exactly when 62 or more attempts are configured. */
  lemma BackoffOverflowsExactlyFrom62(m: int)
    ensures (exists steps, id, r :: Overflows(steps, id, r, m)) <==> m >= 62
  {
    if steps, id, r :| Overflows(steps, id, r, m) {
      BackoffFits(Exec(INIT, steps).jobs[id].attempt);
    }
    if m >= 62 {
      var r := Result(TimedOut, None, None);
      var steps := FailingRun("", m, 60);
      BackoffFits(60);
      assert Overflows(steps, "", r, m);
    }
  }

  /** A job that fails `n` times and is to be tried again. */
  lemma {:induction false} FailingRun(id: JobId, m: int, n: nat) returns (steps: seq<Step>)
    requires n < m
    ensures Legal(INIT, steps) && id in Exec(INIT, steps).jobs
    ensures var j := Exec(INIT, steps).jobs[id]; j.maxAttempts == m && j.attempt == n && Deliverable(j.status)
  {
    if n == 0 {
      steps := [];
      AppendStep(INIT, steps, Create(id, "", "", m, 0));
      steps := steps + [Create(id, "", "", m, 0)];
    } else {
      steps := FailingRun(id, m, n - 1);
      var fail := Process(id, Tried(Result(TimedOut, None, None)), 0);
      AppendStep(INIT, steps, fail);
      steps := steps + [fail];
    }
  }

  lemma {:induction false} AppendStep(db: Db, steps: seq<Step>, step: Step)
    requires Legal(db, steps) && Enabled(Exec(db, steps), step)
    ensures Legal(db, steps + [step]) && Exec(db, steps + [step]) == Next(Exec(db, steps), step)
    decreases steps
  {
    if steps == [] {
      assert [step][1..] == [];
    } else {
      AppendStep(Next(db, steps[0]), steps[1..], step);
      assert (steps + [step])[1..] == steps[1..] + [step];
    }
  }

  // --- What a creation fixes ---

  ghost predicate SameColumns(j: Job, j': Job) {
    j'.endpoint == j.endpoint && j'.stream == j.stream && j'.maxAttempts == j.maxAttempts && j'.createdAt == j.createdAt
  }

  lemma {:induction false} ColumnsStay(db: Db, steps: seq<Step>, id: JobId)
    requires Legal(db, steps) && id in db.jobs
    ensures id in Exec(db, steps).jobs && SameColumns(db.jobs[id], Exec(db, steps).jobs[id])
    decreases steps
  {
    if steps == [] {
    } else {
      ColumnsStay(Next(db, steps[0]), steps[1..], id);
    }
  }

  lemma {:induction false} CreatedFrom(db: Db, steps: seq<Step>, k: nat)
    requires Legal(db, steps) && k < |steps| && steps[k].Create?
    ensures var c := steps[k];
            && c.id in Exec(db, steps).jobs
            && var j := Exec(db, steps).jobs[c.id];
            && j.endpoint == c.endpoint && j.stream == c.stream
            && j.maxAttempts == c.maxAttempts && j.createdAt == c.now
    decreases steps
  {
    if k == 0 {
      ColumnsStay(Next(db, steps[0]), steps[1..], steps[0].id);
    } else {
      CreatedFrom(Next(db, steps[0]), steps[1..], k - 1);
    }
  }

  /** Manual retries of a job that found it failed. */
  function Resets(db: Db, steps: seq<Step>, id: JobId): nat
    requires Legal(db, steps)
    decreases steps
  {
    if steps == [] then 0
    else (if steps[0] == ResetForRetry(id) && id in db.jobs && db.jobs[id].status == Failed then 1 else 0)
         + Resets(Next(db, steps[0]), steps[1..], id)
  }

  lemma {:induction false} RetriesCountResets(db: Db, steps: seq<Step>, id: JobId)
    requires Legal(db, steps)
    ensures RetriesOf(Exec(db, steps), id) == RetriesOf(db, id) + Resets(db, steps, id)
    decreases steps
  {
    if steps == [] {
    } else {
      RetriesCountResets(Next(db, steps[0]), steps[1..], id);
    }
  }

  /** In every run a job has, ever after its creation, the endpoint, stream, limit of
      attempts and time it was created with; the calls made for it are counted by its
      attempt, none before the first, and are at most that limit (at least one) plus
      the manual retries that found it failed. */
  lemma CreationIsKept(steps: seq<Step>, k: nat)
    requires Legal(INIT, steps) && k < |steps| && steps[k].Create?
    ensures var c, db := steps[k], Exec(INIT, steps);
            && c.id in db.jobs
            && var j := db.jobs[c.id];
            && j.endpoint == c.endpoint && j.stream == c.stream
            && j.maxAttempts == c.maxAttempts && j.createdAt == c.now
            && j.attempt == Calls(steps, c.id)
            && j.attempt <= (if c.maxAttempts >= 1 then c.maxAttempts else 1) + Resets(INIT, steps, c.id)
            && (j.status == Failed ==>
                  j.attempt == (if c.maxAttempts >= 1 then c.maxAttempts else 1) + Resets(INIT, steps, c.id))
  {
    CreatedFrom(INIT, steps, k);
    AttemptsAreAccounted(steps, steps[k].id);
    RetriesCountResets(INIT, steps, steps[k].id);
  }

  lemma StepLeavesSuccess(db: Db, step: Step, id: JobId)
    requires Enabled(db, step) && id in db.jobs && db.jobs[id].status == Success
    ensures var db' := Next(db, step);
            && id in db'.jobs && db'.jobs[id].status == Success && db'.jobs[id].attempt == db.jobs[id].attempt
            && AttemptsOf(db'.attempts, id) == AttemptsOf(db.attempts, id)
            && Calls([step], id) == 0
  {
    if step.Process? && step.verdict.Tried? {
      var r := step.verdict.result;
      AttemptsOfSnoc(db.attempts, Attempt(step.id, db.jobs[step.id].attempt + 1, r.outcome, r.httpStatus), id);
    }
  }

  /** Success is the end: whatever runs afterwards, the row keeps its status and
      attempt, no attempt is added and no call is made. */
  lemma {:induction false} SuccessIsFinal(db: Db, steps: seq<Step>, id: JobId)
    requires Legal(db, steps) && id in db.jobs && db.jobs[id].status == Success
    ensures var db' := Exec(db, steps);
            && id in db'.jobs && db'.jobs[id].status == Success && db'.jobs[id].attempt == db.jobs[id].attempt
            && AttemptsOf(db'.attempts, id) == AttemptsOf(db.attempts, id)
            && Calls(steps, id) == 0
    decreases steps
  {
    if steps == [] {
    } else {
      StepLeavesSuccess(db, steps[0], id);
      SuccessIsFinal(Next(db, steps[0]), steps[1..], id);
    }
  }

  // --- Overlap ---

  /** A job can be in the stream twice (two pollers, or a reclaim from a slow
      worker), and then several workers fetch it before any of them writes. None of
      the writes looks at the row as it is now. Here a message is several steps. */
  datatype Fetched = Fetched(id: JobId, row: Job)

  /** The tables, the workers between their fetch and their write, and every
      number a worker has gone by. */
  datatype Shared = Shared(db: Db, tasks: map<nat, Fetched>, used: set<nat>)

  datatype Act =
    | Elsewhere(step: Step)  // creations, marks and manual retries
    | Fetch(task: nat, id: JobId)
    | WriteResult(task: nat, result: Result, now: int)
    | Postpone(task: nat, until: int)
    | Drop(task: nat)

  predicate Can(s: Shared, act: Act) {
    match act
    case Elsewhere(step) => !step.Process? && Enabled(s.db, step)
    case Fetch(task, id) => task !in s.used && id in s.db.jobs && Deliverable(s.db.jobs[id].status)
    case WriteResult(task, _, _) => task in s.tasks && s.tasks[task].id in s.db.jobs
    case Postpone(task, _) => task in s.tasks && s.tasks[task].id in s.db.jobs
    case Drop(task) => task in s.tasks
  }

  function Do(s: Shared, act: Act): Shared
    requires Can(s, act)
  {
    match act
    case Elsewhere(step) => s.(db := Next(s.db, step))
    case Fetch(task, id) => s.(tasks := s.tasks[task := Fetched(id, s.db.jobs[id])], used := s.used + {task})
    case WriteResult(task, r, now) =>
      s.(db := WriteBack(s.db, s.tasks[task].id, s.tasks[task].row, r, now), tasks := s.tasks - {task})
    case Postpone(task, until) =>
      var id := s.tasks[task].id;
      s.(db := s.db.(jobs := s.db.jobs[id := Deferred(s.db.jobs[id], until)]), tasks := s.tasks - {task})
    case Drop(task) => s.(tasks := s.tasks - {task})
  }

  predicate CanAll(s: Shared, acts: seq<Act>)
    decreases acts
  {
    acts == [] || (Can(s, acts[0]) && CanAll(Do(s, acts[0]), acts[1..]))
  }

  predicate Succeeded(s: Shared, id: JobId) {
    id in s.db.jobs && s.db.jobs[id].status == Success
  }

  /** The job is a success from here to the end. */
  predicate Survives(s: Shared, acts: seq<Act>, id: JobId)
    requires CanAll(s, acts)
    decreases acts
  {
    Succeeded(s, id) && (acts == [] || Survives(Do(s, acts[0]), acts[1..], id))
  }

  /** A worker that had fetched the job by the time of `s` writes something other
      than a delivery. */
  predicate Undoes(s: Shared, act: Act, id: JobId) {
    && ((act.WriteResult? && act.result.outcome != Delivered) || act.Postpone?)
    && act.task in s.tasks && s.tasks[act.task].id == id
  }

  lemma ActOnSuccess(s: Shared, act: Act, id: JobId)
    requires Can(s, act) && Succeeded(s, id)
    ensures Succeeded(Do(s, act), id) <==> !Undoes(s, act, id)
    ensures forall t | t in Do(s, act).tasks && Do(s, act).tasks[t].id == id :: t in s.tasks && s.tasks[t].id == id
  {
  }

  /** A worker's number is not used again. */
  lemma {:induction false} GoneForGood(s: Shared, acts: seq<Act>, t: nat, k: nat)
    requires CanAll(s, acts) && t in s.used && t !in s.tasks && k < |acts|
    ensures !(acts[k].WriteResult? && acts[k].task == t) && !(acts[k].Postpone? && acts[k].task == t)
    decreases acts
  {
    if k == 0 {
    } else {
      GoneForGood(Do(s, acts[0]), acts[1..], t, k - 1);
    }
  }

  lemma SameUndoers(s: Shared, acts: seq<Act>, id: JobId, k: nat)
    requires CanAll(s, acts) && s.tasks.Keys <= s.used && Succeeded(s, id) && 0 < k < |acts|
    ensures Undoes(s, acts[k], id) <==> Undoes(Do(s, acts[0]), acts[k], id)
  {
    var s1 := Do(s, acts[0]);
    ActOnSuccess(s, acts[0], id);
    if Undoes(s, acts[k], id) && acts[k].task !in s1.tasks {
      GoneForGood(s1, acts[1..], acts[k].task, k - 1);
    }
  }

  /** Over every run: a success lasts exactly when no worker that had fetched the
      job before it writes a failure or a deferral after it. */
  lemma {:induction false} SuccessLastsExactlyWhen(s: Shared, acts: seq<Act>, id: JobId)
    requires CanAll(s, acts) && s.tasks.Keys <= s.used && Succeeded(s, id)
    ensures Survives(s, acts, id) <==> forall k | 0 <= k < |acts| :: !Undoes(s, acts[k], id)
    decreases acts
  {
    if acts == [] {
    } else {
      var s1, rest := Do(s, acts[0]), acts[1..];
      ActOnSuccess(s, acts[0], id);
      if !Undoes(s, acts[0], id) {
        SuccessLastsExactlyWhen(s1, rest, id);
        forall k | 0 <= k < |rest|
          ensures Undoes(s1, rest[k], id) <==> Undoes(s, acts[k + 1], id)
        {
          SameUndoers(s, acts, id, k + 1);
        }
        assert forall k | 0 < k < |acts| :: acts[k] == rest[k - 1];
      }
    }
  }

  /** When it does not last: the delivered job is due again, and an attempt number
      is used twice. */
  lemma OverlapUndoesSuccess(db: Db, id: JobId, first: Result, second: Result, t1: int, t2: int)
    requires id in db.jobs && Deliverable(db.jobs[id].status) && JobInv(db, id)
    requires first.outcome == Delivered && RetriesAgain(db.jobs[id], second)
    ensures var j := db.jobs[id];
            var db1 := WriteBack(db, id, j, first, t1);
            var db2 := WriteBack(db1, id, j, second, t2);
            && db1.jobs[id].status == Success
            && Deliverable(db2.jobs[id].status) && !db2.jobs[id].enqueued
            && !Numbered(AttemptsOf(db2.attempts, id), db2.jobs[id])
  {
    var j := db.jobs[id];
    var a1 := Attempt(id, j.attempt + 1, first.outcome, first.httpStatus);
    var a2 := Attempt(id, j.attempt + 1, second.outcome, second.httpStatus);
    AttemptsOfSnoc(db.attempts, a1, id);
    AttemptsOfSnoc(db.attempts + [a1], a2, id);
    var rows := AttemptsOf(db.attempts, id) + [a1] + [a2];
    assert rows[|rows| - 1].number == rows[|rows| - 2].number;
  }

  // --- Attempt numbers under overlap ---

  const START := Shared(INIT, map[], {})

  function DoAll(s: Shared, acts: seq<Act>): Shared
    requires CanAll(s, acts)
    decreases acts
  {
    if acts == [] then s else DoAll(Do(s, acts[0]), acts[1..])
  }

  lemma {:induction false} SplitLast(s: Shared, acts: seq<Act>)
    requires CanAll(s, acts) && acts != []
    ensures var n := |acts| - 1;
            && CanAll(s, acts[..n]) && Can(DoAll(s, acts[..n]), acts[n])
            && DoAll(s, acts) == Do(DoAll(s, acts[..n]), acts[n])
    decreases acts
  {
    var n := |acts| - 1;
    if n == 0 {
      assert acts[..0] == [] && acts[1..] == [];
    } else {
      SplitLast(Do(s, acts[0]), acts[1..]);
      assert acts[1..][..n - 1] == acts[..n][1..] && acts[1..][n - 1] == acts[n];
    }
  }

  // Which fetch and which writes are whose, by position in the run.

  predicate FetchedAt(acts: seq<Act>, f: int, t: nat, id: JobId) {
    0 <= f < |acts| && acts[f] == Fetch(t, id)
  }

  ghost predicate WritesJob(acts: seq<Act>, k: int, id: JobId) {
    0 <= k < |acts| && acts[k].WriteResult? && exists f :: f < k && FetchedAt(acts, f, acts[k].task, id)
  }

  /** The write at `k` comes after another write of the job since its own fetch. */
  ghost predicate Overtaken(acts: seq<Act>, k: int, id: JobId) {
    && 0 <= k < |acts| && acts[k].WriteResult?
    && exists f, j :: f < j < k && FetchedAt(acts, f, acts[k].task, id) && WritesJob(acts, j, id)
  }

  ghost predicate NoneOvertaken(acts: seq<Act>, id: JobId) {
    forall k :: !Overtaken(acts, k, id)
  }

  ghost function Writes(acts: seq<Act>, id: JobId): nat {
    if acts == [] then 0
    else Writes(acts[..|acts| - 1], id) + if WritesJob(acts, |acts| - 1, id) then 1 else 0
  }

  lemma PrefixWrites(acts: seq<Act>, n: nat, k: int, id: JobId)
    requires k < n <= |acts|
    ensures WritesJob(acts[..n], k, id) <==> WritesJob(acts, k, id)
  {
    assert forall f, t | f < n :: FetchedAt(acts[..n], f, t, id) <==> FetchedAt(acts, f, t, id);
    if 0 <= k {
      assert acts[..n][k] == acts[k];
    }
  }

  lemma PrefixOvertaken(acts: seq<Act>, n: nat, k: int, id: JobId)
    requires k < n <= |acts|
    ensures Overtaken(acts[..n], k, id) <==> Overtaken(acts, k, id)
  {
    assert forall f, t | f < n :: FetchedAt(acts[..n], f, t, id) <==> FetchedAt(acts, f, t, id);
    forall j | j < n
      ensures WritesJob(acts[..n], j, id) <==> WritesJob(acts, j, id)
    {
      PrefixWrites(acts, n, j, id);
    }
    if 0 <= k {
      assert acts[..n][k] == acts[k];
    }
  }

  /** The count has not moved since `f` exactly when nobody wrote. */
  lemma {:induction false} QuietSince(acts: seq<Act>, f: nat, id: JobId)
    requires f <= |acts|
    ensures Writes(acts[..f], id) <= Writes(acts, id)
    ensures Writes(acts[..f], id) == Writes(acts, id) <==> forall j | f <= j :: !WritesJob(acts, j, id)
    decreases |acts|
  {
    if f == |acts| {
      assert acts[..f] == acts;
    } else {
      var n := |acts| - 1;
      assert acts[..n][..f] == acts[..f];
      QuietSince(acts[..n], f, id);
      forall j | j < n
        ensures WritesJob(acts[..n], j, id) <==> WritesJob(acts, j, id)
      {
        PrefixWrites(acts, n, j, id);
      }
    }
  }

  ghost predicate FetchesOk(acts: seq<Act>, s: Shared) {
    && (forall f, t, id | FetchedAt(acts, f, t, id) :: t in s.used)
    && (forall f, g, t, id, jd | FetchedAt(acts, f, t, id) && FetchedAt(acts, g, t, jd) :: f == g && id == jd)
  }

  /** Task `t` fetched its job at `f`, when the job's attempt counted the writes. */
  ghost predicate FetchedThen(acts: seq<Act>, s: Shared, t: nat, f: int)
    requires t in s.tasks
  {
    FetchedAt(acts, f, t, s.tasks[t].id) && s.tasks[t].row.attempt == Writes(acts[..f], s.tasks[t].id)
  }

  ghost predicate TasksOk(acts: seq<Act>, s: Shared) {
    forall t | t in s.tasks :: t in s.used && exists f :: FetchedThen(acts, s, t, f)
  }

  /** Numbered 1, 2, ... in the order they were written. */
  predicate InOrder(rows: seq<Attempt>) {
    forall i | 0 <= i < |rows| :: rows[i].number == i + 1
  }

  ghost predicate Tallied(acts: seq<Act>, db: Db, id: JobId) {
    && AttemptOf(db, id) == Writes(acts, id) == |AttemptsOf(db.attempts, id)|
    && (InOrder(AttemptsOf(db.attempts, id)) <==> NoneOvertaken(acts, id))
  }

  ghost predicate OverlapInv(acts: seq<Act>, s: Shared) {
    FetchesOk(acts, s) && TasksOk(acts, s) && forall id :: Tallied(acts, s.db, id)
  }

  lemma FetchesStayOk(acts: seq<Act>, s: Shared)
    requires acts != [] && Can(s, acts[|acts| - 1]) && FetchesOk(acts[..|acts| - 1], s)
    ensures FetchesOk(acts, Do(s, acts[|acts| - 1]))
  {
    var n := |acts| - 1;
    assert forall f, t, id | f < n :: FetchedAt(acts, f, t, id) <==> FetchedAt(acts[..n], f, t, id);
    assert forall f, t, id | FetchedAt(acts, f, t, id) :: f < n || (f == n && acts[n] == Fetch(t, id));
  }

  lemma TasksStayOk(acts: seq<Act>, s: Shared)
    requires acts != [] && Can(s, acts[|acts| - 1]) && OverlapInv(acts[..|acts| - 1], s)
    ensures TasksOk(acts, Do(s, acts[|acts| - 1]))
  {
    var n := |acts| - 1;
    var s' := Do(s, acts[n]);
    forall t | t in s'.tasks
      ensures t in s'.used && exists f :: FetchedThen(acts, s', t, f)
    {
      if t in s.tasks {
        var f :| FetchedThen(acts[..n], s, t, f);
        assert acts[..n][..f] == acts[..f];
        assert FetchedThen(acts, s', t, f);
      } else {
        assert Tallied(acts[..n], s.db, s'.tasks[t].id);
        assert FetchedThen(acts, s', t, n);
      }
    }
  }

  lemma QuietTables(s: Shared, act: Act, id: JobId)
    requires Can(s, act) && (act.WriteResult? ==> s.tasks[act.task].id != id)
    ensures AttemptOf(Do(s, act).db, id) == AttemptOf(s.db, id)
    ensures AttemptsOf(Do(s, act).db.attempts, id) == AttemptsOf(s.db.attempts, id)
  {
    if act.WriteResult? {
      var d := s.tasks[act.task];
      AttemptsOfSnoc(s.db.attempts, Attempt(d.id, d.row.attempt + 1, act.result.outcome, act.result.httpStatus), id);
    }
  }

  /** A step that writes no result for the job leaves its account alone. */
  lemma QuietTally(acts: seq<Act>, s: Shared, id: JobId)
    requires acts != [] && Can(s, acts[|acts| - 1]) && OverlapInv(acts[..|acts| - 1], s)
    requires acts[|acts| - 1].WriteResult? ==> s.tasks[acts[|acts| - 1].task].id != id
    ensures Tallied(acts, Do(s, acts[|acts| - 1]).db, id)
  {
    assert Tallied(acts[..|acts| - 1], s.db, id);
    QuietTables(s, acts[|acts| - 1], id);
    NotItsWrite(acts, s, id);
    OvertakenButLast(acts, id);
  }

  lemma OvertakenButLast(acts: seq<Act>, id: JobId)
    requires acts != []
    ensures NoneOvertaken(acts, id) <==> NoneOvertaken(acts[..|acts| - 1], id) && !Overtaken(acts, |acts| - 1, id)
  {
    var n := |acts| - 1;
    forall k | k < n
      ensures Overtaken(acts[..n], k, id) <==> Overtaken(acts, k, id)
    {
      PrefixOvertaken(acts, n, k, id);
    }
  }

  lemma NotItsWrite(acts: seq<Act>, s: Shared, id: JobId)
    requires acts != [] && Can(s, acts[|acts| - 1]) && OverlapInv(acts[..|acts| - 1], s)
    requires acts[|acts| - 1].WriteResult? ==> s.tasks[acts[|acts| - 1].task].id != id
    ensures !WritesJob(acts, |acts| - 1, id) && !Overtaken(acts, |acts| - 1, id)
  {
    var n := |acts| - 1;
    if acts[n].WriteResult? {
      var t := acts[n].task;
      var f :| FetchedThen(acts[..n], s, t, f);
      forall g | g < n
        ensures !FetchedAt(acts, g, t, id)
      {
        assert FetchedAt(acts, g, t, id) <==> FetchedAt(acts[..n], g, t, id);
      }
    }
  }

  /** A write is overtaken exactly when the count has moved since its fetch. */
  lemma OwnWrite(acts: seq<Act>, s: Shared) returns (f: nat)
    requires acts != [] && Can(s, acts[|acts| - 1]) && OverlapInv(acts[..|acts| - 1], s)
    requires acts[|acts| - 1].WriteResult?
    ensures var n := |acts| - 1;
            var d := s.tasks[acts[n].task];
            && f < n && d.row.attempt == Writes(acts[..f], d.id) <= Writes(acts[..n], d.id)
            && WritesJob(acts, n, d.id)
            && (Overtaken(acts, n, d.id) <==> Writes(acts[..f], d.id) != Writes(acts[..n], d.id))
  {
    var n := |acts| - 1;
    var t, id := acts[n].task, s.tasks[acts[n].task].id;
    var g :| FetchedThen(acts[..n], s, t, g);
    f := g;
    assert acts[..n][..f] == acts[..f];
    QuietSince(acts[..n], f, id);
    assert FetchedAt(acts, f, t, id);
    forall h | h < n && FetchedAt(acts, h, t, id)
      ensures h == f
    {
      assert FetchedAt(acts[..n], h, t, id);
    }
    forall j | j < n
      ensures WritesJob(acts[..n], j, id) <==> WritesJob(acts, j, id)
    {
      PrefixWrites(acts, n, j, id);
    }
  }

  lemma OneMoreInOrder(rows: seq<Attempt>, a: Attempt)
    ensures InOrder(rows + [a]) <==> InOrder(rows) && a.number == |rows| + 1
  {
    var more := rows + [a];
    assert forall i | 0 <= i < |rows| :: more[i] == rows[i];
    assert more[|rows|] == a;
  }

  function RowOf(d: Fetched, r: Result): Attempt {
    Attempt(d.id, d.row.attempt + 1, r.outcome, r.httpStatus)
  }

  lemma WriteTables(s: Shared, act: Act)
    requires act.WriteResult? && Can(s, act)
    ensures var d, db' := s.tasks[act.task], Do(s, act).db;
            && AttemptOf(db', d.id) == AttemptOf(s.db, d.id) + 1
            && AttemptsOf(db'.attempts, d.id) == AttemptsOf(s.db.attempts, d.id) + [RowOf(d, act.result)]
  {
    var d := s.tasks[act.task];
    AttemptsOfSnoc(s.db.attempts, RowOf(d, act.result), d.id);
  }

  lemma WriteTally(acts: seq<Act>, s: Shared, id: JobId)
    requires acts != [] && Can(s, acts[|acts| - 1]) && OverlapInv(acts[..|acts| - 1], s)
    requires acts[|acts| - 1].WriteResult? && s.tasks[acts[|acts| - 1].task].id == id
    ensures Tallied(acts, Do(s, acts[|acts| - 1]).db, id)
  {
    var n := |acts| - 1;
    assert Tallied(acts[..n], s.db, id);
    var f := OwnWrite(acts, s);
    OvertakenButLast(acts, id);
    WriteTables(s, acts[n]);
    OneMoreInOrder(AttemptsOf(s.db.attempts, id), RowOf(s.tasks[acts[n].task], acts[n].result));
  }

  lemma {:induction false} RunKeepsOverlapInv(acts: seq<Act>)
    requires CanAll(START, acts)
    ensures OverlapInv(acts, DoAll(START, acts))
    decreases |acts|
  {
    if acts == [] {
    } else {
      var n := |acts| - 1;
      SplitLast(START, acts);
      RunKeepsOverlapInv(acts[..n]);
      var s := DoAll(START, acts[..n]);
      FetchesStayOk(acts, s);
      TasksStayOk(acts, s);
      forall id
        ensures Tallied(acts, Do(s, acts[n]).db, id)
      {
        if acts[n].WriteResult? && s.tasks[acts[n].task].id == id {
          WriteTally(acts, s, id);
        } else {
          QuietTally(acts, s, id);
        }
      }
    }
  }

  /** Over every run of any number of workers: a job's attempt is the number of
      results written for it, and its rows are numbered 1 to attempt exactly when no
      worker writes a result after another worker's write of that job since its own
      fetch. */
  lemma NumberedExactlyWhen(acts: seq<Act>, id: JobId)
    requires CanAll(START, acts)
    ensures var db := DoAll(START, acts).db;
            && AttemptOf(db, id) == Writes(acts, id) == |AttemptsOf(db.attempts, id)|
            && (InOrder(AttemptsOf(db.attempts, id)) <==> forall k :: !Overtaken(acts, k, id))
  {
    RunKeepsOverlapInv(acts);
    assert Tallied(acts, DoAll(START, acts).db, id);
  }
}
