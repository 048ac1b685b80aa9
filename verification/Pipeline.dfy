/** The delivery pipeline as a whole: job rows in the database, entries in the
    streams, and every process that moves a job between them. One SQL statement
    or Redis command is one step; steps of any number of publishers, outbox
    pollers, workers, reclaimers, trimmers and manual retries interleave.

    The question is whether a job can be stranded: still to be delivered, marked
    as enqueued so that the outbox ignores it, and yet with no stream entry that
    any worker will still act on. The answer is exact: four kinds of step can do
    it, each under a condition that can be checked before the step. */
module Pipeline {
  import opened Wrappers
  import opened Jobs
  import opened Streams

  datatype Row = Row(status: Status, enqueued: bool, stream: Name)

  /** A process_one call. `Resolved`: it has written the outcome (or given the job
      up), and only the XACK is left. */
  datatype Phase = Got | Fetched | Resolved
  datatype Task = Task(stream: Name, entry: nat, job: JobId, phase: Phase)

  /** Someone who XADDs a job. Publishers, manual retry and the outbox mark the row
      afterwards (`added` is the entry, until then); the scheduler's fire does not. */
  datatype Enqueuer = Enqueuer(job: JobId, marks: bool, added: Option<nat>)

  datatype State = State(
    jobs: map<JobId, Row>,
    streams: map<Name, Stream>,
    tasks: map<nat, Task>,
    enqueuers: map<nat, Enqueuer>,
    trimmers: map<nat, Trimmer>,
    spent: set<(Name, nat)>)  // entries some task has resolved, or a trim has cut while pending

  const INIT := State(map[], map[], map[], map[], map[], {})

  datatype Step =
    | CreateGroup(name: Name)
    | CreateJob(enq: nat, job: JobId, name: Name)
    | FireJob(enq: nat, job: JobId, name: Name)
    | ResetForRetry(enq: nat, job: JobId)
    | ListUnqueued(enq: nat, job: JobId)
    | Add(enq: nat, id: nat)
    | Mark(enq: nat)
    | EnqueuerDies(enq: nat)
    | Read(name: Name, upto: nat, count: nat, tasks: map<nat, nat>)
    | AutoClaim(name: Name, gone: set<nat>, tasks: map<nat, nat>)
    | Fetch(task: nat)
    | FetchFails(task: nat)
    | FetchFindsEndpointGone(task: nat)  // endpoint inactive or without a live secret
    | Record(task: nat, outcome: Status)
    | RecordIsLost(task: nat)            // the outcome's UPDATE fails, XACK follows anyway
    | Acknowledge(task: nat)
    | Crash(task: nat)
    | TrimPending(trim: nat, name: Name)
    | TrimInfo(trim: nat)
    | TrimCut(trim: nat, below: nat)

  function Home(s: State, job: JobId): Name
    requires job in s.jobs
  {
    s.jobs[job].stream
  }

  ghost predicate Waiting(s: State, enq: nat) {
    enq in s.enqueuers && s.enqueuers[enq].job in s.jobs && Home(s, s.enqueuers[enq].job) in s.streams
  }

  ghost predicate InPhase(s: State, task: nat, phase: Phase) {
    task in s.tasks && s.tasks[task].phase == phase && s.tasks[task].stream in s.streams
  }

  /** get_job_for_delivery finds the task's job. */
  ghost predicate Found(s: State, task: nat)
    requires task in s.tasks
  {
    s.tasks[task].job in s.jobs && Deliverable(s.jobs[s.tasks[task].job].status)
  }

  ghost predicate Enabled(s: State, step: Step) {
    match step
    case CreateGroup(name) => name !in s.streams
    case CreateJob(enq, job, name) => enq !in s.enqueuers && job !in s.jobs && name in s.streams
    case FireJob(enq, job, name) => enq !in s.enqueuers && job !in s.jobs && name in s.streams
    case ResetForRetry(enq, job) => enq !in s.enqueuers && job in s.jobs && s.jobs[job].status == Failed
    case ListUnqueued(enq, job) =>
      enq !in s.enqueuers && job in s.jobs && Deliverable(s.jobs[job].status) && !s.jobs[job].enqueued
    case Add(enq, id) =>
      Waiting(s, enq) && s.enqueuers[enq].added.None? && id > s.streams[Home(s, s.enqueuers[enq].job)].top
    case Mark(enq) => Waiting(s, enq) && s.enqueuers[enq].added.Some?
    case EnqueuerDies(enq) => enq in s.enqueuers
    case Read(name, upto, count, tasks) =>
      && name in s.streams && ReadsUpTo(s.streams[name], upto, count)
      && tasks.Keys !! s.tasks.Keys && tasks.Values == Batch(s.streams[name], upto)
    case AutoClaim(name, gone, tasks) =>
      && name in s.streams && gone !! s.streams[name].entries.Keys
      && tasks.Keys !! s.tasks.Keys && tasks.Values <= s.streams[name].pending * s.streams[name].entries.Keys
    case Fetch(task) => InPhase(s, task, Got)
    case FetchFails(task) => InPhase(s, task, Got)
    case FetchFindsEndpointGone(task) => InPhase(s, task, Got)
    case Record(task, outcome) => InPhase(s, task, Fetched) && outcome != Pending
    case RecordIsLost(task) => InPhase(s, task, Fetched)
    case Acknowledge(task) => InPhase(s, task, Resolved)
    case Crash(task) => task in s.tasks
    case TrimPending(trim, name) => trim !in s.trimmers && name in s.streams
    case TrimInfo(trim) =>
      trim in s.trimmers && s.trimmers[trim].SawNonePending? && s.trimmers[trim].stream in s.streams
    case TrimCut(trim, below) =>
      && trim in s.trimmers && s.trimmers[trim].HasCutoff? && s.trimmers[trim].stream in s.streams
      && below <= s.trimmers[trim].cutoff
  }

  // What a step does, table by table.

  /** complete_job and fail_job leave enqueued_at alone; schedule_retry and
      defer_job clear it. None of them looks at the current status. */
  function Recorded(r: Row, outcome: Status): Row {
    if outcome == Retrying then r.(status := Retrying, enqueued := false) else r.(status := outcome)
  }

  function Marked(jobs: map<JobId, Row>, job: JobId): map<JobId, Row>
    requires job in jobs
  {
    jobs[job := jobs[job].(enqueued := true)]
  }

  ghost function NextJobs(s: State, step: Step): map<JobId, Row>
    requires Enabled(s, step)
  {
    match step
    case CreateJob(_, job, name) => s.jobs[job := Row(Pending, false, name)]
    case FireJob(_, job, name) => s.jobs[job := Row(Pending, false, name)]
    case ResetForRetry(_, job) => s.jobs[job := s.jobs[job].(status := Pending, enqueued := false)]
    case Mark(enq) => Marked(s.jobs, s.enqueuers[enq].job)
    case Record(task, outcome) =>
      var job := s.tasks[task].job;
      if job in s.jobs then s.jobs[job := Recorded(s.jobs[job], outcome)] else s.jobs
    case _ => s.jobs
  }

  /** The stream a step writes, and what it becomes. */
  ghost function Written(s: State, step: Step): Option<(Name, Stream)>
    requires Enabled(s, step)
  {
    match step
    case CreateGroup(name) => Some((name, EMPTY))
    case Add(enq, id) =>
      var job := s.enqueuers[enq].job;
      Some((Home(s, job), XAdd(s.streams[Home(s, job)], id, job)))
    case Read(name, upto, _, _) => Some((name, XReadGroup(s.streams[name], upto)))
    case AutoClaim(name, gone, _) => Some((name, XAutoClaim(s.streams[name], gone)))
    case Acknowledge(task) =>
      var t := s.tasks[task];
      Some((t.stream, XAck(s.streams[t.stream], t.entry)))
    case TrimCut(trim, below) =>
      var name := s.trimmers[trim].stream;
      Some((name, XTrim(s.streams[name], below)))
    case _ => None
  }

  ghost function NextStreams(s: State, step: Step): map<Name, Stream>
    requires Enabled(s, step)
  {
    match Written(s, step)
    case Some((name, stream)) => s.streams[name := stream]
    case None => s.streams
  }

  function Started(st: Stream, name: Name, tasks: map<nat, nat>): map<nat, Task>
    requires tasks.Values <= st.entries.Keys
  {
    map t | t in tasks :: Task(name, tasks[t], st.entries[tasks[t]], Got)
  }

  /** The task whose entry this step resolves: dealt with, up to the XACK. */
  ghost function Resolves(s: State, step: Step): Option<nat>
    requires Enabled(s, step)
  {
    match step
    case Fetch(task) => if Found(s, task) then None else Some(task)
    case FetchFindsEndpointGone(task) => Some(task)
    case Record(task, _) => Some(task)
    case RecordIsLost(task) => Some(task)
    case _ => None
  }

  ghost function NextTasks(s: State, step: Step): map<nat, Task>
    requires Enabled(s, step)
  {
    if Resolves(s, step).Some? then
      var task := Resolves(s, step).value;
      s.tasks[task := s.tasks[task].(phase := Resolved)]
    else
      match step
      case Read(name, _, _, tasks) => s.tasks + Started(s.streams[name], name, tasks)
      case AutoClaim(name, _, tasks) => s.tasks + Started(s.streams[name], name, tasks)
      case Fetch(task) => s.tasks[task := s.tasks[task].(phase := Fetched)]
      case FetchFails(task) => s.tasks - {task}
      case Acknowledge(task) => s.tasks - {task}
      case Crash(task) => s.tasks - {task}
      case _ => s.tasks
  }

  /** The pending entries of `name` that a cut below `below` drops. */
  function Cut(name: Name, st: Stream, below: nat): set<(Name, nat)> {
    set id | id in st.pending && id in st.entries && id < below :: (name, id)
  }

  ghost function NextSpent(s: State, step: Step): set<(Name, nat)>
    requires Enabled(s, step)
  {
    match Resolves(s, step)
    case Some(task) => s.spent + {(s.tasks[task].stream, s.tasks[task].entry)}
    case None =>
      if step.TrimCut? then
        var name := s.trimmers[step.trim].stream;
        s.spent + Cut(name, s.streams[name], step.below)
      else s.spent
  }

  ghost function NextEnqueuers(s: State, step: Step): map<nat, Enqueuer>
    requires Enabled(s, step)
  {
    match step
    case CreateJob(enq, job, _) => s.enqueuers[enq := Enqueuer(job, true, None)]
    case FireJob(enq, job, _) => s.enqueuers[enq := Enqueuer(job, false, None)]
    case ResetForRetry(enq, job) => s.enqueuers[enq := Enqueuer(job, true, None)]
    case ListUnqueued(enq, job) => s.enqueuers[enq := Enqueuer(job, true, None)]
    case Add(enq, id) =>
      if s.enqueuers[enq].marks then s.enqueuers[enq := s.enqueuers[enq].(added := Some(id))] else s.enqueuers - {enq}
    case Mark(enq) => s.enqueuers - {enq}
    case EnqueuerDies(enq) => s.enqueuers - {enq}
    case _ => s.enqueuers
  }

  ghost function NextTrimmers(s: State, step: Step): map<nat, Trimmer>
    requires Enabled(s, step)
  {
    match step
    case Read(name, upto, _, _) =>
      map t | t in s.trimmers :: NoteRead(s.trimmers[t], name, Batch(s.streams[name], upto))
    case TrimPending(trim, name) => s.trimmers[trim := AfterXPending(name, s.streams[name])]
    case TrimInfo(trim) => s.trimmers[trim := AfterXInfo(s.trimmers[trim], s.streams[s.trimmers[trim].stream])]
    case TrimCut(trim, _) => s.trimmers - {trim}
    case _ => s.trimmers
  }

  ghost function Next(s: State, step: Step): State
    requires Enabled(s, step)
  {
    State(NextJobs(s, step), NextStreams(s, step), NextTasks(s, step), NextEnqueuers(s, step),
          NextTrimmers(s, step), NextSpent(s, step))
  }

  ghost predicate Legal(s: State, steps: seq<Step>)
    decreases steps
  {
    steps == [] || (Enabled(s, steps[0]) && Legal(Next(s, steps[0]), steps[1..]))
  }

  ghost function Exec(s: State, steps: seq<Step>): State
    requires Legal(s, steps)
    decreases steps
  {
    if steps == [] then s else Exec(Next(s, steps[0]), steps[1..])
  }

  // --- The conservation property, and the steps that break it ---

  /** The entry is unread or pending. */
  ghost predicate Offers(st: Stream, job: JobId, id: nat) {
    id in st.entries && st.entries[id] == job && (id > st.lastDelivered || id in st.pending)
  }

  /** A worker has dealt with the entry and is about to acknowledge it. */
  ghost predicate Settling(tasks: map<nat, Task>, name: Name, id: nat) {
    exists t :: t in tasks && tasks[t].phase == Resolved && tasks[t].stream == name && tasks[t].entry == id
  }

  /** `id` is an entry that will still bring `job` to a worker: not yet read, or
      pending and not resolved by anyone who holds it. */
  ghost predicate Carries(s: State, job: JobId, id: nat)
    requires job in s.jobs
  {
    Home(s, job) in s.streams && Offers(s.streams[Home(s, job)], job, id) && !Settling(s.tasks, Home(s, job), id)
  }

  /** To be delivered, and marked so that the outbox does not see it. */
  ghost predicate AtRisk(s: State, job: JobId) {
    job in s.jobs && Deliverable(s.jobs[job].status) && s.jobs[job].enqueued
  }

  /** The outbox will find the job, or an entry carries it, or it is done. */
  ghost predicate Accounted(s: State, job: JobId) {
    AtRisk(s, job) ==> exists id :: Carries(s, job, id)
  }

  /** The exact conditions under which a step strands a job: a row is marked when
      nothing carries it any more; a worker gives up, or loses the outcome of, the
      only entry that carries a marked job; a trim cuts all that do. */
  ghost predicate Spoils(s: State, step: Step)
    requires Enabled(s, step)
  {
    match step
    case Mark(enq) =>
      var job := s.enqueuers[enq].job;
      Deliverable(s.jobs[job].status) && forall id :: !Carries(s, job, id)
    case FetchFindsEndpointGone(task) => LastChance(s, s.tasks[task])
    case RecordIsLost(task) => LastChance(s, s.tasks[task])
    case TrimCut(trim, below) => exists job :: CutsOff(s, s.trimmers[trim].stream, below, job)
    case _ => false
  }

  ghost predicate LastChance(s: State, t: Task) {
    AtRisk(s, t.job) && forall id: nat | Carries(s, t.job, id) :: id == t.entry
  }

  ghost predicate CutsOff(s: State, name: Name, below: nat, job: JobId) {
    AtRisk(s, job) && Home(s, job) == name && forall id: nat | Carries(s, job, id) :: id < below
  }

  ghost predicate Clean(s: State, steps: seq<Step>)
    requires Legal(s, steps)
    decreases steps
  {
    steps == [] || (!Spoils(s, steps[0]) && Clean(Next(s, steps[0]), steps[1..]))
  }

  // --- What every step keeps, spoiling or not ---

  ghost predicate TaskOk(s: State, t: Task) {
    && t.stream in s.streams && t.job in s.jobs && Home(s, t.job) == t.stream
    && t.entry <= s.streams[t.stream].lastDelivered
    && (t.entry in s.streams[t.stream].entries ==> s.streams[t.stream].entries[t.entry] == t.job)
    && (t.phase == Resolved ==> (t.stream, t.entry) in s.spent)
  }

  ghost predicate EnqueuerOk(s: State, e: Enqueuer) {
    && e.job in s.jobs && Home(s, e.job) in s.streams
    && (e.added.Some? ==>
          Offers(s.streams[Home(s, e.job)], e.job, e.added.value) || (Home(s, e.job), e.added.value) in s.spent)
  }

  ghost predicate Trims(s: State, t: Trimmer) {
    t.stream in s.streams && TrimmerOk(t, s.streams[t.stream])
  }

  /** Entries of a job are in its own stream. */
  ghost predicate AtHome(jobs: map<JobId, Row>, name: Name, st: Stream) {
    forall id | id in st.entries :: st.entries[id] in jobs && jobs[st.entries[id]].stream == name
  }

  ghost predicate Structure(s: State) {
    && (forall n | n in s.streams :: Valid(s.streams[n]) && AtHome(s.jobs, n, s.streams[n]))
    && (forall j | j in s.jobs :: Home(s, j) in s.streams)
    && (forall t | t in s.tasks :: TaskOk(s, s.tasks[t]))
    && (forall e | e in s.enqueuers :: EnqueuerOk(s, s.enqueuers[e]))
    && (forall t | t in s.trimmers :: Trims(s, s.trimmers[t]))
  }

  ghost predicate Inv(s: State) {
    Structure(s) && forall j :: Accounted(s, j)
  }

  // A stream only moves one way, whoever writes it.

  ghost predicate Grows(was: Stream, now: Stream) {
    && was.lastDelivered <= now.lastDelivered && was.top <= now.top
    && (forall id | id in now.entries && id <= was.top :: id in was.entries && now.entries[id] == was.entries[id])
    && (forall id | id in now.pending :: id in was.pending || was.lastDelivered < id)
  }

  lemma WrittenGrows(s: State, step: Step)
    requires Structure(s) && Enabled(s, step) && Written(s, step).Some? && !step.CreateGroup?
    ensures var (name, now) := Written(s, step).value;
            && name in s.streams && Valid(now) && Grows(s.streams[name], now)
            && AtHome(NextJobs(s, step), name, now)
  {
    var (name, now) := Written(s, step).value;
    assert Valid(s.streams[name]) && AtHome(s.jobs, name, s.streams[name]);
    if step.TrimCut? {
      assert Trims(s, s.trimmers[step.trim]);
    }
  }

  lemma JobsStay(s: State, step: Step)
    requires (forall j | j in s.jobs :: Home(s, j) in s.streams) && Enabled(s, step)
    ensures s.jobs.Keys <= NextJobs(s, step).Keys
    ensures forall j | j in s.jobs :: NextJobs(s, step)[j].stream == s.jobs[j].stream
    ensures forall j | j in NextJobs(s, step) :: NextJobs(s, step)[j].stream in s.streams
  {
  }

  ghost predicate SameHomes(jobs: map<JobId, Row>, jobs': map<JobId, Row>) {
    forall j | j in jobs :: j in jobs' && jobs'[j].stream == jobs[j].stream
  }

  lemma HomeStays(jobs: map<JobId, Row>, jobs': map<JobId, Row>, name: Name, st: Stream)
    requires SameHomes(jobs, jobs') && AtHome(jobs, name, st)
    ensures AtHome(jobs', name, st)
  {
  }

  lemma StreamGrows(s: State, step: Step, n: Name)
    requires Structure(s) && Enabled(s, step) && n in NextStreams(s, step)
    ensures var now := NextStreams(s, step)[n];
            Valid(now) && AtHome(NextJobs(s, step), n, now) && (n in s.streams ==> Grows(s.streams[n], now))
  {
    JobsStay(s, step);
    if Written(s, step).Some? && Written(s, step).value.0 == n {
      if !step.CreateGroup? {
        WrittenGrows(s, step);
      }
    } else {
      HomeStays(s.jobs, NextJobs(s, step), n, s.streams[n]);
    }
  }

  lemma StreamsGrow(s: State, step: Step)
    requires Structure(s) && Enabled(s, step)
    ensures var now := NextStreams(s, step);
            && s.streams.Keys <= now.Keys
            && (forall n | n in now :: Valid(now[n]) && AtHome(NextJobs(s, step), n, now[n]))
            && (forall n | n in s.streams :: Grows(s.streams[n], now[n]))
  {
    forall n | n in NextStreams(s, step)
      ensures var now := NextStreams(s, step)[n];
              Valid(now) && AtHome(NextJobs(s, step), n, now) && (n in s.streams ==> Grows(s.streams[n], now))
    {
      StreamGrows(s, step, n);
    }
  }

  lemma TaskStaysOk(s: State, s': State, t: Task)
    requires TaskOk(s, t) && s.streams.Keys <= s'.streams.Keys && t.job in s'.jobs && Home(s', t.job) == Home(s, t.job)
    requires Valid(s.streams[t.stream]) && Grows(s.streams[t.stream], s'.streams[t.stream])
    requires s.spent <= s'.spent
    ensures TaskOk(s', t)
  {
  }

  lemma StepKeepsTask(s: State, step: Step, t: nat)
    requires Structure(s) && Enabled(s, step) && t in NextTasks(s, step)
    ensures TaskOk(Next(s, step), NextTasks(s, step)[t])
  {
    StreamsGrow(s, step);
    JobsStay(s, step);
    if t in s.tasks {
      TaskStaysOk(s, Next(s, step), s.tasks[t]);
      TaskMoves(s, step, t);
    } else {
      NewTaskOk(s, step, t);
    }
  }

  lemma TaskMoves(s: State, step: Step, t: nat)
    requires Enabled(s, step) && t in s.tasks && t in NextTasks(s, step)
    ensures var now := NextTasks(s, step)[t];
            && now == s.tasks[t].(phase := now.phase)
            && (now.phase == Resolved && s.tasks[t].phase != Resolved ==>
                  Resolves(s, step) == Some(t) && (now.stream, now.entry) in NextSpent(s, step))
  {
  }

  lemma NewTaskOk(s: State, step: Step, t: nat)
    requires Structure(s) && Enabled(s, step) && t !in s.tasks && t in NextTasks(s, step)
    ensures NextTasks(s, step)[t].phase == Got && TaskOk(Next(s, step), NextTasks(s, step)[t])
  {
    assert step.Read? || step.AutoClaim?;
    var id := step.tasks[t];
    assert id in step.tasks.Values;
    assert Valid(s.streams[step.name]) && AtHome(s.jobs, step.name, s.streams[step.name]);
  }

  lemma QuietStream(s: State, step: Step, n: Name)
    requires Enabled(s, step) && n in s.streams && !(step.Read? && step.name == n)
    ensures n in NextStreams(s, step)
    ensures var was, now := s.streams[n], NextStreams(s, step)[n];
            now.pending <= was.pending && now.lastDelivered == was.lastDelivered
  {
  }

  lemma StepKeepsTrimmer(s: State, step: Step, t: nat)
    requires Structure(s) && Enabled(s, step) && t in NextTrimmers(s, step)
    ensures Trims(Next(s, step), NextTrimmers(s, step)[t])
  {
    if t !in s.trimmers {
      assert step.TrimPending? && NextStreams(s, step) == s.streams;
      NewTrimmerOk(step.name, s.streams[step.name]);
    } else {
      TrimmerStaysOk(s, step, t);
    }
  }

  lemma TrimmerMoves(s: State, step: Step, t: nat)
    requires Enabled(s, step) && t in s.trimmers && t in NextTrimmers(s, step) && s.trimmers[t].stream in s.streams
    ensures var mine, now := s.trimmers[t], NextTrimmers(s, step)[t];
            now == if step.Read? then NoteRead(mine, step.name, Batch(s.streams[step.name], step.upto))
                   else if step == TrimInfo(t) then AfterXInfo(mine, s.streams[mine.stream])
                   else mine
  {
  }

  lemma TrimmerAfterRead(s: State, step: Step, t: nat)
    requires Structure(s) && step.Read? && Enabled(s, step) && t in s.trimmers && s.trimmers[t].stream == step.name
    ensures step.name in NextStreams(s, step)
    ensures TrimmerOk(NoteRead(s.trimmers[t], step.name, Batch(s.streams[step.name], step.upto)),
                      NextStreams(s, step)[step.name])
  {
    assert Trims(s, s.trimmers[t]);
    ReadKeepsTrimmer(s.trimmers[t], s.streams[step.name], step.upto);
  }

  lemma TrimmerStaysOk(s: State, step: Step, t: nat)
    requires Structure(s) && Enabled(s, step) && t in s.trimmers && t in NextTrimmers(s, step)
    ensures Trims(Next(s, step), NextTrimmers(s, step)[t])
  {
    var mine, n := s.trimmers[t], s.trimmers[t].stream;
    assert Trims(s, mine);
    TrimmerMoves(s, step, t);
    if step.Read? && step.name == n {
      TrimmerAfterRead(s, step, t);
    } else {
      QuietStream(s, step, n);
      TrimmerOutlives(mine, s.streams[n], NextStreams(s, step)[n]);
      if step == TrimInfo(t) {
        InfoKeepsTrimmer(mine, s.streams[n]);
      }
    }
  }

  /** An entry stays on offer until it is acknowledged or cut. */
  lemma OfferStays(s: State, step: Step, job: JobId, id: nat)
    requires Structure(s) && Enabled(s, step) && job in s.jobs && Offers(s.streams[Home(s, job)], job, id)
    ensures || Offers(NextStreams(s, step)[Home(s, job)], job, id)
            || (step.Acknowledge? && s.tasks[step.task].entry == id && s.tasks[step.task].stream == Home(s, job))
            || (step.TrimCut? && s.trimmers[step.trim].stream == Home(s, job) && id < step.below
                && (Home(s, job), id) in NextSpent(s, step))
  {
    var name := Home(s, job);
    if Written(s, step).Some? && Written(s, step).value.0 == name {
      WrittenKeepsOffer(s, step, job, id);
    }
  }

  lemma WrittenKeepsOffer(s: State, step: Step, job: JobId, id: nat)
    requires Structure(s) && Enabled(s, step) && job in s.jobs && Offers(s.streams[Home(s, job)], job, id)
    requires Written(s, step).Some? && Written(s, step).value.0 == Home(s, job)
    ensures || Offers(Written(s, step).value.1, job, id)
            || (step.Acknowledge? && s.tasks[step.task].entry == id)
            || (step.TrimCut? && id < step.below && (Home(s, job), id) in NextSpent(s, step))
  {
    var name := Home(s, job);
    assert Valid(s.streams[name]);
    if step.TrimCut? {
      assert Trims(s, s.trimmers[step.trim]);
    }
  }

  lemma AddedIsOffered(s: State, enq: nat, id: nat)
    requires Structure(s) && Enabled(s, Add(enq, id)) && s.enqueuers[enq].marks
    ensures EnqueuerOk(Next(s, Add(enq, id)), s.enqueuers[enq].(added := Some(id)))
  {
    assert Valid(s.streams[Home(s, s.enqueuers[enq].job)]);
  }

  lemma EnqueuerMoves(s: State, step: Step, e: nat)
    requires Enabled(s, step) && e in NextEnqueuers(s, step)
    ensures var now := NextEnqueuers(s, step)[e];
            || (e in s.enqueuers && now == s.enqueuers[e])
            || (step.Add? && step.enq == e && s.enqueuers[e].marks && now == s.enqueuers[e].(added := Some(step.id)))
            || (now.added.None? && now.job in NextJobs(s, step) && NextStreams(s, step) == s.streams)
  {
  }

  lemma StepKeepsEnqueuer(s: State, step: Step, e: nat)
    requires Structure(s) && Enabled(s, step) && e in NextEnqueuers(s, step)
    ensures EnqueuerOk(Next(s, step), NextEnqueuers(s, step)[e])
  {
    EnqueuerMoves(s, step, e);
    JobsStay(s, step);
    if e in s.enqueuers && NextEnqueuers(s, step)[e] == s.enqueuers[e] {
      EnqueuerStaysOk(s, step, s.enqueuers[e]);
    } else if step.Add? {
      AddedIsOffered(s, step.enq, step.id);
    }
  }

  lemma SpentGrows(s: State, step: Step)
    requires Enabled(s, step)
    ensures s.streams.Keys <= NextStreams(s, step).Keys && s.spent <= NextSpent(s, step)
  {
  }

  lemma EnqueuerStaysOk(s: State, step: Step, e: Enqueuer)
    requires Structure(s) && Enabled(s, step) && EnqueuerOk(s, e)
    ensures EnqueuerOk(Next(s, step), e)
  {
    JobsStay(s, step);
    SpentGrows(s, step);
    if e.added.Some? && Offers(s.streams[Home(s, e.job)], e.job, e.added.value) {
      OfferedStaysOk(s, step, e.job, e.added.value);
    }
  }

  lemma OfferedStaysOk(s: State, step: Step, job: JobId, id: nat)
    requires Structure(s) && Enabled(s, step) && job in s.jobs && Offers(s.streams[Home(s, job)], job, id)
    ensures Home(s, job) in NextStreams(s, step)
    ensures Offers(NextStreams(s, step)[Home(s, job)], job, id) || (Home(s, job), id) in NextSpent(s, step)
  {
    OfferStays(s, step, job, id);
    SpentGrows(s, step);
    if step.Acknowledge? {
      assert TaskOk(s, s.tasks[step.task]);
    }
  }

  lemma StepKeepsStructure(s: State, step: Step)
    requires Structure(s) && Enabled(s, step)
    ensures Structure(Next(s, step))
  {
    StreamsGrow(s, step);
    JobsStay(s, step);
    forall t | t in NextTasks(s, step)
      ensures TaskOk(Next(s, step), NextTasks(s, step)[t])
    {
      StepKeepsTask(s, step, t);
    }
    forall e | e in NextEnqueuers(s, step)
      ensures EnqueuerOk(Next(s, step), NextEnqueuers(s, step)[e])
    {
      StepKeepsEnqueuer(s, step, e);
    }
    forall t | t in NextTrimmers(s, step)
      ensures Trims(Next(s, step), NextTrimmers(s, step)[t])
    {
      StepKeepsTrimmer(s, step, t);
    }
  }

  lemma {:induction false} RunKeepsStructure(s: State, steps: seq<Step>)
    requires Structure(s) && Legal(s, steps)
    ensures Structure(Exec(s, steps))
    decreases steps
  {
    if steps == [] {
    } else {
      StepKeepsStructure(s, steps[0]);
      RunKeepsStructure(Next(s, steps[0]), steps[1..]);
    }
  }

  // --- A step that does not spoil keeps every job accounted for ---

  lemma RiskComesFromMark(s: State, step: Step, job: JobId)
    requires Enabled(s, step) && AtRisk(Next(s, step), job)
    ensures AtRisk(s, job) || (step.Mark? && s.enqueuers[step.enq].job == job)
  {
  }

  /** Only a worker that resolves the entry settles it. */
  lemma StaysUnsettled(s: State, step: Step, name: Name, id: nat)
    requires Structure(s) && Enabled(s, step) && !Settling(s.tasks, name, id)
    requires Resolves(s, step).Some? ==>
               var t := s.tasks[Resolves(s, step).value]; t.stream != name || t.entry != id
    ensures !Settling(NextTasks(s, step), name, id)
  {
    forall t | t in NextTasks(s, step)
      ensures !(var now := NextTasks(s, step)[t]; now.phase == Resolved && now.stream == name && now.entry == id)
    {
      if t in s.tasks {
        TaskMoves(s, step, t);
      } else {
        NewTaskOk(s, step, t);
      }
    }
  }

  /** The entry `id` of a job at risk is left alone by the step. */
  ghost predicate Spares(s: State, step: Step, job: JobId, id: nat)
    requires Enabled(s, step) && job in s.jobs
  {
    && (step.FetchFindsEndpointGone? || step.RecordIsLost? ==>
          s.tasks[step.task].job != job || s.tasks[step.task].entry != id)
    && (step.TrimCut? ==> s.trimmers[step.trim].stream != Home(s, job) || step.below <= id)
  }

  lemma CarrierStays(s: State, step: Step, job: JobId, id: nat)
    requires Structure(s) && Enabled(s, step) && AtRisk(s, job) && AtRisk(Next(s, step), job)
    requires Carries(s, job, id) && Spares(s, step, job, id)
    ensures Carries(Next(s, step), job, id)
  {
    var name := Home(s, job);
    JobsStay(s, step);
    OfferStays(s, step, job, id);
    if Resolves(s, step).Some? {
      NotResolved(s, step, job, id);
    }
    StaysUnsettled(s, step, name, id);
    if step.Acknowledge? {
      assert s.tasks[step.task].phase == Resolved;
    }
  }

  lemma NotResolved(s: State, step: Step, job: JobId, id: nat)
    requires Structure(s) && Enabled(s, step) && AtRisk(s, job) && AtRisk(Next(s, step), job)
    requires Carries(s, job, id) && Spares(s, step, job, id) && Resolves(s, step).Some?
    ensures var t := s.tasks[Resolves(s, step).value]; t.stream != Home(s, job) || t.entry != id
  {
    var t := s.tasks[Resolves(s, step).value];
    assert TaskOk(s, t);
  }

  lemma StepKeepsAccounted(s: State, step: Step, job: JobId)
    requires Inv(s) && Enabled(s, step) && !Spoils(s, step)
    ensures Accounted(Next(s, step), job)
  {
    if AtRisk(Next(s, step), job) {
      RiskComesFromMark(s, step, job);
      if step.Mark? && s.enqueuers[step.enq].job == job {
        var id :| Carries(s, job, id);
        assert Carries(Next(s, step), job, id);
      } else {
        assert Accounted(s, job);
        var id := SparedCarrier(s, step, job);
        CarrierStays(s, step, job, id);
      }
    }
  }

  lemma OtherCarrier(s: State, t: Task) returns (id: nat)
    requires AtRisk(s, t.job) && !LastChance(s, t)
    ensures Carries(s, t.job, id) && id != t.entry
  {
    id :| Carries(s, t.job, id) && id != t.entry;
  }

  lemma CarrierBeyondCut(s: State, name: Name, below: nat, job: JobId) returns (id: nat)
    requires AtRisk(s, job) && Home(s, job) == name && !CutsOff(s, name, below, job)
    ensures Carries(s, job, id) && below <= id
  {
    id :| Carries(s, job, id) && below <= id;
  }

  lemma SparedCarrier(s: State, step: Step, job: JobId) returns (id: nat)
    requires Accounted(s, job) && AtRisk(s, job) && Enabled(s, step) && !Spoils(s, step)
    ensures Carries(s, job, id) && Spares(s, step, job, id)
  {
    if (step.FetchFindsEndpointGone? || step.RecordIsLost?) && s.tasks[step.task].job == job {
      id := OtherCarrier(s, s.tasks[step.task]);
    } else if step.TrimCut? && s.trimmers[step.trim].stream == Home(s, job) {
      assert !CutsOff(s, Home(s, job), step.below, job);
      id := CarrierBeyondCut(s, Home(s, job), step.below, job);
    } else {
      id :| Carries(s, job, id);
    }
  }

  lemma {:induction false} RunKeepsInv(s: State, steps: seq<Step>)
    requires Inv(s) && Legal(s, steps) && Clean(s, steps)
    ensures Inv(Exec(s, steps))
    decreases steps
  {
    if steps == [] {
    } else {
      StepKeepsStructure(s, steps[0]);
      forall j
        ensures Accounted(Next(s, steps[0]), j)
      {
        StepKeepsAccounted(s, steps[0], j);
      }
      RunKeepsInv(Next(s, steps[0]), steps[1..]);
    }
  }

  /** In every interleaving without a spoiling step no job is ever stranded. */
  lemma NoJobIsStranded(steps: seq<Step>, job: JobId)
    requires Legal(INIT, steps) && Clean(INIT, steps)
    ensures Accounted(Exec(INIT, steps), job)
  {
    RunKeepsInv(INIT, steps);
  }

  // --- What is enough not to spoil ---

  /** The outcome is written, the endpoint stays live, a row is marked before
      anyone has dealt with the entry it is marked for, and no read slips between a
      trimmer's XPENDING and XINFO. */
  ghost predicate Reliable(s: State, step: Step)
    requires Enabled(s, step)
  {
    && !step.FetchFindsEndpointGone? && !step.RecordIsLost?
    && (step.Mark? ==>
          var e := s.enqueuers[step.enq];
          (Home(s, e.job), e.added.value) !in s.spent)
    && (step.TrimCut? ==> Careful(s.trimmers[step.trim]))
  }

  lemma ReliableDoesNotSpoil(s: State, step: Step)
    requires Inv(s) && Enabled(s, step) && Reliable(s, step)
    ensures !Spoils(s, step)
  {
    if step.Mark? {
      UnspentEntryCarries(s, s.enqueuers[step.enq]);
    } else if step.TrimCut? {
      forall job
        ensures !CutsOff(s, s.trimmers[step.trim].stream, step.below, job)
      {
        CarefulTrimSpares(s, step.trim, step.below, job);
      }
    }
  }

  lemma UnspentEntryCarries(s: State, e: Enqueuer)
    requires Structure(s) && EnqueuerOk(s, e) && e.added.Some? && (Home(s, e.job), e.added.value) !in s.spent
    ensures Carries(s, e.job, e.added.value)
  {
    assert forall t | t in s.tasks :: TaskOk(s, s.tasks[t]);
  }

  lemma CarefulTrimSpares(s: State, trim: nat, below: nat, job: JobId)
    requires Inv(s) && Enabled(s, TrimCut(trim, below)) && Careful(s.trimmers[trim])
    ensures !CutsOff(s, s.trimmers[trim].stream, below, job)
  {
    assert Trims(s, s.trimmers[trim]) && Accounted(s, job);
    if AtRisk(s, job) && Home(s, job) == s.trimmers[trim].stream {
      var id :| Carries(s, job, id);
      assert below <= id;
    }
  }

  ghost predicate AllReliable(s: State, steps: seq<Step>)
    requires Legal(s, steps)
    decreases steps
  {
    steps == [] || (Reliable(s, steps[0]) && AllReliable(Next(s, steps[0]), steps[1..]))
  }

  lemma {:induction false} ReliableRunKeepsInv(s: State, steps: seq<Step>)
    requires Inv(s) && Legal(s, steps) && AllReliable(s, steps)
    ensures Clean(s, steps) && Inv(Exec(s, steps))
    decreases steps
  {
    if steps == [] {
    } else {
      ReliableDoesNotSpoil(s, steps[0]);
      StepKeepsStructure(s, steps[0]);
      forall j
        ensures Accounted(Next(s, steps[0]), j)
      {
        StepKeepsAccounted(s, steps[0], j);
      }
      ReliableRunKeepsInv(Next(s, steps[0]), steps[1..]);
    }
  }

  /** In particular: when writes succeed, endpoints stay live, each row is marked
      before its entry is dealt with, and trimmers are not raced. */
  lemma ReliableRunsStrandNothing(steps: seq<Step>, job: JobId)
    requires Legal(INIT, steps) && AllReliable(INIT, steps)
    ensures Accounted(Exec(INIT, steps), job)
  {
    ReliableRunKeepsInv(INIT, steps);
  }

  // --- A step that spoils can strand a job, for good ---

  ghost predicate NoEnqueuer(s: State, job: JobId) {
    forall n | n in s.enqueuers :: s.enqueuers[n].job != job
  }

  ghost predicate Stranded(s: State, job: JobId) {
    && AtRisk(s, job)
    && (forall t | t in s.tasks :: s.tasks[t].job != job)
    && NoEnqueuer(s, job)
    && (forall n, id | n in s.streams :: !Offers(s.streams[n], job, id))
  }

  lemma StrandedRowStays(s: State, step: Step, job: JobId)
    requires Stranded(s, job) && Enabled(s, step)
    ensures job in NextJobs(s, step) && NextJobs(s, step)[job] == s.jobs[job]
    ensures NoEnqueuer(Next(s, step), job)
  {
  }

  lemma StrandedTasksStay(s: State, step: Step, job: JobId)
    requires Stranded(s, job) && Enabled(s, step)
    ensures forall t | t in NextTasks(s, step) :: NextTasks(s, step)[t].job != job
  {
    forall t | t in NextTasks(s, step)
      ensures NextTasks(s, step)[t].job != job
    {
      if t in s.tasks {
        TaskMoves(s, step, t);
      } else {
        assert step.Read? || step.AutoClaim?;
        assert step.tasks[t] in step.tasks.Values;
        assert !Offers(s.streams[step.name], job, step.tasks[t]);
      }
    }
  }

  lemma StrandedStreamsStay(s: State, step: Step, job: JobId)
    requires Stranded(s, job) && Enabled(s, step)
    ensures var now := NextStreams(s, step); forall n, id | n in now :: !Offers(now[n], job, id)
  {
    var now := NextStreams(s, step);
    forall n, id | n in now
      ensures !Offers(now[n], job, id)
    {
      if n in s.streams {
        assert !Offers(s.streams[n], job, id);
      }
    }
  }

  /** Nothing any process does, faulty or not, touches a stranded job again. */
  lemma {:induction false} StrandedIsForever(s: State, steps: seq<Step>, job: JobId)
    requires Stranded(s, job) && Legal(s, steps)
    ensures Stranded(Exec(s, steps), job) && Exec(s, steps).jobs[job] == s.jobs[job]
    decreases steps
  {
    if steps == [] {
    } else {
      StrandedRowStays(s, steps[0], job);
      StrandedTasksStay(s, steps[0], job);
      StrandedStreamsStay(s, steps[0], job);
      StrandedIsForever(Next(s, steps[0]), steps[1..], job);
    }
  }

  ghost predicate Uncarried(s: State, job: JobId) {
    AtRisk(s, job) && forall id :: !Carries(s, job, id)
  }

  lemma SpoiledIsUncarried(s: State, step: Step) returns (job: JobId)
    requires Structure(s) && Enabled(s, step) && Spoils(s, step)
    ensures Uncarried(Next(s, step), job)
  {
    if step.Mark? {
      job := s.enqueuers[step.enq].job;
      assert forall id :: Carries(Next(s, step), job, id) ==> Carries(s, job, id);
    } else if step.TrimCut? {
      job :| CutsOff(s, s.trimmers[step.trim].stream, step.below, job);
      CutLeavesNothing(s, step.trim, step.below, job);
    } else {
      job := s.tasks[step.task].job;
      GivingUpLeavesNothing(s, step, job);
    }
  }

  lemma CutLeavesNothing(s: State, trim: nat, below: nat, job: JobId)
    requires Enabled(s, TrimCut(trim, below)) && CutsOff(s, s.trimmers[trim].stream, below, job)
    ensures Uncarried(Next(s, TrimCut(trim, below)), job)
  {
    var s' := Next(s, TrimCut(trim, below));
    forall id: nat
      ensures !Carries(s', job, id)
    {
      if Carries(s', job, id) {
        assert Carries(s, job, id);
      }
    }
  }

  lemma GivingUpLeavesNothing(s: State, step: Step, job: JobId)
    requires Structure(s) && (step.FetchFindsEndpointGone? || step.RecordIsLost?) && Enabled(s, step)
    requires s.tasks[step.task].job == job && LastChance(s, s.tasks[step.task])
    ensures Uncarried(Next(s, step), job)
  {
    var s', t := Next(s, step), s.tasks[step.task];
    assert TaskOk(s, t);
    assert s'.tasks[step.task] == t.(phase := Resolved);
    assert Settling(s'.tasks, t.stream, t.entry);
    forall id: nat
      ensures !Carries(s', job, id)
    {
      if id != t.entry && Offers(s.streams[Home(s, job)], job, id) {
        assert !Carries(s, job, id);
        SettledStays(s, step, Home(s, job), id);
      }
    }
  }

  lemma SettledStays(s: State, step: Step, name: Name, id: nat)
    requires (step.FetchFindsEndpointGone? || step.RecordIsLost?) && Enabled(s, step) && Settling(s.tasks, name, id)
    ensures Settling(NextTasks(s, step), name, id)
  {
    var t :| t in s.tasks && s.tasks[t].phase == Resolved && s.tasks[t].stream == name && s.tasks[t].entry == id;
    assert NextTasks(s, step)[t] == s.tasks[t];
  }

  lemma Prepend(s: State, step: Step, rest: seq<Step>)
    requires Enabled(s, step) && Legal(Next(s, step), rest)
    ensures Legal(s, [step] + rest) && Exec(s, [step] + rest) == Exec(Next(s, step), rest)
    ensures !Spoils(s, step) && Clean(Next(s, step), rest) ==> Clean(s, [step] + rest)
  {
    assert ([step] + rest)[1..] == rest;
  }

  lemma {:induction false} Concat(s: State, a: seq<Step>, b: seq<Step>)
    requires Legal(s, a) && Legal(Exec(s, a), b)
    ensures Legal(s, a + b) && Exec(s, a + b) == Exec(Exec(s, a), b)
    ensures Clean(s, a) && Clean(Exec(s, a), b) ==> Clean(s, a + b)
    decreases a
  {
    if a == [] {
      assert a + b == b;
    } else {
      Concat(Next(s, a[0]), a[1..], b);
      Prepend(s, a[0], a[1..] + b);
      assert [a[0]] + (a[1..] + b) == a + b;
    }
  }

  /** Whoever was about to add the job again may stop. */
  lemma {:induction false} EnqueuersStop(s: State, job: JobId) returns (steps: seq<Step>)
    requires Structure(s) && Uncarried(s, job)
    ensures Legal(s, steps) && Clean(s, steps)
    ensures var e := Exec(s, steps);
            Structure(e) && Uncarried(e, job) && NoEnqueuer(e, job)
    decreases |s.enqueuers|
  {
    if n :| n in s.enqueuers && s.enqueuers[n].job == job {
      StepKeepsStructure(s, EnqueuerDies(n));
      assert s.enqueuers.Keys == Next(s, EnqueuerDies(n)).enqueuers.Keys + {n};
      Smaller(s.enqueuers, n);
      assert forall id :: Carries(Next(s, EnqueuerDies(n)), job, id) ==> Carries(s, job, id);
      var rest := EnqueuersStop(Next(s, EnqueuerDies(n)), job);
      Prepend(s, EnqueuerDies(n), rest);
      steps := [EnqueuerDies(n)] + rest;
    } else {
      steps := [];
    }
  }

  lemma Smaller<V>(m: map<nat, V>, n: nat)
    requires n in m
    ensures |m - {n}| < |m|
  {
    var rest := m - {n};
    assert m.Keys == rest.Keys + {n};
    assert |rest.Keys| == |rest| && |m.Keys| == |m|;
  }

  /** A worker that has resolved the job acknowledges, any other one crashes. */
  function Ending(t: nat, phase: Phase): Step {
    if phase == Resolved then Acknowledge(t) else Crash(t)
  }

  lemma EndingGoes(s: State, t: nat)
    requires Structure(s) && t in s.tasks
    ensures var step := Ending(t, s.tasks[t].phase);
            && Enabled(s, step) && !Spoils(s, step)
            && NextJobs(s, step) == s.jobs && NextTasks(s, step) == s.tasks - {t}
            && NextEnqueuers(s, step) == s.enqueuers
  {
    assert TaskOk(s, s.tasks[t]);
  }

  lemma EndingUncarried(s: State, job: JobId, t: nat)
    requires Structure(s) && Uncarried(s, job) && t in s.tasks && s.tasks[t].job == job
    requires Enabled(s, Ending(t, s.tasks[t].phase))
    ensures Uncarried(Next(s, Ending(t, s.tasks[t].phase)), job)
  {
    EndingGoes(s, t);
    forall id: nat
      ensures !Carries(Next(s, Ending(t, s.tasks[t].phase)), job, id)
    {
      assert !Carries(s, job, id);
      EndingCarriesNothing(s, job, t, id);
    }
  }

  lemma EndingCarriesNothing(s: State, job: JobId, t: nat, id: nat)
    requires Structure(s) && AtRisk(s, job) && !Carries(s, job, id) && t in s.tasks && s.tasks[t].job == job
    requires Enabled(s, Ending(t, s.tasks[t].phase))
    ensures !Carries(Next(s, Ending(t, s.tasks[t].phase)), job, id)
  {
    var name := Home(s, job);
    assert TaskOk(s, s.tasks[t]);
    EndingGoes(s, t);
    if Offers(s.streams[name], job, id) && !(s.tasks[t].phase == Resolved && s.tasks[t].entry == id) {
      SettlingOutlasts(s.tasks, name, id, t);
    }
  }

  lemma SettlingOutlasts(tasks: map<nat, Task>, name: Name, id: nat, t: nat)
    requires Settling(tasks, name, id) && t in tasks && !(tasks[t].phase == Resolved && tasks[t].entry == id)
    ensures Settling(tasks - {t}, name, id)
  {
    var u :| u in tasks && tasks[u].phase == Resolved && tasks[u].stream == name && tasks[u].entry == id;
    assert u in tasks - {t};
  }

  lemma {:induction false} TasksEnd(s: State, job: JobId) returns (steps: seq<Step>)
    requires Structure(s) && Uncarried(s, job) && NoEnqueuer(s, job)
    ensures Legal(s, steps) && Clean(s, steps) && Stranded(Exec(s, steps), job)
    decreases |s.tasks|
  {
    if t :| t in s.tasks && s.tasks[t].job == job {
      var step := Ending(t, s.tasks[t].phase);
      EndingGoes(s, t);
      EndingUncarried(s, job, t);
      StepKeepsStructure(s, step);
      Smaller(s.tasks, t);
      var s' := Next(s, step);
      assert s'.tasks == s.tasks - {t} && NoEnqueuer(s', job);
      var rest := TasksEnd(s', job);
      Prepend(s, step, rest);
      steps := [step] + rest;
    } else {
      steps := [];
      NothingLeft(s, job);
    }
  }

  lemma NothingLeft(s: State, job: JobId)
    requires Structure(s) && Uncarried(s, job)
    requires NoEnqueuer(s, job) && forall t | t in s.tasks :: s.tasks[t].job != job
    ensures Stranded(s, job)
  {
    forall n, id: nat | n in s.streams
      ensures !Offers(s.streams[n], job, id)
    {
      assert AtHome(s.jobs, n, s.streams[n]) && !Carries(s, job, id);
      assert forall t | t in s.tasks :: TaskOk(s, s.tasks[t]);
    }
  }

  lemma UncarriedCanStrand(s: State, job: JobId) returns (steps: seq<Step>)
    requires Structure(s) && Uncarried(s, job)
    ensures Legal(s, steps) && Clean(s, steps) && Stranded(Exec(s, steps), job)
  {
    steps := EnqueuersStop(s, job);
    var more := TasksEnd(Exec(s, steps), job);
    Concat(s, steps, more);
    steps := steps + more;
  }

  ghost predicate Strands(s: State, more: seq<Step>, job: JobId) {
    Legal(s, more) && Clean(s, more) && Stranded(Exec(s, more), job)
  }

  ghost predicate CanStrand(s: State) {
    exists more, job :: Strands(s, more, job)
  }

  lemma InvCannotStrand(s: State)
    requires Inv(s)
    ensures !CanStrand(s)
  {
    forall more, job
      ensures !Strands(s, more, job)
    {
      if Legal(s, more) && Clean(s, more) {
        RunKeepsInv(s, more);
        assert Accounted(Exec(s, more), job);
      }
    }
  }

  /** The exact condition: after any clean run, a step is one that some clean
      continuation turns into a stranded job exactly when it spoils. */
  lemma StrandsExactlyWhenSpoiling(steps: seq<Step>, step: Step)
    requires Legal(INIT, steps) && Clean(INIT, steps) && Enabled(Exec(INIT, steps), step)
    ensures CanStrand(Next(Exec(INIT, steps), step)) <==> Spoils(Exec(INIT, steps), step)
  {
    var s := Exec(INIT, steps);
    RunKeepsInv(INIT, steps);
    StepKeepsStructure(s, step);
    if Spoils(s, step) {
      var job := SpoiledIsUncarried(s, step);
      var more := UncarriedCanStrand(Next(s, step), job);
      assert Strands(Next(s, step), more, job);
    } else {
      forall j
        ensures Accounted(Next(s, step), j)
      {
        StepKeepsAccounted(s, step, j);
      }
      InvCannotStrand(Next(s, step));
    }
  }

  // --- Four runs that strand a job, one for each kind of spoiling step ---

  ghost predicate Goes(s: State, step: Step, s': State) {
    Enabled(s, step) && !Spoils(s, step) && Next(s, step) == s'
  }

  lemma Extend(steps: seq<Step>, step: Step, s': State) returns (more: seq<Step>)
    requires Legal(INIT, steps) && Clean(INIT, steps) && Goes(Exec(INIT, steps), step, s')
    ensures Legal(INIT, more) && Clean(INIT, more) && Exec(INIT, more) == s'
  {
    Prepend(Exec(INIT, steps), step, []);
    Concat(INIT, steps, [step] + []);
    more := steps + ([step] + []);
  }

  /** A run that strands `job`, in which `step` is the only one that spoils. */
  ghost predicate StrandsBy(before: seq<Step>, step: Step, after: seq<Step>, job: JobId) {
    && Legal(INIT, before) && Clean(INIT, before)
    && Enabled(Exec(INIT, before), step) && Spoils(Exec(INIT, before), step)
    && Strands(Next(Exec(INIT, before), step), after, job)
    && Legal(INIT, before + ([step] + after)) && Stranded(Exec(INIT, before + ([step] + after)), job)
  }

  lemma StrandFrom(before: seq<Step>, step: Step) returns (after: seq<Step>, job: JobId)
    requires Legal(INIT, before) && Clean(INIT, before)
    requires Enabled(Exec(INIT, before), step) && Spoils(Exec(INIT, before), step)
    ensures StrandsBy(before, step, after, job)
  {
    var s := Exec(INIT, before);
    RunKeepsStructure(INIT, before);
    StepKeepsStructure(s, step);
    job := SpoiledIsUncarried(s, step);
    after := UncarriedCanStrand(Next(s, step), job);
    Prepend(s, step, after);
    Concat(INIT, before, [step] + after);
  }

  // Job `j` on stream `q`, whose first entry is 1.

  function One(q: Name, j: JobId, row: Row, st: Stream, tasks: map<nat, Task>, enqueuers: map<nat, Enqueuer>): State {
    State(map[j := row], map[q := st], tasks, enqueuers, map[], {})
  }

  function Unread(j: JobId): Stream { Stream(map[1 := j], 1, 0, {}) }
  function InHand(j: JobId): Stream { Stream(map[1 := j], 1, 1, {1}) }

  function Fresh(q: Name, j: JobId): State {
    One(q, j, Row(Pending, false, q), EMPTY, map[], map[0 := Enqueuer(j, true, None)])
  }

  function Added(q: Name, j: JobId): State {
    One(q, j, Row(Pending, false, q), Unread(j), map[], map[0 := Enqueuer(j, true, Some(1))])
  }

  function Queued(q: Name, j: JobId): State {
    One(q, j, Row(Pending, true, q), Unread(j), map[], map[])
  }

  lemma CreateGoes(q: Name, j: JobId)
    ensures var s := INIT.(streams := map[q := EMPTY]);
            Goes(INIT, CreateGroup(q), s) && Goes(s, CreateJob(0, j, q), Fresh(q, j))
  {
  }

  lemma AddGoes(q: Name, j: JobId)
    ensures Goes(Fresh(q, j), Add(0, 1), Added(q, j))
  {
  }

  lemma MarkGoes(q: Name, j: JobId)
    ensures Goes(Added(q, j), Mark(0), Queued(q, j))
  {
    assert Carries(Added(q, j), j, 1);
    assert Next(Added(q, j), Mark(0)).enqueuers == map[];
  }

  lemma AddedRun(q: Name, j: JobId) returns (steps: seq<Step>)
    ensures Legal(INIT, steps) && Clean(INIT, steps) && Exec(INIT, steps) == Added(q, j)
  {
    CreateGoes(q, j);
    AddGoes(q, j);
    steps := Extend([], CreateGroup(q), INIT.(streams := map[q := EMPTY]));
    steps := Extend(steps, CreateJob(0, j, q), Fresh(q, j));
    steps := Extend(steps, Add(0, 1), Added(q, j));
  }

  lemma QueuedRun(q: Name, j: JobId) returns (steps: seq<Step>)
    ensures Legal(INIT, steps) && Clean(INIT, steps) && Exec(INIT, steps) == Queued(q, j)
  {
    steps := AddedRun(q, j);
    MarkGoes(q, j);
    steps := Extend(steps, Mark(0), Queued(q, j));
  }

  lemma ReadIsEnabled(q: Name, j: JobId, row: Row, enqueuers: map<nat, Enqueuer>)
    ensures Enabled(One(q, j, row, Unread(j), map[], enqueuers), Read(q, 1, 1, map[0 := 1]))
  {
    assert Batch(Unread(j), 1) == {1};
    var m := map[0 := 1];
    assert m[0] == 1 && m.Values == {1};
  }

  lemma ReadStarts(q: Name, j: JobId, row: Row, enqueuers: map<nat, Enqueuer>)
    requires Enabled(One(q, j, row, Unread(j), map[], enqueuers), Read(q, 1, 1, map[0 := 1]))
    ensures var s, read := One(q, j, row, Unread(j), map[], enqueuers), Read(q, 1, 1, map[0 := 1]);
            && NextTasks(s, read) == map[0 := Task(q, 1, j, Got)]
            && NextStreams(s, read) == map[q := InHand(j)] && NextTrimmers(s, read) == map[]
  {
    assert Batch(Unread(j), 1) == {1};
    var s, read := One(q, j, row, Unread(j), map[], enqueuers), Read(q, 1, 1, map[0 := 1]);
    assert Resolves(s, read).None?;
    assert NextTasks(s, read) == map[0 := Task(q, 1, j, Got)];
    assert NextStreams(s, read) == map[q := InHand(j)];
    assert NextTrimmers(s, read) == map[];
  }

  lemma ReadGoes(q: Name, j: JobId, row: Row, enqueuers: map<nat, Enqueuer>)
    ensures Goes(One(q, j, row, Unread(j), map[], enqueuers), Read(q, 1, 1, map[0 := 1]),
                 One(q, j, row, InHand(j), map[0 := Task(q, 1, j, Got)], enqueuers))
  {
    ReadIsEnabled(q, j, row, enqueuers);
    ReadStarts(q, j, row, enqueuers);
  }

  lemma FetchGoes(q: Name, j: JobId, row: Row, enqueuers: map<nat, Enqueuer>)
    requires Deliverable(row.status)
    ensures Goes(One(q, j, row, InHand(j), map[0 := Task(q, 1, j, Got)], enqueuers), Fetch(0),
                 One(q, j, row, InHand(j), map[0 := Task(q, 1, j, Fetched)], enqueuers))
  {
  }

  lemma DeferGoes(q: Name, j: JobId, row: Row, enqueuers: map<nat, Enqueuer>)
    ensures Goes(One(q, j, row, InHand(j), map[0 := Task(q, 1, j, Fetched)], enqueuers), Record(0, Retrying),
                 One(q, j, Recorded(row, Retrying), InHand(j), map[0 := Task(q, 1, j, Resolved)], enqueuers)
                 .(spent := {(q, 1)}))
  {
  }

  lemma LateMarkSpoils(q: Name, j: JobId)
    ensures var s := One(q, j, Row(Retrying, false, q), InHand(j), map[0 := Task(q, 1, j, Resolved)],
                         map[0 := Enqueuer(j, true, Some(1))]).(spent := {(q, 1)});
            Enabled(s, Mark(0)) && Spoils(s, Mark(0))
  {
    var tasks := map[0 := Task(q, 1, j, Resolved)];
    assert tasks[0].phase == Resolved;
    assert Settling(tasks, q, 1);
  }

  /** A worker defers the job between the publisher's XADD and its mark. */
  lemma SplitMarkStrands(q: Name, j: JobId) returns (steps: seq<Step>, after: seq<Step>, job: JobId)
    ensures StrandsBy(steps, Mark(0), after, job)
  {
    var row, enqueuers := Row(Pending, false, q), map[0 := Enqueuer(j, true, Some(1))];
    steps := AddedRun(q, j);
    ReadGoes(q, j, row, enqueuers);
    FetchGoes(q, j, row, enqueuers);
    DeferGoes(q, j, row, enqueuers);
    LateMarkSpoils(q, j);
    steps := Extend(steps, Read(q, 1, 1, map[0 := 1]),
                    One(q, j, row, InHand(j), map[0 := Task(q, 1, j, Got)], enqueuers));
    steps := Extend(steps, Fetch(0), One(q, j, row, InHand(j), map[0 := Task(q, 1, j, Fetched)], enqueuers));
    steps := Extend(steps, Record(0, Retrying),
                    One(q, j, Recorded(row, Retrying), InHand(j), map[0 := Task(q, 1, j, Resolved)], enqueuers)
                    .(spent := {(q, 1)}));
    after, job := StrandFrom(steps, Mark(0));
  }

  lemma OnlyChance(q: Name, j: JobId, phase: Phase)
    requires phase != Resolved
    ensures var t := Task(q, 1, j, phase);
            LastChance(One(q, j, Row(Pending, true, q), InHand(j), map[0 := t], map[]), t)
  {
  }

  /** The endpoint is paused, or its secrets have expired, when the worker looks. */
  lemma GoneEndpointStrands(q: Name, j: JobId) returns (steps: seq<Step>, after: seq<Step>, job: JobId)
    ensures StrandsBy(steps, FetchFindsEndpointGone(0), after, job)
  {
    var row := Row(Pending, true, q);
    steps := QueuedRun(q, j);
    ReadGoes(q, j, row, map[]);
    steps := Extend(steps, Read(q, 1, 1, map[0 := 1]), One(q, j, row, InHand(j), map[0 := Task(q, 1, j, Got)], map[]));
    OnlyChance(q, j, Got);
    after, job := StrandFrom(steps, FetchFindsEndpointGone(0));
  }

  /** The outcome's UPDATE fails; the XACK is sent regardless. */
  lemma LostRecordStrands(q: Name, j: JobId) returns (steps: seq<Step>, after: seq<Step>, job: JobId)
    ensures StrandsBy(steps, RecordIsLost(0), after, job)
  {
    var row := Row(Pending, true, q);
    steps := QueuedRun(q, j);
    ReadGoes(q, j, row, map[]);
    FetchGoes(q, j, row, map[]);
    steps := Extend(steps, Read(q, 1, 1, map[0 := 1]), One(q, j, row, InHand(j), map[0 := Task(q, 1, j, Got)], map[]));
    steps := Extend(steps, Fetch(0), One(q, j, row, InHand(j), map[0 := Task(q, 1, j, Fetched)], map[]));
    OnlyChance(q, j, Fetched);
    after, job := StrandFrom(steps, RecordIsLost(0));
  }

  // Jobs `a`, marked, and `b` on stream `q`, with entries 1 and 2.

  function Two(q: Name, a: JobId, b: JobId, st: Stream, enq: Option<nat>): State {
    State(map[a := Row(Pending, true, q), b := Row(Pending, false, q)], map[q := st], map[],
          map[0 := Enqueuer(b, true, enq)], map[], {})
  }

  function Pair(a: JobId, b: JobId, lastDelivered: nat, pending: set<nat>): Stream {
    Stream(map[1 := a, 2 := b], 2, lastDelivered, pending)
  }

  /** A trimmer has seen nothing pending, then both entries were read. */
  function Raced(q: Name, a: JobId, b: JobId, trimmer: Trimmer): State {
    Two(q, a, b, Pair(a, b, 2, {1, 2}), Some(2)).(
      tasks := map[0 := Task(q, 1, a, Got), 1 := Task(q, 2, b, Got)], trimmers := map[0 := trimmer])
  }

  lemma SecondGoes(q: Name, a: JobId, b: JobId)
    requires a != b
    ensures Goes(Queued(q, a), CreateJob(0, b, q), Two(q, a, b, Unread(a), None))
    ensures Goes(Two(q, a, b, Unread(a), None), Add(0, 2), Two(q, a, b, Pair(a, b, 0, {}), Some(2)))
  {
  }

  lemma WatchGoes(q: Name, a: JobId, b: JobId)
    requires a != b
    ensures var s := Two(q, a, b, Pair(a, b, 0, {}), Some(2));
            Goes(s, TrimPending(0, q), Watched(q, a, b))
  {
  }

  lemma BothEntries(a: JobId, b: JobId)
    ensures Batch(Pair(a, b, 0, {}), 2) == {1, 2} && |{1, 2}| == 2 && map[0 := 1, 1 := 2].Values == {1, 2}
  {
    assert Batch(Pair(a, b, 0, {}), 2) == {1, 2};
    var m := map[0 := 1, 1 := 2];
    assert m[0] == 1 && m[1] == 2;
    assert m.Values == {1, 2};
  }

  function Watched(q: Name, a: JobId, b: JobId): State {
    Two(q, a, b, Pair(a, b, 0, {}), Some(2)).(trimmers := map[0 := SawNonePending(q, {})])
  }

  lemma RaceIsEnabled(q: Name, a: JobId, b: JobId)
    requires a != b
    ensures Enabled(Watched(q, a, b), Read(q, 2, 2, map[0 := 1, 1 := 2]))
  {
    BothEntries(a, b);
  }

  lemma RaceTasks(q: Name, a: JobId, b: JobId)
    requires a != b && Enabled(Watched(q, a, b), Read(q, 2, 2, map[0 := 1, 1 := 2]))
    ensures var s, read := Watched(q, a, b), Read(q, 2, 2, map[0 := 1, 1 := 2]);
            NextTasks(s, read) == map[0 := Task(q, 1, a, Got), 1 := Task(q, 2, b, Got)] && NextSpent(s, read) == {}
  {
    BothEntries(a, b);
    var s, read := Watched(q, a, b), Read(q, 2, 2, map[0 := 1, 1 := 2]);
    assert Resolves(s, read).None?;
    assert NextTasks(s, read) == map[0 := Task(q, 1, a, Got), 1 := Task(q, 2, b, Got)];
  }

  lemma RaceTrimmers(q: Name, a: JobId, b: JobId)
    requires a != b && Enabled(Watched(q, a, b), Read(q, 2, 2, map[0 := 1, 1 := 2]))
    ensures NextTrimmers(Watched(q, a, b), Read(q, 2, 2, map[0 := 1, 1 := 2])) == map[0 := SawNonePending(q, {1, 2})]
  {
    BothEntries(a, b);
    assert {} + {1, 2} == {1, 2};
  }

  lemma RaceStreams(q: Name, a: JobId, b: JobId)
    requires a != b && Enabled(Watched(q, a, b), Read(q, 2, 2, map[0 := 1, 1 := 2]))
    ensures NextStreams(Watched(q, a, b), Read(q, 2, 2, map[0 := 1, 1 := 2])) == map[q := Pair(a, b, 2, {1, 2})]
  {
    BothEntries(a, b);
    assert XReadGroup(Pair(a, b, 0, {}), 2) == Pair(a, b, 2, {1, 2});
  }

  lemma RaceGoes(q: Name, a: JobId, b: JobId)
    requires a != b
    ensures Goes(Watched(q, a, b), Read(q, 2, 2, map[0 := 1, 1 := 2]), Raced(q, a, b, SawNonePending(q, {1, 2})))
  {
    RaceIsEnabled(q, a, b);
    RaceTasks(q, a, b);
    RaceTrimmers(q, a, b);
    RaceStreams(q, a, b);
  }

  lemma InfoGoes(q: Name, a: JobId, b: JobId)
    requires a != b
    ensures Goes(Raced(q, a, b, SawNonePending(q, {1, 2})), TrimInfo(0),
                 Raced(q, a, b, HasCutoff(q, 2, LastDelivered({1, 2}))))
  {
  }

  lemma RacedTrimSpoils(q: Name, a: JobId, b: JobId)
    requires a != b
    ensures var s := Raced(q, a, b, HasCutoff(q, 2, LastDelivered({1, 2})));
            Enabled(s, TrimCut(0, 2)) && Spoils(s, TrimCut(0, 2))
  {
    assert CutsOff(Raced(q, a, b, HasCutoff(q, 2, LastDelivered({1, 2}))), q, 2, a);
  }

  /** A read lands between a trimmer's XPENDING and XINFO, the trim drops the older
      entry, and the worker that has it in hand crashes. */
  lemma RacedTrimStrands(q: Name, a: JobId, b: JobId) returns (steps: seq<Step>, after: seq<Step>, job: JobId)
    requires a != b
    ensures StrandsBy(steps, TrimCut(0, 2), after, job)
  {
    var s := Two(q, a, b, Pair(a, b, 0, {}), Some(2));
    SecondGoes(q, a, b);
    WatchGoes(q, a, b);
    RaceGoes(q, a, b);
    InfoGoes(q, a, b);
    RacedTrimSpoils(q, a, b);
    steps := QueuedRun(q, a);
    steps := Extend(steps, CreateJob(0, b, q), Two(q, a, b, Unread(a), None));
    steps := Extend(steps, Add(0, 2), s);
    steps := Extend(steps, TrimPending(0, q), Watched(q, a, b));
    steps := Extend(steps, Read(q, 2, 2, map[0 := 1, 1 := 2]), Raced(q, a, b, SawNonePending(q, {1, 2})));
    steps := Extend(steps, TrimInfo(0), Raced(q, a, b, HasCutoff(q, 2, LastDelivered({1, 2}))));
    after, job := StrandFrom(steps, TrimCut(0, 2));
  }
}
