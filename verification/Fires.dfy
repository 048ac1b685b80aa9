/** Firing due schedules (src/scheduler/shard.rs, src/scheduler/fire.rs) while
    API calls change them (src/features/schedules/service.rs) and the reconciler
    restores lost scores (src/scheduler/reconcile.rs).

    Every statement and command is a step of its own, and the clock may advance
    between any two. A worker takes a shard's lock, polls what is due, and for each
    schedule computes its next time, commits the fire and re-scores it. An API call
    computes a next time, writes the row, and then the score. The reconciler reads
    rows and adds their scores later. The one hypothesis is that no live worker
    holds a lock for 30 s. */
module Fires {
  import opened Redis
  import opened Shards

  /** All tasks of one scheduler instance use the instance id as lock token. */
  datatype WorkerId = WorkerId(instance: string, task: nat)

  datatype Row = Row(shard: Shard, active: bool, next: int)

  /** A schedule with a time it is to run at. */
  datatype Item = Item(schedule: ScheduleId, due: int)

  datatype Stage =
    | Locked
    | Firing(todo: seq<Item>)
    | Computed(todo: seq<Item>, at: int, next: int)
    | Committed(fired: ScheduleId, next: int, todo: seq<Item>)

  datatype Work = Work(shard: Shard, acquiredAt: int, stage: Stage)

  /** An API call, or a row in the reconciler's hands: what it writes next. */
  datatype Call =
    | Ready(item: Item)               // the next time is computed, the row comes next
    | Scoring(item: Item)             // ZADD
    | Adding(item: Item)              // ZADD NX, by the reconciler
    | Dropping(schedule: ScheduleId)  // ZREM

  /** A committed fire: when its next time was computed, what it was due at. */
  datatype Fire = Fire(schedule: ScheduleId, at: int, due: int)

  datatype State = State(
    now: int,
    rows: map<ScheduleId, Row>,
    pending: map<ScheduleId, int>,
    locks: map<Shard, Lock>,
    workers: map<WorkerId, Work>,
    calls: map<nat, Call>,
    log: seq<Fire>,
    issued: set<Item>)  // every due time ever computed

  const INIT := State(0, map[], map[], map[], map[], map[], [], {})

  datatype Step =
    | Tick(to: int)
      // a shard worker
    | Acquire(w: WorkerId, shard: Shard)
    | Poll(w: WorkerId, items: seq<Item>)
    | Skip(w: WorkerId)
    | Compute(w: WorkerId, next: int)
    | Commit(w: WorkerId)
    | Abort(w: WorkerId)
    | Rescore(w: WorkerId)
    | RescoreFails(w: WorkerId)
    | Release(w: WorkerId)
    | Die(w: WorkerId)  // its lock is left to expire
      // API calls
    | ComputeNext(call: nat, schedule: ScheduleId, next: int)
    | CreateRow(call: nat, shard: Shard)
    | WriteRow(call: nat)                          // update with a new time
    | ReadRow(call: nat, schedule: ScheduleId)     // update without one
    | Resume(call: nat, schedule: ScheduleId)      // or restore
    | Suspend(call: nat, schedule: ScheduleId)     // pause or delete
    | AddScore(call: nat)
    | DropScore(call: nat)
    | GiveUp(call: nat)
      // the reconciler
    | Query(call: nat, schedule: ScheduleId)
    | AddScoreNX(call: nat)

  predicate IsDue(s: State, shard: Shard, i: Item) {
    && i.schedule in s.pending && i.schedule in s.rows && s.rows[i.schedule].shard == shard
    && i.due == s.pending[i.schedule] <= s.now
  }

  /** ZRANGEBYSCORE 0 now LIMIT 0 50. */
  ghost predicate PollReturns(s: State, shard: Shard, items: seq<Item>) {
    && |items| <= 50
    && (forall i | 0 <= i < |items| :: IsDue(s, shard, items[i]))
    && (forall i, j | 0 <= i < j < |items| :: items[i].schedule != items[j].schedule && items[i].due <= items[j].due)
    && (forall x | IsDue(s, shard, x) && x !in items :: |items| == 50 && items[49].due <= x.due)
  }

  predicate HasTodo(s: State, w: WorkerId) {
    w in s.workers && s.workers[w].stage.Firing? && s.workers[w].stage.todo != []
  }

  predicate HasComputed(s: State, w: WorkerId) {
    && w in s.workers && s.workers[w].stage.Computed? && s.workers[w].stage.todo != []
    && s.workers[w].stage.todo[0].schedule in s.rows
  }

  predicate HasCommitted(s: State, w: WorkerId) {
    w in s.workers && s.workers[w].stage.Committed?
  }

  ghost predicate Enabled(s: State, step: Step) {
    match step
    case Tick(to) => s.now <= to && forall w | w in s.workers :: to < s.workers[w].acquiredAt + 30_000
    case Acquire(w, shard) => w !in s.workers && LockFree(s.locks, shard, s.now)
    case Poll(w, items) => w in s.workers && s.workers[w].stage.Locked? && PollReturns(s, s.workers[w].shard, items)
    case Skip(w) => HasTodo(s, w)
    case Compute(w, next) =>
      && HasTodo(s, w) && s.now < next
      && s.workers[w].stage.todo[0].schedule in s.rows && s.rows[s.workers[w].stage.todo[0].schedule].active
    case Commit(w) => HasComputed(s, w)
    case Abort(w) => HasComputed(s, w)
    case Rescore(w) => HasCommitted(s, w)
    case RescoreFails(w) => HasCommitted(s, w)
    case Release(w) => w in s.workers && s.workers[w].stage.Firing? && s.workers[w].stage.todo == []
    case Die(w) => w in s.workers
    case ComputeNext(call, _, next) => call !in s.calls && s.now < next
    case CreateRow(call, _) => call in s.calls && s.calls[call].Ready? && s.calls[call].item.schedule !in s.rows
    case WriteRow(call) => call in s.calls && s.calls[call].Ready? && s.calls[call].item.schedule in s.rows
    case ReadRow(call, schedule) => call !in s.calls && schedule in s.rows
    case Resume(call, schedule) => call !in s.calls && schedule in s.rows
    case Suspend(call, schedule) => call !in s.calls && schedule in s.rows
    case AddScore(call) => call in s.calls && s.calls[call].Scoring?
    case DropScore(call) => call in s.calls && s.calls[call].Dropping?
    case GiveUp(call) => call in s.calls
    case Query(call, schedule) => call !in s.calls && schedule in s.rows && s.rows[schedule].active
    case AddScoreNX(call) => call in s.calls && s.calls[call].Adding?
  }

  // What a step does, table by table.

  ghost function NextRows(s: State, step: Step): map<ScheduleId, Row>
    requires Enabled(s, step)
  {
    match step
    case Commit(w) =>
      var c := s.workers[w].stage;
      s.rows[c.todo[0].schedule := s.rows[c.todo[0].schedule].(next := c.next)]
    case CreateRow(call, shard) =>
      var i := s.calls[call].item;
      s.rows[i.schedule := Row(shard, true, i.due)]
    case WriteRow(call) =>
      var i := s.calls[call].item;
      s.rows[i.schedule := s.rows[i.schedule].(next := i.due)]
    case Resume(_, schedule) => s.rows[schedule := s.rows[schedule].(active := true)]
    case Suspend(_, schedule) => s.rows[schedule := s.rows[schedule].(active := false)]
    case _ => s.rows
  }

  ghost function NextPending(s: State, step: Step): map<ScheduleId, int>
    requires Enabled(s, step)
  {
    match step
    case Rescore(w) => s.pending[s.workers[w].stage.fired := s.workers[w].stage.next]
    case AddScore(call) => s.pending[s.calls[call].item.schedule := s.calls[call].item.due]
    case AddScoreNX(call) => ZAddNX(s.pending, s.calls[call].item.schedule, s.calls[call].item.due)
    case DropScore(call) => s.pending - {s.calls[call].schedule}
    case _ => s.pending
  }

  ghost function NextLocks(s: State, step: Step): map<Shard, Lock>
    requires Enabled(s, step)
  {
    match step
    case Acquire(w, shard) => s.locks[shard := Lock(w.instance, s.now + LOCK_TTL)]
    case Release(w) => Released(s.locks, s.workers[w].shard, w.instance)
    case _ => s.locks
  }

  function At(workers: map<WorkerId, Work>, w: WorkerId, stage: Stage): map<WorkerId, Work>
    requires w in workers
  {
    workers[w := workers[w].(stage := stage)]
  }

  ghost function NextWorkers(s: State, step: Step): map<WorkerId, Work>
    requires Enabled(s, step)
  {
    match step
    case Acquire(w, shard) => s.workers[w := Work(shard, s.now, Locked)]
    case Poll(w, items) => At(s.workers, w, Firing(items))
    case Skip(w) => At(s.workers, w, Firing(s.workers[w].stage.todo[1..]))
    case Compute(w, next) => At(s.workers, w, Computed(s.workers[w].stage.todo, s.now, next))
    case Commit(w) =>
      var c := s.workers[w].stage;
      At(s.workers, w, Committed(c.todo[0].schedule, c.next, c.todo[1..]))
    case Abort(w) => At(s.workers, w, Firing(s.workers[w].stage.todo[1..]))
    case Rescore(w) => At(s.workers, w, Firing(s.workers[w].stage.todo))
    case RescoreFails(w) => At(s.workers, w, Firing(s.workers[w].stage.todo))
    case Release(w) => s.workers - {w}
    case Die(w) => s.workers - {w}
    case _ => s.workers
  }

  ghost function NextCalls(s: State, step: Step): map<nat, Call>
    requires Enabled(s, step)
  {
    match step
    case ComputeNext(call, schedule, next) => s.calls[call := Ready(Item(schedule, next))]
    case CreateRow(call, _) => s.calls[call := Scoring(s.calls[call].item)]
    case WriteRow(call) => s.calls[call := Scoring(s.calls[call].item)]
    case ReadRow(call, schedule) => s.calls[call := Scoring(Item(schedule, s.rows[schedule].next))]
    case Resume(call, schedule) => s.calls[call := Scoring(Item(schedule, s.rows[schedule].next))]
    case Suspend(call, schedule) => s.calls[call := Dropping(schedule)]
    case Query(call, schedule) => s.calls[call := Adding(Item(schedule, s.rows[schedule].next))]
    case AddScore(call) => s.calls - {call}
    case AddScoreNX(call) => s.calls - {call}
    case DropScore(call) => s.calls - {call}
    case GiveUp(call) => s.calls - {call}
    case _ => s.calls
  }

  /** The fire a commit records. */
  function FireOf(c: Stage): Fire
    requires c.Computed? && c.todo != []
  {
    Fire(c.todo[0].schedule, c.at, c.todo[0].due)
  }

  ghost function NextIssued(s: State, step: Step): set<Item>
    requires Enabled(s, step)
  {
    match step
    case ComputeNext(_, schedule, next) => s.issued + {Item(schedule, next)}
    case Commit(w) => s.issued + {Item(s.workers[w].stage.todo[0].schedule, s.workers[w].stage.next)}
    case _ => s.issued
  }

  ghost function Next(s: State, step: Step): State
    requires Enabled(s, step)
  {
    State(if step.Tick? then step.to else s.now, NextRows(s, step), NextPending(s, step), NextLocks(s, step),
          NextWorkers(s, step), NextCalls(s, step),
          if step.Commit? then s.log + [FireOf(s.workers[step.w].stage)] else s.log, NextIssued(s, step))
  }

  ghost predicate Legal(s: State, steps: seq<Step>)
    decreases steps
  {
    steps == [] || (Enabled(s, steps[0]) && Legal(Next(s, steps[0]), steps[1..]))
  }

  ghost function Exec(s: State, steps: seq<Step>): State
    requires Legal(s, steps)
    decreases steps
  {
    if steps == [] then s else Exec(Next(s, steps[0]), steps[1..])
  }

  // --- Justified fires, and the steps that spoil them ---

  /** Two fires of one schedule are separated by the second one's due time: after
      the first fire and no later than the second. */
  ghost predicate Justified(log: seq<Fire>) {
    forall i, j | 0 <= i < j < |log| && log[i].schedule == log[j].schedule :: log[i].at < log[j].due <= log[j].at
  }

  /** Every fire of `id` so far was computed before `t`. */
  ghost predicate Beyond(log: seq<Fire>, id: ScheduleId, t: int) {
    forall i | 0 <= i < |log| && log[i].schedule == id :: log[i].at < t
  }

  ghost predicate InFlight(s: State, w: WorkerId, id: ScheduleId) {
    w in s.workers && s.workers[w].stage.Committed? && s.workers[w].stage.fired == id
  }

  ghost predicate AnyInFlight(s: State, id: ScheduleId) {
    exists w :: InFlight(s, w, id)
  }

  /** A time that a fire of its schedule has overtaken since it was computed, with
      no re-score to come that would replace it. */
  ghost predicate Overtaken(s: State, i: Item) {
    !Beyond(s.log, i.schedule, i.due) && !AnyInFlight(s, i.schedule)
  }

  /** A fired schedule is left with a score the fire has used up. */
  ghost predicate LeavesOldScore(s: State, w: WorkerId) {
    && HasCommitted(s, w)
    && var id := s.workers[w].stage.fired;
    && id in s.pending && !Beyond(s.log, id, s.pending[id])
  }

  /** The steps that break the property: a score is written although a fire has
      overtaken it, or a fire's own re-score does not come about. */
  ghost predicate Spoils(s: State, step: Step) {
    match step
    case AddScore(call) => call in s.calls && s.calls[call].Scoring? && Overtaken(s, s.calls[call].item)
    case AddScoreNX(call) =>
      && call in s.calls && s.calls[call].Adding?
      && s.calls[call].item.schedule !in s.pending && Overtaken(s, s.calls[call].item)
    case RescoreFails(w) => LeavesOldScore(s, w)
    case Die(w) => LeavesOldScore(s, w)
    case _ => false
  }

  ghost predicate Clean(s: State, steps: seq<Step>)
    requires Legal(s, steps)
    decreases steps
  {
    steps == [] || (!Spoils(s, steps[0]) && Clean(Next(s, steps[0]), steps[1..]))
  }

  // --- What every step keeps ---

  ghost predicate ItemOk(s: State, shard: Shard, i: Item) {
    && i.schedule in s.rows && s.rows[i.schedule].shard == shard
    && Beyond(s.log, i.schedule, i.due) && i.due <= s.now && i in s.issued
  }

  function Todo(g: Stage): seq<Item> {
    if g.Locked? then [] else g.todo
  }

  ghost predicate ItemsOk(s: State, shard: Shard, todo: seq<Item>) {
    && (forall i | 0 <= i < |todo| :: ItemOk(s, shard, todo[i]))
    && (forall i, j | 0 <= i < j < |todo| :: todo[i].schedule != todo[j].schedule)
  }

  ghost predicate StageOk(s: State, shard: Shard, g: Stage) {
    && ItemsOk(s, shard, Todo(g))
    && (g.Computed? ==> g.at <= s.now && g.at < g.next && (g.todo != [] ==> g.todo[0].due <= g.at))
    && (g.Committed? ==>
          && g.fired in s.rows && s.rows[g.fired].shard == shard
          && Beyond(s.log, g.fired, g.next) && Item(g.fired, g.next) in s.issued
          && (forall i | 0 <= i < |g.todo| :: g.todo[i].schedule != g.fired))
  }

  ghost predicate Holds(s: State, w: WorkerId) {
    && w in s.workers && s.workers[w].shard in s.locks
    && var l := s.locks[s.workers[w].shard];
    && l == Lock(w.instance, s.workers[w].acquiredAt + LOCK_TTL) && s.now < l.expiresAt
  }

  ghost predicate Exclusive(s: State) {
    forall v, w | v in s.workers && w in s.workers && s.workers[v].shard == s.workers[w].shard :: v == w
  }

  ghost predicate HoldInv(s: State) {
    Exclusive(s) && forall w | w in s.workers :: Holds(s, w)
  }

  ghost predicate PendingOk(s: State, id: ScheduleId)
    requires id in s.pending
  {
    && id in s.rows && Item(id, s.pending[id]) in s.issued
    && (Beyond(s.log, id, s.pending[id]) || AnyInFlight(s, id))
  }

  ghost predicate CallOk(s: State, c: Call) {
    !c.Dropping? ==> c.item in s.issued && (!c.Ready? ==> c.item.schedule in s.rows)
  }

  ghost predicate LogOk(s: State) {
    && (forall i | 0 <= i < |s.log| ::
          && s.log[i].at <= s.now && s.log[i].due <= s.log[i].at && s.log[i].schedule in s.rows
          && Item(s.log[i].schedule, s.log[i].due) in s.issued)
    && Justified(s.log)
  }

  ghost predicate Inv(s: State) {
    && LogOk(s)
    && (forall id | id in s.rows :: Item(id, s.rows[id].next) in s.issued)
    && (forall c | c in s.calls :: CallOk(s, s.calls[c]))
    && (forall id | id in s.pending :: PendingOk(s, id))
    && HoldInv(s)
    && (forall w | w in s.workers :: StageOk(s, s.workers[w].shard, s.workers[w].stage))
  }

  lemma SameWork(s: State, step: Step, w: WorkerId)
    requires Enabled(s, step) && w in NextWorkers(s, step)
    ensures w !in s.workers ==> step.Acquire? && step.w == w
    ensures w in s.workers ==> NextWorkers(s, step)[w] == s.workers[w].(stage := NextWorkers(s, step)[w].stage)
  {
  }

  lemma LockStays(s: State, step: Step, w: WorkerId)
    requires HoldInv(s) && Enabled(s, step) && w in s.workers && w in NextWorkers(s, step)
    ensures var shard := s.workers[w].shard;
            shard in s.locks && shard in NextLocks(s, step) && NextLocks(s, step)[shard] == s.locks[shard]
  {
    assert Holds(s, w);
  }

  lemma WorkerHolds(s: State, step: Step, w: WorkerId)
    requires HoldInv(s) && Enabled(s, step) && w in NextWorkers(s, step)
    ensures Holds(Next(s, step), w)
  {
    SameWork(s, step, w);
    if w in s.workers {
      assert Holds(s, w);
      LockStays(s, step, w);
    }
  }

  lemma StaysExclusive(s: State, step: Step)
    requires HoldInv(s) && Enabled(s, step)
    ensures Exclusive(Next(s, step))
  {
    forall v, w | v in NextWorkers(s, step) && w in NextWorkers(s, step)
                  && NextWorkers(s, step)[v].shard == NextWorkers(s, step)[w].shard
      ensures v == w
    {
      SameWork(s, step, v);
      SameWork(s, step, w);
      assert v in s.workers ==> Holds(s, v);
      assert w in s.workers ==> Holds(s, w);
    }
  }

  lemma StepKeepsHolds(s: State, step: Step)
    requires HoldInv(s) && Enabled(s, step)
    ensures HoldInv(Next(s, step))
  {
    forall w | w in NextWorkers(s, step)
      ensures Holds(Next(s, step), w)
    {
      WorkerHolds(s, step, w);
    }
    StaysExclusive(s, step);
  }

  lemma RowsStay(s: State, step: Step)
    requires Enabled(s, step)
    ensures forall id | id in s.rows :: id in NextRows(s, step) && NextRows(s, step)[id].shard == s.rows[id].shard
    ensures s.issued <= NextIssued(s, step) && s.now <= Next(s, step).now
  {
  }

  lemma StepKeepsRows(s: State, step: Step, id: ScheduleId)
    requires Inv(s) && Enabled(s, step) && id in NextRows(s, step)
    ensures Item(id, NextRows(s, step)[id].next) in NextIssued(s, step)
  {
    RowsStay(s, step);
    if step.CreateRow? || step.WriteRow? {
      assert CallOk(s, s.calls[step.call]);
    }
  }

  lemma StepKeepsCall(s: State, step: Step, c: nat)
    requires Inv(s) && Enabled(s, step) && c in NextCalls(s, step)
    ensures CallOk(Next(s, step), NextCalls(s, step)[c])
  {
    RowsStay(s, step);
    if c in s.calls {
      assert CallOk(s, s.calls[c]);
    }
  }

  lemma StepKeepsLog(s: State, step: Step)
    requires Inv(s) && Enabled(s, step)
    ensures LogOk(Next(s, step))
  {
    RowsStay(s, step);
    if step.Commit? {
      CommitKeepsLog(s, step.w);
    }
  }

  lemma CommitKeepsLog(s: State, w: WorkerId)
    requires Inv(s) && Enabled(s, Commit(w))
    ensures LogOk(Next(s, Commit(w)))
  {
    var g := s.workers[w].stage;
    RowsStay(s, Commit(w));
    assert StageOk(s, s.workers[w].shard, g);
    assert ItemOk(s, s.workers[w].shard, Todo(g)[0]);
    JustifiedGrows(s.log, FireOf(g));
  }

  lemma JustifiedGrows(log: seq<Fire>, f: Fire)
    requires Justified(log) && Beyond(log, f.schedule, f.due) && f.due <= f.at
    ensures Justified(log + [f])
  {
  }

  lemma StepKeepsPending(s: State, step: Step, id: ScheduleId)
    requires Inv(s) && Enabled(s, step) && !Spoils(s, step) && id in Next(s, step).pending
    ensures PendingOk(Next(s, step), id)
  {
    RowsStay(s, step);
    if id in s.pending && NextPending(s, step)[id] == s.pending[id] {
      PendingStays(s, step, id);
    } else if step.Rescore? {
      assert StageOk(s, s.workers[step.w].shard, s.workers[step.w].stage);
    } else {
      NewScoreOk(s, step, id);
    }
  }

  lemma NewScoreOk(s: State, step: Step, id: ScheduleId)
    requires Inv(s) && (step.AddScore? || step.AddScoreNX?) && Enabled(s, step) && !Spoils(s, step)
    requires id in NextPending(s, step) && (id !in s.pending || NextPending(s, step)[id] != s.pending[id])
    ensures PendingOk(Next(s, step), id)
  {
    var i := s.calls[step.call].item;
    assert CallOk(s, s.calls[step.call]) && id == i.schedule;
    if !Beyond(s.log, id, i.due) {
      var w :| InFlight(s, w, id);
      assert InFlight(Next(s, step), w, id);
    }
  }

  lemma PendingStays(s: State, step: Step, id: ScheduleId)
    requires Inv(s) && Enabled(s, step) && !Spoils(s, step) && id in s.pending && id in NextPending(s, step)
    requires NextPending(s, step)[id] == s.pending[id]
    ensures PendingOk(Next(s, step), id)
  {
    RowsStay(s, step);
    assert PendingOk(s, id);
    if step.Commit? && s.workers[step.w].stage.todo[0].schedule == id {
      assert InFlight(Next(s, step), step.w, id);
    } else if Beyond(s.log, id, s.pending[id]) {
      StaysBeyond(s, step, id, s.pending[id]);
    } else {
      var w :| InFlight(s, w, id);
      assert StageOk(s, s.workers[w].shard, s.workers[w].stage);
      FlightStays(s, step, w, id);
    }
  }

  lemma StaysBeyond(s: State, step: Step, id: ScheduleId, t: int)
    requires Enabled(s, step) && Beyond(s.log, id, t)
    requires step.Commit? ==> s.workers[step.w].stage.todo[0].schedule != id
    ensures Beyond(Next(s, step).log, id, t)
  {
  }

  /** A fire stays in flight until it is re-scored. */
  lemma FlightStays(s: State, step: Step, w: WorkerId, id: ScheduleId)
    requires Enabled(s, step) && !Spoils(s, step) && InFlight(s, w, id) && id in s.pending
    requires StageOk(s, s.workers[w].shard, s.workers[w].stage) && !Beyond(s.log, id, s.pending[id])
    ensures InFlight(Next(s, step), w, id) || (step == Rescore(w) && Beyond(s.log, id, NextPending(s, step)[id]))
  {
    SameStage(s, step, w);
  }

  /** A fire in flight is ended by its own worker only: by the re-score, by its
      failure, or by death. */
  lemma SameStage(s: State, step: Step, w: WorkerId)
    requires Enabled(s, step) && HasCommitted(s, w)
    ensures || (w in NextWorkers(s, step) && NextWorkers(s, step)[w] == s.workers[w])
            || step == Rescore(w) || step == RescoreFails(w) || step == Die(w)
  {
  }

  /** Nothing a stage depends on has changed for the worse. */
  ghost predicate Calm(s: State, s': State) {
    && s.now <= s'.now && s.issued <= s'.issued && s.log == s'.log
    && forall id | id in s.rows :: id in s'.rows && s'.rows[id].shard == s.rows[id].shard
  }

  lemma StageStays(s: State, s': State, shard: Shard, g: Stage)
    requires StageOk(s, shard, g) && Calm(s, s')
    ensures StageOk(s', shard, g)
  {
  }

  lemma ItemsTail(s: State, shard: Shard, todo: seq<Item>)
    requires ItemsOk(s, shard, todo) && todo != []
    ensures ItemsOk(s, shard, todo[1..]) && ItemOk(s, shard, todo[0])
    ensures forall i | 0 <= i < |todo[1..]| :: todo[1..][i].schedule != todo[0].schedule
  {
  }

  lemma OwnStep(s: State, step: Step, w: WorkerId)
    requires Inv(s) && Enabled(s, step) && !step.Commit? && w in s.workers && w in NextWorkers(s, step)
    requires NextWorkers(s, step)[w].stage != s.workers[w].stage
    ensures StageOk(s, s.workers[w].shard, NextWorkers(s, step)[w].stage)
  {
    var shard, g := s.workers[w].shard, s.workers[w].stage;
    assert StageOk(s, shard, g);
    if step.Poll? {
      PollGivesItems(s, w, step.items);
    } else if step.Skip? || step.Abort? || step.Compute? {
      ItemsTail(s, shard, g.todo);
    }
  }

  lemma StepKeepsStages(s: State, step: Step, w: WorkerId)
    requires Inv(s) && Enabled(s, step) && w in Next(s, step).workers
    ensures StageOk(Next(s, step), Next(s, step).workers[w].shard, Next(s, step).workers[w].stage)
  {
    if w in s.workers {
      assert StageOk(s, s.workers[w].shard, s.workers[w].stage);
      if step.Commit? {
        CommitKeepsStage(s, step.w, w);
      } else {
        RowsStay(s, step);
        if NextWorkers(s, step)[w].stage != s.workers[w].stage {
          OwnStep(s, step, w);
        }
        StageStays(s, Next(s, step), s.workers[w].shard, NextWorkers(s, step)[w].stage);
      }
    }
  }

  /** Whoever has just locked a shard finds no fire of its schedules in flight. */
  lemma NoneInFlight(s: State, w: WorkerId, id: ScheduleId)
    requires Inv(s) && w in s.workers && s.workers[w].stage.Locked?
    requires id in s.rows && s.rows[id].shard == s.workers[w].shard
    ensures !AnyInFlight(s, id)
  {
    forall v
      ensures !InFlight(s, v, id)
    {
      assert v in s.workers ==> StageOk(s, s.workers[v].shard, s.workers[v].stage);
    }
  }

  lemma PollGivesItems(s: State, w: WorkerId, items: seq<Item>)
    requires Inv(s) && Enabled(s, Poll(w, items))
    ensures ItemsOk(s, s.workers[w].shard, items)
  {
    forall i | 0 <= i < |items|
      ensures ItemOk(s, s.workers[w].shard, items[i])
    {
      assert IsDue(s, s.workers[w].shard, items[i]) && PendingOk(s, items[i].schedule);
      NoneInFlight(s, w, items[i].schedule);
    }
  }

  /** A fire of one schedule leaves what is known about the others alone. */
  lemma ItemsOutlastFire(s: State, s': State, shard: Shard, todo: seq<Item>, f: Fire)
    requires ItemsOk(s, shard, todo) && forall i | 0 <= i < |todo| :: todo[i].schedule != f.schedule
    requires Calm(s, s'.(log := s.log)) && s'.log == s.log + [f]
    ensures ItemsOk(s', shard, todo)
  {
  }

  lemma OwnCommit(s: State, w: WorkerId)
    requires Inv(s) && Enabled(s, Commit(w))
    ensures var s' := Next(s, Commit(w)); StageOk(s', s.workers[w].shard, s'.workers[w].stage)
  {
    var s', shard, mine := Next(s, Commit(w)), s.workers[w].shard, s.workers[w].stage;
    RowsStay(s, Commit(w));
    assert StageOk(s, shard, mine);
    ItemsTail(s, shard, mine.todo);
    ItemsOutlastFire(s, s', shard, mine.todo[1..], FireOf(mine));
  }

  lemma OtherCommit(s: State, firer: WorkerId, w: WorkerId)
    requires Inv(s) && Enabled(s, Commit(firer)) && w in s.workers && w != firer
    ensures StageOk(Next(s, Commit(firer)), s.workers[w].shard, s.workers[w].stage)
  {
    var s' := Next(s, Commit(firer));
    var shard, g, mine := s.workers[w].shard, s.workers[w].stage, s.workers[firer].stage;
    RowsStay(s, Commit(firer));
    assert StageOk(s, shard, g) && StageOk(s, s.workers[firer].shard, mine);
    ItemsTail(s, s.workers[firer].shard, mine.todo);
    assert shard != s.workers[firer].shard;
    assert forall i | 0 <= i < |Todo(g)| :: ItemOk(s, shard, Todo(g)[i]);
    ItemsOutlastFire(s, s', shard, Todo(g), FireOf(mine));
  }

  lemma CommitKeepsStage(s: State, firer: WorkerId, w: WorkerId)
    requires Inv(s) && Enabled(s, Commit(firer)) && w in s.workers
    ensures var s' := Next(s, Commit(firer)); StageOk(s', s'.workers[w].shard, s'.workers[w].stage)
  {
    if w == firer {
      OwnCommit(s, w);
    } else {
      OtherCommit(s, firer, w);
    }
  }

  lemma StepKeepsInv(s: State, step: Step)
    requires Inv(s) && Enabled(s, step) && !Spoils(s, step)
    ensures Inv(Next(s, step))
  {
    var s' := Next(s, step);
    StepKeepsHolds(s, step);
    StepKeepsLog(s, step);
    forall id | id in s'.rows
      ensures Item(id, s'.rows[id].next) in s'.issued
    {
      StepKeepsRows(s, step, id);
    }
    forall c | c in s'.calls
      ensures CallOk(s', s'.calls[c])
    {
      StepKeepsCall(s, step, c);
    }
    forall id | id in s'.pending
      ensures PendingOk(s', id)
    {
      StepKeepsPending(s, step, id);
    }
    forall w | w in s'.workers
      ensures StageOk(s', s'.workers[w].shard, s'.workers[w].stage)
    {
      StepKeepsStages(s, step, w);
    }
  }

  lemma {:induction false} RunKeepsInv(s: State, steps: seq<Step>)
    requires Inv(s) && Legal(s, steps) && Clean(s, steps)
    ensures Inv(Exec(s, steps))
    decreases steps
  {
    if steps == [] {
    } else {
      StepKeepsInv(s, steps[0]);
      RunKeepsInv(Next(s, steps[0]), steps[1..]);
    }
  }

  /** In every run in which no step spoils it, two fires of one schedule are
      separated by a due time that was computed for it: after the first fire and
      no later than the second. */
  lemma FiresAreJustified(steps: seq<Step>)
    requires Legal(INIT, steps) && Clean(INIT, steps)
    ensures var s := Exec(INIT, steps);
            Justified(s.log) && forall j | 0 <= j < |s.log| :: Item(s.log[j].schedule, s.log[j].due) in s.issued
  {
    RunKeepsInv(INIT, steps);
  }

  lemma {:induction false} RunKeepsHolds(s: State, steps: seq<Step>)
    requires HoldInv(s) && Legal(s, steps)
    ensures HoldInv(Exec(s, steps))
    decreases steps
  {
    if steps == [] {
    } else {
      StepKeepsHolds(s, steps[0]);
      RunKeepsHolds(Next(s, steps[0]), steps[1..]);
    }
  }

  /** In every run, spoiled or not, at most one worker fires a shard at a time. */
  lemma OneWorkerPerShard(steps: seq<Step>, v: WorkerId, w: WorkerId)
    requires Legal(INIT, steps) && v in Exec(INIT, steps).workers && w in Exec(INIT, steps).workers
    requires Exec(INIT, steps).workers[v].shard == Exec(INIT, steps).workers[w].shard
    ensures v == w
  {
    RunKeepsHolds(INIT, steps);
  }

  /** A worker that releases leaves its shard free for the next one, and no other. */
  lemma ReleaseFreesItsShard(steps: seq<Step>, w: WorkerId, shard: Shard)
    requires Legal(INIT, steps) && Enabled(Exec(INIT, steps), Release(w))
    ensures var s := Exec(INIT, steps);
            LockFree(Next(s, Release(w)).locks, shard, s.now) <==>
            shard == s.workers[w].shard || LockFree(s.locks, shard, s.now)
  {
    RunKeepsHolds(INIT, steps);
    assert Holds(Exec(INIT, steps), w);
  }

  // --- A suspended schedule ---

  /** `id` was paused or deleted at some point of the run and not resumed since. */
  ghost predicate SuspendedIn(steps: seq<Step>, id: ScheduleId) {
    exists i: nat | i < |steps| ::
      && steps[i].Suspend? && steps[i].schedule == id
      && forall j | i < j < |steps| :: steps[j].Resume? ==> steps[j].schedule != id
  }

  ghost predicate NeverResumed(steps: seq<Step>, id: ScheduleId) {
    forall j | 0 <= j < |steps| :: steps[j].Resume? ==> steps[j].schedule != id
  }

  ghost predicate IsInactive(s: State, id: ScheduleId) {
    id in s.rows && !s.rows[id].active
  }

  lemma SuspendedInTail(steps: seq<Step>, id: ScheduleId)
    requires steps != []
    ensures SuspendedIn(steps, id) <==>
            || SuspendedIn(steps[1..], id)
            || (steps[0].Suspend? && steps[0].schedule == id && NeverResumed(steps[1..], id))
    ensures NeverResumed(steps, id) <==>
            (steps[0].Resume? ==> steps[0].schedule != id) && NeverResumed(steps[1..], id)
  {
    assert forall j | 0 < j < |steps| :: steps[j] == steps[1..][j - 1];
    if SuspendedIn(steps[1..], id) {
      var i: nat :| && i < |steps[1..]| && steps[1..][i].Suspend? && steps[1..][i].schedule == id
                    && forall j | i < j < |steps[1..]| :: steps[1..][j].Resume? ==> steps[1..][j].schedule != id;
      assert steps[i + 1] == steps[1..][i];
    }
  }

  lemma InactiveStep(s: State, step: Step, id: ScheduleId)
    requires Enabled(s, step)
    ensures IsInactive(Next(s, step), id) <==>
            || (step.Suspend? && step.schedule == id)
            || (IsInactive(s, id) && (step.Resume? ==> step.schedule != id))
  {
  }

  lemma {:induction false} InactiveAfter(s: State, steps: seq<Step>, id: ScheduleId)
    requires Legal(s, steps)
    ensures IsInactive(Exec(s, steps), id) <==>
            SuspendedIn(steps, id) || (IsInactive(s, id) && NeverResumed(steps, id))
    decreases steps
  {
    if steps == [] {
    } else {
      InactiveStep(s, steps[0], id);
      InactiveAfter(Next(s, steps[0]), steps[1..], id);
      SuspendedInTail(steps, id);
    }
  }

  /** In every run a schedule is inactive exactly when a pause or deletion of it
      has not been followed by a resumption: no update, fire or reconciler pass
      wakes it. */
  lemma InactiveExactlyWhenSuspended(steps: seq<Step>, id: ScheduleId)
    requires Legal(INIT, steps) && id in Exec(INIT, steps).rows
    ensures !Exec(INIT, steps).rows[id].active <==> SuspendedIn(steps, id)
  {
    InactiveAfter(INIT, steps, id);
  }

  /** A worker has read the schedule of `f` and computed its next time, and has
      the commit of `f` before it. */
  ghost predicate InHand(s: State, f: Fire) {
    exists w :: HasFireInHand(s, w, f)
  }

  ghost predicate HasFireInHand(s: State, w: WorkerId, f: Fire) {
    && w in s.workers && s.workers[w].stage.Computed? && s.workers[w].stage.todo != []
    && FireOf(s.workers[w].stage) == f
  }

  /** Every fire of `id` in `log` from position `n` on was in hand in `was`. */
  ghost predicate OnlyInHand(was: State, log: seq<Fire>, n: nat, id: ScheduleId) {
    forall i | n <= i < |log| && log[i].schedule == id :: InHand(was, log[i])
  }

  lemma InHandStep(s: State, step: Step, w: WorkerId, f: Fire)
    requires Enabled(s, step) && IsInactive(s, f.schedule) && HasFireInHand(Next(s, step), w, f)
    ensures HasFireInHand(s, w, f)
  {
    SameWork(s, step, w);
  }

  lemma SuspendedStep(s: State, step: Step, id: ScheduleId)
    requires Enabled(s, step) && IsInactive(s, id)
    ensures !(step.Compute? && s.workers[step.w].stage.todo[0].schedule == id)
    ensures forall f: Fire :: f.schedule == id && InHand(Next(s, step), f) ==> InHand(s, f)
    ensures OnlyInHand(s, Next(s, step).log, |s.log|, id)
    ensures |s.log| <= |Next(s, step).log| && Next(s, step).log[..|s.log|] == s.log
  {
    forall f: Fire | f.schedule == id && InHand(Next(s, step), f)
      ensures InHand(s, f)
    {
      var w :| HasFireInHand(Next(s, step), w, f);
      InHandStep(s, step, w, f);
    }
    if step.Commit? {
      assert HasFireInHand(s, step.w, FireOf(s.workers[step.w].stage));
    }
  }

  lemma {:induction false} FiresOnlyWhatIsInHand(was: State, s: State, steps: seq<Step>, id: ScheduleId)
    requires Legal(s, steps) && IsInactive(s, id) && NeverResumed(steps, id)
    requires forall f: Fire :: f.schedule == id && InHand(s, f) ==> InHand(was, f)
    ensures IsInactive(Exec(s, steps), id)
    ensures |s.log| <= |Exec(s, steps).log| && Exec(s, steps).log[..|s.log|] == s.log
    ensures OnlyInHand(was, Exec(s, steps).log, |s.log|, id)
    decreases steps
  {
    if steps == [] {
    } else {
      var s1 := Next(s, steps[0]);
      SuspendedStep(s, steps[0], id);
      InactiveStep(s, steps[0], id);
      SuspendedInTail(steps, id);
      FiresOnlyWhatIsInHand(was, s1, steps[1..], id);
      var log := Exec(s, steps).log;
      forall i | |s.log| <= i < |log| && log[i].schedule == id
        ensures InHand(was, log[i])
      {
        if i < |s1.log| {
          assert log[..|s1.log|][i] == s1.log[i];
        }
      }
      assert log[..|s.log|] == log[..|s1.log|][..|s.log|];
    }
  }

  /** After `Suspend(call, id)` and until a resumption, no worker computes a fire
      of `id` in any continuation, and the only fires of `id` that are still
      committed are those a worker had computed before the suspension. */
  lemma SuspendedFiresNoMore(s: State, call: nat, id: ScheduleId, steps: seq<Step>)
    requires Enabled(s, Suspend(call, id)) && Legal(Next(s, Suspend(call, id)), steps) && NeverResumed(steps, id)
    ensures var end := Exec(Next(s, Suspend(call, id)), steps);
            && (forall w, next :: HasTodo(end, w) && Enabled(end, Compute(w, next))
                                  ==> end.workers[w].stage.todo[0].schedule != id)
            && |s.log| <= |end.log| && end.log[..|s.log|] == s.log
            && (forall i | |s.log| <= i < |end.log| && end.log[i].schedule == id :: InHand(s, end.log[i]))
  {
    var s1 := Next(s, Suspend(call, id));
    forall f: Fire | InHand(s1, f)
      ensures InHand(s, f)
    {
      var w :| HasFireInHand(s1, w, f);
      assert HasFireInHand(s, w, f);
    }
    FiresOnlyWhatIsInHand(s, s1, steps, id);
  }

  // --- A spoiling step can always lead to a fire that is not justified ---

  /** The pending score of `id` has been used up by a fire, and nothing is on its
      way to replace it. */
  ghost predicate Stale(s: State, id: ScheduleId) {
    id in s.pending && Overtaken(s, Item(id, s.pending[id]))
  }

  /** The little a state must satisfy for such a score to be fired again. */
  ghost predicate Plain(s: State) {
    && (forall id | id in s.pending :: id in s.rows)
    && (forall i | 0 <= i < |s.log| :: s.log[i].at <= s.now)
    && (forall w | HasCommitted(s, w) :: s.workers[w].stage.fired in s.rows)
  }

  lemma SpoiledIsStale(s: State, step: Step) returns (id: ScheduleId)
    requires Inv(s) && Enabled(s, step) && Spoils(s, step)
    ensures Plain(Next(s, step)) && Stale(Next(s, step), id)
  {
    SpoiledIsPlain(s, step);
    if step.AddScore? || step.AddScoreNX? {
      id := s.calls[step.call].item.schedule;
      assert forall w :: InFlight(Next(s, step), w, id) ==> InFlight(s, w, id);
    } else {
      id := s.workers[step.w].stage.fired;
      OneFlight(s, step.w, id);
    }
  }

  lemma InvIsPlain(s: State)
    requires Inv(s)
    ensures Plain(s)
  {
    forall w | HasCommitted(s, w)
      ensures s.workers[w].stage.fired in s.rows
    {
      assert StageOk(s, s.workers[w].shard, s.workers[w].stage);
    }
    assert forall id | id in s.pending :: PendingOk(s, id);
  }

  lemma ScoringIsPlain(s: State, step: Step)
    requires Plain(s) && (step.AddScore? || step.AddScoreNX?) && Enabled(s, step)
    requires s.calls[step.call].item.schedule in s.rows
    ensures Plain(Next(s, step))
  {
    assert forall w | HasCommitted(Next(s, step), w) :: HasCommitted(s, w);
  }

  lemma LosingIsPlain(s: State, step: Step)
    requires Plain(s) && (step.Die? || step.RescoreFails?) && Enabled(s, step)
    ensures Plain(Next(s, step))
  {
    var s' := Next(s, step);
    forall w | HasCommitted(s', w)
      ensures s'.workers[w].stage.fired in s'.rows
    {
      assert HasCommitted(s, w) && s'.workers[w] == s.workers[w];
    }
  }

  lemma SpoiledIsPlain(s: State, step: Step)
    requires Inv(s) && Enabled(s, step) && Spoils(s, step)
    ensures Plain(Next(s, step))
  {
    InvIsPlain(s);
    if step.Die? || step.RescoreFails? {
      LosingIsPlain(s, step);
    } else {
      assert CallOk(s, s.calls[step.call]);
      ScoringIsPlain(s, step);
    }
  }

  lemma OneFlight(s: State, w: WorkerId, id: ScheduleId)
    requires Inv(s) && InFlight(s, w, id)
    ensures forall v | InFlight(s, v, id) :: v == w
  {
    forall v | InFlight(s, v, id)
      ensures v == w
    {
      assert StageOk(s, s.workers[v].shard, s.workers[v].stage) && StageOk(s, s.workers[w].shard, s.workers[w].stage);
    }
  }

  lemma Prepend(s: State, step: Step, rest: seq<Step>)
    requires Enabled(s, step) && Legal(Next(s, step), rest)
    ensures Legal(s, [step] + rest) && Exec(s, [step] + rest) == Exec(Next(s, step), rest)
    ensures !Spoils(s, step) && Clean(Next(s, step), rest) ==> Clean(s, [step] + rest)
  {
    assert ([step] + rest)[1..] == rest;
  }

  /** What the preparations below leave alone. */
  ghost predicate SameFor(s: State, s': State, id: ScheduleId) {
    && s'.log == s.log && s'.now == s.now && s'.calls == s.calls
    && id in s.pending && id in s'.pending && s'.pending[id] == s.pending[id]
    && id in s.rows && id in s'.rows && s'.rows[id].shard == s.rows[id].shard
    && Plain(s') && Stale(s', id)
  }

  /** From any state with a stale score a double fire follows, with no further fault.
      First every worker re-scores what it has in flight and stops. */
  lemma {:induction false} StaleScoreCanFireAgain(s: State, id: ScheduleId) returns (steps: seq<Step>)
    requires Plain(s) && Stale(s, id)
    ensures Legal(s, steps) && Clean(s, steps) && !Justified(Exec(s, steps).log)
    decreases |s.workers|
  {
    if s.workers == map[] {
      var call := Unused(s.calls.Keys);
      steps := OthersPause(s, id, call);
    } else {
      var w :| w in s.workers;
      steps := WorkerStops(s, id, w);
    }
  }

  lemma {:induction false} WorkerStops(s: State, id: ScheduleId, w: WorkerId) returns (steps: seq<Step>)
    requires Plain(s) && Stale(s, id) && w in s.workers
    ensures Legal(s, steps) && Clean(s, steps) && !Justified(Exec(s, steps).log)
    decreases |s.workers|, if HasCommitted(s, w) then 2 else 1
  {
    if HasCommitted(s, w) {
      RescoreIsHarmless(s, id, w);
      var rest := WorkerStops(Next(s, Rescore(w)), id, w);
      Prepend(s, Rescore(w), rest);
      steps := [Rescore(w)] + rest;
    } else {
      DeathIsHarmless(s, id, w);
      var rest := StaleScoreCanFireAgain(Next(s, Die(w)), id);
      Prepend(s, Die(w), rest);
      steps := [Die(w)] + rest;
    }
  }

  lemma RescoreIsHarmless(s: State, id: ScheduleId, w: WorkerId)
    requires Plain(s) && Stale(s, id) && HasCommitted(s, w)
    ensures var s' := Next(s, Rescore(w));
            SameFor(s, s', id) && w in s'.workers && |s'.workers| == |s.workers| && !HasCommitted(s', w)
  {
    var s' := Next(s, Rescore(w));
    assert !InFlight(s, w, id);
    assert forall v :: InFlight(s', v, id) ==> InFlight(s, v, id);
    assert forall v | HasCommitted(s', v) :: HasCommitted(s, v) && s'.workers[v] == s.workers[v];
    assert s'.workers.Keys == s.workers.Keys;
    assert |s'.workers.Keys| == |s'.workers| && |s.workers.Keys| == |s.workers|;
  }

  lemma DeathIsHarmless(s: State, id: ScheduleId, w: WorkerId)
    requires Plain(s) && Stale(s, id) && w in s.workers && !HasCommitted(s, w)
    ensures var s' := Next(s, Die(w)); SameFor(s, s', id) && |s'.workers| < |s.workers| && !Spoils(s, Die(w))
  {
    var s' := Next(s, Die(w));
    assert forall v :: InFlight(s', v, id) ==> InFlight(s, v, id);
    assert forall v | HasCommitted(s', v) :: HasCommitted(s, v);
    assert s'.workers.Keys < s.workers.Keys;
    assert |s'.workers.Keys| == |s'.workers| && |s.workers.Keys| == |s.workers|;
    ProperSubset(s'.workers.Keys, s.workers.Keys);
  }

  lemma ProperSubset(a: set<WorkerId>, b: set<WorkerId>)
    requires a < b
    ensures |a| < |b|
  {
    assert b == a + (b - a);
  }

  /** Then every other schedule is paused. */
  lemma {:induction false} OthersPause(s: State, id: ScheduleId, call: nat) returns (steps: seq<Step>)
    requires Plain(s) && Stale(s, id) && s.workers == map[] && call !in s.calls
    ensures Legal(s, steps) && Clean(s, steps) && !Justified(Exec(s, steps).log)
    decreases |s.pending|
  {
    if other :| other in s.pending && other != id {
      PauseSteps(s, call, other);
      PauseIsHarmless(s, id, call, other);
      var s1 := Next(s, Suspend(call, other));
      var rest := OthersPause(Paused(s, other), id, call);
      Prepend(s1, DropScore(call), rest);
      Prepend(s, Suspend(call, other), [DropScore(call)] + rest);
      steps := [Suspend(call, other)] + ([DropScore(call)] + rest);
    } else {
      steps := StaleScoreFires(s, id, call);
    }
  }

  function Paused(s: State, other: ScheduleId): State
    requires other in s.rows
  {
    s.(rows := s.rows[other := s.rows[other].(active := false)], pending := s.pending - {other})
  }

  lemma PauseSteps(s: State, call: nat, other: ScheduleId)
    requires other in s.rows && call !in s.calls
    ensures Enabled(s, Suspend(call, other))
    ensures var s1 := Next(s, Suspend(call, other));
            Enabled(s1, DropScore(call)) && Next(s1, DropScore(call)) == Paused(s, other)
  {
    var s2 := Next(Next(s, Suspend(call, other)), DropScore(call));
    assert s2.calls == s.calls;
  }

  lemma PauseIsHarmless(s: State, id: ScheduleId, call: nat, other: ScheduleId)
    requires Plain(s) && Stale(s, id) && call !in s.calls && other in s.pending && other != id
    ensures SameFor(s, Paused(s, other), id) && |Paused(s, other).pending| < |s.pending|
  {
    var s2 := Paused(s, other);
    assert forall w :: InFlight(s2, w, id) <==> InFlight(s, w, id);
    assert forall w | HasCommitted(s2, w) :: HasCommitted(s, w);
    assert s.pending.Keys == s2.pending.Keys + {other};
    assert |s2.pending.Keys| == |s2.pending| && |s.pending.Keys| == |s.pending|;
  }

  const LATE := WorkerId("", 0)

  /** And when its shard's lock has expired, a worker polls the stale score, and the
      schedule (resumed, in case it was paused) fires on it. */
  lemma StaleScoreFires(s: State, id: ScheduleId, call: nat) returns (steps: seq<Step>)
    requires Plain(s) && Stale(s, id) && s.workers == map[] && s.pending.Keys == {id} && call !in s.calls
    ensures Legal(s, steps) && Clean(s, steps) && !Justified(Exec(s, steps).log)
  {
    var n, shard := s.pending[id], s.rows[id].shard;
    var t := if LockFree(s.locks, shard, s.now) then s.now else s.locks[shard].expiresAt;
    var s1 := Next(s, Tick(t));
    var s2 := Next(s1, Acquire(LATE, shard));
    PollFindsIt(s, s2, id);
    var s3 := Next(s2, Poll(LATE, [Item(id, n)]));
    steps := PolledFires(s3, id, n, call);
    Prepend(s2, Poll(LATE, [Item(id, n)]), steps);
    steps := [Poll(LATE, [Item(id, n)])] + steps;
    Prepend(s1, Acquire(LATE, shard), steps);
    steps := [Acquire(LATE, shard)] + steps;
    Prepend(s, Tick(t), steps);
    steps := [Tick(t)] + steps;
  }

  lemma PolledFires(s: State, id: ScheduleId, n: int, call: nat) returns (steps: seq<Step>)
    requires LATE in s.workers && s.workers[LATE].stage == Firing([Item(id, n)])
    requires id in s.rows && call !in s.calls && !Beyond(s.log, id, n)
    ensures Legal(s, steps) && Clean(s, steps) && !Justified(Exec(s, steps).log)
  {
    var s1 := Next(s, Resume(call, id));
    var s2 := Next(s1, Compute(LATE, s.now + 1));
    NotJustified(s.log, Fire(id, s.now, n));
    assert Next(s2, Commit(LATE)).log == s.log + [Fire(id, s.now, n)];
    steps := [];
    Prepend(s2, Commit(LATE), steps);
    steps := [Commit(LATE)] + steps;
    Prepend(s1, Compute(LATE, s.now + 1), steps);
    steps := [Compute(LATE, s.now + 1)] + steps;
    Prepend(s, Resume(call, id), steps);
    steps := [Resume(call, id)] + steps;
  }

  lemma PollFindsIt(s: State, s2: State, id: ScheduleId)
    requires Plain(s) && Stale(s, id) && s.pending.Keys == {id}
    requires s2.pending == s.pending && s2.rows == s.rows && s.now <= s2.now
    requires s2.workers == map[LATE := Work(s.rows[id].shard, s2.now, Locked)]
    ensures Enabled(s2, Poll(LATE, [Item(id, s.pending[id])]))
  {
    var items := [Item(id, s.pending[id])];
    var i :| 0 <= i < |s.log| && s.log[i].schedule == id && s.log[i].at >= s.pending[id];
    assert s.pending[id] <= s2.now;
    forall x | IsDue(s2, s.rows[id].shard, x)
      ensures x in items
    {
      assert x.schedule in s.pending.Keys;
    }
  }

  lemma NotJustified(log: seq<Fire>, f: Fire)
    requires !Beyond(log, f.schedule, f.due)
    ensures !Justified(log + [f])
  {
    var i :| 0 <= i < |log| && log[i].schedule == f.schedule && log[i].at >= f.due;
    assert (log + [f])[i] == log[i] && (log + [f])[|log|] == f;
  }

  ghost predicate AlwaysJustified(s: State) {
    forall more | Legal(s, more) && Clean(s, more) :: Justified(Exec(s, more).log)
  }

  lemma InvIsSafe(s: State)
    requires Inv(s)
    ensures AlwaysJustified(s)
  {
    forall more | Legal(s, more) && Clean(s, more)
      ensures Justified(Exec(s, more).log)
    {
      RunKeepsInv(s, more);
    }
  }

  lemma StaleIsUnsafe(s: State, id: ScheduleId)
    requires Plain(s) && Stale(s, id)
    ensures !AlwaysJustified(s)
  {
    var more := StaleScoreCanFireAgain(s, id);
    assert Legal(s, more) && Clean(s, more);
  }

  /** The exact condition, step by step: after any clean run a step is safe, in
      that no clean continuation has an unjustified fire, exactly when it does not
      spoil. In particular an API call's ZADD is safe exactly when no fire of the
      schedule was computed at or after the time it is about to write, or the
      re-score of such a fire is still to come. */
  lemma SafeExactlyWhenNotSpoiling(steps: seq<Step>, step: Step)
    requires Legal(INIT, steps) && Clean(INIT, steps) && Enabled(Exec(INIT, steps), step)
    ensures AlwaysJustified(Next(Exec(INIT, steps), step)) <==> !Spoils(Exec(INIT, steps), step)
  {
    var s := Exec(INIT, steps);
    RunKeepsInv(INIT, steps);
    if Spoils(s, step) {
      var id := SpoiledIsStale(s, step);
      StaleIsUnsafe(Next(s, step), id);
    } else {
      StepKeepsInv(s, step);
      InvIsSafe(Next(s, step));
    }
  }

  // --- Runs in which it happens: a slow API call, and a slow reconciler ---

  ghost predicate Goes(s: State, step: Step, s': State) {
    Enabled(s, step) && !Spoils(s, step) && Next(s, step) == s'
  }

  ghost predicate Reaches(s: State, steps: seq<Step>, s': State) {
    Legal(s, steps) && Clean(s, steps) && Exec(s, steps) == s'
  }

  lemma First(s: State, step: Step, mid: State, rest: seq<Step>, s': State)
    requires Goes(s, step, mid) && Reaches(mid, rest, s')
    ensures Reaches(s, [step] + rest, s')
  {
    Prepend(s, step, rest);
  }

  /** One schedule on shard "0", due at 10, and then (after a fire) at 20. */
  function Waiting(id: ScheduleId, now: int, calls: map<nat, Call>): State {
    State(now, map[id := Row("0", true, 10)], map[id := 10], map[], map[], calls, [], {Item(id, 10)})
  }

  /** ... in the hands of a worker, which has come to `stage`. */
  function Held(id: ScheduleId, calls: map<nat, Call>, stage: Stage): State {
    Waiting(id, 10, calls).(locks := map["0" := Lock("", 10 + LOCK_TTL)], workers := map[LATE := Work("0", 10, stage)])
  }

  function Fired(id: ScheduleId, calls: map<nat, Call>, score: int): State {
    State(10, map[id := Row("0", true, 20)], map[id := score], map["0" := Lock("", 10 + LOCK_TTL)],
          map[LATE := Work("0", 10, if score == 20 then Firing([]) else Committed(id, 20, []))], calls,
          [Fire(id, 10, 10)], {Item(id, 10), Item(id, 20)})
  }

  function FiredOnce(id: ScheduleId, calls: map<nat, Call>): State {
    Fired(id, calls, 20).(locks := map[], workers := map[])
  }

  function Creating(id: ScheduleId): State {
    INIT.(calls := map[0 := Ready(Item(id, 10))], issued := {Item(id, 10)})
  }

  function CreatedRow(id: ScheduleId): State {
    Creating(id).(rows := map[id := Row("0", true, 10)], calls := map[0 := Scoring(Item(id, 10))])
  }

  lemma CreateGoes(id: ScheduleId)
    ensures Goes(INIT, ComputeNext(0, id, 10), Creating(id))
    ensures Goes(Creating(id), CreateRow(0, "0"), CreatedRow(id))
  {
  }

  lemma FirstScoreGoes(id: ScheduleId)
    ensures Goes(CreatedRow(id), AddScore(0), Waiting(id, 0, map[]))
    ensures Goes(Waiting(id, 0, map[]), Tick(9), Waiting(id, 9, map[]))
  {
    assert Next(CreatedRow(id), AddScore(0)).calls == map[];
  }

  lemma CreatedInTime(id: ScheduleId, rest: seq<Step>, s': State) returns (steps: seq<Step>)
    requires Reaches(Waiting(id, 9, map[]), rest, s')
    ensures Reaches(INIT, steps, s')
  {
    CreateGoes(id);
    FirstScoreGoes(id);
    First(Waiting(id, 0, map[]), Tick(9), Waiting(id, 9, map[]), rest, s');
    steps := [Tick(9)] + rest;
    First(CreatedRow(id), AddScore(0), Waiting(id, 0, map[]), steps, s');
    steps := [AddScore(0)] + steps;
    First(Creating(id), CreateRow(0, "0"), CreatedRow(id), steps, s');
    steps := [CreateRow(0, "0")] + steps;
    First(INIT, ComputeNext(0, id, 10), Creating(id), steps, s');
    steps := [ComputeNext(0, id, 10)] + steps;
  }

  lemma LockGoes(id: ScheduleId, calls: map<nat, Call>)
    ensures Goes(Waiting(id, 9, calls), Tick(10), Waiting(id, 10, calls))
    ensures Goes(Waiting(id, 10, calls), Acquire(LATE, "0"), Held(id, calls, Locked))
  {
  }

  lemma PollGoes(id: ScheduleId, calls: map<nat, Call>)
    ensures Goes(Held(id, calls, Locked), Poll(LATE, [Item(id, 10)]), Held(id, calls, Firing([Item(id, 10)])))
  {
    var items := [Item(id, 10)];
    assert forall x | IsDue(Held(id, calls, Locked), "0", x) :: x == items[0];
  }

  lemma ComputeGoes(id: ScheduleId, calls: map<nat, Call>)
    ensures var todo := [Item(id, 10)];
            Goes(Held(id, calls, Firing(todo)), Compute(LATE, 20), Held(id, calls, Computed(todo, 10, 20)))
  {
  }

  lemma CommitGoes(id: ScheduleId, calls: map<nat, Call>)
    ensures Goes(Held(id, calls, Computed([Item(id, 10)], 10, 20)), Commit(LATE), Fired(id, calls, 10))
  {
    assert [Item(id, 10)][1..] == [];
  }

  lemma RescoreGoes(id: ScheduleId, calls: map<nat, Call>)
    ensures Goes(Fired(id, calls, 10), Rescore(LATE), Fired(id, calls, 20))
  {
  }

  lemma ReleaseGoes(id: ScheduleId, calls: map<nat, Call>)
    ensures Goes(Fired(id, calls, 20), Release(LATE), FiredOnce(id, calls))
  {
    assert Next(Fired(id, calls, 20), Release(LATE)).locks == map[];
    assert Next(Fired(id, calls, 20), Release(LATE)).workers == map[];
  }

  lemma CommitsAtTen(id: ScheduleId, calls: map<nat, Call>, rest: seq<Step>, s': State) returns (steps: seq<Step>)
    requires Reaches(Fired(id, calls, 10), rest, s')
    ensures Reaches(Waiting(id, 9, calls), steps, s')
  {
    var todo := [Item(id, 10)];
    LockGoes(id, calls);
    PollGoes(id, calls);
    ComputeGoes(id, calls);
    CommitGoes(id, calls);
    First(Held(id, calls, Computed(todo, 10, 20)), Commit(LATE), Fired(id, calls, 10), rest, s');
    steps := [Commit(LATE)] + rest;
    First(Held(id, calls, Firing(todo)), Compute(LATE, 20), Held(id, calls, Computed(todo, 10, 20)), steps, s');
    steps := [Compute(LATE, 20)] + steps;
    First(Held(id, calls, Locked), Poll(LATE, todo), Held(id, calls, Firing(todo)), steps, s');
    steps := [Poll(LATE, todo)] + steps;
    First(Waiting(id, 10, calls), Acquire(LATE, "0"), Held(id, calls, Locked), steps, s');
    steps := [Acquire(LATE, "0")] + steps;
    First(Waiting(id, 9, calls), Tick(10), Waiting(id, 10, calls), steps, s');
    steps := [Tick(10)] + steps;
  }

  lemma FiresAtTen(id: ScheduleId, calls: map<nat, Call>, rest: seq<Step>, s': State) returns (steps: seq<Step>)
    requires Reaches(FiredOnce(id, calls), rest, s')
    ensures Reaches(Waiting(id, 9, calls), steps, s')
  {
    RescoreGoes(id, calls);
    ReleaseGoes(id, calls);
    First(Fired(id, calls, 20), Release(LATE), FiredOnce(id, calls), rest, s');
    steps := [Release(LATE)] + rest;
    First(Fired(id, calls, 10), Rescore(LATE), Fired(id, calls, 20), steps, s');
    steps := CommitsAtTen(id, calls, [Rescore(LATE)] + steps, s');
  }

  /** `before`, then `step`, then `after` is a run with an unjustified fire, and
      `step` is the only step of it that spoils. */
  ghost predicate FiresTwiceBy(before: seq<Step>, step: Step, after: seq<Step>) {
    && Legal(INIT, before) && Clean(INIT, before)
    && Enabled(Exec(INIT, before), step) && Spoils(Exec(INIT, before), step)
    && var s := Next(Exec(INIT, before), step);
    && Legal(s, after) && Clean(s, after) && !Justified(Exec(s, after).log)
  }

  lemma DoubleFire(before: seq<Step>, step: Step) returns (after: seq<Step>)
    requires Legal(INIT, before) && Clean(INIT, before)
    requires Enabled(Exec(INIT, before), step) && Spoils(Exec(INIT, before), step)
    ensures FiresTwiceBy(before, step, after)
  {
    RunKeepsInv(INIT, before);
    var id := SpoiledIsStale(Exec(INIT, before), step);
    after := StaleScoreCanFireAgain(Next(Exec(INIT, before), step), id);
  }

  lemma TenIsOvertaken(s: State, id: ScheduleId)
    requires s.log == [Fire(id, 10, 10)] && s.workers == map[]
    ensures Overtaken(s, Item(id, 10))
  {
    assert s.log[0] == Fire(id, 10, 10);
  }

  lemma UpdateGoes(id: ScheduleId)
    ensures Goes(Waiting(id, 9, map[]), ComputeNext(1, id, 10), Waiting(id, 9, map[1 := Ready(Item(id, 10))]))
  {
    assert Waiting(id, 9, map[]).issued + {Item(id, 10)} == {Item(id, 10)};
  }

  lemma LateWriteSpoils(id: ScheduleId)
    ensures var s := FiredOnce(id, map[1 := Ready(Item(id, 10))]);
            && Goes(s, WriteRow(1), Next(s, WriteRow(1)))
            && Enabled(Next(s, WriteRow(1)), AddScore(1)) && Spoils(Next(s, WriteRow(1)), AddScore(1))
  {
    var s := FiredOnce(id, map[1 := Ready(Item(id, 10))]);
    TenIsOvertaken(Next(s, WriteRow(1)), id);
  }

  /** An update computes 10 at time 9, the schedule fires at 10, and then the
      update writes its 10: the schedule can fire on it a second time. */
  lemma SlowUpdateFiresTwice(id: ScheduleId) returns (steps: seq<Step>, after: seq<Step>)
    ensures FiresTwiceBy(steps, AddScore(1), after)
  {
    var calls := map[1 := Ready(Item(id, 10))];
    UpdateGoes(id);
    LateWriteSpoils(id);
    var s := Next(FiredOnce(id, calls), WriteRow(1));
    First(FiredOnce(id, calls), WriteRow(1), s, [], s);
    steps := FiresAtTen(id, calls, [WriteRow(1)] + [], s);
    First(Waiting(id, 9, map[]), ComputeNext(1, id, 10), Waiting(id, 9, calls), steps, s);
    steps := CreatedInTime(id, [ComputeNext(1, id, 10)] + steps, s);
    after := DoubleFire(steps, AddScore(1));
  }

  lemma ReconcilerGoes(id: ScheduleId)
    ensures Goes(Waiting(id, 9, map[]), Query(1, id), Waiting(id, 9, map[1 := Adding(Item(id, 10))]))
  {
  }

  lemma PauseGoes(s: State, id: ScheduleId)
    requires id in s.rows && 2 !in s.calls
    ensures Goes(s, Suspend(2, id), Next(s, Suspend(2, id)))
    ensures Goes(Next(s, Suspend(2, id)), DropScore(2), Paused(s, id))
  {
    PauseSteps(s, 2, id);
  }

  lemma LateAddSpoils(id: ScheduleId)
    ensures var s := Paused(FiredOnce(id, map[1 := Adding(Item(id, 10))]), id);
            Enabled(s, AddScoreNX(1)) && Spoils(s, AddScoreNX(1))
  {
    TenIsOvertaken(Paused(FiredOnce(id, map[1 := Adding(Item(id, 10))]), id), id);
  }

  /** The reconciler reads a row, the schedule fires and is paused, and then the
      reconciler adds the score it read. */
  lemma SlowReconcilerFiresTwice(id: ScheduleId) returns (steps: seq<Step>, after: seq<Step>)
    ensures FiresTwiceBy(steps, AddScoreNX(1), after)
  {
    var calls := map[1 := Adding(Item(id, 10))];
    var s := FiredOnce(id, calls);
    ReconcilerGoes(id);
    PauseGoes(s, id);
    LateAddSpoils(id);
    var s1, s2 := Next(s, Suspend(2, id)), Paused(s, id);
    First(s1, DropScore(2), s2, [], s2);
    First(s, Suspend(2, id), s1, [DropScore(2)] + [], s2);
    steps := FiresAtTen(id, calls, [Suspend(2, id)] + ([DropScore(2)] + []), s2);
    First(Waiting(id, 9, map[]), Query(1, id), Waiting(id, 9, calls), steps, s2);
    steps := CreatedInTime(id, [Query(1, id)] + steps, s2);
    after := DoubleFire(steps, AddScoreNX(1));
  }

  /** A worker that dies between its commit and its re-score leaves the old score. */
  lemma LostRescoreFiresTwice(id: ScheduleId) returns (steps: seq<Step>, after: seq<Step>)
    ensures FiresTwiceBy(steps, Die(LATE), after)
  {
    steps := CommitsAtTen(id, map[], [], Fired(id, map[], 10));
    steps := CreatedInTime(id, steps, Fired(id, map[], 10));
    assert Fired(id, map[], 10).log[0] == Fire(id, 10, 10);
    after := DoubleFire(steps, Die(LATE));
  }
}
