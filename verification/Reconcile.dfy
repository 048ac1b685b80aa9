/** The reconciler (src/scheduler/reconcile.rs): one full pass at startup, then
    passes over what changed since the last one, found by `updated_at`.

    API writes stamp their row when their transaction begins and become visible
    when it commits; their own sorted-set update rides on the commit but may be
    lost. That is the drift the reconciler repairs. It looks one second back, and
    that is exactly how long a commit may take. */
module Reconcile {
  import opened Wrappers
  import opened Redis
  import opened Shards

  const LOOKBACK: int := 1000

  /** `next` is None for a row without next_run_at. */
  datatype Row = Row(active: bool, next: Option<int>, updatedAt: int)

  predicate Wanted(r: Row) {
    r.active && r.next.Some?
  }

  /** A write in a transaction that has not committed. */
  datatype Write = Write(schedule: ScheduleId, active: bool, next: Option<int>, stamp: int)

  /** A pass: when it began, what it still has to add, and (for the statement
      below) which rows changed after its query. */
  datatype Pass =
    | Idle
    | Begun(runAt: int)
    | Adding(runAt: int, todo: map<ScheduleId, int>, changed: set<ScheduleId>)

  /** `commits` is the time within which every write commits. */
  datatype State = State(
    commits: int,
    now: int,
    rows: map<ScheduleId, Row>,
    writes: map<nat, Write>,
    pending: SortedSet<ScheduleId>,
    cursor: Option<int>,
    pass: Pass)

  datatype Step =
    | Tick(to: int)
    | BeginWrite(tx: nat, schedule: ScheduleId, active: bool, next: Option<int>)
    | CommitWrite(tx: nat, redis: bool)
    | BeginPass
    | Query
    | AddOne(schedule: ScheduleId)
    | EndPass

  ghost predicate Enabled(s: State, step: Step) {
    match step
    case Tick(to) => s.now <= to && forall t | t in s.writes :: to < s.writes[t].stamp + s.commits
    case BeginWrite(tx, _, _, _) => tx !in s.writes
    case CommitWrite(tx, _) => tx in s.writes
    case BeginPass => s.pass.Idle?
    case Query => s.pass.Begun?
    case AddOne(schedule) => s.pass.Adding? && schedule in s.pass.todo
    case EndPass => s.pass.Adding? && s.pass.todo == map[]
  }

  /** The rows the query returns: all of them, or those stamped after the cursor
      less the lookback. */
  function Selected(s: State): map<ScheduleId, int> {
    map id | id in s.rows && Wanted(s.rows[id]) && (s.cursor.None? || s.cursor.value - LOOKBACK < s.rows[id].updatedAt)
      :: s.rows[id].next.value
  }

  /** zadd_pending or zrem_pending, unless Redis failed. */
  function ApiUpdate(pending: SortedSet<ScheduleId>, w: Write, redis: bool): SortedSet<ScheduleId> {
    if !w.active then (if redis then pending - {w.schedule} else pending)
    else if redis && w.next.Some? then pending[w.schedule := w.next.value]
    else pending
  }

  ghost function Next(s: State, step: Step): State
    requires Enabled(s, step)
  {
    match step
    case Tick(to) => s.(now := to)
    case BeginWrite(tx, schedule, active, next) => s.(writes := s.writes[tx := Write(schedule, active, next, s.now)])
    case CommitWrite(tx, redis) =>
      var w := s.writes[tx];
      s.(rows := s.rows[w.schedule := Row(w.active, w.next, w.stamp)],
         writes := s.writes - {tx},
         pending := ApiUpdate(s.pending, w, redis),
         pass := if s.pass.Adding? then s.pass.(changed := s.pass.changed + {w.schedule}) else s.pass)
    case BeginPass => s.(pass := Begun(s.now))
    case Query => s.(pass := Adding(s.pass.runAt, Selected(s), {}))
    case AddOne(schedule) =>
      s.(pending := ZAddNX(s.pending, schedule, s.pass.todo[schedule]),
         pass := s.pass.(todo := s.pass.todo - {schedule}))
    case EndPass => s.(cursor := Some(s.pass.runAt), pass := Idle)
  }

  ghost predicate Legal(s: State, steps: seq<Step>)
    decreases steps
  {
    steps == [] || (Enabled(s, steps[0]) && Legal(Next(s, steps[0]), steps[1..]))
  }

  ghost function Exec(s: State, steps: seq<Step>): State
    requires Legal(s, steps)
    decreases steps
  {
    if steps == [] then s else Exec(Next(s, steps[0]), steps[1..])
  }

  /** The process starts with whatever rows and whatever (possibly empty) sorted
      set it finds. */
  predicate Init(s: State) {
    s.writes == map[] && s.cursor.None? && s.pass.Idle?
  }

  ghost predicate Covered(s: State, id: ScheduleId) {
    id in s.pending
  }

  ghost predicate Inv(s: State) {
    && s.commits <= LOOKBACK
    && (forall t | t in s.writes :: s.writes[t].stamp <= s.now <= s.writes[t].stamp + LOOKBACK - 1)
    && (s.pass.Begun? ==> s.pass.runAt <= s.now)
    && (s.cursor.Some? ==> s.cursor.value <= s.now)
    && (s.cursor.Some? ==> forall id | id in s.rows && Wanted(s.rows[id]) ::
          Covered(s, id) || s.cursor.value - LOOKBACK < s.rows[id].updatedAt)
    && (s.pass.Adding? ==>
          && s.pass.runAt <= s.now
          && (forall id | id in s.rows && Wanted(s.rows[id]) ::
                Covered(s, id) || id in s.pass.todo || id in s.pass.changed)
          && (forall id | id in s.pass.changed && id in s.rows :: s.pass.runAt - LOOKBACK < s.rows[id].updatedAt))
  }

  lemma StepKeepsInv(s: State, step: Step)
    requires Inv(s) && Enabled(s, step)
    ensures Inv(Next(s, step))
  {
  }

  lemma {:induction false} RunKeepsInv(s: State, steps: seq<Step>)
    requires Inv(s) && Legal(s, steps)
    ensures Inv(Exec(s, steps))
    decreases steps
  {
    if steps == [] {
    } else {
      StepKeepsInv(s, steps[0]);
      RunKeepsInv(Next(s, steps[0]), steps[1..]);
    }
  }

  /** A pass is about to end, and an active schedule with a next run, which its
      query could see and which has not changed since, is not in the sorted set. */
  ghost predicate Misses(start: State, steps: seq<Step>, id: ScheduleId) {
    && Init(start) && Legal(start, steps) && Enabled(Exec(start, steps), EndPass)
    && var s := Exec(start, steps);
    && id in s.rows && Wanted(s.rows[id]) && id !in s.pass.changed && id !in s.pending
  }

  /** When commits take less than a second, no pass, full or delta, misses any,
      however many of the API's own updates were lost. */
  lemma PassCoversAll(start: State, steps: seq<Step>, id: ScheduleId)
    requires start.commits <= 1000
    ensures !Misses(start, steps, id)
  {
    if Init(start) && Legal(start, steps) && Enabled(Exec(start, steps), EndPass) {
      RunKeepsInv(start, steps);
    }
  }

  /** A pass never changes a score that is there: only an API write to that very
      schedule does. */
  lemma {:induction false} PassKeepsScores(s: State, steps: seq<Step>, id: ScheduleId)
    requires Legal(s, steps) && id in s.pending
    requires forall i | 0 <= i < |steps| :: !steps[i].CommitWrite?
    ensures id in Exec(s, steps).pending && Exec(s, steps).pending[id] == s.pending[id]
    decreases steps
  {
    if steps == [] {
    } else {
      PassKeepsScores(Next(s, steps[0]), steps[1..], id);
    }
  }

  /** What a pass holds in its hands, and what it has added since `was`, are next
      runs of active rows. */
  ghost predicate AddsActive(was: SortedSet<ScheduleId>, s: State) {
    && (s.pass.Adding? ==> forall id | id in s.pass.todo :: HasNext(s, id, s.pass.todo[id]))
    && (forall id | id in s.pending && id !in was :: HasNext(s, id, s.pending[id]))
  }

  predicate HasNext(s: State, id: ScheduleId, next: int) {
    id in s.rows && s.rows[id].active && s.rows[id].next == Some(next)
  }

  /** While no row changes, all that passes add to the sorted set are schedules
      that are active, each with its own next run. */
  lemma {:induction false} PassAddsOnlyActive(was: SortedSet<ScheduleId>, s: State, steps: seq<Step>)
    requires Legal(s, steps) && AddsActive(was, s)
    requires forall i | 0 <= i < |steps| :: !steps[i].CommitWrite?
    ensures AddsActive(was, Exec(s, steps)) && Exec(s, steps).rows == s.rows
    decreases steps
  {
    if steps == [] {
    } else {
      PassAddsOnlyActive(was, Next(s, steps[0]), steps[1..]);
    }
  }

  /** Every active schedule with a next run is pending at that time. */
  ghost predicate NoDrift(s: State) {
    forall id | id in s.rows && s.rows[id].active && s.rows[id].next.Some? ::
      id in s.pending && s.pending[id] == s.rows[id].next.value
  }

  /** No schedule that is switched off is pending. */
  ghost predicate NoLeftover(s: State) {
    forall id | id in s.rows && !s.rows[id].active :: id !in s.pending
  }

  /** Drift is only ever a lost update: while every commit gets through to the
      sorted set, an active schedule is pending at its next run, passes or no
      passes, and without a pass none is left that is switched off. */
  lemma {:induction false} NoLossNoDrift(s: State, steps: seq<Step>)
    requires Legal(s, steps) && forall i | 0 <= i < |steps| && steps[i].CommitWrite? :: steps[i].redis
    ensures NoDrift(s) ==> NoDrift(Exec(s, steps))
    ensures NoLeftover(s) && (forall i | 0 <= i < |steps| :: !steps[i].AddOne?) ==> NoLeftover(Exec(s, steps))
    decreases steps
  {
    if steps == [] {
    } else {
      NoLossNoDrift(Next(s, steps[0]), steps[1..]);
    }
  }

  // --- A slower commit is missed ---

  lemma {:induction false} AppendStep(s: State, steps: seq<Step>, step: Step)
    requires Legal(s, steps) && Enabled(Exec(s, steps), step)
    ensures Legal(s, steps + [step]) && Exec(s, steps + [step]) == Next(Exec(s, steps), step)
    decreases steps
  {
    if steps == [] {
      assert [step][1..] == [];
    } else {
      AppendStep(Next(s, steps[0]), steps[1..], step);
      assert (steps + [step])[1..] == steps[1..] + [step];
    }
  }

  lemma Extend(start: State, steps: seq<Step>, step: Step, s': State) returns (more: seq<Step>)
    requires Legal(start, steps) && Enabled(Exec(start, steps), step) && Next(Exec(start, steps), step) == s'
    ensures Legal(start, more) && Exec(start, more) == s'
  {
    AppendStep(start, steps, step);
    more := steps + [step];
  }

  function Empty(commits: int): State {
    State(commits, 0, map[], map[], map[], None, Idle)
  }

  /** A write stamped at 0 is still open at 1000. */
  function Open(commits: int, id: ScheduleId): State {
    State(commits, 1000, map[], map[0 := Write(id, true, Some(5000), 0)], map[], None, Idle)
  }

  /** A whole pass runs at 1000 while the write is open. */
  lemma PassDuringWrite(commits: int, id: ScheduleId) returns (steps: seq<Step>)
    requires commits > 1000
    ensures Legal(Empty(commits), steps)
    ensures Exec(Empty(commits), steps) == Open(commits, id).(cursor := Some(1000))
  {
    var s := Open(commits, id);
    steps := Extend(Empty(commits), [], BeginWrite(0, id, true, Some(5000)), s.(now := 0));
    steps := Extend(Empty(commits), steps, Tick(1000), s);
    steps := Extend(Empty(commits), steps, BeginPass, s.(pass := Begun(1000)));
    assert Selected(s.(pass := Begun(1000))) == map[];
    steps := Extend(Empty(commits), steps, Query, s.(pass := Adding(1000, map[], {})));
    steps := Extend(Empty(commits), steps, EndPass, s.(cursor := Some(1000)));
  }

  /** The commit loses its sorted-set update, and the next pass does not look far
      enough back. */
  lemma SlowCommitIsMissed(commits: int, id: ScheduleId) returns (steps: seq<Step>)
    requires commits > 1000
    ensures Misses(Empty(commits), steps, id)
  {
    steps := PassDuringWrite(commits, id);
    var s := State(commits, 1000, map[id := Row(true, Some(5000), 0)], map[], map[], Some(1000), Idle);
    assert Next(Exec(Empty(commits), steps), CommitWrite(0, false)).writes == map[];
    steps := Extend(Empty(commits), steps, CommitWrite(0, false), s);
    steps := Extend(Empty(commits), steps, BeginPass, s.(pass := Begun(1000)));
    assert Selected(s.(pass := Begun(1000))) == map[];
    steps := Extend(Empty(commits), steps, Query, s.(pass := Adding(1000, map[], {})));
  }

  /** So the one-second lookback is exactly enough: no run with commits within a
      given time misses a schedule, if and only if that time is at most a second. */
  lemma LookbackIsExact(commits: int)
    ensures (exists start: State, steps, id :: start.commits == commits && Misses(start, steps, id)) <==> commits > 1000
  {
    if start: State, steps, id :| start.commits == commits && Misses(start, steps, id) {
      if commits <= 1000 {
        PassCoversAll(start, steps, id);
      }
    }
    if commits > 1000 {
      var steps := SlowCommitIsMissed(commits, "");
      assert Misses(Empty(commits), steps, "");
    }
  }
}
