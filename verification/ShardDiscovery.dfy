/** The scheduler's discovery set, sched:shards (src/scheduler/shard.rs,
    src/features/schedules/service.rs). An API call puts a schedule into its
    shard's pending set and then bumps the shard's score; a worker that finds
    nothing due removes the shard, but only if the score it read before looking
    is still there. The score is a version number.

    The per-shard lock is not needed for what is proved here, so any number of
    workers may be at work on one shard at once. */
module ShardDiscovery {
  import opened Wrappers
  import opened Redis
  import opened Shards

  datatype Slot = Slot(shard: Shard, schedule: ScheduleId)

  datatype Event =
    | Pend(slot: Slot, due: int)            // ZADD sched:pending
    | Unpend(slot: Slot)                    // ZREM sched:pending
    | Bump(slot: Slot, at: int, pend: nat)  // ZADD GT sched:shards, after log[pend]
    | Removed(shard: Shard)                 // ZREM sched:shards, by the script

  /** An API call between its two ZADDs. */
  datatype Call = Call(slot: Slot, pend: nat)

  /** A worker that has read the score, or has also found nothing due. Positions
      in the log stand for instants. */
  datatype Worker =
    | Scored(shard: Shard, score: int, readAt: nat)
    | FoundNone(shard: Shard, score: int, readAt: nat, polledAt: nat, now: int)

  datatype State = State(
    shards: SortedSet<Shard>,
    pending: map<Slot, int>,
    calls: map<nat, Call>,
    workers: map<nat, Worker>,
    lastBump: map<Shard, int>,
    log: seq<Event>)

  const INIT := State(map[], map[], map[], map[], map[], [])

  datatype Step =
    | AddPending(call: nat, slot: Slot, due: int)    // by an API call
    | AddPendingNX(call: nat, slot: Slot, due: int)  // by the reconciler
    | BumpShard(call: nat, at: int)
    | RemovePending(slot: Slot)
    | Rescore(slot: Slot, due: int)
    | ReadScore(worker: nat, shard: Shard)
    | PollNone(worker: nat, now: int)
    | PollSome(worker: nat)
    | RemoveIfScoreMatches(worker: nat)

  ghost predicate NoneDue(pending: map<Slot, int>, shard: Shard, now: int) {
    forall slot | slot in pending && slot.shard == shard :: now < pending[slot]
  }

  ghost predicate Enabled(s: State, step: Step) {
    match step
    case AddPending(call, _, _) => call !in s.calls
    case AddPendingNX(call, _, _) => call !in s.calls
    case BumpShard(call, _) => call in s.calls
    case RemovePending(_) => true
    case Rescore(_, _) => true
    case ReadScore(worker, shard) => worker !in s.workers && shard in s.shards
    case PollNone(worker, now) =>
      worker in s.workers && s.workers[worker].Scored? && NoneDue(s.pending, s.workers[worker].shard, now)
    case PollSome(worker) => worker in s.workers && s.workers[worker].Scored?
    case RemoveIfScoreMatches(worker) => worker in s.workers && s.workers[worker].FoundNone?
  }

  /** The Lua script's test. */
  predicate Matches(shards: SortedSet<Shard>, w: Worker) {
    w.shard in shards && shards[w.shard] == w.score
  }

  ghost function Next(s: State, step: Step): State
    requires Enabled(s, step)
  {
    match step
    case AddPending(call, slot, due) =>
      s.(pending := s.pending[slot := due], calls := s.calls[call := Call(slot, |s.log|)],
         log := s.log + [Pend(slot, due)])
    case AddPendingNX(call, slot, due) =>
      var score := if slot in s.pending then s.pending[slot] else due;
      s.(pending := ZAddNX(s.pending, slot, due), calls := s.calls[call := Call(slot, |s.log|)],
         log := s.log + [Pend(slot, score)])
    case BumpShard(call, at) =>
      var c := s.calls[call];
      s.(shards := ZAddGT(s.shards, c.slot.shard, at), calls := s.calls - {call},
         lastBump := s.lastBump[c.slot.shard := at], log := s.log + [Bump(c.slot, at, c.pend)])
    case RemovePending(slot) => s.(pending := s.pending - {slot}, log := s.log + [Unpend(slot)])
    case Rescore(slot, due) => s.(pending := s.pending[slot := due], log := s.log + [Pend(slot, due)])
    case ReadScore(worker, shard) =>
      s.(workers := s.workers[worker := Scored(shard, s.shards[shard], |s.log|)])
    case PollNone(worker, now) =>
      var w := s.workers[worker];
      s.(workers := s.workers[worker := FoundNone(w.shard, w.score, w.readAt, |s.log|, now)])
    case PollSome(worker) => s.(workers := s.workers - {worker})
    case RemoveIfScoreMatches(worker) =>
      var w := s.workers[worker];
      if Matches(s.shards, w)
      then s.(shards := s.shards - {w.shard}, workers := s.workers - {worker}, log := s.log + [Removed(w.shard)])
      else s.(workers := s.workers - {worker})
  }

  /** Bump times of a shard do not go back; `strict`: they increase. */
  predicate Later(s: State, step: Step, strict: bool) {
    step.BumpShard? && step.call in s.calls ==>
      var shard := s.calls[step.call].slot.shard;
      shard in s.lastBump ==> if strict then s.lastBump[shard] < step.at else s.lastBump[shard] <= step.at
  }

  ghost predicate Legal(s: State, steps: seq<Step>)
    decreases steps
  {
    steps == [] || (Enabled(s, steps[0]) && Legal(Next(s, steps[0]), steps[1..]))
  }

  ghost function Exec(s: State, steps: seq<Step>): State
    requires Legal(s, steps)
    decreases steps
  {
    if steps == [] then s else Exec(Next(s, steps[0]), steps[1..])
  }

  ghost predicate AllLater(s: State, steps: seq<Step>, strict: bool)
    requires Legal(s, steps)
    decreases steps
  {
    steps == [] || (Later(s, steps[0], strict) && AllLater(Next(s, steps[0]), steps[1..], strict))
  }

  /** The pending sets as the log says they are. */
  function Replay(log: seq<Event>): map<Slot, int> {
    if log == [] then map[] else Replayed(Replay(log[..|log| - 1]), log[|log| - 1])
  }

  function Replayed(pending: map<Slot, int>, e: Event): map<Slot, int> {
    match e
    case Pend(slot, due) => pending[slot := due]
    case Unpend(slot) => pending - {slot}
    case Bump(_, _, _) => pending
    case Removed(_) => pending
  }

  // --- What every step keeps ---

  /** `log[k]` is a bump of `shard`. */
  predicate Bumps(log: seq<Event>, k: int, shard: Shard) {
    0 <= k < |log| && log[k].Bump? && log[k].slot.shard == shard
  }

  /** The score a worker read, against the bumps since: none is earlier, and if
      none is later then the score is still the last one given. */
  ghost predicate ScoreOk(s: State, w: Worker, strict: bool) {
    && w.readAt <= |s.log| && w.shard in s.lastBump && w.score <= s.lastBump[w.shard]
    && (forall k | w.readAt <= k && Bumps(s.log, k, w.shard) ::
          w.score <= s.log[k].at <= s.lastBump[w.shard] && (strict ==> w.score < s.log[k].at))
    && ((forall k | w.readAt <= k && Bumps(s.log, k, w.shard) :: s.log[k].at == w.score) ==>
          s.lastBump[w.shard] == w.score)
  }

  ghost predicate PollOk(s: State, w: Worker) {
    w.FoundNone? ==>
      w.readAt <= w.polledAt <= |s.log| && NoneDue(Replay(s.log[..w.polledAt]), w.shard, w.now)
  }

  ghost predicate LogOk(s: State) {
    && s.pending == Replay(s.log)
    && (forall c | c in s.calls :: PendedAt(s.log, s.calls[c].slot, s.calls[c].pend))
    && BumpsFollowPends(s.log)
  }

  ghost predicate BumpsFollowPends(log: seq<Event>) {
    forall k | 0 <= k < |log| && log[k].Bump? :: log[k].pend < k && PendedAt(log, log[k].slot, log[k].pend)
  }

  predicate PendedAt(log: seq<Event>, slot: Slot, i: nat) {
    i < |log| && log[i].Pend? && log[i].slot == slot
  }

  /** Scores never lag behind the last bump. */
  ghost predicate ShardsOk(s: State) {
    forall sh | sh in s.shards :: sh in s.lastBump && s.shards[sh] == s.lastBump[sh]
  }

  ghost predicate Inv(s: State, strict: bool) {
    && LogOk(s) && ShardsOk(s)
    && (forall w | w in s.workers :: ScoreOk(s, s.workers[w], strict) && PollOk(s, s.workers[w]))
  }

  lemma ReplayGrows(log: seq<Event>, e: Event, k: nat)
    requires k <= |log|
    ensures (log + [e])[..|log|] == log && (log + [e])[..k] == log[..k]
  {
  }

  lemma ReplaySnoc(log: seq<Event>, e: Event)
    ensures Replay(log + [e]) == Replayed(Replay(log), e)
  {
    ReplayGrows(log, e, 0);
  }

  lemma StepKeepsReplay(s: State, step: Step)
    requires LogOk(s) && Enabled(s, step)
    ensures Next(s, step).pending == Replay(Next(s, step).log)
  {
    var s' := Next(s, step);
    if s'.log != s.log {
      var e := s'.log[|s.log|];
      assert s'.log == s.log + [e] && s'.pending == Replayed(s.pending, e);
      ReplaySnoc(s.log, e);
    }
  }

  lemma StepKeepsCalls(s: State, step: Step)
    requires LogOk(s) && Enabled(s, step)
    ensures var s' := Next(s, step); forall c | c in s'.calls :: PendedAt(s'.log, s'.calls[c].slot, s'.calls[c].pend)
  {
  }

  lemma BumpsStayBehind(log: seq<Event>, e: Event)
    requires BumpsFollowPends(log) && (e.Bump? ==> PendedAt(log, e.slot, e.pend))
    ensures BumpsFollowPends(log + [e])
  {
  }

  lemma StepKeepsLog(s: State, step: Step)
    requires LogOk(s) && Enabled(s, step)
    ensures LogOk(Next(s, step))
  {
    var s' := Next(s, step);
    StepKeepsReplay(s, step);
    StepKeepsCalls(s, step);
    if s'.log != s.log {
      BumpsStayBehind(s.log, s'.log[|s.log|]);
    }
  }

  lemma ShardsStayOk(s: State, step: Step)
    requires ShardsOk(s) && Enabled(s, step) && Later(s, step, false)
    ensures ShardsOk(Next(s, step))
  {
  }

  lemma PollStaysOk(s: State, step: Step, id: nat)
    requires LogOk(s) && Enabled(s, step) && id in Next(s, step).workers
    requires id in s.workers ==> PollOk(s, s.workers[id]) && s.workers[id].readAt <= |s.log|
    ensures PollOk(Next(s, step), Next(s, step).workers[id])
  {
    var s' := Next(s, step);
    var w := s'.workers[id];
    if s'.log != s.log && w.FoundNone? {
      ReplayGrows(s.log, s'.log[|s.log|], w.polledAt);
    }
    if step.PollNone? && step.worker == id {
      assert s.log[..|s.log|] == s.log;
    }
  }

  /** A bump at `at` is added to the log. */
  lemma BumpKeepsScore(s: State, s': State, w: Worker, e: Event, strict: bool)
    requires ScoreOk(s, w, strict) && e.Bump? && s'.log == s.log + [e]
    requires s'.lastBump == s.lastBump[e.slot.shard := e.at]
    requires e.slot.shard in s.lastBump ==>
               if strict then s.lastBump[e.slot.shard] < e.at else s.lastBump[e.slot.shard] <= e.at
    ensures ScoreOk(s', w, strict)
  {
    assert forall k | 0 <= k < |s.log| :: s'.log[k] == s.log[k];
    if forall k | w.readAt <= k && Bumps(s'.log, k, w.shard) :: s'.log[k].at == w.score {
      forall k | w.readAt <= k && Bumps(s.log, k, w.shard)
        ensures s.log[k].at == w.score
      {
        assert Bumps(s'.log, k, w.shard);
      }
      assert e.slot.shard == w.shard ==> Bumps(s'.log, |s.log|, w.shard);
    }
  }

  lemma QuietKeepsScore(s: State, s': State, w: Worker, strict: bool)
    requires ScoreOk(s, w, strict) && s'.lastBump == s.lastBump
    requires s'.log == s.log || (|s'.log| == |s.log| + 1 && s'.log[..|s.log|] == s.log && !s'.log[|s.log|].Bump?)
    ensures ScoreOk(s', w, strict)
  {
    assert forall k | 0 <= k < |s.log| :: s'.log[k] == s.log[k];
    assert forall k :: Bumps(s'.log, k, w.shard) <==> Bumps(s.log, k, w.shard);
  }

  lemma ScoreStaysOk(s: State, step: Step, id: nat, strict: bool)
    requires Inv(s, strict) && Enabled(s, step) && Later(s, step, strict) && id in Next(s, step).workers
    ensures ScoreOk(Next(s, step), Next(s, step).workers[id], strict)
  {
    var s' := Next(s, step);
    if id in s.workers {
      var w := s.workers[id];
      assert ScoreOk(s, w, strict);
      if step.BumpShard? {
        BumpKeepsScore(s, s', w, s'.log[|s.log|], strict);
      } else {
        QuietKeepsScore(s, s', w, strict);
      }
    }
  }

  lemma StepKeepsInv(s: State, step: Step, strict: bool)
    requires Inv(s, strict) && Enabled(s, step) && Later(s, step, strict)
    ensures Inv(Next(s, step), strict)
  {
    StepKeepsLog(s, step);
    ShardsStayOk(s, step);
    forall w | w in Next(s, step).workers
      ensures ScoreOk(Next(s, step), Next(s, step).workers[w], strict)
      ensures PollOk(Next(s, step), Next(s, step).workers[w])
    {
      ScoreStaysOk(s, step, w, strict);
      PollStaysOk(s, step, w);
    }
  }

  lemma {:induction false} RunKeepsInv(s: State, steps: seq<Step>, strict: bool)
    requires Inv(s, strict) && Legal(s, steps) && AllLater(s, steps, strict)
    ensures Inv(Exec(s, steps), strict)
    decreases steps
  {
    if steps == [] {
    } else {
      StepKeepsInv(s, steps[0], strict);
      RunKeepsInv(Next(s, steps[0]), steps[1..], strict);
    }
  }

  // --- For arbitrary bump times ---

  /** `log[k]` is a removal of `shard`. */
  predicate Removes(log: seq<Event>, k: int, shard: Shard) {
    0 <= k < |log| && log[k] == Removed(shard)
  }

  /** The shard's score as the log says it is. */
  function Level(log: seq<Event>, shard: Shard): Option<int> {
    if log == [] then None else
    var before, e := Level(log[..|log| - 1], shard), log[|log| - 1];
    if e == Removed(shard) then None
    else if e.Bump? && e.slot.shard == shard && (before.None? || before.value < e.at) then Some(e.at)
    else before
  }

  function ScoreOf(shards: SortedSet<Shard>, shard: Shard): Option<int> {
    if shard in shards then Some(shards[shard]) else None
  }

  ghost predicate LevelsOk(s: State) {
    && (forall shard :: ScoreOf(s.shards, shard) == Level(s.log, shard))
    && (forall w | w in s.workers :: ReadAsLogged(s.log, s.workers[w]))
  }

  ghost predicate ReadAsLogged(log: seq<Event>, w: Worker) {
    && w.readAt <= |log| && Level(log[..w.readAt], w.shard) == Some(w.score)
    && (w.FoundNone? ==> w.readAt <= w.polledAt <= |log|)
  }

  lemma LevelSnoc(log: seq<Event>, e: Event, shard: Shard)
    ensures var before := Level(log, shard);
            Level(log + [e], shard)
            == if e == Removed(shard) then None
               else if e.Bump? && e.slot.shard == shard && (before.None? || before.value < e.at) then Some(e.at)
               else before
  {
    assert (log + [e])[..|log|] == log;
  }

  function ShardsAfter(shards: SortedSet<Shard>, e: Event): SortedSet<Shard> {
    match e
    case Bump(slot, at, _) => ZAddGT(shards, slot.shard, at)
    case Removed(shard) => shards - {shard}
    case _ => shards
  }

  /** A step changes the set as the event it logs says. */
  lemma StepIsLogged(s: State, step: Step)
    requires Enabled(s, step)
    ensures var s' := Next(s, step);
            || (s'.log == s.log && s'.shards == s.shards)
            || (&& |s'.log| == |s.log| + 1 && s'.log == s.log + [s'.log[|s.log|]]
                && s'.shards == ShardsAfter(s.shards, s'.log[|s.log|]))
  {
  }

  lemma LevelFollows(shards: SortedSet<Shard>, log: seq<Event>, e: Event, shard: Shard)
    requires ScoreOf(shards, shard) == Level(log, shard)
    ensures ScoreOf(ShardsAfter(shards, e), shard) == Level(log + [e], shard)
  {
    LevelSnoc(log, e, shard);
  }

  lemma StepKeepsLevel(s: State, step: Step, shard: Shard)
    requires ScoreOf(s.shards, shard) == Level(s.log, shard) && Enabled(s, step)
    ensures ScoreOf(Next(s, step).shards, shard) == Level(Next(s, step).log, shard)
  {
    var s' := Next(s, step);
    StepIsLogged(s, step);
    if s'.log != s.log {
      LevelFollows(s.shards, s.log, s'.log[|s.log|], shard);
    }
  }

  lemma StepKeepsReading(s: State, step: Step, id: nat)
    requires LevelsOk(s) && Enabled(s, step) && id in Next(s, step).workers
    ensures ReadAsLogged(Next(s, step).log, Next(s, step).workers[id])
  {
    var s' := Next(s, step);
    if id in s.workers {
      var w := s.workers[id];
      assert ReadAsLogged(s.log, w);
      assert s'.log[..w.readAt] == s.log[..w.readAt];
    } else {
      assert s.log[..|s.log|] == s.log;
      assert ScoreOf(s.shards, step.shard) == Level(s.log, step.shard);
    }
  }

  lemma {:induction false} RunKeepsLevels(s: State, steps: seq<Step>)
    requires LevelsOk(s) && Legal(s, steps)
    ensures LevelsOk(Exec(s, steps))
    decreases steps
  {
    if steps == [] {
    } else {
      forall shard
        ensures ScoreOf(Next(s, steps[0]).shards, shard) == Level(Next(s, steps[0]).log, shard)
      {
        assert ScoreOf(s.shards, shard) == Level(s.log, shard);
        StepKeepsLevel(s, steps[0], shard);
      }
      forall id | id in Next(s, steps[0]).workers
        ensures ReadAsLogged(Next(s, steps[0]).log, Next(s, steps[0]).workers[id])
      {
        StepKeepsReading(s, steps[0], id);
      }
      RunKeepsLevels(Next(s, steps[0]), steps[1..]);
    }
  }

  /** No removal of `shard` from position `from` on. */
  ghost predicate Undisturbed(log: seq<Event>, from: int, shard: Shard) {
    forall k | from <= k && Removes(log, k, shard) :: false
  }

  ghost predicate NoneAbove(log: seq<Event>, from: int, shard: Shard, score: int) {
    forall k | from <= k && Bumps(log, k, shard) :: log[k].at <= score
  }

  ghost predicate SomeAt(log: seq<Event>, from: int, shard: Shard, score: int) {
    exists k :: from <= k && Bumps(log, k, shard) && log[k].at == score
  }

  lemma ButLast(log: seq<Event>, from: nat, shard: Shard, score: int)
    requires from < |log|
    ensures var n := |log| - 1;
            && (Undisturbed(log, from, shard) <==> Undisturbed(log[..n], from, shard) && !Removes(log, n, shard))
            && (NoneAbove(log, from, shard, score) <==>
                NoneAbove(log[..n], from, shard, score) && (Bumps(log, n, shard) ==> log[n].at <= score))
            && (SomeAt(log, from, shard, score) <==>
                SomeAt(log[..n], from, shard, score) || (Bumps(log, n, shard) && log[n].at == score))
  {
    var n := |log| - 1;
    assert forall k | k < n :: Bumps(log, k, shard) <==> Bumps(log[..n], k, shard);
    assert forall k | k < n :: Removes(log, k, shard) <==> Removes(log[..n], k, shard);
    assert forall k | 0 <= k < n :: log[..n][k] == log[k];
    assert forall k | Bumps(log, k, shard) :: k < n || k == n;
    assert forall k | Removes(log, k, shard) :: k < n || k == n;
  }

  /** From a score on, with no removal: it is kept as long as no bump is above it. */
  lemma {:induction false} LevelFrom(log: seq<Event>, from: nat, shard: Shard, score: int)
    requires from <= |log| && Level(log[..from], shard) == Some(score) && Undisturbed(log, from, shard)
    ensures Level(log, shard).Some? && Level(log, shard).value >= score
    ensures Level(log, shard) == Some(score) <==> NoneAbove(log, from, shard, score)
    decreases |log|
  {
    if from == |log| {
      assert log[..from] == log;
    } else {
      var n := |log| - 1;
      ButLast(log, from, shard, score);
      assert log[..n][..from] == log[..from];
      LevelFrom(log[..n], from, shard, score);
    }
  }

  ghost predicate SomeBump(log: seq<Event>, from: int, shard: Shard) {
    exists k :: from <= k && Bumps(log, k, shard)
  }

  lemma SomeBumpButLast(log: seq<Event>, from: nat, shard: Shard)
    requires from < |log|
    ensures var n := |log| - 1;
            SomeBump(log, from, shard) <==> SomeBump(log[..n], from, shard) || Bumps(log, n, shard)
  {
    var n := |log| - 1;
    assert forall k :: Bumps(log, k, shard) <==> Bumps(log[..n], k, shard) || (k == n && Bumps(log, n, shard));
  }

  /** From nothing on, with no removal: the score is the greatest bump. */
  lemma {:induction false} LevelFromNothing(log: seq<Event>, from: nat, shard: Shard, score: int)
    requires from <= |log| && Level(log[..from], shard) == None && Undisturbed(log, from, shard)
    ensures Level(log, shard).Some? <==> SomeBump(log, from, shard)
    ensures Level(log, shard).Some? ==> (Level(log, shard).value <= score <==> NoneAbove(log, from, shard, score))
    ensures Level(log, shard) == Some(score) <==> SomeAt(log, from, shard, score) && NoneAbove(log, from, shard, score)
    decreases |log|
  {
    if from == |log| {
      assert log[..from] == log;
    } else {
      var n := |log| - 1;
      ButLast(log, from, shard, score);
      SomeBumpButLast(log, from, shard);
      assert log[..n][..from] == log[..from];
      LevelFromNothing(log[..n], from, shard, score);
    }
  }

  lemma UndisturbedRemoval(s: State, w: Worker)
    requires ScoreOf(s.shards, w.shard) == Level(s.log, w.shard) && ReadAsLogged(s.log, w)
    requires Undisturbed(s.log, w.readAt, w.shard)
    ensures Matches(s.shards, w) <==> NoneAbove(s.log, w.readAt, w.shard, w.score)
  {
    LevelFrom(s.log, w.readAt, w.shard, w.score);
  }

  lemma RemovalAfterRemoval(s: State, w: Worker, last: nat)
    requires ScoreOf(s.shards, w.shard) == Level(s.log, w.shard)
    requires Removes(s.log, last, w.shard) && Undisturbed(s.log, last + 1, w.shard)
    ensures Matches(s.shards, w) <==>
            SomeAt(s.log, last + 1, w.shard, w.score) && NoneAbove(s.log, last + 1, w.shard, w.score)
  {
    var upTo := s.log[..last + 1];
    assert upTo[|upTo| - 1] == Removed(w.shard);
    LevelFromNothing(s.log, last + 1, w.shard, w.score);
  }

  /** The exact condition, for arbitrary bump times. If nobody has removed the shard
      since the worker read its score, the script removes it exactly when every bump
      since carries a time at or below that score. After a removal (`last`, the
      latest), it does so exactly when some bump after it carries the score and none
      a later time. */
  lemma RemovesExactlyWhen(steps: seq<Step>, worker: nat, last: nat)
    requires Legal(INIT, steps) && Enabled(Exec(INIT, steps), RemoveIfScoreMatches(worker))
    ensures var s := Exec(INIT, steps);
            var w := s.workers[worker];
            && (Undisturbed(s.log, w.readAt, w.shard) ==>
                  (Matches(s.shards, w) <==> NoneAbove(s.log, w.readAt, w.shard, w.score)))
            && (w.readAt <= last && Removes(s.log, last, w.shard) && Undisturbed(s.log, last + 1, w.shard) ==>
                  (Matches(s.shards, w) <==>
                   SomeAt(s.log, last + 1, w.shard, w.score) && NoneAbove(s.log, last + 1, w.shard, w.score)))
  {
    RunKeepsLevels(INIT, steps);
    var s := Exec(INIT, steps);
    var w := s.workers[worker];
    assert ReadAsLogged(s.log, w);
    assert ScoreOf(s.shards, w.shard) == Level(s.log, w.shard);
    if Undisturbed(s.log, w.readAt, w.shard) {
      UndisturbedRemoval(s, w);
    }
    if Removes(s.log, last, w.shard) && Undisturbed(s.log, last + 1, w.shard) {
      RemovalAfterRemoval(s, w, last);
    }
  }

  // --- When the times go up ---

  /** When bump times do not go back, a worker's script removes the shard exactly
      when the shard is there and every bump since the worker read the score was
      given that very time: such bumps, and no others, are passed over. */
  lemma RemovalPassesOverExactlyEqualBumps(steps: seq<Step>, worker: nat)
    requires Legal(INIT, steps) && AllLater(INIT, steps, false)
    requires Enabled(Exec(INIT, steps), RemoveIfScoreMatches(worker))
    ensures var s := Exec(INIT, steps);
            var w := s.workers[worker];
            Matches(s.shards, w) <==>
            && w.shard in s.shards
            && forall k | w.readAt <= k && Bumps(s.log, k, w.shard) :: s.log[k].at == w.score
  {
    RunKeepsInv(INIT, steps, false);
    var s := Exec(INIT, steps);
    assert ScoreOk(s, s.workers[worker], false);
  }

  /** When bump times increase, a shard is removed only by a worker whose poll
      came after every bump so far; so every call that had completed by then had
      its schedule in the pending set before that poll, and the poll, which saw
      the set as the log up to it says, found none of the shard's schedules due. */
  lemma RemovalIsRaceSafe(steps: seq<Step>, worker: nat)
    requires Legal(INIT, steps) && AllLater(INIT, steps, true)
    requires Enabled(Exec(INIT, steps), RemoveIfScoreMatches(worker))
    requires Matches(Exec(INIT, steps).shards, Exec(INIT, steps).workers[worker])
    ensures var s := Exec(INIT, steps);
            var w := s.workers[worker];
            && w.polledAt <= |s.log|
            && (forall k | Bumps(s.log, k, w.shard) ::
                  PendedAt(s.log, s.log[k].slot, s.log[k].pend) && s.log[k].pend < k < w.polledAt)
            && NoneDue(Replay(s.log[..w.polledAt]), w.shard, w.now)
  {
    RunKeepsInv(INIT, steps, true);
    var s := Exec(INIT, steps);
    assert ScoreOk(s, s.workers[worker], true) && PollOk(s, s.workers[worker]);
  }

  // --- Equal times break it ---

  lemma {:induction false} AppendStep(s: State, steps: seq<Step>, step: Step)
    requires Legal(s, steps) && Enabled(Exec(s, steps), step)
    ensures Legal(s, steps + [step]) && Exec(s, steps + [step]) == Next(Exec(s, steps), step)
    ensures AllLater(s, steps, false) && Later(Exec(s, steps), step, false) ==> AllLater(s, steps + [step], false)
    decreases steps
  {
    if steps == [] {
      assert [step][1..] == [];
    } else {
      AppendStep(Next(s, steps[0]), steps[1..], step);
      assert (steps + [step])[1..] == steps[1..] + [step];
    }
  }

  lemma Extend(steps: seq<Step>, step: Step, s': State) returns (more: seq<Step>)
    requires Legal(INIT, steps) && AllLater(INIT, steps, false)
    requires var s := Exec(INIT, steps); Enabled(s, step) && Later(s, step, false) && Next(s, step) == s'
    ensures Legal(INIT, more) && AllLater(INIT, more, false) && Exec(INIT, more) == s'
  {
    AppendStep(INIT, steps, step);
    more := steps + [step];
  }

  /** One call has come through at 50 s: bumps are in milliseconds, due times and polls
      in seconds. */
  function OneBump(a: ScheduleId, workers: map<nat, Worker>): State {
    var slot := Slot("0", a);
    State(map["0" := 50_000], map[slot := 1000], map[], workers, map["0" := 50_000],
          [Pend(slot, 1000), Bump(slot, 50_000, 0)])
  }

  lemma FirstCall(a: ScheduleId) returns (steps: seq<Step>)
    ensures Legal(INIT, steps) && AllLater(INIT, steps, false) && Exec(INIT, steps) == OneBump(a, map[])
  {
    var slot := Slot("0", a);
    var mid := INIT.(pending := map[slot := 1000], calls := map[0 := Call(slot, 0)], log := [Pend(slot, 1000)]);
    steps := Extend([], AddPending(0, slot, 1000), mid);
    assert Next(mid, BumpShard(0, 50_000)).calls == map[];
    steps := Extend(steps, BumpShard(0, 50_000), OneBump(a, map[]));
  }

  lemma WorkerLooks(a: ScheduleId) returns (steps: seq<Step>)
    ensures Legal(INIT, steps) && AllLater(INIT, steps, false)
    ensures Exec(INIT, steps) == OneBump(a, map[0 := FoundNone("0", 50_000, 2, 2, 50)])
  {
    steps := FirstCall(a);
    steps := Extend(steps, ReadScore(0, "0"), OneBump(a, map[0 := Scored("0", 50_000, 2)]));
    steps := Extend(steps, PollNone(0, 50), OneBump(a, map[0 := FoundNone("0", 50_000, 2, 2, 50)]));
  }

  /** Two calls bump within the same millisecond: the second bump is invisible,
      and the shard is dropped after a call that completed after the poll. */
  lemma EqualBumpTimesLoseAShard(a: ScheduleId, b: ScheduleId) returns (steps: seq<Step>, worker: nat)
    ensures Legal(INIT, steps) && AllLater(INIT, steps, false)
    ensures Enabled(Exec(INIT, steps), RemoveIfScoreMatches(worker))
    ensures var s := Exec(INIT, steps);
            var w := s.workers[worker];
            Matches(s.shards, w) && exists k :: w.polledAt <= k && Bumps(s.log, k, w.shard)
  {
    worker := 0;
    steps := WorkerLooks(a);
    var s := Next(Exec(INIT, steps), AddPending(0, Slot("0", b), 51));
    steps := Extend(steps, AddPending(0, Slot("0", b), 51), s);
    steps := Extend(steps, BumpShard(0, 50_000), Next(s, BumpShard(0, 50_000)));
    assert Bumps(Exec(INIT, steps).log, 3, "0");
  }
}
