/** The scheduler's code on its mutable stores: the sorted sets and locks in
    Redis (src/scheduler/shard.rs, src/features/schedules/service.rs), one fire
    as a transaction (src/scheduler/fire.rs), and a reconciler pass
    (src/scheduler/reconcile.rs). */
module Scheduler {
  import opened Wrappers
  import opened Redis
  import opened Shards

  type EndpointId = string

  type Pending = map<Shard, SortedSet<ScheduleId>>

  function PendingOf(pending: Pending, shard: Shard): SortedSet<ScheduleId> {
    if shard in pending then pending[shard] else map[]
  }

  function ScoreOf(pending: Pending, shard: Shard, id: ScheduleId): Option<int> {
    if shard in pending && id in pending[shard] then Some(pending[shard][id]) else None
  }

  /** sched:pending:*, sched:shards and sched:lock:*. */
  class SchedulerRedis {
    var pending: Pending
    var shards: SortedSet<Shard>
    var locks: map<Shard, Lock>

    constructor ()
      ensures pending == map[] && shards == map[] && locks == map[]
    {
      pending, shards, locks := map[], map[], map[];
    }

    method ZAddPending(shard: Shard, id: ScheduleId, next: int)
      modifies this`pending
      ensures pending == old(pending)[shard := PendingOf(old(pending), shard)[id := next]]
    {
      pending := pending[shard := PendingOf(pending, shard)[id := next]];
    }

    method ZRemPending(shard: Shard, id: ScheduleId)
      modifies this`pending
      ensures pending == old(pending)[shard := PendingOf(old(pending), shard) - {id}]
    {
      pending := pending[shard := PendingOf(pending, shard) - {id}];
    }

    /** A shard's score never goes down, and the shard is in the set afterwards. */
    method ZAddShards(shard: Shard, now: int)
      modifies this`shards
      ensures shards == ZAddGT(old(shards), shard, now)
      ensures shard in shards && now <= shards[shard]
      ensures forall s | s in old(shards) :: s in shards && old(shards)[s] <= shards[s]
    {
      if shard !in shards || shards[shard] < now {
        shards := shards[shard := now];
      }
    }

    /** SET NX EX 30. */
    method AcquireLock(shard: Shard, instance: string, now: int) returns (acquired: bool)
      modifies this`locks
      ensures acquired <==> LockFree(old(locks), shard, now)
      ensures acquired <==> (shard in old(locks) ==> old(locks)[shard].expiresAt <= now)
      ensures locks == if acquired then old(locks)[shard := Lock(instance, now + 30_000)] else old(locks)
    {
      acquired := shard !in locks || locks[shard].expiresAt <= now;
      if acquired {
        locks := locks[shard := Lock(instance, now + LOCK_TTL)];
      }
    }

    /** Only this instance's lock is deleted, whatever the timing. */
    method ReleaseLock(shard: Shard, instance: string)
      modifies this`locks
      ensures locks == Released(old(locks), shard, instance)
      ensures shard in locks ==> locks[shard].token != instance
      ensures shard in old(locks) && old(locks)[shard].token != instance ==> locks == old(locks)
      ensures locks == old(locks) || locks == old(locks) - {shard}
    {
      if shard in locks && locks[shard].token == instance {
        locks := locks - {shard};
      }
    }

    method RemoveIfScoreMatches(shard: Shard, score: int) returns (removed: bool)
      modifies this`shards
      ensures removed <==> shard in old(shards) && old(shards)[shard] == score
      ensures shards == if removed then old(shards) - {shard} else old(shards)
    {
      removed := shard in shards && shards[shard] == score;
      if removed {
        shards := shards - {shard};
      }
    }
  }

  // --- A fire ---

  datatype Schedule = Schedule(
    shard: Shard, active: bool, deleted: bool, endpoints: seq<EndpointId>, payload: string,
    nextRunAt: Option<int>, lastRunAt: Option<int>, version: nat)

  datatype Event = Event(id: nat, endpoint: EndpointId, payload: string)
  datatype DeliveryJob = DeliveryJob(event: nat, endpoint: EndpointId)
  datatype Execution = Execution(schedule: ScheduleId, triggeredAt: int)

  datatype Tables = Tables(
    schedules: map<ScheduleId, Schedule>, events: seq<Event>, jobs: seq<DeliveryJob>, executions: seq<Execution>)

  /** The endpoints of a schedule that are active now. */
  function Active(endpoints: seq<EndpointId>, live: set<EndpointId>): (r: seq<EndpointId>)
    ensures forall e :: e in r <==> e in endpoints && e in live
  {
    if endpoints == [] then []
    else (if endpoints[0] in live then [endpoints[0]] else []) + Active(endpoints[1..], live)
  }

  lemma ActiveIsEmpty(endpoints: seq<EndpointId>, live: set<EndpointId>)
    ensures Active(endpoints, live) != [] <==> exists e :: e in endpoints && e in live
  {
    if Active(endpoints, live) != [] {
      assert Active(endpoints, live)[0] in Active(endpoints, live);
    }
  }

  predicate Fireable(t: Tables, id: ScheduleId, live: set<EndpointId>) {
    && id in t.schedules && t.schedules[id].active && !t.schedules[id].deleted
    && Active(t.schedules[id].endpoints, live) != []
  }

  /** One event and one job for each of `targets`, in order, the job naming its
      own event; event ids are new. */
  ghost predicate FansOut(was: Tables, t: Tables, targets: seq<EndpointId>, payload: string) {
    && |t.events| == |was.events| + |targets| && |t.jobs| == |was.jobs| + |targets|
    && t.events[..|was.events|] == was.events && t.jobs[..|was.jobs|] == was.jobs
    && (forall i | 0 <= i < |targets| ::
          var event, job := t.events[|was.events| + i], t.jobs[|was.jobs| + i];
          && event == Event(|was.events| + i, targets[i], payload)
          && job == DeliveryJob(event.id, targets[i]))
  }

  function After(s: Schedule, next: int, triggeredAt: int): Schedule {
    s.(nextRunAt := Some(next), lastRunAt := Some(triggeredAt), version := s.version + 1)
  }

  /** What a committed fire leaves behind. */
  ghost predicate FiredOnce(
    was: Tables, t: Tables, id: ScheduleId, live: set<EndpointId>, next: int, triggeredAt: int)
  {
    && id in was.schedules
    && var s := was.schedules[id];
       && FansOut(was, t, Active(s.endpoints, live), s.payload)
       && t.executions == was.executions + [Execution(id, triggeredAt)]
       && t.schedules == was.schedules[id := After(s, next, triggeredAt)]
  }

  lemma FansOutStep(was: Tables, tx: Tables, targets: seq<EndpointId>, i: nat, payload: string)
    requires i < |targets| && FansOut(was, tx, targets[..i], payload)
    ensures FansOut(was, WithTarget(tx, targets[i], payload), targets[..i + 1], payload)
  {
  }

  function WithTarget(tx: Tables, target: EndpointId, payload: string): Tables {
    tx.(events := tx.events + [Event(|tx.events|, target, payload)],
        jobs := tx.jobs + [DeliveryJob(|tx.events|, target)])
  }

  lemma FansOutIgnoresOtherTables(was: Tables, t: Tables, t': Tables, targets: seq<EndpointId>, payload: string)
    requires FansOut(was, t, targets, payload) && t'.events == t.events && t'.jobs == t.jobs
    ensures FansOut(was, t', targets, payload)
  {
  }

  /** The insert loop of a fire, on the transaction's own view of the tables. */
  method InsertAll(was: Tables, targets: seq<EndpointId>, payload: string, failing: Option<nat>)
    returns (tx: Tables, ok: bool)
    ensures ok <==> failing.Some? ==> failing.value >= |targets|
    ensures ok ==> FansOut(was, tx, targets, payload)
    ensures ok ==> tx.schedules == was.schedules && tx.executions == was.executions
  {
    tx := was;
    for i := 0 to |targets|
      invariant failing.Some? ==> failing.value >= i
      invariant tx.schedules == was.schedules && tx.executions == was.executions
      invariant FansOut(was, tx, targets[..i], payload)
    {
      if failing.Some? && failing.value == i {
        return tx, false;
      }
      FansOutStep(was, tx, targets, i, payload);
      var event := |tx.events|;
      tx := tx.(events := tx.events + [Event(event, targets[i], payload)]);
      tx := tx.(jobs := tx.jobs + [DeliveryJob(event, targets[i])]);
    }
    assert targets[..|targets|] == targets;
    ok := true;
  }

  class Database {
    var t: Tables

    constructor ()
      ensures t == Tables(map[], [], [], [])
    {
      t := Tables(map[], [], [], []);
    }

    /** fire_inner. `next` is None for an invalid cron expression or time zone;
        `failing` is the statement of the transaction that fails, if one does.
        A fire happens whole, with its re-score, or not at all. */
    method FireInner(
      redis: SchedulerRedis, id: ScheduleId, live: set<EndpointId>, next: Option<int>, triggeredAt: int,
      failing: Option<nat>)
      returns (fired: bool)
      modifies this, redis`pending
      ensures fired <==> Fireable(old(t), id, live) && next.Some? && failing.None?
      ensures fired <==>
              && id in old(t).schedules && old(t).schedules[id].active && !old(t).schedules[id].deleted
              && (exists e :: e in old(t).schedules[id].endpoints && e in live) && next.Some? && failing.None?
      ensures fired ==>
                && FiredOnce(old(t), t, id, live, next.value, triggeredAt)
                && var shard := old(t).schedules[id].shard;
                   redis.pending == old(redis.pending)[shard := PendingOf(old(redis.pending), shard)[id := next.value]]
      ensures !fired ==> t == old(t) && redis.pending == old(redis.pending)
    {
      if id !in t.schedules || t.schedules[id].deleted || !t.schedules[id].active {
        return false;
      }
      var row := t.schedules[id];
      var targets := Active(row.endpoints, live);
      ActiveIsEmpty(row.endpoints, live);
      if targets == [] || next.None? {
        return false;
      }
      var tx, ok := InsertAll(t, targets, row.payload, failing);
      if !ok {
        return false;
      }
      ghost var fanned := tx;
      tx := tx.(executions := tx.executions + [Execution(id, triggeredAt)]);
      var renewed := row.(nextRunAt := next, lastRunAt := Some(triggeredAt), version := row.version + 1);
      tx := tx.(schedules := tx.schedules[id := renewed]);
      if failing.Some? {
        return false;
      }
      FansOutIgnoresOtherTables(t, fanned, tx, targets, row.payload);
      t := tx;
      redis.ZAddPending(row.shard, id, next.value);
      fired := true;
    }
  }

  predicate Distinct(es: seq<EndpointId>) {
    forall i, j | 0 <= i < j < |es| :: es[i] != es[j]
  }

  /** Every active endpoint of the schedule gets exactly one of the new jobs. */
  lemma OneJobPerEndpoint(was: Tables, t: Tables, id: ScheduleId, live: set<EndpointId>, next: int, triggeredAt: int)
    requires FiredOnce(was, t, id, live, next, triggeredAt)
    requires Distinct(was.schedules[id].endpoints)
    ensures var es := was.schedules[id].endpoints;
            && (forall k | |was.jobs| <= k < |t.jobs| :: t.jobs[k].endpoint in es && t.jobs[k].endpoint in live)
            && (forall e | e in es && e in live :: exists k :: |was.jobs| <= k < |t.jobs| && t.jobs[k].endpoint == e)
            && (forall j, k | |was.jobs| <= j < k < |t.jobs| :: t.jobs[j].endpoint != t.jobs[k].endpoint)
    ensures was.jobs <= t.jobs && was.events <= t.events
    ensures forall k | |was.jobs| <= k < |t.jobs| ::
              |was.events| <= t.jobs[k].event < |t.events| && IsJobsEvent(was, t, t.jobs[k], id)
  {
    var es := was.schedules[id].endpoints;
    ActiveIsDistinct(es, live);
    JobsFollowTargets(was, t, Active(es, live), was.schedules[id].payload);
    var targets := Active(es, live);
    forall k | |was.jobs| <= k < |t.jobs|
      ensures |was.events| <= t.jobs[k].event < |t.events| && IsJobsEvent(was, t, t.jobs[k], id)
    {
      var i := k - |was.jobs|;
      assert t.jobs[|was.jobs| + i] == DeliveryJob(t.events[|was.events| + i].id, targets[i]);
    }
  }

  /** The job's event is for the job's own endpoint and carries the schedule's payload. */
  predicate IsJobsEvent(was: Tables, t: Tables, job: DeliveryJob, id: ScheduleId)
    requires job.event < |t.events| && id in was.schedules
  {
    var event := t.events[job.event];
    event.id == job.event && event.endpoint == job.endpoint && event.payload == was.schedules[id].payload
  }

  lemma JobsFollowTargets(was: Tables, t: Tables, targets: seq<EndpointId>, payload: string)
    requires FansOut(was, t, targets, payload)
    requires Distinct(targets)
    ensures var n := |was.jobs|;
            && (forall k | n <= k < |t.jobs| :: t.jobs[k].endpoint in targets)
            && (forall e | e in targets :: exists k :: n <= k < |t.jobs| && t.jobs[k].endpoint == e)
            && (forall j, k | n <= j < k < |t.jobs| :: t.jobs[j].endpoint != t.jobs[k].endpoint)
  {
    var n := |was.jobs|;
    forall k | n <= k < |t.jobs|
      ensures t.jobs[k].endpoint == targets[k - n]
    {
      assert t.jobs[n + (k - n)].endpoint == targets[k - n];
    }
    forall e | e in targets
      ensures exists k :: n <= k < |t.jobs| && t.jobs[k].endpoint == e
    {
      var i :| 0 <= i < |targets| && targets[i] == e;
      assert t.jobs[n + i].endpoint == e;
    }
  }

  lemma {:induction false} ActiveIsDistinct(es: seq<EndpointId>, live: set<EndpointId>)
    requires Distinct(es)
    ensures Distinct(Active(es, live))
  {
    if es == [] {
    } else {
      ActiveIsDistinct(es[1..], live);
      var rest := Active(es[1..], live);
      forall i | 0 <= i < |rest|
        ensures rest[i] != es[0]
      {
        assert rest[i] in es[1..];
        var k :| 0 <= k < |es| - 1 && es[1..][k] == rest[i];
        assert es[k + 1] == rest[i];
      }
    }
  }

  // --- One turn of a shard worker ---

  /** ZRANGEBYSCORE 0 now LIMIT 0 50. */
  ghost predicate PollReturns(pending: SortedSet<ScheduleId>, now: int, due: seq<ScheduleId>) {
    && |due| <= 50 && Distinct(due)
    && (forall i | 0 <= i < |due| :: due[i] in pending && 0 <= pending[due[i]] <= now)
    && (forall i, j | 0 <= i < j < |due| :: pending[due[i]] <= pending[due[j]])
    && (|due| < 50 ==> forall id | id in pending && 0 <= pending[id] <= now :: id in due)
  }

  /** `id` was fired once between `was` and `t`. */
  predicate FiredSince(was: Tables, t: Tables, id: ScheduleId) {
    id in was.schedules && id in t.schedules && t.schedules[id].version == was.schedules[id].version + 1
  }

  /** The schedules `ids` were fired at most once each, and no other was touched;
      each execution is of a schedule that was fired. */
  ghost predicate FiredAmong(was: Tables, t: Tables, ids: seq<ScheduleId>) {
    && t.schedules.Keys == was.schedules.Keys
    && (forall id | id in was.schedules && !FiredSince(was, t, id) :: t.schedules[id] == was.schedules[id])
    && (forall id | FiredSince(was, t, id) :: id in ids && t.schedules[id].shard == was.schedules[id].shard)
    && |was.executions| <= |t.executions| && t.executions[..|was.executions|] == was.executions
    && (forall k | |was.executions| <= k < |t.executions| :: FiredSince(was, t, t.executions[k].schedule))
    && (forall j, k | |was.executions| <= j < k < |t.executions| ::
          t.executions[j].schedule != t.executions[k].schedule)
  }

  /** Of `ids`, exactly those that can fire have fired: active and not deleted, with
      an endpoint that is up, a valid cron expression and no failing statement; each
      has its next run, and the time of this one. */
  ghost predicate FiredExactly(
    was: Tables, t: Tables, ids: seq<ScheduleId>, live: set<EndpointId>,
    nexts: map<ScheduleId, int>, failing: map<ScheduleId, nat>, now: int)
  {
    forall id | id in was.schedules && id in t.schedules ::
      FiredRight(was, t, id, id in ids, live, nexts, failing, now)
  }

  ghost predicate FiredRight(
    was: Tables, t: Tables, id: ScheduleId, polled: bool, live: set<EndpointId>,
    nexts: map<ScheduleId, int>, failing: map<ScheduleId, nat>, now: int)
    requires id in was.schedules && id in t.schedules
  {
    && (FiredSince(was, t, id) <==> polled && CanFire(was.schedules[id], live) && id in nexts && id !in failing)
    && (FiredSince(was, t, id) && id in nexts ==> HasFired(was.schedules[id], t.schedules[id], nexts[id], now))
  }

  ghost predicate CanFire(s: Schedule, live: set<EndpointId>) {
    s.active && !s.deleted && exists e :: e in s.endpoints && e in live
  }

  predicate HasFired(s: Schedule, s': Schedule, next: int, now: int) {
    s' == Schedule(s.shard, true, false, s.endpoints, s.payload, Some(next), Some(now), s.version + 1)
  }

  /** A fired schedule's score is its new next run; no other score has changed. */
  ghost predicate Rescored(was: Tables, t: Tables, p: Pending, p': Pending) {
    forall shard, id ::
      ScoreOf(p', shard, id) == if FiredSince(was, t, id) && shard == was.schedules[id].shard
                                then t.schedules[id].nextRunAt else ScoreOf(p, shard, id)
  }

  lemma FiredAmongStep(
    was: Tables, mid: Tables, t: Tables, ids: seq<ScheduleId>, i: nat, live: set<EndpointId>, next: int, at: int)
    requires i < |ids| && Distinct(ids) && FiredAmong(was, mid, ids[..i])
    requires t == mid || FiredOnce(mid, t, ids[i], live, next, at)
    ensures FiredAmong(was, t, ids[..i + 1])
  {
    var more, less, id := ids[..i + 1], ids[..i], ids[i];
    assert more == less + [id];
    assert id !in less;
    if t != mid {
      assert !FiredSince(was, mid, id) && FiredSince(was, t, id);
      assert forall x | x != id :: FiredSince(was, t, x) <==> FiredSince(was, mid, x);
      assert t.executions[..|was.executions|] == mid.executions[..|was.executions|];
    }
  }

  /** A schedule whose turn has not come is as it was. */
  lemma NotYetFired(was: Tables, mid: Tables, ids: seq<ScheduleId>, i: nat)
    requires i < |ids| && Distinct(ids) && FiredAmong(was, mid, ids[..i])
    ensures mid.schedules.Keys == was.schedules.Keys
    ensures ids[i] in was.schedules ==> mid.schedules[ids[i]] == was.schedules[ids[i]]
  {
    assert ids[i] !in ids[..i];
  }

  lemma FiredExactlyStep(
    was: Tables, mid: Tables, t: Tables, ids: seq<ScheduleId>, i: nat, live: set<EndpointId>,
    nexts: map<ScheduleId, int>, failing: map<ScheduleId, nat>, now: int)
    requires i < |ids| && FiredExactly(was, mid, ids[..i], live, nexts, failing, now)
    requires mid.schedules.Keys == was.schedules.Keys
    requires ids[i] in was.schedules ==> mid.schedules[ids[i]] == was.schedules[ids[i]]
    requires var id := ids[i];
             t.schedules == if id in was.schedules && CanFire(was.schedules[id], live) && id in nexts && id !in failing
                            then mid.schedules[id := After(was.schedules[id], nexts[id], now)] else mid.schedules
    ensures FiredExactly(was, t, ids[..i + 1], live, nexts, failing, now)
  {
    var more, less, id := ids[..i + 1], ids[..i], ids[i];
    assert more == less + [id];
    forall x | x in was.schedules && x in t.schedules
      ensures FiredRight(was, t, x, x in more, live, nexts, failing, now)
    {
      assert FiredRight(was, mid, x, x in less, live, nexts, failing, now);
    }
  }

  lemma RescoredStep(
    was: Tables, mid: Tables, t: Tables, p: Pending, q: Pending, ids: seq<ScheduleId>, i: nat, live: set<EndpointId>,
    next: int, at: int)
    requires i < |ids| && Distinct(ids) && FiredAmong(was, mid, ids[..i]) && Rescored(was, mid, p, q)
    requires FiredOnce(mid, t, ids[i], live, next, at)
    ensures var shard := mid.schedules[ids[i]].shard;
            Rescored(was, t, p, q[shard := PendingOf(q, shard)[ids[i] := next]])
  {
    var id := ids[i];
    assert id !in ids[..i];
    assert !FiredSince(was, mid, id) && FiredSince(was, t, id);
    var shard := mid.schedules[id].shard;
    var q' := q[shard := PendingOf(q, shard)[id := next]];
    forall sh, x
      ensures ScoreOf(q', sh, x) == if FiredSince(was, t, x) && sh == was.schedules[x].shard
                                    then t.schedules[x].nextRunAt else ScoreOf(p, sh, x)
    {
      assert ScoreOf(q, sh, x) == if FiredSince(was, mid, x) && sh == was.schedules[x].shard
                                  then mid.schedules[x].nextRunAt else ScoreOf(p, sh, x);
    }
  }

  /** process_one: `picked` is ZRANDMEMBER's answer and `due` the poll's;
      `nexts` has the next time of each schedule whose cron expression is valid,
      and `failing` the statement at which a schedule's transaction fails. */
  method ProcessShard(
    db: Database, redis: SchedulerRedis, instance: string, picked: Option<Shard>, due: seq<ScheduleId>,
    live: set<EndpointId>, nexts: map<ScheduleId, int>, failing: map<ScheduleId, nat>, now: int)
    requires picked.Some? <==> redis.shards != map[]
    requires picked.Some? ==>
               picked.value in redis.shards && PollReturns(PendingOf(redis.pending, picked.value), now, due)
    modifies db, redis
    ensures picked.None? || !LockFree(old(redis.locks), picked.value, now) ==>
              && db.t == old(db.t) && redis.pending == old(redis.pending)
              && redis.shards == old(redis.shards) && redis.locks == old(redis.locks)
    ensures picked.Some? && LockFree(old(redis.locks), picked.value, now) ==>
              && picked.value !in redis.locks
              && (forall s | s in old(redis.locks) && s != picked.value ::
                    s in redis.locks && redis.locks[s] == old(redis.locks)[s])
              && (if due == []
                  then redis.shards == old(redis.shards) - {picked.value} && db.t == old(db.t)
                       && redis.pending == old(redis.pending)
                  else redis.shards == old(redis.shards) && FiredAmong(old(db.t), db.t, due)
                       && FiredExactly(old(db.t), db.t, due, live, nexts, failing, now)
                       && Rescored(old(db.t), db.t, old(redis.pending), redis.pending))
  {
    if picked.None? {
      return;
    }
    var shard := picked.value;
    var score := redis.shards[shard];
    var acquired := redis.AcquireLock(shard, instance, now);
    if !acquired {
      return;
    }
    if due == [] {
      var _ := redis.RemoveIfScoreMatches(shard, score);
    } else {
      FireAll(db, redis, due, live, nexts, failing, now);
    }
    redis.ReleaseLock(shard, instance);
  }

  method FireAll(
    db: Database, redis: SchedulerRedis, due: seq<ScheduleId>,
    live: set<EndpointId>, nexts: map<ScheduleId, int>, failing: map<ScheduleId, nat>, now: int)
    requires Distinct(due)
    modifies db, redis`pending
    ensures FiredAmong(old(db.t), db.t, due)
    ensures FiredExactly(old(db.t), db.t, due, live, nexts, failing, now)
    ensures Rescored(old(db.t), db.t, old(redis.pending), redis.pending)
  {
    for i := 0 to |due|
      invariant FiredAmong(old(db.t), db.t, due[..i])
      invariant FiredExactly(old(db.t), db.t, due[..i], live, nexts, failing, now)
      invariant Rescored(old(db.t), db.t, old(redis.pending), redis.pending)
    {
      ghost var mid, q := db.t, redis.pending;
      var next := if due[i] in nexts then Some(nexts[due[i]]) else None;
      var at := if due[i] in failing then Some(failing[due[i]]) else None;
      var fired := db.FireInner(redis, due[i], live, next, now, at);
      FiredAmongStep(old(db.t), mid, db.t, due, i, live, if next.Some? then next.value else 0, now);
      NotYetFired(old(db.t), mid, due, i);
      FiredExactlyStep(old(db.t), mid, db.t, due, i, live, nexts, failing, now);
      if fired {
        RescoredStep(old(db.t), mid, db.t, old(redis.pending), q, due, i, live, next.value, now);
      }
    }
    assert due[..|due|] == due;
  }

  // --- A reconciler pass ---

  datatype Found = Found(id: ScheduleId, shard: Shard, next: Option<int>)

  /** The next run of the first row for this schedule and shard that has one. */
  function FirstNext(rows: seq<Found>, shard: Shard, id: ScheduleId): Option<int> {
    if rows == [] then None else
    var earlier, last := FirstNext(rows[..|rows| - 1], shard, id), rows[|rows| - 1];
    if earlier.Some? then earlier else if last.id == id && last.shard == shard then last.next else None
  }

  lemma {:induction false} EveryRowHasANext(rows: seq<Found>, i: nat)
    requires i < |rows| && rows[i].next.Some?
    ensures FirstNext(rows, rows[i].shard, rows[i].id).Some?
  {
    if i == |rows| - 1 {
    } else {
      EveryRowHasANext(rows[..|rows| - 1], i);
    }
  }

  /** Scores that were there are kept, and a schedule without one gets the next
      run of its row, if it has a row. */
  ghost predicate Added(was: Pending, pending: Pending, rows: seq<Found>) {
    forall shard, id ::
      ScoreOf(pending, shard, id)
      == if ScoreOf(was, shard, id).Some? then ScoreOf(was, shard, id) else FirstNext(rows, shard, id)
  }

  /** Shards of rows that have a next run. */
  function ShardsOf(rows: seq<Found>): set<Shard> {
    set i | 0 <= i < |rows| && rows[i].next.Some? :: rows[i].shard
  }

  ghost predicate Bumped(was: SortedSet<Shard>, shards: SortedSet<Shard>, which: set<Shard>, now: int) {
    && shards.Keys == was.Keys + which
    && (forall s | s in which :: shards[s] == if s in was && was[s] >= now then was[s] else now)
    && (forall s | s in was && s !in which :: shards[s] == was[s])
  }

  function WithRow(pending: Pending, r: Found): Pending {
    if r.next.None? then pending
    else pending[r.shard := ZAddNX(PendingOf(pending, r.shard), r.id, r.next.value)]
  }

  lemma AddedStep(was: Pending, mid: Pending, rows: seq<Found>, i: nat)
    requires i < |rows| && Added(was, mid, rows[..i])
    ensures var r := rows[i];
            Added(was, WithRow(mid, r), rows[..i + 1])
  {
    var r := rows[i];
    var pending := WithRow(mid, r);
    var more := rows[..i + 1];
    assert more[..|more| - 1] == rows[..i] && more[|more| - 1] == r;
    forall shard, id
      ensures ScoreOf(pending, shard, id)
           == if ScoreOf(was, shard, id).Some? then ScoreOf(was, shard, id) else FirstNext(more, shard, id)
    {
      assert ScoreOf(mid, shard, id)
          == if ScoreOf(was, shard, id).Some? then ScoreOf(was, shard, id) else FirstNext(rows[..i], shard, id);
    }
  }

  lemma ShardsOfStep(rows: seq<Found>, i: nat)
    requires i < |rows|
    ensures ShardsOf(rows[..i + 1]) == ShardsOf(rows[..i]) + if rows[i].next.Some? then {rows[i].shard} else {}
  {
  }

  /** The writes of one pass over the rows its query returned: every row with a
      next run is pending, no score that was there changes, and each shard seen
      is in the discovery set with at least the pass's own time. */
  method ReconcileRows(redis: SchedulerRedis, rows: seq<Found>, runAt: int)
    modifies redis`pending, redis`shards
    ensures Added(old(redis.pending), redis.pending, rows)
    ensures forall i | 0 <= i < |rows| && rows[i].next.Some? :: ScoreOf(redis.pending, rows[i].shard, rows[i].id).Some?
    ensures Bumped(old(redis.shards), redis.shards, ShardsOf(rows), runAt)
  {
    var activeShards: set<Shard> := {};
    for i := 0 to |rows|
      invariant redis.shards == old(redis.shards)
      invariant Added(old(redis.pending), redis.pending, rows[..i])
      invariant activeShards == ShardsOf(rows[..i])
    {
      AddedStep(old(redis.pending), redis.pending, rows, i);
      ShardsOfStep(rows, i);
      if rows[i].next.Some? {
        var shard := rows[i].shard;
        var added := ZAddNX(PendingOf(redis.pending, shard), rows[i].id, rows[i].next.value);
        redis.pending := redis.pending[shard := added];
        activeShards := activeShards + {shard};
      }
    }
    assert rows[..|rows|] == rows;
    var todo := activeShards;
    while todo != {}
      invariant todo <= activeShards == ShardsOf(rows)
      invariant Added(old(redis.pending), redis.pending, rows)
      invariant Bumped(old(redis.shards), redis.shards, activeShards - todo, runAt)
      decreases todo
    {
      var shard :| shard in todo;
      redis.ZAddShards(shard, runAt);
      todo := todo - {shard};
    }
    assert activeShards - todo == activeShards;
    forall i | 0 <= i < |rows| && rows[i].next.Some?
      ensures ScoreOf(redis.pending, rows[i].shard, rows[i].id).Some?
    {
      EveryRowHasANext(rows, i);
    }
  }
}
