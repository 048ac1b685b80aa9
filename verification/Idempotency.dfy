/** Idempotent event creation (src/common/idempotency.rs and the keyed path of
    create in src/features/events/service.rs): a token lock per key around a
    one-hour lookup and an insert.

    Requests interleave step by step. The lock is taken per idempotency key, and
    the lookup is per application and key. */
module Idempotency {
  import opened Wrappers
  import opened Redis

  const LOCK_TTL: int := 60_000
  const HOUR: int := 3_600_000

  type Hash = string

  datatype Event = Event(app: string, key: string, hash: Hash, createdAt: int)

  /** Where a request is: it holds the lock, it has looked and found nothing, or
      it has its answer (and still has to release). */
  datatype Phase = Acquired | FoundNone | Answered(answer: Answer)
  datatype Answer = Created(event: Event) | Replayed(event: Event) | BodyConflict | Errored

  datatype Request = Request(app: string, key: string, hash: Hash, token: string, acquiredAt: int, phase: Phase)

  datatype State = State(
    now: int,
    locks: map<string, Lock>,
    events: seq<Event>,
    requests: map<nat, Request>,
    tokens: set<string>)

  const INIT := State(0, map[], [], map[], {})

  datatype Step =
    | Tick(to: int)
    | Acquire(req: nat, app: string, key: string, hash: Hash, token: string)
    | Lookup(req: nat, found: Option<Event>)
    | Insert(req: nat)
    | Fail(req: nat)          // the lookup or the insert returns an error
    | StoreAndFail(req: nat)  // the insert works, and fetching the new row fails
    | Release(req: nat)
    | Die(req: nat)  // the process stops; its lock is left to expire

  /** find_by_idempotency_key. */
  predicate Recent(e: Event, app: string, key: string, now: int) {
    e.app == app && e.key == key && e.createdAt > now - HOUR
  }

  ghost predicate LookupReturns(s: State, r: Request, found: Option<Event>) {
    match found
    case Some(e) => e in s.events && Recent(e, r.app, r.key, s.now)
    case None => forall i | 0 <= i < |s.events| :: !Recent(s.events[i], r.app, r.key, s.now)
  }

  /** Locks are held for less than 60 s: time does not reach that far while a
      request holds one. */
  ghost predicate Enabled(s: State, step: Step) {
    match step
    case Tick(to) => s.now <= to && forall r | r in s.requests :: to < s.requests[r].acquiredAt + 60_000
    case Acquire(req, _, key, _, token) => req !in s.requests && token !in s.tokens && LockFree(s.locks, key, s.now)
    case Lookup(req, found) =>
      req in s.requests && s.requests[req].phase.Acquired? && LookupReturns(s, s.requests[req], found)
    case Insert(req) => req in s.requests && s.requests[req].phase.FoundNone?
    case StoreAndFail(req) => req in s.requests && s.requests[req].phase.FoundNone?
    case Fail(req) => req in s.requests && !s.requests[req].phase.Answered?
    case Release(req) => req in s.requests && s.requests[req].phase.Answered?
    case Die(req) => req in s.requests
  }

  /** The decision of `create` on a stored event. */
  function OnFound(r: Request, e: Event): Answer {
    if e.hash == r.hash then Replayed(e) else BodyConflict
  }

  function At(s: State, req: nat, phase: Phase): State
    requires req in s.requests
  {
    s.(requests := s.requests[req := s.requests[req].(phase := phase)])
  }

  ghost function Next(s: State, step: Step): State
    requires Enabled(s, step)
  {
    match step
    case Tick(to) => s.(now := to)
    case Acquire(req, app, key, hash, token) =>
      s.(locks := s.locks[key := Lock(token, s.now + LOCK_TTL)],
         requests := s.requests[req := Request(app, key, hash, token, s.now, Acquired)],
         tokens := s.tokens + {token})
    case Lookup(req, found) =>
      At(s, req, if found.Some? then Answered(OnFound(s.requests[req], found.value)) else FoundNone)
    case Insert(req) =>
      var r := s.requests[req];
      var e := Event(r.app, r.key, r.hash, s.now);
      At(s, req, Answered(Created(e))).(events := s.events + [e])
    case StoreAndFail(req) =>
      var r := s.requests[req];
      At(s, req, Answered(Errored)).(events := s.events + [Event(r.app, r.key, r.hash, s.now)])
    case Fail(req) => At(s, req, Answered(Errored))
    case Release(req) =>
      var r := s.requests[req];
      s.(locks := Released(s.locks, r.key, r.token), requests := s.requests - {req})
    case Die(req) => s.(requests := s.requests - {req})
  }

  ghost predicate Legal(s: State, steps: seq<Step>)
    decreases steps
  {
    steps == [] || (Enabled(s, steps[0]) && Legal(Next(s, steps[0]), steps[1..]))
  }

  ghost function Exec(s: State, steps: seq<Step>): State
    requires Legal(s, steps)
    decreases steps
  {
    if steps == [] then s else Exec(Next(s, steps[0]), steps[1..])
  }

  /** The lock key in Redis, as acquire_lock and release_lock use it. */
  class LockStore {
    var locks: map<string, Lock>

    constructor ()
      ensures locks == map[]
    {
      locks := map[];
    }

    /** SET NX PX; None means the 409 answer. */
    method AcquireLock(key: string, token: string, now: int) returns (acquired: Option<string>)
      modifies this
      ensures acquired.Some? <==> key !in old(locks) || old(locks)[key].expiresAt <= now
      ensures acquired.Some? ==> acquired.value == token && locks == old(locks)[key := Lock(token, now + 60_000)]
      ensures acquired.None? ==> locks == old(locks)
    {
      if key in locks && now < locks[key].expiresAt {
        return None;
      }
      locks := locks[key := Lock(token, now + LOCK_TTL)];
      acquired := Some(token);
    }

    /** Whatever the timing, only a lock with this token is deleted. */
    method ReleaseLock(key: string, token: string)
      modifies this
      ensures locks == Released(old(locks), key, token)
      ensures forall k | k in old(locks) && old(locks)[k].token != token :: k in locks && locks[k] == old(locks)[k]
      ensures key in locks ==> locks[key].token != token
    {
      if key in locks && locks[key].token == token {
        locks := locks - {key};
      }
    }
  }

  /** What a caller sees: 409 while another request holds the key, else an
      answer. */
  datatype Reply = Busy | Reply(answer: Answer)

  /** The events table and the keyed path of `create`, run without interruption. */
  class EventService {
    var events: seq<Event>

    constructor ()
      ensures events == []
    {
      events := [];
    }

    method FindByIdempotencyKey(app: string, key: string, now: int) returns (found: Option<Event>)
      ensures found.Some? <==>
                exists e :: e in events && e.app == app && e.key == key && now < e.createdAt + 3_600_000
      ensures found.Some? ==>
                && found.value in events && found.value.app == app && found.value.key == key
                && now < found.value.createdAt + 3_600_000
    {
      if exists i :: 0 <= i < |events| && Recent(events[i], app, key, now) {
        var i :| 0 <= i < |events| && Recent(events[i], app, key, now);
        assert events[i] in events && Recent(events[i], app, key, now);
        return Some(events[i]);
      }
      found := None;
    }

    /** The lock is free again afterwards unless another request has it, and an
        event is inserted only when the key was not used within the hour. The insert
        is followed by a fetch of the new row; when that fails the event is there and
        the answer is an error. */
    method CreateKeyed(
      locks: LockStore, app: string, key: string, hash: Hash, token: string,
      lookupFails: bool, insertFails: bool, fetchFails: bool, now: int)
      returns (r: Reply)
      modifies this, locks
      ensures r == Busy <==> key in old(locks.locks) && now < old(locks.locks)[key].expiresAt
      ensures locks.locks == if r == Busy then old(locks.locks) else old(locks.locks) - {key}
      ensures r.Reply? ==>
                match r.answer
                case Created(e) =>
                  e == Event(app, key, hash, now) && events == old(events) + [e] && !insertFails && !fetchFails
                case Replayed(e) =>
                  e in old(events) && e.app == app && e.key == key && now < e.createdAt + 3_600_000 && e.hash == hash
                case BodyConflict =>
                  exists e :: && e in old(events) && e.app == app && e.key == key
                              && now < e.createdAt + 3_600_000 && e.hash != hash
                case Errored =>
                  && (lookupFails || insertFails || fetchFails)
                  && events
                     == if lookupFails || insertFails then old(events) else old(events) + [Event(app, key, hash, now)]
      ensures r.Reply? && lookupFails ==> r.answer == Errored
      ensures r.Reply? && !lookupFails && (r.answer.Created? || r.answer.Errored?) ==>
                forall e | e in old(events) && e.app == app && e.key == key :: e.createdAt + 3_600_000 <= now
      ensures r == Busy || (r.Reply? && (r.answer.Replayed? || r.answer.BodyConflict?)) ==> events == old(events)
    {
      var acquired := locks.AcquireLock(key, token, now);
      if acquired.None? {
        return Busy;
      }
      if lookupFails {
        locks.ReleaseLock(key, acquired.value);
        return Reply(Errored);
      }
      var found := FindByIdempotencyKey(app, key, now);
      if found.Some? {
        r := Reply(if found.value.hash == hash then Replayed(found.value) else BodyConflict);
      } else if insertFails {
        r := Reply(Errored);
      } else {
        var e := Event(app, key, hash, now);
        events := events + [e];
        r := Reply(if fetchFails then Errored else Created(e));
      }
      locks.ReleaseLock(key, acquired.value);
    }
  }

  // --- What every step keeps ---

  ghost predicate Holds(s: State, r: Request) {
    && r.token in s.tokens && r.key in s.locks
    && s.locks[r.key] == Lock(r.token, r.acquiredAt + LOCK_TTL) && s.now < r.acquiredAt + LOCK_TTL
  }

  /** The request's key is clear: nothing was created for it in the last hour. */
  ghost predicate Clear(s: State, r: Request) {
    forall i | 0 <= i < |s.events| && s.events[i].app == r.app && s.events[i].key == r.key ::
      s.events[i].createdAt + HOUR <= s.now
  }

  ghost predicate Spaced(events: seq<Event>) {
    forall i, j | 0 <= i < j < |events| && events[i].app == events[j].app && events[i].key == events[j].key ::
      events[i].createdAt + HOUR <= events[j].createdAt
  }

  ghost predicate Inv(s: State) {
    && Spaced(s.events)
    && (forall i | 0 <= i < |s.events| :: s.events[i].createdAt <= s.now)
    && (forall r | r in s.requests :: Holds(s, s.requests[r]))
    && (forall r | r in s.requests && s.requests[r].phase.FoundNone? :: Clear(s, s.requests[r]))
    && (forall q, r | q in s.requests && r in s.requests && q != r :: s.requests[q].token != s.requests[r].token)
    && (forall k | k in s.locks :: s.locks[k].token in s.tokens)
  }

  lemma StepKeepsLocks(s: State, step: Step)
    requires Inv(s) && Enabled(s, step)
    ensures var s' := Next(s, step);
            && (forall r | r in s'.requests :: Holds(s', s'.requests[r]))
            && (forall q, r | q in s'.requests && r in s'.requests && q != r ::
                  s'.requests[q].token != s'.requests[r].token)
            && (forall k | k in s'.locks :: s'.locks[k].token in s'.tokens)
  {
    var s' := Next(s, step);
    forall r | r in s'.requests
      ensures Holds(s', s'.requests[r])
    {
      if r in s.requests {
        assert Holds(s, s.requests[r]);
        if step.Release? {
          assert Holds(s, s.requests[step.req]);
        }
      }
    }
  }

  lemma StepKeepsClear(s: State, step: Step)
    requires Inv(s) && Enabled(s, step)
    ensures var s' := Next(s, step);
            forall r | r in s'.requests && s'.requests[r].phase.FoundNone? :: Clear(s', s'.requests[r])
  {
  }

  lemma StepKeepsSpacing(s: State, step: Step)
    requires Inv(s) && Enabled(s, step)
    ensures Spaced(Next(s, step).events)
    ensures forall i | 0 <= i < |Next(s, step).events| :: Next(s, step).events[i].createdAt <= Next(s, step).now
  {
  }

  lemma {:induction false} RunKeepsInv(s: State, steps: seq<Step>)
    requires Inv(s) && Legal(s, steps)
    ensures Inv(Exec(s, steps))
    decreases steps
  {
    if steps == [] {
    } else {
      StepKeepsLocks(s, steps[0]);
      StepKeepsClear(s, steps[0]);
      StepKeepsSpacing(s, steps[0]);
      RunKeepsInv(Next(s, steps[0]), steps[1..]);
    }
  }

  /** In every interleaving, at most one request works on a key at a time. */
  lemma OneRequestPerKey(steps: seq<Step>, q: nat, r: nat)
    requires Legal(INIT, steps) && q in Exec(INIT, steps).requests && r in Exec(INIT, steps).requests
    requires Exec(INIT, steps).requests[q].key == Exec(INIT, steps).requests[r].key
    ensures q == r
  {
    RunKeepsInv(INIT, steps);
    var s := Exec(INIT, steps);
    assert Holds(s, s.requests[q]) && Holds(s, s.requests[r]);
  }

  /** A request that releases leaves its key free for the next one, and no other. */
  lemma ReleaseFreesItsKey(steps: seq<Step>, req: nat, key: string)
    requires Legal(INIT, steps) && Enabled(Exec(INIT, steps), Release(req))
    ensures var s := Exec(INIT, steps);
            LockFree(Next(s, Release(req)).locks, key, s.now) <==>
            key == s.requests[req].key || LockFree(s.locks, key, s.now)
  {
    RunKeepsInv(INIT, steps);
    assert Holds(Exec(INIT, steps), Exec(INIT, steps).requests[req]);
  }

  /** In every interleaving, two events with the same application and key are
      created at least one hour apart. */
  lemma CreationsAreAnHourApart(steps: seq<Step>, i: nat, j: nat)
    requires Legal(INIT, steps) && i < j < |Exec(INIT, steps).events|
    requires var es := Exec(INIT, steps).events; es[i].app == es[j].app && es[i].key == es[j].key
    ensures var es := Exec(INIT, steps).events; es[i].createdAt + 3_600_000 <= es[j].createdAt
  {
    RunKeepsInv(INIT, steps);
  }

  /** A request that looks within the hour of a creation gets that event if its
      body is the same and a conflict if not; there is no other event it could
      have been given. */
  lemma LookupWithinTheHour(steps: seq<Step>, req: nat, found: Option<Event>, i: nat)
    requires Legal(INIT, steps) && Enabled(Exec(INIT, steps), Lookup(req, found))
    requires i < |Exec(INIT, steps).events|
    requires var s := Exec(INIT, steps);
             var r, e := s.requests[req], s.events[i];
             e.app == r.app && e.key == r.key && s.now < e.createdAt + 3_600_000
    ensures var s := Exec(INIT, steps);
            var r, e := s.requests[req], s.events[i];
            && found == Some(e)
            && Next(s, Lookup(req, found)).requests[req].phase
               == Answered(if e.hash == r.hash then Replayed(e) else BodyConflict)
  {
    RunKeepsInv(INIT, steps);
    var s := Exec(INIT, steps);
    var r := s.requests[req];
    if found.Some? {
      var j :| 0 <= j < |s.events| && s.events[j] == found.value;
      assert Recent(s.events[j], r.app, r.key, s.now) && s.events[i].createdAt <= s.now;
      assert s.events[j].createdAt <= s.now;
    }
  }

  /** An event was created for this application and key less than an hour ago. */
  ghost predicate UsedWithinTheHour(events: seq<Event>, app: string, key: string, now: int) {
    exists e :: e in events && e.app == app && e.key == key && now < e.createdAt + 3_600_000
  }

  /** Over every run: a lookup comes back with an event exactly when there is such a
      one. */
  lemma LookupFindsExactly(steps: seq<Step>, req: nat, found: Option<Event>)
    requires Legal(INIT, steps) && Enabled(Exec(INIT, steps), Lookup(req, found))
    ensures var s := Exec(INIT, steps);
            found.Some? <==> UsedWithinTheHour(s.events, s.requests[req].app, s.requests[req].key, s.now)
  {
    var s := Exec(INIT, steps);
    var r := s.requests[req];
    if found.Some? {
      assert found.value in s.events && Recent(found.value, r.app, r.key, s.now);
    } else {
      assert forall i | 0 <= i < |s.events| :: !Recent(s.events[i], r.app, r.key, s.now);
    }
  }

  /** What an answer says about the events, for a request that took its lock at
      `acquiredAt`: a creation is stored with the request's own body, a replay is of
      a stored event with the same body, a conflict is with one whose body differs,
      and neither of the two was an hour old when the lock was taken. */
  ghost predicate AnswerIsRight(events: seq<Event>, r: Request, answer: Answer) {
    match answer
    case Created(e) => e in events && e == Event(r.app, r.key, r.hash, e.createdAt) && r.acquiredAt <= e.createdAt
    case Replayed(e) => IsEarlier(events, r, e) && e.hash == r.hash
    case BodyConflict => exists e :: IsEarlier(events, r, e) && e.hash != r.hash
    case Errored => true
  }

  ghost predicate IsEarlier(events: seq<Event>, r: Request, e: Event) {
    e in events && e.app == r.app && e.key == r.key && r.acquiredAt < e.createdAt + 3_600_000
  }

  ghost predicate AllAnswersRight(s: State) {
    forall r | r in s.requests ::
      && s.requests[r].acquiredAt <= s.now
      && (s.requests[r].phase.Answered? ==> AnswerIsRight(s.events, s.requests[r], s.requests[r].phase.answer))
  }

  lemma AnswerStaysRight(events: seq<Event>, e: Event, r: Request, answer: Answer)
    requires AnswerIsRight(events, r, answer)
    ensures AnswerIsRight(events + [e], r, answer)
  {
    if answer.BodyConflict? {
      var x :| IsEarlier(events, r, x) && x.hash != r.hash;
      assert IsEarlier(events + [e], r, x);
    }
  }

  lemma LookupAnswersRight(s: State, req: nat, found: Option<Event>)
    requires Enabled(s, Lookup(req, found)) && found.Some? && s.requests[req].acquiredAt <= s.now
    ensures AnswerIsRight(s.events, s.requests[req], OnFound(s.requests[req], found.value))
  {
    assert IsEarlier(s.events, s.requests[req], found.value);
  }

  lemma StepKeepsAnswers(s: State, step: Step)
    requires AllAnswersRight(s) && Enabled(s, step)
    ensures AllAnswersRight(Next(s, step))
  {
    var s' := Next(s, step);
    forall r | r in s'.requests && s'.requests[r].phase.Answered?
      ensures AnswerIsRight(s'.events, s'.requests[r], s'.requests[r].phase.answer)
    {
      if r in s.requests && s.requests[r].phase.Answered? && s'.events != s.events {
        AnswerStaysRight(s.events, s'.events[|s.events|], s.requests[r], s.requests[r].phase.answer);
      }
      if step.Lookup? && step.req == r {
        LookupAnswersRight(s, r, step.found);
      }
    }
  }

  lemma {:induction false} RunKeepsAnswers(s: State, steps: seq<Step>)
    requires AllAnswersRight(s) && Legal(s, steps)
    ensures AllAnswersRight(Exec(s, steps))
    decreases steps
  {
    if steps == [] {
    } else {
      StepKeepsAnswers(s, steps[0]);
      RunKeepsAnswers(Next(s, steps[0]), steps[1..]);
    }
  }

  /** In every interleaving, every answer a request has is right. */
  lemma AnswersAreRight(steps: seq<Step>, req: nat)
    requires Legal(INIT, steps) && req in Exec(INIT, steps).requests
    ensures var s := Exec(INIT, steps);
            s.requests[req].phase.Answered? ==>
              AnswerIsRight(s.events, s.requests[req], s.requests[req].phase.answer)
  {
    RunKeepsAnswers(INIT, steps);
  }
}
