/** The circuit breaker of one endpoint (src/worker/circuitbreaker.rs, used by
    src/worker/consumer.rs): a failure counter that expires one window after its
    first failure, and an "open" key that expires after the cooldown.

    A worker that trips the counter opens the circuit in a later step, so the
    two interleave with other workers' failures and successes. */
module CircuitBreaker {
  import opened Wrappers
  import opened Redis

  /** threshold failures, window and cooldown in milliseconds. */
  datatype Config = Config(threshold: nat, window: nat, cooldown: nat)

  datatype Event =
    | Failure(at: int, tripped: bool)
    | Opened(at: int, trip: nat)  // by the worker whose failure is log[trip]
    | Reset(at: int)

  /** `since` is where in the log the present counter began. */
  datatype Counter = Counter(count: nat, expiresAt: int, since: nat)

  datatype State = State(fail: Option<Counter>, openUntil: Option<int>, log: seq<Event>)

  const INIT := State(None, None, [])

  datatype Step = Fail(now: int) | Open(now: int, trip: nat) | Succeed(now: int)

  /** INCR, with EXPIRE on the first. */
  function Counted(c: Config, s: State, now: int): Counter {
    if s.fail.Some? && now < s.fail.value.expiresAt
    then s.fail.value.(count := s.fail.value.count + 1)
    else Counter(1, now + c.window, |s.log|)
  }

  predicate Trips(c: Config, s: State, now: int) {
    Counted(c, s, now).count >= c.threshold
  }

  /** Time moves on, and only a tripped failure opens the circuit. */
  predicate Enabled(s: State, step: Step) {
    && (s.log != [] ==> s.log[|s.log| - 1].at <= step.now)
    && (step.Open? ==> step.trip < |s.log| && s.log[step.trip].Failure? && s.log[step.trip].tripped)
  }

  function Next(c: Config, s: State, step: Step): State {
    match step
    case Fail(now) =>
      State(Some(Counted(c, s, now)), s.openUntil, s.log + [Failure(now, Trips(c, s, now))])
    case Open(now, trip) => State(s.fail, Some(now + c.cooldown), s.log + [Opened(now, trip)])
    case Succeed(now) => State(None, None, s.log + [Reset(now)])
  }

  predicate Legal(c: Config, s: State, steps: seq<Step>)
    decreases steps
  {
    steps == [] || (Enabled(s, steps[0]) && Legal(c, Next(c, s, steps[0]), steps[1..]))
  }

  function Exec(c: Config, s: State, steps: seq<Step>): State
    decreases steps
  {
    if steps == [] then s else Exec(c, Next(c, s, steps[0]), steps[1..])
  }

  /** The breaker's two keys. */
  class Breaker {
    const c: Config
    var fail: Option<Key<nat>>
    var openUntil: Option<int>
    ghost var since: nat
    ghost var log: seq<Event>

    ghost function View(): State
      reads this
    {
      State(if fail.Some? then Some(Counter(fail.value.value, fail.value.expiresAt, since)) else None, openUntil, log)
    }

    ghost predicate Ok()
      reads this
    {
      fail.Some? ==> fail.value.value >= 1
    }

    constructor (c: Config)
      ensures Ok() && this.c == c && View() == INIT
    {
      this.c := c;
      fail, openUntil, since, log := None, None, 0, [];
    }

    method RecordFailure(now: int) returns (tripped: bool)
      requires Ok()
      modifies this
      ensures Ok() && View() == Next(c, old(View()), Fail(now))
      ensures tripped == Trips(c, old(View()), now)
    {
      var live := fail.Some? && now < fail.value.expiresAt;
      var count := if live then fail.value.value + 1 else 1;
      fail := Some(Key(count, if live then fail.value.expiresAt else now));
      if count == 1 {
        fail := Some(Key(count, now + c.window));
        since := |log|;
      }
      tripped := count >= c.threshold;
      log := log + [Failure(now, tripped)];
    }

    method OpenCircuit(now: int, ghost trip: nat)
      requires Ok()
      modifies this
      ensures Ok() && View() == Next(c, old(View()), Open(now, trip))
      ensures openUntil == Some(now + c.cooldown) && fail == old(fail)
    {
      openUntil := Some(now + c.cooldown);
      log := log + [Opened(now, trip)];
    }

    method ResetCircuit(now: int)
      modifies this
      ensures Ok() && View() == Next(c, old(View()), Succeed(now))
      ensures openUntil == None && fail == None
    {
      openUntil := None;
      fail := None;
      log := log + [Reset(now)];
    }

    method OpenRemainingSecs(now: int) returns (r: Option<nat>)
      ensures r.Some? <==> ReadsOpen(View(), now)
      ensures r.Some? <==> openUntil.Some? && now + 500 <= openUntil.value
      ensures r.Some? ==> r.value == (openUntil.value - now + 500) / 1000
    {
      if openUntil.Some? && TtlSecs(openUntil.value, now) > 0 {
        return Some(TtlSecs(openUntil.value, now));
      }
      r := None;
    }
  }

  predicate ReadsOpen(s: State, now: int) {
    s.openUntil.Some? && TtlSecs(s.openUntil.value, now) > 0
  }

  // --- Soundness ---

  function Failures(log: seq<Event>): nat {
    if log == [] then 0
    else Failures(log[..|log| - 1]) + if log[|log| - 1].Failure? then 1 else 0
  }

  predicate NoReset(log: seq<Event>) {
    forall i | 0 <= i < |log| :: !log[i].Reset?
  }

  /** `trip` ends a stretch of the log, starting at `from`, with `threshold`
      failures, no reset, and less than one window long. */
  ghost predicate JustifiedFrom(c: Config, log: seq<Event>, trip: nat, from: nat)
    requires trip < |log|
  {
    && from <= trip && log[trip].at - log[from].at < c.window
    && NoReset(log[from..trip + 1]) && Failures(log[from..trip + 1]) >= c.threshold
  }

  ghost predicate Justified(c: Config, log: seq<Event>, trip: nat)
    requires trip < |log|
  {
    exists from: nat :: JustifiedFrom(c, log, trip, from)
  }

  ghost predicate CounterOk(c: Config, s: State) {
    s.fail.Some? ==>
      var f := s.fail.value;
      && f.since < |s.log| && f.expiresAt == s.log[f.since].at + c.window
      && NoReset(s.log[f.since..]) && f.count == Failures(s.log[f.since..]) && f.count >= 1
  }

  /** The circuit is open until `until` because of log[i], which some trip caused. */
  ghost predicate OpenedBy(c: Config, log: seq<Event>, i: nat, until: int) {
    && i < |log| && log[i].Opened? && log[i].at + c.cooldown == until
    && log[i].trip < i && log[log[i].trip].Failure? && log[log[i].trip].tripped
    && NoReset(log[i..])
  }

  ghost predicate TripsOk(c: Config, log: seq<Event>) {
    forall i | 0 <= i < |log| && log[i].Failure? && log[i].tripped :: Justified(c, log, i)
  }

  ghost predicate Inv(c: Config, s: State) {
    && CounterOk(c, s) && TripsOk(c, s.log)
    && (s.openUntil.Some? ==> exists i :: OpenedBy(c, s.log, i, s.openUntil.value))
  }

  lemma SuffixGrows(log: seq<Event>, e: Event, from: nat)
    requires from <= |log|
    ensures (log + [e])[from..] == log[from..] + [e]
    ensures Failures((log + [e])[from..]) == Failures(log[from..]) + if e.Failure? then 1 else 0
    ensures !e.Reset? && NoReset(log[from..]) ==> NoReset((log + [e])[from..])
  {
    var longer := log[from..] + [e];
    assert (log + [e])[from..] == longer;
    assert longer[..|longer| - 1] == log[from..];
  }

  lemma StepKeepsCounter(c: Config, s: State, step: Step)
    requires CounterOk(c, s) && Enabled(s, step)
    ensures CounterOk(c, Next(c, s, step))
  {
    var s' := Next(c, s, step);
    var e := s'.log[|s.log|];
    if s'.fail.Some? {
      if s'.fail.value.since == |s.log| {
        SuffixGrows(s.log, e, |s.log|);
        assert s.log[|s.log|..] == [];
      } else {
        SuffixGrows(s.log, e, s.fail.value.since);
      }
    }
  }

  lemma OldTripsStay(c: Config, log: seq<Event>, e: Event, trip: nat)
    requires trip < |log| && Justified(c, log, trip)
    ensures Justified(c, log + [e], trip)
  {
    var from: nat :| JustifiedFrom(c, log, trip, from);
    assert (log + [e])[from..trip + 1] == log[from..trip + 1];
    assert JustifiedFrom(c, log + [e], trip, from);
  }

  /** A failure that trips ends the stretch its counter has counted. */
  lemma NewTripIsJustified(c: Config, s: State, now: int)
    requires c.window >= 1 && CounterOk(c, s) && Enabled(s, Fail(now)) && Trips(c, s, now)
    ensures JustifiedFrom(c, Next(c, s, Fail(now)).log, |s.log|, Counted(c, s, now).since)
  {
    var log, from := Next(c, s, Fail(now)).log, Counted(c, s, now).since;
    StepKeepsCounter(c, s, Fail(now));
    assert log[from..|s.log| + 1] == log[from..];
  }

  lemma StepKeepsTrips(c: Config, s: State, step: Step)
    requires c.window >= 1 && CounterOk(c, s) && TripsOk(c, s.log) && Enabled(s, step)
    ensures TripsOk(c, Next(c, s, step).log)
  {
    var s' := Next(c, s, step);
    var e := s'.log[|s.log|];
    assert s'.log == s.log + [e];
    forall i | 0 <= i < |s'.log| && s'.log[i].Failure? && s'.log[i].tripped
      ensures Justified(c, s'.log, i)
    {
      if i < |s.log| {
        OldTripsStay(c, s.log, e, i);
      } else {
        NewTripIsJustified(c, s, step.now);
      }
    }
  }

  lemma StepKeepsOpen(c: Config, s: State, step: Step)
    requires Inv(c, s) && Enabled(s, step)
    ensures var s' := Next(c, s, step);
            s'.openUntil.Some? ==> exists i :: OpenedBy(c, s'.log, i, s'.openUntil.value)
  {
    var s' := Next(c, s, step);
    var e := s'.log[|s.log|];
    match step
    case Open(now, trip) =>
      assert s'.log[|s.log|..] == [e];
      assert OpenedBy(c, s'.log, |s.log|, s'.openUntil.value);
    case Fail(now) =>
      if s.openUntil.Some? {
        var i: nat :| OpenedBy(c, s.log, i, s.openUntil.value);
        SuffixGrows(s.log, e, i);
        assert OpenedBy(c, s'.log, i, s.openUntil.value);
      }
    case Succeed(now) =>
  }

  lemma {:induction false} RunKeepsInv(c: Config, s: State, steps: seq<Step>)
    requires c.window >= 1 && Inv(c, s) && Legal(c, s, steps)
    ensures Inv(c, Exec(c, s, steps))
    decreases steps
  {
    if steps == [] {
    } else {
      StepKeepsCounter(c, s, steps[0]);
      StepKeepsTrips(c, s, steps[0]);
      StepKeepsOpen(c, s, steps[0]);
      RunKeepsInv(c, Next(c, s, steps[0]), steps[1..]);
    }
  }

  /** Every trip in every run ends `threshold` failures that lie within one
      window with no reset among them. */
  lemma TripsAreJustified(c: Config, steps: seq<Step>, trip: nat)
    requires c.window >= 1 && Legal(c, INIT, steps) && trip < |Exec(c, INIT, steps).log|
    requires Exec(c, INIT, steps).log[trip].Failure? && Exec(c, INIT, steps).log[trip].tripped
    ensures Justified(c, Exec(c, INIT, steps).log, trip)
  {
    RunKeepsInv(c, INIT, steps);
  }

  /** An open reading means a justified trip opened the circuit less than one
      cooldown ago, and no success has come in since. */
  lemma OpenMeansRecentTrip(c: Config, steps: seq<Step>, now: int) returns (cause: nat)
    requires c.window >= 1 && Legal(c, INIT, steps) && ReadsOpen(Exec(c, INIT, steps), now)
    ensures var log := Exec(c, INIT, steps).log;
            && cause < |log| && log[cause].Opened? && now - log[cause].at < c.cooldown
            && log[cause].trip < cause && Justified(c, log, log[cause].trip)
            && NoReset(log[cause..])
  {
    RunKeepsInv(c, INIT, steps);
    var s := Exec(c, INIT, steps);
    cause :| OpenedBy(c, s.log, cause, s.openUntil.value);
  }

  /** When the circuit was last opened and not closed since, by the log. */
  function LastOpened(log: seq<Event>): Option<int> {
    if log == [] then None else
    match log[|log| - 1]
    case Opened(at, _) => Some(at)
    case Reset(_) => None
    case Failure(_, _) => LastOpened(log[..|log| - 1])
  }

  ghost predicate OpenAsLogged(c: Config, s: State) {
    s.openUntil == match LastOpened(s.log) case Some(at) => Some(at + c.cooldown) case None => None
  }

  /** Times in the log do not go back. */
  ghost predicate InTime(log: seq<Event>) {
    forall i, j | 0 <= i < j < |log| :: log[i].at <= log[j].at
  }

  lemma StepKeepsOpenAsLogged(c: Config, s: State, step: Step)
    requires OpenAsLogged(c, s) && InTime(s.log) && Enabled(s, step)
    ensures OpenAsLogged(c, Next(c, s, step)) && InTime(Next(c, s, step).log)
  {
    var s' := Next(c, s, step);
    assert s'.log[..|s.log|] == s.log;
  }

  lemma {:induction false} RunKeepsOpenAsLogged(c: Config, s: State, steps: seq<Step>)
    requires OpenAsLogged(c, s) && InTime(s.log) && Legal(c, s, steps)
    ensures OpenAsLogged(c, Exec(c, s, steps)) && InTime(Exec(c, s, steps).log)
    decreases steps
  {
    if steps == [] {
    } else {
      StepKeepsOpenAsLogged(c, s, steps[0]);
      RunKeepsOpenAsLogged(c, Next(c, s, steps[0]), steps[1..]);
    }
  }

  /** log[i] opened the circuit, and no success has come in since. */
  ghost predicate OpenedAndNotReset(log: seq<Event>, i: int) {
    0 <= i < |log| && log[i].Opened? && forall j | i < j < |log| :: !log[j].Reset?
  }

  lemma {:induction false} LastOpenedIsLatest(log: seq<Event>)
    requires InTime(log)
    ensures LastOpened(log).Some? <==> exists i :: OpenedAndNotReset(log, i)
    ensures LastOpened(log).Some? ==> exists i :: OpenedAndNotReset(log, i) && log[i].at == LastOpened(log).value
    ensures forall i | OpenedAndNotReset(log, i) :: log[i].at <= LastOpened(log).value
  {
    if log == [] {
    } else {
      var n := |log| - 1;
      var front := log[..n];
      LastOpenedIsLatest(front);
      assert forall i | 0 <= i < n :: front[i] == log[i];
      if log[n].Opened? {
        assert OpenedAndNotReset(log, n);
      } else if log[n].Failure? {
        assert forall i :: OpenedAndNotReset(log, i) <==> OpenedAndNotReset(front, i);
      }
    }
  }

  /** The circuit reads open exactly when it was opened, no success has come in
      since, and the cooldown has half a second or more to run (the key's time to
      live is rounded to seconds). */
  lemma ReadsOpenExactly(c: Config, steps: seq<Step>, now: int)
    requires Legal(c, INIT, steps)
    ensures var s := Exec(c, INIT, steps);
            ReadsOpen(s, now) <==>
            exists i :: && 0 <= i < |s.log| && s.log[i].Opened? && now + 500 <= s.log[i].at + c.cooldown
                        && forall j | i < j < |s.log| :: !s.log[j].Reset?
  {
    RunKeepsOpenAsLogged(c, INIT, steps);
    var s := Exec(c, INIT, steps);
    LastOpenedIsLatest(s.log);
    assert ReadsOpen(s, now) <==> s.openUntil.Some? && now + 500 <= s.openUntil.value;
    if ReadsOpen(s, now) {
      var i :| OpenedAndNotReset(s.log, i) && s.log[i].at == LastOpened(s.log).value;
    }
    if i :| && 0 <= i < |s.log| && s.log[i].Opened? && now + 500 <= s.log[i].at + c.cooldown
            && forall j | i < j < |s.log| :: !s.log[j].Reset?
    {
      assert OpenedAndNotReset(s.log, i);
    }
  }

  // --- Completeness, up to the expiry of the counter ---

  function FailSteps(steps: seq<Step>): nat {
    if steps == [] then 0 else (if steps[0].Fail? then 1 else 0) + FailSteps(steps[1..])
  }

  /** No step of the run trips. */
  predicate Quiet(c: Config, s: State, steps: seq<Step>)
    decreases steps
  {
    steps == [] || (!(steps[0].Fail? && Trips(c, s, steps[0].now)) && Quiet(c, Next(c, s, steps[0]), steps[1..]))
  }

  /** No success, and every step in [start, start + window). */
  predicate InWindow(c: Config, start: int, steps: seq<Step>) {
    forall i | 0 <= i < |steps| :: !steps[i].Succeed? && start <= steps[i].now < start + c.window
  }

  /** How many failures inside one window are sure to trip. */
  function Enough(threshold: nat): nat {
    if threshold <= 2 then threshold else 2 * threshold - 2
  }

  /** Once the counter began inside the window it outlives it. */
  lemma {:induction false} QuietAfterStart(c: Config, s: State, steps: seq<Step>, start: int)
    requires Quiet(c, s, steps) && InWindow(c, start, steps) && c.threshold >= 1
    requires s.fail.Some? && s.fail.value.expiresAt >= start + c.window && s.fail.value.count < c.threshold
    ensures FailSteps(steps) <= c.threshold - 1 - s.fail.value.count
    decreases steps
  {
    if steps == [] {
    } else {
      assert InWindow(c, start, steps[1..]) by {
        assert forall i | 0 <= i < |steps[1..]| :: steps[1..][i] == steps[i + 1];
      }
      QuietAfterStart(c, Next(c, s, steps[0]), steps[1..], start);
    }
  }

  /** A counter from before the window may expire once inside it. */
  lemma {:induction false} QuietFromOldCounter(c: Config, s: State, steps: seq<Step>, start: int)
    requires Quiet(c, s, steps) && InWindow(c, start, steps) && c.threshold >= 1
    requires s.fail.Some? && s.fail.value.count < c.threshold
    ensures FailSteps(steps) <= (c.threshold - 1 - s.fail.value.count) + (c.threshold - 1)
    decreases steps
  {
    if steps == [] {
    } else {
      assert InWindow(c, start, steps[1..]) by {
        assert forall i | 0 <= i < |steps[1..]| :: steps[1..][i] == steps[i + 1];
      }
      var s' := Next(c, s, steps[0]);
      if steps[0].Fail? && steps[0].now >= s.fail.value.expiresAt {
        QuietAfterStart(c, s', steps[1..], start);
      } else {
        QuietFromOldCounter(c, s', steps[1..], start);
      }
    }
  }

  lemma {:induction false} QuietFromNoCounter(c: Config, s: State, steps: seq<Step>, start: int)
    requires Quiet(c, s, steps) && InWindow(c, start, steps) && c.threshold >= 1 && s.fail.None?
    ensures FailSteps(steps) <= c.threshold - 1
    decreases steps
  {
    if steps == [] {
    } else {
      assert InWindow(c, start, steps[1..]) by {
        assert forall i | 0 <= i < |steps[1..]| :: steps[1..][i] == steps[i + 1];
      }
      var s' := Next(c, s, steps[0]);
      if steps[0].Fail? {
        QuietAfterStart(c, s', steps[1..], start);
      } else {
        QuietFromNoCounter(c, s', steps[1..], start);
      }
    }
  }

  /** From any reachable state, Enough(threshold) failures inside less than one
      window and with no success among them trip the breaker. */
  lemma EnoughFailuresTrip(c: Config, before: seq<Step>, steps: seq<Step>, start: int)
    requires Legal(c, INIT, before) && Legal(c, Exec(c, INIT, before), steps)
    requires c.threshold >= 1 && c.window >= 1 && InWindow(c, start, steps) && FailSteps(steps) >= Enough(c.threshold)
    ensures !Quiet(c, Exec(c, INIT, before), steps)
  {
    var s := Exec(c, INIT, before);
    RunKeepsInv(c, INIT, before);
    if Quiet(c, s, steps) {
      if s.fail.None? {
        QuietFromNoCounter(c, s, steps, start);
      } else if s.fail.value.count < c.threshold {
        QuietFromOldCounter(c, s, steps, start);
      } else {
        QuietFromFullCounter(c, s, steps, start);
      }
    }
  }

  /** A full counter trips on every failure until it expires. */
  lemma {:induction false} QuietFromFullCounter(c: Config, s: State, steps: seq<Step>, start: int)
    requires Quiet(c, s, steps) && InWindow(c, start, steps) && c.threshold >= 1
    requires s.fail.Some? && s.fail.value.count >= c.threshold
    ensures FailSteps(steps) <= c.threshold - 1
    decreases steps
  {
    if steps == [] {
    } else {
      assert InWindow(c, start, steps[1..]) by {
        assert forall i | 0 <= i < |steps[1..]| :: steps[1..][i] == steps[i + 1];
      }
      var s' := Next(c, s, steps[0]);
      if steps[0].Fail? {
        QuietAfterStart(c, s', steps[1..], start);
      } else {
        QuietFromFullCounter(c, s', steps[1..], start);
      }
    }
  }

  // --- That many are needed ---

  function Fails(n: nat, now: int): seq<Step> {
    seq(n, i => Fail(now))
  }

  lemma {:induction false} FailsCount(c: Config, s: State, n: nat, now: int)
    requires s.fail.Some? && now < s.fail.value.expiresAt && s.fail.value.count + n < c.threshold
    requires s.log != [] && s.log[|s.log| - 1].at <= now
    ensures var steps := Fails(n, now);
            && Legal(c, s, steps) && Quiet(c, s, steps) && FailSteps(steps) == n
            && Exec(c, s, steps).fail == Some(s.fail.value.(count := s.fail.value.count + n))
            && Exec(c, s, steps).log != [] && Exec(c, s, steps).log[|Exec(c, s, steps).log| - 1].at <= now
    decreases n
  {
    if n == 0 {
    } else {
      assert Fails(n, now)[1..] == Fails(n - 1, now);
      FailsCount(c, Next(c, s, Fail(now)), n - 1, now);
    }
  }

  lemma {:induction false} Joined(c: Config, s: State, a: seq<Step>, b: seq<Step>)
    requires Legal(c, s, a) && Legal(c, Exec(c, s, a), b) && Quiet(c, s, a) && Quiet(c, Exec(c, s, a), b)
    ensures Legal(c, s, a + b) && Quiet(c, s, a + b) && FailSteps(a + b) == FailSteps(a) + FailSteps(b)
    ensures Exec(c, s, a + b) == Exec(c, Exec(c, s, a), b)
    decreases a
  {
    if a == [] {
      assert a + b == b;
    } else {
      assert (a + b)[1..] == a[1..] + b;
      Joined(c, Next(c, s, a[0]), a[1..], b);
    }
  }

  /** One failure fewer need not trip, for any threshold from 3 on: the counter
      began just before the window and expires inside it. So `threshold` failures
      within one window length are guaranteed to trip only for thresholds up to 2. */
  lemma EnoughIsSharp(c: Config) returns (before: seq<Step>, steps: seq<Step>, start: int)
    requires c.threshold >= 3 && c.window >= 2
    ensures Legal(c, INIT, before) && Legal(c, Exec(c, INIT, before), steps)
    ensures InWindow(c, start, steps) && FailSteps(steps) == Enough(c.threshold) - 1 >= c.threshold
    ensures Quiet(c, Exec(c, INIT, before), steps)
  {
    before, start := [Fail(0)], c.window - 1;
    assert before[1..] == [];
    var s := Next(c, INIT, Fail(0));
    assert Exec(c, INIT, before) == s;
    var early, late := Fails(c.threshold - 2, start), [Fail(c.window)] + Fails(c.threshold - 2, c.window);
    FailsCount(c, s, c.threshold - 2, start);
    var mid := Exec(c, s, early);
    var reborn := Next(c, mid, Fail(c.window));
    FailsCount(c, reborn, c.threshold - 2, c.window);
    assert late[1..] == Fails(c.threshold - 2, c.window);
    Joined(c, s, early, late);
    steps := early + late;
  }
}
