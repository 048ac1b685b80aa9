/** The per-minute rate limiter (src/worker/ratelimit.rs): INCR on a counter
    keyed by endpoint and minute, rolled back when over the limit. */
module RateLimiter {
  import opened Wrappers
  import opened Redis

  type Endpoint = string

  const MINUTE: int := 60_000
  const COUNTER_TTL: int := 90_000

  function MinuteOf(now: int): int { now / MINUTE }

  datatype CounterKey = CounterKey(endpoint: Endpoint, minute: int)
  datatype Request = Request(endpoint: Endpoint, limit: nat, now: int)
  datatype Grant = Grant(endpoint: Endpoint, at: int)

  /** The counters, and a record of what was granted. */
  datatype State = State(counters: map<CounterKey, Key<nat>>, grants: seq<Grant>)

  const INIT := State(map[], [])

  function KeyOf(r: Request): CounterKey { CounterKey(r.endpoint, MinuteOf(r.now)) }

  function Stored(s: State, k: CounterKey, now: int): nat {
    if k in s.counters && now < s.counters[k].expiresAt then s.counters[k].value else 0
  }

  predicate Grants(s: State, r: Request) {
    Stored(s, KeyOf(r), r.now) < r.limit
  }

  /** What a call does, for a limit of at least one: a grant adds one, a denial
      changes nothing. */
  function Next(s: State, r: Request): State {
    if !Grants(s, r) then s else
    var k := KeyOf(r);
    var expiry := if Stored(s, k, r.now) == 0 then r.now + COUNTER_TTL else s.counters[k].expiresAt;
    State(s.counters[k := Key(Stored(s, k, r.now) + 1, expiry)], s.grants + [Grant(r.endpoint, r.now)])
  }

  function Exec(requests: seq<Request>): State {
    if requests == [] then INIT
    else Next(Exec(requests[..|requests| - 1]), requests[|requests| - 1])
  }

  /** Requests for `endpoint` all carry the same limit, and the clock does not
      run backwards. */
  predicate Steady(requests: seq<Request>, endpoint: Endpoint, limit: nat) {
    && (forall i | 0 <= i < |requests| && requests[i].endpoint == endpoint :: requests[i].limit == limit)
    && (forall i, j | 0 <= i < j < |requests| :: requests[i].now <= requests[j].now)
  }

  function Blocked(blocked: map<Endpoint, int>, endpoint: Endpoint, ttlSecs: nat, now: int): map<Endpoint, int> {
    if ttlSecs == 0 then blocked else blocked[endpoint := now + 1000 * ttlSecs]
  }

  /** The block key's remaining seconds; None when there is none. */
  function BlockedFor(blocked: map<Endpoint, int>, endpoint: Endpoint, now: int): Option<nat> {
    if endpoint in blocked && TtlSecs(blocked[endpoint], now) > 0 then Some(TtlSecs(blocked[endpoint], now)) else None
  }

  /** The limiter's Redis keys: the Lua script of try_acquire, step by step, and
      the block key a 429 sets. */
  class Limiter {
    var counters: map<CounterKey, Key<nat>>
    var blocked: map<Endpoint, int>
    ghost var grants: seq<Grant>

    ghost function View(): State
      reads this
    {
      State(counters, grants)
    }

    constructor ()
      ensures View() == INIT && blocked == map[]
    {
      counters, blocked, grants := map[], map[], [];
    }

    /** A limit below one denies everything, and no count changes. */
    method TryAcquire(endpoint: Endpoint, limit: int, now: int) returns (ok: bool)
      modifies this`counters, this`grants
      ensures ok ==>
                var k := CounterKey(endpoint, now / 60_000);
                var was := Stored(old(View()), k, now);
                && was < limit && grants == old(grants) + [Grant(endpoint, now)]
                && Stored(View(), k, now) == was + 1
                && (was == 0 ==> k in counters && counters[k].expiresAt == now + 90_000)
      ensures limit >= 1 ==>
                && ok == Grants(old(View()), Request(endpoint, limit, now))
                && View() == Next(old(View()), Request(endpoint, limit, now))
      ensures limit < 1 ==>
                && !ok && grants == old(grants)
                && forall k :: Stored(View(), k, now) == Stored(old(View()), k, now)
    {
      var key := CounterKey(endpoint, MinuteOf(now));
      var live := key in counters && now < counters[key].expiresAt;
      var count := if live then counters[key].value + 1 else 1;
      var expiry := if live then counters[key].expiresAt else now;
      if count == 1 {
        expiry := now + COUNTER_TTL;
      }
      if count > limit {
        count := count - 1;
        counters := counters[key := Key(count, expiry)];
        assert limit >= 1 ==> counters == old(counters);
        return false;
      }
      counters := counters[key := Key(count, expiry)];
      grants := grants + [Grant(endpoint, now)];
      ok := true;
    }

    /** Redis refuses an expiry of zero seconds. */
    method SetBlocked(endpoint: Endpoint, ttlSecs: nat, now: int)
      modifies this`blocked
      ensures blocked == Blocked(old(blocked), endpoint, ttlSecs, now)
      ensures ttlSecs == 0 ==> blocked == old(blocked)
      ensures ttlSecs > 0 ==> endpoint in blocked && blocked[endpoint] == now + 1000 * ttlSecs
      ensures forall e | e != endpoint :: e in blocked <==> e in old(blocked)
      ensures forall e | e != endpoint && e in blocked :: blocked[e] == old(blocked)[e]
    {
      if ttlSecs > 0 {
        blocked := blocked[endpoint := now + 1000 * ttlSecs];
      }
    }

    method BlockedRemainingSecs(endpoint: Endpoint, now: int) returns (r: Option<nat>)
      ensures r == BlockedFor(blocked, endpoint, now)
      ensures r.Some? <==> endpoint in blocked && now + 500 <= blocked[endpoint]
      ensures r.Some? ==> r.value == (blocked[endpoint] - now + 500) / 1000
    {
      if endpoint in blocked && TtlSecs(blocked[endpoint], now) > 0 {
        return Some(TtlSecs(blocked[endpoint], now));
      }
      r := None;
    }
  }

  // --- Exactness ---

  /** Grants in the minute that begins at 60_000 * minute. */
  function GrantsIn(grants: seq<Grant>, endpoint: Endpoint, minute: int): nat {
    if grants == [] then 0 else
    var last := grants[|grants| - 1];
    GrantsIn(grants[..|grants| - 1], endpoint, minute)
    + if last.endpoint == endpoint && last.at / 60_000 == minute then 1 else 0
  }

  /** The counter of a minute lives at least to the end of that minute, and it
      counts that minute's grants. */
  ghost predicate Inv(s: State, endpoint: Endpoint, limit: nat) {
    && (forall k | k in s.counters ::
          (k.minute + 1) * MINUTE <= s.counters[k].expiresAt && s.counters[k].value >= 1)
    && (forall m :: GrantsIn(s.grants, endpoint, m)
                    == if CounterKey(endpoint, m) in s.counters then s.counters[CounterKey(endpoint, m)].value else 0)
    && (forall m :: GrantsIn(s.grants, endpoint, m) <= limit)
  }

  lemma GrantsInSnoc(grants: seq<Grant>, g: Grant, endpoint: Endpoint, minute: int)
    ensures GrantsIn(grants + [g], endpoint, minute)
         == GrantsIn(grants, endpoint, minute) + if g.endpoint == endpoint && g.at / 60_000 == minute then 1 else 0
  {
    assert (grants + [g])[..|grants|] == grants;
  }

  /** A counter is alive whenever its own minute looks at it. */
  lemma CounterIsLive(s: State, endpoint: Endpoint, limit: nat, now: int)
    requires Inv(s, endpoint, limit)
    ensures Stored(s, CounterKey(endpoint, MinuteOf(now)), now) == GrantsIn(s.grants, endpoint, MinuteOf(now))
  {
    var k := CounterKey(endpoint, MinuteOf(now));
    assert now < (k.minute + 1) * MINUTE;
    assert k in s.counters ==> (k.minute + 1) * MINUTE <= s.counters[k].expiresAt;
  }

  lemma GrantKeepsInv(s: State, r: Request, endpoint: Endpoint, limit: nat, m: int)
    requires Inv(s, endpoint, limit) && (r.endpoint == endpoint ==> r.limit == limit) && Grants(s, r)
    ensures var s', k := Next(s, r), CounterKey(endpoint, m);
            && GrantsIn(s'.grants, endpoint, m) == (if k in s'.counters then s'.counters[k].value else 0)
            && GrantsIn(s'.grants, endpoint, m) <= limit
  {
    GrantsInSnoc(s.grants, Grant(r.endpoint, r.now), endpoint, m);
    assert GrantsIn(s.grants, endpoint, m) <= limit;
    if KeyOf(r) == CounterKey(endpoint, m) {
      CounterIsLive(s, endpoint, limit, r.now);
    }
  }

  lemma StepKeepsInv(s: State, r: Request, endpoint: Endpoint, limit: nat)
    requires Inv(s, endpoint, limit) && (r.endpoint == endpoint ==> r.limit == limit)
    ensures Inv(Next(s, r), endpoint, limit)
    ensures Stored(s, CounterKey(endpoint, MinuteOf(r.now)), r.now) == GrantsIn(s.grants, endpoint, MinuteOf(r.now))
  {
    CounterIsLive(s, endpoint, limit, r.now);
    if Grants(s, r) {
      forall m
        ensures var s', k := Next(s, r), CounterKey(endpoint, m);
                && GrantsIn(s'.grants, endpoint, m) == (if k in s'.counters then s'.counters[k].value else 0)
                && GrantsIn(s'.grants, endpoint, m) <= limit
      {
        GrantKeepsInv(s, r, endpoint, limit, m);
      }
    }
  }

  lemma {:induction false} RunKeepsInv(requests: seq<Request>, endpoint: Endpoint, limit: nat)
    requires Steady(requests, endpoint, limit)
    ensures Inv(Exec(requests), endpoint, limit)
  {
    if requests == [] {
    } else {
      var last := |requests| - 1;
      RunKeepsInv(requests[..last], endpoint, limit);
      StepKeepsInv(Exec(requests[..last]), requests[last], endpoint, limit);
    }
  }

  /** After any run: the counter a request looks at holds exactly the grants of
      its minute, no minute exceeds the limit, and the request is denied exactly
      when its minute's limit is used up. */
  lemma LimiterIsExact(requests: seq<Request>, endpoint: Endpoint, limit: nat, now: int)
    requires limit >= 1 && Steady(requests, endpoint, limit)
    ensures var s, m := Exec(requests), now / 60_000;
            && Stored(s, CounterKey(endpoint, m), now) == GrantsIn(s.grants, endpoint, m) <= limit
            && (!Grants(s, Request(endpoint, limit, now)) <==> GrantsIn(s.grants, endpoint, m) == limit)
  {
    RunKeepsInv(requests, endpoint, limit);
    StepKeepsInv(Exec(requests), Request(endpoint, limit, now), endpoint, limit);
    assert GrantsIn(Exec(requests).grants, endpoint, MinuteOf(now)) <= limit;
  }

  // --- Any sixty seconds ---

  /** Grants in the sixty seconds from `from` on. */
  function GrantsBetween(grants: seq<Grant>, endpoint: Endpoint, from: int): nat {
    if grants == [] then 0 else
    var last := grants[|grants| - 1];
    GrantsBetween(grants[..|grants| - 1], endpoint, from)
    + if last.endpoint == endpoint && from <= last.at < from + 60_000 then 1 else 0
  }

  lemma {:induction false} WindowMeetsTwoMinutes(grants: seq<Grant>, endpoint: Endpoint, from: int)
    ensures GrantsBetween(grants, endpoint, from)
         <= GrantsIn(grants, endpoint, MinuteOf(from)) + GrantsIn(grants, endpoint, MinuteOf(from) + 1)
  {
    if grants == [] {
    } else {
      WindowMeetsTwoMinutes(grants[..|grants| - 1], endpoint, from);
    }
  }

  /** Any sixty seconds, aligned or not, hold at most twice the limit. */
  lemma WindowHoldsTwiceTheLimit(requests: seq<Request>, endpoint: Endpoint, limit: nat, from: int)
    requires Steady(requests, endpoint, limit)
    ensures GrantsBetween(Exec(requests).grants, endpoint, from) <= 2 * limit
  {
    RunKeepsInv(requests, endpoint, limit);
    var g := Exec(requests).grants;
    WindowMeetsTwoMinutes(g, endpoint, from);
    assert GrantsIn(g, endpoint, MinuteOf(from)) <= limit && GrantsIn(g, endpoint, MinuteOf(from) + 1) <= limit;
  }

  function Burst(r: Request, n: nat): seq<Request> {
    seq(n, i => r)
  }

  function After(s: State, r: Request, n: nat): State {
    if n == 0 then s else Next(After(s, r, n - 1), r)
  }

  lemma {:induction false} BurstRuns(before: seq<Request>, r: Request, n: nat)
    ensures Exec(before + Burst(r, n)) == After(Exec(before), r, n)
  {
    if n == 0 {
      assert before + Burst(r, 0) == before;
    } else {
      BurstRuns(before, r, n - 1);
      var run := before + Burst(r, n);
      assert run[..|run| - 1] == before + Burst(r, n - 1);
    }
  }

  lemma GrantsBetweenSnoc(grants: seq<Grant>, g: Grant, endpoint: Endpoint, from: int)
    ensures GrantsBetween(grants + [g], endpoint, from)
         == GrantsBetween(grants, endpoint, from)
            + if g.endpoint == endpoint && from <= g.at < from + 60_000 then 1 else 0
  {
    assert (grants + [g])[..|grants|] == grants;
  }

  lemma OneMoreGrant(s: State, r: Request, from: int, other: int)
    requires Inv(s, r.endpoint, r.limit) && from <= r.now < from + MINUTE && other != MinuteOf(r.now)
    requires GrantsIn(s.grants, r.endpoint, MinuteOf(r.now)) < r.limit
    ensures var g, g' := s.grants, Next(s, r).grants;
            && Inv(Next(s, r), r.endpoint, r.limit)
            && GrantsBetween(g', r.endpoint, from) == GrantsBetween(g, r.endpoint, from) + 1
            && GrantsIn(g', r.endpoint, MinuteOf(r.now)) == GrantsIn(g, r.endpoint, MinuteOf(r.now)) + 1
            && GrantsIn(g', r.endpoint, other) == GrantsIn(g, r.endpoint, other)
  {
    var g := Grant(r.endpoint, r.now);
    StepKeepsInv(s, r, r.endpoint, r.limit);
    assert Next(s, r).grants == s.grants + [g];
    GrantsInSnoc(s.grants, g, r.endpoint, MinuteOf(r.now));
    GrantsInSnoc(s.grants, g, r.endpoint, other);
    GrantsBetweenSnoc(s.grants, g, r.endpoint, from);
  }

  lemma {:induction false} BurstIsGranted(s: State, r: Request, n: nat, from: int, other: int)
    requires Inv(s, r.endpoint, r.limit) && from <= r.now < from + MINUTE && other != MinuteOf(r.now)
    requires GrantsIn(s.grants, r.endpoint, MinuteOf(r.now)) + n <= r.limit
    ensures var g, g' := s.grants, After(s, r, n).grants;
            && Inv(After(s, r, n), r.endpoint, r.limit)
            && GrantsBetween(g', r.endpoint, from) == GrantsBetween(g, r.endpoint, from) + n
            && GrantsIn(g', r.endpoint, MinuteOf(r.now)) == GrantsIn(g, r.endpoint, MinuteOf(r.now)) + n
            && GrantsIn(g', r.endpoint, other) == GrantsIn(g, r.endpoint, other)
  {
    if n == 0 {
    } else {
      BurstIsGranted(s, r, n - 1, from, other);
      OneMoreGrant(After(s, r, n - 1), r, from, other);
    }
  }

  /** Twice the limit is reached: a burst just before a minute ends and another
      just after. */
  lemma TwiceTheLimitIsReached(endpoint: Endpoint, limit: nat)
    ensures var late, early := Request(endpoint, limit, 59_999), Request(endpoint, limit, 60_000);
            var run := Burst(late, limit) + Burst(early, limit);
            && Steady(run, endpoint, limit)
            && GrantsBetween(Exec(run).grants, endpoint, 59_999) == 2 * limit
  {
    var late, early := Request(endpoint, limit, 59_999), Request(endpoint, limit, 60_000);
    BurstsAreSteady(late, early, limit);
    BurstRuns([], late, limit);
    assert [] + Burst(late, limit) == Burst(late, limit);
    BurstRuns(Burst(late, limit), early, limit);
    BothBurstsGranted(late, early);
  }

  lemma BurstsAreSteady(late: Request, early: Request, n: nat)
    requires late.endpoint == early.endpoint && late.limit == early.limit && late.now <= early.now
    ensures Steady(Burst(late, n) + Burst(early, n), late.endpoint, late.limit)
  {
  }

  lemma BothBurstsGranted(late: Request, early: Request)
    requires late.endpoint == early.endpoint && late.limit == early.limit
    requires late.now == 59_999 && early.now == 60_000
    ensures var s := After(After(INIT, late, late.limit), early, early.limit);
            GrantsBetween(s.grants, late.endpoint, 59_999) == 2 * late.limit
  {
    BurstIsGranted(INIT, late, late.limit, 59_999, 1);
    BurstIsGranted(After(INIT, late, late.limit), early, early.limit, 59_999, 0);
  }

  // --- Deferral ---

  /** A denied job is retried in a later minute. The worker reads the clock a
      first time for the second of the minute and again for the date it adds to. */
  lemma DeferralLandsInALaterMinute(deniedAt: int, read: int, readAgain: int)
    requires 0 <= deniedAt <= read <= readAgain
    ensures var secs := 60 - (read / 1000) % 60;
            && 1 <= secs <= 60 && (readAgain + 1000 * secs) / 60_000 > deniedAt / 60_000
            && (read + 1000 * secs) / 60_000 == read / 60_000 + 1
  {
    var minute := read / 60_000;
    assert read / 1000 == 60 * minute + (read / 1000) % 60 by {
      assert read / 1000 / 60 == minute;
    }
    var secs := 60 - (read / 1000) % 60;
    assert 60_000 * (minute + 1) <= read + 1000 * secs;
    assert deniedAt < 60_000 * (minute + 1);
  }
}
