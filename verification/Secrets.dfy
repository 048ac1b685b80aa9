/** An endpoint's signing secrets (src/features/endpoints/repository.rs): one at
    creation, one more at each rotation. The API and the worker choose the
    secret to use with different queries. Times are microseconds, as in
    Postgres. */
module Secrets {
  import opened Wrappers

  const SECOND: int := 1_000_000
  const MAX_EXPIRY: nat := 86_400

  datatype Secret = Secret(encrypted: string, isActive: bool, expiresAt: Option<int>, createdAt: int)

  predicate Usable(s: Secret, now: int) {
    s.isActive && (s.expiresAt.Some? ==> now < s.expiresAt.value)
  }

  /** What a rotation does to a row that is already there. */
  function Retired(s: Secret, expiry: nat, now: int): Secret {
    if !Usable(s, now) then s
    else if expiry == 0 then s.(isActive := false)
    else s.(expiresAt := Some(now + expiry * SECOND))
  }

  function Rotated(rows: seq<Secret>, encrypted: string, expiry: nat, now: int): (rows': seq<Secret>)
    ensures |rows'| == |rows| + 1
  {
    seq(|rows|, i requires 0 <= i < |rows| => Retired(rows[i], expiry, now)) + [Secret(encrypted, true, None, now)]
  }

  /** get_active_secret: ORDER BY created_at DESC. */
  predicate ApiPicks(rows: seq<Secret>, now: int, i: nat) {
    && i < |rows| && Usable(rows[i], now)
    && forall j | 0 <= j < |rows| && Usable(rows[j], now) :: rows[j].createdAt <= rows[i].createdAt
  }

  /** get_job_for_delivery: ORDER BY expires_at NULLS FIRST. */
  predicate NoLater(a: Option<int>, b: Option<int>) {
    a.None? || (b.Some? && a.value <= b.value)
  }

  predicate WorkerPicks(rows: seq<Secret>, now: int, i: nat) {
    && i < |rows| && Usable(rows[i], now)
    && forall j | 0 <= j < |rows| && Usable(rows[j], now) :: NoLater(rows[i].expiresAt, rows[j].expiresAt)
  }

  /** Every usable secret expires, and none before `t`. */
  predicate ExpiresFirst(rows: seq<Secret>, now: int, t: int) {
    forall j | 0 <= j < |rows| && Usable(rows[j], now) :: rows[j].expiresAt.Some? && t <= rows[j].expiresAt.value
  }

  /** While any secret is usable the worker's query returns one. */
  lemma {:induction false} WorkerFindsOne(rows: seq<Secret>, now: int) returns (i: nat)
    requires exists k :: 0 <= k < |rows| && Usable(rows[k], now)
    ensures WorkerPicks(rows, now, i)
    ensures rows[i].expiresAt.Some? ==> ExpiresFirst(rows, now, rows[i].expiresAt.value)
  {
    var n := |rows| - 1;
    if exists k :: 0 <= k < n && Usable(rows[k], now) {
      var k :| 0 <= k < n && Usable(rows[k], now);
      assert rows[..n][k] == rows[k];
      i := WorkerFindsOne(rows[..n], now);
      assert forall j | 0 <= j < n :: rows[..n][j] == rows[j];
      if Usable(rows[n], now) && !NoLater(rows[i].expiresAt, rows[n].expiresAt) {
        i := n;
      }
    } else {
      i := n;
    }
  }

  datatype RotateResult = Fine(secret: Secret) | NotFound | BadRequest

  /** One endpoint and its rows in endpoint_secrets. */
  class Endpoint {
    var deleted: bool
    var rows: seq<Secret>

    /** create: the endpoint and its first secret, in one transaction. */
    constructor (encrypted: string, now: int)
      ensures !deleted && rows == [Secret(encrypted, true, None, now)]
    {
      deleted := false;
      rows := [Secret(encrypted, true, None, now)];
    }

    /** rotate_secret, with the service's limit on the expiry. */
    method RotateSecret(encrypted: string, expirySeconds: Option<nat>, now: int) returns (r: RotateResult)
      modifies this`rows
      ensures deleted ==> r == NotFound
      ensures !deleted ==> (r == BadRequest <==> expirySeconds.Some? && expirySeconds.value > 86_400)
      ensures r.Fine? ==>
                && !deleted && |rows| > 0 && r.secret == rows[|rows| - 1]
                && rows == Rotated(old(rows), encrypted, if expirySeconds.Some? then expirySeconds.value else 0, now)
                && rows[|rows| - 1] == Secret(encrypted, true, None, now)
      ensures r.Fine? ==>
                forall i | 0 <= i < |old(rows)| ::
                  var was, grace := old(rows)[i], if expirySeconds.Some? then expirySeconds.value else 0;
                  var live := was.isActive && (was.expiresAt.Some? ==> now < was.expiresAt.value);
                  && (!live ==> rows[i] == was)
                  && (live && grace == 0 ==> rows[i] == was.(isActive := false))
                  && (live && grace > 0 ==> rows[i] == was.(expiresAt := Some(now + grace * 1_000_000)))
      ensures !r.Fine? ==> rows == old(rows)
    {
      if deleted {
        return NotFound;
      }
      var expiry := if expirySeconds.Some? then expirySeconds.value else 0;
      if expiry > MAX_EXPIRY {
        return BadRequest;
      }
      var was := rows;
      rows := seq(|was|, i requires 0 <= i < |was| => Retired(was[i], expiry, now));
      var secret := Secret(encrypted, true, None, now);
      rows := rows + [secret];
      r := Fine(secret);
    }
  }

  // --- Runs ---

  datatype Rotation = Rotation(encrypted: string, expiry: nat, at: int)

  ghost predicate Timely(t0: int, rs: seq<Rotation>) {
    && (forall k | 0 <= k < |rs| :: rs[k].expiry <= 86_400 && t0 < rs[k].at)
    && (forall j, k | 0 <= j < k < |rs| :: rs[j].at < rs[k].at)
  }

  function LastTime(t0: int, rs: seq<Rotation>): int {
    if rs == [] then t0 else rs[|rs| - 1].at
  }

  /** The rows after creation at `t0` and the rotations `rs`. */
  function After(first: string, t0: int, rs: seq<Rotation>): (rows: seq<Secret>)
    ensures |rows| == |rs| + 1
  {
    if rs == [] then [Secret(first, true, None, t0)]
    else
      var r := rs[|rs| - 1];
      Rotated(After(first, t0, rs[..|rs| - 1]), r.encrypted, r.expiry, r.at)
  }

  /** Row `i` of `rows`: when it was made and what has become of it. */
  ghost predicate Settled(rows: seq<Secret>, i: nat, last: int)
    requires i < |rows|
  {
    if i == |rows| - 1 then rows[i].isActive && rows[i].expiresAt == None && rows[i].createdAt == last
    else
      && rows[i].createdAt < rows[i + 1].createdAt
      && (rows[i].isActive ==> rows[i].expiresAt.Some? && rows[i].expiresAt.value <= last + 86_400_000_000)
  }

  ghost predicate AllSettled(rows: seq<Secret>, last: int) {
    forall i | 0 <= i < |rows| :: Settled(rows, i, last)
  }

  lemma {:induction false} RunSettles(first: string, t0: int, rs: seq<Rotation>)
    requires Timely(t0, rs)
    ensures AllSettled(After(first, t0, rs), LastTime(t0, rs))
    decreases |rs|
  {
    if rs == [] {
    } else {
      var n := |rs| - 1;
      RunSettles(first, t0, rs[..n]);
      var was, rows := After(first, t0, rs[..n]), After(first, t0, rs);
      forall i | 0 <= i < |rows|
        ensures Settled(rows, i, rs[n].at)
      {
        if i < |was| {
          assert Settled(was, i, LastTime(t0, rs[..n]));
          assert rows[i] == Retired(was[i], rs[n].expiry, rs[n].at);
        }
      }
    }
  }

  lemma {:induction false} CreationOrder(rows: seq<Secret>, last: int, i: nat, j: nat)
    requires AllSettled(rows, last)
    requires i < j < |rows|
    ensures rows[i].createdAt < rows[j].createdAt
    decreases j - i
  {
    assert Settled(rows, i, last);
    if i + 1 < j {
      CreationOrder(rows, last, i + 1, j);
    }
  }

  /** After any run, at any later instant: exactly one active secret has no
      expiry, it is the newest, and each of the two queries selects it and
      nothing else. */
  lemma QueriesAgree(first: string, t0: int, rs: seq<Rotation>, now: int, i: nat)
    requires Timely(t0, rs) && LastTime(t0, rs) <= now && i <= |rs|
    ensures var rows := After(first, t0, rs);
            && (rows[i].isActive && rows[i].expiresAt == None <==> i == |rs|)
            && (ApiPicks(rows, now, i) <==> i == |rs|)
            && (WorkerPicks(rows, now, i) <==> i == |rs|)
            && (i < |rs| ==> rows[i].createdAt < rows[|rs|].createdAt)
  {
    var rows, last := After(first, t0, rs), LastTime(t0, rs);
    RunSettles(first, t0, rs);
    assert Settled(rows, |rs|, last);
    assert Settled(rows, i, last);
    forall j | 0 <= j < |rs|
      ensures rows[j].createdAt < rows[|rs|].createdAt
    {
      CreationOrder(rows, last, j, |rs|);
    }
  }

  /** A day after the last rotation only the newest secret is left. */
  lemma {:induction false} OlderSecretsDieWithinADay(first: string, t0: int, rs: seq<Rotation>, now: int, i: nat)
    requires Timely(t0, rs) && i < |rs| && LastTime(t0, rs) + 86_400_000_000 <= now
    ensures !Usable(After(first, t0, rs)[i], now)
  {
    RunSettles(first, t0, rs);
    assert Settled(After(first, t0, rs), i, LastTime(t0, rs));
  }

  // --- How long a secret lives ---

  /** Rotation `k` leaves the older secrets alive until the one after it, or
      until `now` if it is the last. */
  ghost predicate Bridges(rs: seq<Rotation>, k: nat, now: int)
    requires k < |rs|
  {
    var until := if k + 1 < |rs| then rs[k + 1].at else now;
    rs[k].expiry > 0 && until < rs[k].at + rs[k].expiry * 1_000_000
  }

  /** A rotation at `at` leaves a secret usable at `now` exactly when it was usable
      then and the grace reaches `now`. */
  lemma RetiredIsUsable(s: Secret, expiry: nat, at: int, now: int)
    requires at <= now
    ensures Usable(Retired(s, expiry, at), now) <==> Usable(s, at) && expiry > 0 && now < at + expiry * 1_000_000
  {
  }

  lemma BridgesSplit(rs: seq<Rotation>, now: int, i: nat)
    requires i < |rs|
    ensures var n := |rs| - 1;
            (forall k | i <= k < |rs| :: Bridges(rs, k, now)) <==>
            (forall k | i <= k < n :: Bridges(rs[..n], k, rs[n].at)) && Bridges(rs, n, now)
  {
    var n := |rs| - 1;
    forall k | i <= k < n
      ensures Bridges(rs[..n], k, rs[n].at) <==> Bridges(rs, k, now)
    {
      assert rs[..n][k] == rs[k];
    }
  }

  /** A secret is usable exactly when every rotation since it was made has left
      it a grace period that reached the next one: each rotation renews the
      grace of all secrets that are still alive. */
  lemma {:induction false} SecretsLiveOnByRenewal(first: string, t0: int, rs: seq<Rotation>, now: int, i: nat)
    requires Timely(t0, rs) && LastTime(t0, rs) <= now && i <= |rs|
    ensures Usable(After(first, t0, rs)[i], now) <==> forall k | i <= k < |rs| :: Bridges(rs, k, now)
    decreases |rs|
  {
    if i == |rs| {
      QueriesAgree(first, t0, rs, now, i);
    } else {
      var n := |rs| - 1;
      var front, last := rs[..n], rs[n];
      assert Timely(t0, front);
      SecretsLiveOnByRenewal(first, t0, front, last.at, i);
      var was := After(first, t0, front);
      assert After(first, t0, rs)[i] == Retired(was[i], last.expiry, last.at);
      RetiredIsUsable(was[i], last.expiry, last.at, now);
      BridgesSplit(rs, now, i);
    }
  }

  /** So the first secret can outlive any number of rotations. */
  lemma AnOldSecretCanBeKeptAlive(first: string, n: nat)
    ensures var rs := seq(n, k => Rotation("", 86_400, (k + 1) * 86_000_000_000));
            Timely(0, rs) && Usable(After(first, 0, rs)[0], n * 86_000_000_000)
  {
    var rs := seq(n, k => Rotation("", 86_400, (k + 1) * 86_000_000_000));
    assert forall k | 0 <= k < n :: rs[k].at == (k + 1) * 86_000_000_000;
    assert Timely(0, rs);
    assert forall k | 0 <= k < n :: Bridges(rs, k, n * 86_000_000_000);
    SecretsLiveOnByRenewal(first, 0, rs, n * 86_000_000_000, 0);
  }
}
