/** The Redis value types the other modules share: sorted sets, and keys that
    expire. Times are milliseconds. */
module Redis {

  // --- Sorted sets: a member has one score ---

  type SortedSet<M> = map<M, int>

  /** ZADD NX: an existing score is left alone. */
  function ZAddNX<M>(z: SortedSet<M>, member: M, score: int): SortedSet<M> {
    if member in z then z else z[member := score]
  }

  /** ZADD GT: an absent member is added, a present score only moves up. */
  function ZAddGT<M>(z: SortedSet<M>, member: M, score: int): SortedSet<M> {
    if member in z && z[member] >= score then z else z[member := score]
  }

  /** `member` is one that ZRANGE 0 0 may return. Redis breaks ties by byte
      order; nothing proved here depends on which lowest member it takes. */
  predicate IsLowest<M>(z: SortedSet<M>, member: M) {
    member in z && forall m | m in z :: z[member] <= z[m]
  }

  lemma {:induction false} LowestExists<M>(z: SortedSet<M>) returns (lowest: M)
    requires z != map[]
    ensures IsLowest(z, lowest)
    decreases |z|
  {
    var x :| x in z;
    var rest := z - {x};
    if rest == map[] {
      assert z.Keys == {x} + rest.Keys;
      lowest := x;
    } else {
      assert rest.Keys < z.Keys;
      var y := LowestExists(rest);
      assert forall m | m in z :: m == x || m in rest;
      lowest := if z[x] <= z[y] then x else y;
    }
  }

  // --- Keys with a time to live ---

  datatype Key<+T> = Key(value: T, expiresAt: int)

  /** TTL in whole seconds, rounded to nearest as Redis does. */
  function TtlSecs(expiresAt: int, now: int): int {
    (expiresAt - now + 500) / 1000
  }

  // --- Token locks: SET NX with an expiry, and a guarded DEL ---

  datatype Lock = Lock(token: string, expiresAt: int)

  predicate LockFree(locks: map<string, Lock>, key: string, now: int) {
    key !in locks || locks[key].expiresAt <= now
  }

  /** The release script: delete only a lock that still carries this token. */
  function Released(locks: map<string, Lock>, key: string, token: string): map<string, Lock> {
    if key in locks && locks[key].token == token then locks - {key} else locks
  }

  // --- Sets as the source's vectors see them ---

  lemma FullSubset<T>(a: set<T>, b: set<T>)
    requires a <= b && |a| == |b|
    ensures a == b
  {
    assert b == a + (b - a);
  }

  lemma {:induction false} Unused(s: set<nat>) returns (n: nat)
    ensures forall x | x in s :: x < n
    decreases |s|
  {
    if s == {} {
      n := 0;
    } else {
      var x :| x in s;
      var m := Unused(s - {x});
      assert forall y | y in s :: y == x || y in s - {x};
      n := if x < m then m else x + 1;
    }
  }

  predicate IsGreatest(s: set<nat>, m: nat) {
    m in s && forall x | x in s :: x <= m
  }

  predicate IsSmallest(s: set<nat>, m: nat) {
    m in s && forall x | x in s :: m <= x
  }

  function Smallest(s: set<nat>): (m: nat)
    requires s != {}
    ensures IsSmallest(s, m)
  {
    SmallestExists(s);
    var m :| IsSmallest(s, m);
    m
  }

  lemma {:induction false} SmallestExists(s: set<nat>)
    requires s != {}
    ensures exists m :: IsSmallest(s, m)
    decreases |s|
  {
    var x :| x in s;
    if s == {x} {
      assert IsSmallest(s, x);
    } else {
      assert s == {x} + (s - {x});
      SmallestExists(s - {x});
      var y :| IsSmallest(s - {x}, y);
      assert forall z | z in s :: z == x || z in s - {x};
      assert IsSmallest(s, if x <= y then x else y);
    }
  }
}
