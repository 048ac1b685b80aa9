/** Which shard a new schedule goes to, and what the routing scores mean
    (src/features/schedules/service.rs). */
module ShardRouting {
  import opened Wrappers
  import opened Redis
  import opened Shards

  /** PICK_SHARD_LUA: a lowest-scored shard, whose score goes up by one. */
  ghost predicate Picks(z: SortedSet<Shard>, shard: Shard, z': SortedSet<Shard>) {
    IsLowest(z, shard) && z' == z[shard := z[shard] + 1]
  }

  class Router {
    var routing: SortedSet<Shard>

    constructor (routing: SortedSet<Shard>)
      ensures this.routing == routing
    {
      this.routing := routing;
    }

    /** pick_shard; `affinity` is the tenant's dedicated shard, if it has one. */
    method PickShard(affinity: Option<Shard>) returns (shard: Option<Shard>)
      modifies this
      ensures affinity.Some? ==> shard == affinity && routing == Incremented(old(routing), affinity.value, 1)
      ensures affinity.None? && old(routing) == map[] ==> shard == None && routing == old(routing)
      ensures affinity.None? && old(routing) != map[] ==> shard.Some? && Picks(old(routing), shard.value, routing)
      ensures shard.Some? ==>
                && shard.value in routing && routing == old(routing)[shard.value := routing[shard.value]]
                && routing[shard.value] == 1 + if shard.value in old(routing) then old(routing)[shard.value] else 0
    {
      if affinity.Some? {
        ZIncrByRouting(affinity.value, 1);
        return affinity;
      }
      if routing == map[] {
        return None;
      }
      ghost var lowest := LowestExists(routing);
      assert IsLowest(routing, lowest);
      var s :| s in routing && IsLowest(routing, s);
      routing := routing[s := routing[s] + 1];
      shard := Some(s);
    }

    method ZIncrByRouting(shard: Shard, delta: int)
      modifies this
      ensures routing == Incremented(old(routing), shard, delta)
      ensures shard in routing && routing == old(routing)[shard := routing[shard]]
      ensures routing[shard] == delta + if shard in old(routing) then old(routing)[shard] else 0
    {
      var score := if shard in routing then routing[shard] else 0;
      routing := routing[shard := score + delta];
    }
  }

  /** ZINCRBY: an absent member counts as 0. */
  function Incremented(z: SortedSet<Shard>, shard: Shard, delta: int): SortedSet<Shard> {
    z[shard := (if shard in z then z[shard] else 0) + delta]
  }

  // --- Balance ---

  /** A run of picks: zs[0] is the start, zs[i + 1] follows pick i. */
  ghost predicate PickRun(zs: seq<SortedSet<Shard>>, picks: seq<Shard>) {
    |zs| == |picks| + 1 && forall i | 0 <= i < |picks| :: Picks(zs[i], picks[i], zs[i + 1])
  }

  function Above(z: SortedSet<Shard>, level: int): set<Shard> {
    set s | s in z && z[s] > level
  }

  /** Every score is `level` or one more, and `high` of them are one more. */
  ghost predicate Level(z: SortedSet<Shard>, level: int, high: nat) {
    (forall s | s in z :: level <= z[s] <= level + 1) && |Above(z, level)| == high
  }

  lemma PickLevels(z: SortedSet<Shard>, shard: Shard, z': SortedSet<Shard>, level: int, high: nat)
    requires Picks(z, shard, z') && Level(z, level, high) && high < |z|
    ensures z'.Keys == z.Keys
    ensures if high + 1 < |z| then Level(z', level, high + 1) else Level(z', level + 1, 0)
  {
    assert z'.Keys == z.Keys;
    assert z[shard] == level by {
      if z[shard] != level {
        AllAbove(z, level);
      }
    }
    assert Above(z', level) == Above(z, level) + {shard};
    if high + 1 == |z| {
      FullSubset(Above(z', level), z'.Keys);
      AboveTop(z', level + 1);
    }
  }

  lemma AllAbove(z: SortedSet<Shard>, level: int)
    requires forall s | s in z :: z[s] > level
    ensures |Above(z, level)| == |z|
  {
    assert Above(z, level) == z.Keys;
  }

  lemma AboveTop(z: SortedSet<Shard>, level: int)
    requires forall s | s in z :: z[s] <= level
    ensures |Above(z, level)| == 0
  {
  }

  lemma NoPicks(n: nat, q: nat, r: nat)
    requires n > 0 && n * q + r == 0
    ensures q == 0 && r == 0
  {
  }

  /** From n equal shards, k = n * q + r picks leave exactly r shards q + 1 above
      the start and the other n - r shards q above it, whatever the tie-breaks. */
  lemma {:induction false} PicksBalance(zs: seq<SortedSet<Shard>>, picks: seq<Shard>, start: int, q: nat, r: nat)
    requires PickRun(zs, picks) && zs[0] != map[] && forall s | s in zs[0] :: zs[0][s] == start
    requires |picks| == |zs[0]| * q + r && r < |zs[0]|
    ensures zs[|picks|].Keys == zs[0].Keys && Level(zs[|picks|], start + q, r)
    decreases |picks|
  {
    var n := |zs[0]|;
    if picks == [] {
      NoPicks(n, q, r);
      AboveTop(zs[0], start);
    } else {
      var k := |picks| - 1;
      var q', r' := if r > 0 then q else q - 1, if r > 0 then r - 1 else n - 1;
      assert q > 0 || r > 0;
      assert n * (q - 1) == n * q - n;
      PicksBalance(zs[..|picks|], picks[..k], start, q', r');
      assert Picks(zs[k], picks[k], zs[k + 1]);
      assert |zs[k].Keys| == n;
      PickLevels(zs[k], picks[k], zs[k + 1], start + q', r');
    }
  }

  // --- What the scores count ---

  datatype Row = Row(shard: Shard, live: bool)

  /** A delete or restore that has written its row and still owes the ZINCRBY. */
  datatype Owed = Owed(shard: Shard, delta: int)

  /** The routing scores, the schedule rows, and per shard the picks whose create
      made no row (idempotent replay, conflict, failure) and the restores of rows
      that were not deleted. */
  datatype Ledger = Ledger(
    score: map<Shard, int>,
    rows: map<string, Row>,
    open: map<nat, Shard>,   // creates between their pick and their insert
    owed: map<nat, Owed>,    // deletes and restores between row and score
    unused: map<Shard, int>,
    redundant: map<Shard, int>)

  datatype Op =
    | Pick(create: nat, shard: Shard)
    | Insert(create: nat, id: string)
    | GiveUp(create: nat)
    | Delete(call: nat, id: string)
    | Restore(call: nat, id: string)
    | Settle(call: nat)

  predicate Can(l: Ledger, op: Op) {
    match op
    case Pick(create, _) => create !in l.open
    case Insert(create, id) => create in l.open && id !in l.rows
    case GiveUp(create) => create in l.open
    case Delete(call, id) => call !in l.owed && id in l.rows && l.rows[id].live
    case Restore(call, id) => call !in l.owed && id in l.rows
    case Settle(call) => call in l.owed
  }

  function Get(m: map<Shard, int>, shard: Shard): int {
    if shard in m then m[shard] else 0
  }

  function Apply(l: Ledger, op: Op): Ledger
    requires Can(l, op)
  {
    match op
    case Pick(create, shard) => l.(score := Incremented(l.score, shard, 1), open := l.open[create := shard])
    case Insert(create, id) =>
      l.(rows := l.rows[id := Row(l.open[create], true)], open := l.open - {create})
    case GiveUp(create) =>
      l.(unused := Incremented(l.unused, l.open[create], 1), open := l.open - {create})
    case Delete(call, id) =>
      l.(rows := l.rows[id := l.rows[id].(live := false)], owed := l.owed[call := Owed(l.rows[id].shard, -1)])
    case Restore(call, id) =>
      var r := l.rows[id];
      l.(rows := l.rows[id := r.(live := true)], owed := l.owed[call := Owed(r.shard, 1)],
         redundant := if r.live then Incremented(l.redundant, r.shard, 1) else l.redundant)
    case Settle(call) =>
      l.(score := Incremented(l.score, l.owed[call].shard, l.owed[call].delta), owed := l.owed - {call})
  }

  predicate Legal(l: Ledger, ops: seq<Op>)
    decreases ops
  {
    ops == [] || (Can(l, ops[0]) && Legal(Apply(l, ops[0]), ops[1..]))
  }

  function Run(l: Ledger, ops: seq<Op>): Ledger
    requires Legal(l, ops)
    decreases ops
  {
    if ops == [] then l else Run(Apply(l, ops[0]), ops[1..])
  }

  function LiveOn(l: Ledger, shard: Shard): set<string> {
    set id | id in l.rows && l.rows[id].live && l.rows[id].shard == shard
  }

  function OpenOn(l: Ledger, shard: Shard): set<nat> {
    set c | c in l.open && l.open[c] == shard
  }

  function OwedOn(l: Ledger, shard: Shard, delta: int): set<nat> {
    set c | c in l.owed && l.owed[c] == Owed(shard, delta)
  }

  ghost predicate Balanced(l: Ledger, shard: Shard) {
    && Get(l.score, shard) + |OwedOn(l, shard, 1)|
       == |LiveOn(l, shard)| + |OpenOn(l, shard)| + |OwedOn(l, shard, -1)|
          + Get(l.unused, shard) + Get(l.redundant, shard)
    && Get(l.unused, shard) >= 0 && Get(l.redundant, shard) >= 0 && UnitsOwed(l.owed)
  }

  ghost predicate UnitsOwed(owed: map<nat, Owed>) {
    forall c | c in owed :: owed[c].delta == 1 || owed[c].delta == -1
  }

  lemma LiveAfter(l: Ledger, op: Op, shard: Shard)
    requires Can(l, op)
    ensures var live := LiveOn(l, shard);
            LiveOn(Apply(l, op), shard) ==
            match op
            case Insert(create, id) => if l.open[create] == shard then live + {id} else live
            case Delete(_, id) => live - {id}
            case Restore(_, id) => if l.rows[id].shard == shard then live + {id} else live
            case _ => live
  {
  }

  lemma OpenAfter(l: Ledger, op: Op, shard: Shard)
    requires Can(l, op)
    ensures var open := OpenOn(l, shard);
            OpenOn(Apply(l, op), shard) ==
            match op
            case Pick(create, s) => if s == shard then open + {create} else open
            case Insert(create, _) => open - {create}
            case GiveUp(create) => open - {create}
            case _ => open
  {
  }

  lemma OwedAfter(l: Ledger, op: Op, shard: Shard, delta: int)
    requires Can(l, op)
    ensures var owed := OwedOn(l, shard, delta);
            OwedOn(Apply(l, op), shard, delta) ==
            match op
            case Delete(call, id) => if Owed(l.rows[id].shard, -1) == Owed(shard, delta) then owed + {call} else owed
            case Restore(call, id) => if Owed(l.rows[id].shard, 1) == Owed(shard, delta) then owed + {call} else owed
            case Settle(call) => owed - {call}
            case _ => owed
  {
  }

  function One(b: bool): nat { if b then 1 else 0 }

  lemma LiveCount(l: Ledger, op: Op, shard: Shard)
    requires Can(l, op)
    ensures |LiveOn(Apply(l, op), shard)| == |LiveOn(l, shard)|
              + One(op.Insert? && l.open[op.create] == shard)
              + One(op.Restore? && l.rows[op.id] == Row(shard, false))
              - One(op.Delete? && l.rows[op.id].shard == shard)
  {
    LiveAfter(l, op, shard);
    if op.Insert? || op.Delete? || op.Restore? {
      assert op.id in LiveOn(l, shard) <==> op.id in l.rows && l.rows[op.id] == Row(shard, true);
      assert op.id in LiveOn(l, shard) ==> LiveOn(l, shard) + {op.id} == LiveOn(l, shard);
    }
  }

  lemma OpenCount(l: Ledger, op: Op, shard: Shard)
    requires Can(l, op)
    ensures |OpenOn(Apply(l, op), shard)| == |OpenOn(l, shard)|
              + One(op.Pick? && op.shard == shard)
              - One((op.Insert? || op.GiveUp?) && l.open[op.create] == shard)
  {
    OpenAfter(l, op, shard);
    if op.Pick? || op.Insert? || op.GiveUp? {
      assert op.create in OpenOn(l, shard) <==> op.create in l.open && l.open[op.create] == shard;
    }
  }

  lemma OwedCount(l: Ledger, op: Op, shard: Shard, delta: int)
    requires Can(l, op)
    ensures |OwedOn(Apply(l, op), shard, delta)| == |OwedOn(l, shard, delta)|
              + One(op.Delete? && l.rows[op.id].shard == shard && delta == -1)
              + One(op.Restore? && l.rows[op.id].shard == shard && delta == 1)
              - One(op.Settle? && l.owed[op.call] == Owed(shard, delta))
  {
    OwedAfter(l, op, shard, delta);
    if op.Delete? || op.Restore? || op.Settle? {
      assert op.call in OwedOn(l, shard, delta) <==> op.call in l.owed && l.owed[op.call] == Owed(shard, delta);
    }
  }

  lemma OpKeepsBalance(l: Ledger, op: Op, shard: Shard)
    requires Can(l, op) && Balanced(l, shard)
    ensures Balanced(Apply(l, op), shard)
  {
    LiveCount(l, op, shard);
    OpenCount(l, op, shard);
    OwedCount(l, op, shard, 1);
    OwedCount(l, op, shard, -1);
  }

  /** Every step keeps the books: a shard's score, with the increments still owed,
      is its live schedules, the creates under way, the decrements still owed, the
      picks that made no row, and the restores of rows that were live. So the score
      is never too low by more than the restores between their two writes, and with
      none of those it is never too low at all. */
  lemma {:induction false} ScoreNeverUndercounts(l: Ledger, ops: seq<Op>, shard: Shard)
    requires Legal(l, ops) && Balanced(l, shard)
    ensures Balanced(Run(l, ops), shard)
    ensures var e := Run(l, ops);
            && Get(e.score, shard) >= |LiveOn(e, shard)| - |OwedOn(e, shard, 1)|
            && (OwedOn(e, shard, 1) == {} ==> Get(e.score, shard) >= |LiveOn(e, shard)|)
    decreases ops
  {
    if ops == [] {
    } else {
      OpKeepsBalance(l, ops[0], shard);
      ScoreNeverUndercounts(Apply(l, ops[0]), ops[1..], shard);
    }
  }

  const EMPTY_LEDGER := Ledger(map[], map[], map[], map[], map[], map[])

  /** An empty system starts balanced. */
  lemma StartsBalanced(shard: Shard)
    ensures Balanced(EMPTY_LEDGER, shard)
  {
  }

  lemma RunOne(l: Ledger, op: Op, rest: seq<Op>)
    requires Can(l, op) && Legal(Apply(l, op), rest)
    ensures Legal(l, [op] + rest) && Run(l, [op] + rest) == Run(Apply(l, op), rest)
  {
    assert ([op] + rest)[1..] == rest;
  }

  /** Between a restore's row and its score the score is too low. */
  lemma RestoreInFlightUndercounts(shard: Shard, id: string) returns (ops: seq<Op>)
    ensures Legal(EMPTY_LEDGER, ops)
    ensures Get(Run(EMPTY_LEDGER, ops).score, shard) == 0 && LiveOn(Run(EMPTY_LEDGER, ops), shard) == {id}
  {
    var l1 := Apply(EMPTY_LEDGER, Pick(0, shard));
    var l2 := Apply(l1, Insert(0, id));
    var l3 := Apply(l2, Delete(0, id));
    var l4 := Apply(l3, Settle(0));
    var l5 := Apply(l4, Restore(0, id));
    assert l5.rows == map[id := Row(shard, true)] && Get(l5.score, shard) == 0;
    assert LiveOn(l5, shard) == {id};
    RunOne(l4, Restore(0, id), []);
    RunOne(l3, Settle(0), [Restore(0, id)] + []);
    RunOne(l2, Delete(0, id), [Settle(0)] + ([Restore(0, id)] + []));
    ops := [Delete(0, id)] + ([Settle(0)] + ([Restore(0, id)] + []));
    RunOne(l1, Insert(0, id), ops);
    RunOne(EMPTY_LEDGER, Pick(0, shard), [Insert(0, id)] + ops);
    ops := [Pick(0, shard)] + ([Insert(0, id)] + ops);
  }
}
