/** Which stream a worker claims next (src/queue/mod.rs, claim_next_stream):
    the one claimed least recently. The scheduling set is changed by claims, by
    publishers registering streams and by workers removing empty ones, in any
    order and any number. */
module ClaimFairness {
  import opened Redis
  import opened Streams

  datatype Event =
    | Claim(stream: Name, now: int)
    | Register(stream: Name)
    | Remove(stream: Name)

  /** A claim takes a lowest-scored stream, at a time later than every score. */
  ghost predicate Can(z: SortedSet<Name>, e: Event) {
    e.Claim? ==> IsLowest(z, e.stream) && forall n | n in z :: z[n] < e.now
  }

  function Apply(z: SortedSet<Name>, e: Event): SortedSet<Name> {
    match e
    case Claim(stream, now) => Claimed(z, stream, now)
    case Register(stream) => ZAddNX(z, stream, 0)
    case Remove(stream) => z - {stream}
  }

  ghost predicate Legal(z: SortedSet<Name>, events: seq<Event>)
    decreases events
  {
    events == [] || (Can(z, events[0]) && Legal(Apply(z, events[0]), events[1..]))
  }

  function Exec(z: SortedSet<Name>, events: seq<Event>): SortedSet<Name>
    decreases events
  {
    if events == [] then z else Exec(Apply(z, events[0]), events[1..])
  }

  predicate Claims(events: seq<Event>, stream: Name) {
    exists i :: 0 <= i < |events| && events[i].Claim? && events[i].stream == stream
  }

  predicate Removes(events: seq<Event>, stream: Name) {
    exists i :: 0 <= i < |events| && events[i] == Remove(stream)
  }

  /** Between two claims of `s`, every other stream registered throughout is
      claimed, provided `s` itself was not removed in between. */
  lemma ClaimIsFair(z: SortedSet<Name>, between: seq<Event>, s: Name, t: Name, first: int, second: int)
    requires s in z && t in z && s != t
    requires Legal(z, [Claim(s, first)] + between + [Claim(s, second)])
    requires !Removes(between, s) && !Removes(between, t)
    ensures Claims(between, t)
  {
    var events := [Claim(s, first)] + between + [Claim(s, second)];
    assert events[1..] == between + [Claim(s, second)];
    LegalSplit(Apply(z, events[0]), between, [Claim(s, second)]);
    if !Claims(between, t) {
      StaysBehind(Apply(z, events[0]), between, s, t);
    }
  }

  lemma {:induction false} LegalSplit(z: SortedSet<Name>, a: seq<Event>, b: seq<Event>)
    requires Legal(z, a + b)
    ensures Legal(z, a) && Legal(Exec(z, a), b)
    decreases a
  {
    if a == [] {
      assert a + b == b;
    } else {
      assert (a + b)[1..] == a[1..] + b;
      LegalSplit(Apply(z, a[0]), a[1..], b);
    }
  }

  /** A stream that was just claimed stays behind one that is not claimed. */
  lemma {:induction false} StaysBehind(z: SortedSet<Name>, events: seq<Event>, s: Name, t: Name)
    requires Legal(z, events) && s in z && t in z && z[t] < z[s]
    requires !Claims(events, t) && !Removes(events, s) && !Removes(events, t)
    ensures s in Exec(z, events) && t in Exec(z, events) && Exec(z, events)[t] < Exec(z, events)[s]
    decreases events
  {
    if events == [] {
    } else {
      assert events[0] != Remove(s) && events[0] != Remove(t);
      assert !(events[0].Claim? && events[0].stream == t);
      forall i | 0 <= i < |events[1..]|
        ensures events[1..][i] == events[i + 1]
      {
      }
      StaysBehind(Apply(z, events[0]), events[1..], s, t);
    }
  }

  /** The proviso is needed, whatever the set: in any state in which `s` is next, if
      it is removed and registered again after its claim, it is first again, and no
      other stream has had a turn. */
  lemma ReRegisteringJumpsTheQueue(z: SortedSet<Name>, s: Name, first: int, second: int)
    requires IsLowest(z, s) && forall n | n in z :: 0 <= z[n] < first
    requires first < second
    ensures var between := [Remove(s), Register(s)];
            && Legal(z, [Claim(s, first)] + between + [Claim(s, second)])
            && forall t :: !Claims(between, t)
  {
    var events := [Claim(s, first), Remove(s), Register(s), Claim(s, second)];
    assert [Claim(s, first)] + [Remove(s), Register(s)] + [Claim(s, second)] == events;
    assert events[1..] == [Remove(s), Register(s), Claim(s, second)];
    assert events[1..][1..] == [Register(s), Claim(s, second)];
    assert events[1..][1..][1..] == [Claim(s, second)];
    var z3 := Apply(Apply(Apply(z, events[0]), events[1]), events[2]);
    assert z3 == z[s := 0];
    assert Legal(z3, [Claim(s, second)]);
  }

  // --- Claims alone, over a fixed set of streams ---

  function ClaimedIn(claims: seq<Event>): set<Name> {
    set i | 0 <= i < |claims| :: claims[i].stream
  }

  lemma {:induction false} SetOfSeqIsSmall(claims: seq<Event>)
    ensures |ClaimedIn(claims)| <= |claims|
  {
    if claims == [] {
    } else {
      var last := |claims| - 1;
      SetOfSeqIsSmall(claims[..last]);
      assert ClaimedIn(claims) == ClaimedIn(claims[..last]) + {claims[last].stream};
    }
  }

  lemma {:induction false} ClaimsKeepStreams(z: SortedSet<Name>, claims: seq<Event>)
    requires Legal(z, claims) && forall i | 0 <= i < |claims| :: claims[i].Claim?
    ensures Exec(z, claims).Keys == z.Keys
    ensures forall i | 0 <= i < |claims| :: claims[i].stream in z
    decreases claims
  {
    if claims == [] {
    } else {
      assert Apply(z, claims[0]).Keys == z.Keys;
      ClaimsKeepStreams(Apply(z, claims[0]), claims[1..]);
    }
  }

  ghost predicate ClaimsOnly(events: seq<Event>) {
    forall k | 0 <= k < |events| :: events[k].Claim?
  }

  lemma SuffixIsLegal(z: SortedSet<Name>, claims: seq<Event>, i: nat) returns (mid: SortedSet<Name>)
    requires Legal(z, claims) && ClaimsOnly(claims) && i <= |claims|
    ensures mid.Keys == z.Keys && Legal(mid, claims[i..])
  {
    assert claims == claims[..i] + claims[i..];
    LegalSplit(z, claims[..i], claims[i..]);
    ClaimsKeepStreams(z, claims[..i]);
    mid := Exec(z, claims[..i]);
  }

  lemma PrefixIsLegal(z: SortedSet<Name>, claims: seq<Event>, n: nat)
    requires Legal(z, claims) && n <= |claims|
    ensures Legal(z, claims[..n])
  {
    assert claims == claims[..n] + claims[n..];
    LegalSplit(z, claims[..n], claims[n..]);
  }

  lemma Slice(claims: seq<Event>, i: nat, j: nat)
    requires i < j < |claims|
    ensures claims[i..][..j + 1 - i] == [claims[i]] + claims[i + 1..j] + [claims[j]]
  {
    var slice, parts := claims[i..][..j + 1 - i], [claims[i]] + claims[i + 1..j] + [claims[j]];
    assert |slice| == |parts|;
    forall k | 0 <= k < |slice|
      ensures slice[k] == parts[k]
    {
      assert slice[k] == claims[i + k];
    }
  }

  /** The run from the claim at `i` to the one at `j`, on its own. */
  lemma Window(z: SortedSet<Name>, claims: seq<Event>, i: nat, j: nat) returns (mid: SortedSet<Name>)
    requires Legal(z, claims) && ClaimsOnly(claims) && i < j < |claims|
    ensures mid.Keys == z.Keys && claims[i].stream in mid
    ensures Legal(mid, [claims[i]] + claims[i + 1..j] + [claims[j]])
  {
    mid := SuffixIsLegal(z, claims, i);
    PrefixIsLegal(mid, claims[i..], j + 1 - i);
    Slice(claims, i, j);
    ClaimsKeepStreams(mid, claims[i..]);
    assert claims[i] == claims[i..][0];
  }

  lemma NoRepeatWithinARound(z: SortedSet<Name>, claims: seq<Event>, i: nat, j: nat)
    requires Legal(z, claims) && forall k | 0 <= k < |claims| :: claims[k].Claim?
    requires i < j < |claims| && claims[i].stream == claims[j].stream
    ensures j - i >= |z|
  {
    var mid := Window(z, claims, i, j);
    var s, between := claims[i].stream, claims[i + 1..j];
    AllOthersClaimed(mid, between, claims[i], claims[j]);
    SetOfSeqIsSmall(between);
    Smaller(mid.Keys - {s}, ClaimedIn(between));
    assert mid.Keys == (mid.Keys - {s}) + {s};
    assert |z| == |z.Keys|;
  }

  lemma AllOthersClaimed(z: SortedSet<Name>, between: seq<Event>, first: Event, second: Event)
    requires first.Claim? && second.Claim? && first.stream == second.stream && first.stream in z
    requires Legal(z, [first] + between + [second]) && forall k | 0 <= k < |between| :: between[k].Claim?
    ensures z.Keys - {first.stream} <= ClaimedIn(between)
  {
    forall t | t in z.Keys - {first.stream}
      ensures t in ClaimedIn(between)
    {
      ClaimIsFair(z, between, first.stream, t, first.now, second.now);
    }
  }

  lemma {:induction false} Smaller(a: set<Name>, b: set<Name>)
    requires a <= b
    ensures |a| <= |b|
  {
    assert b == a + (b - a);
  }

  /** As many claims as there are streams claim each stream exactly once. */
  lemma ARoundIsAPermutation(z: SortedSet<Name>, claims: seq<Event>)
    requires Legal(z, claims) && |claims| == |z| && forall i | 0 <= i < |claims| :: claims[i].Claim?
    ensures forall i, j | 0 <= i < j < |claims| :: claims[i].stream != claims[j].stream
    ensures ClaimedIn(claims) == z.Keys
  {
    forall i, j | 0 <= i < j < |claims|
      ensures claims[i].stream != claims[j].stream
    {
      if claims[i].stream == claims[j].stream {
        NoRepeatWithinARound(z, claims, i, j);
      }
    }
    ClaimsKeepStreams(z, claims);
    DistinctCount(claims);
    FullSubset(ClaimedIn(claims), z.Keys);
  }

  lemma {:induction false} DistinctCount(claims: seq<Event>)
    requires forall i, j | 0 <= i < j < |claims| :: claims[i].stream != claims[j].stream
    ensures |ClaimedIn(claims)| == |claims|
  {
    if claims == [] {
    } else {
      var last := |claims| - 1;
      DistinctCount(claims[..last]);
      assert ClaimedIn(claims) == ClaimedIn(claims[..last]) + {claims[last].stream};
      assert claims[last].stream !in ClaimedIn(claims[..last]);
    }
  }
}
