/** Redis Streams with the one consumer group the system uses, and the queue
    operations built on them (src/queue/mod.rs, src/worker/trim.rs). */
module Streams {
  import opened Wrappers
  import opened Redis
  import opened Jobs

  type Name = string

  /** A stream and its group. Ids are totally ordered and only grow; `pending`
      is the group's pending entry list. */
  datatype Stream = Stream(
    entries: map<nat, JobId>,
    top: nat,
    lastDelivered: nat,
    pending: set<nat>)

  const EMPTY := Stream(map[], 0, 0, {})

  /** A key that does not exist reads as an empty stream. */
  function StreamOf(streams: map<Name, Stream>, name: Name): Stream {
    if name in streams then streams[name] else EMPTY
  }

  ghost predicate Valid(s: Stream) {
    && (forall id | id in s.entries :: 0 < id <= s.top)
    && (forall id | id in s.pending :: 0 < id <= s.lastDelivered)
    && s.lastDelivered <= s.top
    && (s.lastDelivered == 0 || s.lastDelivered in s.entries)
  }

  function XAdd(s: Stream, id: nat, job: JobId): Stream
    requires id > s.top
  {
    s.(entries := s.entries[id := job], top := id)
  }

  /** The entries XREADGROUP `>` hands out when it reads up to id `upto`. */
  function Batch(s: Stream, upto: nat): set<nat> {
    set id | id in s.entries && s.lastDelivered < id <= upto
  }

  lemma BatchGrows(s: Stream, upto: nat, id: nat)
    requires s.lastDelivered <= upto < id && id in s.entries
    requires forall x | x in s.entries && upto < x :: id <= x
    ensures |Batch(s, id)| == |Batch(s, upto)| + 1
  {
    assert Batch(s, id) == Batch(s, upto) + {id};
  }

  /** `upto` is where a read of at most `count` entries ends. */
  predicate ReadsUpTo(s: Stream, upto: nat, count: nat) {
    && upto in s.entries && s.lastDelivered < upto
    && |Batch(s, upto)| <= count
    && (|Batch(s, upto)| == count || forall id | id in s.entries :: id <= upto)
  }

  /** A stream with something unread always has an end for the next read. */
  lemma {:induction false} ReadHasEnd(s: Stream, count: nat) returns (upto: nat)
    requires count >= 1 && exists id :: id in s.entries && s.lastDelivered < id
    ensures ReadsUpTo(s, upto, count)
  {
    if count == 1 {
      upto := NextUnread(s, s.lastDelivered);
      assert Batch(s, s.lastDelivered) == {};
    } else {
      upto := ReadHasEnd(s, count - 1);
      if exists id :: id in s.entries && upto < id {
        upto := NextUnread(s, upto);
      }
    }
  }

  lemma NextUnread(s: Stream, upto: nat) returns (id: nat)
    requires s.lastDelivered <= upto && exists id :: id in s.entries && upto < id
    ensures id in s.entries && upto < id && |Batch(s, id)| == |Batch(s, upto)| + 1
  {
    var rest := set id | id in s.entries && upto < id;
    var any :| any in s.entries && upto < any;
    assert any in rest;
    id := Smallest(rest);
    assert forall x | x in s.entries && upto < x :: x in rest;
    BatchGrows(s, upto, id);
  }

  function XReadGroup(s: Stream, upto: nat): Stream {
    s.(lastDelivered := upto, pending := s.pending + Batch(s, upto))
  }

  function XAck(s: Stream, id: nat): Stream {
    s.(pending := s.pending - {id})
  }

  /** XAUTOCLAIM drops pending ids whose entry no longer exists. */
  function XAutoClaim(s: Stream, gone: set<nat>): Stream {
    s.(pending := s.pending - gone)
  }

  /** XTRIM MINID: keep ids from `below` on. With `~` Redis may stop early, so
      callers pick any `below` up to the cutoff they asked for. */
  function XTrim(s: Stream, below: nat): Stream {
    s.(entries := map id | id in s.entries && below <= id :: s.entries[id])
  }

  /** What safe_trim_id answers: the oldest pending id, or the last delivered
      id when nothing is pending. */
  predicate IsSafeCutoff(s: Stream, cutoff: nat) {
    if s.pending == {} then cutoff == s.lastDelivered
    else IsSmallest(s.pending, cutoff)
  }

  /** `s` after a trim still holds all of `was` that anyone may still need. */
  ghost predicate KeepsNeeded(was: Stream, s: Stream) {
    && s.entries.Keys <= was.entries.Keys
    && (forall id | id in s.entries :: s.entries[id] == was.entries[id])
    && (forall id | id in was.entries && (id > was.lastDelivered || id in was.pending) :: id in s.entries)
    && (was.lastDelivered in was.entries ==> was.lastDelivered in s.entries)
    && s.top == was.top && s.lastDelivered == was.lastDelivered && s.pending == was.pending
  }

  /** Only the oldest entries have gone, each older than every pending entry and
      than the last one delivered. */
  ghost predicate CutsOldest(was: Stream, s: Stream) {
    forall id | id in was.entries && id !in s.entries ::
      && id < was.lastDelivered
      && (forall p | p in was.pending :: id < p)
      && (forall k | k in s.entries :: id < k)
  }

  /** `messages` are the oldest undelivered entries of the stream, at most `count`
      of them, now pending; there are none exactly when nothing is undelivered. */
  ghost predicate HandedOut(
    was: map<Name, Stream>, now: map<Name, Stream>, name: Name, count: nat, messages: map<nat, JobId>)
  {
    var s := StreamOf(was, name);
    && (messages == map[] <==> forall id | id in s.entries :: id <= s.lastDelivered)
    && (messages == map[] ==> now == was)
    && (messages != map[] ==> exists upto :: ReadTo(was, now, name, count, messages, upto))
  }

  lemma ReadHandsOut(was: map<Name, Stream>, name: Name, count: nat, upto: nat)
    requires ReadsUpTo(StreamOf(was, name), upto, count)
    ensures var s := StreamOf(was, name);
            var messages := map id | id in Batch(s, upto) :: s.entries[id];
            HandedOut(was, was[name := XReadGroup(s, upto)], name, count, messages)
  {
    var s := StreamOf(was, name);
    var messages := map id | id in Batch(s, upto) :: s.entries[id];
    assert upto in messages;
    assert ReadTo(was, was[name := XReadGroup(s, upto)], name, count, messages, upto);
  }

  /** Read without its end: at most `count` undelivered entries with their jobs, and
      fewer only when that is all; an undelivered entry left behind is newer than
      every one taken, and can be read later; those taken are pending, and cannot. */
  ghost predicate TakesOldest(was: Stream, s: Stream, count: nat, messages: map<nat, JobId>) {
    && |messages| <= count
    && (forall id | id in messages ::
          && id in was.entries && messages[id] == was.entries[id]
          && was.lastDelivered < id <= s.lastDelivered && id in s.pending)
    && (forall id | id in was.entries && was.lastDelivered < id && id !in messages ::
          |messages| == count && s.lastDelivered < id)
    && (forall id | id in s.pending :: id in was.pending || id in messages)
    && (forall id | id in was.pending :: id in s.pending)
    && s.entries == was.entries && s.top == was.top
  }

  lemma ReadTakesOldest(s: Stream, upto: nat, count: nat, messages: map<nat, JobId>)
    requires ReadsUpTo(s, upto, count) && messages.Keys == Batch(s, upto)
    requires forall id | id in messages :: messages[id] == s.entries[id]
    ensures TakesOldest(s, XReadGroup(s, upto), count, messages)
  {
    assert |messages| == |messages.Keys|;
    assert forall id :: id in messages <==> id in Batch(s, upto);
  }

  lemma ReadStaysValid(s: Stream, upto: nat)
    requires Valid(s) && upto in s.entries && s.lastDelivered < upto
    ensures Valid(XReadGroup(s, upto))
  {
  }

  ghost predicate ReadTo(
    was: map<Name, Stream>, now: map<Name, Stream>, name: Name, count: nat, messages: map<nat, JobId>, upto: nat)
  {
    var s := StreamOf(was, name);
    && ReadsUpTo(s, upto, count)
    && messages.Keys == Batch(s, upto)
    && (forall id | id in messages :: messages[id] == s.entries[id])
    && now == was[name := XReadGroup(s, upto)]
  }

  // --- A trimmer between its commands ---

  /** Where a cutoff came from. `gap` holds the entries that were handed out
      between the trimmer's XPENDING, which found none pending, and its XINFO. */
  datatype Origin = OldestPending | LastDelivered(gap: set<nat>)

  datatype Trimmer =
    | SawNonePending(stream: Name, gap: set<nat>)
    | HasCutoff(stream: Name, cutoff: nat, origin: Origin)

  function AfterXPending(name: Name, s: Stream): Trimmer {
    if s.pending == {} then SawNonePending(name, {}) else HasCutoff(name, Smallest(s.pending), OldestPending)
  }

  function AfterXInfo(t: Trimmer, s: Stream): Trimmer
    requires t.SawNonePending?
  {
    HasCutoff(t.stream, s.lastDelivered, LastDelivered(t.gap))
  }

  /** A read of `name` has handed out `batch`. */
  function NoteRead(t: Trimmer, name: Name, batch: set<nat>): Trimmer {
    if t.SawNonePending? && t.stream == name then t.(gap := t.gap + batch) else t
  }

  /** What a trimmer knows about its stream, whatever has happened since. */
  ghost predicate TrimmerOk(t: Trimmer, s: Stream) {
    match t
    case SawNonePending(_, gap) =>
      s.pending <= gap && (gap != {} ==> IsGreatest(gap, s.lastDelivered))
    case HasCutoff(_, cutoff, origin) =>
      && cutoff <= s.lastDelivered
      && (forall id | id in s.pending :: cutoff <= id || (origin.LastDelivered? && id in origin.gap))
      && (origin.LastDelivered? && origin.gap != {} ==> IsGreatest(origin.gap, cutoff))
  }

  /** The cutoff was read without a race. */
  predicate Careful(t: Trimmer) {
    t.HasCutoff? && (t.origin.LastDelivered? ==> t.origin.gap == {})
  }

  lemma NewTrimmerOk(name: Name, s: Stream)
    requires Valid(s)
    ensures TrimmerOk(AfterXPending(name, s), s)
  {
  }

  lemma InfoKeepsTrimmer(t: Trimmer, s: Stream)
    requires t.SawNonePending? && TrimmerOk(t, s)
    ensures TrimmerOk(AfterXInfo(t, s), s)
  {
  }

  lemma ReadKeepsTrimmer(t: Trimmer, s: Stream, upto: nat)
    requires Valid(s) && TrimmerOk(t, s) && upto in s.entries && s.lastDelivered < upto
    ensures TrimmerOk(NoteRead(t, t.stream, Batch(s, upto)), XReadGroup(s, upto))
  {
    assert upto in Batch(s, upto);
  }

  /** Nothing was handed out: acknowledgements, claims, trims and new entries. */
  lemma TrimmerOutlives(t: Trimmer, s: Stream, s': Stream)
    requires TrimmerOk(t, s) && s'.pending <= s.pending && s'.lastDelivered == s.lastDelivered
    ensures TrimmerOk(t, s')
  {
  }

  /** A trim pass that has visited the streams `touched`. */
  ghost predicate Passed(was: map<Name, Stream>, streams: map<Name, Stream>, touched: set<Name>) {
    && streams.Keys == was.Keys
    && (forall n | n in was :: KeepsNeeded(was[n], streams[n]))
    && (forall n | n in was && n !in touched :: streams[n] == was[n])
  }

  lemma PassStep(was: map<Name, Stream>, mid: map<Name, Stream>, now: map<Name, Stream>, touched: set<Name>, name: Name)
    requires Passed(was, mid, touched)
    requires name !in mid ==> now == mid
    requires name in mid ==> name in now && now == mid[name := now[name]] && KeepsNeeded(mid[name], now[name])
    ensures Passed(was, now, touched + {name})
  {
    assert forall n | n in was && n != name :: now[n] == mid[n];
  }

  lemma PassedStaysValid(was: map<Name, Stream>, streams: map<Name, Stream>, touched: set<Name>)
    requires Passed(was, streams, touched) && forall n | n in was :: Valid(was[n])
    ensures forall n | n in streams :: Valid(streams[n])
  {
  }

  function Acked(streams: map<Name, Stream>, name: Name, id: nat): map<Name, Stream> {
    if name in streams then streams[name := XAck(streams[name], id)] else streams
  }

  /** A claim moves its stream behind those that were claimed before now. */
  function Claimed(scheduled: SortedSet<Name>, name: Name, now: int): SortedSet<Name> {
    scheduled[name := now]
  }

  /** The Redis side of the queue. */
  class RedisQueue {
    var streams: map<Name, Stream>
    var scheduled: SortedSet<Name>

    ghost predicate Ok()
      reads this
    {
      forall n | n in streams :: Valid(streams[n])
    }

    constructor ()
      ensures Ok() && streams == map[] && scheduled == map[]
    {
      streams, scheduled := map[], map[];
    }

    method EnsureConsumerGroup(name: Name)
      requires Ok()
      modifies this
      ensures Ok() && scheduled == old(scheduled)
      ensures streams == if name in old(streams) then old(streams) else old(streams)[name := EMPTY]
    {
      if name !in streams {
        streams := streams[name := EMPTY];
      }
    }

    /** XADD, which creates a stream that is not there. */
    method Enqueue(name: Name, job: JobId) returns (id: nat)
      requires Ok()
      modifies this
      ensures Ok() && scheduled == old(scheduled)
      ensures id > StreamOf(old(streams), name).top
      ensures streams == old(streams)[name := XAdd(StreamOf(old(streams), name), id, job)]
      ensures id !in StreamOf(old(streams), name).entries
      ensures var was, s := StreamOf(old(streams), name), StreamOf(streams, name);
              s == Stream(was.entries[id := job], id, was.lastDelivered, was.pending)
    {
      var s := StreamOf(streams, name);
      id := s.top + 1;
      streams := streams[name := XAdd(s, id, job)];
    }

    method RegisterStream(name: Name)
      requires Ok()
      modifies this
      ensures Ok() && streams == old(streams)
      ensures scheduled == ZAddNX(old(scheduled), name, 0)
      ensures name in old(scheduled) ==> scheduled == old(scheduled)
      ensures name !in old(scheduled) ==> scheduled == old(scheduled)[name := 0]
    {
      if name !in scheduled {
        scheduled := scheduled[name := 0];
      }
    }

    method ClaimNextStream(now: int) returns (r: Option<Name>)
      requires Ok()
      modifies this
      ensures Ok() && streams == old(streams)
      ensures r.None? <==> old(scheduled) == map[]
      ensures r.None? ==> scheduled == old(scheduled)
      ensures r.Some? ==> IsLowest(old(scheduled), r.value) && scheduled == Claimed(old(scheduled), r.value, now)
      ensures r.Some? ==> r.value in old(scheduled)
      ensures r.Some? ==> forall n | n in old(scheduled) :: old(scheduled)[r.value] <= old(scheduled)[n]
    {
      if scheduled == map[] {
        return None;
      }
      ghost var lowest := LowestExists(scheduled);
      assert IsLowest(scheduled, lowest);
      var name :| name in scheduled && IsLowest(scheduled, name);
      scheduled := scheduled[name := now];
      r := Some(name);
    }

    method RemoveStreamIfEmpty(name: Name) returns (removed: bool)
      requires Ok()
      modifies this
      ensures Ok() && streams == old(streams)
      ensures removed <==> StreamOf(streams, name).entries == map[]
      ensures scheduled == if removed then old(scheduled) - {name} else old(scheduled)
    {
      removed := |StreamOf(streams, name).entries| == 0;
      if removed {
        scheduled := scheduled - {name};
      }
    }

    /** Reads the oldest `count` undelivered entries into the pending list. */
    method XReadGroupSingle(name: Name, count: nat) returns (messages: map<nat, JobId>)
      requires Ok() && count >= 1
      modifies this
      ensures Ok() && scheduled == old(scheduled)
      ensures HandedOut(old(streams), streams, name, count, messages)
      ensures TakesOldest(StreamOf(old(streams), name), StreamOf(streams, name), count, messages)
      ensures forall n | n in streams && n != name :: n in old(streams) && streams[n] == old(streams)[n]
    {
      var s := StreamOf(streams, name);
      messages := map[];
      if exists id :: id in s.entries && s.lastDelivered < id {
        ghost var end := ReadHasEnd(s, count);
        assert end in s.entries && ReadsUpTo(s, end, count);
        var upto: nat :| upto in s.entries && ReadsUpTo(s, upto, count);
        messages := map id | id in Batch(s, upto) :: s.entries[id];
        streams := streams[name := XReadGroup(s, upto)];
        ReadHandsOut(old(streams), name, count, upto);
        ReadTakesOldest(s, upto, count, messages);
        ReadStaysValid(s, upto);
      }
    }

    /** One turn of a consumer's loop: claim the stream that waited longest, read
        from it, and unschedule it if it turns out to hold no entry at all. */
    method ConsumerTurn(now: int, batch: nat) returns (claimed: Option<Name>, messages: map<nat, JobId>)
      requires Ok() && batch >= 1
      modifies this
      ensures Ok()
      ensures claimed.None? <==> old(scheduled) == map[]
      ensures claimed.None? ==> messages == map[] && streams == old(streams) && scheduled == old(scheduled)
      ensures claimed.Some? ==>
                && IsLowest(old(scheduled), claimed.value)
                && HandedOut(old(streams), streams, claimed.value, batch, messages)
                && scheduled == if StreamOf(old(streams), claimed.value).entries == map[]
                                then old(scheduled) - {claimed.value} else Claimed(old(scheduled), claimed.value, now)
    {
      messages := map[];
      claimed := ClaimNextStream(now);
      if claimed.None? {
        return;
      }
      messages := XReadGroupSingle(claimed.value, batch);
      if messages == map[] {
        var _ := RemoveStreamIfEmpty(claimed.value);
      }
    }

    method Ack(name: Name, id: nat)
      requires Ok()
      modifies this
      ensures Ok() && scheduled == old(scheduled)
      ensures streams == Acked(old(streams), name, id)
      ensures streams.Keys == old(streams).Keys
      ensures forall n | n in streams && n != name :: streams[n] == old(streams)[n]
      ensures name in streams ==>
                var was := old(streams)[name];
                streams[name] == Stream(was.entries, was.top, was.lastDelivered, was.pending - {id})
    {
      if name in streams {
        streams := streams[name := XAck(streams[name], id)];
      }
    }

    /** None when the stream has no group to ask about. */
    method SafeTrimId(name: Name) returns (cutoff: Option<nat>)
      ensures cutoff.Some? <==> name in streams
      ensures cutoff.Some? ==> IsSafeCutoff(streams[name], cutoff.value)
      ensures cutoff.Some? && streams[name].pending == {} ==> cutoff.value == streams[name].lastDelivered
      ensures cutoff.Some? && streams[name].pending != {} ==> cutoff.value in streams[name].pending
      ensures cutoff.Some? ==> forall id | id in streams[name].pending :: cutoff.value <= id
    {
      if name !in streams {
        return None;
      }
      var s := streams[name];
      if s.pending == {} {
        cutoff := Some(s.lastDelivered);
      } else {
        cutoff := Some(Smallest(s.pending));
      }
    }

    /** Read the cutoff, then trim, with nothing in between. */
    method XTrimSafe(name: Name)
      requires name in streams ==> Valid(streams[name])
      modifies this
      ensures scheduled == old(scheduled)
      ensures name !in old(streams) ==> streams == old(streams)
      ensures name in old(streams) ==>
                && name in streams && streams == old(streams)[name := streams[name]]
                && KeepsNeeded(old(streams)[name], streams[name])
                && CutsOldest(old(streams)[name], streams[name])
    {
      var cutoff := SafeTrimId(name);
      if cutoff.None? || cutoff.value == 0 {
        return;
      }
      var below: nat :| below <= cutoff.value;
      streams := streams[name := XTrim(streams[name], below)];
    }

    /** One pass of the trimmer over every scheduled stream. */
    method TrimPass()
      requires Ok()
      modifies this
      ensures Ok() && scheduled == old(scheduled)
      ensures Passed(old(streams), streams, scheduled.Keys)
    {
      var todo := scheduled.Keys;
      ghost var touched := {};
      while todo != {}
        invariant scheduled == old(scheduled) && todo !! touched && todo + touched == scheduled.Keys
        invariant Passed(old(streams), streams, touched)
        decreases todo
      {
        var name :| name in todo;
        ghost var mid := streams;
        XTrimSafe(name);
        PassStep(old(streams), mid, streams, touched, name);
        todo, touched := todo - {name}, touched + {name};
      }
      PassedStaysValid(old(streams), streams, touched);
    }
  }
}
