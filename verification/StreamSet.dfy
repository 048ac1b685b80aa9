/** All queue processes at once: publishers, workers and trimmers interleave on
    the streams and on the scheduling set, one Redis command per step.

    A trimmer issues XPENDING, then (when nothing was pending) XINFO, then
    XTRIM, and anything may happen in between. Two things follow for every
    interleaving: what a stale cutoff may and may not remove, and that a
    non-empty stream is never lost from the scheduling set. */
module StreamSet {
  import opened Redis
  import opened Jobs
  import opened Streams

  datatype State = State(
    streams: map<Name, Stream>,
    scheduled: SortedSet<Name>,
    publishing: map<nat, Name>,  // publishers between XADD and register_stream
    trimmers: map<nat, Trimmer>)

  const INIT := State(map[], map[], map[], map[])

  datatype Step =
    | CreateGroup(name: Name)
    | Publish(pub: nat, name: Name, id: nat, job: JobId)
    | Register(pub: nat)
    | Claim(name: Name, now: int)
    | Read(name: Name, upto: nat, count: nat)
    | Ack(name: Name, id: nat)
    | AutoClaim(name: Name, gone: set<nat>)
    | RemoveIfEmpty(name: Name)
    | TrimPending(trim: nat, name: Name)
    | TrimInfo(trim: nat)
    | TrimCut(trim: nat, below: nat)

  ghost predicate Enabled(s: State, step: Step) {
    match step
    case CreateGroup(name) => name !in s.streams
    case Publish(pub, name, id, _) => pub !in s.publishing && name in s.streams && id > s.streams[name].top
    case Register(pub) => pub in s.publishing
    case Claim(name, _) => IsLowest(s.scheduled, name)
    case Read(name, upto, count) => name in s.streams && ReadsUpTo(s.streams[name], upto, count)
    case Ack(name, _) => name in s.streams
    case AutoClaim(name, gone) => name in s.streams && gone !! s.streams[name].entries.Keys
    case RemoveIfEmpty(name) => name in s.streams
    case TrimPending(trim, name) => trim !in s.trimmers && name in s.streams
    case TrimInfo(trim) =>
      trim in s.trimmers && s.trimmers[trim].SawNonePending? && s.trimmers[trim].stream in s.streams
    case TrimCut(trim, below) =>
      && trim in s.trimmers && s.trimmers[trim].HasCutoff? && s.trimmers[trim].stream in s.streams
      && below <= s.trimmers[trim].cutoff
  }

  ghost function Next(s: State, step: Step): State
    requires Enabled(s, step)
  {
    match step
    case CreateGroup(name) => s.(streams := s.streams[name := EMPTY])
    case Publish(pub, name, id, job) =>
      s.(streams := s.streams[name := XAdd(s.streams[name], id, job)], publishing := s.publishing[pub := name])
    case Register(pub) =>
      s.(scheduled := ZAddNX(s.scheduled, s.publishing[pub], 0), publishing := s.publishing - {pub})
    case Claim(name, now) => s.(scheduled := Claimed(s.scheduled, name, now))
    case Read(name, upto, _) =>
      s.(streams := s.streams[name := XReadGroup(s.streams[name], upto)],
         trimmers := map t | t in s.trimmers :: NoteRead(s.trimmers[t], name, Batch(s.streams[name], upto)))
    case Ack(name, id) => s.(streams := s.streams[name := XAck(s.streams[name], id)])
    case AutoClaim(name, gone) => s.(streams := s.streams[name := XAutoClaim(s.streams[name], gone)])
    case RemoveIfEmpty(name) =>
      if s.streams[name].entries == map[] then s.(scheduled := s.scheduled - {name}) else s
    case TrimPending(trim, name) => s.(trimmers := s.trimmers[trim := AfterXPending(name, s.streams[name])])
    case TrimInfo(trim) =>
      var t := s.trimmers[trim];
      s.(trimmers := s.trimmers[trim := AfterXInfo(t, s.streams[t.stream])])
    case TrimCut(trim, below) =>
      var t := s.trimmers[trim];
      s.(streams := s.streams[t.stream := XTrim(s.streams[t.stream], below)], trimmers := s.trimmers - {trim})
  }

  ghost predicate Legal(s: State, steps: seq<Step>)
    decreases steps
  {
    steps == [] || (Enabled(s, steps[0]) && Legal(Next(s, steps[0]), steps[1..]))
  }

  ghost function Exec(s: State, steps: seq<Step>): State
    requires Legal(s, steps)
    decreases steps
  {
    if steps == [] then s else Exec(Next(s, steps[0]), steps[1..])
  }

  lemma {:induction false} AppendStep(s: State, steps: seq<Step>, step: Step)
    requires Legal(s, steps) && Enabled(Exec(s, steps), step)
    ensures Legal(s, steps + [step]) && Exec(s, steps + [step]) == Next(Exec(s, steps), step)
    decreases steps
  {
    if steps == [] {
      assert [step][1..] == [];
    } else {
      AppendStep(Next(s, steps[0]), steps[1..], step);
      assert (steps + [step])[1..] == steps[1..] + [step];
    }
  }

  // --- What every step keeps ---

  ghost predicate Trims(s: State, t: Trimmer) {
    t.stream in s.streams && TrimmerOk(t, s.streams[t.stream])
  }

  ghost predicate Publishing(s: State, pub: nat, name: Name) {
    pub in s.publishing && s.publishing[pub] == name
  }

  ghost predicate Scheduled(s: State, name: Name) {
    name in s.scheduled || exists pub :: Publishing(s, pub, name)
  }

  ghost predicate Inv(s: State) {
    && (forall n | n in s.streams :: Valid(s.streams[n]))
    && (forall t | t in s.trimmers :: Trims(s, s.trimmers[t]))
    && (forall n :: Settled(s, n))
  }

  lemma StepKeepsStreams(s: State, step: Step)
    requires Inv(s) && Enabled(s, step)
    ensures forall n | n in Next(s, step).streams :: Valid(Next(s, step).streams[n])
  {
  }

  lemma QuietStream(s: State, step: Step, n: Name)
    requires Enabled(s, step) && n in s.streams && !(step.Read? && step.name == n)
    ensures n in Next(s, step).streams
    ensures var was, now := s.streams[n], Next(s, step).streams[n];
            now.pending <= was.pending && now.lastDelivered == was.lastDelivered
  {
  }

  lemma TrimmerMoves(s: State, step: Step, t: nat)
    requires Enabled(s, step) && t in s.trimmers && t in Next(s, step).trimmers && s.trimmers[t].stream in s.streams
    ensures var mine, now := s.trimmers[t], Next(s, step).trimmers[t];
            now == if step.Read? then NoteRead(mine, step.name, Batch(s.streams[step.name], step.upto))
                   else if step == TrimInfo(t) then AfterXInfo(mine, s.streams[mine.stream])
                   else mine
  {
  }

  lemma TrimmerStaysOk(s: State, step: Step, t: nat)
    requires Inv(s) && Enabled(s, step) && t in s.trimmers && t in Next(s, step).trimmers
    ensures Trims(Next(s, step), Next(s, step).trimmers[t])
  {
    var mine, n := s.trimmers[t], s.trimmers[t].stream;
    assert Trims(s, mine) && Valid(s.streams[n]);
    TrimmerMoves(s, step, t);
    if step.Read? && step.name == n {
      ReadKeepsTrimmer(mine, s.streams[n], step.upto);
    } else {
      QuietStream(s, step, n);
      TrimmerOutlives(mine, s.streams[n], Next(s, step).streams[n]);
      if step == TrimInfo(t) {
        InfoKeepsTrimmer(mine, s.streams[n]);
      }
    }
  }

  lemma StepKeepsTrimmers(s: State, step: Step)
    requires Inv(s) && Enabled(s, step)
    ensures forall t | t in Next(s, step).trimmers :: Trims(Next(s, step), Next(s, step).trimmers[t])
  {
    forall t | t in Next(s, step).trimmers
      ensures Trims(Next(s, step), Next(s, step).trimmers[t])
    {
      if t in s.trimmers {
        TrimmerStaysOk(s, step, t);
      } else {
        assert step.TrimPending? && Next(s, step).streams == s.streams;
        NewTrimmerOk(step.name, s.streams[step.name]);
      }
    }
  }

  ghost predicate Settled(s: State, n: Name) {
    n in s.streams && s.streams[n].entries != map[] ==> Scheduled(s, n)
  }

  lemma StreamStaysSettled(s: State, step: Step, n: Name)
    requires Settled(s, n) && Enabled(s, step)
    ensures Settled(Next(s, step), n)
  {
    var s' := Next(s, step);
    if step.Publish? && step.name == n {
      assert Publishing(s', step.pub, n);
    } else if n in s'.streams && s'.streams[n].entries != map[] {
      assert n in s.streams && s.streams[n].entries != map[];
      if n !in s.scheduled {
        var pub :| Publishing(s, pub, n);
        assert Publishing(s', pub, n) || n in s'.scheduled;
      }
    }
  }

  lemma StepKeepsScheduled(s: State, step: Step)
    requires Inv(s) && Enabled(s, step)
    ensures forall n :: Settled(Next(s, step), n)
  {
    forall n
      ensures Settled(Next(s, step), n)
    {
      assert Settled(s, n);
      StreamStaysSettled(s, step, n);
    }
  }

  lemma StepKeepsInv(s: State, step: Step)
    requires Inv(s) && Enabled(s, step)
    ensures Inv(Next(s, step))
  {
    StepKeepsStreams(s, step);
    StepKeepsTrimmers(s, step);
    StepKeepsScheduled(s, step);
  }

  lemma {:induction false} RunKeepsInv(s: State, steps: seq<Step>)
    requires Inv(s) && Legal(s, steps)
    ensures Inv(Exec(s, steps))
    decreases steps
  {
    if steps == [] {
    } else {
      StepKeepsInv(s, steps[0]);
      RunKeepsInv(Next(s, steps[0]), steps[1..]);
    }
  }

  // --- Trim safety ---

  /** In every interleaving a trim removes no undelivered entry and never the
      last delivered one; unless a read slipped between its XPENDING and its
      XINFO, it removes no pending entry either, however stale its cutoff. */
  lemma TrimIsSafe(steps: seq<Step>, trim: nat, below: nat)
    requires Legal(INIT, steps) && Enabled(Exec(INIT, steps), TrimCut(trim, below))
    ensures var s := Exec(INIT, steps);
            var t, s' := s.trimmers[trim], Next(s, TrimCut(trim, below));
            var was, now := s.streams[t.stream], s'.streams[t.stream];
            && (forall id | id in was.entries && id >= was.lastDelivered :: id in now.entries)
            && (Careful(t) ==> !LosesPending(was, now))
  {
    RunKeepsInv(INIT, steps);
    var s := Exec(INIT, steps);
    assert Trims(s, s.trimmers[trim]);
  }

  /** A pending entry's message is dropped. */
  ghost predicate LosesPending(was: Stream, now: Stream) {
    exists id :: id in was.pending && id in was.entries && id !in now.entries
  }

  /** The race is real, and this is its exact size, over every run: a trim loses a
      pending entry exactly when an entry that was handed out in the gap, older
      than the point it cuts at, is still in the stream and still pending. The
      cutoff itself is the last entry handed out in the gap. */
  lemma TrimLosesExactly(steps: seq<Step>, trim: nat, below: nat)
    requires Legal(INIT, steps) && Enabled(Exec(INIT, steps), TrimCut(trim, below))
    ensures var s := Exec(INIT, steps);
            var t, s' := s.trimmers[trim], Next(s, TrimCut(trim, below));
            var was, now := s.streams[t.stream], s'.streams[t.stream];
            && (LosesPending(was, now) <==>
                && t.origin.LastDelivered?
                && exists id :: id in t.origin.gap && id < below && id in was.entries && id in was.pending)
            && (t.origin.LastDelivered? && t.origin.gap != {} ==> IsGreatest(t.origin.gap, t.cutoff))
  {
    RunKeepsInv(INIT, steps);
    var s := Exec(INIT, steps);
    var t, s' := s.trimmers[trim], Next(s, TrimCut(trim, below));
    var was, now := s.streams[t.stream], s'.streams[t.stream];
    assert Trims(s, t);
    if LosesPending(was, now) {
      var id :| id in was.pending && id in was.entries && id !in now.entries;
      assert id < below;
    }
    if t.origin.LastDelivered? {
      if id :| id in t.origin.gap && id < below && id in was.entries && id in was.pending {
        assert id !in now.entries;
      }
    }
  }

  ghost predicate Goes(s: State, step: Step, s': State) {
    Enabled(s, step) && Next(s, step) == s'
  }

  lemma Extend(steps: seq<Step>, step: Step, s': State) returns (more: seq<Step>)
    requires Legal(INIT, steps) && Goes(Exec(INIT, steps), step, s')
    ensures Legal(INIT, more) && Exec(INIT, more) == s'
  {
    AppendStep(INIT, steps, step);
    more := steps + [step];
  }

  /** Two entries on stream "q", of which `delivered` have been read. */
  function Pair(delivered: nat, pending: set<nat>): Stream {
    Stream(map[1 := "a", 2 := "b"], 2, delivered, pending)
  }

  function Watched(st: Stream, trimmers: map<nat, Trimmer>): State {
    State(map["q" := st], map[], map[0 := "q", 1 := "q"], trimmers)
  }

  lemma TwoWaiting() returns (steps: seq<Step>)
    ensures Legal(INIT, steps) && Exec(INIT, steps) == Watched(Pair(0, {}), map[])
  {
    var s1 := State(map["q" := EMPTY], map[], map[], map[]);
    var s2 := State(map["q" := Stream(map[1 := "a"], 1, 0, {})], map[], map[0 := "q"], map[]);
    steps := Extend([], CreateGroup("q"), s1);
    steps := Extend(steps, Publish(0, "q", 1, "a"), s2);
    steps := Extend(steps, Publish(1, "q", 2, "b"), Watched(Pair(0, {}), map[]));
  }

  lemma FirstReadGoes()
    ensures Goes(Watched(Pair(0, {}), map[0 := SawNonePending("q", {})]), Read("q", 1, 1),
                 Watched(Pair(1, {1}), map[0 := SawNonePending("q", {1})]))
  {
    assert Batch(Pair(0, {}), 1) == {1};
    assert {} + {1} == {1};
  }

  lemma SecondReadGoes()
    ensures Goes(Watched(Pair(1, {1}), map[0 := SawNonePending("q", {1})]), Read("q", 2, 1),
                 Watched(Pair(2, {1, 2}), map[0 := SawNonePending("q", {1, 2})]))
  {
    assert Batch(Pair(1, {1}), 2) == {2};
    assert {1} + {2} == {1, 2};
  }

  /** A run from the start that loses a pending entry, by two reads of one entry
      each in the gap. */
  lemma GapIsReachable() returns (steps: seq<Step>, trim: nat, below: nat)
    ensures Legal(INIT, steps) && Enabled(Exec(INIT, steps), TrimCut(trim, below))
    ensures var s := Exec(INIT, steps);
            var n := s.trimmers[trim].stream;
            LosesPending(s.streams[n], Next(s, TrimCut(trim, below)).streams[n])
  {
    trim, below := 0, 2;
    steps := TwoWaiting();
    FirstReadGoes();
    SecondReadGoes();
    var cutoff := HasCutoff("q", 2, LastDelivered({1, 2}));
    steps := Extend(steps, TrimPending(0, "q"), Watched(Pair(0, {}), map[0 := SawNonePending("q", {})]));
    steps := Extend(steps, Read("q", 1, 1), Watched(Pair(1, {1}), map[0 := SawNonePending("q", {1})]));
    steps := Extend(steps, Read("q", 2, 1), Watched(Pair(2, {1, 2}), map[0 := SawNonePending("q", {1, 2})]));
    steps := Extend(steps, TrimInfo(0), Watched(Pair(2, {1, 2}), map[0 := cutoff]));
    assert 1 in Pair(2, {1, 2}).pending && 1 !in XTrim(Pair(2, {1, 2}), 2).entries;
  }

  // --- Scheduling ---

  /** A stream with entries is in the scheduling set, or a publisher is about
      to put it there. */
  lemma NonEmptyStaysScheduled(steps: seq<Step>, name: Name)
    requires Legal(INIT, steps)
    ensures var s := Exec(INIT, steps);
            name in s.streams && s.streams[name].entries != map[] ==> Scheduled(s, name)
  {
    RunKeepsInv(INIT, steps);
    assert Settled(Exec(INIT, steps), name);
  }

  lemma StepKeepsDelivered(s: State, step: Step, name: Name)
    requires Inv(s) && Enabled(s, step) && name in s.streams && s.streams[name].lastDelivered > 0
    ensures var s' := Next(s, step);
            && name in s'.streams && s'.streams[name].lastDelivered >= s.streams[name].lastDelivered
            && (name in s.scheduled ==> name in s'.scheduled)
  {
    assert Valid(s.streams[name]);
  }

  /** Once an entry of a stream was delivered, the stream never empties, and if
      it is scheduled it stays scheduled. */
  lemma {:induction false} DeliveredNeverLeaves(s: State, steps: seq<Step>, name: Name)
    requires Inv(s) && Legal(s, steps)
    requires name in s.streams && s.streams[name].lastDelivered > 0
    ensures var s' := Exec(s, steps);
            && name in s'.streams && s'.streams[name].lastDelivered >= s.streams[name].lastDelivered
            && s'.streams[name].lastDelivered in s'.streams[name].entries
            && (name in s.scheduled ==> name in s'.scheduled)
    decreases steps
  {
    if steps == [] {
      assert Valid(s.streams[name]);
    } else {
      StepKeepsInv(s, steps[0]);
      StepKeepsDelivered(s, steps[0], name);
      DeliveredNeverLeaves(Next(s, steps[0]), steps[1..], name);
    }
  }
}
