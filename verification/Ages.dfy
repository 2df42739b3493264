/** How long records are buffered, over whole runs: a timer sends off exactly the buffers whose oldest record is
past its age. Entry times are a history nobody reads: the instants at which the buffered records moved in. */
module Ages {
  import opened Clock
  import opened Stream
  import opened InsertBatching
  import opened OriginBatching
  import opened OriginRuns

  /** When the records buffered for each origin entered. */
  type Times = map<Origin, seq<nat>>

  function TimesOf(times: Times, o: Origin): seq<nat> {
    if o in times then times[o] else []
  }

  predicate Representable(cfg: Config, entered: seq<nat>) {
    forall i :: 0 <= i < |entered| ==> entered[i] <= cfg.horizon
  }

  /** A buffer whose records entered at the given instants, with the deadline of the oldest one. */
  predicate Timed(cfg: Config, b: Buffer, entered: seq<nat>) {
    && |entered| == |b.records| && Representable(cfg, entered)
    && b.deadline == DeadlineOf(entered, cfg.maxAge, cfg.horizon)
  }

  ghost predicate AllTimed(cfg: Config, entries: seq<Entry>, times: Times) {
    forall o: Origin :: Timed(cfg, BufferFor(entries, o), TimesOf(times, o))
  }

  // ---------------------------------------------------------------- one step

  ghost function TimesAfter(cfg: Config, entries: seq<Entry>, times: Times, step: Step): Times
    requires 0 < cfg.maxRecords && ValidEntries(entries)
  {
    var after := OneStep(cfg, entries, step).1;
    match step
    case Pushes(o, _, records, clock) =>
      var emitted := |EmitFull(BufferFor(entries, o).records + records, cfg.maxRecords).0|;
      times[o := EnteredAfter(TimesOf(times, o), emitted, |records|, |BufferFor(after, o).records|, clock)]
    case Flushes(_) =>
      map o | o in times && BufferFor(after, o).records != [] :: times[o]
  }

  /** The clock has no instants beyond its horizon. */
  ghost predicate Readable(cfg: Config, step: Step) {
    step.Pushes? ==> forall k: nat :: step.clock(k) <= cfg.horizon
  }

  lemma BufferIsAligned(entries: seq<Entry>, o: Origin)
    requires ValidEntries(entries)
    ensures Aligned(BufferFor(entries, o))
  {
  }

  /** The buffer of the origin pushed to, and those of the others. */
  lemma PushedBuffer(
    cfg: Config, entries: seq<Entry>, origin: Origin, ticket: nat, records: seq<Record>, clock: nat -> nat, o: Origin)
    requires 0 < cfg.maxRecords && ValidEntries(entries)
    ensures Aligned(BufferFor(entries, origin))
    ensures
      var after := PushEntries(cfg, entries, origin, ticket, records, clock).1;
      BufferFor(after, o) ==
        if o == origin then PushBuffer(cfg, BufferFor(entries, origin), origin, ticket, records, clock).1 else BufferFor(entries, o)
  {
    var b := BufferFor(entries, origin);
    BufferIsAligned(entries, origin);
    var b' := PushBuffer(cfg, b, origin, ticket, records, clock).1;
    PushTokens(cfg, b, origin, ticket, records, clock);
    EmptyOrHolding(b');
    BufferReplaced(entries, origin, b', o);
  }

  lemma PushIsTimed(cfg: Config, entries: seq<Entry>, times: Times, step: Step, o: Origin)
    requires 0 < cfg.maxRecords && ValidEntries(entries) && AllTimed(cfg, entries, times)
    requires step.Pushes? && Readable(cfg, step)
    ensures Timed(cfg, BufferFor(OneStep(cfg, entries, step).1, o), TimesOf(TimesAfter(cfg, entries, times, step), o))
  {
    PushedBuffer(cfg, entries, step.origin, step.ticket, step.records, step.clock, o);
    assert Timed(cfg, BufferFor(entries, o), TimesOf(times, o));
    if o == step.origin {
      DeadlineIsTheAccumulators(
        cfg, BufferFor(entries, o), o, step.ticket, step.records, step.clock, TimesOf(times, o));
    }
  }

  /** A flush sends a buffer off whole or leaves it as it is. */
  lemma {:induction false} FlushedBuffer(entries: seq<Entry>, when: Option<nat>, o: Origin)
    requires ValidEntries(entries)
    ensures
      var (subs, kept) := FlushEntries(entries, when);
      BufferFor(kept, o) == if Leaves(BufferFor(entries, o), when) then EMPTY_BUFFER else BufferFor(entries, o)
  {
    if entries != [] {
      var e, rest := entries[0], entries[1..];
      ValidTail(entries);
      FlushedBuffer(rest, when, o);
      assert entries == [e] + rest;
      BufferCons(e, rest, o);
      BufferCons(e, FlushEntries(rest, when).1, o);
      if e.origin == o {
        FlushOfOthers(rest, when, o);
        BufferAbsent(FlushEntries(rest, when).1, o);
      }
    }
  }

  lemma FlushIsTimed(cfg: Config, entries: seq<Entry>, times: Times, step: Step, o: Origin)
    requires 0 < cfg.maxRecords && ValidEntries(entries) && AllTimed(cfg, entries, times) && step.Flushes?
    ensures Timed(cfg, BufferFor(OneStep(cfg, entries, step).1, o), TimesOf(TimesAfter(cfg, entries, times, step), o))
  {
    FlushedBuffer(entries, step.when, o);
    assert Timed(cfg, BufferFor(entries, o), TimesOf(times, o));
  }

  lemma StepIsTimed(cfg: Config, entries: seq<Entry>, times: Times, step: Step)
    requires 0 < cfg.maxRecords && ValidEntries(entries) && AllTimed(cfg, entries, times) && Readable(cfg, step)
    ensures AllTimed(cfg, OneStep(cfg, entries, step).1, TimesAfter(cfg, entries, times, step))
  {
    forall o: Origin
      ensures Timed(cfg, BufferFor(OneStep(cfg, entries, step).1, o), TimesOf(TimesAfter(cfg, entries, times, step), o))
    {
      if step.Pushes? {
        PushIsTimed(cfg, entries, times, step, o);
      } else {
        FlushIsTimed(cfg, entries, times, step, o);
      }
    }
  }

  // ---------------------------------------------------------------- runs

  ghost function RunTimes(cfg: Config, entries: seq<Entry>, times: Times, steps: seq<Step>): Times
    requires 0 < cfg.maxRecords && ValidEntries(entries)
    decreases |steps|
  {
    if steps == [] then times
    else
      StepKeepsValid(cfg, entries, steps[0]);
      RunTimes(cfg, OneStep(cfg, entries, steps[0]).1, TimesAfter(cfg, entries, times, steps[0]), steps[1..])
  }

  ghost predicate AllReadable(cfg: Config, steps: seq<Step>) {
    forall i :: 0 <= i < |steps| ==> Readable(cfg, steps[i])
  }

  lemma {:induction false} RunIsTimed(cfg: Config, entries: seq<Entry>, times: Times, steps: seq<Step>)
    requires 0 < cfg.maxRecords && ValidEntries(entries) && AllTimed(cfg, entries, times) && AllReadable(cfg, steps)
    ensures
      var last := Emits(cfg, entries, steps).1;
      ValidEntries(last) && AllTimed(cfg, last, RunTimes(cfg, entries, times, steps))
    decreases |steps|
  {
    if steps != [] {
      StepKeepsValid(cfg, entries, steps[0]);
      StepIsTimed(cfg, entries, times, steps[0]);
      RunIsTimed(cfg, OneStep(cfg, entries, steps[0]).1, TimesAfter(cfg, entries, times, steps[0]), steps[1..]);
    }
  }

  lemma NothingIsTimed(cfg: Config)
    ensures AllTimed(cfg, [], map[])
  {
  }

  /** What a timer does to the buffer of an origin whose records entered at the given instants: it leaves whole if
      the oldest one is past its age, and otherwise stays as it is. */
  ghost predicate SentByAge(cfg: Config, entries: seq<Entry>, o: Origin, entered: seq<nat>, now: nat)
    requires ValidEntries(entries) && Representable(cfg, entered)
  {
    var (subs, kept) := FlushEntries(entries, Some(now));
    if entered != [] && SaturatingDeadline(entered[0], cfg.maxAge, cfg.horizon) <= now then
      BufferFor(kept, o) == EMPTY_BUFFER && Under(subs, o) == BufferOf(entries, o)
    else BufferFor(kept, o) == BufferFor(entries, o) && Under(subs, o) == []
  }

  lemma TimerSendsByAge(cfg: Config, entries: seq<Entry>, times: Times, o: Origin, now: nat)
    requires ValidEntries(entries) && AllTimed(cfg, entries, times)
    ensures Timed(cfg, BufferFor(entries, o), TimesOf(times, o))
    ensures SentByAge(cfg, entries, o, TimesOf(times, o), now)
  {
    var (subs, kept) := FlushEntries(entries, Some(now));
    assert Timed(cfg, BufferFor(entries, o), TimesOf(times, o));
    FlushedBuffer(entries, Some(now), o);
    FlushKeepsEachOrigin(entries, Some(now), o);
    if BufferFor(kept, o) == BufferFor(entries, o) {
      assert |Under(subs, o)| + |BufferOf(kept, o)| == |BufferOf(entries, o)|;
    } else {
      assert Under(subs, o) + [] == Under(subs, o);
    }
  }

  /** After any run of pushes and flushes, a timer at `now` sends off the buffer of an origin if and only if its oldest
      record is past its age, and then whole. */
  lemma {:induction false} TimerIsExact(cfg: Config, steps: seq<Step>, o: Origin, now: nat)
    requires 0 < cfg.maxRecords && AllReadable(cfg, steps)
    ensures
      var entries, entered := Emits(cfg, [], steps).1, TimesOf(RunTimes(cfg, [], map[], steps), o);
      && ValidEntries(entries) && |entered| == |BufferFor(entries, o).records| && Representable(cfg, entered)
      && SentByAge(cfg, entries, o, entered, now)
  {
    NothingIsTimed(cfg);
    RunIsTimed(cfg, [], map[], steps);
    TimerSendsByAge(cfg, Emits(cfg, [], steps).1, RunTimes(cfg, [], map[], steps), o, now);
  }

  // ---------------------------------------------------------------- no record overstays

  /** The clock never goes back: no reading of the run is before `from` or before an earlier one. */
  ghost predicate Onward(steps: seq<Step>, from: nat)
    decreases |steps|
  {
    steps == [] ||
    match steps[0]
    case Pushes(_, _, _, clock) => exists to: nat :: ReadsBetween(clock, from, to) && Onward(steps[1..], to)
    case Flushes(when) => (when.None? || from <= when.value) && Onward(steps[1..], if when.None? then from else when.value)
  }

  ghost predicate ReadsBetween(clock: nat -> nat, from: nat, to: nat) {
    && from <= to
    && (forall k: nat :: from <= clock(k) <= to)
    && (forall j: nat, k: nat :: j <= k ==> clock(j) <= clock(k))
  }

  /** The oldest record entered first, and none after `until`. */
  predicate InOrder(entered: seq<nat>, until: nat) {
    forall i :: 0 <= i < |entered| ==> entered[0] <= entered[i] <= until
  }

  ghost predicate AllInOrder(times: Times, until: nat) {
    forall o: Origin :: InOrder(TimesOf(times, o), until)
  }

  lemma PushKeepsOrder(cfg: Config, entries: seq<Entry>, times: Times, step: Step, from: nat, to: nat)
    requires 0 < cfg.maxRecords && ValidEntries(entries) && AllInOrder(times, from)
    requires step.Pushes? && ReadsBetween(step.clock, from, to)
    ensures AllInOrder(TimesAfter(cfg, entries, times, step), to)
  {
    forall o: Origin ensures InOrder(TimesOf(TimesAfter(cfg, entries, times, step), o), to) {
      assert InOrder(TimesOf(times, o), from);
    }
  }

  lemma FlushKeepsOrder(cfg: Config, entries: seq<Entry>, times: Times, step: Step, from: nat, to: nat)
    requires 0 < cfg.maxRecords && ValidEntries(entries) && AllInOrder(times, from) && step.Flushes? && from <= to
    ensures AllInOrder(TimesAfter(cfg, entries, times, step), to)
  {
    forall o: Origin ensures InOrder(TimesOf(TimesAfter(cfg, entries, times, step), o), to) {
      assert InOrder(TimesOf(times, o), from);
    }
  }

  lemma {:induction false} RunKeepsOrder(cfg: Config, entries: seq<Entry>, times: Times, steps: seq<Step>, now: nat, from: nat)
    requires 0 < cfg.maxRecords && ValidEntries(entries) && AllInOrder(times, from)
    requires Onward(steps + [Flushes(Some(now))], from)
    ensures AllInOrder(RunTimes(cfg, entries, times, steps), now)
    decreases |steps|
  {
    var all := steps + [Flushes(Some(now))];
    if steps == [] {
      assert all[0] == Flushes(Some(now));
      forall o: Origin ensures InOrder(TimesOf(times, o), now) {
        assert InOrder(TimesOf(times, o), from);
      }
    } else {
      assert all[0] == steps[0] && all[1..] == steps[1..] + [Flushes(Some(now))];
      var to: nat;
      match steps[0] {
        case Pushes(_, _, _, clock) =>
          to :| ReadsBetween(clock, from, to) && Onward(all[1..], to);
          PushKeepsOrder(cfg, entries, times, steps[0], from, to);
        case Flushes(when) =>
          to := if when.None? then from else when.value;
          FlushKeepsOrder(cfg, entries, times, steps[0], from, to);
      }
      StepKeepsValid(cfg, entries, steps[0]);
      RunKeepsOrder(cfg, OneStep(cfg, entries, steps[0]).1, TimesAfter(cfg, entries, times, steps[0]), steps[1..], now, to);
    }
  }

  /** On a clock that never goes back: after a timer at `now` no record that is still buffered is past its age, and a
      buffer the timer sent off had kept its oldest record for all of it. */
  lemma {:induction false} NothingOverstays(cfg: Config, steps: seq<Step>, o: Origin, now: nat, p: nat)
    requires 0 < cfg.maxRecords && AllReadable(cfg, steps) && Onward(steps + [Flushes(Some(now))], 0)
    requires p < |TimesOf(RunTimes(cfg, [], map[], steps), o)|
    ensures
      var entries, entered := Emits(cfg, [], steps).1, TimesOf(RunTimes(cfg, [], map[], steps), o);
      && ValidEntries(entries) && entered[0] <= entered[p] <= now
      && (entered[0] + cfg.maxAge <= cfg.horizon ==>
            var kept := FlushEntries(entries, Some(now)).1;
            if BufferFor(kept, o).records == [] then entered[0] + cfg.maxAge <= now else now < entered[p] + cfg.maxAge)
  {
    TimerIsExact(cfg, steps, o, now);
    RunKeepsOrder(cfg, [], map[], steps, now, 0);
    assert InOrder(TimesOf(RunTimes(cfg, [], map[], steps), o), now);
  }
}
