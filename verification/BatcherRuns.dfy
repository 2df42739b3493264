/** The batcher of the pipeline is a run of the per-origin buffers, so what holds of every such run, how long records are
buffered in particular, holds of every run of the pipeline. */
module BatcherRuns {
  import opened Stream
  import opened InsertBatching
  import opened OriginBatching
  import opened OriginRuns
  import opened Ages
  import opened Protocol
  import opened Conservation
  import opened Soundness
  import opened Guarantees

  /** What an action of the pipeline does to the buffers. */
  ghost function StepsOf(c: Constants, s: State, a: Action): seq<Step>
    requires Enabled(c, s, a)
  {
    match a
    case Ingest(clock) => (
      match s.queue[0]
      case Logs(o, t, n) => if n == 0 then [] else [Pushes(o, t, Named(t, n), clock)]
      case Barrier(_) => [Flushes(None)])
    case Timer(now) => [Flushes(Some(now))]
    case Drain => [Flushes(None)]
    case _ => []
  }

  ghost function BatcherSteps(c: Constants, s: State, run: seq<Action>): seq<Step>
    requires Legal(c, s, run)
    decreases |run|
  {
    if run == [] then [] else StepsOf(c, s, run[0]) + BatcherSteps(c, Do(c, s, run[0]), run[1..])
  }

  lemma {:induction false} EmitsNothing(cfg: Config, entries: seq<Entry>)
    requires 0 < cfg.maxRecords && ValidEntries(entries)
    ensures Emits(cfg, entries, []).1 == entries
  {
  }

  lemma {:induction false} EmitsOne(cfg: Config, entries: seq<Entry>, step: Step)
    requires 0 < cfg.maxRecords && ValidEntries(entries)
    ensures Emits(cfg, entries, [step]).1 == OneStep(cfg, entries, step).1
  {
    StepKeepsValid(cfg, entries, step);
    EmitsNothing(cfg, OneStep(cfg, entries, step).1);
    assert [step][1..] == [];
  }

  lemma {:induction false} EmitsCons(cfg: Config, entries: seq<Entry>, step: Step, rest: seq<Step>)
    requires 0 < cfg.maxRecords && ValidEntries(entries) && ValidEntries(OneStep(cfg, entries, step).1)
    ensures Emits(cfg, entries, [step] + rest).1 == Emits(cfg, OneStep(cfg, entries, step).1, rest).1
  {
    assert ([step] + rest)[0] == step && ([step] + rest)[1..] == rest;
  }

  lemma IngestIsStep(c: Constants, s: State, clock: nat -> nat)
    requires SoundBatches(c, s) && Enabled(c, s, Ingest(clock))
    ensures DoIngest(c, s, clock).entries == Emits(c.cfg, s.entries, StepsOf(c, s, Ingest(clock))).1
  {
    match s.queue[0] {
      case Logs(o, t, n) =>
        if n == 0 {
          EmitsNothing(c.cfg, s.entries);
        } else {
          EmitsOne(c.cfg, s.entries, Pushes(o, t, Named(t, n), clock));
        }
      case Barrier(_) => EmitsOne(c.cfg, s.entries, Flushes(None));
    }
  }

  lemma BatcherIsStep(c: Constants, s: State, a: Action)
    requires SoundBatches(c, s) && Enabled(c, s, a) && ByBatcher(a) && !a.BatcherExit?
    ensures Do(c, s, a).entries == Emits(c.cfg, s.entries, StepsOf(c, s, a)).1
  {
    match a {
      case Ingest(clock) => IngestIsStep(c, s, clock);
      case Timer(now) => EmitsOne(c.cfg, s.entries, Flushes(Some(now)));
      case Drain => EmitsOne(c.cfg, s.entries, Flushes(None));
      case Submit => EmitsNothing(c.cfg, s.entries);
    }
  }

  /** Every action but the batcher's exit moves the buffers as the steps say. */
  lemma ActionIsStep(c: Constants, s: State, a: Action)
    requires SoundBatches(c, s) && Enabled(c, s, a) && !a.BatcherExit?
    ensures Do(c, s, a).entries == Emits(c.cfg, s.entries, StepsOf(c, s, a)).1
  {
    if ByBatcher(a) {
      BatcherIsStep(c, s, a);
    } else {
      EmitsNothing(c.cfg, s.entries);
      if ByProducer(a) {
        ProducersTouchOnly(c, s, a);
      } else if ByWriter(a) {
        WriterTouchesOnly(c, s, a);
      } else {
        HandlersTouchNoPipe(c, s, a);
      }
    }
  }

  lemma GoneStays(c: Constants, s: State, a: Action)
    requires Enabled(c, s, a) && SoundPhases(s) && s.batcher.Gone?
    ensures Do(c, s, a).batcher.Gone?
  {
    if ByProducer(a) {
      ProducersTouchOnly(c, s, a);
    } else if ByWriter(a) {
      WriterTouchesOnly(c, s, a);
    } else if !ByBatcher(a) {
      HandlersTouchNoPipe(c, s, a);
    }
  }

  lemma {:induction false} GoneForGood(c: Constants, s: State, run: seq<Action>)
    requires Inv(c, s) && Legal(c, s, run) && s.batcher.Gone?
    ensures Exec(c, s, run).batcher.Gone?
    decreases |run|
  {
    if run != [] {
      GoneStays(c, s, run[0]);
      InvKept(c, s, run[0]);
      GoneForGood(c, Do(c, s, run[0]), run[1..]);
    }
  }

  /** The first action's steps, then the others'. */
  lemma {:induction false} EmitsActionFirst(cfg: Config, entries: seq<Entry>, first: seq<Step>, rest: seq<Step>)
    requires 0 < cfg.maxRecords && ValidEntries(entries) && |first| <= 1
    requires ValidEntries(Emits(cfg, entries, first).1)
    ensures Emits(cfg, entries, first + rest).1 == Emits(cfg, Emits(cfg, entries, first).1, rest).1
  {
    if first == [] {
      EmitsNothing(cfg, entries);
      assert first + rest == rest;
    } else {
      assert first == [first[0]];
      EmitsOne(cfg, entries, first[0]);
      EmitsCons(cfg, entries, first[0], rest);
    }
  }

  /** As long as the batcher is there, its buffers are those of a run of pushes and flushes. */
  lemma {:induction false} BuffersAreRun(c: Constants, s: State, run: seq<Action>)
    requires Inv(c, s) && Legal(c, s, run) && !Exec(c, s, run).batcher.Gone?
    ensures Exec(c, s, run).entries == Emits(c.cfg, s.entries, BatcherSteps(c, s, run)).1
    decreases |run|
  {
    if run == [] {
      EmitsNothing(c.cfg, s.entries);
    } else {
      var s' := Do(c, s, run[0]);
      InvKept(c, s, run[0]);
      if run[0].BatcherExit? {
        GoneForGood(c, s', run[1..]);
      } else {
        ActionIsStep(c, s, run[0]);
        BuffersAreRun(c, s', run[1..]);
        EmitsActionFirst(c.cfg, s.entries, StepsOf(c, s, run[0]), BatcherSteps(c, s', run[1..]));
      }
    }
  }

  /** Over every run of the pipeline, a timer sends off the buffer of an origin if and only if its oldest record is past
      its age, and then whole. */
  lemma {:induction false} TimersSendByAge(c: Constants, run: seq<Action>, s: State, o: Origin, now: nat)
    requires Reached(c, run, s) && Enabled(c, s, Timer(now)) && AllReadable(c.cfg, BatcherSteps(c, INITIAL, run))
    ensures
      var entered := TimesOf(RunTimes(c.cfg, [], map[], BatcherSteps(c, INITIAL, run)), o);
      && ValidEntries(s.entries) && |entered| == |BufferFor(s.entries, o).records| && Representable(c.cfg, entered)
      && SentByAge(c.cfg, s.entries, o, entered, now)
      && Do(c, s, Timer(now)).entries == FlushEntries(s.entries, Some(now)).1
      && Do(c, s, Timer(now)).outbox == Inserts(FlushEntries(s.entries, Some(now)).0)
  {
    InvInitially(c);
    BuffersAreRun(c, INITIAL, run);
    TimerIsExact(c.cfg, BatcherSteps(c, INITIAL, run), o, now);
  }
}
