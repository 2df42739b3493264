/** The structural invariants of the pipeline, kept by every action. */
module Soundness {
  import opened Ledger
  import opened Stream
  import opened InsertBatching
  import opened OriginBatching
  import opened Protocol
  import opened Conservation
  import opened Steps

  // ---------------------------------------------------------------- batches

  lemma PushedAreWell(subs: seq<Submission>, origin: Origin)
    requires AllWellFormed(subs, origin)
    ensures AllWell(Inserts(subs))
  {
  }

  lemma WellAppend(a: seq<Command>, b: seq<Command>)
    requires AllWell(a) && AllWell(b)
    ensures AllWell(a + b)
  {
  }

  lemma IngestChunkKeepsBatches(c: Constants, s: State, m: Message, clock: nat -> nat, s': State)
    requires SoundBatches(c, s) && s.outbox == [] && m.Logs?
    requires
      var (subs, after) := PushEntries(c.cfg, s.entries, m.origin, m.ticket, Named(m.ticket, m.size), clock);
      s'.entries == after && Down(s') == Down(s) + Inserts(subs)
    ensures SoundBatches(c, s')
  {
    var (subs, after) := PushEntries(c.cfg, s.entries, m.origin, m.ticket, Named(m.ticket, m.size), clock);
    PushKeepsValid(c.cfg, s.entries, m.origin, m.ticket, Named(m.ticket, m.size), clock);
    PushedAreWell(subs, m.origin);
    WellAppend(Down(s), Inserts(subs));
  }

  lemma {:induction false} FlushKeepsBatches(c: Constants, s: State, when: Option<nat>, tail: seq<Command>, s': State)
    requires SoundBatches(c, s) && AllWell(tail)
    requires
      var (subs, after) := FlushEntries(s.entries, when);
      s'.entries == after && Down(s') == Down(s) + (Inserts(subs) + tail)
    ensures SoundBatches(c, s')
  {
    var (subs, after) := FlushEntries(s.entries, when);
    FlushKeepsValid(s.entries, when);
    assert AllWell(Inserts(subs));
    WellAppend(Inserts(subs), tail);
    WellAppend(Down(s), Inserts(subs) + tail);
  }

  lemma IngestKeepsBatches(c: Constants, s: State, clock: nat -> nat)
    requires SoundBatches(c, s) && s.outbox == [] && s.queue != [] && Usable(c, s)
    ensures SoundBatches(c, DoIngest(c, s, clock))
  {
    var s' := DoIngest(c, s, clock);
    IngestTouchesOnly(c, s, clock);
    DownAfterEmission(s, s');
    match s.queue[0] {
      case Logs(origin, t, n) =>
        if n == 0 {
          assert Down(s) + [] == Down(s);
        } else {
          IngestChunkKeepsBatches(c, s, s.queue[0], clock, s');
        }
      case Barrier(bound) => FlushKeepsBatches(c, s, None, [Flush(bound)], s');
    }
  }

  lemma DoFlushKeepsBatches(c: Constants, s: State, when: Option<nat>)
    requires SoundBatches(c, s) && s.outbox == [] && Usable(c, s)
    ensures SoundBatches(c, DoFlush(c, s, when))
  {
    var s' := DoFlush(c, s, when);
    assert s'.outbox == s'.outbox + [];
    assert Down(s') == Down(s) + (s'.outbox + []);
    FlushKeepsBatches(c, s, when, [], s');
  }

  /** Actions that only hand commands on, drop them, or add one without records. */
  lemma ShrinkKeepsBatches(c: Constants, s: State, s': State)
    requires SoundBatches(c, s) && (s'.entries == s.entries || s'.entries == [])
    requires forall cmd :: cmd in Down(s') ==> cmd in Down(s) || !cmd.Insert?
    ensures SoundBatches(c, s')
  {
  }

  // ---------------------------------------------------------------- who acts

  predicate ByProducer(a: Action) {
    a.Reserve? || a.IssueTicket? || a.Send? || a.LeaveGate? || a.SendBarrier? || a.CloseInput?
  }

  predicate ByBatcher(a: Action) {
    a.Ingest? || a.Timer? || a.Drain? || a.Submit? || a.BatcherExit?
  }

  predicate ByWriter(a: Action) {
    a.OfferOther? || a.Receive? || a.PersistClean? || a.PersistSalvage? || a.WriterDies? || a.SettleOne? || a.SettleDone?
  }

  predicate ByHandler(a: Action) {
    a.AnswerNow? || a.Release? || a.ReadState? || a.AnswerFinally?
  }

  /** Only requests, publications and the closed flag may differ. */
  predicate SamePipes(s: State, s': State) {
    && s'.book.(closed := s.book.closed) == s.book
    && s'.inputOpen == s.inputOpen && s'.gate == s.gate && s'.queue == s.queue && s'.batcher == s.batcher
    && s'.entries == s.entries && s'.outbox == s.outbox && s'.commands == s.commands && s'.writer == s.writer
    && s'.log == s.log && s'.archive == s.archive && s'.sizes == s.sizes && s'.sends == s.sends
  }

  lemma HandlersOnlyAnswer(c: Constants, s: State, a: Action)
    requires Enabled(c, s, a) && ByHandler(a)
    ensures Do(c, s, a) == s.(requests := Do(c, s, a).requests)
  {
  }

  lemma HandlersTouchNoPipe(c: Constants, s: State, a: Action)
    requires Enabled(c, s, a) && (ByHandler(a) || a.CloseLedger? || a.Publish?)
    ensures SamePipes(s, Do(c, s, a))
  {
    if ByHandler(a) {
      HandlersOnlyAnswer(c, s, a);
    }
  }

  lemma SendTouchesOnly(c: Constants, s: State)
    requires s.gate.Taken? && s.gate.hand.Some? && s.gate.todo != []
    ensures
      var s' := DoSend(c, s);
      && s'.batcher == s.batcher && s'.entries == s.entries && s'.outbox == s.outbox
      && s'.commands == s.commands && s'.writer == s.writer
  {
  }

  lemma ProducersTouchOnly(c: Constants, s: State, a: Action)
    requires Enabled(c, s, a) && ByProducer(a)
    ensures
      var s' := Do(c, s, a);
      && s'.batcher == s.batcher && s'.entries == s.entries && s'.outbox == s.outbox
      && s'.commands == s.commands && s'.writer == s.writer
  {
    if a.Send? {
      SendTouchesOnly(c, s);
    }
  }

  lemma {:induction false} WriterTouchesOnly(c: Constants, s: State, a: Action)
    requires Enabled(c, s, a) && ByWriter(a)
    ensures
      var s' := Do(c, s, a);
      && s'.inputOpen == s.inputOpen && s'.gate == s.gate && s'.queue == s.queue && s'.batcher == s.batcher
      && s'.entries == s.entries && s'.outbox == s.outbox && s'.sizes == s.sizes
      && s'.archive.origins == s.archive.origins
      && s'.sends == s.sends && s'.requests == s.requests
      && (s.writer.Stopped? ==> s'.writer.Stopped?)
  {
  }

  // ---------------------------------------------------------------- batches, by every action

  lemma {:induction false} WriterAddsNoBatch(c: Constants, s: State, a: Action, cmd: Command)
    requires Enabled(c, s, a) && ByWriter(a) && cmd in Down(Do(c, s, a))
    ensures cmd in Down(s) || !cmd.Insert?
  {
  }

  lemma WriterKeepsBatches(c: Constants, s: State, a: Action)
    requires SoundBatches(c, s) && Enabled(c, s, a) && ByWriter(a)
    ensures SoundBatches(c, Do(c, s, a))
  {
    var s' := Do(c, s, a);
    WriterTouchesOnly(c, s, a);
    forall cmd | cmd in Down(s') ensures cmd in Down(s) || !cmd.Insert? {
      WriterAddsNoBatch(c, s, a, cmd);
    }
    ShrinkKeepsBatches(c, s, s');
  }

  lemma BatcherKeepsBatches(c: Constants, s: State, a: Action)
    requires SoundBatches(c, s) && Enabled(c, s, a) && ByBatcher(a)
    ensures SoundBatches(c, Do(c, s, a))
  {
    match a {
      case Ingest(clock) => IngestKeepsBatches(c, s, clock);
      case Timer(now) => DoFlushKeepsBatches(c, s, Some(now));
      case Drain =>
        DoFlushKeepsBatches(c, s, None);
        ShrinkKeepsBatches(c, DoFlush(c, s, None), Do(c, s, a));
      case Submit => ShrinkKeepsBatches(c, s, Do(c, s, a));
      case BatcherExit => ShrinkKeepsBatches(c, s, Do(c, s, a));
    }
  }

  lemma BatchesKept(c: Constants, s: State, a: Action)
    requires SoundBatches(c, s) && Enabled(c, s, a)
    ensures SoundBatches(c, Do(c, s, a))
  {
    if ByWriter(a) {
      WriterKeepsBatches(c, s, a);
    } else if ByBatcher(a) {
      BatcherKeepsBatches(c, s, a);
    } else {
      if ByProducer(a) {
        ProducersTouchOnly(c, s, a);
      } else {
        HandlersTouchNoPipe(c, s, a);
      }
      ShrinkKeepsBatches(c, s, Do(c, s, a));
    }
  }

  // ---------------------------------------------------------------- tickets, by every action

  lemma SendKeepsTickets(c: Constants, s: State)
    requires SoundTickets(s) && s.gate.Taken? && s.gate.hand.Some? && s.gate.todo != []
    ensures SoundTickets(DoSend(c, s))
  {
    assert Hand(s) == s.gate.hand;
    assert s.gate.todo[0].size < U64_MAX;
  }

  lemma ProducersKeepTickets(c: Constants, s: State, a: Action)
    requires SoundTickets(s) && Enabled(c, s, a) && ByProducer(a)
    ensures SoundTickets(Do(c, s, a))
  {
    match a {
      case Send => SendKeepsTickets(c, s);
      case Reserve(rid, chunks) =>
      case IssueTicket =>
      case LeaveGate =>
      case SendBarrier =>
      case CloseInput =>
    }
  }

  /** Consuming messages only forgets some. */
  lemma FewerMessages(s: State, s': State)
    requires SoundTickets(s)
    requires s'.sizes == s.sizes && s'.book.issued == s.book.issued && s'.gate == s.gate
    requires forall m :: m in s'.queue ==> m in s.queue
    ensures SoundTickets(s')
  {
    forall i | 0 <= i < |s'.queue| && s'.queue[i].Logs?
      ensures s'.queue[i].ticket in s.sizes && s.sizes[s'.queue[i].ticket] == s'.queue[i].size
    {
      assert s'.queue[i] in s.queue;
    }
  }

  lemma BatcherKeepsTickets(c: Constants, s: State, a: Action)
    requires SoundTickets(s) && Enabled(c, s, a) && ByBatcher(a)
    ensures SoundTickets(Do(c, s, a))
  {
    if a.Ingest? {
      IngestTouchesOnly(c, s, a.clock);
    }
    FewerMessages(s, Do(c, s, a));
  }

  lemma TicketsKept(c: Constants, s: State, a: Action)
    requires SoundTickets(s) && Enabled(c, s, a) && TicketCalls(OpsLeft(s))
    ensures SoundTickets(Do(c, s, a))
  {
    if ByProducer(a) {
      ProducersKeepTickets(c, s, a);
    } else if ByBatcher(a) {
      BatcherKeepsTickets(c, s, a);
    } else {
      if ByWriter(a) {
        WriterTouchesOnly(c, s, a);
        WriterIssuesNothing(c, s, a);
      } else {
        HandlersTouchNoPipe(c, s, a);
      }
      FewerMessages(s, Do(c, s, a));
    }
  }

  lemma WriterIssuesNothing(c: Constants, s: State, a: Action)
    requires Enabled(c, s, a) && ByWriter(a) && TicketCalls(OpsLeft(s))
    ensures Do(c, s, a).book.issued == s.book.issued
  {
    if a.SettleOne? {
      assert !OpsLeft(s)[0].Issue?;
    }
  }

  // ---------------------------------------------------------------- phases, by every action

  lemma BatcherKeepsPhases(c: Constants, s: State, a: Action)
    requires SoundPhases(s) && SoundBatches(c, s) && Enabled(c, s, a) && ByBatcher(a)
    ensures SoundPhases(Do(c, s, a))
  {
    match a {
      case Ingest(clock) =>
      case Timer(now) =>
      case Drain =>
        FlushKeepsValid(s.entries, None);
      case Submit =>
      case BatcherExit =>
    }
  }

  lemma PhasesKept(c: Constants, s: State, a: Action)
    requires SoundPhases(s) && SoundBatches(c, s) && Enabled(c, s, a)
    ensures SoundPhases(Do(c, s, a))
  {
    if ByBatcher(a) {
      BatcherKeepsPhases(c, s, a);
    } else if ByProducer(a) {
      ProducersKeepPhases(c, s, a);
    } else if ByWriter(a) {
      WriterTouchesOnly(c, s, a);
    } else {
      HandlersTouchNoPipe(c, s, a);
    }
  }

  lemma ProducersKeepPhases(c: Constants, s: State, a: Action)
    requires SoundPhases(s) && Enabled(c, s, a) && ByProducer(a)
    ensures SoundPhases(Do(c, s, a))
  {
    ProducersTouchOnly(c, s, a);
  }
}

