/** Conservation is kept by every action of the pipeline. */
module Conserving {
  import opened InsertBatching
  import opened OriginBatching
  import opened Writer
  import opened Settlement
  import opened Protocol
  import opened Conservation
  import opened Steps
  import opened Soundness

  ghost predicate Sound(c: Constants, s: State) {
    SoundBatches(c, s) && SoundTickets(s) && SoundPhases(s)
  }

  // ---------------------------------------------------------------- producers

  lemma SendConserves(c: Constants, s: State)
    requires Core(s) && SoundTickets(s) && s.gate.Taken? && s.gate.hand.Some? && s.gate.todo != []
    ensures Core(DoSend(c, s))
  {
    var s' := DoSend(c, s);
    assert Hand(s) == s.gate.hand;
    if s.batcher.Gone? || c.capacity <= |s.queue| {
      RefusedKeepsCore(s, s');
    } else {
      SendKeepsCore(s, Logs(s.gate.todo[0].origin, s.gate.hand.value, s.gate.todo[0].size), s');
    }
  }

  lemma BarrierConserves(s: State)
    requires Core(s)
    ensures Core(s.(queue := s.queue + [Barrier(s.book.issued)], sends := s.sends + [SentBarrier]))
  {
    var s' := s.(queue := s.queue + [Barrier(s.book.issued)], sends := s.sends + [SentBarrier]);
    assert Down(s') == Down(s);
    forall t: nat ensures FlowAt(s', t) == FlowAt(s, t) {
      BarrierFlow(s, Barrier(s.book.issued), t);
    }
    MovesKeepCore(s, s');
  }

  lemma SamePipesConserve(s: State, s': State)
    requires Core(s) && SameTickets(s, s')
    requires s'.queue == s.queue && s'.entries == s.entries && Down(s') == Down(s)
    ensures Core(s')
  {
    forall t: nat ensures FlowAt(s', t) == FlowAt(s, t) {
    }
    MovesKeepCore(s, s');
  }

  lemma ProducersConserve(c: Constants, s: State, a: Action)
    requires Core(s) && SoundTickets(s) && Enabled(c, s, a) && ByProducer(a)
    ensures Core(Do(c, s, a))
  {
    match a {
      case Send => SendConserves(c, s);
      case IssueTicket => IssueKeepsCore(s);
      case SendBarrier => BarrierConserves(s);
      case Reserve(rid, chunks) => SamePipesConserve(s, Do(c, s, a));
      case LeaveGate => SamePipesConserve(s, Do(c, s, a));
      case CloseInput => SamePipesConserve(s, Do(c, s, a));
    }
  }

  // ---------------------------------------------------------------- batcher

  lemma IngestConserves(c: Constants, s: State, clock: nat -> nat)
    requires Core(s) && SoundBatches(c, s) && SoundTickets(s)
    requires s.outbox == [] && s.queue != [] && Usable(c, s)
    ensures Core(DoIngest(c, s, clock))
  {
    var s', m := DoIngest(c, s, clock), s.queue[0];
    if m.Logs? && m.size == 0 {
      EmptyChunkKeepsCore(s, m, m.ticket);
    } else {
      if !s.writer.Stopped? {
        IngestTouchesOnly(c, s, clock);
        DownAfterEmission(s, s');
        forall t: nat ensures FlowAt(s', t) == FlowAt(s, t) {
          if m.Logs? {
            IngestChunkFlow(c, s, clock, t);
          } else {
            IngestBarrierFlow(s, FlushEntries(s.entries, None).0, s', t);
          }
        }
      }
      MovesKeepCore(s, s');
    }
  }

  lemma FlushConserves(c: Constants, s: State, when: Option<nat>)
    requires Core(s) && SoundBatches(c, s) && s.outbox == [] && Usable(c, s)
    ensures Core(DoFlush(c, s, when))
  {
    var s' := DoFlush(c, s, when);
    if !s.writer.Stopped? {
      forall t: nat ensures FlowAt(s', t) == FlowAt(s, t) {
        FlushFlow(c, s, when, t);
      }
    }
    MovesKeepCore(s, s');
  }

  lemma SubmitConserves(s: State)
    requires Core(s) && s.outbox != []
    ensures Core(DoSubmit(s))
  {
    var s' := DoSubmit(s);
    if !s.writer.Stopped? {
      forall t: nat ensures FlowAt(s', t) == FlowAt(s, t) {
        SubmitFlow(s, t);
      }
    }
    MovesKeepCore(s, s');
  }

  lemma BatcherExitConserves(s: State)
    requires Core(s) && SoundPhases(s) && (s.batcher.Draining? || s.batcher.Failing?)
    ensures Core(s.(batcher := Gone, queue := [], entries := []))
  {
    var s' := s.(batcher := Gone, queue := [], entries := []);
    if s.writer.Stopped? {
      MovesKeepCore(s, s');
    } else {
      assert Down(s') == Down(s);
      SamePipesConserve(s, s');
    }
  }

  lemma BatcherConserves(c: Constants, s: State, a: Action)
    requires Core(s) && Sound(c, s) && Enabled(c, s, a) && ByBatcher(a)
    ensures Core(Do(c, s, a))
  {
    match a {
      case Ingest(clock) => IngestConserves(c, s, clock);
      case Timer(now) => FlushConserves(c, s, Some(now));
      case Drain =>
        FlushConserves(c, s, None);
        SamePipesConserve(DoFlush(c, s, None), Do(c, s, a));
      case Submit => SubmitConserves(s);
      case BatcherExit => BatcherExitConserves(s);
    }
  }

  // ---------------------------------------------------------------- writer

  lemma PersistConserves(c: Constants, s: State, salvage: Option<Salvage>, fates: seq<bool>)
    requires Core(s) && SoundBatches(c, s) && SoundTickets(s) && s.writer.Busy?
    requires salvage.None? ==> fates == AllKept(|s.writer.sub.records|)
    requires salvage.Some? ==> Explains(salvage, s.writer.sub, fates)
    ensures Core(DoPersist(s, salvage, fates))
  {
    assert Insert(s.writer.sub) in Down(s);
    LabelsCover(s.writer.sub.segments);
    PersistKeepsCore(s, salvage, fates);
  }

  lemma ReceiveConserves(s: State)
    requires Core(s) && s.writer.Idle? && s.commands != []
    ensures Core(DoReceive(s))
  {
    var s' := DoReceive(s);
    forall t: nat ensures FlowAt(s', t) == FlowAt(s, t) {
      ReceiveFlow(s, t);
    }
    MovesKeepCore(s, s');
  }

  lemma OfferConserves(s: State)
    requires Core(s)
    ensures Core(s.(commands := s.commands + [Other]))
  {
    var s' := s.(commands := s.commands + [Other]);
    forall t: nat ensures FlowAt(s', t) == FlowAt(s, t) {
      OfferFlow(s, t);
    }
    MovesKeepCore(s, s');
  }

  lemma WriterConserves(c: Constants, s: State, a: Action)
    requires Core(s) && SoundBatches(c, s) && SoundTickets(s) && Enabled(c, s, a) && ByWriter(a)
    ensures Core(Do(c, s, a))
  {
    match a {
      case OfferOther => OfferConserves(s);
      case Receive => ReceiveConserves(s);
      case PersistClean => PersistConserves(c, s, None, AllKept(|s.writer.sub.records|));
      case PersistSalvage(salvage, fates) => PersistConserves(c, s, Some(salvage), fates);
      case WriterDies => MovesKeepCore(s, Do(c, s, a));
      case SettleOne => SettleKeepsCore(s);
      case SettleDone =>
        assert Down(Do(c, s, a)) == Down(s);
        SamePipesConserve(s, Do(c, s, a));
    }
  }

  /** Every action keeps conservation and the agreement of ledger and log. */
  lemma CoreKept(c: Constants, s: State, a: Action)
    requires Core(s) && Sound(c, s) && Enabled(c, s, a)
    ensures Core(Do(c, s, a))
  {
    if ByProducer(a) {
      ProducersConserve(c, s, a);
    } else if ByBatcher(a) {
      BatcherConserves(c, s, a);
    } else if ByWriter(a) {
      WriterConserves(c, s, a);
    } else if a.CloseLedger? {
      CloseKeepsCore(s);
    } else {
      HandlersTouchNoPipe(c, s, a);
      BooksAlike(c, s, a);
      SamePipesConserve(s, Do(c, s, a));
    }
  }

  lemma BooksAlike(c: Constants, s: State, a: Action)
    requires Enabled(c, s, a) && (ByHandler(a) || a.Publish?)
    ensures Do(c, s, a).book == s.book
  {
  }

  lemma SoundKept(c: Constants, s: State, a: Action)
    requires Core(s) && Sound(c, s) && Enabled(c, s, a)
    ensures Sound(c, Do(c, s, a))
  {
    BatchesKept(c, s, a);
    TicketsKept(c, s, a);
    PhasesKept(c, s, a);
  }
}
