/** Flush barriers: nothing sent before a barrier is behind it, all the way to the writer. */
module Barriers {
  import opened Ledger
  import opened Stream
  import opened InsertBatching
  import opened OriginBatching
  import opened Writer
  import opened Protocol
  import opened Conservation
  import opened Steps
  import opened Soundness

  /** No token of `t` behind a barrier that covers `t`, in `cmds` followed by `rest`. */
  predicate Fenced(cmds: seq<Command>, rest: seq<Token>, t: nat) {
    cmds == [] ||
    ((cmds[0].Flush? && t <= cmds[0].bound ==> ProjCommands(cmds[1..], t) == [] && rest == [])
     && Fenced(cmds[1..], rest, t))
  }

  predicate FencedQueue(q: seq<Message>, t: nat) {
    q == [] || ((q[0].Barrier? && t <= q[0].bound ==> ProjQueue(q[1..], t) == []) && FencedQueue(q[1..], t))
  }

  function Upstream(s: State, t: nat): seq<Token> {
    ProjEntries(s.entries, t) + ProjQueue(s.queue, t)
  }

  predicate Bounded(s: State, bound: nat) {
    bound <= s.book.issued && (Hand(s).Some? ==> bound < Hand(s).value)
  }

  predicate FencedAt(s: State, t: nat) {
    Fenced(Down(s), Upstream(s, t), t) && FencedQueue(s.queue, t)
  }

  /** Barriers cover tickets issued before them, so none that is still in a producer's hand. */
  predicate BoundsHold(s: State) {
    && (forall cmd :: cmd in Down(s) && cmd.Flush? ==> Bounded(s, cmd.bound))
    && (forall m :: m in s.queue && m.Barrier? ==> Bounded(s, m.bound))
  }

  ghost predicate BarriersHold(s: State) {
    !s.writer.Stopped? ==> BoundsHold(s) && forall t: nat :: FencedAt(s, t)
  }

  lemma {:induction false} FencedAppend(a: seq<Command>, b: seq<Command>, rest: seq<Token>, t: nat)
    ensures Fenced(a + b, rest, t) <==> Fenced(a, ProjCommands(b, t) + rest, t) && Fenced(b, rest, t)
  {
    if a == [] {
      assert a + b == b;
    } else {
      FencedAppend(a[1..], b, rest, t);
      assert (a + b)[1..] == a[1..] + b;
      ProjCommandsAppend(a[1..], b, t);
      EmptyParts(ProjCommands(a[1..], t), ProjCommands(b, t));
      EmptyParts(ProjCommands(b, t), rest);
    }
  }

  lemma EmptyParts(x: seq<Token>, y: seq<Token>)
    ensures x + y == [] <==> x == [] && y == []
  {
    assert |x + y| == |x| + |y|;
  }

  /** A ticket later than every barrier is not fenced off by any. */
  lemma {:induction false} LaterIsFenced(cmds: seq<Command>, rest: seq<Token>, t: nat)
    requires forall cmd :: cmd in cmds && cmd.Flush? ==> cmd.bound < t
    ensures Fenced(cmds, rest, t)
  {
    if cmds != [] {
      LaterIsFenced(cmds[1..], rest, t);
    }
  }

  lemma {:induction false} FencedQueueAppend(q: seq<Message>, m: Message, t: nat)
    requires FencedQueue(q, t)
    requires m.Logs? && m.ticket == t ==> forall b :: b in q && b.Barrier? ==> b.bound < t
    ensures FencedQueue(q + [m], t)
  {
    if q == [] {
      assert q + [m] == [m] && [m][1..] == [];
    } else {
      FencedQueueAppend(q[1..], m, t);
      assert (q + [m])[1..] == q[1..] + [m];
      ProjQueueAppend(q[1..], [m], t);
      ProjQueueOne(m, t);
    }
  }

  lemma {:induction false} FencedWeaken(cmds: seq<Command>, rest: seq<Token>, rest': seq<Token>, t: nat)
    requires Fenced(cmds, rest, t) && (rest == [] ==> rest' == [])
    ensures Fenced(cmds, rest', t)
  {
    if cmds != [] {
      FencedWeaken(cmds[1..], rest, rest', t);
    }
  }

  // ---------------------------------------------------------------- one ticket, one action

  /** What was emitted now stands where the upstream stood. */
  lemma {:induction false} EmissionKeepsFence(cmds: seq<Command>, out: seq<Command>, rest: seq<Token>, rest': seq<Token>, t: nat)
    requires Fenced(cmds, rest, t) && ProjCommands(out, t) + rest' == rest && Fenced(out, rest', t)
    ensures Fenced(cmds + out, rest', t)
  {
    FencedAppend(cmds, out, rest', t);
  }

  lemma InsertsFenced(subs: seq<Submission>, rest: seq<Token>, t: nat)
    ensures Fenced(Inserts(subs), rest, t)
    decreases |subs|
  {
    if subs != [] {
      assert Inserts(subs)[1..] == Inserts(subs[1..]);
      InsertsFenced(subs[1..], rest, t);
    }
  }

  lemma {:induction false} SilentFenced(a: seq<Command>, b: seq<Command>, rest: seq<Token>, t: nat)
    requires Fenced(a + b, rest, t)
    ensures Fenced(a + [Other] + b, rest, t)
  {
    FencedAppend(a, b, rest, t);
    FencedAppend(a + [Other], b, rest, t);
    FencedAppend(a, [Other], ProjCommands(b, t) + rest, t);
    ProjCommandsOne(Other, t);
    assert [] + (ProjCommands(b, t) + rest) == ProjCommands(b, t) + rest;
  }

  /** `s'` is `s` after the batcher took the head of the queue, left `after` in its buffers and
      emitted `out`. */
  predicate Emits(s: State, out: seq<Command>, after: seq<Entry>, s': State) {
    && s.queue != [] && s'.queue == s.queue[1..] && s'.entries == after && Down(s') == Down(s) + out
  }

  lemma {:induction false} IngestChunkFence(c: Constants, s: State, clock: nat -> nat, s': State, t: nat)
    requires Conserved(s) && !s.writer.Stopped? && ValidEntries(s.entries) && 0 < c.cfg.maxRecords
    requires s.queue != [] && s.queue[0].Logs? && 0 < s.queue[0].size
    requires
      var m := s.queue[0];
      var (subs, after) := PushEntries(c.cfg, s.entries, m.origin, m.ticket, Named(m.ticket, m.size), clock);
      Emits(s, Inserts(subs), after, s')
    requires Fenced(Down(s), Upstream(s, t), t)
    ensures Fenced(Down(s'), Upstream(s', t), t)
  {
    var m := s.queue[0];
    var (subs, after) := PushEntries(c.cfg, s.entries, m.origin, m.ticket, Named(m.ticket, m.size), clock);
    PushMoves(c, s, clock, t);
    QueueHead(s.queue, t);
    Moved(ProjCommands(Inserts(subs), t), ProjEntries(after, t), ProjEntries(s.entries, t),
          ProjQueue([m], t), ProjQueue(s.queue[1..], t));
    InsertsFenced(subs, Upstream(s', t), t);
    EmissionKeepsFence(Down(s), Inserts(subs), Upstream(s, t), Upstream(s', t), t);
  }

  lemma Moved(out: seq<Token>, kept: seq<Token>, was: seq<Token>, head: seq<Token>, rest: seq<Token>)
    requires out + kept == was + head
    ensures out + (kept + rest) == was + (head + rest)
  {
    assert out + (kept + rest) == (out + kept) + rest;
    assert was + (head + rest) == (was + head) + rest;
  }

  lemma {:induction false} FlushFence(s: State, when: Option<nat>, t: nat)
    requires Conserved(s) && !s.writer.Stopped? && ValidEntries(s.entries)
    requires Fenced(Down(s), Upstream(s, t), t)
    ensures
      var (subs, after) := FlushEntries(s.entries, when);
      Fenced(Down(s) + Inserts(subs), ProjEntries(after, t) + ProjQueue(s.queue, t), t)
  {
    var (subs, after) := FlushEntries(s.entries, when);
    var up := ProjEntries(after, t) + ProjQueue(s.queue, t);
    FlushMoves(s, when, t);
    Moved(ProjCommands(Inserts(subs), t), ProjEntries(after, t), ProjEntries(s.entries, t), [], ProjQueue(s.queue, t));
    assert [] + ProjQueue(s.queue, t) == ProjQueue(s.queue, t);
    InsertsFenced(subs, up, t);
    EmissionKeepsFence(Down(s), Inserts(subs), Upstream(s, t), up, t);
  }

  /** The ingested barrier follows everything it covers. */
  lemma {:induction false} IngestBarrierFence(s: State, subs: seq<Submission>, s': State, t: nat)
    requires Conserved(s) && !s.writer.Stopped? && ValidEntries(s.entries)
    requires s.queue != [] && s.queue[0].Barrier? && subs == FlushEntries(s.entries, None).0
    requires Emits(s, Inserts(subs) + [Flush(s.queue[0].bound)], [], s')
    requires Fenced(Down(s), Upstream(s, t), t) && FencedQueue(s.queue, t)
    ensures Fenced(Down(s'), Upstream(s', t), t)
  {
    FlushFence(s, None, t);
    FlushEmptiesEntries(s.entries);
    BarrierUpstream(s.queue, t);
    FlushMarkFence(Down(s) + Inserts(subs), Flush(s.queue[0].bound), Upstream(s', t), t);
    Associative(Down(s), Inserts(subs), [Flush(s.queue[0].bound)]);
  }

  lemma {:induction false} FlushEmptiesEntries(entries: seq<Entry>)
    requires ValidEntries(entries)
    ensures FlushEntries(entries, None).1 == []
  {
    FlushKeepsValid(entries, None);
  }

  lemma {:induction false} BarrierUpstream(q: seq<Message>, t: nat)
    requires q != [] && q[0].Barrier? && FencedQueue(q, t)
    ensures ProjQueue(q, t) == ProjQueue(q[1..], t)
    ensures t <= q[0].bound ==> ProjEntries([], t) + ProjQueue(q[1..], t) == []
  {
    QueueHead(q, t);
    ProjQueueOne(q[0], t);
  }

  lemma {:induction false} FlushMarkFence(cmds: seq<Command>, mark: Command, rest: seq<Token>, t: nat)
    requires Fenced(cmds, rest, t) && mark.Flush? && (t <= mark.bound ==> rest == [])
    ensures Fenced(cmds + [mark], rest, t)
  {
    ProjCommandsOne(mark, t);
    assert [] + rest == rest;
    assert [mark][1..] == [];
    EmissionKeepsFence(cmds, [mark], rest, rest, t);
  }

  // ---------------------------------------------------------------- kept by every action

  /** Nothing moved; a fresh ticket is later than every barrier. */
  lemma QuietKeepsBarriers(s: State, s': State)
    requires BarriersHold(s)
    requires !s'.writer.Stopped? ==>
               && !s.writer.Stopped? && Down(s') == Down(s) && s'.entries == s.entries && s'.queue == s.queue
               && s.book.issued <= s'.book.issued
               && (Hand(s').None? || Hand(s') == Hand(s) || s.book.issued < Hand(s').value)
    ensures BarriersHold(s')
  {
    if !s'.writer.Stopped? {
      forall t: nat ensures FencedAt(s', t) {
        assert FencedAt(s, t);
      }
    }
  }

  lemma SendKeepsBarriers(s: State, m: Message, s': State)
    requires BarriersHold(s) && ChunkSent(s, m, s') && Hand(s) == Some(m.ticket) && Hand(s').None?
    ensures BarriersHold(s')
  {
    if !s.writer.Stopped? {
      assert Down(s') == Down(s);
      forall t: nat ensures FencedAt(s', t) {
        assert FencedAt(s, t);
        FencedQueueAppend(s.queue, m, t);
        ProjQueueAppend(s.queue, [m], t);
        ProjQueueOne(m, t);
        if t == m.ticket {
          LaterIsFenced(Down(s), Upstream(s', t), t);
        } else {
          assert Upstream(s', t) == Upstream(s, t);
        }
      }
    }
  }

  lemma BarrierKeepsBarriers(s: State, s': State)
    requires BarriersHold(s) && Hand(s).None?
    requires s' == s.(queue := s.queue + [Barrier(s.book.issued)], sends := s'.sends)
    ensures BarriersHold(s')
  {
    if !s.writer.Stopped? {
      assert Down(s') == Down(s);
      forall t: nat ensures FencedAt(s', t) {
        assert FencedAt(s, t);
        FencedQueueAppend(s.queue, Barrier(s.book.issued), t);
        BarrierFlow(s, Barrier(s.book.issued), t);
      }
    }
  }

  lemma ProducersKeepBarriers(c: Constants, s: State, a: Action)
    requires BarriersHold(s) && SoundTickets(s) && Enabled(c, s, a) && ByProducer(a)
    ensures BarriersHold(Do(c, s, a))
  {
    var s' := Do(c, s, a);
    ProducersTouchOnly(c, s, a);
    assert Down(s') == Down(s);
    if a.Send? && !(s.batcher.Gone? || c.capacity <= |s.queue|) {
      SendKeepsBarriers(s, Logs(s.gate.todo[0].origin, s.gate.hand.value, s.gate.todo[0].size), s');
    } else if a.SendBarrier? {
      BarrierKeepsBarriers(s, s');
    } else {
      QuietKeepsBarriers(s, s');
    }
  }

  lemma EmissionKeepsBounds(s: State, out: seq<Command>, after: seq<Entry>, s': State)
    requires BoundsHold(s) && Emits(s, out, after, s') && s'.book.issued == s.book.issued && s'.gate == s.gate
    requires forall cmd :: cmd in out && cmd.Flush? ==> Barrier(cmd.bound) in s.queue
    ensures BoundsHold(s')
  {
  }

  lemma EmptyChunkFence(s: State, s': State, t: nat)
    requires FencedAt(s, t) && Emits(s, [], s.entries, s')
    ensures FencedAt(s', t)
  {
    QueueHead(s.queue, t);
    assert Down(s) + [] == Down(s);
    EmptyParts(ProjEntries(s.entries, t), ProjQueue(s.queue, t));
    EmptyParts(ProjQueue([s.queue[0]], t), ProjQueue(s'.queue, t));
    FencedWeaken(Down(s), Upstream(s, t), Upstream(s', t), t);
  }

  lemma IngestedFence(c: Constants, s: State, clock: nat -> nat, s': State, t: nat)
    requires FencedAt(s, t) && Conserved(s) && !s.writer.Stopped? && ValidEntries(s.entries)
    requires s.queue != [] && Usable(c, s)
    requires s' == DoIngest(c, s, clock) && Down(s') == Down(s) + s'.outbox
    ensures FencedAt(s', t)
  {
    match s.queue[0] {
      case Logs(origin, u, n) =>
        if n == 0 {
          assert Down(s) + [] == Down(s);
          EmptyChunkFence(s, s', t);
        } else {
          IngestChunkFence(c, s, clock, s', t);
        }
      case Barrier(bound) =>
        FlushEmptiesEntries(s.entries);
        IngestBarrierFence(s, FlushEntries(s.entries, None).0, s', t);
    }
  }

  lemma IngestedCommands(c: Constants, s: State, clock: nat -> nat, cmd: Command)
    requires s.queue != [] && Usable(c, s) && s.outbox == []
    requires cmd in DoIngest(c, s, clock).outbox && cmd.Flush?
    ensures Barrier(cmd.bound) in s.queue
  {
    assert s.queue[0] in s.queue;
  }

  lemma IngestKeepsBounds(c: Constants, s: State, clock: nat -> nat, s': State)
    requires BoundsHold(s) && s.outbox == [] && s.queue != [] && Usable(c, s)
    requires s' == DoIngest(c, s, clock) && Down(s') == Down(s) + s'.outbox
    ensures BoundsHold(s')
  {
    IngestTouchesOnly(c, s, clock);
    forall cmd | cmd in s'.outbox && cmd.Flush? ensures Barrier(cmd.bound) in s.queue {
      IngestedCommands(c, s, clock, cmd);
    }
    EmissionKeepsBounds(s, s'.outbox, s'.entries, s');
  }

  lemma IngestKeepsBarriers(c: Constants, s: State, clock: nat -> nat)
    requires BarriersHold(s) && Conserved(s) && SoundBatches(c, s)
    requires s.outbox == [] && s.queue != [] && Usable(c, s)
    ensures BarriersHold(DoIngest(c, s, clock))
  {
    var s' := DoIngest(c, s, clock);
    IngestTouchesOnly(c, s, clock);
    DownAfterEmission(s, s');
    if !s.writer.Stopped? {
      IngestKeepsBounds(c, s, clock, s');
      forall t: nat ensures FencedAt(s', t) {
        IngestedFence(c, s, clock, s', t);
      }
    }
  }

  lemma {:induction false} FlushKeepsBarriers(s: State, when: Option<nat>, s': State)
    requires BarriersHold(s) && Conserved(s) && ValidEntries(s.entries)
    requires
      var (subs, after) := FlushEntries(s.entries, when);
      Down(s') == Down(s) + Inserts(subs) && s'.entries == after
    requires s'.queue == s.queue && s'.book == s.book && s'.gate == s.gate && s'.writer == s.writer
    ensures BarriersHold(s')
  {
    if !s.writer.Stopped? {
      forall t: nat ensures FencedAt(s', t) {
        assert FencedAt(s, t);
        FlushFence(s, when, t);
      }
    }
  }

  lemma FlushingKeepsBarriers(c: Constants, s: State, when: Option<nat>, s': State)
    requires BarriersHold(s) && Conserved(s) && SoundBatches(c, s) && s.outbox == [] && Usable(c, s)
    requires s' == DoFlush(c, s, when).(batcher := s'.batcher)
    ensures BarriersHold(s')
  {
    assert Down(s') == Down(s) + s'.outbox;
    FlushKeepsBarriers(s, when, s');
  }

  lemma BatcherKeepsBarriers(c: Constants, s: State, a: Action)
    requires BarriersHold(s) && Conserved(s) && SoundBatches(c, s) && SoundPhases(s) && Enabled(c, s, a) && ByBatcher(a)
    ensures BarriersHold(Do(c, s, a))
  {
    var s' := Do(c, s, a);
    match a {
      case Ingest(clock) => IngestKeepsBarriers(c, s, clock);
      case Timer(now) => FlushingKeepsBarriers(c, s, Some(now), s');
      case Drain => FlushingKeepsBarriers(c, s, None, s');
      case Submit => SubmitKeepsBarriers(s);
      case BatcherExit =>
        assert Down(s') == Down(s);
        QuietKeepsBarriers(s, s');
    }
  }

  lemma SubmitKeepsBarriers(s: State)
    requires BarriersHold(s) && s.outbox != []
    ensures BarriersHold(DoSubmit(s))
  {
    assert s.outbox == [s.outbox[0]] + s.outbox[1..];
    assert !s.writer.Stopped? ==> Down(DoSubmit(s)) == Down(s);
    QuietKeepsBarriers(s, DoSubmit(s));
  }

  /** The writer takes the first command away. */
  lemma TakeKeepsBarriers(s: State, s': State)
    requires BarriersHold(s) && !s.writer.Stopped? && Down(s) != [] && Down(s') == Down(s)[1..]
    requires s'.entries == s.entries && s'.queue == s.queue && s'.book == s.book && s'.gate == s.gate
    ensures BarriersHold(s')
  {
    forall t: nat ensures FencedAt(s', t) {
      assert FencedAt(s, t);
    }
  }

  lemma OfferKeepsBarriers(s: State)
    requires BarriersHold(s)
    ensures BarriersHold(s.(commands := s.commands + [Other]))
  {
    var s' := s.(commands := s.commands + [Other]);
    var front := (if s.writer.Busy? then [Insert(s.writer.sub)] else []) + s.commands;
    assert Down(s) == front + s.outbox && Down(s') == front + [Other] + s.outbox;
    if !s.writer.Stopped? {
      forall t: nat ensures FencedAt(s', t) {
        assert FencedAt(s, t);
        SilentFenced(front, s.outbox, Upstream(s, t), t);
      }
    }
  }

  lemma WriterKeepsBarriers(c: Constants, s: State, a: Action)
    requires BarriersHold(s) && TicketCalls(OpsLeft(s)) && Enabled(c, s, a) && ByWriter(a)
    ensures BarriersHold(Do(c, s, a))
  {
    var s' := Do(c, s, a);
    match a {
      case OfferOther => OfferKeepsBarriers(s);
      case Receive => ReceiveKeepsBarriers(s);
      case PersistClean => PersistKeepsBarriers(s, None, AllKept(|s.writer.sub.records|));
      case PersistSalvage(salvage, fates) => PersistKeepsBarriers(s, Some(salvage), fates);
      case WriterDies =>
      case SettleOne =>
        WriterIssuesNothing(c, s, a);
        assert Down(s') == Down(s);
        QuietKeepsBarriers(s, s');
      case SettleDone =>
        assert Down(s') == Down(s);
        QuietKeepsBarriers(s, s');
    }
  }

  lemma ReceiveKeepsBarriers(s: State)
    requires BarriersHold(s) && s.writer.Idle? && s.commands != []
    ensures BarriersHold(DoReceive(s))
  {
    var s' := DoReceive(s);
    if s.commands[0].Insert? {
      assert Down(s') == Down(s);
      QuietKeepsBarriers(s, s');
    } else {
      assert Down(s') == Down(s)[1..];
      TakeKeepsBarriers(s, s');
    }
  }

  lemma PersistKeepsBarriers(s: State, salvage: Option<Salvage>, fates: seq<bool>)
    requires BarriersHold(s) && s.writer.Busy? && |fates| == |s.writer.sub.records|
    ensures BarriersHold(DoPersist(s, salvage, fates))
  {
    assert Down(DoPersist(s, salvage, fates)) == Down(s)[1..];
    TakeKeepsBarriers(s, DoPersist(s, salvage, fates));
  }

  lemma BarriersKept(c: Constants, s: State, a: Action)
    requires BarriersHold(s) && Conserved(s) && SoundBatches(c, s) && SoundTickets(s) && SoundPhases(s)
    requires TicketCalls(OpsLeft(s)) && Enabled(c, s, a)
    ensures BarriersHold(Do(c, s, a))
  {
    if ByProducer(a) {
      ProducersKeepBarriers(c, s, a);
    } else if ByBatcher(a) {
      BatcherKeepsBarriers(c, s, a);
    } else if ByWriter(a) {
      WriterKeepsBarriers(c, s, a);
    } else {
      HandlersTouchNoPipe(c, s, a);
      QuietKeepsBarriers(s, Do(c, s, a));
    }
  }

  // ---------------------------------------------------------------- what a barrier promises

  /** When the writer receives a flush, every ticket issued before the flush was sent is settled:
      its records are committed or accounted as dropped. */
  lemma {:induction false} FlushFindsEverythingSettled(s: State, t: nat)
    requires Core(s) && BarriersHold(s)
    requires s.writer.Idle? && s.commands != [] && s.commands[0].Flush? && 1 <= t <= s.commands[0].bound
    ensures IsSettled(s.book, t)
  {
    var mark := s.commands[0];
    assert Down(s)[0] == mark && mark in Down(s);
    assert FencedAt(s, t) && Bounded(s, mark.bound);
    ProjCommandsAppend([mark], Down(s)[1..], t);
    ProjCommandsOne(mark, t);
    assert Down(s) == [mark] + Down(s)[1..];
    EmptyParts(ProjEntries(s.entries, t), ProjQueue(s.queue, t));
    LandedIsDue(s, t);
  }
}
