/** The settling calls the writer still has to make: each of them is for a ticket that has ended and
is unsettled, and no ticket is to be settled twice. */
module Calls {
  import opened Ledger
  import opened Stream
  import opened InsertBatching
  import opened OriginBatching
  import opened Writer
  import opened Settlement
  import opened Chunks
  import opened Protocol
  import opened Conservation
  import opened Steps
  import opened Soundness
  import opened Conserving

  /** How often `t` is to be completed. */
  function Completes(ops: seq<Op>, t: nat): nat {
    if ops == [] then 0 else (if ops[0] == Complete(t) then 1 else 0) + Completes(ops[1..], t)
  }

  ghost predicate CallDue(s: State, t: nat) {
    && Completes(OpsLeft(s), t) <= 1
    && (Complete(t) in OpsLeft(s) ==> Ended(s.log, t) && !IsSettled(s.book, t))
  }

  ghost predicate CallsDue(s: State) {
    forall t: nat :: 0 < t ==> CallDue(s, t)
  }

  lemma {:induction false} CompletesSome(ops: seq<Op>, t: nat)
    ensures 0 < Completes(ops, t) <==> Complete(t) in ops
  {
    if ops != [] {
      CompletesSome(ops[1..], t);
    }
  }

  lemma {:induction false} CompletesAppend(a: seq<Op>, b: seq<Op>, t: nat)
    ensures Completes(a + b, t) == Completes(a, t) + Completes(b, t)
  {
    if a == [] {
      assert a + b == b;
    } else {
      CompletesAppend(a[1..], b, t);
      assert (a + b)[1..] == a[1..] + b;
    }
  }

  // ---------------------------------------------------------------- the calls of a batch

  function EndCount(segments: seq<Segment>, t: nat): nat {
    if segments == [] then 0
    else (if segments[0].complete && segments[0].ticket == t then 1 else 0) + EndCount(segments[1..], t)
  }

  lemma {:induction false} EndsOnce(segments: seq<Segment>, t: nat)
    requires EndsLast(segments, t)
    ensures EndCount(segments, t) == if HasEnd(segments, t) then 1 else 0
  {
    if segments != [] {
      HasEndTail(segments, t);
      assert forall i :: 0 <= i < |segments[1..]| ==> segments[1..][i] == segments[i + 1];
      EndsOnce(segments[1..], t);
    }
  }

  lemma {:induction false} StrictCompletes(segments: seq<Segment>, t: nat)
    ensures Completes(StrictOps(segments), t) == EndCount(segments, t)
  {
    if segments != [] {
      var s := segments[0];
      StrictCompletes(segments[1..], t);
      CompletesAppend(SegmentOps(s), StrictOps(segments[1..]), t);
      SegmentCompletes(s, t);
      assert StrictOps(segments) == SegmentOps(s) + StrictOps(segments[1..]);
    }
  }

  lemma {:induction false} SegmentCompletes(s: Segment, t: nat)
    ensures Completes(SegmentOps(s), t) == if s.complete && s.ticket == t then 1 else 0
  {
    assert SegmentOps(s)[1..] == if s.complete then [Complete(s.ticket)] else [];
    assert Completes([Complete(s.ticket)], t) == if s.ticket == t then 1 else 0;
  }

  lemma {:induction false} SalvageCompletes(segments: seq<Segment>, t: nat)
    ensures Completes(CompleteOps(segments), t) == EndCount(segments, t)
  {
    if segments != [] {
      SalvageCompletes(segments[1..], t);
      assert segments[0].complete ==> CompleteOps(segments)[1..] == CompleteOps(segments[1..]);
      assert !segments[0].complete ==> CompleteOps(segments) == CompleteOps(segments[1..]);
    }
  }

  lemma {:induction false} NotesCompleteNothing(tickets: seq<nat>, shares: map<nat, (nat, nat)>, t: nat)
    ensures Complete(t) !in NoteOps(tickets, shares)
  {
    if tickets != [] {
      NotesCompleteNothing(tickets[1..], shares, t);
    }
  }

  /** The calls for a batch complete a ticket as often as its segments end it. */
  lemma {:induction false} BatchCompletes(sub: Submission, salvage: Option<Salvage>, t: nat)
    ensures Completes(SettleOps(sub, salvage), t) == EndCount(sub.segments, t)
  {
    match salvage {
      case None => StrictCompletes(sub.segments, t);
      case Some(outcome) =>
        var notes := NoteOps(sub.tickets, outcome.byTicket);
        NotesCompleteNothing(sub.tickets, outcome.byTicket, t);
        CompletesSome(notes, t);
        CompletesAppend(notes, CompleteOps(sub.segments), t);
        SalvageCompletes(sub.segments, t);
    }
  }

  lemma PersistCallDue(s: State, salvage: Option<Salvage>, fates: seq<bool>, t: nat)
    requires Core(s) && s.writer.Busy? && WellFormed(s.writer.sub) && |fates| == |s.writer.sub.records| && 0 < t
    ensures CallDue(DoPersist(s, salvage, fates), t)
  {
    var sub := s.writer.sub;
    BatchIsOrdered(s, t);
    BatchCompletes(sub, salvage, t);
    EndsOnce(sub.segments, t);
    CompletesSome(SettleOps(sub, salvage), t);
    if HasEnd(sub.segments, t) {
      EntriesEnded(sub.segments, sub.records, fates, t);
      EndedAppend(s.log, Entries(sub.segments, sub.records, fates), t);
      assert Due(s, t) == Summary(s.log, t);
    }
  }

  // ---------------------------------------------------------------- one call made

  lemma SettleCallDue(s: State, t: nat)
    requires Core(s) && s.writer.Settling? && s.writer.ops != [] && CallDue(s, t) && 0 < t
    ensures CallDue(DoSettle(s), t)
  {
    var s', op := DoSettle(s), s.writer.ops[0];
    assert OpsLeft(s)[0] == op;
    CompletesSome(OpsLeft(s'), t);
    if Complete(t) in OpsLeft(s') {
      ApplyActsPerTicket(s.book, op, t);
      ApplyKeepsValid(s.book, op);
    }
  }

  // ---------------------------------------------------------------- tickets voided

  /** A ticket that is voided has left no end mark, so no call for it can be waiting. */
  lemma VoidCallDue(s: State, v: nat, s': State, t: nat)
    requires BookMatchesLog(s) && CallDue(s, t) && 0 < t && 0 < v
    requires !IsSettled(s.book, v) ==> LogAt(s, v) == []
    requires s'.writer == s.writer && s'.book == VoidTicket(s, v).book && s'.log == VoidTicket(s, v).log
    ensures CallDue(s', t)
  {
    if Complete(t) in OpsLeft(s) && !IsSettled(s.book, v) {
      EndedAppend(s.log, [EndEntry(v)], t);
      EndedShows(s.log, t);
      ApplyActsPerTicket(s.book, Void(v), t);
      ApplyKeepsValid(s.book, Void(v));
    }
  }

  lemma SendCallDue(c: Constants, s: State, t: nat)
    requires Core(s) && SoundTickets(s) && s.gate.Taken? && s.gate.hand.Some? && s.gate.todo != []
    requires CallDue(s, t) && 0 < t
    ensures CallDue(DoSend(c, s), t)
  {
    var v := s.gate.hand.value;
    assert Hand(s) == Some(v);
    assert LogAt(s, v) <= Expected(s, v);
    if s.batcher.Gone? || c.capacity <= |s.queue| {
      VoidCallDue(s, v, DoSend(c, s), t);
    }
  }

  lemma IngestCallDue(c: Constants, s: State, clock: nat -> nat, t: nat)
    requires Core(s) && SoundTickets(s) && s.queue != [] && Usable(c, s) && CallDue(s, t) && 0 < t
    ensures CallDue(DoIngest(c, s, clock), t)
  {
    var s', m := DoIngest(c, s, clock), s.queue[0];
    IngestTouchesOnly(c, s, clock);
    if m.Logs? && m.size == 0 {
      EmptyHasNoLog(s, m);
      VoidCallDue(s, m.ticket, s', t);
    }
  }

  lemma EmptyHasNoLog(s: State, m: Message)
    requires Core(s) && SoundTickets(s) && s.queue != [] && s.queue[0] == m && m.Logs? && m.size == 0
    ensures 0 < m.ticket && (!IsSettled(s.book, m.ticket) ==> LogAt(s, m.ticket) == [])
  {
    var t := m.ticket;
    assert t in s.sizes && s.sizes[t] == 0;
    assert Expected(s, t) == [End(t)] by {
      assert Items(t, Named(t, 0)) == [];
    }
    if !IsSettled(s.book, t) {
      EmptyUnlogged(s, t, m);
    }
  }

  // ---------------------------------------------------------------- every action

  /** Actions that make no call and settle nothing. */
  lemma QuietCallsDue(s: State, s': State)
    requires CallsDue(s) && (OpsLeft(s') == OpsLeft(s) || OpsLeft(s') == []) && s'.log == s.log
    requires s'.book.through == s.book.through && s'.book.above == s.book.above
    ensures CallsDue(s')
  {
    forall t: nat | 0 < t ensures CallDue(s', t) {
      assert CallDue(s, t);
    }
  }

  lemma ProducersKeepCalls(c: Constants, s: State, a: Action)
    requires CallsDue(s) && Core(s) && SoundTickets(s) && Enabled(c, s, a) && ByProducer(a)
    ensures CallsDue(Do(c, s, a))
  {
    if a.Send? {
      forall t: nat | 0 < t ensures CallDue(DoSend(c, s), t) {
        SendCallDue(c, s, t);
      }
    } else {
      QuietCallsDue(s, Do(c, s, a));
    }
  }

  lemma BatcherKeepsCalls(c: Constants, s: State, a: Action)
    requires CallsDue(s) && Core(s) && SoundTickets(s) && Enabled(c, s, a) && ByBatcher(a)
    ensures CallsDue(Do(c, s, a))
  {
    if a.Ingest? {
      forall t: nat | 0 < t ensures CallDue(DoIngest(c, s, a.clock), t) {
        IngestCallDue(c, s, a.clock, t);
      }
    } else {
      QuietCallsDue(s, Do(c, s, a));
    }
  }

  lemma PersistKeepsCalls(s: State, salvage: Option<Salvage>, fates: seq<bool>)
    requires Core(s) && s.writer.Busy? && AllWell(Down(s)) && |fates| == |s.writer.sub.records|
    ensures CallsDue(DoPersist(s, salvage, fates))
  {
    assert Insert(s.writer.sub) in Down(s);
    forall t: nat | 0 < t ensures CallDue(DoPersist(s, salvage, fates), t) {
      PersistCallDue(s, salvage, fates, t);
    }
  }

  lemma WriterKeepsCalls(c: Constants, s: State, a: Action)
    requires CallsDue(s) && Core(s) && SoundBatches(c, s) && Enabled(c, s, a) && ByWriter(a)
    ensures CallsDue(Do(c, s, a))
  {
    match a {
      case PersistClean => PersistKeepsCalls(s, None, AllKept(|s.writer.sub.records|));
      case PersistSalvage(salvage, fates) => PersistKeepsCalls(s, Some(salvage), fates);
      case SettleOne =>
        forall t: nat | 0 < t ensures CallDue(DoSettle(s), t) {
          SettleCallDue(s, t);
        }
      case OfferOther => QuietCallsDue(s, Do(c, s, a));
      case Receive => QuietCallsDue(s, Do(c, s, a));
      case WriterDies => QuietCallsDue(s, Do(c, s, a));
      case SettleDone => QuietCallsDue(s, Do(c, s, a));
    }
  }

  /** Every action keeps the calls that are left due: each settles a ticket that has ended and that
      nothing has settled. */
  lemma CallsKept(c: Constants, s: State, a: Action)
    requires CallsDue(s) && Core(s) && Sound(c, s) && Enabled(c, s, a)
    ensures CallsDue(Do(c, s, a))
  {
    if ByProducer(a) {
      ProducersKeepCalls(c, s, a);
    } else if ByBatcher(a) {
      BatcherKeepsCalls(c, s, a);
    } else if ByWriter(a) {
      WriterKeepsCalls(c, s, a);
    } else {
      HandlersTouchNoPipe(c, s, a);
      QuietCallsDue(s, Do(c, s, a));
    }
  }
}
