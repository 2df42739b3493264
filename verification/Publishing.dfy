/** The published watermark never overclaims, although it is written after the lock is released. */
module Publishing {
  import opened Ledger
  import opened Protocol
  import opened Conservation
  import opened Soundness

  predicate Backed(w: Watermark, b: Book) {
    w.through <= b.through && (w.closed ==> b.closed)
  }

  /** Whatever is published or about to be is backed by the book; the book is closed only once the
      writer has stopped. */
  ghost predicate Marks(s: State) {
    && Backed(s.published, s.book)
    && (forall w :: w in s.pending ==> Backed(w, s.book))
    && (s.book.closed ==> s.writer.Stopped?)
  }

  lemma GrowthKeepsMarks(s: State, s': State)
    requires Marks(s)
    requires s.book.through <= s'.book.through && (s.book.closed ==> s'.book.closed)
    requires s'.book.closed ==> s'.writer.Stopped?
    requires s'.published == s.published || s'.published in s.pending
    requires forall w :: w in s'.pending ==> w in s.pending || w == Published(s'.book)
    ensures Marks(s')
  {
  }

  lemma VoidGrows(s: State, t: nat)
    requires Valid(s.book)
    ensures
      var s' := VoidTicket(s, t);
      && s.book.through <= s'.book.through && s'.book.closed == s.book.closed && s'.writer == s.writer
      && s'.published == s.published
      && (forall w :: w in s'.pending ==> w in s.pending || w == Published(s'.book))
  {
    ApplyKeepsValid(s.book, Void(t));
  }

  lemma ProducersKeepMarks(c: Constants, s: State, a: Action)
    requires Marks(s) && Valid(s.book) && Enabled(c, s, a) && ByProducer(a)
    ensures Marks(Do(c, s, a))
  {
    if a.Send? {
      VoidGrows(s, s.gate.hand.value);
    }
    GrowthKeepsMarks(s, Do(c, s, a));
  }

  lemma SameMarks(s: State, s': State)
    requires Marks(s)
    requires s'.book == s.book && s'.published == s.published && s'.pending == s.pending && s'.writer == s.writer
    ensures Marks(s')
  {
  }

  lemma VoidKeepsMarks(s: State, t: nat)
    requires Marks(s) && Valid(s.book)
    ensures Marks(VoidTicket(s, t))
  {
    VoidGrows(s, t);
    GrowthKeepsMarks(s, VoidTicket(s, t));
  }

  lemma IngestKeepsMarks(c: Constants, s: State, clock: nat -> nat)
    requires Marks(s) && Valid(s.book) && s.queue != [] && Usable(c, s)
    ensures Marks(DoIngest(c, s, clock))
  {
    var s' := DoIngest(c, s, clock);
    match s.queue[0] {
      case Logs(_, t, n) =>
        if n == 0 {
          VoidKeepsMarks(s, t);
          SameMarks(VoidTicket(s, t), s');
        } else {
          SameMarks(s, s');
        }
      case Barrier(_) => SameMarks(s, s');
    }
  }

  lemma BatcherKeepsMarks(c: Constants, s: State, a: Action)
    requires Marks(s) && Valid(s.book) && Enabled(c, s, a) && ByBatcher(a)
    ensures Marks(Do(c, s, a))
  {
    if a.Ingest? {
      IngestKeepsMarks(c, s, a.clock);
    } else {
      GrowthKeepsMarks(s, Do(c, s, a));
    }
  }

  lemma SettleKeepsMarks(s: State)
    requires Marks(s) && Valid(s.book) && s.writer.Settling? && s.writer.ops != [] && !s.writer.ops[0].Close?
    ensures Marks(DoSettle(s))
  {
    ApplyKeepsValid(s.book, s.writer.ops[0]);
    GrowthKeepsMarks(s, DoSettle(s));
  }

  lemma WriterKeepsMarks(c: Constants, s: State, a: Action)
    requires Marks(s) && Valid(s.book) && Enabled(c, s, a) && ByWriter(a)
    requires TicketCalls(OpsLeft(s))
    ensures Marks(Do(c, s, a))
  {
    if a.SettleOne? {
      assert OpsLeft(s)[0] == s.writer.ops[0];
      SettleKeepsMarks(s);
    } else {
      GrowthKeepsMarks(s, Do(c, s, a));
    }
  }

  lemma MarksKept(c: Constants, s: State, a: Action)
    requires Marks(s) && Valid(s.book) && Enabled(c, s, a) && TicketCalls(OpsLeft(s))
    ensures Marks(Do(c, s, a))
  {
    if ByProducer(a) {
      ProducersKeepMarks(c, s, a);
    } else if ByBatcher(a) {
      BatcherKeepsMarks(c, s, a);
    } else if ByWriter(a) {
      WriterKeepsMarks(c, s, a);
    } else {
      HandlersTouchNoPipe(c, s, a);
      GrowthKeepsMarks(s, Do(c, s, a));
    }
  }

  // ---------------------------------------------------------------- nothing is kept back

  lemma VoidIsPublished(s: State, t: nat)
    ensures Published(VoidTicket(s, t).book) == Published(s.book) || Published(VoidTicket(s, t).book) in VoidTicket(s, t).pending
  {
  }

  lemma SettleIsPublished(s: State)
    requires s.writer.Settling? && s.writer.ops != [] && TicketCalls(OpsLeft(s))
    ensures Published(DoSettle(s).book) == Published(s.book) || Published(DoSettle(s).book) in DoSettle(s).pending
  {
    assert !OpsLeft(s)[0].Close?;
  }

  lemma SendIsPublished(c: Constants, s: State)
    requires s.gate.Taken? && s.gate.hand.Some? && s.gate.todo != []
    ensures Published(DoSend(c, s).book) == Published(s.book) || Published(DoSend(c, s).book) in DoSend(c, s).pending
  {
    VoidIsPublished(s, s.gate.hand.value);
  }

  lemma IngestIsPublished(c: Constants, s: State, clock: nat -> nat)
    requires s.queue != [] && Usable(c, s)
    ensures
      var s' := DoIngest(c, s, clock);
      Published(s'.book) == Published(s.book) || Published(s'.book) in s'.pending
  {
    if s.queue[0].Logs? {
      VoidIsPublished(s, s.queue[0].ticket);
    }
  }

  lemma OthersChangeNothing(c: Constants, s: State, a: Action)
    requires Enabled(c, s, a) && !a.Send? && !a.Ingest? && !a.SettleOne? && !a.CloseLedger?
    ensures Published(Do(c, s, a).book) == Published(s.book)
  {
  }

  /** Whoever moves the watermark or closes the ledger hands exactly that over for publication. */
  lemma ChangesArePublished(c: Constants, s: State, a: Action)
    requires Enabled(c, s, a) && TicketCalls(OpsLeft(s)) && Published(Do(c, s, a).book) != Published(s.book)
    ensures Published(Do(c, s, a).book) in Do(c, s, a).pending
  {
    if a.Send? {
      SendIsPublished(c, s);
    } else if a.Ingest? {
      IngestIsPublished(c, s, a.clock);
    } else if a.SettleOne? {
      SettleIsPublished(s);
    } else if !a.CloseLedger? {
      OthersChangeNothing(c, s, a);
    }
  }
}
