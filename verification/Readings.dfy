/** What a released handler reads from the ledger no longer changes, and counts committed rows. */
module Readings {
  import opened Ledger
  import opened Stream
  import opened InsertBatching
  import opened Settlement
  import opened Chunks
  import opened Handler
  import opened Protocol
  import opened Conservation
  import opened Steps
  import opened Soundness

  /** Nothing more will happen to the ticket: it is settled, or there is no writer any more. */
  predicate Final(s: State, t: nat) {
    s.writer.Stopped? || IsSettled(s.book, t)
  }

  predicate SameReading(s: State, s': State, t: nat) {
    var n := SizeOf(s, t);
    && Credit(Ledger.State(s'.book, t), n) == Credit(Ledger.State(s.book, t), n)
    && (Ledger.State(s'.book, t).Failed? <==> Ledger.State(s.book, t).Failed?)
  }

  /** A ledger call for another ticket, or for a settled one, does not show. */
  lemma CallKeepsReading(s: State, op: Op, s': State, t: nat)
    requires Valid(s.book) && s'.book == Apply(s.book, op) && (s.writer.Stopped? ==> s'.writer.Stopped?)
    requires Final(s, t) && 0 < t
    requires IsSettled(s.book, t) || op.Issue? || op.Close? || op.ticket != t
    ensures SameReading(s, s', t) && Final(s', t)
  {
    ApplyKeepsValid(s.book, op);
    ApplyActsPerTicket(s.book, op, t);
  }

  /** Voiding the ticket of an empty chunk replaces no credit by the credit of no records. */
  lemma VoidKeepsReading(s: State, t: nat, s': State)
    requires BookMatchesLog(s) && s.writer.Stopped? && s'.writer.Stopped? && 0 < t
    requires s'.book == Apply(s.book, Void(t)) && !IsSettled(s.book, t) && SizeOf(s, t) == 0 && LogAt(s, t) == []
    ensures SameReading(s, s', t) && Final(s', t)
  {
    UntouchedIsUnsettled(s, t);
    assert Due(s, t) == Summary(s.log, t);
    ApplyActsPerTicket(s.book, Void(t), t);
  }

  lemma {:induction false} IngestKeepsReading(c: Constants, s: State, clock: nat -> nat, s': State, t: nat)
    requires Core(s) && SoundTickets(s) && s.queue != [] && Usable(c, s) && s' == DoIngest(c, s, clock)
    requires Final(s, t) && t in s.sizes
    ensures SameReading(s, s', t) && Final(s', t)
  {
    var m := s.queue[0];
    if m.Logs? && m.size == 0 && !IsSettled(s.book, m.ticket) {
      if m.ticket == t {
        assert Expected(s, t) == [End(t)] by {
          assert Items(t, Named(t, 0)) == [];
        }
        EmptyUnlogged(s, t, m);
        VoidKeepsReading(s, t, s');
      } else {
        CallKeepsReading(s, Void(m.ticket), s', t);
      }
    }
  }

  lemma SendKeepsReading(c: Constants, s: State, s': State, t: nat)
    requires Core(s) && SoundTickets(s) && s.gate.Taken? && s.gate.hand.Some? && s.gate.todo != [] && s' == DoSend(c, s)
    requires Final(s, t) && t in s.sizes
    ensures SameReading(s, s', t) && Final(s', t)
  {
    var u := s.gate.hand.value;
    assert Hand(s) == Some(u);
    if (s.batcher.Gone? || c.capacity <= |s.queue|) && !IsSettled(s.book, u) {
      CallKeepsReading(s, Void(u), s', t);
    }
  }

  lemma WriterKeepsReading(c: Constants, s: State, a: Action, s': State, t: nat)
    requires Valid(s.book) && Enabled(c, s, a) && ByWriter(a) && s' == Do(c, s, a)
    requires Final(s, t) && 0 < t
    ensures SameReading(s, s', t) && Final(s', t)
  {
    if a.SettleOne? {
      CallKeepsReading(s, s.writer.ops[0], s', t);
    }
  }

  /** No action changes what is read for a ticket that is final. */
  lemma ReadingStays(c: Constants, s: State, a: Action, t: nat)
    requires Core(s) && SoundTickets(s) && Enabled(c, s, a) && Final(s, t) && t in s.sizes
    ensures SameReading(s, Do(c, s, a), t) && Final(Do(c, s, a), t)
  {
    var s' := Do(c, s, a);
    if ByWriter(a) {
      WriterKeepsReading(c, s, a, s', t);
    } else if a.Send? {
      SendKeepsReading(c, s, s', t);
    } else if a.IssueTicket? {
      CallKeepsReading(s, Op.Issue, s', t);
    } else if a.Ingest? {
      IngestKeepsReading(c, s, a.clock, s', t);
    } else if a.CloseLedger? {
      CallKeepsReading(s, Op.Close, s', t);
    }
  }

  // ---------------------------------------------------------------- credit is rows

  /** The rows of the events table that came from ticket `t`. */
  function Rows(s: State, t: nat): nat {
    Tally(s.log, t, true)
  }

  /** The ledger agrees with the log about a final ticket. */
  lemma FinalMatchesLog(s: State, t: nat)
    requires BookMatchesLog(s) && Final(s, t) && 0 < t
    ensures Ledger.State(s.book, t) == Summary(s.log, t)
  {
    assert Due(s, t) == Summary(s.log, t);
    if !Ledger.State(s.book, t).Unsettled? {
      SettledStays(Ledger.State(s.book, t), OpsLeft(s), t);
    }
  }

  /** A log that reached the end mark holds the whole chunk. */
  lemma EndedIsWhole(s: State, t: nat)
    requires LogIsPrefix(s) && Ended(s.log, t)
    ensures LogAt(s, t) == Expected(s, t) == Chunk(t, Named(t, SizeOf(s, t)))
  {
    EndedShows(s.log, t);
    assert LogAt(s, t) <= Expected(s, t);
    var l, e := LogAt(s, t), Expected(s, t);
    if |l| < |e| {
      assert l + e[|l|..] == e;
      NoEarlyEnd(l, e[|l|..], t, Named(t, SizeOf(s, t)));
    }
  }

  lemma CreditIsRows(s: State, t: nat)
    requires LogIsPrefix(s) && BookMatchesLog(s) && Final(s, t) && t in s.sizes && 0 < t
    ensures Credit(Ledger.State(s.book, t), s.sizes[t]) == Rows(s, t)
  {
    FinalMatchesLog(s, t);
    if Ended(s.log, t) {
      EndedIsWhole(s, t);
      TallySum(s.log, t);
      EndsProj(Tokens(s.log), t);
      EndsChunk(t, Named(t, s.sizes[t]), t);
    }
  }
}
