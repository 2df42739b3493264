/** What the writer tells the ledger about a persisted batch, and what that means per ticket.

The history of the writer is a log of entries: each record it disposed of (kept in the table or
dropped as poison) under its label, and the end mark of every ticket it settled. `Summary` reads
a ticket's state off that log; the theorems say that the calls made by `settle_log_batch` bring
the ledger exactly there. */
module Settlement {
  import opened Ledger
  import opened Stream
  import opened InsertBatching
  import opened OriginBatching
  import opened Writer

  datatype LogEntry = LogEntry(token: Token, kept: bool)

  function Tokens(log: seq<LogEntry>): (r: seq<Token>)
    ensures |r| == |log| && forall i :: 0 <= i < |r| ==> r[i] == log[i].token
  {
    seq(|log|, i requires 0 <= i < |log| => log[i].token)
  }

  function ItemEntries(t: nat, records: seq<Record>, fates: seq<bool>): (r: seq<LogEntry>)
    requires |records| == |fates|
    ensures |r| == |records| && forall i :: 0 <= i < |r| ==> r[i] == LogEntry(Item(t, records[i]), fates[i])
  {
    seq(|records|, i requires 0 <= i < |records| => LogEntry(Item(t, records[i]), fates[i]))
  }

  function EndEntry(t: nat): LogEntry {
    LogEntry(End(t), true)
  }

  /** The log of one persisted batch. */
  function Entries(segments: seq<Segment>, records: seq<Record>, fates: seq<bool>): seq<LogEntry> {
    if segments == [] || |records| < segments[0].records || |fates| < segments[0].records then []
    else
      var s := segments[0];
      ItemEntries(s.ticket, records[..s.records], fates[..s.records])
      + (if s.complete then [EndEntry(s.ticket)] else [])
      + Entries(segments[1..], records[s.records..], fates[s.records..])
  }

  lemma {:induction false} EntriesTokens(segments: seq<Segment>, records: seq<Record>, fates: seq<bool>)
    requires |records| == |fates|
    ensures Tokens(Entries(segments, records, fates)) == SegmentTokens(segments, records)
    decreases |segments|
  {
    if segments != [] && segments[0].records <= |records| {
      var s := segments[0];
      var items := ItemEntries(s.ticket, records[..s.records], fates[..s.records]);
      var rest := Entries(segments[1..], records[s.records..], fates[s.records..]);
      EntriesTokens(segments[1..], records[s.records..], fates[s.records..]);
      assert Tokens(items) == Items(s.ticket, records[..s.records]);
      if s.complete {
        assert Tokens(items + [EndEntry(s.ticket)] + rest) == Tokens(items) + [End(s.ticket)] + Tokens(rest);
      } else {
        assert items + [] == items;
        assert Tokens(items + rest) == Tokens(items) + Tokens(rest);
      }
    }
  }

  // ---------------------------------------------------------------- reading the log

  function Tally(log: seq<LogEntry>, t: nat, kept: bool): nat {
    if log == [] then 0
    else (if log[0].token.Item? && log[0].token.tag == t && log[0].kept == kept then 1 else 0) + Tally(log[1..], t, kept)
  }

  predicate Ended(log: seq<LogEntry>, t: nat) {
    exists i :: 0 <= i < |log| && log[i].token == End(t)
  }

  lemma {:induction false} TallyAppend(a: seq<LogEntry>, b: seq<LogEntry>, t: nat, kept: bool)
    ensures Tally(a + b, t, kept) == Tally(a, t, kept) + Tally(b, t, kept)
  {
    if a == [] {
      assert a + b == b;
    } else {
      TallyAppend(a[1..], b, t, kept);
      assert (a + b)[1..] == a[1..] + b;
    }
  }

  lemma EndedAppend(a: seq<LogEntry>, b: seq<LogEntry>, t: nat)
    ensures Ended(a + b, t) <==> Ended(a, t) || Ended(b, t)
  {
    if Ended(a, t) {
      var i :| 0 <= i < |a| && a[i].token == End(t);
      assert (a + b)[i] == a[i];
    }
    if Ended(b, t) {
      var i :| 0 <= i < |b| && b[i].token == End(t);
      assert (a + b)[|a| + i] == b[i];
    }
  }

  /** The state a ticket must be in, given what was kept and dropped and whether it has ended. */
  function Outcome(kept: nat, dropped: nat, ended: bool): TicketState {
    if !ended then Unsettled(Progress(kept, dropped))
    else if 0 < dropped then Failed(Progress(kept, dropped))
    else Completed
  }

  function Summary(log: seq<LogEntry>, t: nat): TicketState {
    Outcome(Tally(log, t, true), Tally(log, t, false), Ended(log, t))
  }

  // ---------------------------------------------------------------- the ledger calls

  function StrictOps(segments: seq<Segment>): seq<Op> {
    if segments == [] then []
    else
      var s := segments[0];
      [NoteCommitted(s.ticket, s.records)] + (if s.complete then [Complete(s.ticket)] else []) + StrictOps(segments[1..])
  }

  function Share(byTicket: map<nat, (nat, nat)>, t: nat): (nat, nat) {
    if t in byTicket then byTicket[t] else (0, 0)
  }

  function NoteOps(tickets: seq<nat>, byTicket: map<nat, (nat, nat)>): seq<Op> {
    if tickets == [] then []
    else
      var (kept, dropped) := Share(byTicket, tickets[0]);
      (if 0 < kept then [NoteCommitted(tickets[0], kept)] else [])
      + (if 0 < dropped then [NoteDropped(tickets[0], dropped)] else [])
      + NoteOps(tickets[1..], byTicket)
  }

  function CompleteOps(segments: seq<Segment>): seq<Op> {
    if segments == [] then []
    else (if segments[0].complete then [Complete(segments[0].ticket)] else []) + CompleteOps(segments[1..])
  }

  function SalvageOps(batch: Submission, byTicket: map<nat, (nat, nat)>): seq<Op> {
    NoteOps(batch.tickets, byTicket) + CompleteOps(batch.segments)
  }

  function SettleOps(batch: Submission, salvage: Option<Salvage>): seq<Op> {
    match salvage
    case None => StrictOps(batch.segments)
    case Some(outcome) => SalvageOps(batch, outcome.byTicket)
  }

  // ---------------------------------------------------------------- their effect per ticket

  predicate HasEnd(segments: seq<Segment>, t: nat) {
    exists i :: 0 <= i < |segments| && segments[i].ticket == t && segments[i].complete
  }

  /** No segment of a ticket follows the one that completes it. */
  predicate EndsLast(segments: seq<Segment>, t: nat) {
    forall i, j :: 0 <= i < j < |segments| && segments[i].complete && segments[i].ticket == t ==> segments[j].ticket != t
  }

  function SumOf(segments: seq<Segment>, t: nat): nat {
    if segments == [] then 0
    else (if segments[0].ticket == t then segments[0].records else 0) + SumOf(segments[1..], t)
  }

  lemma HasEndTail(segments: seq<Segment>, t: nat)
    requires segments != []
    ensures HasEnd(segments, t) <==> (segments[0].ticket == t && segments[0].complete) || HasEnd(segments[1..], t)
  {
    if HasEnd(segments[1..], t) {
      var i :| 0 <= i < |segments[1..]| && segments[1..][i].ticket == t && segments[1..][i].complete;
      assert segments[i + 1] == segments[1..][i];
    }
  }

  lemma {:induction false} OthersDoNotMatter(st: TicketState, ops: seq<Op>, t: nat)
    requires st.Unsettled? && forall i :: 0 <= i < |ops| ==> ops[i].Issue? || ops[i].Close? || ops[i].ticket != t
    ensures OnTicketAll(st, ops, t) == st
    decreases |ops|
  {
    if ops != [] {
      OthersDoNotMatter(st, ops[1..], t);
    }
  }

  lemma {:induction false} SettledStays(st: TicketState, ops: seq<Op>, t: nat)
    requires !st.Unsettled?
    ensures OnTicketAll(st, ops, t) == st
    decreases |ops|
  {
    if ops != [] {
      SettledStays(st, ops[1..], t);
    }
  }

  lemma {:induction false} SumOfAbsent(segments: seq<Segment>, t: nat)
    requires forall i :: 0 <= i < |segments| ==> segments[i].ticket != t
    ensures SumOf(segments, t) == 0
  {
    if segments != [] {
      SumOfAbsent(segments[1..], t);
    }
  }

  function SegmentOps(s: Segment): seq<Op> {
    [NoteCommitted(s.ticket, s.records)] + (if s.complete then [Complete(s.ticket)] else [])
  }

  lemma {:induction false} SegmentEffect(p: Progress, s: Segment, t: nat)
    requires s.ticket == t && p.committed + s.records <= U64_MAX
    ensures OnTicketAll(Unsettled(p), SegmentOps(s), t) == Outcome(p.committed + s.records, p.dropped, s.complete)
  {
    var noted := Unsettled(p.(committed := p.committed + s.records));
    var tail := if s.complete then [Complete(s.ticket)] else [];
    assert SegmentOps(s)[1..] == tail;
    assert OnTicketAll(Unsettled(p), SegmentOps(s), t) == OnTicketAll(noted, tail, t);
    if s.complete {
      assert tail[1..] == [];
      assert OnTicketAll(noted, tail, t) == OnTicketAll(OnTicket(noted, tail[0], t), [], t);
    }
  }

  /** The strict path: a ticket gains the batch's records of it and settles exactly when the batch
      carries its last segment, however its records are spread over segments and batches. */
  lemma {:induction false} StrictEffect(p: Progress, segments: seq<Segment>, t: nat)
    requires EndsLast(segments, t) && p.committed + SumOf(segments, t) <= U64_MAX
    ensures OnTicketAll(Unsettled(p), StrictOps(segments), t)
         == Outcome(p.committed + SumOf(segments, t), p.dropped, HasEnd(segments, t))
    decreases |segments|
  {
    if segments != [] {
      var s, rest := segments[0], segments[1..];
      HasEndTail(segments, t);
      assert StrictOps(segments) == SegmentOps(s) + StrictOps(rest);
      OnTicketAppend(Unsettled(p), SegmentOps(s), StrictOps(rest), t);
      if s.ticket != t {
        OthersDoNotMatter(Unsettled(p), SegmentOps(s), t);
        StrictEffect(p, rest, t);
      } else {
        SegmentEffect(p, s, t);
        var p' := p.(committed := p.committed + s.records);
        if s.complete {
          SumOfAbsent(rest, t);
          SettledStays(Outcome(p'.committed, p'.dropped, true), StrictOps(rest), t);
        } else {
          StrictEffect(p', rest, t);
        }
      }
    }
  }

  lemma {:induction false} CompleteEffect(p: Progress, segments: seq<Segment>, t: nat)
    ensures OnTicketAll(Unsettled(p), CompleteOps(segments), t) == Outcome(p.committed, p.dropped, HasEnd(segments, t))
    decreases |segments|
  {
    if segments != [] {
      var s, rest := segments[0], segments[1..];
      HasEndTail(segments, t);
      CompleteEffect(p, rest, t);
      if s.complete {
        assert CompleteOps(segments)[1..] == CompleteOps(rest);
        if s.ticket == t {
          SettledStays(Outcome(p.committed, p.dropped, true), CompleteOps(rest), t);
        }
      } else {
        assert CompleteOps(segments) == CompleteOps(rest);
      }
    }
  }

  function TicketNotes(t: nat, kept: nat, dropped: nat): seq<Op> {
    (if 0 < kept then [NoteCommitted(t, kept)] else []) + (if 0 < dropped then [NoteDropped(t, dropped)] else [])
  }

  lemma {:induction false} TicketNotesEffect(p: Progress, u: nat, kept: nat, dropped: nat, t: nat)
    requires u == t ==> p.committed + kept <= U64_MAX && p.dropped + dropped <= U64_MAX
    ensures OnTicketAll(Unsettled(p), TicketNotes(u, kept, dropped), t)
         == if u == t then Unsettled(Progress(p.committed + kept, p.dropped + dropped)) else Unsettled(p)
  {
    var a, b := if 0 < kept then [NoteCommitted(u, kept)] else [], if 0 < dropped then [NoteDropped(u, dropped)] else [];
    OnTicketAppend(Unsettled(p), a, b, t);
    if a != [] {
      assert a[1..] == [];
    }
    if b != [] {
      assert b[1..] == [];
    }
  }

  predicate Ascending(tickets: seq<nat>) {
    forall i, j :: 0 <= i < j < |tickets| ==> tickets[i] < tickets[j]
  }

  lemma {:induction false} NoteEffect(p: Progress, tickets: seq<nat>, byTicket: map<nat, (nat, nat)>, t: nat)
    requires Ascending(tickets)
    requires t in tickets ==>
      p.committed + Share(byTicket, t).0 <= U64_MAX && p.dropped + Share(byTicket, t).1 <= U64_MAX
    ensures OnTicketAll(Unsettled(p), NoteOps(tickets, byTicket), t)
         == if t in tickets
            then Unsettled(Progress(p.committed + Share(byTicket, t).0, p.dropped + Share(byTicket, t).1))
            else Unsettled(p)
    decreases |tickets|
  {
    if tickets != [] {
      var u, rest := tickets[0], tickets[1..];
      var (kept, dropped) := Share(byTicket, u);
      assert NoteOps(tickets, byTicket) == TicketNotes(u, kept, dropped) + NoteOps(rest, byTicket);
      OnTicketAppend(Unsettled(p), TicketNotes(u, kept, dropped), NoteOps(rest, byTicket), t);
      TicketNotesEffect(p, u, kept, dropped, t);
      if u == t {
        assert t !in rest;
        NoteEffect(Progress(p.committed + kept, p.dropped + dropped), rest, byTicket, t);
      } else {
        assert t in tickets <==> t in rest;
        NoteEffect(p, rest, byTicket, t);
      }
    }
  }

  lemma {:induction false} InsertTicketHolds(t: nat, tickets: seq<nat>, u: nat)
    ensures u in InsertTicket(t, tickets) <==> u == t || u in tickets
  {
    if tickets != [] && tickets[0] < t {
      InsertTicketHolds(t, tickets[1..], u);
      assert u in tickets <==> u == tickets[0] || u in tickets[1..];
    }
  }

  lemma {:induction false} InsertTicketAscends(t: nat, tickets: seq<nat>)
    requires Ascending(tickets)
    ensures Ascending(InsertTicket(t, tickets))
  {
    if tickets != [] && tickets[0] < t {
      InsertTicketAscends(t, tickets[1..]);
      var tail := InsertTicket(t, tickets[1..]);
      forall i | 0 <= i < |tail| ensures tickets[0] < tail[i] {
        InsertTicketHolds(t, tickets[1..], tail[i]);
      }
      AscendingCons(tickets[0], tail);
    }
  }

  lemma AscendingCons(x: nat, tail: seq<nat>)
    requires Ascending(tail) && forall i :: 0 <= i < |tail| ==> x < tail[i]
    ensures Ascending([x] + tail)
  {
  }

  lemma {:induction false} TicketsAscend(segments: seq<Segment>)
    ensures Ascending(TicketsOf(segments))
    ensures forall t :: t in TicketsOf(segments) <==> exists i :: 0 <= i < |segments| && segments[i].ticket == t
  {
    if segments != [] {
      TicketsAscend(segments[1..]);
      InsertTicketAscends(segments[0].ticket, TicketsOf(segments[1..]));
      forall t ensures t in TicketsOf(segments) <==> t == segments[0].ticket || t in TicketsOf(segments[1..]) {
        InsertTicketHolds(segments[0].ticket, TicketsOf(segments[1..]), t);
      }
      assert forall i :: 1 <= i < |segments| ==> segments[i] == segments[1..][i - 1];
    }
  }

  // ---------------------------------------------------------------- ledger and log agree

  lemma {:induction false} CountAppend(a: seq<nat>, f: seq<bool>, b: seq<nat>, g: seq<bool>, t: nat, kept: bool)
    requires |a| == |f| && |b| == |g|
    ensures Count(a + b, f + g, t, kept) == Count(a, f, t, kept) + Count(b, g, t, kept)
    decreases |a|
  {
    if a == [] {
      assert a + b == b && f + g == g;
    } else {
      CountAppend(a[1..], f[1..], b, g, t, kept);
      assert (a + b)[1..] == a[1..] + b && (f + g)[1..] == f[1..] + g;
    }
  }

  lemma {:induction false} TallyItems(u: nat, records: seq<Record>, fates: seq<bool>, t: nat, kept: bool)
    requires |records| == |fates|
    ensures Tally(ItemEntries(u, records, fates), t, kept) == Count(Repeat(u, |records|), fates, t, kept)
  {
    if records != [] {
      TallyItems(u, records[1..], fates[1..], t, kept);
      assert ItemEntries(u, records, fates)[1..] == ItemEntries(u, records[1..], fates[1..]);
      assert Repeat(u, |records|)[1..] == Repeat(u, |records[1..]|);
    }
  }

  lemma {:induction false} EntriesTally(segments: seq<Segment>, records: seq<Record>, fates: seq<bool>, t: nat, kept: bool)
    requires Sum(segments) == |records| == |fates|
    ensures |Labels(segments)| == |fates|
    ensures Tally(Entries(segments, records, fates), t, kept) == Count(Labels(segments), fates, t, kept)
    decreases |segments|
  {
    LabelsCover(segments);
    if segments != [] {
      var s := segments[0];
      var n := s.records;
      var items, mark := ItemEntries(s.ticket, records[..n], fates[..n]), if s.complete then [EndEntry(s.ticket)] else [];
      var rest := Entries(segments[1..], records[n..], fates[n..]);
      EntriesTally(segments[1..], records[n..], fates[n..], t, kept);
      TallyItems(s.ticket, records[..n], fates[..n], t, kept);
      TallyAppend(items + mark, rest, t, kept);
      TallyAppend(items, mark, t, kept);
      CountAppend(Repeat(s.ticket, n), fates[..n], Labels(segments[1..]), fates[n..], t, kept);
      assert fates == fates[..n] + fates[n..];
    }
  }

  lemma {:induction false} EntriesEnded(segments: seq<Segment>, records: seq<Record>, fates: seq<bool>, t: nat)
    requires Sum(segments) == |records| == |fates|
    ensures Ended(Entries(segments, records, fates), t) <==> HasEnd(segments, t)
    decreases |segments|
  {
    if segments != [] {
      var s := segments[0];
      var n := s.records;
      var items, mark := ItemEntries(s.ticket, records[..n], fates[..n]), if s.complete then [EndEntry(s.ticket)] else [];
      var rest := Entries(segments[1..], records[n..], fates[n..]);
      EntriesEnded(segments[1..], records[n..], fates[n..], t);
      HasEndTail(segments, t);
      EndedAppend(items + mark, rest, t);
      EndedAppend(items, mark, t);
      assert s.complete ==> mark[0].token == End(s.ticket);
    }
  }

  lemma {:induction false} CountAllKept(segments: seq<Segment>, fates: seq<bool>, t: nat)
    requires Sum(segments) == |fates| && forall i :: 0 <= i < |fates| ==> fates[i]
    ensures |Labels(segments)| == |fates|
    ensures Count(Labels(segments), fates, t, true) == SumOf(segments, t)
    ensures Count(Labels(segments), fates, t, false) == 0
    decreases |segments|
  {
    LabelsCover(segments);
    if segments != [] {
      var n := segments[0].records;
      CountAllKept(segments[1..], fates[n..], t);
      assert fates == fates[..n] + fates[n..];
      CountAppend(Repeat(segments[0].ticket, n), fates[..n], Labels(segments[1..]), fates[n..], t, true);
      CountAppend(Repeat(segments[0].ticket, n), fates[..n], Labels(segments[1..]), fates[n..], t, false);
      CountRepeat(segments[0].ticket, fates[..n], t);
    }
  }

  lemma {:induction false} CountRepeat(u: nat, fates: seq<bool>, t: nat)
    requires forall i :: 0 <= i < |fates| ==> fates[i]
    ensures Count(Repeat(u, |fates|), fates, t, true) == if u == t then |fates| else 0
    ensures Count(Repeat(u, |fates|), fates, t, false) == 0
  {
    if fates != [] {
      CountRepeat(u, fates[1..], t);
      assert Repeat(u, |fates|)[1..] == Repeat(u, |fates[1..]|);
    }
  }

  lemma {:induction false} LabelsOf(segments: seq<Segment>, t: nat)
    requires forall i :: 0 <= i < |segments| ==> 0 < segments[i].records
    ensures t in Labels(segments) <==> exists i :: 0 <= i < |segments| && segments[i].ticket == t
  {
    if segments != [] {
      LabelsOf(segments[1..], t);
      assert Repeat(segments[0].ticket, segments[0].records)[0] == segments[0].ticket;
      assert forall i :: 1 <= i < |segments| ==> segments[i] == segments[1..][i - 1];
    }
  }

  predicate Mentions(segments: seq<Segment>, t: nat) {
    exists i :: 0 <= i < |segments| && segments[i].ticket == t
  }

  /** What the salvage result must say for the given fates; a clean pass kept every row. */
  ghost predicate Explains(salvage: Option<Salvage>, batch: Submission, fates: seq<bool>) {
    && |fates| == |batch.records| == |Labels(batch.segments)|
    && (salvage.None? ==> forall i :: 0 <= i < |fates| ==> fates[i])
    && (salvage.Some? ==> Accounts(salvage.value, Labels(batch.segments), fates))
  }

  /** The share of a ticket in a salvage result is its rows' fates counted. */
  lemma {:induction false} ShareOf(batch: Submission, salvage: Salvage, fates: seq<bool>, t: nat)
    requires WellFormed(batch) && Explains(Some(salvage), batch, fates) && 0 < t
    ensures t !in batch.tickets ==> Share(salvage.byTicket, t) == (0, 0)
    ensures Share(salvage.byTicket, t)
         == (Count(Labels(batch.segments), fates, t, true), Count(Labels(batch.segments), fates, t, false))
  {
    TicketsAscend(batch.segments);
    LabelsOf(batch.segments, t);
    if t !in Labels(batch.segments) {
      CountAbsent(Labels(batch.segments), fates, t, true);
      CountAbsent(Labels(batch.segments), fates, t, false);
    }
  }

  /** The salvage path: the same as the strict path, with the ticket's dropped rows noted too. */
  lemma {:induction false} SalvageEffect(p: Progress, batch: Submission, shares: map<nat, (nat, nat)>, t: nat)
    requires WellFormed(batch)
    requires p.committed + Share(shares, t).0 <= U64_MAX && p.dropped + Share(shares, t).1 <= U64_MAX
    requires t !in batch.tickets ==> Share(shares, t) == (0, 0)
    ensures OnTicketAll(Unsettled(p), SalvageOps(batch, shares), t)
         == Outcome(p.committed + Share(shares, t).0, p.dropped + Share(shares, t).1, HasEnd(batch.segments, t))
  {
    TicketsAscend(batch.segments);
    NoteEffect(p, batch.tickets, shares, t);
    OnTicketAppend(Unsettled(p), NoteOps(batch.tickets, shares), CompleteOps(batch.segments), t);
    CompleteEffect(Progress(p.committed + Share(shares, t).0, p.dropped + Share(shares, t).1), batch.segments, t);
  }

  lemma {:induction false} CleanEffect(p: Progress, batch: Submission, fates: seq<bool>, t: nat)
    requires WellFormed(batch) && Explains(None, batch, fates) && 0 < t && EndsLast(batch.segments, t)
    requires p.committed + Count(Labels(batch.segments), fates, t, true) <= U64_MAX
    ensures OnTicketAll(Unsettled(p), StrictOps(batch.segments), t)
         == Outcome(p.committed + Count(Labels(batch.segments), fates, t, true),
                    p.dropped + Count(Labels(batch.segments), fates, t, false),
                    HasEnd(batch.segments, t))
  {
    CountAllKept(batch.segments, fates, t);
    StrictEffect(p, batch.segments, t);
  }

  lemma {:induction false} SalvagedEffect(p: Progress, batch: Submission, salvage: Salvage, fates: seq<bool>, t: nat)
    requires WellFormed(batch) && Explains(Some(salvage), batch, fates) && 0 < t
    requires p.committed + Count(Labels(batch.segments), fates, t, true) <= U64_MAX
    requires p.dropped + Count(Labels(batch.segments), fates, t, false) <= U64_MAX
    ensures OnTicketAll(Unsettled(p), SalvageOps(batch, salvage.byTicket), t)
         == Outcome(p.committed + Count(Labels(batch.segments), fates, t, true),
                    p.dropped + Count(Labels(batch.segments), fates, t, false),
                    HasEnd(batch.segments, t))
  {
    ShareOf(batch, salvage, fates, t);
    SalvageEffect(p, batch, salvage.byTicket, t);
  }

  /** The calls for a clean or salvaged batch, applied to an unsettled ticket. */
  lemma {:induction false} SettleEffect(p: Progress, batch: Submission, salvage: Option<Salvage>, fates: seq<bool>, t: nat)
    requires WellFormed(batch) && Explains(salvage, batch, fates) && 0 < t && EndsLast(batch.segments, t)
    requires p.committed + Count(Labels(batch.segments), fates, t, true) <= U64_MAX
    requires p.dropped + Count(Labels(batch.segments), fates, t, false) <= U64_MAX
    ensures OnTicketAll(Unsettled(p), SettleOps(batch, salvage), t)
         == Outcome(p.committed + Count(Labels(batch.segments), fates, t, true),
                    p.dropped + Count(Labels(batch.segments), fates, t, false),
                    HasEnd(batch.segments, t))
  {
    if salvage.None? {
      CleanEffect(p, batch, fates, t);
    } else {
      SalvagedEffect(p, batch, salvage.value, fates, t);
    }
  }

  /** What a batch adds to the log of a ticket. */
  lemma {:induction false} BatchTally(log: seq<LogEntry>, batch: Submission, fates: seq<bool>, t: nat)
    requires WellFormed(batch) && |fates| == |batch.records| == |Labels(batch.segments)|
    ensures
      var after := log + Entries(batch.segments, batch.records, fates);
      && Tally(after, t, true) == Tally(log, t, true) + Count(Labels(batch.segments), fates, t, true)
      && Tally(after, t, false) == Tally(log, t, false) + Count(Labels(batch.segments), fates, t, false)
      && (Ended(after, t) <==> Ended(log, t) || HasEnd(batch.segments, t))
  {
    var entries := Entries(batch.segments, batch.records, fates);
    TallyAppend(log, entries, t, true);
    TallyAppend(log, entries, t, false);
    EndedAppend(log, entries, t);
    EntriesTally(batch.segments, batch.records, fates, t, true);
    EntriesTally(batch.segments, batch.records, fates, t, false);
    EntriesEnded(batch.segments, batch.records, fates, t);
  }

  /** A batch that does not mention a ticket has no row of it. */
  lemma {:induction false} UnmentionedCount(batch: Submission, fates: seq<bool>, t: nat)
    requires |fates| == |Labels(batch.segments)| && WellFormed(batch) && !Mentions(batch.segments, t)
    ensures Count(Labels(batch.segments), fates, t, true) == 0 && Count(Labels(batch.segments), fates, t, false) == 0
  {
    LabelsOf(batch.segments, t);
    CountAbsent(Labels(batch.segments), fates, t, true);
    CountAbsent(Labels(batch.segments), fates, t, false);
  }

  /** A settled ticket that the batch does not mention stays as it is. */
  lemma {:induction false} EndedSettles(log: seq<LogEntry>, batch: Submission, salvage: Option<Salvage>, fates: seq<bool>, t: nat)
    requires WellFormed(batch) && |fates| == |batch.records| == |Labels(batch.segments)|
    requires Ended(log, t) && !Mentions(batch.segments, t)
    ensures OnTicketAll(Summary(log, t), SettleOps(batch, salvage), t)
         == Summary(log + Entries(batch.segments, batch.records, fates), t)
  {
    BatchTally(log, batch, fates, t);
    UnmentionedCount(batch, fates, t);
    SettledStays(Summary(log, t), SettleOps(batch, salvage), t);
  }

  /** An unsettled ticket takes what the batch kept and dropped of it, and its end. */
  lemma {:induction false} OpenSettles(log: seq<LogEntry>, batch: Submission, salvage: Option<Salvage>, fates: seq<bool>, t: nat)
    requires WellFormed(batch) && Explains(salvage, batch, fates) && 0 < t && EndsLast(batch.segments, t) && !Ended(log, t)
    requires
      var after := log + Entries(batch.segments, batch.records, fates);
      Tally(after, t, true) <= U64_MAX && Tally(after, t, false) <= U64_MAX
    ensures OnTicketAll(Summary(log, t), SettleOps(batch, salvage), t)
         == Summary(log + Entries(batch.segments, batch.records, fates), t)
  {
    BatchTally(log, batch, fates, t);
    SettleEffect(Progress(Tally(log, t, true), Tally(log, t, false)), batch, salvage, fates, t);
  }

  /** After settlement every ticket is where the log says: its progress is what was kept and
      dropped of it so far, and it is failed exactly when it has ended with a dropped row. */
  lemma {:induction false} BatchSettles(log: seq<LogEntry>, batch: Submission, salvage: Option<Salvage>, fates: seq<bool>, t: nat)
    requires WellFormed(batch) && Explains(salvage, batch, fates) && 0 < t && EndsLast(batch.segments, t)
    requires Mentions(batch.segments, t) ==> !Ended(log, t)
    requires
      var after := log + Entries(batch.segments, batch.records, fates);
      Tally(after, t, true) <= U64_MAX && Tally(after, t, false) <= U64_MAX
    ensures OnTicketAll(Summary(log, t), SettleOps(batch, salvage), t)
         == Summary(log + Entries(batch.segments, batch.records, fates), t)
  {
    if Ended(log, t) {
      EndedSettles(log, batch, salvage, fates, t);
    } else {
      OpenSettles(log, batch, salvage, fates, t);
    }
  }

  // ---------------------------------------------------------------- the loops

  /** `complete`: settle under the lock, then publish. */
  method CompleteTicket(ledger: CommitLedger, ticket: nat)
    modifies ledger
    ensures old(ledger.UpToDate()) ==> ledger.UpToDate()
    ensures ledger.View() == Apply(old(ledger.View()), Complete(ticket))
  {
    var settled, watermark := ledger.SettleLocked(ticket, false);
    if settled {
      ledger.Publish(watermark);
    }
  }

  method SettleSegment(ledger: CommitLedger, s: Segment)
    modifies ledger
    ensures old(ledger.UpToDate()) ==> ledger.UpToDate()
    ensures ledger.View() == ApplyAll(old(ledger.View()), SegmentOps(s))
  {
    ghost var before := ledger.View();
    assert SegmentOps(s)[1..] == if s.complete then [Complete(s.ticket)] else [];
    ledger.NoteCommitted(s.ticket, s.records);
    if s.complete {
      assert [Complete(s.ticket)][1..] == [];
      CompleteTicket(ledger, s.ticket);
      assert ledger.View() == ApplyAll(Apply(before, NoteCommitted(s.ticket, s.records)), [Complete(s.ticket)]);
    }
  }

  method NoteTicket(ledger: CommitLedger, ticket: nat, kept: nat, dropped: nat)
    modifies ledger
    ensures old(ledger.UpToDate()) ==> ledger.UpToDate()
    ensures ledger.View() == ApplyAll(old(ledger.View()), TicketNotes(ticket, kept, dropped))
  {
    ghost var before := ledger.View();
    ghost var a := if 0 < kept then [NoteCommitted(ticket, kept)] else [];
    ghost var b := if 0 < dropped then [NoteDropped(ticket, dropped)] else [];
    ApplyAppend(before, a, b);
    if 0 < kept {
      assert a[1..] == [];
      ledger.NoteCommitted(ticket, kept);
    }
    assert ledger.View() == ApplyAll(before, a);
    if 0 < dropped {
      assert b[1..] == [];
      ledger.NoteDropped(ticket, dropped);
    }
  }

  method NoteShares(ledger: CommitLedger, tickets: seq<nat>, shares: map<nat, (nat, nat)>)
    modifies ledger
    ensures old(ledger.UpToDate()) ==> ledger.UpToDate()
    ensures ledger.View() == ApplyAll(old(ledger.View()), NoteOps(tickets, shares))
  {
    var k := 0;
    assert tickets[0..] == tickets;
    while k < |tickets|
      invariant k <= |tickets|
      invariant old(ledger.UpToDate()) ==> ledger.UpToDate()
      invariant ApplyAll(ledger.View(), NoteOps(tickets[k..], shares)) == ApplyAll(old(ledger.View()), NoteOps(tickets, shares))
    {
      var (kept, dropped) := Share(shares, tickets[k]);
      assert tickets[k..][1..] == tickets[k + 1..];
      assert NoteOps(tickets[k..], shares) == TicketNotes(tickets[k], kept, dropped) + NoteOps(tickets[k + 1..], shares);
      ApplyAppend(ledger.View(), TicketNotes(tickets[k], kept, dropped), NoteOps(tickets[k + 1..], shares));
      NoteTicket(ledger, tickets[k], kept, dropped);
      k := k + 1;
    }
  }

  method CompleteSegments(ledger: CommitLedger, segments: seq<Segment>)
    modifies ledger
    ensures old(ledger.UpToDate()) ==> ledger.UpToDate()
    ensures ledger.View() == ApplyAll(old(ledger.View()), CompleteOps(segments))
  {
    var k := 0;
    assert segments[0..] == segments;
    while k < |segments|
      invariant k <= |segments|
      invariant old(ledger.UpToDate()) ==> ledger.UpToDate()
      invariant ApplyAll(ledger.View(), CompleteOps(segments[k..])) == ApplyAll(old(ledger.View()), CompleteOps(segments))
    {
      assert segments[k..][1..] == segments[k + 1..];
      if segments[k].complete {
        assert CompleteOps(segments[k..])[1..] == CompleteOps(segments[k + 1..]);
        CompleteTicket(ledger, segments[k].ticket);
      } else {
        assert CompleteOps(segments[k..]) == CompleteOps(segments[k + 1..]);
      }
      k := k + 1;
    }
  }

  method SettleLogBatch(ledger: CommitLedger, batch: Submission, salvage: Option<Salvage>)
    modifies ledger
    ensures old(ledger.UpToDate()) ==> ledger.UpToDate()
    ensures ledger.View() == ApplyAll(old(ledger.View()), SettleOps(batch, salvage))
  {
    if salvage.Some? {
      ApplyAppend(ledger.View(), NoteOps(batch.tickets, salvage.value.byTicket), CompleteOps(batch.segments));
      NoteShares(ledger, batch.tickets, salvage.value.byTicket);
      CompleteSegments(ledger, batch.segments);
      return;
    }
    var segments, k := batch.segments, 0;
    assert segments[0..] == segments;
    while k < |segments|
      invariant k <= |segments|
      invariant old(ledger.UpToDate()) ==> ledger.UpToDate()
      invariant ApplyAll(ledger.View(), StrictOps(segments[k..])) == ApplyAll(old(ledger.View()), StrictOps(segments))
    {
      assert segments[k..][1..] == segments[k + 1..];
      assert StrictOps(segments[k..]) == SegmentOps(segments[k]) + StrictOps(segments[k + 1..]);
      ApplyAppend(ledger.View(), SegmentOps(segments[k]), StrictOps(segments[k + 1..]));
      SettleSegment(ledger, segments[k]);
      k := k + 1;
    }
  }

  /** `execute` on an insert command: persist under the policy, then settle. Every ticket of the
      batch ends up where the fates of its rows put it, and a fatal failure leaves both the table
      and the ledger as they were. */
  method ExecuteInsert(db: Database, ledger: CommitLedger, batch: Submission, strict: nat -> Attempt, salvage: Attempt)
    returns (result: Persisted, ghost tries: nat)
    requires WellFormed(batch)
    modifies db, ledger
    ensures old(ledger.UpToDate()) ==> ledger.UpToDate()
    ensures 1 <= tries <= MAX_TRANSIENT_RETRIES + 1
    ensures forall k :: 0 <= k < tries - 1 ==> FailsWith(strict(k), |batch.records|, false, Retryable)
    ensures Concludes(strict(tries - 1), salvage, |batch.records|, result, tries)
    ensures result.Died? ==> db.rows == old(db.rows) && ledger.View() == old(ledger.View())
    ensures !result.Died? ==>
        var outcome := if result.Clean? then None else Some(result.outcome);
        var fates := if result.Clean? then AllKept(|batch.records|) else Fates(salvage.row, |batch.records|);
        && Explains(outcome, batch, fates)
        && db.rows == old(db.rows) + RowsUnder(batch.origin, Survivors(batch.records, fates))
        && (outcome.Some? ==> outcome.value.kept + outcome.value.dropped == |batch.records|)
        && ledger.View() == ApplyAll(old(ledger.View()), SettleOps(batch, outcome))
  {
    LabelsCover(batch.segments);
    var attempts, slept;
    result, attempts, slept := db.PersistWithPolicy(batch, strict, salvage);
    tries := attempts;
    match result {
      case Died(_) =>
      case Clean =>
        ghost var fates := AllKept(|batch.records|);
        SurvivorsAll(batch.records, fates);
        assert Explains(None, batch, fates);
        SettleLogBatch(ledger, batch, None);
      case Salvaged(outcome) =>
        assert Explains(Some(outcome), batch, Fates(salvage.row, |batch.records|));
        SettleLogBatch(ledger, batch, Some(outcome));
    }
  }
}
