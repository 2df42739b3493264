/** The rows the writer committed, as a table of records. */
module Table {
  import opened Stream
  import opened InsertBatching
  import opened OriginBatching
  import opened Writer
  import opened Settlement
  import opened Chunks
  import opened Protocol
  import opened Conservation
  import opened Readings

  /** The committed rows, in insertion order. */
  function Committed(log: seq<LogEntry>): seq<Record> {
    if log == [] then []
    else (if log[0].token.Item? && log[0].kept then [log[0].token.record] else []) + Committed(log[1..])
  }

  /** A token keeps its place among the tokens of its ticket. */
  lemma {:induction false} ProjAt(s: seq<Token>, i: nat)
    requires i < |s|
    ensures
      var t := s[i].tag;
      |Proj(s[..i], t)| < |Proj(s, t)| && Proj(s, t)[|Proj(s[..i], t)|] == s[i]
  {
    var t := s[i].tag;
    assert s == s[..i] + s[i..];
    ProjAppend(s[..i], s[i..], t);
    assert Proj(s[i..], t)[0] == s[i];
  }

  lemma ProjGrows(s: seq<Token>, i: nat, j: nat)
    requires i < j < |s|
    ensures |Proj(s[..i], s[i].tag)| < |Proj(s[..j], s[i].tag)|
  {
    ProjAt(s[..j], i);
    assert s[..j][..i] == s[..i];
  }

  /** An item in the log is a record of its own ticket's chunk, at its own place. */
  lemma ItemIsTruthful(s: State, i: nat)
    requires LogIsPrefix(s) && i < |s.log| && s.log[i].token.Item?
    ensures
      var t := s.log[i].token.tag;
      var p := |Proj(Tokens(s.log)[..i], t)|;
      p < SizeOf(s, t) && s.log[i].token.record == Record(t, p)
  {
    var t := s.log[i].token.tag;
    ProjAt(Tokens(s.log), i);
    var p := |Proj(Tokens(s.log)[..i], t)|;
    assert LogAt(s, t) <= Expected(s, t);
    assert Expected(s, t)[p] == s.log[i].token;
  }

  /** No record is persisted or dropped twice. */
  lemma ItemsAreDistinct(s: State, i: nat, j: nat)
    requires LogIsPrefix(s) && i < j < |s.log| && s.log[i].token.Item? && s.log[j].token.Item?
    ensures s.log[i].token.record != s.log[j].token.record
  {
    ItemIsTruthful(s, i);
    ItemIsTruthful(s, j);
    if s.log[i].token.tag == s.log[j].token.tag {
      ProjGrows(Tokens(s.log), i, j);
    }
  }

  lemma {:induction false} CommittedMember(log: seq<LogEntry>, r: Record)
    ensures r in Committed(log) <==> exists i :: 0 <= i < |log| && log[i].token.Item? && log[i].kept && log[i].token.record == r
  {
    if log != [] {
      CommittedMember(log[1..], r);
      if exists i :: 0 <= i < |log| && log[i].token.Item? && log[i].kept && log[i].token.record == r {
        var i :| 0 <= i < |log| && log[i].token.Item? && log[i].kept && log[i].token.record == r;
        if 0 < i {
          assert log[1..][i - 1] == log[i];
        }
      }
      if r in Committed(log[1..]) {
        var i :| 0 <= i < |log[1..]| && log[1..][i].token.Item? && log[1..][i].kept && log[1..][i].token.record == r;
        assert log[i + 1] == log[1..][i];
      }
    }
  }

  lemma {:induction false} CommittedOnce(log: seq<LogEntry>)
    requires forall i, j :: 0 <= i < j < |log| && log[i].token.Item? && log[j].token.Item? ==>
               log[i].token.record != log[j].token.record
    ensures forall i, j :: 0 <= i < j < |Committed(log)| ==> Committed(log)[i] != Committed(log)[j]
  {
    if log != [] {
      CommittedOnce(log[1..]);
      if log[0].token.Item? {
        CommittedMember(log[1..], log[0].token.record);
        assert forall j :: 0 <= j < |log[1..]| ==> log[1..][j] == log[j + 1];
      }
    }
  }

  lemma {:induction false} ProjHas(s: seq<Token>, t: nat, x: Token)
    requires x in Proj(s, t)
    ensures x in s
  {
    if s[0] != x {
      ProjHas(s[1..], t, x);
    }
  }

  lemma {:induction false} NoDropsMeansKept(log: seq<LogEntry>, i: nat)
    requires i < |log| && log[i].token.Item? && Tally(log, log[i].token.tag, false) == 0
    ensures log[i].kept
  {
    if 0 < i {
      NoDropsMeansKept(log[1..], i - 1);
    }
  }

  /** What the log says about a ticket, once as many rows as it has records were kept. */
  lemma {:induction false} AllRowsMeansNoDrop(s: State, t: nat)
    requires LogIsPrefix(s) && Rows(s, t) == SizeOf(s, t)
    ensures Tally(s.log, t, false) == 0 && SizeOf(s, t) <= |LogAt(s, t)|
  {
    TallySum(s.log, t);
    EndsProj(Tokens(s.log), t);
    assert LogAt(s, t) <= Expected(s, t);
    if |LogAt(s, t)| == SizeOf(s, t) + 1 {
      assert LogAt(s, t) == Chunk(t, Named(t, SizeOf(s, t)));
      EndsChunk(t, Named(t, SizeOf(s, t)), t);
    }
  }

  /** A ticket with as many rows as records has each of its records in the table. */
  lemma AllRowsMeansEachRecord(s: State, t: nat, p: nat)
    requires LogIsPrefix(s) && Rows(s, t) == SizeOf(s, t) && p < SizeOf(s, t)
    ensures Record(t, p) in Committed(s.log)
  {
    var x := Item(t, Record(t, p));
    AllRowsMeansNoDrop(s, t);
    assert LogAt(s, t) <= Expected(s, t);
    assert LogAt(s, t)[p] == Expected(s, t)[p] == x;
    ProjHas(Tokens(s.log), t, x);
    var i :| 0 <= i < |s.log| && Tokens(s.log)[i] == x;
    NoDropsMeansKept(s.log, i);
    CommittedMember(s.log, Record(t, p));
  }

  function OfTicket(rows: seq<Record>, t: nat): nat {
    if rows == [] then 0 else (if rows[0].ticket == t then 1 else 0) + OfTicket(rows[1..], t)
  }

  lemma {:induction false} OfTicketAppend(a: seq<Record>, b: seq<Record>, t: nat)
    ensures OfTicket(a + b, t) == OfTicket(a, t) + OfTicket(b, t)
  {
    if a == [] {
      assert a + b == b;
    } else {
      OfTicketAppend(a[1..], b, t);
      assert (a + b)[1..] == a[1..] + b;
    }
  }

  lemma {:induction false} TallyCountsTable(log: seq<LogEntry>, t: nat)
    requires forall i :: 0 <= i < |log| && log[i].token.Item? ==> log[i].token.record.ticket == log[i].token.tag
    ensures Tally(log, t, true) == OfTicket(Committed(log), t)
  {
    if log != [] {
      TallyCountsTable(log[1..], t);
      OfTicketAppend(if log[0].token.Item? && log[0].kept then [log[0].token.record] else [], Committed(log[1..]), t);
    }
  }

  /** The tally by label is the number of rows that really belong to the ticket. */
  lemma {:induction false} RowsAreTableRows(s: State, t: nat)
    requires LogIsPrefix(s)
    ensures Rows(s, t) == OfTicket(Committed(s.log), t)
  {
    forall i | 0 <= i < |s.log| && s.log[i].token.Item? ensures s.log[i].token.record.ticket == s.log[i].token.tag {
      ItemIsTruthful(s, i);
    }
    TallyCountsTable(s.log, t);
  }

  // ---------------------------------------------------------------- the table the writer fills

  lemma {:induction false} CommittedAppend(a: seq<LogEntry>, b: seq<LogEntry>)
    ensures Committed(a + b) == Committed(a) + Committed(b)
  {
    if a == [] {
      assert a + b == b;
    } else {
      CommittedAppend(a[1..], b);
      assert (a + b)[1..] == a[1..] + b;
    }
  }

  lemma {:induction false} CommittedItems(t: nat, records: seq<Record>, fates: seq<bool>)
    requires |records| == |fates|
    ensures Committed(ItemEntries(t, records, fates)) == Survivors(records, fates)
  {
    if records != [] {
      CommittedItems(t, records[1..], fates[1..]);
      assert ItemEntries(t, records, fates)[1..] == ItemEntries(t, records[1..], fates[1..]);
    }
  }

  lemma {:induction false} CommittedSegment(s: Segment, records: seq<Record>, fates: seq<bool>)
    requires |records| == |fates|
    ensures Committed(ItemEntries(s.ticket, records, fates) + (if s.complete then [EndEntry(s.ticket)] else [])) ==
              Survivors(records, fates)
  {
    var mark := if s.complete then [EndEntry(s.ticket)] else [];
    CommittedItems(s.ticket, records, fates);
    CommittedAppend(ItemEntries(s.ticket, records, fates), mark);
    assert Committed(mark) == [];
  }

  lemma {:induction false} SurvivorsSplit(records: seq<Record>, fates: seq<bool>, n: nat)
    requires n <= |records| == |fates|
    ensures Survivors(records, fates) == Survivors(records[..n], fates[..n]) + Survivors(records[n..], fates[n..])
  {
    SurvivorsAppend(records[..n], records[n..], fates[..n], fates[n..]);
    assert records == records[..n] + records[n..] && fates == fates[..n] + fates[n..];
  }

  /** The log of a batch holds the rows its transaction added to the table. */
  lemma {:induction false} CommittedBatch(segments: seq<Segment>, records: seq<Record>, fates: seq<bool>)
    requires Sum(segments) == |records| == |fates|
    ensures Committed(Entries(segments, records, fates)) == Survivors(records, fates)
    decreases |segments|
  {
    if segments != [] {
      var s, n := segments[0], segments[0].records;
      var head := ItemEntries(s.ticket, records[..n], fates[..n]) + (if s.complete then [EndEntry(s.ticket)] else []);
      CommittedBatch(segments[1..], records[n..], fates[n..]);
      CommittedSegment(s, records[..n], fates[..n]);
      CommittedAppend(head, Entries(segments[1..], records[n..], fates[n..]));
      SurvivorsSplit(records, fates, n);
    }
  }

  /** Persisting a batch in the pipeline adds to the table exactly what the writer's transaction does. */
  lemma {:induction false} PersistAddsRows(s: State, salvage: Option<Salvage>, fates: seq<bool>)
    requires s.writer.Busy? && WellFormed(s.writer.sub) && |fates| == |s.writer.sub.records|
    ensures Committed(DoPersist(s, salvage, fates).log) == Committed(s.log) + Survivors(s.writer.sub.records, fates)
  {
    CommittedBatch(s.writer.sub.segments, s.writer.sub.records, fates);
    CommittedAppend(s.log, Entries(s.writer.sub.segments, s.writer.sub.records, fates));
  }
}
