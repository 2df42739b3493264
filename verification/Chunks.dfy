/** What the conservation equation says about the parts of one ticket's stream. */
module Chunks {
  import opened Stream
  import opened OriginBatching
  import opened Settlement

  lemma {:induction false} EndsOfLast(y: seq<Token>, t: nat)
    requires y != [] && y[|y| - 1] == End(t)
    ensures 0 < Ends(y, t)
  {
    assert y == y[..|y| - 1] + [End(t)];
    EndsAppend(y[..|y| - 1], [End(t)], t);
    assert Ends([End(t)], t) == 1;
  }

  /** The end mark comes last: a part of a chunk with something after it has none. */
  lemma {:induction false} NoEarlyEnd(x: seq<Token>, y: seq<Token>, t: nat, records: seq<Record>)
    requires x + y == Chunk(t, records) && y != []
    ensures Ends(x, t) == 0
  {
    EndsAppend(x, y, t);
    EndsChunk(t, records, t);
    assert y[|y| - 1] == (x + y)[|x + y| - 1];
    EndsOfLast(y, t);
  }

  lemma {:induction false} EndsCount(log: seq<LogEntry>, t: nat)
    ensures Ended(log, t) <==> 0 < Ends(Tokens(log), t)
  {
    if log != [] {
      EndsCount(log[1..], t);
      assert Tokens(log)[1..] == Tokens(log[1..]);
      EndedAppend([log[0]], log[1..], t);
      assert log == [log[0]] + log[1..];
      assert Ended([log[0]], t) <==> log[0].token == End(t) by {
        assert [log[0]][0] == log[0];
      }
    }
  }

  lemma {:induction false} EndedShows(log: seq<LogEntry>, t: nat)
    ensures Ended(log, t) <==> 0 < Ends(Proj(Tokens(log), t), t)
  {
    EndsCount(log, t);
    EndsProj(Tokens(log), t);
  }

  /** Kept, dropped and end marks are all a log says about a ticket. */
  lemma {:induction false} TallySum(log: seq<LogEntry>, t: nat)
    ensures Tally(log, t, true) + Tally(log, t, false) + Ends(Tokens(log), t) == |Proj(Tokens(log), t)|
  {
    if log != [] {
      TallySum(log[1..], t);
      assert Tokens(log)[1..] == Tokens(log[1..]);
    }
  }

  lemma {:induction false} LogOfAppend(a: seq<LogEntry>, b: seq<LogEntry>, t: nat)
    ensures Proj(Tokens(a + b), t) == Proj(Tokens(a), t) + Proj(Tokens(b), t)
  {
    assert Tokens(a + b) == Tokens(a) + Tokens(b);
    ProjAppend(Tokens(a), Tokens(b), t);
  }

  function Mark(s: Segment): seq<Token> {
    if s.complete then [End(s.ticket)] else []
  }

  lemma {:induction false} SegmentHead(segments: seq<Segment>, records: seq<Record>, t: nat)
    requires segments != [] && segments[0].records <= |records|
    ensures
      var s := segments[0];
      var head := if s.ticket == t then Items(t, records[..s.records]) + Mark(s) else [];
      Proj(SegmentTokens(segments, records), t) == head + Proj(SegmentTokens(segments[1..], records[s.records..]), t)
  {
    var s := segments[0];
    var items, rest := Items(s.ticket, records[..s.records]), SegmentTokens(segments[1..], records[s.records..]);
    assert SegmentTokens(segments, records) == items + Mark(s) + rest;
    ProjAppend(items + Mark(s), rest, t);
    ProjAppend(items, Mark(s), t);
    ProjItems(s.ticket, records[..s.records], t);
    assert Proj(Mark(s), t) == if s.ticket == t then Mark(s) else [];
  }

  predicate Proper(segments: seq<Segment>) {
    forall i :: 0 <= i < |segments| ==> 0 < segments[i].records
  }

  lemma {:induction false} MentionedShows(segments: seq<Segment>, records: seq<Record>, t: nat)
    requires Sum(segments) == |records| && Proper(segments) && Mentions(segments, t)
    ensures Proj(SegmentTokens(segments, records), t) != []
    decreases |segments|
  {
    SegmentHead(segments, records, t);
    if segments[0].ticket != t {
      var i :| 0 <= i < |segments| && segments[i].ticket == t;
      assert segments[1..][i - 1] == segments[i];
      MentionedShows(segments[1..], records[segments[0].records..], t);
    }
  }

  lemma {:induction false} CompleteIsLast(
    segments: seq<Segment>, records: seq<Record>, t: nat, x: seq<Token>, z: seq<Token>, chunk: seq<Record>)
    requires Sum(segments) == |records| && Proper(segments)
    requires x + Proj(SegmentTokens(segments, records), t) + z == Chunk(t, chunk)
    ensures EndsLast(segments, t)
    decreases |segments|
  {
    if segments != [] {
      var s, tail, later := segments[0], segments[1..], records[segments[0].records..];
      var rest := Proj(SegmentTokens(tail, later), t);
      var head := if s.ticket == t then Items(t, records[..s.records]) + Mark(s) else [];
      assert Proj(SegmentTokens(segments, records), t) == head + rest by {
        SegmentHead(segments, records, t);
      }
      Shift(x, head, rest, z);
      CompleteIsLast(tail, later, t, x + head, z, chunk);
      if s.ticket == t && s.complete {
        EndsTheTicket(tail, later, t, x + head, z, chunk);
      }
      EndsLastCons(segments, t);
    }
  }

  lemma Shift(x: seq<Token>, head: seq<Token>, rest: seq<Token>, z: seq<Token>)
    ensures x + (head + rest) + z == (x + head) + rest + z
  {
  }

  lemma EndsLastCons(segments: seq<Segment>, t: nat)
    requires segments != [] && EndsLast(segments[1..], t)
    requires segments[0].ticket == t && segments[0].complete ==> !Mentions(segments[1..], t)
    ensures EndsLast(segments, t)
  {
    assert forall j :: 1 <= j < |segments| ==> segments[j] == segments[1..][j - 1];
  }

  /** Nothing of a ticket follows its end mark. */
  lemma {:induction false} EndsTheTicket(
    rest: seq<Segment>, records: seq<Record>, t: nat, x: seq<Token>, z: seq<Token>, chunk: seq<Record>)
    requires Sum(rest) == |records| && Proper(rest) && x != [] && x[|x| - 1] == End(t)
    requires x + Proj(SegmentTokens(rest, records), t) + z == Chunk(t, chunk)
    ensures !Mentions(rest, t)
  {
    if Mentions(rest, t) {
      var later := Proj(SegmentTokens(rest, records), t) + z;
      MentionedShows(rest, records, t);
      assert x + later == Chunk(t, chunk);
      NoEarlyEnd(x, later, t, chunk);
      EndsOfLast(x, t);
    }
  }
}
