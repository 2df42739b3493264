/** The token stream used to follow every record through the pipeline.

A record is named by the ticket of the chunk it was sent in and its position there. The
pipeline itself never looks at that name: it labels records through ticket segments. A token
`Item(tag, record)` is a record together with the tag the pipeline gives it, and
`End(tag)` is the mark that lets the writer settle the tag's ticket. */
module Stream {
  import InsertBatching


  datatype Record = Record(ticket: nat, position: nat)

  datatype Token = Item(tag: nat, record: Record) | End(tag: nat)

  function Items(tag: nat, records: seq<Record>): (r: seq<Token>)
    ensures |r| == |records|
    ensures forall i :: 0 <= i < |r| ==> r[i] == Item(tag, records[i])
  {
    seq(|records|, i requires 0 <= i < |records| => Item(tag, records[i]))
  }

  /** The records of a chunk of `size` records sent under `ticket`. */
  function Named(ticket: nat, size: nat): (r: seq<Record>)
    ensures |r| == size
    ensures forall i :: 0 <= i < size ==> r[i] == Record(ticket, i)
  {
    seq(size, i requires 0 <= i < size => Record(ticket, i))
  }

  /** A whole chunk: its records in order, then its end mark. */
  function Chunk(ticket: nat, records: seq<Record>): seq<Token> {
    Items(ticket, records) + [End(ticket)]
  }

  /** The tokens labelled `t`, in order. */
  function Proj(s: seq<Token>, t: nat): seq<Token> {
    if s == [] then []
    else (if s[0].tag == t then [s[0]] else []) + Proj(s[1..], t)
  }

  lemma {:induction false} ProjAppend(a: seq<Token>, b: seq<Token>, t: nat)
    ensures Proj(a + b, t) == Proj(a, t) + Proj(b, t)
  {
    if a == [] {
      assert a + b == b;
    } else {
      ProjAppend(a[1..], b, t);
      assert (a + b)[0] == a[0] && (a + b)[1..] == a[1..] + b;
      InsertBatching.Associative(if a[0].tag == t then [a[0]] else [], Proj(a[1..], t), Proj(b, t));
    }
  }

  lemma {:induction false} ProjItems(tag: nat, records: seq<Record>, t: nat)
    ensures Proj(Items(tag, records), t) == if tag == t then Items(tag, records) else []
  {
    if records != [] {
      ProjItems(tag, records[1..], t);
      assert Items(tag, records)[1..] == Items(tag, records[1..]);
    }
  }

  lemma {:induction false} ProjChunk(ticket: nat, records: seq<Record>, t: nat)
    ensures Proj(Chunk(ticket, records), t) == if ticket == t then Chunk(ticket, records) else []
  {
    ProjAppend(Items(ticket, records), [End(ticket)], t);
    ProjItems(ticket, records, t);
    assert Proj([End(ticket)], t) == if ticket == t then [End(ticket)] else [];
  }

  lemma ChunkSplit(ticket: nat, a: seq<Record>, b: seq<Record>)
    ensures Items(ticket, a) + Chunk(ticket, b) == Chunk(ticket, a + b)
  {
    assert Items(ticket, a + b) == Items(ticket, a) + Items(ticket, b);
  }

  /** End marks labelled `t`. */
  function Ends(s: seq<Token>, t: nat): nat {
    if s == [] then 0 else (if s[0] == End(t) then 1 else 0) + Ends(s[1..], t)
  }

  lemma {:induction false} EndsAppend(a: seq<Token>, b: seq<Token>, t: nat)
    ensures Ends(a + b, t) == Ends(a, t) + Ends(b, t)
  {
    if a == [] {
      assert a + b == b;
    } else {
      EndsAppend(a[1..], b, t);
      assert (a + b)[1..] == a[1..] + b;
    }
  }

  lemma {:induction false} EndsProj(s: seq<Token>, t: nat)
    ensures Ends(Proj(s, t), t) == Ends(s, t)
  {
    if s != [] {
      EndsProj(s[1..], t);
      EndsAppend(if s[0].tag == t then [s[0]] else [], Proj(s[1..], t), t);
    }
  }

  lemma {:induction false} EndsItems(tag: nat, records: seq<Record>, t: nat)
    ensures Ends(Items(tag, records), t) == 0
  {
    if records != [] {
      EndsItems(tag, records[1..], t);
      assert Items(tag, records)[1..] == Items(tag, records[1..]);
    }
  }

  lemma {:induction false} EndsChunk(ticket: nat, records: seq<Record>, t: nat)
    ensures Ends(Chunk(ticket, records), t) == if ticket == t then 1 else 0
  {
    EndsAppend(Items(ticket, records), [End(ticket)], t);
    EndsItems(ticket, records, t);
    assert Ends([End(ticket)], t) == if ticket == t then 1 else 0;
  }
}
