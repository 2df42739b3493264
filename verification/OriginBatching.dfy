/** Per-origin accumulation with ticket segments.

Every origin has its own accumulator plus a queue of `(ticket, records still buffered)`
pairs. Emitting a batch consumes the pairs covering its records. The theorems say that this
bookkeeping is faithful: read as tokens, what is emitted followed by what stays buffered is
exactly what was pushed. */
module OriginBatching {
  import opened Clock
  import opened Stream
  import opened InsertBatching

  datatype Origin = Origin(resource: Option<string>, schemaUrl: string)

  /** A run of records of one ticket inside an emitted batch. */
  datatype Segment = Segment(ticket: nat, records: nat, complete: bool)

  /** Records of one ticket still buffered. */
  datatype Held = Held(ticket: nat, left: nat)

  datatype Buffer = Buffer(held: seq<Held>, records: seq<Record>, deadline: Option<nat>)

  datatype Entry = Entry(origin: Origin, buffer: Buffer)

  datatype Submission = Submission(origin: Origin, records: seq<Record>, tickets: seq<nat>, segments: seq<Segment>)

  datatype Config = Config(maxRecords: nat, maxAge: nat, horizon: nat)

  function Total(held: seq<Held>): nat {
    if held == [] then 0 else held[0].left + Total(held[1..])
  }

  function Sum(segments: seq<Segment>): nat {
    if segments == [] then 0 else segments[0].records + Sum(segments[1..])
  }

  predicate AllHold(held: seq<Held>) {
    forall i :: 0 <= i < |held| ==> 0 < held[i].left
  }

  /** Every buffered record has a ticket and every ticket in the queue has a record. */
  predicate Aligned(b: Buffer) {
    AllHold(b.held) && Total(b.held) == |b.records|
  }

  // ---------------------------------------------------------------- consuming segments

  /** Labels the first `count` buffered records, oldest ticket first. */
  function Consume(held: seq<Held>, count: nat): (r: (seq<Segment>, seq<Held>))
    requires count <= Total(held)
    decreases |held|
  {
    if count == 0 then ([], held)
    else
      var h := held[0];
      if count < h.left then ([Segment(h.ticket, count, false)], [Held(h.ticket, h.left - count)] + held[1..])
      else
        var rest := Consume(held[1..], count - h.left);
        ([Segment(h.ticket, h.left, true)] + rest.0, rest.1)
  }

  function HeldTokens(held: seq<Held>, records: seq<Record>): seq<Token> {
    if held == [] || |records| < held[0].left then []
    else Chunk(held[0].ticket, records[..held[0].left]) + HeldTokens(held[1..], records[held[0].left..])
  }

  function SegmentTokens(segments: seq<Segment>, records: seq<Record>): seq<Token> {
    if segments == [] || |records| < segments[0].records then []
    else
      var s := segments[0];
      Items(s.ticket, records[..s.records]) + (if s.complete then [End(s.ticket)] else [])
      + SegmentTokens(segments[1..], records[s.records..])
  }

  lemma {:induction false} ConsumeTotals(held: seq<Held>, count: nat)
    requires AllHold(held) && count <= Total(held)
    ensures
      var (segments, left) := Consume(held, count);
      && Sum(segments) == count && Total(left) == Total(held) - count && AllHold(left)
      && (forall i :: 0 <= i < |segments| ==> 0 < segments[i].records)
    decreases |held|
  {
    if count != 0 && held[0].left <= count {
      ConsumeTotals(held[1..], count - held[0].left);
      var (segments, left) := Consume(held, count);
      assert segments[1..] == Consume(held[1..], count - held[0].left).0;
    } else if count != 0 {
      var (segments, left) := Consume(held, count);
      assert left[1..] == held[1..] && segments[1..] == [];
    }
  }

  /** Labels are faithful: the emitted segments followed by the queue that remains carry each
      record, in order, under the ticket the queue had for it, and the end mark of a ticket is
      emitted with its last record and with no other. */
  ghost predicate LabelledFaithfully(held: seq<Held>, records: seq<Record>, count: nat)
    requires count <= Total(held) == |records|
  {
    var (segments, left) := Consume(held, count);
    && Sum(segments) == count && Total(left) == |records| - count
    && SegmentTokens(segments, records[..count]) + HeldTokens(left, records[count..]) == HeldTokens(held, records)
  }

  lemma {:induction false} ConsumeInside(held: seq<Held>, records: seq<Record>, count: nat)
    requires held != [] && 0 < count < held[0].left && Total(held) == |records|
    ensures
      var h := held[0];
      var left := [Held(h.ticket, h.left - count)] + held[1..];
      && Total(left) == |records| - count
      && SegmentTokens([Segment(h.ticket, count, false)], records[..count]) + HeldTokens(left, records[count..])
         == HeldTokens(held, records)
  {
    var h := held[0];
    var left := [Held(h.ticket, h.left - count)] + held[1..];
    var a, b := records[..count], records[count..h.left];
    var rest := HeldTokens(held[1..], records[h.left..]);
    assert HeldTokens(left, records[count..]) == Chunk(h.ticket, b) + rest by {
      assert left[1..] == held[1..];
      assert records[count..][..h.left - count] == b;
      assert records[count..][h.left - count..] == records[h.left..];
    }
    assert HeldTokens(held, records) == Chunk(h.ticket, a + b) + rest by {
      assert records[..h.left] == a + b;
    }
    assert SegmentTokens([Segment(h.ticket, count, false)], a) == Items(h.ticket, a) by {
      assert a[..count] == a;
    }
    ChunkSplit(h.ticket, a, b);
    assert Items(h.ticket, a) + (Chunk(h.ticket, b) + rest) == (Items(h.ticket, a) + Chunk(h.ticket, b)) + rest;
  }

  lemma {:induction false} ConsumeHead(held: seq<Held>, records: seq<Record>, count: nat)
    requires held != [] && AllHold(held) && held[0].left <= count <= Total(held) == |records|
    requires LabelledFaithfully(held[1..], records[held[0].left..], count - held[0].left)
    ensures LabelledFaithfully(held, records, count)
  {
    var n := held[0].left;
    var rest := Consume(held[1..], count - n);
    var (segments, left) := Consume(held, count);
    assert segments == [Segment(held[0].ticket, n, true)] + rest.0 && segments[1..] == rest.0 && left == rest.1;
    WholeSegment(held[0].ticket, n, rest.0, records, count);
    assert records[n..][count - n..] == records[count..];
    Associative(Chunk(held[0].ticket, records[..n]), SegmentTokens(rest.0, records[n..][..count - n]),
                HeldTokens(left, records[count..]));
  }

  lemma {:induction false} WholeSegment(ticket: nat, n: nat, rest: seq<Segment>, records: seq<Record>, count: nat)
    requires n <= count <= |records|
    ensures SegmentTokens([Segment(ticket, n, true)] + rest, records[..count])
         == Chunk(ticket, records[..n]) + SegmentTokens(rest, records[n..][..count - n])
  {
    var segments := [Segment(ticket, n, true)] + rest;
    assert segments[0] == Segment(ticket, n, true) && segments[1..] == rest;
    assert records[..count][..n] == records[..n];
    assert records[..count][n..] == records[n..][..count - n];
  }

  lemma {:induction false} ConsumeNothing(held: seq<Held>, records: seq<Record>)
    requires Total(held) == |records|
    ensures LabelledFaithfully(held, records, 0)
  {
    assert records[0..] == records && records[..0] == [];
  }

  lemma {:induction false} ConsumePart(held: seq<Held>, records: seq<Record>, count: nat)
    requires held != [] && 0 < count < held[0].left && Total(held) == |records|
    ensures LabelledFaithfully(held, records, count)
  {
    ConsumeInside(held, records, count);
    assert Sum([Segment(held[0].ticket, count, false)]) == count;
  }

  lemma {:induction false} ConsumeTokens(held: seq<Held>, records: seq<Record>, count: nat)
    requires AllHold(held) && count <= Total(held) == |records|
    ensures LabelledFaithfully(held, records, count)
    decreases |held|
  {
    if count == 0 {
      ConsumeNothing(held, records);
    } else if count < held[0].left {
      ConsumePart(held, records, count);
    } else {
      ConsumeTokens(held[1..], records[held[0].left..], count - held[0].left);
      ConsumeHead(held, records, count);
    }
  }

  // ---------------------------------------------------------------- submissions

  function InsertTicket(t: nat, tickets: seq<nat>): seq<nat> {
    if tickets == [] || t < tickets[0] then [t] + tickets
    else if t == tickets[0] then tickets
    else [tickets[0]] + InsertTicket(t, tickets[1..])
  }

  /** The tickets a batch refers to, ascending and without repetition. */
  function TicketsOf(segments: seq<Segment>): seq<nat> {
    if segments == [] then [] else InsertTicket(segments[0].ticket, TicketsOf(segments[1..]))
  }

  function NewSubmission(origin: Origin, records: seq<Record>, segments: seq<Segment>): Submission {
    Submission(origin, records, TicketsOf(segments), segments)
  }

  /** The segments partition the records of the batch, and none of them is empty. */
  predicate WellFormed(sub: Submission) {
    && sub.records != []
    && Sum(sub.segments) == |sub.records|
    && (forall i :: 0 <= i < |sub.segments| ==> 0 < sub.segments[i].records)
    && sub.tickets == TicketsOf(sub.segments)
  }

  function TokensOf(sub: Submission): seq<Token> {
    SegmentTokens(sub.segments, sub.records)
  }

  function SubmissionLists(subs: seq<Submission>): (r: seq<seq<Token>>)
    ensures |r| == |subs| && forall i :: 0 <= i < |r| ==> r[i] == TokensOf(subs[i])
  {
    seq(|subs|, i requires 0 <= i < |subs| => TokensOf(subs[i]))
  }

  function SubmissionTokens(subs: seq<Submission>): seq<Token> {
    Flatten(SubmissionLists(subs))
  }

  lemma SubmissionTokensAppend(a: seq<Submission>, b: seq<Submission>)
    ensures SubmissionTokens(a + b) == SubmissionTokens(a) + SubmissionTokens(b)
  {
    assert SubmissionLists(a + b) == SubmissionLists(a) + SubmissionLists(b);
    FlattenAppend(SubmissionLists(a), SubmissionLists(b));
  }

  // ---------------------------------------------------------------- one buffer

  /** Emits the given batches from the front of the ticket queue. */
  function EmitAll(origin: Origin, held: seq<Held>, batches: seq<seq<Record>>): (seq<Submission>, seq<Held>)
    requires AllHold(held) && |Flatten(batches)| <= Total(held)
    decreases |batches|
  {
    if batches == [] then ([], held)
    else
      ConsumeTotals(held, |batches[0]|);
      var (segments, left) := Consume(held, |batches[0]|);
      var rest := EmitAll(origin, left, batches[1..]);
      ([NewSubmission(origin, batches[0], segments)] + rest.0, rest.1)
  }

  predicate AllWellFormed(subs: seq<Submission>, origin: Origin) {
    forall i :: 0 <= i < |subs| ==> WellFormed(subs[i]) && subs[i].origin == origin
  }

  lemma {:induction false} EmitAllTokens(origin: Origin, held: seq<Held>, batches: seq<seq<Record>>, rest: seq<Record>)
    requires AllHold(held) && |Flatten(batches)| + |rest| == Total(held)
    requires forall i :: 0 <= i < |batches| ==> batches[i] != []
    ensures
      var (subs, left) := EmitAll(origin, held, batches);
      && AllHold(left) && Total(left) == |rest|
      && AllWellFormed(subs, origin)
      && SubmissionTokens(subs) + HeldTokens(left, rest) == HeldTokens(held, Flatten(batches) + rest)
    decreases |batches|
  {
    if batches == [] {
      assert Flatten(batches) + rest == rest;
    } else {
      var first, tail := batches[0], Flatten(batches[1..]) + rest;
      assert Flatten(batches) + rest == first + tail;
      EmitFirstTokens(held, first, tail);
      var (segments, left) := Consume(held, |first|);
      EmitAllTokens(origin, left, batches[1..], rest);
      var (subs, after) := EmitAll(origin, left, batches[1..]);
      EmittedTokens(NewSubmission(origin, first, segments), subs, HeldTokens(after, rest));
    }
  }

  lemma {:induction false} EmitFirstTokens(held: seq<Held>, first: seq<Record>, tail: seq<Record>)
    requires AllHold(held) && |first| + |tail| == Total(held) && first != []
    ensures
      var (segments, left) := Consume(held, |first|);
      && AllHold(left) && Total(left) == |tail|
      && (forall i :: 0 <= i < |segments| ==> 0 < segments[i].records) && Sum(segments) == |first|
      && SegmentTokens(segments, first) + HeldTokens(left, tail) == HeldTokens(held, first + tail)
  {
    ConsumeTotals(held, |first|);
    ConsumeTokens(held, first + tail, |first|);
    assert (first + tail)[..|first|] == first && (first + tail)[|first|..] == tail;
  }

  lemma EmittedTokens(sub: Submission, subs: seq<Submission>, rest: seq<Token>)
    ensures SubmissionTokens([sub] + subs) + rest == TokensOf(sub) + (SubmissionTokens(subs) + rest)
  {
    assert SubmissionLists([sub] + subs)[1..] == SubmissionLists(subs);
  }

  const EMPTY_BUFFER := Buffer([], [], None)

  function Enqueued(held: seq<Held>, ticket: nat, count: nat): seq<Held> {
    if count == 0 then held else held + [Held(ticket, count)]
  }

  /** A reading of the clock, which has no instants beyond its horizon. */
  function Instant(cfg: Config, reading: nat): nat {
    if reading <= cfg.horizon then reading else cfg.horizon
  }

  /** The deadline of what stays buffered: untouched while the oldest record stays, otherwise
      armed when the remainder entered. */
  function NextDeadline(cfg: Config, b: Buffer, emitted: nat, rest: seq<Record>, clock: nat -> nat): Option<nat> {
    if rest == [] then None
    else if emitted == 0 && b.records != [] then b.deadline
    else Some(SaturatingDeadline(Instant(cfg, clock(emitted)), cfg.maxAge, cfg.horizon))
  }

  /** This is the deadline the accumulator of the origin keeps: that of its oldest record. */
  lemma {:induction false} DeadlineIsTheAccumulators(
    cfg: Config, b: Buffer, origin: Origin, ticket: nat, records: seq<Record>, clock: nat -> nat, entered: seq<nat>)
    requires 0 < cfg.maxRecords && Aligned(b) && |entered| == |b.records| && forall k :: clock(k) <= cfg.horizon
    requires forall i :: 0 <= i < |entered| ==> entered[i] <= cfg.horizon
    requires b.deadline == DeadlineOf(entered, cfg.maxAge, cfg.horizon)
    ensures
      var after := PushBuffer(cfg, b, origin, ticket, records, clock).1;
      var emitted := |EmitFull(b.records + records, cfg.maxRecords).0|;
      var entered' := EnteredAfter(entered, emitted, |records|, |after.records|, clock);
      && |entered'| == |after.records| && (forall i :: 0 <= i < |entered'| ==> entered'[i] <= cfg.horizon)
      && after.deadline == DeadlineOf(entered', cfg.maxAge, cfg.horizon)
  {
    EmitFullPartitions(b.records + records, cfg.maxRecords);
    var out := EmitFull(b.records + records, cfg.maxRecords);
    assert out.0 == [] ==> out.1 == b.records + records;
  }

  /** A chunk pushed into one buffer; `clock(k)` is read while the k-th group moves in. */
  function PushBuffer(
    cfg: Config, b: Buffer, origin: Origin, ticket: nat, records: seq<Record>, clock: nat -> nat)
    : (seq<Submission>, Buffer)
    requires 0 < cfg.maxRecords && Aligned(b)
  {
    var held := Enqueued(b.held, ticket, |records|);
    HeldAppend(b.held, b.records, ticket, records);
    var (batches, rest) := EmitFull(b.records + records, cfg.maxRecords);
    EmitFullPartitions(b.records + records, cfg.maxRecords);
    var (subs, left) := EmitAll(origin, held, batches);
    (subs, Buffer(left, rest, NextDeadline(cfg, b, |batches|, rest, clock)))
  }

  function BufferTokens(b: Buffer): seq<Token> {
    HeldTokens(b.held, b.records)
  }

  function ChunkOrNothing(ticket: nat, records: seq<Record>): seq<Token> {
    if records == [] then [] else Chunk(ticket, records)
  }

  lemma {:induction false} HeldTotals(held: seq<Held>, ticket: nat, count: nat)
    requires AllHold(held)
    ensures AllHold(Enqueued(held, ticket, count)) && Total(Enqueued(held, ticket, count)) == Total(held) + count
    decreases |held|
  {
    if held != [] {
      HeldTotals(held[1..], ticket, count);
      assert Enqueued(held, ticket, count)[1..] == Enqueued(held[1..], ticket, count);
    }
  }

  lemma {:induction false} HeldStreamAlone(ticket: nat, records: seq<Record>)
    requires records != []
    ensures HeldTokens([Held(ticket, |records|)], records) == Chunk(ticket, records)
  {
    var all := [Held(ticket, |records|)];
    assert records[..|records|] == records && all[1..] == [];
  }

  lemma {:induction false} HeldStream(held: seq<Held>, old_: seq<Record>, ticket: nat, records: seq<Record>)
    requires AllHold(held) && Total(held) == |old_| && records != []
    ensures HeldTokens(held + [Held(ticket, |records|)], old_ + records) == HeldTokens(held, old_) + Chunk(ticket, records)
    decreases |held|
  {
    var last := [Held(ticket, |records|)];
    if held == [] {
      assert old_ + records == records && held + last == last;
      HeldStreamAlone(ticket, records);
    } else {
      var n := held[0].left;
      HeldStream(held[1..], old_[n..], ticket, records);
      HeldHead(held, last, old_, records);
      Associative(Chunk(held[0].ticket, old_[..n]), HeldTokens(held[1..], old_[n..]), Chunk(ticket, records));
    }
  }

  lemma {:induction false} HeldHead(held: seq<Held>, last: seq<Held>, old_: seq<Record>, records: seq<Record>)
    requires held != [] && held[0].left <= |old_|
    ensures
      var n := held[0].left;
      HeldTokens(held + last, old_ + records) ==
        Chunk(held[0].ticket, old_[..n]) + HeldTokens(held[1..] + last, old_[n..] + records)
  {
    var n := held[0].left;
    assert (held + last)[1..] == held[1..] + last;
    assert (old_ + records)[..n] == old_[..n] && (old_ + records)[n..] == old_[n..] + records;
  }

  lemma {:induction false} HeldAppend(held: seq<Held>, old_: seq<Record>, ticket: nat, records: seq<Record>)
    requires AllHold(held) && Total(held) == |old_|
    ensures
      var all := Enqueued(held, ticket, |records|);
      && AllHold(all) && Total(all) == |old_ + records|
      && HeldTokens(all, old_ + records) == HeldTokens(held, old_) + ChunkOrNothing(ticket, records)
  {
    HeldTotals(held, ticket, |records|);
    if records == [] {
      assert old_ + records == old_;
    } else {
      HeldStream(held, old_, ticket, records);
    }
  }

  /** Pushing a chunk keeps the stream: what is emitted followed by what stays buffered is what
      was buffered followed by the chunk. */
  lemma PushTokens(
    cfg: Config, b: Buffer, origin: Origin, ticket: nat, records: seq<Record>, clock: nat -> nat)
    requires 0 < cfg.maxRecords && Aligned(b)
    ensures
      var (subs, after) := PushBuffer(cfg, b, origin, ticket, records, clock);
      && Aligned(after) && |after.records| < cfg.maxRecords && AllWellFormed(subs, origin)
      && SubmissionTokens(subs) + BufferTokens(after) == BufferTokens(b) + ChunkOrNothing(ticket, records)
  {
    HeldAppend(b.held, b.records, ticket, records);
    var (batches, rest) := EmitFull(b.records + records, cfg.maxRecords);
    EmitFullPartitions(b.records + records, cfg.maxRecords);
    EmitAllTokens(origin, Enqueued(b.held, ticket, |records|), batches, rest);
  }

  // ---------------------------------------------------------------- all buffers

  predicate IsEmpty(b: Buffer) {
    b.records == [] && b.held == []
  }

  /** One buffer per active origin, each aligned and holding something. */
  ghost predicate ValidEntries(entries: seq<Entry>) {
    && (forall i :: 0 <= i < |entries| ==> Aligned(entries[i].buffer) && entries[i].buffer.records != [])
    && (forall i, j :: 0 <= i < j < |entries| ==> entries[i].origin != entries[j].origin)
  }

  function IndexOf(entries: seq<Entry>, origin: Origin): (i: nat)
    ensures i <= |entries|
    ensures i < |entries| ==> entries[i].origin == origin
    ensures forall j :: 0 <= j < i ==> entries[j].origin != origin
  {
    if entries == [] || entries[0].origin == origin then 0 else 1 + IndexOf(entries[1..], origin)
  }

  function BufferAt(entries: seq<Entry>, i: nat): Buffer {
    if i < |entries| then entries[i].buffer else EMPTY_BUFFER
  }

  /** The entries before position `i`, the given buffer unless drained, the entries after. */
  function Replace(entries: seq<Entry>, i: nat, origin: Origin, b: Buffer): seq<Entry>
    requires i <= |entries|
  {
    entries[..i] + (if IsEmpty(b) then [] else [Entry(origin, b)]) + (if i < |entries| then entries[i + 1..] else [])
  }

  function PushEntries(
    cfg: Config, entries: seq<Entry>, origin: Origin, ticket: nat, records: seq<Record>, clock: nat -> nat)
    : (seq<Submission>, seq<Entry>)
    requires 0 < cfg.maxRecords
    requires forall i :: 0 <= i < |entries| ==> Aligned(entries[i].buffer)
  {
    var i := IndexOf(entries, origin);
    var (subs, b) := PushBuffer(cfg, BufferAt(entries, i), origin, ticket, records, clock);
    (subs, Replace(entries, i, origin, b))
  }

  function EntryLists(entries: seq<Entry>): (r: seq<seq<Token>>)
    ensures |r| == |entries| && forall i :: 0 <= i < |r| ==> r[i] == BufferTokens(entries[i].buffer)
  {
    seq(|entries|, i requires 0 <= i < |entries| => BufferTokens(entries[i].buffer))
  }

  function EntryTokens(entries: seq<Entry>): seq<Token> {
    Flatten(EntryLists(entries))
  }

  lemma EntryTokensAppend(a: seq<Entry>, b: seq<Entry>)
    ensures EntryTokens(a + b) == EntryTokens(a) + EntryTokens(b)
  {
    assert EntryLists(a + b) == EntryLists(a) + EntryLists(b);
    FlattenAppend(EntryLists(a), EntryLists(b));
  }

  lemma EntryTokensCons(e: Entry, rest: seq<Entry>)
    ensures EntryTokens([e] + rest) == BufferTokens(e.buffer) + EntryTokens(rest)
  {
    assert EntryLists([e] + rest)[1..] == EntryLists(rest);
  }

  lemma {:induction false} HeldEndsItself(held: seq<Held>, records: seq<Record>, t: nat)
    ensures Proj(HeldTokens(held, records), t) != [] ==> 0 < Ends(HeldTokens(held, records), t)
    decreases |held|
  {
    if held != [] && held[0].left <= |records| {
      var n := held[0].left;
      var rest := HeldTokens(held[1..], records[n..]);
      HeldEndsItself(held[1..], records[n..], t);
      ProjAppend(Chunk(held[0].ticket, records[..n]), rest, t);
      EndsAppend(Chunk(held[0].ticket, records[..n]), rest, t);
      ProjChunk(held[0].ticket, records[..n], t);
      EndsChunk(held[0].ticket, records[..n], t);
    }
  }

  lemma {:induction false} EntriesEndThemselves(entries: seq<Entry>, t: nat)
    ensures Proj(EntryTokens(entries), t) != [] ==> 0 < Ends(EntryTokens(entries), t)
  {
    if entries != [] {
      var b := entries[0].buffer;
      HeldEndsItself(b.held, b.records, t);
      EntriesEndThemselves(entries[1..], t);
      EntryTokensCons(entries[0], entries[1..]);
      assert [entries[0]] + entries[1..] == entries;
      ProjAppend(BufferTokens(b), EntryTokens(entries[1..]), t);
      EndsAppend(BufferTokens(b), EntryTokens(entries[1..]), t);
    }
  }

  function After(entries: seq<Entry>, i: nat): seq<Entry> {
    if i < |entries| then entries[i + 1..] else []
  }

  lemma SplitTokens(entries: seq<Entry>, i: nat)
    requires i <= |entries|
    ensures EntryTokens(entries)
         == EntryTokens(entries[..i]) + (BufferTokens(BufferAt(entries, i)) + EntryTokens(After(entries, i)))
  {
    if i < |entries| {
      var e, post := entries[i], entries[i + 1..];
      EntryTokensCons(e, post);
      EntryTokensAppend(entries[..i], [e] + post);
      assert entries == entries[..i] + ([e] + post);
    } else {
      assert entries[..i] == entries && EntryLists([]) == [];
    }
  }

  lemma ReplaceTokens(entries: seq<Entry>, i: nat, origin: Origin, b: Buffer)
    requires i <= |entries|
    ensures EntryTokens(Replace(entries, i, origin, b))
         == EntryTokens(entries[..i]) + (BufferTokens(b) + EntryTokens(After(entries, i)))
  {
    var post := After(entries, i);
    if IsEmpty(b) {
      EntryTokensAppend(entries[..i], post);
      assert Replace(entries, i, origin, b) == entries[..i] + post;
    } else {
      EntryTokensAppend(entries[..i], [Entry(origin, b)] + post);
      EntryTokensCons(Entry(origin, b), post);
      assert Replace(entries, i, origin, b) == entries[..i] + ([Entry(origin, b)] + post);
    }
  }

  /** Sequence algebra of a push seen from one ticket: at most one of the four parts is not
      empty, so the emitted tokens may overtake the buffers in front. */
  lemma Overtake(pre: seq<Token>, b: seq<Token>, post: seq<Token>, c: seq<Token>, out: seq<Token>, b': seq<Token>)
    requires out + b' == b + c
    requires pre != [] || post != [] ==> b + c == []
    requires pre != [] ==> post == []
    ensures out + (pre + (b' + post)) == (pre + (b + post)) + c
  {
    if pre != [] || post != [] {
      assert |b| + |c| == |b + c| == 0 && |out| + |b'| == |out + b'| == 0;
    } else {
      assert pre + (b' + post) == b' && pre + (b + post) == b;
    }
  }

  /** A push moves the chunk behind everything of its own ticket and nothing else: per ticket,
      what is emitted followed by what stays buffered is what was buffered followed by the chunk. */
  lemma {:induction false} PushKeepsEachTicket(
    cfg: Config, entries: seq<Entry>, origin: Origin, ticket: nat, records: seq<Record>, clock: nat -> nat, t: nat)
    requires 0 < cfg.maxRecords && ValidEntries(entries)
    requires Ends(EntryTokens(entries) + ChunkOrNothing(ticket, records), t) <= 1
    ensures
      var (subs, after) := PushEntries(cfg, entries, origin, ticket, records, clock);
      Proj(SubmissionTokens(subs) + EntryTokens(after), t) == Proj(EntryTokens(entries) + ChunkOrNothing(ticket, records), t)
  {
    var i := IndexOf(entries, origin);
    var b := BufferAt(entries, i);
    var pre, post, chunk := EntryTokens(entries[..i]), EntryTokens(After(entries, i)), ChunkOrNothing(ticket, records);
    var (subs, b') := PushBuffer(cfg, b, origin, ticket, records, clock);
    PushTokens(cfg, b, origin, ticket, records, clock);
    SplitTokens(entries, i);
    ReplaceTokens(entries, i, origin, b');
    ProjParts(pre, BufferTokens(b), post, chunk, t);
    ProjOut(SubmissionTokens(subs), pre, BufferTokens(b'), post, t);
    ProjAppend(SubmissionTokens(subs), BufferTokens(b'), t);
    ProjAppend(BufferTokens(b), chunk, t);
    EntriesEndThemselves(entries[..i], t);
    EntriesEndThemselves(After(entries, i), t);
    HeldEndsItself(b.held, b.records, t);
    ProjChunk(ticket, records, t);
    EndsChunk(ticket, records, t);
    Overtake(Proj(pre, t), Proj(BufferTokens(b), t), Proj(post, t), Proj(chunk, t),
             Proj(SubmissionTokens(subs), t), Proj(BufferTokens(b'), t));
  }

  lemma {:induction false} ProjParts(pre: seq<Token>, b: seq<Token>, post: seq<Token>, c: seq<Token>, t: nat)
    ensures Proj(pre + (b + post) + c, t) == Proj(pre, t) + (Proj(b, t) + Proj(post, t)) + Proj(c, t)
    ensures Ends(pre + (b + post) + c, t) == Ends(pre, t) + Ends(b, t) + Ends(post, t) + Ends(c, t)
  {
    ProjAppend(pre + (b + post), c, t);
    ProjAppend(pre, b + post, t);
    ProjAppend(b, post, t);
    EndsAppend(pre + (b + post), c, t);
    EndsAppend(pre, b + post, t);
    EndsAppend(b, post, t);
  }

  lemma {:induction false} ProjOut(out: seq<Token>, pre: seq<Token>, b: seq<Token>, post: seq<Token>, t: nat)
    ensures Proj(out + (pre + (b + post)), t) == Proj(out, t) + (Proj(pre, t) + (Proj(b, t) + Proj(post, t)))
  {
    ProjAppend(out, pre + (b + post), t);
    ProjAppend(pre, b + post, t);
    ProjAppend(b, post, t);
  }

  lemma PushKeepsValid(
    cfg: Config, entries: seq<Entry>, origin: Origin, ticket: nat, records: seq<Record>, clock: nat -> nat)
    requires 0 < cfg.maxRecords && ValidEntries(entries)
    ensures
      var (subs, after) := PushEntries(cfg, entries, origin, ticket, records, clock);
      ValidEntries(after) && AllWellFormed(subs, origin)
  {
    var i := IndexOf(entries, origin);
    var (subs, b) := PushBuffer(cfg, BufferAt(entries, i), origin, ticket, records, clock);
    PushTokens(cfg, BufferAt(entries, i), origin, ticket, records, clock);
    assert IsEmpty(b) <==> b.records == [];
    ReplaceKeepsValid(entries, i, origin, b);
  }

  lemma ReplaceKeepsValid(entries: seq<Entry>, i: nat, origin: Origin, b: Buffer)
    requires ValidEntries(entries) && Aligned(b) && (IsEmpty(b) || b.records != [])
    requires i <= |entries| && (i < |entries| ==> entries[i].origin == origin)
    requires i == |entries| ==> forall j :: 0 <= j < i ==> entries[j].origin != origin
    ensures ValidEntries(Replace(entries, i, origin, b))
  {
  }

  // ---------------------------------------------------------------- flushing

  /** `None` forces every buffer out; `Some(now)` only those past their deadline. */
  predicate Leaves(b: Buffer, when: Option<nat>) {
    b.records != [] && (when.None? || (b.deadline.Some? && b.deadline.value <= when.value))
  }

  function FlushBuffer(e: Entry): Submission
    requires Aligned(e.buffer)
  {
    NewSubmission(e.origin, e.buffer.records, Consume(e.buffer.held, |e.buffer.records|).0)
  }

  function FlushEntries(entries: seq<Entry>, when: Option<nat>): (seq<Submission>, seq<Entry>)
    requires forall i :: 0 <= i < |entries| ==> Aligned(entries[i].buffer)
  {
    if entries == [] then ([], [])
    else
      var (subs, kept) := FlushEntries(entries[1..], when);
      if Leaves(entries[0].buffer, when) then ([FlushBuffer(entries[0])] + subs, kept)
      else (subs, (if IsEmpty(entries[0].buffer) then [] else [entries[0]]) + kept)
  }

  lemma FlushBufferTokens(e: Entry)
    requires Aligned(e.buffer) && e.buffer.records != []
    ensures WellFormed(FlushBuffer(e))
    ensures TokensOf(FlushBuffer(e)) == BufferTokens(e.buffer)
  {
    var b := e.buffer;
    assert b.records + [] == b.records;
    EmitFirstTokens(b.held, b.records, []);
    var (segments, left) := Consume(b.held, |b.records|);
    assert left == [];
  }

  /** Flushing some buffers overtakes others, but never within a ticket. */
  lemma {:induction false} FlushKeepsEachTicket(entries: seq<Entry>, when: Option<nat>, t: nat)
    requires ValidEntries(entries) && Ends(EntryTokens(entries), t) <= 1
    ensures
      var (subs, kept) := FlushEntries(entries, when);
      Proj(SubmissionTokens(subs) + EntryTokens(kept), t) == Proj(EntryTokens(entries), t)
  {
    if entries != [] {
      var e, rest := entries[0], entries[1..];
      var (subs, kept) := FlushEntries(rest, when);
      EntryTokensCons(e, rest);
      assert entries == [e] + rest;
      EndsAppend(BufferTokens(e.buffer), EntryTokens(rest), t);
      FlushKeepsEachTicket(rest, when, t);
      ProjAppend(BufferTokens(e.buffer), EntryTokens(rest), t);
      if Leaves(e.buffer, when) {
        FlushBufferTokens(e);
        EmittedTokens(FlushBuffer(e), subs, EntryTokens(kept));
        ProjAppend(BufferTokens(e.buffer), SubmissionTokens(subs) + EntryTokens(kept), t);
      } else {
        EntryTokensCons(e, kept);
        HeldEndsItself(e.buffer.held, e.buffer.records, t);
        EntriesEndThemselves(rest, t);
        StaysBehind(SubmissionTokens(subs), BufferTokens(e.buffer), EntryTokens(kept), t);
      }
    }
  }

  lemma {:induction false} StaysBehind(out: seq<Token>, b: seq<Token>, kept: seq<Token>, t: nat)
    requires Proj(b, t) == [] || Proj(out + kept, t) == []
    ensures Proj(out + (b + kept), t) == Proj(b, t) + Proj(out + kept, t)
  {
    ProjAppend(out, b + kept, t);
    ProjAppend(b, kept, t);
    ProjAppend(out, kept, t);
    if Proj(b, t) != [] {
      assert |Proj(out, t)| + |Proj(kept, t)| == |Proj(out + kept, t)| == 0;
    }
  }

  lemma {:induction false} FlushKeepsValid(entries: seq<Entry>, when: Option<nat>)
    requires ValidEntries(entries)
    ensures
      var (subs, kept) := FlushEntries(entries, when);
      && ValidEntries(kept)
      && (forall i :: 0 <= i < |kept| ==> kept[i] in entries)
      && (forall i :: 0 <= i < |subs| ==> WellFormed(subs[i]))
      && (when.None? ==> kept == [])
  {
    if entries != [] {
      FlushKeepsValid(entries[1..], when);
      if Leaves(entries[0].buffer, when) {
        FlushBufferTokens(entries[0]);
      }
    }
  }

  /** On a timer exactly the buffers whose deadline has come leave; the others stay as they are. */
  lemma {:induction false} FlushByDeadline(entries: seq<Entry>, now: nat, e: Entry)
    requires ValidEntries(entries) && e in entries
    ensures e in FlushEntries(entries, Some(now)).1 <==> e.buffer.deadline.None? || now < e.buffer.deadline.value
  {
    var rest := entries[1..];
    FlushKeepsValid(rest, Some(now));
    assert forall i :: 0 <= i < |rest| ==> rest[i].origin != entries[0].origin;
    if e in rest {
      FlushByDeadline(rest, now, e);
    } else {
      assert e == entries[0];
    }
  }

  predicate DeadlineAt(entries: seq<Entry>, i: nat, instant: nat) {
    i < |entries| && entries[i].buffer.deadline == Some(instant)
  }

  /** `d` is the smallest deadline of the buffers, if any has one. */
  ghost predicate Earliest(entries: seq<Entry>, d: Option<nat>) {
    && (d.Some? ==> exists i: nat :: DeadlineAt(entries, i, d.value))
    && (forall i: nat, instant: nat :: DeadlineAt(entries, i, instant) ==> d.Some? && d.value <= instant)
  }

  lemma EarliestSnoc(entries: seq<Entry>, k: nat, before: Option<nat>, d: Option<nat>)
    requires k < |entries| && Earliest(entries[..k], before)
    requires
      var next := entries[k].buffer.deadline;
      d == if next.Some? && (before.None? || next.value < before.value) then next else before
    ensures Earliest(entries[..k + 1], d)
  {
    var first, longer := entries[..k], entries[..k + 1];
    if d.Some? {
      if d == before {
        var i: nat :| DeadlineAt(first, i, d.value);
        assert DeadlineAt(longer, i, d.value);
      } else {
        assert DeadlineAt(longer, k, d.value);
      }
    }
    forall i: nat, instant: nat | DeadlineAt(longer, i, instant) ensures d.Some? && d.value <= instant {
      assert i < k ==> DeadlineAt(first, i, instant);
    }
  }

  lemma {:induction false} SomethingLeaves(entries: seq<Entry>, now: nat)
    requires ValidEntries(entries)
    ensures FlushEntries(entries, Some(now)).0 != [] <==> exists i :: 0 <= i < |entries| && Leaves(entries[i].buffer, Some(now))
  {
    if entries != [] {
      var rest := entries[1..];
      SomethingLeaves(rest, now);
      if i :| 0 <= i < |entries| && Leaves(entries[i].buffer, Some(now)) {
        assert i == 0 || rest[i - 1] == entries[i];
      }
      if i :| 0 <= i < |rest| && Leaves(rest[i].buffer, Some(now)) {
        assert rest[i] == entries[i + 1];
      }
    }
  }

  /** The earliest deadline is the first instant at which a timer has something to send: the thread neither wakes
      in vain nor sleeps on. */
  lemma WakesInTime(entries: seq<Entry>, d: Option<nat>, now: nat)
    requires ValidEntries(entries) && Earliest(entries, d)
    ensures FlushEntries(entries, Some(now)).0 != [] <==> d.Some? && d.value <= now
  {
    SomethingLeaves(entries, now);
    if i :| 0 <= i < |entries| && Leaves(entries[i].buffer, Some(now)) {
      assert DeadlineAt(entries, i, entries[i].buffer.deadline.value);
    }
    if d.Some? && d.value <= now {
      var i: nat :| DeadlineAt(entries, i, d.value);
      assert Leaves(entries[i].buffer, Some(now));
    }
  }

  // ---------------------------------------------------------------- the objects

  /** `OriginBuffer::consume`: labels the first `count` records of the buffer. */
  method ConsumeSegments(held: seq<Held>, count: nat) returns (segments: seq<Segment>, left: seq<Held>)
    requires AllHold(held) && count <= Total(held)
    ensures (segments, left) == Consume(held, count)
    ensures Sum(segments) == count && Total(left) == Total(held) - count && AllHold(left)
  {
    ConsumeTotals(held, count);
    ghost var goal := Consume(held, count);
    segments, left := [], held;
    var want := count;
    while 0 < want
      invariant 0 <= want <= Total(left) && AllHold(left)
      invariant goal.0 == segments + Consume(left, want).0
      invariant goal.1 == Consume(left, want).1
      decreases want
    {
      var front := left[0];
      var take := if front.left < want then front.left else want;
      segments := segments + [Segment(front.ticket, take, take == front.left)];
      if take == front.left {
        left := left[1..];
      } else {
        left := [Held(front.ticket, front.left - take)] + left[1..];
      }
      want := want - take;
    }
    assert goal.0 == segments && goal.1 == left;
  }

  class OriginBuffers {
    const cfg: Config
    var buffers: seq<Entry>

    ghost predicate Valid()
      reads this
    {
      0 < cfg.maxRecords && ValidEntries(buffers)
    }

    constructor (cfg: Config)
      requires 0 < cfg.maxRecords
      ensures Valid() && buffers == [] && this.cfg == cfg
    {
      this.cfg := cfg;
      buffers := [];
    }

    method Position(origin: Origin) returns (i: nat)
      ensures i == IndexOf(buffers, origin)
    {
      i := 0;
      while i < |buffers| && buffers[i].origin != origin
        invariant i <= |buffers|
        invariant IndexOf(buffers, origin) == i + IndexOf(buffers[i..], origin)
      {
        i := i + 1;
      }
    }

    /** The instant the batcher sleeps until at most. */
    method Deadline() returns (d: Option<nat>)
      requires Valid()
      ensures Earliest(buffers, d)
    {
      d := None;
      for i := 0 to |buffers|
        invariant Earliest(buffers[..i], d)
      {
        var next := buffers[i].buffer.deadline;
        ghost var before := d;
        if next.Some? && (d.None? || next.value < d.value) {
          d := next;
        }
        EarliestSnoc(buffers, i, before, d);
      }
      assert buffers[..|buffers|] == buffers;
    }

    /** Emits the given full batches of one buffer, labelling each in turn. */
    method Submit(origin: Origin, held: seq<Held>, batches: seq<seq<Record>>)
      returns (emitted: seq<Submission>, left: seq<Held>)
      requires AllHold(held) && |Flatten(batches)| <= Total(held)
      ensures (emitted, left) == EmitAll(origin, held, batches)
    {
      ghost var goal := EmitAll(origin, held, batches);
      emitted, left := [], held;
      var k := 0;
      assert batches[0..] == batches;
      while k < |batches|
        invariant k <= |batches|
        invariant AllHold(left) && |Flatten(batches[k..])| <= Total(left)
        invariant goal.0 == emitted + EmitAll(origin, left, batches[k..]).0
        invariant goal.1 == EmitAll(origin, left, batches[k..]).1
      {
        assert batches[k..][1..] == batches[k + 1..];
        var segments, rest := ConsumeSegments(left, |batches[k]|);
        emitted, left := emitted + [NewSubmission(origin, batches[k], segments)], rest;
        k := k + 1;
      }
      assert goal.0 == emitted && goal.1 == left;
    }

    method Push(origin: Origin, records: seq<Record>, ticket: nat, clock: nat -> nat)
      returns (emitted: seq<Submission>)
      requires Valid()
      modifies this
      ensures Valid()
      ensures (emitted, buffers) == PushEntries(cfg, old(buffers), origin, ticket, records, clock)
    {
      PushKeepsValid(cfg, buffers, origin, ticket, records, clock);
      var i := Position(origin);
      var b := if i < |buffers| then buffers[i].buffer else EMPTY_BUFFER;
      HeldAppend(b.held, b.records, ticket, records);
      EmitFullPartitions(b.records + records, cfg.maxRecords);
      var held := if records == [] then b.held else b.held + [Held(ticket, |records|)];
      var (batches, rest) := EmitFull(b.records + records, cfg.maxRecords);
      var left;
      emitted, left := Submit(origin, held, batches);
      var after := Buffer(left, rest, NextDeadline(cfg, b, |batches|, rest, clock));
      buffers := Replace(buffers, i, origin, after);
    }

    method FlushWith(when: Option<nat>) returns (emitted: seq<Submission>)
      requires Valid()
      modifies this
      ensures Valid()
      ensures (emitted, buffers) == FlushEntries(old(buffers), when)
      ensures when.Some? ==> forall e :: e in old(buffers) ==>
                (e in buffers <==> e.buffer.deadline.None? || when.value < e.buffer.deadline.value)
    {
      FlushKeepsValid(buffers, when);
      if when.Some? {
        forall e | e in buffers
          ensures e in FlushEntries(buffers, when).1 <==> e.buffer.deadline.None? || when.value < e.buffer.deadline.value
        {
          FlushByDeadline(buffers, when.value, e);
        }
      }
      var kept;
      emitted, kept := FlushList(buffers, when);
      buffers := kept;
    }
  }

  lemma {:induction false} FlushFirst(entries: seq<Entry>, k: nat, when: Option<nat>)
    requires k < |entries| && forall i :: 0 <= i < |entries| ==> Aligned(entries[i].buffer)
    ensures
      var e, here, rest := entries[k], FlushEntries(entries[k..], when), FlushEntries(entries[k + 1..], when);
      && here.0 == (if Leaves(e.buffer, when) then [FlushBuffer(e)] else []) + rest.0
      && here.1 == (if Leaves(e.buffer, when) || IsEmpty(e.buffer) then [] else [e]) + rest.1
  {
    assert entries[k..][1..] == entries[k + 1..];
  }

  /** The loop over the buffers: some leave, the empty ones are dropped, the others stay in order. */
  method FlushList(all: seq<Entry>, when: Option<nat>) returns (emitted: seq<Submission>, kept: seq<Entry>)
    requires forall i :: 0 <= i < |all| ==> Aligned(all[i].buffer)
    ensures (emitted, kept) == FlushEntries(all, when)
  {
    ghost var goal := FlushEntries(all, when);
    emitted, kept := [], [];
    assert all[0..] == all;
    for k := 0 to |all|
      invariant goal.0 == emitted + FlushEntries(all[k..], when).0
      invariant goal.1 == kept + FlushEntries(all[k..], when).1
    {
      var e := all[k];
      FlushFirst(all, k, when);
      var out, stay := [], [];
      if Leaves(e.buffer, when) {
        var segments, _ := ConsumeSegments(e.buffer.held, |e.buffer.records|);
        out := [NewSubmission(e.origin, e.buffer.records, segments)];
      } else if !IsEmpty(e.buffer) {
        stay := [e];
      }
      Associative(emitted, out, FlushEntries(all[k + 1..], when).0);
      Associative(kept, stay, FlushEntries(all[k + 1..], when).1);
      emitted, kept := emitted + out, kept + stay;
    }
    assert goal.0 == emitted && goal.1 == kept;
  }
}
