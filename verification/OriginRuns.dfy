/** Label fidelity over whole runs: however chunks are split and merged, every record leaves in a batch
of its own origin, under the ticket of its own chunk, in the order pushed to that origin, and a
ticket's end mark leaves with its last record. */
module OriginRuns {
  import opened Stream
  import opened InsertBatching
  import opened OriginBatching

  datatype Step =
    | Pushes(origin: Origin, ticket: nat, records: seq<Record>, clock: nat -> nat)
    | Flushes(when: Option<nat>)

  /** The chunks a run pushes, each followed by its end mark. */
  function Offered(steps: seq<Step>): seq<Token> {
    if steps == [] then []
    else (if steps[0].Pushes? then ChunkOrNothing(steps[0].ticket, steps[0].records) else []) + Offered(steps[1..])
  }

  lemma {:induction false} OfferedHead(steps: seq<Step>)
    requires steps != []
    ensures Offered(steps) == Offered([steps[0]]) + Offered(steps[1..])
  {
    assert [steps[0]][1..] == [];
  }

  ghost function OneStep(cfg: Config, entries: seq<Entry>, step: Step): (seq<Submission>, seq<Entry>)
    requires 0 < cfg.maxRecords && ValidEntries(entries)
  {
    match step
    case Pushes(origin, ticket, records, clock) => PushEntries(cfg, entries, origin, ticket, records, clock)
    case Flushes(when) => FlushEntries(entries, when)
  }

  lemma StepKeepsValid(cfg: Config, entries: seq<Entry>, step: Step)
    requires 0 < cfg.maxRecords && ValidEntries(entries)
    ensures ValidEntries(OneStep(cfg, entries, step).1)
  {
    match step {
      case Pushes(origin, ticket, records, clock) => PushKeepsValid(cfg, entries, origin, ticket, records, clock);
      case Flushes(when) => FlushKeepsValid(entries, when);
    }
  }

  /** What a run emits, and what it leaves buffered. */
  ghost function Emits(cfg: Config, entries: seq<Entry>, steps: seq<Step>): (seq<Submission>, seq<Entry>)
    requires 0 < cfg.maxRecords && ValidEntries(entries)
    decreases |steps|
  {
    if steps == [] then ([], entries)
    else
      var (subs, after) := OneStep(cfg, entries, steps[0]);
      StepKeepsValid(cfg, entries, steps[0]);
      var (more, last) := Emits(cfg, after, steps[1..]);
      (subs + more, last)
  }

  lemma {:induction false} OneStepKeepsEachTicket(cfg: Config, entries: seq<Entry>, step: Step, t: nat)
    requires 0 < cfg.maxRecords && ValidEntries(entries)
    requires Ends(EntryTokens(entries) + Offered([step]), t) <= 1
    ensures
      var (subs, after) := OneStep(cfg, entries, step);
      Proj(SubmissionTokens(subs) + EntryTokens(after), t) == Proj(EntryTokens(entries) + Offered([step]), t)
  {
    match step {
      case Pushes(origin, ticket, records, clock) =>
        assert Offered([step]) == ChunkOrNothing(ticket, records);
        PushKeepsEachTicket(cfg, entries, origin, ticket, records, clock, t);
      case Flushes(when) =>
        assert EntryTokens(entries) + Offered([step]) == EntryTokens(entries);
        FlushKeepsEachTicket(entries, when, t);
    }
  }

  /** Two stages of a stream, glued in the middle. */
  lemma {:induction false} Glue(e: seq<Token>, a: seq<Token>, rest: seq<Token>, out: seq<Token>, mid: seq<Token>, more: seq<Token>, last: seq<Token>, t: nat)
    requires Proj(out + mid, t) == Proj(e + a, t)
    requires Proj(more + last, t) == Proj(mid + rest, t)
    ensures Proj((out + more) + last, t) == Proj(e + (a + rest), t)
  {
    Associative(out, more, last);
    Associative(e, a, rest);
    ProjAppend(out, more + last, t);
    ProjAppend(mid, rest, t);
    ProjAppend(out, mid, t);
    ProjAppend(e + a, rest, t);
    Associative(Proj(out, t), Proj(mid, t), Proj(rest, t));
  }

  lemma {:induction false} EndsGlue(e: seq<Token>, a: seq<Token>, rest: seq<Token>, out: seq<Token>, mid: seq<Token>, t: nat)
    requires Proj(out + mid, t) == Proj(e + a, t) && Ends(e + (a + rest), t) <= 1
    ensures Ends(mid + rest, t) <= 1
  {
    EndsProj(out + mid, t);
    EndsProj(e + a, t);
    EndsAppend(out, mid, t);
    EndsAppend(mid, rest, t);
    assert e + (a + rest) == (e + a) + rest;
    EndsAppend(e + a, rest, t);
  }

  lemma {:induction false} EndsOfPart(e: seq<Token>, a: seq<Token>, rest: seq<Token>, t: nat)
    requires Ends(e + (a + rest), t) <= 1
    ensures Ends(e + a, t) <= 1
  {
    assert e + (a + rest) == (e + a) + rest;
    EndsAppend(e + a, rest, t);
  }

  // ---------------------------------------------------------------- per origin

  /** The tokens of the batches of origin `o`, in the order they leave. */
  function Under(subs: seq<Submission>, o: Origin): seq<Token> {
    if subs == [] then [] else (if subs[0].origin == o then TokensOf(subs[0]) else []) + Under(subs[1..], o)
  }

  /** The buffer of origin `o`, an empty one if it has none. */
  function BufferFor(entries: seq<Entry>, o: Origin): Buffer {
    BufferAt(entries, IndexOf(entries, o))
  }

  function BufferOf(entries: seq<Entry>, o: Origin): seq<Token> {
    BufferTokens(BufferFor(entries, o))
  }

  /** The chunks a run pushes to origin `o`, each followed by its end mark. */
  function OfferedTo(steps: seq<Step>, o: Origin): seq<Token> {
    if steps == [] then [] else PushedTo(steps[0], o) + OfferedTo(steps[1..], o)
  }

  function PushedTo(step: Step, o: Origin): seq<Token> {
    if step.Pushes? && step.origin == o then ChunkOrNothing(step.ticket, step.records) else []
  }

  lemma {:induction false} UnderAppend(a: seq<Submission>, b: seq<Submission>, o: Origin)
    ensures Under(a + b, o) == Under(a, o) + Under(b, o)
  {
    if a == [] {
      assert a + b == b;
    } else {
      UnderAppend(a[1..], b, o);
      assert (a + b)[0] == a[0] && (a + b)[1..] == a[1..] + b;
      Associative(if a[0].origin == o then TokensOf(a[0]) else [], Under(a[1..], o), Under(b, o));
    }
  }

  lemma {:induction false} UnderOwn(subs: seq<Submission>, origin: Origin, o: Origin)
    requires forall i :: 0 <= i < |subs| ==> subs[i].origin == origin
    ensures Under(subs, o) == if o == origin then SubmissionTokens(subs) else []
  {
    if subs == [] {
      assert SubmissionLists(subs) == [];
    } else {
      UnderOwn(subs[1..], origin, o);
      assert SubmissionLists(subs)[1..] == SubmissionLists(subs[1..]);
    }
  }

  predicate Absent(entries: seq<Entry>, o: Origin) {
    forall i :: 0 <= i < |entries| ==> entries[i].origin != o
  }

  /** The buffer of an origin is the one that carries its name. */
  lemma BufferIs(entries: seq<Entry>, i: nat, o: Origin)
    requires ValidEntries(entries) && i < |entries| && entries[i].origin == o
    ensures BufferFor(entries, o) == entries[i].buffer
  {
  }

  lemma BufferAbsent(entries: seq<Entry>, o: Origin)
    requires Absent(entries, o)
    ensures BufferFor(entries, o) == EMPTY_BUFFER && BufferOf(entries, o) == []
  {
  }

  /** Where the entries of the other origins are after a replacement. */
  lemma OthersKeepTheirs(entries: seq<Entry>, i: nat, origin: Origin, b: Buffer, j: nat)
    requires i <= |entries| && j < |entries| && j != i
    ensures
      var after, k := Replace(entries, i, origin, b), if j < i || !IsEmpty(b) then j else j - 1;
      k < |after| && after[k] == entries[j]
  {
  }

  lemma {:induction false} OwnGone(entries: seq<Entry>, origin: Origin)
    requires ValidEntries(entries)
    ensures
      var i := IndexOf(entries, origin);
      Absent(entries[..i] + After(entries, i), origin)
  {
  }

  lemma {:induction false} OwnReplaced(entries: seq<Entry>, origin: Origin, b: Buffer)
    requires ValidEntries(entries) && ValidEntries(Replace(entries, IndexOf(entries, origin), origin, b))
    ensures BufferFor(Replace(entries, IndexOf(entries, origin), origin, b), origin) == if IsEmpty(b) then EMPTY_BUFFER else b
  {
    var i := IndexOf(entries, origin);
    var after := Replace(entries, i, origin, b);
    if IsEmpty(b) {
      OwnGone(entries, origin);
      assert after == entries[..i] + After(entries, i);
      BufferAbsent(after, origin);
    } else {
      BufferIs(after, i, origin);
    }
  }

  lemma OthersReplaced(entries: seq<Entry>, i: nat, origin: Origin, b: Buffer, o: Origin)
    requires i <= |entries| && (i < |entries| ==> entries[i].origin == origin) && o != origin
    requires ValidEntries(entries) && ValidEntries(Replace(entries, i, origin, b))
    ensures BufferFor(Replace(entries, i, origin, b), o) == BufferFor(entries, o)
  {
    var after, j := Replace(entries, i, origin, b), IndexOf(entries, o);
    if j < |entries| {
      OthersKeepTheirs(entries, i, origin, b, j);
      BufferIs(after, if j < i || !IsEmpty(b) then j else j - 1, o);
    } else {
      NoneAfter(entries, i, origin, b, o);
      BufferAbsent(after, o);
    }
  }

  lemma NoneAfter(entries: seq<Entry>, i: nat, origin: Origin, b: Buffer, o: Origin)
    requires i <= |entries| && o != origin && Absent(entries, o)
    ensures Absent(Replace(entries, i, origin, b), o)
  {
  }

  /** Replacing the buffer of one origin touches no other. */
  lemma {:induction false} BufferReplaced(entries: seq<Entry>, origin: Origin, b: Buffer, o: Origin)
    requires ValidEntries(entries) && Aligned(b) && (IsEmpty(b) || b.records != [])
    ensures
      var after := Replace(entries, IndexOf(entries, origin), origin, b);
      BufferFor(after, o) == if o != origin then BufferFor(entries, o) else if IsEmpty(b) then EMPTY_BUFFER else b
  {
    ReplaceKeepsValid(entries, IndexOf(entries, origin), origin, b);
    if o == origin {
      OwnReplaced(entries, origin, b);
    } else {
      OthersReplaced(entries, IndexOf(entries, origin), origin, b, o);
    }
  }

  lemma {:induction false} PushKeepsEachOrigin(
    cfg: Config, entries: seq<Entry>, origin: Origin, ticket: nat, records: seq<Record>, clock: nat -> nat, o: Origin)
    requires 0 < cfg.maxRecords && ValidEntries(entries)
    ensures
      var (subs, after) := PushEntries(cfg, entries, origin, ticket, records, clock);
      Under(subs, o) + BufferOf(after, o) == BufferOf(entries, o) + if o == origin then ChunkOrNothing(ticket, records) else []
  {
    var b := BufferAt(entries, IndexOf(entries, origin));
    var (subs, b') := PushBuffer(cfg, b, origin, ticket, records, clock);
    PushTokens(cfg, b, origin, ticket, records, clock);
    EmptyOrHolding(b');
    BufferReplaced(entries, origin, b', o);
    UnderOwn(subs, origin, o);
    if o != origin {
      assert [] + BufferOf(entries, o) == BufferOf(entries, o) + [];
    }
  }

  lemma EmptyOrHolding(b: Buffer)
    requires Aligned(b)
    ensures IsEmpty(b) || b.records != []
  {
  }

  lemma {:induction false} FlushOfOthers(entries: seq<Entry>, when: Option<nat>, o: Origin)
    requires ValidEntries(entries) && Absent(entries, o)
    ensures
      var (subs, kept) := FlushEntries(entries, when);
      Under(subs, o) == [] && Absent(kept, o)
  {
    if entries != [] {
      FlushOfOthers(entries[1..], when, o);
    }
  }

  lemma BufferCons(e: Entry, rest: seq<Entry>, o: Origin)
    ensures BufferFor([e] + rest, o) == if e.origin == o then e.buffer else BufferFor(rest, o)
  {
    assert ([e] + rest)[1..] == rest;
  }

  lemma {:induction false} UnderCons(sub: Submission, subs: seq<Submission>, o: Origin)
    ensures Under([sub] + subs, o) == (if sub.origin == o then TokensOf(sub) else []) + Under(subs, o)
  {
    assert ([sub] + subs)[1..] == subs;
  }

  /** For origin `o`, what a flush emits followed by what it keeps is what was buffered. */
  ghost predicate FlushIsFaithful(entries: seq<Entry>, when: Option<nat>, o: Origin)
    requires ValidEntries(entries)
  {
    var (subs, kept) := FlushEntries(entries, when);
    Under(subs, o) + BufferOf(kept, o) == BufferOf(entries, o)
  }

  lemma ValidTail(entries: seq<Entry>)
    requires ValidEntries(entries) && entries != []
    ensures ValidEntries(entries[1..]) && Absent(entries[1..], entries[0].origin)
  {
  }

  lemma {:induction false} FlushKeepsEachOrigin(entries: seq<Entry>, when: Option<nat>, o: Origin)
    requires ValidEntries(entries)
    ensures FlushIsFaithful(entries, when, o)
  {
    if entries == [] {
      BufferAbsent([], o);
    } else {
      ValidTail(entries);
      FlushKeepsEachOrigin(entries[1..], when, o);
      FlushHead(entries, when, o);
    }
  }

  /** The first buffer leaves whole or stays whole. */
  lemma FlushHead(entries: seq<Entry>, when: Option<nat>, o: Origin)
    requires ValidEntries(entries) && entries != [] && ValidEntries(entries[1..])
    requires FlushIsFaithful(entries[1..], when, o)
    ensures FlushIsFaithful(entries, when, o)
  {
    var e, rest := entries[0], entries[1..];
    var (subs, kept) := FlushEntries(rest, when);
    BufferCons(e, rest, o);
    assert entries == [e] + rest;
    if e.origin == o {
      ValidTail(entries);
      FlushOfOthers(rest, when, o);
      BufferAbsent(kept, o);
    }
    if Leaves(e.buffer, when) {
      FlushBufferTokens(e);
      UnderCons(FlushBuffer(e), subs, o);
    } else {
      BufferCons(e, kept, o);
    }
    HeadGlue(e.origin == o, BufferTokens(e.buffer), Under(subs, o), BufferOf(kept, o));
  }

  lemma HeadGlue(mine: bool, b: seq<Token>, out: seq<Token>, kept: seq<Token>)
    requires mine ==> out == [] && kept == []
    ensures ((if mine then b else []) + out) + kept == if mine then b else out + kept
    ensures out + (if mine then b else kept) == if mine then b else out + kept
  {
  }

  lemma {:induction false} StepKeepsEachOrigin(cfg: Config, entries: seq<Entry>, step: Step, o: Origin)
    requires 0 < cfg.maxRecords && ValidEntries(entries)
    ensures
      var (subs, after) := OneStep(cfg, entries, step);
      Under(subs, o) + BufferOf(after, o) == BufferOf(entries, o) + PushedTo(step, o)
  {
    match step {
      case Pushes(origin, ticket, records, clock) =>
        PushKeepsEachOrigin(cfg, entries, origin, ticket, records, clock, o);
      case Flushes(when) =>
        FlushKeepsEachOrigin(entries, when, o);
    }
  }

  /** Two stages of an origin's stream, glued in the middle. */
  lemma GlueOrigin(e: seq<Token>, a: seq<Token>, rest: seq<Token>, out: seq<Token>, mid: seq<Token>, more: seq<Token>, last: seq<Token>)
    requires out + mid == e + a && more + last == mid + rest
    ensures (out + more) + last == e + (a + rest)
  {
    Associative(out, more, last);
    Associative(out, mid, rest);
    Associative(e, a, rest);
  }

  /** Over any run of pushes and flushes, for every origin: what leaves in its batches, followed by what
      its buffer still holds, is what the buffer held and what was pushed to it, record by record
      with the ticket of its chunk, in order. */
  lemma {:induction false} LabelsAreFaithful(cfg: Config, entries: seq<Entry>, steps: seq<Step>, o: Origin)
    requires 0 < cfg.maxRecords && ValidEntries(entries)
    ensures
      var (subs, last) := Emits(cfg, entries, steps);
      Under(subs, o) + BufferOf(last, o) == BufferOf(entries, o) + OfferedTo(steps, o)
    decreases |steps|
  {
    if steps != [] {
      var (subs, mid) := OneStep(cfg, entries, steps[0]);
      StepKeepsEachOrigin(cfg, entries, steps[0], o);
      StepKeepsValid(cfg, entries, steps[0]);
      LabelsAreFaithful(cfg, mid, steps[1..], o);
      var (more, last) := Emits(cfg, mid, steps[1..]);
      UnderAppend(subs, more, o);
      GlueOrigin(BufferOf(entries, o), PushedTo(steps[0], o), OfferedTo(steps[1..], o),
                 Under(subs, o), BufferOf(mid, o), Under(more, o), BufferOf(last, o));
    }
  }

  // ---------------------------------------------------------------- per ticket

  /** Over any run of pushes and flushes in which `t` names one chunk: the tokens of `t` emitted in
      segments, followed by those still buffered, are those pushed, in order. */
  lemma {:induction false} TicketsAreFaithful(cfg: Config, entries: seq<Entry>, steps: seq<Step>, t: nat)
    requires 0 < cfg.maxRecords && ValidEntries(entries)
    requires Ends(EntryTokens(entries) + Offered(steps), t) <= 1
    ensures
      var (subs, last) := Emits(cfg, entries, steps);
      Proj(SubmissionTokens(subs) + EntryTokens(last), t) == Proj(EntryTokens(entries) + Offered(steps), t)
    decreases |steps|
  {
    if steps == [] {
      assert SubmissionLists([]) == [];
      assert SubmissionTokens([]) + EntryTokens(entries) == EntryTokens(entries) + Offered(steps);
    } else {
      var e, a, rest := EntryTokens(entries), Offered([steps[0]]), Offered(steps[1..]);
      var (subs, mid) := OneStep(cfg, entries, steps[0]);
      OfferedHead(steps);
      EndsOfPart(e, a, rest, t);
      OneStepKeepsEachTicket(cfg, entries, steps[0], t);
      EndsGlue(e, a, rest, SubmissionTokens(subs), EntryTokens(mid), t);
      StepKeepsValid(cfg, entries, steps[0]);
      TicketsAreFaithful(cfg, mid, steps[1..], t);
      var (more, last) := Emits(cfg, mid, steps[1..]);
      SubmissionTokensAppend(subs, more);
      Glue(e, a, rest, SubmissionTokens(subs), EntryTokens(mid), SubmissionTokens(more), EntryTokens(last), t);
    }
  }

  /** What the segments of a ticket say, once none of it is buffered: its records in the order they
      were pushed, then its single end mark. */
  lemma {:induction false} DrainedTicketIsWhole(cfg: Config, steps: seq<Step>, t: nat, records: seq<Record>)
    requires 0 < cfg.maxRecords && Proj(Offered(steps), t) == Chunk(t, records)
    requires Proj(EntryTokens(Emits(cfg, [], steps).1), t) == []
    ensures Proj(SubmissionTokens(Emits(cfg, [], steps).0), t) == Chunk(t, records)
  {
    var (subs, last) := Emits(cfg, [], steps);
    assert EntryLists([]) == [] && EntryTokens([]) + Offered(steps) == Offered(steps);
    EndsProj(Offered(steps), t);
    EndsChunk(t, records, t);
    TicketsAreFaithful(cfg, [], steps, t);
    ProjAppend(SubmissionTokens(subs), EntryTokens(last), t);
  }
}
