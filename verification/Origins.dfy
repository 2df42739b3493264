/** Origins are never merged: over every run, a record is buffered, batched and written under the
origin its chunk was sent with. */
module Origins {
  import opened Stream
  import opened InsertBatching
  import opened OriginBatching
  import opened Writer
  import opened Settlement
  import opened Protocol
  import opened Conservation
  import opened Steps
  import opened Soundness
  import opened Conserving
  import opened Table

  /** Ticket `t` was sent with origin `o`. */
  predicate SentUnder(origins: map<nat, Origin>, t: nat, o: Origin) {
    t in origins && origins[t] == o
  }

  predicate TokensUnder(origins: map<nat, Origin>, tokens: seq<Token>, o: Origin) {
    forall i :: 0 <= i < |tokens| ==> SentUnder(origins, tokens[i].tag, o)
  }

  predicate MessagesUnder(origins: map<nat, Origin>, q: seq<Message>) {
    forall i :: 0 <= i < |q| && q[i].Logs? ==> SentUnder(origins, q[i].ticket, q[i].origin)
  }

  predicate BuffersUnder(origins: map<nat, Origin>, entries: seq<Entry>) {
    forall i :: 0 <= i < |entries| ==> TokensUnder(origins, BufferTokens(entries[i].buffer), entries[i].origin)
  }

  predicate BatchUnder(origins: map<nat, Origin>, sub: Submission) {
    TokensUnder(origins, TokensOf(sub), sub.origin)
  }

  predicate CommandsUnder(origins: map<nat, Origin>, cmds: seq<Command>) {
    forall cmd :: cmd in cmds && cmd.Insert? ==> BatchUnder(origins, cmd.sub)
  }

  predicate AllRowsUnder(origins: map<nat, Origin>, rows: seq<Row>) {
    forall i :: 0 <= i < |rows| ==> SentUnder(origins, rows[i].record.ticket, rows[i].origin)
  }

  function RecordsOf(rows: seq<Row>): (r: seq<Record>)
    ensures |r| == |rows| && forall i :: 0 <= i < |r| ==> r[i] == rows[i].record
  {
    seq(|rows|, i requires 0 <= i < |rows| => rows[i].record)
  }

  ghost predicate OriginsHold(s: State) {
    var origins, rows := s.archive.origins, s.archive.rows;
    && origins.Keys == s.sizes.Keys
    && MessagesUnder(origins, s.queue)
    && BuffersUnder(origins, s.entries)
    && CommandsUnder(origins, Down(s))
    && AllRowsUnder(origins, rows)
    && RecordsOf(rows) == Committed(s.log)
  }

  // ---------------------------------------------------------------- batching

  lemma {:induction false} PartsUnder(origins: map<nat, Origin>, lists: seq<seq<Token>>, o: Origin, i: nat)
    requires TokensUnder(origins, Flatten(lists), o) && i < |lists|
    ensures TokensUnder(origins, lists[i], o)
  {
    var first, rest := lists[0], Flatten(lists[1..]);
    assert Flatten(lists) == first + rest;
    if i == 0 {
      assert forall k :: 0 <= k < |first| ==> Flatten(lists)[k] == first[k];
    } else {
      assert forall k :: 0 <= k < |rest| ==> Flatten(lists)[|first| + k] == rest[k];
      PartsUnder(origins, lists[1..], o, i - 1);
    }
  }

  lemma HalvesUnder(origins: map<nat, Origin>, a: seq<Token>, b: seq<Token>, o: Origin)
    ensures TokensUnder(origins, a + b, o) <==> TokensUnder(origins, a, o) && TokensUnder(origins, b, o)
  {
    if TokensUnder(origins, a + b, o) {
      assert forall k :: 0 <= k < |a| ==> (a + b)[k] == a[k];
      assert forall k :: 0 <= k < |b| ==> (a + b)[|a| + k] == b[k];
    }
  }

  lemma SubsUnder(origins: map<nat, Origin>, subs: seq<Submission>, o: Origin)
    requires TokensUnder(origins, SubmissionTokens(subs), o) && AllWellFormed(subs, o)
    ensures CommandsUnder(origins, Inserts(subs))
  {
    forall cmd | cmd in Inserts(subs) ensures BatchUnder(origins, cmd.sub) {
      var i :| 0 <= i < |subs| && Inserts(subs)[i] == cmd;
      PartsUnder(origins, SubmissionLists(subs), o, i);
    }
  }

  lemma ReplacedUnder(origins: map<nat, Origin>, entries: seq<Entry>, i: nat, o: Origin, b: Buffer)
    requires i <= |entries| && BuffersUnder(origins, entries) && TokensUnder(origins, BufferTokens(b), o)
    ensures BuffersUnder(origins, Replace(entries, i, o, b))
  {
  }

  lemma BufferUnder(origins: map<nat, Origin>, entries: seq<Entry>, o: Origin)
    requires BuffersUnder(origins, entries)
    ensures TokensUnder(origins, BufferTokens(BufferAt(entries, IndexOf(entries, o))), o)
  {
  }

  lemma PushUnder(
    origins: map<nat, Origin>, cfg: Config, entries: seq<Entry>, o: Origin, t: nat, records: seq<Record>, clock: nat -> nat)
    requires 0 < cfg.maxRecords && ValidEntries(entries) && BuffersUnder(origins, entries) && SentUnder(origins, t, o)
    ensures
      var (subs, after) := PushEntries(cfg, entries, o, t, records, clock);
      BuffersUnder(origins, after) && CommandsUnder(origins, Inserts(subs))
  {
    var i := IndexOf(entries, o);
    var b := BufferAt(entries, i);
    var (subs, b') := PushBuffer(cfg, b, o, t, records, clock);
    PushTokens(cfg, b, o, t, records, clock);
    BufferUnder(origins, entries, o);
    HalvesUnder(origins, BufferTokens(b), ChunkOrNothing(t, records), o);
    HalvesUnder(origins, SubmissionTokens(subs), BufferTokens(b'), o);
    SubsUnder(origins, subs, o);
    ReplacedUnder(origins, entries, i, o, b');
  }

  lemma {:induction false} FlushUnder(origins: map<nat, Origin>, entries: seq<Entry>, when: Option<nat>)
    requires ValidEntries(entries) && BuffersUnder(origins, entries)
    ensures
      var (subs, kept) := FlushEntries(entries, when);
      && BuffersUnder(origins, kept)
      && forall i :: 0 <= i < |subs| ==> BatchUnder(origins, subs[i])
  {
    if entries != [] {
      FlushUnder(origins, entries[1..], when);
      if Leaves(entries[0].buffer, when) {
        FlushBufferTokens(entries[0]);
      }
    }
  }

  // ---------------------------------------------------------------- the batcher

  lemma CommandsUnderAppend(origins: map<nat, Origin>, a: seq<Command>, b: seq<Command>)
    requires CommandsUnder(origins, a) && CommandsUnder(origins, b)
    ensures CommandsUnder(origins, a + b)
  {
  }

  lemma IngestKeepsOrigins(c: Constants, s: State, clock: nat -> nat)
    requires OriginsHold(s) && SoundBatches(c, s) && s.outbox == [] && s.queue != [] && Usable(c, s)
    ensures
      var s' := DoIngest(c, s, clock);
      BuffersUnder(s.archive.origins, s'.entries) && CommandsUnder(s.archive.origins, Down(s'))
  {
    var s' := DoIngest(c, s, clock);
    IngestTouchesOnly(c, s, clock);
    DownAfterEmission(s, s');
    IngestEmitsUnder(c, s, clock);
    CommandsUnderAppend(s.archive.origins, Down(s), s'.outbox);
  }

  lemma IngestEmitsUnder(c: Constants, s: State, clock: nat -> nat)
    requires OriginsHold(s) && SoundBatches(c, s) && s.outbox == [] && s.queue != [] && Usable(c, s)
    ensures
      var s' := DoIngest(c, s, clock);
      BuffersUnder(s.archive.origins, s'.entries) && CommandsUnder(s.archive.origins, s'.outbox)
  {
    match s.queue[0] {
      case Logs(o, t, n) =>
        if n != 0 {
          PushUnder(s.archive.origins, c.cfg, s.entries, o, t, Named(t, n), clock);
        }
      case Barrier(_) =>
        FlushUnder(s.archive.origins, s.entries, None);
    }
  }

  lemma FlushKeepsOrigins(c: Constants, s: State, when: Option<nat>)
    requires OriginsHold(s) && SoundBatches(c, s) && s.outbox == [] && Usable(c, s)
    ensures
      var s' := DoFlush(c, s, when);
      BuffersUnder(s.archive.origins, s'.entries) && CommandsUnder(s.archive.origins, Down(s'))
  {
    var s' := DoFlush(c, s, when);
    FlushUnder(s.archive.origins, s.entries, when);
    DownAfterEmission(s, s');
    CommandsUnderAppend(s.archive.origins, Down(s), s'.outbox);
  }

  /** Actions that write and send nothing, and only forget messages, buffers or commands. */
  lemma FewerKeepOrigins(s: State, s': State)
    requires OriginsHold(s) && s'.archive == s.archive && s'.sizes == s.sizes
    requires Committed(s'.log) == Committed(s.log)
    requires forall m :: m in s'.queue ==> m in s.queue || m.Barrier?
    requires BuffersUnder(s.archive.origins, s'.entries) && CommandsUnder(s.archive.origins, Down(s'))
    ensures OriginsHold(s')
  {
    forall i | 0 <= i < |s'.queue| && s'.queue[i].Logs?
      ensures SentUnder(s.archive.origins, s'.queue[i].ticket, s'.queue[i].origin)
    {
      assert s'.queue[i] in s.queue;
    }
  }

  lemma VoidCommitsNothing(s: State, t: nat)
    ensures Committed(VoidTicket(s, t).log) == Committed(s.log)
  {
    CommittedAppend(s.log, [EndEntry(t)]);
    assert Committed([EndEntry(t)]) == [];
  }

  lemma BatcherKeepsOrigins(c: Constants, s: State, a: Action)
    requires OriginsHold(s) && SoundBatches(c, s) && Enabled(c, s, a) && ByBatcher(a)
    ensures OriginsHold(Do(c, s, a))
  {
    var s' := Do(c, s, a);
    match a {
      case Ingest(clock) =>
        IngestTouchesOnly(c, s, clock);
        IngestKeepsOrigins(c, s, clock);
        IngestCommitsNothing(c, s, clock);
      case Timer(now) => FlushKeepsOrigins(c, s, Some(now));
      case Drain => FlushKeepsOrigins(c, s, None);
      case Submit =>
      case BatcherExit =>
    }
    FewerKeepOrigins(s, s');
  }

  lemma IngestCommitsNothing(c: Constants, s: State, clock: nat -> nat)
    requires s.queue != [] && Usable(c, s)
    ensures Committed(DoIngest(c, s, clock).log) == Committed(s.log)
  {
    if s.queue[0].Logs? {
      VoidCommitsNothing(s, s.queue[0].ticket);
    }
  }

  // ---------------------------------------------------------------- the producers

  lemma SendKeepsOrigins(c: Constants, s: State)
    requires OriginsHold(s) && SoundTickets(s) && s.gate.Taken? && s.gate.hand.Some? && s.gate.todo != []
    ensures OriginsHold(DoSend(c, s))
  {
    var s', t := DoSend(c, s), s.gate.hand.value;
    SendTouchesOnly(c, s);
    assert Down(s') == Down(s) && Hand(s) == Some(t);
    if s'.gate.Taken? {
      GrownOrigins(s, s', t, s.gate.todo[0].origin);
    } else {
      VoidCommitsNothing(s, t);
      FewerKeepOrigins(s, s');
    }
  }

  /** A new ticket leaves what is known of the others. */
  lemma GrownOrigins(s: State, s': State, t: nat, o: Origin)
    requires OriginsHold(s) && t !in s.sizes && s'.sizes.Keys == s.sizes.Keys + {t}
    requires s'.archive == s.archive.(origins := s.archive.origins[t := o])
    requires s'.entries == s.entries && Down(s') == Down(s) && s'.log == s.log
    requires exists n: nat :: s'.queue == s.queue + [Logs(o, t, n)]
    ensures OriginsHold(s')
  {
    forall u: nat, p: Origin | SentUnder(s.archive.origins, u, p) ensures SentUnder(s'.archive.origins, u, p) {
    }
    forall cmd | cmd in Down(s') && cmd.Insert? ensures BatchUnder(s'.archive.origins, cmd.sub) {
      assert BatchUnder(s.archive.origins, cmd.sub);
    }
  }

  lemma ProducersKeepOrigins(c: Constants, s: State, a: Action)
    requires OriginsHold(s) && SoundTickets(s) && Enabled(c, s, a) && ByProducer(a)
    ensures OriginsHold(Do(c, s, a))
  {
    if a.Send? {
      SendKeepsOrigins(c, s);
    } else {
      ProducersTouchOnly(c, s, a);
      assert Down(Do(c, s, a)) == Down(s);
      FewerKeepOrigins(s, Do(c, s, a));
    }
  }

  // ---------------------------------------------------------------- the writer

  /** A row carries the ticket its batch labels it with, so it is written under its own origin. */
  lemma {:induction false} RowIsUnder(s: State, sub: Submission, fates: seq<bool>, s': State, r: Record)
    requires BatchUnder(s.archive.origins, sub) && WellFormed(sub) && |fates| == |sub.records|
    requires LogIsPrefix(s') && s'.log == s.log + Entries(sub.segments, sub.records, fates)
    requires r in Survivors(sub.records, fates)
    ensures SentUnder(s.archive.origins, r.ticket, sub.origin)
  {
    var added := Entries(sub.segments, sub.records, fates);
    CommittedBatch(sub.segments, sub.records, fates);
    CommittedMember(added, r);
    var i :| 0 <= i < |added| && added[i].token.Item? && added[i].kept && added[i].token.record == r;
    assert s'.log[|s.log| + i] == added[i];
    ItemIsTruthful(s', |s.log| + i);
    EntriesTokens(sub.segments, sub.records, fates);
    assert Tokens(added)[i] == TokensOf(sub)[i];
  }

  lemma PersistKeepsOrigins(s: State, salvage: Option<Salvage>, fates: seq<bool>)
    requires OriginsHold(s) && s.writer.Busy? && AllWell(Down(s)) && |fates| == |s.writer.sub.records|
    requires LogIsPrefix(DoPersist(s, salvage, fates))
    ensures OriginsHold(DoPersist(s, salvage, fates))
  {
    var s', sub := DoPersist(s, salvage, fates), s.writer.sub;
    assert Insert(sub) in Down(s) && Down(s) == [Insert(sub)] + Down(s');
    PersistAddsRows(s, salvage, fates);
    WrittenUnder(s, salvage, fates);
    var kept := Survivors(sub.records, fates);
    assert RecordsOf(s'.archive.rows) == RecordsOf(s.archive.rows) + kept;
  }

  lemma WrittenUnder(s: State, salvage: Option<Salvage>, fates: seq<bool>)
    requires s.writer.Busy? && BatchUnder(s.archive.origins, s.writer.sub) && WellFormed(s.writer.sub)
    requires |fates| == |s.writer.sub.records| && AllRowsUnder(s.archive.origins, s.archive.rows)
    requires LogIsPrefix(DoPersist(s, salvage, fates))
    ensures AllRowsUnder(s.archive.origins, DoPersist(s, salvage, fates).archive.rows)
  {
    var s', sub := DoPersist(s, salvage, fates), s.writer.sub;
    var kept := Survivors(sub.records, fates);
    var before, after := s.archive.rows, s'.archive.rows;
    forall i | 0 <= i < |after| ensures SentUnder(s.archive.origins, after[i].record.ticket, after[i].origin) {
      if |before| <= i {
        RowIsUnder(s, sub, fates, s', kept[i - |before|]);
      }
    }
  }

  /** The writer's actions that write nothing hand on commands, drop them or settle. */
  lemma OtherWritesKeepOrigins(c: Constants, s: State, a: Action)
    requires OriginsHold(s) && Enabled(c, s, a) && ByWriter(a) && !a.PersistClean? && !a.PersistSalvage?
    ensures OriginsHold(Do(c, s, a))
  {
    WriterTouchesOnly(c, s, a);
    forall cmd | cmd in Down(Do(c, s, a)) && cmd.Insert? ensures BatchUnder(s.archive.origins, cmd.sub) {
      WriterAddsNoBatch(c, s, a, cmd);
    }
    FewerKeepOrigins(s, Do(c, s, a));
  }

  lemma WriterKeepsOrigins(c: Constants, s: State, a: Action)
    requires OriginsHold(s) && SoundBatches(c, s) && Enabled(c, s, a) && ByWriter(a) && LogIsPrefix(Do(c, s, a))
    ensures OriginsHold(Do(c, s, a))
  {
    match a {
      case PersistClean => PersistKeepsOrigins(s, None, AllKept(|s.writer.sub.records|));
      case PersistSalvage(salvage, fates) => PersistKeepsOrigins(s, Some(salvage), fates);
      case _ => OtherWritesKeepOrigins(c, s, a);
    }
  }

  /** Every action keeps messages, buffers, batches and rows under the origin their chunk was sent with,
      and the table the rows the log committed. */
  lemma OriginsKept(c: Constants, s: State, a: Action)
    requires OriginsHold(s) && Sound(c, s) && Enabled(c, s, a) && LogIsPrefix(Do(c, s, a))
    ensures OriginsHold(Do(c, s, a))
  {
    if ByProducer(a) {
      ProducersKeepOrigins(c, s, a);
    } else if ByBatcher(a) {
      BatcherKeepsOrigins(c, s, a);
    } else if ByWriter(a) {
      WriterKeepsOrigins(c, s, a);
    } else {
      HandlersTouchNoPipe(c, s, a);
      assert Down(Do(c, s, a)) == Down(s);
      FewerKeepOrigins(s, Do(c, s, a));
    }
  }
}
