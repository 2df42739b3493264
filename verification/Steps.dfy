/** Every action of the pipeline keeps conservation. */
module Steps {
  import opened Ledger
  import opened Stream
  import opened InsertBatching
  import opened OriginBatching
  import opened Writer
  import opened Settlement
  import opened Chunks
  import opened Protocol
  import opened Conservation

  // ---------------------------------------------------------------- the frame of an ingest

  lemma DownAfterEmission(s: State, s': State)
    requires s.outbox == [] && s'.writer == s.writer && s'.commands == s.commands
    ensures Down(s') == Down(s) + s'.outbox
  {
  }

  lemma IngestTouchesOnly(c: Constants, s: State, clock: nat -> nat)
    requires s.queue != [] && Usable(c, s)
    ensures
      var s' := DoIngest(c, s, clock);
      && s'.queue == s.queue[1..] && s'.gate == s.gate && s'.book.issued == s.book.issued
      && s'.writer == s.writer && s'.commands == s.commands && s'.sizes == s.sizes
      && s'.archive == s.archive
  {
    match s.queue[0] {
      case Logs(_, t, n) => if n == 0 && IsSettled(s.book, t) {}
      case Barrier(_) =>
    }
  }

  // ---------------------------------------------------------------- actions that only move tokens

  /** Nothing was sent, disposed of or settled. */
  ghost predicate SameTickets(s: State, s': State) {
    && Hand(s') == Hand(s) && s'.sizes == s.sizes && s'.log == s.log
    && s'.book == s.book && OpsLeft(s') == OpsLeft(s)
    && (s.writer.Stopped? ==> s'.writer.Stopped?)
  }

  /** If moreover nothing in flight changed per ticket, or the writer is gone, nothing is lost. */
  lemma MovesKeepCore(s: State, s': State)
    requires Core(s) && SameTickets(s, s')
    requires !s'.writer.Stopped? ==> forall t: nat :: FlowAt(s', t) == FlowAt(s, t)
    ensures Core(s')
  {
    forall t: nat ensures Expected(s', t) == Expected(s, t) && LogAt(s', t) == LogAt(s, t) {
    }
    forall t: nat ensures Due(s', t) == Due(s, t) {
    }
  }

  lemma {:induction false} EndsOfFlow(s: State, t: nat)
    requires Conserved(s) && !s.writer.Stopped?
    ensures Ends(ProjEntries(s.entries, t), t) + Ends(ProjQueue(s.queue, t), t) <= 1
  {
    EndsAppend(LogAt(s, t), FlowAt(s, t), t);
    EndsAppend(ProjCommands(Down(s), t) + ProjEntries(s.entries, t), ProjQueue(s.queue, t), t);
    EndsAppend(ProjCommands(Down(s), t), ProjEntries(s.entries, t), t);
    EndsChunk(t, Named(t, SizeOf(s, t)), t);
    assert LogAt(s, t) + FlowAt(s, t) == Expected(s, t);
  }

  /** A flush only moves tokens from the buffers to the outbox. */
  lemma {:induction false} FlushMoves(s: State, when: Option<nat>, t: nat)
    requires Conserved(s) && !s.writer.Stopped? && ValidEntries(s.entries)
    ensures
      var (subs, after) := FlushEntries(s.entries, when);
      ProjCommands(Inserts(subs), t) + ProjEntries(after, t) == ProjEntries(s.entries, t)
  {
    var (subs, after) := FlushEntries(s.entries, when);
    EndsOfFlow(s, t);
    EndsProj(EntryTokens(s.entries), t);
    FlushKeepsEachTicket(s.entries, when, t);
    ProjInserts(subs, t);
    ProjAppend(SubmissionTokens(subs), EntryTokens(after), t);
  }

  /** A push only moves tokens from the ingest queue to the buffers and the outbox. */
  lemma PushMoves(c: Constants, s: State, clock: nat -> nat, t: nat)
    requires Conserved(s) && !s.writer.Stopped? && ValidEntries(s.entries) && 0 < c.cfg.maxRecords
    requires s.queue != [] && s.queue[0].Logs? && 0 < s.queue[0].size
    ensures
      var m := s.queue[0];
      var (subs, after) := PushEntries(c.cfg, s.entries, m.origin, m.ticket, Named(m.ticket, m.size), clock);
      ProjCommands(Inserts(subs), t) + ProjEntries(after, t) == ProjEntries(s.entries, t) + ProjQueue([m], t)
  {
    var m := s.queue[0];
    var chunk := Chunk(m.ticket, Named(m.ticket, m.size));
    var (subs, after) := PushEntries(c.cfg, s.entries, m.origin, m.ticket, Named(m.ticket, m.size), clock);
    QueueHead(s.queue, t);
    ProjQueueOne(m, t);
    EndsOfFlow(s, t);
    EndsAppend(ProjQueue([m], t), ProjQueue(s.queue[1..], t), t);
    EndsProj(EntryTokens(s.entries), t);
    EndsProj(chunk, t);
    EndsAppend(EntryTokens(s.entries), chunk, t);
    PushKeepsEachTicket(c.cfg, s.entries, m.origin, m.ticket, Named(m.ticket, m.size), clock, t);
    ProjInserts(subs, t);
    ProjAppend(SubmissionTokens(subs), EntryTokens(after), t);
    ProjAppend(EntryTokens(s.entries), chunk, t);
  }

  lemma QueueHead(q: seq<Message>, t: nat)
    requires q != []
    ensures ProjQueue(q, t) == ProjQueue([q[0]], t) + ProjQueue(q[1..], t)
  {
    ProjQueueAppend([q[0]], q[1..], t);
    assert q == [q[0]] + q[1..];
  }

  /** The flow when emitted commands join the outbox, buffers change and the queue loses its head. */
  lemma FlowAfterEmission(
    d: seq<Token>, out: seq<Token>, kept: seq<Token>, was: seq<Token>, head: seq<Token>, rest: seq<Token>)
    requires out + kept == was + head
    ensures (d + out) + kept + rest == d + was + (head + rest)
  {
    assert (d + out) + kept + rest == d + (out + kept) + rest;
    assert d + (was + head) + rest == d + was + (head + rest);
  }

  lemma IngestChunkFlow(c: Constants, s: State, clock: nat -> nat, t: nat)
    requires Conserved(s) && !s.writer.Stopped? && ValidEntries(s.entries)
    requires s.outbox == [] && Usable(c, s) && s.queue != [] && s.queue[0].Logs? && 0 < s.queue[0].size
    ensures FlowAt(DoIngest(c, s, clock), t) == FlowAt(s, t)
  {
    var s', m := DoIngest(c, s, clock), s.queue[0];
    var (subs, after) := PushEntries(c.cfg, s.entries, m.origin, m.ticket, Named(m.ticket, m.size), clock);
    assert Down(s') == Down(s) + Inserts(subs);
    ProjCommandsAppend(Down(s), Inserts(subs), t);
    PushMoves(c, s, clock, t);
    QueueHead(s.queue, t);
    FlowAfterEmission(ProjCommands(Down(s), t), ProjCommands(Inserts(subs), t), ProjEntries(after, t),
                      ProjEntries(s.entries, t), ProjQueue([m], t), ProjQueue(s.queue[1..], t));
  }

  lemma {:induction false} FlushOutFlow(s: State, when: Option<nat>, t: nat)
    requires Conserved(s) && !s.writer.Stopped? && ValidEntries(s.entries) && s.outbox == []
    ensures
      var (subs, after) := FlushEntries(s.entries, when);
      ProjCommands(Down(s) + Inserts(subs), t) + ProjEntries(after, t) + ProjQueue(s.queue, t) == FlowAt(s, t)
  {
    var (subs, after) := FlushEntries(s.entries, when);
    ProjCommandsAppend(Down(s), Inserts(subs), t);
    FlushMoves(s, when, t);
    FlowAfterEmission(ProjCommands(Down(s), t), ProjCommands(Inserts(subs), t), ProjEntries(after, t),
                      ProjEntries(s.entries, t), [], ProjQueue(s.queue, t));
    assert [] + ProjQueue(s.queue, t) == ProjQueue(s.queue, t);
  }

  /** Commands that carry no records do not show in the flow. */
  lemma SilentCommand(a: seq<Command>, cmd: Command, b: seq<Command>, t: nat)
    requires !cmd.Insert?
    ensures ProjCommands(a + [cmd] + b, t) == ProjCommands(a + b, t)
  {
    ProjCommandsAppend(a + [cmd], b, t);
    ProjCommandsAppend(a, [cmd], t);
    ProjCommandsAppend(a, b, t);
    ProjCommandsOne(cmd, t);
  }

  lemma IngestBarrierFlow(s: State, subs: seq<Submission>, s': State, t: nat)
    requires Conserved(s) && !s.writer.Stopped? && ValidEntries(s.entries) && s.outbox == []
    requires s.queue != [] && s.queue[0].Barrier? && s'.queue == s.queue[1..]
    requires FlushEntries(s.entries, None) == (subs, s'.entries)
    requires Down(s') == Down(s) + (Inserts(subs) + [Flush(s.queue[0].bound)])
    ensures FlowAt(s', t) == FlowAt(s, t)
  {
    var out, mark := Down(s) + Inserts(subs), Flush(s.queue[0].bound);
    assert ProjCommands(Down(s'), t) == ProjCommands(out, t) by {
      SilentCommand(out, mark, [], t);
      assert Down(s') == out + [mark] + [] && out + [] == out;
    }
    assert ProjQueue(s.queue, t) == ProjQueue(s'.queue, t) by {
      QueueHead(s.queue, t);
      ProjQueueOne(s.queue[0], t);
    }
    FlushOutFlow(s, None, t);
  }

  lemma FlushFlow(c: Constants, s: State, when: Option<nat>, t: nat)
    requires Conserved(s) && !s.writer.Stopped? && ValidEntries(s.entries) && s.outbox == [] && Usable(c, s)
    ensures FlowAt(DoFlush(c, s, when), t) == FlowAt(s, t)
  {
    var s' := DoFlush(c, s, when);
    assert Down(s') == Down(s) + s'.outbox;
    FlushOutFlow(s, when, t);
  }

  lemma ReceiveFlow(s: State, t: nat)
    requires s.writer.Idle? && s.commands != []
    ensures FlowAt(DoReceive(s), t) == FlowAt(s, t)
  {
    var s', cmd := DoReceive(s), s.commands[0];
    if cmd.Insert? {
      assert Down(s') == Down(s);
    } else {
      TakenFlow(s, s', cmd, t);
    }
  }

  lemma TakenFlow(s: State, s': State, cmd: Command, t: nat)
    requires !cmd.Insert? && s'.entries == s.entries && s'.queue == s.queue
    requires s.writer.Idle? && s'.writer.Idle? && s'.outbox == s.outbox && s.commands == [cmd] + s'.commands
    ensures FlowAt(s', t) == FlowAt(s, t)
  {
    SilentHead(cmd, Down(s'), t);
    assert Down(s) == [cmd] + Down(s');
  }

  lemma SilentHead(cmd: Command, rest: seq<Command>, t: nat)
    requires !cmd.Insert?
    ensures ProjCommands([cmd] + rest, t) == ProjCommands(rest, t)
  {
    ProjCommandsAppend([cmd], rest, t);
    ProjCommandsOne(cmd, t);
    assert [] + ProjCommands(rest, t) == ProjCommands(rest, t);
  }

  lemma OfferFlow(s: State, t: nat)
    ensures FlowAt(s.(commands := s.commands + [Other]), t) == FlowAt(s, t)
  {
    var s' := s.(commands := s.commands + [Other]);
    var front := (if s.writer.Busy? then [Insert(s.writer.sub)] else []) + s.commands;
    assert Down(s) == front + s.outbox && Down(s') == front + [Other] + s.outbox;
    SilentCommand(front, Other, s.outbox, t);
  }

  lemma SubmitFlow(s: State, t: nat)
    requires s.outbox != [] && !s.writer.Stopped?
    ensures FlowAt(DoSubmit(s), t) == FlowAt(s, t)
  {
    assert s.outbox == [s.outbox[0]] + s.outbox[1..];
    assert Down(DoSubmit(s)) == Down(s);
  }

  lemma BarrierFlow(s: State, m: Message, t: nat)
    requires m.Barrier?
    ensures ProjQueue(s.queue + [m], t) == ProjQueue(s.queue, t)
  {
    ProjQueueAppend(s.queue, [m], t);
    ProjQueueOne(m, t);
  }

  // ---------------------------------------------------------------- the ledger's own steps

  /** A ledger call moves a ticket along its automaton: what it is due does not change. */
  lemma CallKeepsDue(s: State, op: Op, s': State, t: nat)
    requires Valid(s.book) && s'.book == Apply(s.book, op) && OpsLeft(s) == [op] + OpsLeft(s')
    ensures Due(s', t) == Due(s, t)
  {
    ApplyActsPerTicket(s.book, op, t);
    assert OpsLeft(s)[1..] == OpsLeft(s');
  }

  lemma SettleKeepsCore(s: State)
    requires Core(s) && s.writer.Settling? && s.writer.ops != []
    ensures Core(DoSettle(s))
  {
    var s', op := DoSettle(s), s.writer.ops[0];
    ApplyKeepsValid(s.book, op);
    assert OpsLeft(s) == [op] + OpsLeft(s');
    assert OpsLeft(s)[0] == op;
    CallKeepsCore(s, op, s');
  }

  lemma CallKeepsCore(s: State, op: Op, s': State)
    requires Core(s) && Valid(s'.book) && s'.book == Apply(s.book, op) && OpsLeft(s) == [op] + OpsLeft(s')
    requires !op.Issue? && s'.writer.Settling? && s.writer.Settling? && s'.log == s.log && s'.sizes == s.sizes && s'.gate == s.gate
    requires s'.queue == s.queue && s'.entries == s.entries && s'.commands == s.commands && s'.outbox == s.outbox
    ensures Core(s')
  {
    assert Down(s') == Down(s) && s'.book.issued == s.book.issued;
    forall t: nat ensures Expected(s', t) == Expected(s, t) && FlowAt(s', t) == FlowAt(s, t) && LogAt(s', t) == LogAt(s, t) {
    }
    forall t: nat ensures Due(s', t) == Due(s, t) {
      CallKeepsDue(s, op, s', t);
    }
    assert forall i :: 0 <= i < |OpsLeft(s')| ==> OpsLeft(s')[i] == OpsLeft(s)[i + 1];
  }

  lemma CloseKeepsCore(s: State)
    requires Core(s)
    ensures Core(DoClose(s))
  {
    var s' := DoClose(s);
    ApplyKeepsValid(s.book, Op.Close);
    assert Down(s') == Down(s);
    forall t: nat ensures Due(s', t) == Due(s, t) && Expected(s', t) == Expected(s, t) && FlowAt(s', t) == FlowAt(s, t) {
      ApplyActsPerTicket(s.book, Op.Close, t);
    }
    forall t: nat ensures LogAt(s', t) == LogAt(s, t) {
    }
  }

  // ---------------------------------------------------------------- actions that change the stream

  lemma IssueKeepsCore(s: State)
    requires Core(s) && s.gate.Taken? && s.gate.hand.None?
    ensures Core(DoIssue(s))
  {
    var s' := DoIssue(s);
    ApplyKeepsValid(s.book, Op.Issue);
    assert Down(s') == Down(s);
    forall t: nat ensures Due(s', t) == Due(s, t) && FlowAt(s', t) == FlowAt(s, t) {
      ApplyActsPerTicket(s.book, Op.Issue, t);
    }
    forall t: nat ensures LogAt(s', t) == LogAt(s, t) && Expected(s', t) == Expected(s, t) {
    }
  }

  /** The state after a successful send. */
  predicate ChunkSent(s: State, m: Message, s': State) {
    && m.Logs? && s'.queue == s.queue + [m] && s'.sizes == s.sizes[m.ticket := m.size]
    && s'.book == s.book && s'.log == s.log && s'.writer == s.writer && s'.entries == s.entries
    && s'.commands == s.commands && s'.outbox == s.outbox
  }

  lemma SendFlow(s: State, m: Message, s': State, t: nat)
    requires ChunkSent(s, m, s')
    ensures FlowAt(s', t) == FlowAt(s, t) + (if t == m.ticket then Chunk(t, Named(t, m.size)) else [])
  {
    var more := if t == m.ticket then Chunk(t, Named(t, m.size)) else [];
    assert Down(s') == Down(s);
    assert ProjQueue(s'.queue, t) == ProjQueue(s.queue, t) + more by {
      ProjQueueAppend(s.queue, [m], t);
      ProjQueueOne(m, t);
    }
    FlowGrows(ProjCommands(Down(s), t), ProjEntries(s.entries, t), ProjQueue(s.queue, t), more);
  }

  lemma FlowGrows(d: seq<Token>, e: seq<Token>, q: seq<Token>, more: seq<Token>)
    ensures d + e + (q + more) == (d + e + q) + more
  {
  }

  lemma {:induction false} SendKeepsCore(s: State, m: Message, s': State)
    requires Core(s) && ChunkSent(s, m, s')
    requires Hand(s) == Some(m.ticket) && 1 <= m.ticket <= s.book.issued && Hand(s').None?
    ensures Core(s')
  {
    forall t: nat
      ensures Expected(s', t) == if t == m.ticket then Chunk(t, Named(t, m.size)) else Expected(s, t)
    {
    }
    assert Expected(s, m.ticket) == [];
    forall t: nat ensures LogAt(s', t) <= Expected(s', t) {
      assert LogAt(s, t) <= Expected(s, t);
    }
    if !s.writer.Stopped? {
      forall t: nat ensures LogAt(s', t) + FlowAt(s', t) == Expected(s', t) {
        SendFlow(s, m, s', t);
        assert LogAt(s, t) + FlowAt(s, t) == Expected(s, t);
        if t == m.ticket {
          assert |LogAt(s, t)| + |FlowAt(s, t)| == |LogAt(s, t) + FlowAt(s, t)| == 0;
        }
      }
    }
    forall t: nat ensures Due(s', t) == Due(s, t) {
    }
  }

  /** A ticket whose log is empty is unsettled in the ledger, with no progress. */
  lemma UntouchedIsUnsettled(s: State, t: nat)
    requires BookMatchesLog(s) && 0 < t && LogAt(s, t) == []
    ensures !IsSettled(s.book, t) && Summary(s.log, t) == Unsettled(NO_PROGRESS)
  {
    TallySum(s.log, t);
    EndedShows(s.log, t);
    assert Due(s, t) == Summary(s.log, t);
    if !Ledger.State(s.book, t).Unsettled? {
      SettledStays(Ledger.State(s.book, t), OpsLeft(s), t);
    }
  }

  lemma VoidedLog(s: State, t: nat, u: nat)
    requires !IsSettled(s.book, t)
    ensures LogAt(VoidTicket(s, t), u) == LogAt(s, u) + (if u == t then [End(t)] else [])
  {
    LogOfAppend(s.log, [EndEntry(t)], u);
    assert Tokens([EndEntry(t)]) == [End(t)];
    assert Proj([End(t)], u) == if u == t then [End(t)] else [];
  }

  lemma {:induction false} MarkSummary(log: seq<LogEntry>, t: nat, u: nat)
    ensures
      var log' := log + [EndEntry(t)];
      && Tally(log', u, true) == Tally(log, u, true) && Tally(log', u, false) == Tally(log, u, false)
      && (Ended(log', u) <==> Ended(log, u) || u == t)
  {
    var mark := EndEntry(t);
    TallyAppend(log, [mark], u, true);
    TallyAppend(log, [mark], u, false);
    EndedAppend(log, [mark], u);
    assert Ended([mark], u) <==> u == t by {
      assert [mark][0].token == End(t);
    }
    assert Tally([mark], u, true) == 0 && Tally([mark], u, false) == 0;
  }

  /** Voiding a ticket: the end mark enters the log as the ledger settles it. */
  lemma VoidedSummary(s: State, t: nat, u: nat)
    requires BookMatchesLog(s) && 0 < t && LogAt(s, t) == [] && 0 < u
    ensures Due(VoidTicket(s, t), u) == Summary(VoidTicket(s, t).log, u)
  {
    UntouchedIsUnsettled(s, t);
    MarkSummary(s.log, t, u);
    ApplyActsPerTicket(s.book, Void(t), u);
    assert Due(s, u) == Summary(s.log, u);
    if u == t {
      SettledStays(Completed, OpsLeft(s), t);
    }
  }

  lemma VoidKeepsBook(s: State, t: nat, s': State)
    requires BookMatchesLog(s) && 0 < t && LogAt(s, t) == []
    requires
      var v := VoidTicket(s, t);
      s'.book == v.book && s'.log == v.log && s'.writer == s.writer
    ensures BookMatchesLog(s')
  {
    UntouchedIsUnsettled(s, t);
    ApplyKeepsValid(s.book, Void(t));
    assert OpsLeft(s') == OpsLeft(s);
    forall u: nat | 0 < u ensures Due(s', u) == Summary(s'.log, u) {
      VoidedSummary(s, t, u);
    }
  }

  lemma VoidKeepsCore(s: State, t: nat, s': State)
    requires Core(s) && 0 < t && LogAt(s, t) == []
    requires
      var v := VoidTicket(s, t);
      s'.book == v.book && s'.log == v.log && s'.writer == s.writer
    requires Expected(s', t) == [End(t)]
    requires !s.writer.Stopped? ==> FlowAt(s', t) == []
    requires forall u: nat :: u != t ==> Expected(s', u) == Expected(s, u)
    requires !s.writer.Stopped? ==> forall u: nat :: u != t ==> FlowAt(s', u) == FlowAt(s, u)
    ensures Core(s')
  {
    VoidKeepsBook(s, t, s');
    UntouchedIsUnsettled(s, t);
    forall u: nat
      ensures LogAt(s', u) <= Expected(s', u)
      ensures !s.writer.Stopped? ==> LogAt(s', u) + FlowAt(s', u) == Expected(s', u)
    {
      VoidedLog(s, t, u);
      StreamOfVoided(LogAt(s, u), FlowAt(s, u), Expected(s, u), LogAt(s', u), FlowAt(s', u), Expected(s', u),
                     if u == t then [End(t)] else [], s.writer.Stopped?);
    }
  }

  lemma StreamOfVoided(
    l: seq<Token>, f: seq<Token>, e: seq<Token>, l': seq<Token>, f': seq<Token>, e': seq<Token>,
    mark: seq<Token>, stopped: bool)
    requires l <= e && (!stopped ==> l + f == e)
    requires l' == l + mark
    requires mark != [] ==> l == [] && e' == mark && (!stopped ==> f' == [])
    requires mark == [] ==> e' == e && (!stopped ==> f' == f)
    ensures l' <= e' && (!stopped ==> l' + f' == e')
  {
  }

  /** A refused send voids the ticket in hand, which then leaves nothing but its end mark. */
  lemma RefusedKeepsCore(s: State, s': State)
    requires Core(s) && Hand(s).Some? && 1 <= Hand(s).value <= s.book.issued && Hand(s).value !in s.sizes
    requires
      var v := VoidTicket(s, Hand(s).value);
      s' == v.(gate := Open, requests := s'.requests)
    ensures Core(s')
  {
    var t := Hand(s).value;
    assert Expected(s, t) == [];
    assert LogAt(s, t) == [] by {
      assert LogAt(s, t) <= Expected(s, t);
    }
    UntouchedIsUnsettled(s, t);
    assert Expected(s', t) == [End(t)] by {
      assert Items(t, Named(t, 0)) == [];
    }
    assert Down(s') == Down(s);
    forall u: nat ensures FlowAt(s', u) == FlowAt(s, u) {
    }
    assert !s.writer.Stopped? ==> FlowAt(s, t) == [] by {
      if !s.writer.Stopped? {
        assert LogAt(s, t) + FlowAt(s, t) == [];
        assert |FlowAt(s, t)| <= |LogAt(s, t) + FlowAt(s, t)|;
      }
    }
    VoidKeepsCore(s, t, s');
  }

  /** What conservation says of an empty chunk at the head of the queue. */
  lemma EmptyHead(s: State, t: nat, m: Message)
    requires Conserved(s) && !s.writer.Stopped? && s.queue != [] && s.queue[0] == m && m.Logs? && m.size == 0
    requires t == m.ticket && Expected(s, t) == [End(t)]
    ensures LogAt(s, t) == [] && ProjCommands(Down(s), t) + ProjEntries(s.entries, t) + ProjQueue(s.queue[1..], t) == []
  {
    QueueHead(s.queue, t);
    ProjQueueOne(m, t);
    assert Items(t, Named(t, 0)) == [];
    var a, q := ProjCommands(Down(s), t) + ProjEntries(s.entries, t), ProjQueue(s.queue[1..], t);
    assert LogAt(s, t) + (a + ([End(t)] + q)) == [End(t)];
    assert |LogAt(s, t)| + |a| + 1 + |q| == 1;
  }

  lemma {:induction false} UnsettledHasNoEnd(s: State, t: nat)
    requires BookMatchesLog(s) && 0 < t && !IsSettled(s.book, t) && s.writer.Stopped?
    ensures Ends(LogAt(s, t), t) == 0
  {
    EndedShows(s.log, t);
    assert Due(s, t) == Summary(s.log, t);
  }

  /** An empty chunk that the ledger has not settled yet has left no trace in the log. */
  lemma EmptyUnlogged(s: State, t: nat, m: Message)
    requires Core(s) && s.queue != [] && s.queue[0] == m && m.Logs? && m.size == 0
    requires 0 < t == m.ticket && Expected(s, t) == [End(t)] && !IsSettled(s.book, t)
    ensures LogAt(s, t) == []
  {
    if s.writer.Stopped? {
      UnsettledHasNoEnd(s, t);
      assert LogAt(s, t) <= [End(t)];
    } else {
      EmptyHead(s, t, m);
    }
  }

  lemma TailFlow(s: State, s': State, m: Message, u: nat)
    requires s.queue != [] && s.queue[0] == m && m.Logs? && m.ticket != u
    requires s'.queue == s.queue[1..] && s'.entries == s.entries && Down(s') == Down(s)
    ensures FlowAt(s', u) == FlowAt(s, u)
  {
    QueueHead(s.queue, u);
    ProjQueueOne(m, u);
    assert [] + ProjQueue(s.queue[1..], u) == ProjQueue(s.queue[1..], u);
  }

  lemma EmptyVoided(s: State, m: Message, t: nat, s': State)
    requires Core(s) && s.queue != [] && s.queue[0] == m && m.Logs? && m.size == 0 && m.ticket == t
    requires 0 < t && Expected(s, t) == [End(t)] && !IsSettled(s.book, t)
    requires s' == VoidTicket(s, t).(queue := s.queue[1..])
    ensures Core(s')
  {
    EmptyUnlogged(s, t, m);
    assert Down(s') == Down(s);
    forall u: nat ensures Expected(s', u) == Expected(s, u) {
    }
    forall u: nat | u != t ensures FlowAt(s', u) == FlowAt(s, u) {
      TailFlow(s, s', m, u);
    }
    if !s.writer.Stopped? {
      EmptyHead(s, t, m);
    }
    VoidKeepsCore(s, t, s');
  }

  /** An empty chunk is voided by the batcher; one already settled is just dropped. */
  lemma EmptyChunkKeepsCore(s: State, m: Message, t: nat)
    requires Core(s) && s.queue != [] && s.queue[0] == m && m.Logs? && m.size == 0 && m.ticket == t
    requires 1 <= t <= s.book.issued && SizeOf(s, t) == 0 && Hand(s) != Some(t)
    ensures Core(VoidTicket(s, t).(queue := s.queue[1..]))
  {
    assert Expected(s, t) == [End(t)] by {
      assert Items(t, Named(t, 0)) == [];
    }
    if IsSettled(s.book, t) {
      EmptyIsUnsettled(s, t, m);
      MovesKeepCore(s, s.(queue := s.queue[1..]));
    } else {
      EmptyVoided(s, m, t, VoidTicket(s, t).(queue := s.queue[1..]));
    }
  }

  lemma EmptyIsUnsettled(s: State, t: nat, m: Message)
    requires Core(s) && s.queue != [] && s.queue[0] == m && m.Logs? && m.size == 0
    requires 0 < t == m.ticket && Expected(s, t) == [End(t)]
    ensures !s.writer.Stopped? ==> !IsSettled(s.book, t)
  {
    if !s.writer.Stopped? {
      EmptyHead(s, t, m);
      UntouchedIsUnsettled(s, t);
    }
  }

  // ---------------------------------------------------------------- persisting a batch

  /** What conservation says of the batch the writer is about to persist. */
  lemma {:induction false} BatchAtHead(s: State, t: nat)
    requires Conserved(s) && s.writer.Busy?
    ensures
      var rest := s.(writer := Idle);
      LogAt(s, t) + Proj(TokensOf(s.writer.sub), t) + FlowAt(rest, t) == Expected(s, t)
  {
    var rest, cmd := s.(writer := Idle), Insert(s.writer.sub);
    assert ProjCommands(Down(s), t) == Proj(TokensOf(s.writer.sub), t) + ProjCommands(Down(rest), t) by {
      assert Down(s) == [cmd] + Down(rest);
      ProjCommandsAppend([cmd], Down(rest), t);
      ProjCommandsOne(cmd, t);
    }
    assert LogAt(s, t) + FlowAt(s, t) == Expected(s, t);
    Regroup(LogAt(s, t), Proj(TokensOf(s.writer.sub), t), ProjCommands(Down(rest), t),
            ProjEntries(s.entries, t), ProjQueue(s.queue, t));
  }

  lemma Regroup(l: seq<Token>, p: seq<Token>, d: seq<Token>, e: seq<Token>, q: seq<Token>)
    ensures l + ((p + d) + e + q) == l + p + (d + e + q)
  {
  }

  /** A batch that mentions a ticket finds it unended, and never continues past its end mark. */
  lemma BatchIsOrdered(s: State, t: nat)
    requires Conserved(s) && s.writer.Busy? && WellFormed(s.writer.sub)
    ensures EndsLast(s.writer.sub.segments, t)
    ensures Mentions(s.writer.sub.segments, t) ==> !Ended(s.log, t)
  {
    var sub, rest := s.writer.sub, s.(writer := Idle);
    BatchAtHead(s, t);
    if Mentions(sub.segments, t) {
      MentionedShows(sub.segments, sub.records, t);
      var later := Proj(TokensOf(sub), t) + FlowAt(rest, t);
      assert LogAt(s, t) + later == Expected(s, t);
      NoEarlyEnd(LogAt(s, t), later, t, Named(t, SizeOf(s, t)));
      EndedShows(s.log, t);
      CompleteIsLast(sub.segments, sub.records, t, LogAt(s, t), FlowAt(rest, t), Named(t, SizeOf(s, t)));
    }
  }

  lemma {:induction false} PersistedLog(s: State, salvage: Option<Salvage>, fates: seq<bool>, t: nat)
    requires s.writer.Busy? && WellFormed(s.writer.sub) && |fates| == |s.writer.sub.records|
    ensures LogAt(DoPersist(s, salvage, fates), t) == LogAt(s, t) + Proj(TokensOf(s.writer.sub), t)
  {
    var sub := s.writer.sub;
    EntriesTokens(sub.segments, sub.records, fates);
    LogOfAppend(s.log, Entries(sub.segments, sub.records, fates), t);
  }

  /** Persisting takes the batch out of the flow and leaves what is expected. */
  lemma PersistedRest(s: State, salvage: Option<Salvage>, fates: seq<bool>, t: nat)
    requires s.writer.Busy? && |fates| == |s.writer.sub.records|
    ensures
      var s' := DoPersist(s, salvage, fates);
      FlowAt(s', t) == FlowAt(s.(writer := Idle), t) && Expected(s', t) == Expected(s, t)
  {
    assert Down(DoPersist(s, salvage, fates)) == Down(s.(writer := Idle));
  }

  lemma PersistedFlow(s: State, salvage: Option<Salvage>, fates: seq<bool>, t: nat)
    requires Conserved(s) && s.writer.Busy? && WellFormed(s.writer.sub) && |fates| == |s.writer.sub.records|
    ensures
      var s' := DoPersist(s, salvage, fates);
      LogAt(s', t) + FlowAt(s', t) == Expected(s', t)
  {
    BatchAtHead(s, t);
    PersistedLog(s, salvage, fates, t);
    PersistedRest(s, salvage, fates, t);
  }

  lemma {:induction false} StrictOpsIssueNothing(segments: seq<Segment>)
    ensures TicketCalls(StrictOps(segments)) && TicketCalls(CompleteOps(segments))
  {
    if segments != [] {
      StrictOpsIssueNothing(segments[1..]);
    }
  }

  lemma {:induction false} NoteOpsIssueNothing(tickets: seq<nat>, shares: map<nat, (nat, nat)>)
    ensures TicketCalls(NoteOps(tickets, shares))
  {
    if tickets != [] {
      NoteOpsIssueNothing(tickets[1..], shares);
    }
  }

  lemma PersistedDue(s: State, salvage: Option<Salvage>, fates: seq<bool>, t: nat)
    requires Core(s) && s.writer.Busy? && WellFormed(s.writer.sub) && Explains(salvage, s.writer.sub, fates) && 0 < t
    requires SizeOf(s, t) < U64_MAX
    ensures Due(DoPersist(s, salvage, fates), t) == Summary(DoPersist(s, salvage, fates).log, t)
  {
    var s', sub := DoPersist(s, salvage, fates), s.writer.sub;
    BatchIsOrdered(s, t);
    PersistedFlow(s, salvage, fates, t);
    assert |LogAt(s', t)| <= |LogAt(s', t) + FlowAt(s', t)| <= U64_MAX;
    TallySum(s'.log, t);
    BatchSettles(s.log, sub, salvage, fates, t);
    assert Due(s, t) == Summary(s.log, t);
  }

  lemma PersistKeepsCore(s: State, salvage: Option<Salvage>, fates: seq<bool>)
    requires Core(s) && s.writer.Busy? && WellFormed(s.writer.sub) && Explains(salvage, s.writer.sub, fates)
    requires forall t :: t in s.sizes ==> s.sizes[t] < U64_MAX
    ensures Core(DoPersist(s, salvage, fates))
  {
    var s' := DoPersist(s, salvage, fates);
    forall t: nat | 0 < t ensures Due(s', t) == Summary(s'.log, t) {
      PersistedDue(s, salvage, fates, t);
    }
    forall t: nat ensures LogAt(s', t) + FlowAt(s', t) == Expected(s', t) {
      PersistedFlow(s, salvage, fates, t);
    }
    StrictOpsIssueNothing(s.writer.sub.segments);
    if salvage.Some? {
      NoteOpsIssueNothing(s.writer.sub.tickets, salvage.value.byTicket);
    }
  }

  // ---------------------------------------------------------------- tickets that have landed

  /** Only the call that completes `t` settles `t`. */
  lemma {:induction false} SettledBySome(st: TicketState, ops: seq<Op>, t: nat)
    requires TicketCalls(ops) && st.Unsettled? && !OnTicketAll(st, ops, t).Unsettled?
    ensures Complete(t) in ops
    decreases |ops|
  {
    if OnTicket(st, ops[0], t).Unsettled? {
      SettledBySome(OnTicket(st, ops[0], t), ops[1..], t);
    }
  }

  /** A ticket with nothing left in flight is settled, or the writer is about to settle it. */
  lemma LandedIsDue(s: State, t: nat)
    requires Core(s) && !s.writer.Stopped? && 1 <= t <= s.book.issued && !InFlight(s, t)
    ensures IsSettled(s.book, t) || Complete(t) in OpsLeft(s)
  {
    assert LogAt(s, t) + FlowAt(s, t) == Expected(s, t);
    assert LogAt(s, t) == Expected(s, t);
    EndsChunk(t, Named(t, SizeOf(s, t)), t);
    EndedShows(s.log, t);
    assert Due(s, t) == Summary(s.log, t);
    if Ledger.State(s.book, t).Unsettled? {
      SettledBySome(Ledger.State(s.book, t), OpsLeft(s), t);
    }
  }
}
