/** The durable-acknowledgement pipeline as a step machine.

Any number of gated producers, the batcher, the writer, the ledger's publications, its closing and
the waiting handlers interleave at the granularity of the code's locks and channel operations.
A state also carries histories nobody in the pipeline reads: the writer's log, the rows of the table,
the size and the origin of every chunk sent, and the order of the sends. */
module Protocol {
  import opened Ledger
  import opened Stream
  import opened InsertBatching
  import opened OriginBatching
  import opened Writer
  import opened Settlement
  import opened Handler

  datatype Constants = Constants(capacity: nat, commandCapacity: nat, cfg: Config, mode: Mode)

  datatype ChunkSpec = ChunkSpec(origin: Origin, size: nat)

  /** `Barrier` is the flush message; `bound` names the last ticket issued before it was sent. */
  datatype Message = Logs(origin: Origin, ticket: nat, size: nat) | Barrier(bound: nat)

  datatype Command = Insert(sub: Submission) | Flush(bound: nat) | Other

  datatype Gate = Open | Taken(rid: nat, todo: seq<ChunkSpec>, hand: Option<nat>, outcome: EnqueueOutcome)

  datatype BatcherPhase = Running | Draining | Failing | Gone

  datatype WriterPhase = Idle | Busy(sub: Submission) | Settling(ops: seq<Op>) | Stopped

  datatype Request =
    | Waiting(outcome: EnqueueOutcome)
    | Reading(outcome: EnqueueOutcome, next: nat, committed: nat, anyFailed: bool)
    | Answered(outcome: EnqueueOutcome, answer: Answer)

  datatype Sent = SentChunk(rid: nat, ticket: nat) | SentBarrier

  /** The rows of the table, and the origin each chunk was sent with. */
  datatype Archive = Archive(rows: seq<Row>, origins: map<nat, Origin>)

  datatype State = State(
    book: Book,
    published: Watermark,
    pending: multiset<Watermark>,
    inputOpen: bool,
    gate: Gate,
    queue: seq<Message>,
    batcher: BatcherPhase,
    entries: seq<Entry>,
    outbox: seq<Command>,
    commands: seq<Command>,
    writer: WriterPhase,
    requests: map<nat, Request>,
    log: seq<LogEntry>,
    archive: Archive,
    sizes: map<nat, nat>,
    sends: seq<Sent>)

  const INITIAL := State(
    FRESH_BOOK, Watermark(0, false), multiset{}, true, Open, [], Running, [], [], [], Idle, map[], [], Archive([], map[]), map[], [])

  datatype Action =
    | Reserve(rid: nat, chunks: seq<ChunkSpec>)
    | IssueTicket
    | Send
    | LeaveGate
    | SendBarrier
    | CloseInput
    | Ingest(clock: nat -> nat)
    | Timer(now: nat)
    | Drain
    | Submit
    | BatcherExit
    | OfferOther
    | Receive
    | PersistClean
    | PersistSalvage(salvage: Salvage, fates: seq<bool>)
    | WriterDies
    | SettleOne
    | SettleDone
    | CloseLedger
    | Publish(watermark: Watermark)
    | AnswerNow(rid: nat)
    | Release(rid: nat)
    | ReadState(rid: nat)
    | AnswerFinally(rid: nat)

  // ---------------------------------------------------------------- producers

  function SumSizes(chunks: seq<ChunkSpec>): nat {
    if chunks == [] then 0 else chunks[0].size + SumSizes(chunks[1..])
  }

  /** A vector of records is shorter than the 64-bit range. */
  predicate Countable(chunks: seq<ChunkSpec>) {
    forall i :: 0 <= i < |chunks| ==> chunks[i].size < U64_MAX
  }

  /** `enqueue` up to the reservation: a request that can never fit is refused for good, one that
      does not fit now is refused whole, otherwise the gate is taken. */
  function DoReserve(c: Constants, s: State, rid: nat, chunks: seq<ChunkSpec>): State {
    var o := NewOutcome(SumSizes(chunks));
    if c.capacity < |chunks| then s.(requests := s.requests[rid := Answered(o, InvalidArgument)])
    else if c.capacity < |s.queue| + |chunks| then
      s.(requests := s.requests[rid := Waiting(o.(rejected := o.total))])
    else s.(gate := Taken(rid, chunks, None, o))
  }

  function DoIssue(s: State): State
    requires s.gate.Taken?
  {
    s.(book := Apply(s.book, Op.Issue), gate := s.gate.(hand := Some(s.book.issued + 1)))
  }

  /** The ledger with `t` voided, the watermark to publish, and the end mark in the log. */
  function VoidTicket(s: State, t: nat): State {
    if IsSettled(s.book, t) then s
    else
      var b := Apply(s.book, Void(t));
      s.(book := b, pending := s.pending + multiset{Published(b)}, log := s.log + [EndEntry(t)])
  }

  function Refused(o: EnqueueOutcome, disconnected: bool): EnqueueOutcome {
    o.(rejected := SatSub(o.total, o.accepted), disconnected := o.disconnected || disconnected)
  }

  /** `try_send` of the stamped chunk, with its three outcomes. */
  function DoSend(c: Constants, s: State): State
    requires s.gate.Taken? && s.gate.hand.Some? && s.gate.todo != []
  {
    var g := s.gate;
    var t, chunk := g.hand.value, g.todo[0];
    if s.batcher.Gone? || c.capacity <= |s.queue| then
      VoidTicket(s, t).(gate := Open, requests := s.requests[g.rid := Waiting(Refused(g.outcome, s.batcher.Gone?))])
    else
      var o := g.outcome.(
        accepted := g.outcome.accepted + chunk.size,
        last := Some(t),
        tickets := g.outcome.tickets + [Accepted(t, chunk.size)]);
      s.(queue := s.queue + [Logs(chunk.origin, t, chunk.size)],
         gate := Taken(g.rid, g.todo[1..], None, o),
         sizes := s.sizes[t := chunk.size],
         archive := s.archive.(origins := s.archive.origins[t := chunk.origin]),
         sends := s.sends + [SentChunk(g.rid, t)])
  }

  function DoLeaveGate(s: State): State
    requires s.gate.Taken?
  {
    s.(gate := Open, requests := s.requests[s.gate.rid := Waiting(s.gate.outcome)])
  }

  // ---------------------------------------------------------------- batcher

  function Inserts(subs: seq<Submission>): (r: seq<Command>)
    ensures |r| == |subs| && forall i :: 0 <= i < |r| ==> r[i] == Insert(subs[i])
  {
    seq(|subs|, i requires 0 <= i < |subs| => Insert(subs[i]))
  }

  predicate Usable(c: Constants, s: State) {
    0 < c.cfg.maxRecords && forall i :: 0 <= i < |s.entries| ==> Aligned(s.entries[i].buffer)
  }

  /** One message: an empty chunk is voided, a chunk is pushed, a barrier flushes every buffer first. */
  function DoIngest(c: Constants, s: State, clock: nat -> nat): State
    requires s.queue != [] && Usable(c, s)
  {
    var rest := s.queue[1..];
    match s.queue[0]
    case Logs(origin, t, n) =>
      if n == 0 then VoidTicket(s, t).(queue := rest)
      else
        var (subs, after) := PushEntries(c.cfg, s.entries, origin, t, Named(t, n), clock);
        s.(queue := rest, entries := after, outbox := Inserts(subs))
    case Barrier(bound) =>
      var (subs, after) := FlushEntries(s.entries, None);
      s.(queue := rest, entries := after, outbox := Inserts(subs) + [Flush(bound)])
  }

  function DoFlush(c: Constants, s: State, when: Option<nat>): State
    requires Usable(c, s)
  {
    var (subs, after) := FlushEntries(s.entries, when);
    s.(entries := after, outbox := Inserts(subs))
  }

  /** The next emitted command enters the command queue, or is lost when the writer is gone. */
  function DoSubmit(s: State): State
    requires s.outbox != []
  {
    if s.writer.Stopped? then s.(outbox := s.outbox[1..], batcher := Failing)
    else s.(outbox := s.outbox[1..], commands := s.commands + [s.outbox[0]])
  }

  // ---------------------------------------------------------------- writer

  function DoReceive(s: State): State
    requires s.commands != []
  {
    match s.commands[0]
    case Insert(sub) => s.(commands := s.commands[1..], writer := Busy(sub))
    case Flush(_) => s.(commands := s.commands[1..])
    case Other => s.(commands := s.commands[1..])
  }

  /** The table after a batch: its surviving rows, under its origin. */
  function Written(a: Archive, sub: Submission, fates: seq<bool>): Archive
    requires |fates| == |sub.records|
  {
    a.(rows := a.rows + RowsUnder(sub.origin, Survivors(sub.records, fates)))
  }

  function DoPersist(s: State, salvage: Option<Salvage>, fates: seq<bool>): State
    requires s.writer.Busy? && |fates| == |s.writer.sub.records|
  {
    var sub := s.writer.sub;
    s.(writer := Settling(SettleOps(sub, salvage)),
       log := s.log + Entries(sub.segments, sub.records, fates),
       archive := Written(s.archive, sub, fates))
  }

  function DoSettle(s: State): State
    requires s.writer.Settling? && s.writer.ops != []
  {
    var op := s.writer.ops[0];
    var b := Apply(s.book, op);
    var publishes := (op.Complete? || op.Void?) && !IsSettled(s.book, op.ticket);
    s.(writer := Settling(s.writer.ops[1..]),
       book := b,
       pending := if publishes then s.pending + multiset{Published(b)} else s.pending)
  }

  function DoClose(s: State): State {
    var b := Apply(s.book, Op.Close);
    s.(book := b, pending := s.pending + multiset{Published(b)})
  }

  // ---------------------------------------------------------------- handlers

  /** The observation that ends `wait_watermark`. */
  predicate Covers(w: Watermark, o: EnqueueOutcome) {
    w.closed || (o.last.Some? ==> o.last.value <= w.through)
  }

  function DoRead(s: State, rid: nat): State
    requires rid in s.requests && s.requests[rid].Reading? && s.requests[rid].next < |s.requests[rid].outcome.tickets|
  {
    var r := s.requests[rid];
    var a := r.outcome.tickets[r.next];
    var st := Ledger.State(s.book, a.ticket);
    var r' := Reading(r.outcome, r.next + 1, r.committed + Credit(st, a.records), r.anyFailed || st.Failed?);
    s.(requests := s.requests[rid := r'])
  }

  // ---------------------------------------------------------------- the machine

  ghost predicate Enabled(c: Constants, s: State, a: Action) {
    match a
    case Reserve(rid, chunks) =>
      s.gate.Open? && s.inputOpen && rid !in s.requests && Countable(chunks)
    case IssueTicket => s.gate.Taken? && s.gate.hand.None? && s.gate.todo != []
    case Send => s.gate.Taken? && s.gate.hand.Some? && s.gate.todo != []
    case LeaveGate => s.gate.Taken? && s.gate.hand.None? && s.gate.todo == []
    case SendBarrier => s.gate.Open? && s.inputOpen && !s.batcher.Gone? && |s.queue| < c.capacity
    case CloseInput => s.gate.Open?
    case Ingest(_) => s.batcher.Running? && s.outbox == [] && s.queue != [] && Usable(c, s)
    case Timer(_) => s.batcher.Running? && s.outbox == [] && Usable(c, s)
    case Drain => s.batcher.Running? && s.outbox == [] && s.queue == [] && !s.inputOpen && Usable(c, s)
    case Submit => s.outbox != [] && (s.writer.Stopped? || |s.commands| < c.commandCapacity)
    case BatcherExit => s.outbox == [] && (s.batcher.Draining? || s.batcher.Failing?)
    case OfferOther => !s.writer.Stopped? && |s.commands| < c.commandCapacity
    case Receive => s.writer.Idle? && s.commands != []
    case PersistClean => s.writer.Busy?
    case PersistSalvage(salvage, fates) => s.writer.Busy? && Explains(Some(salvage), s.writer.sub, fates)
    case WriterDies => s.writer.Idle? || s.writer.Busy?
    case SettleOne => s.writer.Settling? && s.writer.ops != []
    case SettleDone => s.writer.Settling? && s.writer.ops == []
    case CloseLedger => s.writer.Stopped?
    case Publish(w) => w in s.pending
    case AnswerNow(rid) => rid in s.requests && s.requests[rid].Waiting? && !MustWait(s.requests[rid].outcome, c.mode)
    case Release(rid) =>
      && rid in s.requests && s.requests[rid].Waiting?
      && MustWait(s.requests[rid].outcome, c.mode) && Covers(s.published, s.requests[rid].outcome)
    case ReadState(rid) =>
      rid in s.requests && s.requests[rid].Reading? && s.requests[rid].next < |s.requests[rid].outcome.tickets|
    case AnswerFinally(rid) =>
      rid in s.requests && s.requests[rid].Reading? && s.requests[rid].next == |s.requests[rid].outcome.tickets|
  }

  ghost function Do(c: Constants, s: State, a: Action): State
    requires Enabled(c, s, a)
  {
    match a
    case Reserve(rid, chunks) => DoReserve(c, s, rid, chunks)
    case IssueTicket => DoIssue(s)
    case Send => DoSend(c, s)
    case LeaveGate => DoLeaveGate(s)
    case SendBarrier => s.(queue := s.queue + [Barrier(s.book.issued)], sends := s.sends + [SentBarrier])
    case CloseInput => s.(inputOpen := false)
    case Ingest(clock) => DoIngest(c, s, clock)
    case Timer(now) => DoFlush(c, s, Some(now))
    case Drain => DoFlush(c, s, None).(batcher := Draining)
    case Submit => DoSubmit(s)
    case BatcherExit => s.(batcher := Gone, queue := [], entries := [])
    case OfferOther => s.(commands := s.commands + [Other])
    case Receive => DoReceive(s)
    case PersistClean => DoPersist(s, None, AllKept(|s.writer.sub.records|))
    case PersistSalvage(salvage, fates) => DoPersist(s, Some(salvage), fates)
    case WriterDies => s.(writer := Stopped, commands := [])
    case SettleOne => DoSettle(s)
    case SettleDone => s.(writer := Idle)
    case CloseLedger => DoClose(s)
    case Publish(w) => s.(published := w, pending := s.pending - multiset{w})
    case AnswerNow(rid) =>
      s.(requests := s.requests[rid := Answered(s.requests[rid].outcome, AnswerAtOnce(s.requests[rid].outcome))])
    case Release(rid) => s.(requests := s.requests[rid := Reading(s.requests[rid].outcome, 0, 0, false)])
    case ReadState(rid) => DoRead(s, rid)
    case AnswerFinally(rid) =>
      var r := s.requests[rid];
      s.(requests := s.requests[rid := Answered(r.outcome, AnswerFrom(r.outcome, r.committed, r.anyFailed))])
  }
}
