/** Conservation through the pipeline: for every ticket, the writer's log followed by everything in
flight spells out exactly the chunk that was sent, and the ledger agrees with the log. */
module Conservation {
  import opened Ledger
  import opened Stream
  import opened InsertBatching
  import opened OriginBatching
  import opened Settlement
  import opened Protocol

  // ---------------------------------------------------------------- what is in flight

  function CommandTokens(cmd: Command): seq<Token> {
    if cmd.Insert? then TokensOf(cmd.sub) else []
  }

  function CommandLists(cmds: seq<Command>): (r: seq<seq<Token>>)
    ensures |r| == |cmds| && forall i :: 0 <= i < |r| ==> r[i] == CommandTokens(cmds[i])
  {
    seq(|cmds|, i requires 0 <= i < |cmds| => CommandTokens(cmds[i]))
  }

  function ProjCommands(cmds: seq<Command>, t: nat): seq<Token> {
    Proj(Flatten(CommandLists(cmds)), t)
  }

  function MessageTokens(m: Message): seq<Token> {
    if m.Logs? then Chunk(m.ticket, Named(m.ticket, m.size)) else []
  }

  function MessageLists(q: seq<Message>): (r: seq<seq<Token>>)
    ensures |r| == |q| && forall i :: 0 <= i < |r| ==> r[i] == MessageTokens(q[i])
  {
    seq(|q|, i requires 0 <= i < |q| => MessageTokens(q[i]))
  }

  function ProjQueue(q: seq<Message>, t: nat): seq<Token> {
    Proj(Flatten(MessageLists(q)), t)
  }

  function ProjEntries(entries: seq<Entry>, t: nat): seq<Token> {
    Proj(EntryTokens(entries), t)
  }

  /** Everything emitted and not persisted yet, next to be persisted first. */
  function Down(s: State): seq<Command> {
    (if s.writer.Busy? then [Insert(s.writer.sub)] else []) + s.commands + s.outbox
  }

  /** The tokens of ticket `t` in flight, downstream first. */
  function FlowAt(s: State, t: nat): seq<Token> {
    ProjCommands(Down(s), t) + ProjEntries(s.entries, t) + ProjQueue(s.queue, t)
  }

  function LogAt(s: State, t: nat): seq<Token> {
    Proj(Tokens(s.log), t)
  }

  function Hand(s: State): Option<nat> {
    if s.gate.Taken? then s.gate.hand else None
  }

  /** A ticket is in flight while some part of its chunk is in a queue, a buffer, a command or the
      writer's hands. */
  predicate InFlight(s: State, t: nat) {
    FlowAt(s, t) != [] || Hand(s) == Some(t)
  }

  function SizeOf(s: State, t: nat): nat {
    if t in s.sizes then s.sizes[t] else 0
  }

  /** The whole life of a ticket: its records and its end mark once it left the producer's hand.
      A ticket that was never sent is voided, so all it leaves is its end mark. */
  function Expected(s: State, t: nat): seq<Token> {
    if 1 <= t <= s.book.issued && Hand(s) != Some(t) then Chunk(t, Named(t, SizeOf(s, t))) else []
  }

  function OpsLeft(s: State): seq<Op> {
    if s.writer.Settling? then s.writer.ops else []
  }

  /** The state of a ticket once the writer has made the calls of its current command. */
  function Due(s: State, t: nat): TicketState {
    OnTicketAll(Ledger.State(s.book, t), OpsLeft(s), t)
  }

  // ---------------------------------------------------------------- the invariant

  predicate AllWell(cmds: seq<Command>) {
    forall cmd :: cmd in cmds && cmd.Insert? ==> WellFormed(cmd.sub)
  }

  /** The batcher's data is sound: aligned buffers, and batches partitioned by their segments. */
  ghost predicate SoundBatches(c: Constants, s: State) {
    0 < c.cfg.maxRecords && ValidEntries(s.entries) && AllWell(Down(s))
  }

  /** Messages in the queue were sent with the recorded size; the ticket in a producer's hand is
      the latest one and was not sent. */
  ghost predicate SoundTickets(s: State) {
    && (forall i :: 0 <= i < |s.queue| && s.queue[i].Logs? ==>
          s.queue[i].ticket in s.sizes && s.sizes[s.queue[i].ticket] == s.queue[i].size)
    && (forall t :: t in s.sizes ==> 1 <= t <= s.book.issued && s.sizes[t] < U64_MAX)
    && (s.gate.Taken? ==> Countable(s.gate.todo))
    && (Hand(s).Some? ==> 1 <= Hand(s).value == s.book.issued && Hand(s).value !in s.sizes)
  }

  /** While the writer lives, the batcher leaves only after the senders did and nothing is left. */
  ghost predicate SoundPhases(s: State) {
    && (!s.inputOpen ==> s.gate.Open?)
    && (s.batcher.Failing? ==> s.writer.Stopped?)
    && (s.batcher.Draining? || s.batcher.Gone? ==>
          s.writer.Stopped? || (s.queue == [] && s.entries == [] && s.gate.Open? && !s.inputOpen))
    && (s.batcher.Gone? ==> s.outbox == [])
  }

  ghost predicate Conserved(s: State) {
    !s.writer.Stopped? ==> forall t: nat :: LogAt(s, t) + FlowAt(s, t) == Expected(s, t)
  }

  ghost predicate LogIsPrefix(s: State) {
    forall t: nat :: LogAt(s, t) <= Expected(s, t)
  }

  /** The writer neither issues nor voids tickets, nor closes the ledger, while it settles. */
  predicate TicketCalls(ops: seq<Op>) {
    forall i :: 0 <= i < |ops| ==> !ops[i].Issue? && !ops[i].Close? && !ops[i].Void?
  }

  ghost predicate BookMatchesLog(s: State) {
    && Valid(s.book)
    && TicketCalls(OpsLeft(s))
    && (forall t: nat :: 0 < t ==> Due(s, t) == Summary(s.log, t))
  }

  ghost predicate Core(s: State) {
    Conserved(s) && LogIsPrefix(s) && BookMatchesLog(s)
  }

  // ---------------------------------------------------------------- projections

  lemma ProjCommandsAppend(a: seq<Command>, b: seq<Command>, t: nat)
    ensures ProjCommands(a + b, t) == ProjCommands(a, t) + ProjCommands(b, t)
  {
    assert CommandLists(a + b) == CommandLists(a) + CommandLists(b);
    FlattenAppend(CommandLists(a), CommandLists(b));
    ProjAppend(Flatten(CommandLists(a)), Flatten(CommandLists(b)), t);
  }

  lemma {:induction false} ProjCommandsOne(cmd: Command, t: nat)
    ensures ProjCommands([cmd], t) == Proj(CommandTokens(cmd), t)
  {
    assert CommandLists([cmd]) == [CommandTokens(cmd)];
    FlattenOne(CommandTokens(cmd));
  }

  lemma FlattenOne(x: seq<Token>)
    ensures Flatten([x]) == x
  {
  }

  lemma ProjQueueAppend(a: seq<Message>, b: seq<Message>, t: nat)
    ensures ProjQueue(a + b, t) == ProjQueue(a, t) + ProjQueue(b, t)
  {
    assert MessageLists(a + b) == MessageLists(a) + MessageLists(b);
    FlattenAppend(MessageLists(a), MessageLists(b));
    ProjAppend(Flatten(MessageLists(a)), Flatten(MessageLists(b)), t);
  }

  lemma {:induction false} ProjQueueOne(m: Message, t: nat)
    ensures ProjQueue([m], t) == Proj(MessageTokens(m), t)
    ensures m.Logs? ==> ProjQueue([m], t) == if m.ticket == t then Chunk(t, Named(t, m.size)) else []
    ensures m.Barrier? ==> ProjQueue([m], t) == []
  {
    assert MessageLists([m]) == [MessageTokens(m)];
    FlattenOne(MessageTokens(m));
    if m.Logs? {
      ProjChunk(m.ticket, Named(m.ticket, m.size), t);
    }
  }

  lemma {:induction false} ProjInserts(subs: seq<Submission>, t: nat)
    ensures ProjCommands(Inserts(subs), t) == Proj(SubmissionTokens(subs), t)
  {
    assert CommandLists(Inserts(subs)) == SubmissionLists(subs);
  }
}
