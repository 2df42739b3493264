/** The pipeline never gets stuck: from every reached state with a living writer, the producers, the batcher and the writer
can finish what is in flight, whatever has been sent so far, and then every ticket is settled. */
module Draining {
  import opened InsertBatching
  import opened OriginBatching
  import opened Settlement
  import opened Protocol
  import opened Conservation
  import opened Steps
  import opened Soundness
  import opened Admission
  import opened Guarantees

  /** The next thing to do, downstream first; nothing when the pipeline is at rest. */
  ghost function Move(s: State): Option<Action> {
    if s.writer.Settling? then Some(if s.writer.ops == [] then SettleDone else SettleOne)
    else if s.writer.Busy? then Some(PersistClean)
    else if s.commands != [] then Some(Receive)
    else if s.outbox != [] then Some(Submit)
    else if s.gate.Taken? then Some(if s.gate.hand.Some? then Send else if s.gate.todo == [] then LeaveGate else IssueTicket)
    else if s.queue != [] then Some(Ingest(_ => 0))
    else if s.entries != [] then Some(if s.inputOpen then SendBarrier else Drain)
    else None
  }

  /** Both queues can hold something. */
  predicate Roomy(c: Constants) {
    0 < c.capacity && 0 < c.commandCapacity
  }

  lemma MoveIsEnabled(c: Constants, s: State)
    requires Inv(c, s) && !s.writer.Stopped? && Roomy(c) && Move(s).Some?
    ensures Enabled(c, s, Move(s).value)
  {
    assert SoundBatches(c, s) && SoundPhases(s) && RoomLeft(c, s);
  }

  // ---------------------------------------------------------------- what is left to do

  function GateWork(g: Gate): nat {
    if g.Open? then 0 else 2 * |g.todo| + if g.hand.Some? then 1 else 2
  }

  function Chunks(q: seq<Message>): nat {
    if q == [] then 0 else (if q[0].Logs? then 1 else 0) + Chunks(q[1..])
  }

  predicate HasBarrier(q: seq<Message>) {
    exists i :: 0 <= i < |q| && q[i].Barrier?
  }

  /** Something is buffered that nothing in the queue will flush. */
  function Unflushed(s: State): nat {
    if s.entries != [] && !HasBarrier(s.queue) then 1 else 0
  }

  function WriterWork(w: WriterPhase): nat {
    match w
    case Idle => 0
    case Stopped => 0
    case Busy(sub) => |StrictOps(sub.segments)| + 2
    case Settling(ops) => |ops| + 1
  }

  /** `s'` has less to do than `s`: at the gate, in the ingest queue, in the buffers, or further down. */
  predicate Less(s': State, s: State) {
    var g, g' := GateWork(s.gate), GateWork(s'.gate);
    var k, k' := Chunks(s.queue), Chunks(s'.queue);
    g' < g || (g' == g && (k' < k || (k' == k && LessDown(s', s))))
  }

  predicate LessDown(s': State, s: State) {
    || Unflushed(s') < Unflushed(s)
    || (Unflushed(s') == Unflushed(s) &&
        (|s'.queue| < |s.queue| || (|s'.queue| == |s.queue| && LessOut(s', s))))
  }

  predicate LessOut(s': State, s: State) {
    || |s'.outbox| < |s.outbox|
    || (|s'.outbox| == |s.outbox| &&
        (|s'.commands| < |s.commands| || (|s'.commands| == |s.commands| && WriterWork(s'.writer) < WriterWork(s.writer))))
  }

  // ---------------------------------------------------------------- every move leaves less

  /** The writer's moves: nothing upstream changes. */
  lemma WriterMoves(c: Constants, s: State)
    requires Move(s).Some? && Enabled(c, s, Move(s).value)
    requires Move(s).value.SettleOne? || Move(s).value.SettleDone? || Move(s).value.PersistClean? || Move(s).value.Receive?
    ensures Less(Do(c, s, Move(s).value), s) && !Do(c, s, Move(s).value).writer.Stopped?
  {
    WriterTouchesOnly(c, s, Move(s).value);
  }

  lemma SubmitMoves(s: State)
    requires s.outbox != [] && !s.writer.Stopped?
    ensures Less(DoSubmit(s), s) && !DoSubmit(s).writer.Stopped?
  {
  }

  lemma GateMoves(c: Constants, s: State)
    requires RoomLeft(c, s) && s.gate.Taken?
    ensures s.gate.hand.Some? ==> s.gate.todo != [] && GateWork(DoSend(c, s).gate) < GateWork(s.gate)
    ensures s.gate.hand.None? && s.gate.todo != [] ==> GateWork(DoIssue(s).gate) < GateWork(s.gate)
    ensures GateWork(DoLeaveGate(s).gate) < GateWork(s.gate)
  {
  }

  lemma IngestMoves(c: Constants, s: State, clock: nat -> nat)
    requires SoundBatches(c, s) && s.queue != [] && Usable(c, s)
    ensures Less(DoIngest(c, s, clock), s)
  {
    var s' := DoIngest(c, s, clock);
    IngestTouchesOnly(c, s, clock);
    if s.queue[0].Barrier? {
      FlushKeepsValid(s.entries, None);
      assert s'.entries == [] && HasBarrier(s.queue);
    }
  }

  lemma FlushMoves(c: Constants, s: State)
    requires SoundBatches(c, s) && s.queue == [] && s.entries != [] && Usable(c, s)
    ensures Less(DoFlush(c, s, None).(batcher := Draining), s)
    ensures Less(s.(queue := s.queue + [Barrier(s.book.issued)], sends := s.sends + [SentBarrier]), s)
  {
    FlushKeepsValid(s.entries, None);
    var s' := s.(queue := s.queue + [Barrier(s.book.issued)], sends := s.sends + [SentBarrier]);
    assert s'.queue == [Barrier(s.book.issued)] && s'.queue[0].Barrier? && s'.queue[1..] == [];
  }

  lemma UpstreamMoves(c: Constants, s: State)
    requires Inv(c, s) && Move(s).Some? && Enabled(c, s, Move(s).value) && !s.writer.Stopped?
    requires s.writer.Idle? && s.commands == []
    ensures Less(Do(c, s, Move(s).value), s) && !Do(c, s, Move(s).value).writer.Stopped?
  {
    var a := Move(s).value;
    if a.Submit? {
      SubmitMoves(s);
    } else if ByProducer(a) {
      ProducersTouchOnly(c, s, a);
      if a.SendBarrier? {
        FlushMoves(c, s);
      } else {
        GateMoves(c, s);
      }
    } else if a.Ingest? {
      IngestTouchesOnly(c, s, a.clock);
      IngestMoves(c, s, a.clock);
    } else {
      FlushMoves(c, s);
    }
  }

  lemma MoveLeavesLess(c: Constants, s: State)
    requires Inv(c, s) && Move(s).Some? && Enabled(c, s, Move(s).value) && !s.writer.Stopped?
    ensures Less(Do(c, s, Move(s).value), s) && !Do(c, s, Move(s).value).writer.Stopped?
  {
    if s.writer.Idle? && s.commands == [] {
      UpstreamMoves(c, s);
    } else {
      WriterMoves(c, s);
    }
  }

  // ---------------------------------------------------------------- draining

  /** Steps of the pipeline itself: nothing new is asked for, nobody dies and nothing is closed. */
  predicate Finishes(a: Action) {
    || a.IssueTicket? || a.Send? || a.LeaveGate? || a.SendBarrier? || a.Ingest? || a.Drain? || a.Submit?
    || a.Receive? || a.PersistClean? || a.SettleOne? || a.SettleDone?
  }

  predicate AllFinish(run: seq<Action>) {
    forall i :: 0 <= i < |run| ==> Finishes(run[i])
  }

  lemma OneMove(c: Constants, s: State) returns (a: Action, s': State)
    requires Inv(c, s) && !s.writer.Stopped? && Roomy(c) && Move(s).Some?
    ensures Enabled(c, s, a) && s' == Do(c, s, a) && Finishes(a)
    ensures Inv(c, s') && !s'.writer.Stopped? && Less(s', s)
  {
    a := Move(s).value;
    MoveIsEnabled(c, s);
    MoveLeavesLess(c, s);
    InvKept(c, s, a);
    s' := Do(c, s, a);
  }

  /** `run` finishes everything in flight. */
  ghost predicate Drains(c: Constants, s: State, run: seq<Action>) {
    Legal(c, s, run) && AllFinish(run) && Quiet(Exec(c, s, run)) && !Exec(c, s, run).writer.Stopped?
  }

  lemma {:induction false} AtRest(c: Constants, s: State)
    requires !s.writer.Stopped? && Move(s).None?
    ensures Drains(c, s, [])
  {
  }

  lemma {:induction false} MoveThenDrain(c: Constants, s: State, a: Action, rest: seq<Action>)
    requires Enabled(c, s, a) && Finishes(a) && Drains(c, Do(c, s, a), rest)
    ensures Drains(c, s, [a] + rest)
  {
    assert ([a] + rest)[0] == a && ([a] + rest)[1..] == rest;
  }

  lemma {:induction false} CanDrain(c: Constants, s: State) returns (run: seq<Action>)
    requires Inv(c, s) && !s.writer.Stopped? && Roomy(c)
    ensures Drains(c, s, run)
    decreases GateWork(s.gate), Chunks(s.queue), Unflushed(s), |s.queue|, |s.outbox|, |s.commands|, WriterWork(s.writer)
  {
    if Move(s).None? {
      run := [];
      AtRest(c, s);
    } else {
      var a, s' := OneMove(c, s);
      var rest := CanDrain(c, s');
      run := [a] + rest;
      MoveThenDrain(c, s, a, rest);
    }
  }

  /** Over every run with a living writer there is a way on, by steps of the pipeline alone, to a state in which nothing
      is in flight and every issued ticket is settled: nothing is ever stuck. */
  lemma NothingIsStuck(c: Constants, run: seq<Action>, s: State) returns (more: seq<Action>)
    requires Reached(c, run, s) && !s.writer.Stopped? && Roomy(c)
    ensures Legal(c, s, more) && AllFinish(more)
    ensures
      var s' := Exec(c, s, more);
      Quiet(s') && !s'.writer.Stopped? && s'.book.through == s'.book.issued && s'.book.above == {}
  {
    ReachedInv(c, run, s);
    more := CanDrain(c, s);
    RunKeepsInv(c, s, more);
    RestIsCaughtUp(c, Exec(c, s, more));
  }

  // ---------------------------------------------------------------- a dead writer

  /** The batcher has found its writer gone. */
  predicate GivingUp(s: State) {
    s.writer.Stopped? && (s.batcher.Failing? || s.batcher.Gone?)
  }

  /** Nothing is taken in, stored or settled by a batch any more. */
  predicate NothingMore(s: State, s': State) {
    && s'.archive.rows == s.archive.rows && (s'.entries == s.entries || s'.entries == [])
    && (s'.queue == [] || s.queue <= s'.queue)
  }

  lemma GivingUpLasts(c: Constants, s: State, a: Action)
    requires GivingUp(s) && Enabled(c, s, a)
    ensures GivingUp(Do(c, s, a)) && NothingMore(s, Do(c, s, a))
  {
    if ByWriter(a) {
      WriterTouchesOnly(c, s, a);
    } else if ByProducer(a) {
      ProducersTouchOnly(c, s, a);
    }
  }

  lemma {:induction false} GivingUpForGood(c: Constants, s: State, run: seq<Action>)
    requires GivingUp(s) && Legal(c, s, run)
    ensures GivingUp(Exec(c, s, run))
    ensures Exec(c, s, run).archive.rows == s.archive.rows
    ensures Exec(c, s, run).entries in {s.entries, []}
    decreases |run|
  {
    if run != [] {
      GivingUpLasts(c, s, run[0]);
      GivingUpForGood(c, Do(c, s, run[0]), run[1..]);
    }
  }

  /** The first command lost to a dead writer ends the batching: whatever happens afterwards, the batcher takes in
      no further message and no further row is stored. */
  lemma LossEndsBatching(c: Constants, s: State, run: seq<Action>)
    requires s.writer.Stopped? && Enabled(c, s, Submit) && Legal(c, Do(c, s, Submit), run)
    ensures
      var s' := Exec(c, Do(c, s, Submit), run);
      GivingUp(s') && s'.archive.rows == s.archive.rows && s'.entries in {s.entries, []}
  {
    GivingUpForGood(c, Do(c, s, Submit), run);
  }
}
