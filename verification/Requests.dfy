/** The books every request keeps: what was admitted, and where its answer comes from. */
module Requests {
  import opened Ledger
  import opened InsertBatching
  import opened Handler
  import opened Protocol
  import opened Conservation
  import opened Steps
  import opened Soundness
  import opened Publishing
  import opened Readings

  /** The outcome lists its tickets in order of issue, with the sizes that were sent. */
  predicate Recorded(s: State, o: EnqueueOutcome) {
    && (forall a :: a in o.tickets ==> a.ticket in s.sizes && s.sizes[a.ticket] == a.records)
    && (forall i, j :: 0 <= i < j < |o.tickets| ==> o.tickets[i].ticket < o.tickets[j].ticket)
    && o.accepted == SumRecords(o.tickets)
    && o.last == (if o.tickets == [] then None else Some(o.tickets[|o.tickets| - 1].ticket))
  }

  /** Every record of the request was either accepted or rejected. */
  predicate Balanced(o: EnqueueOutcome) {
    o.accepted + o.rejected == o.total
  }

  predicate AllFinal(s: State, o: EnqueueOutcome) {
    forall a :: a in o.tickets ==> Final(s, a.ticket)
  }

  predicate RequestOk(c: Constants, s: State, r: Request) {
    && Recorded(s, r.outcome)
    && match r
       case Waiting(o) => Balanced(o)
       case Reading(o, next, committed, anyFailed) =>
         && Balanced(o) && MustWait(o, c.mode) && AllFinal(s, o) && next <= |o.tickets|
         && committed == Credits(s.book, o.tickets[..next]) && anyFailed == AnyFailed(s.book, o.tickets[..next])
       case Answered(o, answer) =>
         if answer.InvalidArgument? then o == NewOutcome(o.total)
         else if MustWait(o, c.mode) then
           && Balanced(o) && AllFinal(s, o)
           && answer == AnswerFrom(o, Credits(s.book, o.tickets), AnyFailed(s.book, o.tickets))
         else Balanced(o) && answer == AnswerAtOnce(o)
  }

  /** The request in the gate: what it accepted so far and what it still has to send make up its total. */
  predicate GateOk(s: State) {
    s.gate.Taken? ==>
      var o := s.gate.outcome;
      && Recorded(s, o) && o.rejected == 0 && !o.disconnected && o.accepted + SumSizes(s.gate.todo) == o.total
      && s.gate.rid !in s.requests
  }

  predicate RequestsOk(c: Constants, s: State) {
    GateOk(s) && forall rid :: rid in s.requests ==> RequestOk(c, s, s.requests[rid])
  }

  // ---------------------------------------------------------------- requests nobody acts on

  predicate Grows(sizes: map<nat, nat>, sizes': map<nat, nat>) {
    forall t :: t in sizes ==> t in sizes' && sizes'[t] == sizes[t]
  }

  lemma {:induction false} CreditsStay(b: Book, b': Book, tickets: seq<Accepted>)
    requires forall a :: a in tickets ==> Credit(Ledger.State(b', a.ticket), a.records) == Credit(Ledger.State(b, a.ticket), a.records)
    ensures Credits(b', tickets) == Credits(b, tickets)
  {
    if tickets != [] {
      assert tickets[|tickets| - 1] in tickets;
      CreditsStay(b, b', tickets[..|tickets| - 1]);
    }
  }

  lemma AnyFailedStays(b: Book, b': Book, tickets: seq<Accepted>)
    requires forall a :: a in tickets ==> (Ledger.State(b', a.ticket).Failed? <==> Ledger.State(b, a.ticket).Failed?)
    ensures AnyFailed(b', tickets) == AnyFailed(b, tickets)
  {
    assert forall i :: 0 <= i < |tickets| ==> tickets[i] in tickets;
  }

  /** The readings of all tickets of an outcome are what they were. */
  predicate SameReadings(s: State, s': State, o: EnqueueOutcome) {
    forall a :: a in o.tickets ==> SameReading(s, s', a.ticket) && Final(s', a.ticket)
  }

  lemma PrefixReadings(s: State, s': State, o: EnqueueOutcome, k: nat)
    requires Recorded(s, o) && SameReadings(s, s', o) && k <= |o.tickets|
    ensures Credits(s'.book, o.tickets[..k]) == Credits(s.book, o.tickets[..k])
    ensures AnyFailed(s'.book, o.tickets[..k]) == AnyFailed(s.book, o.tickets[..k])
  {
    assert forall a :: a in o.tickets[..k] ==> a in o.tickets;
    CreditsStay(s.book, s'.book, o.tickets[..k]);
    AnyFailedStays(s.book, s'.book, o.tickets[..k]);
  }

  lemma RequestStays(c: Constants, s: State, s': State, r: Request)
    requires RequestOk(c, s, r) && Grows(s.sizes, s'.sizes)
    requires AllFinal(s, r.outcome) ==> SameReadings(s, s', r.outcome)
    ensures RequestOk(c, s', r)
  {
    var o := r.outcome;
    if AllFinal(s, o) {
      PrefixReadings(s, s', o, |o.tickets|);
      assert o.tickets[..|o.tickets|] == o.tickets;
      if r.Reading? {
        PrefixReadings(s, s', o, r.next);
      }
    }
  }

  lemma SizesGrow(c: Constants, s: State, a: Action)
    requires SoundTickets(s) && Enabled(c, s, a)
    ensures Grows(s.sizes, Do(c, s, a).sizes)
  {
    if a.Send? {
      assert Hand(s) == s.gate.hand;
    } else if ByBatcher(a) {
      BatcherTouchesNoRequest(c, s, a);
    } else if ByWriter(a) {
      WriterTouchesOnly(c, s, a);
    }
  }

  lemma OthersStay(c: Constants, s: State, a: Action, r: Request)
    requires Core(s) && SoundTickets(s) && Enabled(c, s, a) && RequestOk(c, s, r)
    ensures RequestOk(c, Do(c, s, a), r)
  {
    var s' := Do(c, s, a);
    SizesGrow(c, s, a);
    if AllFinal(s, r.outcome) {
      forall x | x in r.outcome.tickets ensures SameReading(s, s', x.ticket) && Final(s', x.ticket) {
        ReadingStays(c, s, a, x.ticket);
      }
    }
    RequestStays(c, s, s', r);
  }

  // ---------------------------------------------------------------- admission

  lemma {:induction false} SumRecordsSnoc(tickets: seq<Accepted>, a: Accepted)
    ensures SumRecords(tickets + [a]) == SumRecords(tickets) + a.records
  {
    if tickets == [] {
      assert [] + [a] == [a];
    } else {
      SumRecordsSnoc(tickets[1..], a);
      assert (tickets + [a])[1..] == tickets[1..] + [a];
    }
  }

  /** The outcome after one more accepted chunk. */
  lemma AcceptedIsRecorded(s: State, o: EnqueueOutcome, t: nat, n: nat, s': State, o': EnqueueOutcome)
    requires Recorded(s, o) && t !in s.sizes && s'.sizes == s.sizes[t := n]
    requires forall u :: u in s.sizes ==> u < t
    requires o' == o.(accepted := o.accepted + n, last := Some(t), tickets := o.tickets + [Accepted(t, n)])
    ensures Recorded(s', o')
  {
    SumRecordsSnoc(o.tickets, Accepted(t, n));
    forall i, j | 0 <= i < j < |o'.tickets| ensures o'.tickets[i].ticket < o'.tickets[j].ticket {
      assert o.tickets[i] in o.tickets;
    }
  }

  lemma {:induction false} HandIsLatest(s: State, u: nat)
    requires SoundTickets(s) && Hand(s).Some? && u in s.sizes
    ensures u < Hand(s).value
  {
  }

  lemma SendKeepsGate(c: Constants, s: State)
    requires GateOk(s) && SoundTickets(s) && s.gate.Taken? && s.gate.hand.Some? && s.gate.todo != []
    ensures GateOk(DoSend(c, s))
  {
    var s', t := DoSend(c, s), s.gate.hand.value;
    assert Hand(s) == Some(t);
    if s'.gate.Taken? {
      forall u | u in s.sizes ensures u < t {
        HandIsLatest(s, u);
      }
      AcceptedIsRecorded(s, s.gate.outcome, t, s.gate.todo[0].size, s', s'.gate.outcome);
    }
  }

  lemma GateKept(c: Constants, s: State, a: Action)
    requires GateOk(s) && SoundTickets(s) && Enabled(c, s, a)
    ensures GateOk(Do(c, s, a))
  {
    if a.Send? {
      SendKeepsGate(c, s);
    } else if ByBatcher(a) {
      BatcherTouchesNoRequest(c, s, a);
    } else if ByWriter(a) {
      WriterTouchesOnly(c, s, a);
    } else if !ByProducer(a) {
      HandlersTouchNoPipe(c, s, a);
      HandlersAddNoRequest(c, s, a);
    }
  }

  lemma HandlersAddNoRequest(c: Constants, s: State, a: Action)
    requires Enabled(c, s, a) && !ByProducer(a) && !ByBatcher(a) && !ByWriter(a)
    ensures Do(c, s, a).requests.Keys == s.requests.Keys
  {
  }

  lemma BatcherTouchesNoRequest(c: Constants, s: State, a: Action)
    requires Enabled(c, s, a) && ByBatcher(a)
    ensures
      var s' := Do(c, s, a);
      s'.gate == s.gate && s'.sizes == s.sizes && s'.requests == s.requests
  {
    if a.Ingest? {
      IngestTouchesOnly(c, s, a.clock);
    }
  }

  /** A refused send: everything not accepted is rejected. */
  lemma {:induction false} RefusedIsBalanced(s: State, s': State, o: EnqueueOutcome, todo: seq<ChunkSpec>, disconnected: bool)
    requires Recorded(s, o) && s'.sizes == s.sizes && o.rejected == 0 && o.accepted + SumSizes(todo) == o.total
    ensures Recorded(s', Refused(o, disconnected)) && Balanced(Refused(o, disconnected))
  {
  }

  // ---------------------------------------------------------------- the request acted on

  lemma LastBounds(o: EnqueueOutcome, a: Accepted)
    requires forall i, j :: 0 <= i < j < |o.tickets| ==> o.tickets[i].ticket < o.tickets[j].ticket
    requires a in o.tickets
    ensures a.ticket <= o.tickets[|o.tickets| - 1].ticket
  {
  }

  /** A handler is released exactly when the published watermark covers every ticket of its request, or is the last one. */
  lemma CoversIsAll(s: State, w: Watermark, o: EnqueueOutcome)
    requires Recorded(s, o)
    ensures Covers(w, o) <==> w.closed || forall a :: a in o.tickets ==> a.ticket <= w.through
  {
    if o.tickets != [] {
      assert o.tickets[|o.tickets| - 1] in o.tickets;
      forall a | a in o.tickets ensures a.ticket <= o.tickets[|o.tickets| - 1].ticket {
        LastBounds(o, a);
      }
    }
  }

  /** The release of a waiting handler: all its tickets are final. */
  lemma ReleaseIsFinal(s: State, o: EnqueueOutcome)
    requires Marks(s) && Recorded(s, o) && Covers(s.published, o)
    ensures AllFinal(s, o)
  {
    if !s.published.closed {
      forall a | a in o.tickets ensures IsSettled(s.book, a.ticket) {
        LastBounds(o, a);
      }
    }
  }

  /** What is true of a request depends on the ledger, the sizes and the writer only. */
  lemma SameBooks(c: Constants, s: State, s': State, r: Request)
    requires RequestOk(c, s, r) && s'.book == s.book && s'.sizes == s.sizes && s'.writer == s.writer
    ensures RequestOk(c, s', r)
  {
  }

  lemma ReadIsOk(c: Constants, s: State, r: Request)
    requires r.Reading? && r.next < |r.outcome.tickets| && RequestOk(c, s, r)
    ensures
      var a := r.outcome.tickets[r.next];
      var st := Ledger.State(s.book, a.ticket);
      RequestOk(c, s, Reading(r.outcome, r.next + 1, r.committed + Credit(st, a.records), r.anyFailed || st.Failed?))
  {
    AnyFailedSnoc(s.book, r.outcome.tickets, r.next);
    assert r.outcome.tickets[..r.next + 1][..r.next] == r.outcome.tickets[..r.next];
  }

  lemma ReleaseIsOk(c: Constants, s: State, o: EnqueueOutcome)
    requires Marks(s) && RequestOk(c, s, Waiting(o)) && MustWait(o, c.mode) && Covers(s.published, o)
    ensures RequestOk(c, s, Reading(o, 0, 0, false))
  {
    ReleaseIsFinal(s, o);
  }

  lemma AnswerIsOk(c: Constants, s: State, r: Request)
    requires r.Reading? && r.next == |r.outcome.tickets| && RequestOk(c, s, r)
    ensures RequestOk(c, s, Answered(r.outcome, AnswerFrom(r.outcome, r.committed, r.anyFailed)))
  {
    assert r.outcome.tickets[..r.next] == r.outcome.tickets;
  }

  /** A request replaced by one that is true of the same books. */
  lemma ReplacedIsOk(c: Constants, s: State, rid: nat, r: Request)
    requires RequestOk(c, s, r)
    ensures
      var s' := s.(requests := s.requests[rid := r]);
      RequestOk(c, s', s'.requests[rid])
  {
    SameBooks(c, s, s.(requests := s.requests[rid := r]), r);
  }

  lemma AnswerNowKeeps(c: Constants, s: State, rid: nat)
    requires rid in s.requests && s.requests[rid].Waiting? && !MustWait(s.requests[rid].outcome, c.mode)
    requires RequestOk(c, s, s.requests[rid])
    ensures RequestOk(c, s, Answered(s.requests[rid].outcome, AnswerAtOnce(s.requests[rid].outcome)))
  {
  }

  lemma HandlersKeepRequest(c: Constants, s: State, a: Action)
    requires Marks(s) && Enabled(c, s, a) && ByHandler(a) && RequestOk(c, s, s.requests[a.rid])
    ensures RequestOk(c, Do(c, s, a), Do(c, s, a).requests[a.rid])
  {
    var r := s.requests[a.rid];
    match a {
      case AnswerNow(rid) =>
        AnswerNowKeeps(c, s, rid);
        ReplacedIsOk(c, s, rid, Answered(r.outcome, AnswerAtOnce(r.outcome)));
      case Release(rid) =>
        ReleaseIsOk(c, s, r.outcome);
        ReplacedIsOk(c, s, rid, Reading(r.outcome, 0, 0, false));
      case ReadState(rid) =>
        ReadIsOk(c, s, r);
        ReplacedIsOk(c, s, rid, DoRead(s, rid).requests[rid]);
      case AnswerFinally(rid) =>
        AnswerIsOk(c, s, r);
        ReplacedIsOk(c, s, rid, Answered(r.outcome, AnswerFrom(r.outcome, r.committed, r.anyFailed)));
    }
  }

  /** The request an action writes, if any. */
  function Touched(c: Constants, s: State, a: Action): Option<nat>
    requires s.gate.Taken? || !(a.Send? || a.LeaveGate?)
  {
    match a
    case Reserve(rid, _) => Some(rid)
    case Send => Some(s.gate.rid)
    case LeaveGate => Some(s.gate.rid)
    case AnswerNow(rid) => Some(rid)
    case Release(rid) => Some(rid)
    case ReadState(rid) => Some(rid)
    case AnswerFinally(rid) => Some(rid)
    case _ => None
  }

  lemma UntouchedStays(c: Constants, s: State, a: Action, rid: nat)
    requires Enabled(c, s, a) && rid in Do(c, s, a).requests && Touched(c, s, a) != Some(rid)
    ensures rid in s.requests && Do(c, s, a).requests[rid] == s.requests[rid]
  {
    if ByBatcher(a) {
      BatcherTouchesNoRequest(c, s, a);
    } else if ByWriter(a) {
      WriterTouchesOnly(c, s, a);
    }
  }

  lemma ProducersKeepRequest(c: Constants, s: State, a: Action, rid: nat)
    requires GateOk(s) && SoundTickets(s) && Enabled(c, s, a) && ByProducer(a)
    requires Touched(c, s, a) == Some(rid) && rid in Do(c, s, a).requests
    ensures rid !in s.requests && RequestOk(c, Do(c, s, a), Do(c, s, a).requests[rid])
  {
    match a {
      case Reserve(_, chunks) => ReserveKeepsRequest(c, s, rid, chunks);
      case Send => SendKeepsRequest(c, s);
      case LeaveGate => LeaveKeepsRequest(c, s);
    }
  }

  lemma ReserveKeepsRequest(c: Constants, s: State, rid: nat, chunks: seq<ChunkSpec>)
    requires rid !in s.requests && rid in DoReserve(c, s, rid, chunks).requests
    ensures RequestOk(c, DoReserve(c, s, rid, chunks), DoReserve(c, s, rid, chunks).requests[rid])
  {
  }

  lemma SendKeepsRequest(c: Constants, s: State)
    requires GateOk(s) && s.gate.Taken? && s.gate.hand.Some? && s.gate.todo != []
    requires s.gate.rid in DoSend(c, s).requests
    ensures RequestOk(c, DoSend(c, s), DoSend(c, s).requests[s.gate.rid])
  {
    RefusedIsBalanced(s, DoSend(c, s), s.gate.outcome, s.gate.todo, s.batcher.Gone?);
  }

  lemma LeaveKeepsRequest(c: Constants, s: State)
    requires GateOk(s) && s.gate.Taken? && s.gate.todo == []
    ensures RequestOk(c, DoLeaveGate(s), DoLeaveGate(s).requests[s.gate.rid])
  {
  }

  lemma RequestKept(c: Constants, s: State, a: Action, rid: nat)
    requires Core(s) && SoundTickets(s) && Marks(s) && RequestsOk(c, s) && Enabled(c, s, a)
    requires rid in Do(c, s, a).requests
    ensures RequestOk(c, Do(c, s, a), Do(c, s, a).requests[rid])
  {
    if Touched(c, s, a) != Some(rid) {
      UntouchedStays(c, s, a, rid);
      OthersStay(c, s, a, s.requests[rid]);
    } else if ByProducer(a) {
      ProducersKeepRequest(c, s, a, rid);
    } else {
      HandlersKeepRequest(c, s, a);
    }
  }

  /** Every action keeps the books of every request. */
  lemma RequestsKept(c: Constants, s: State, a: Action)
    requires Core(s) && SoundTickets(s) && Marks(s) && RequestsOk(c, s) && Enabled(c, s, a)
    ensures RequestsOk(c, Do(c, s, a))
  {
    GateKept(c, s, a);
    forall rid | rid in Do(c, s, a).requests ensures RequestOk(c, Do(c, s, a), Do(c, s, a).requests[rid]) {
      RequestKept(c, s, a, rid);
    }
  }

  /** An answer is given once. */
  lemma AnswerStays(c: Constants, s: State, a: Action, rid: nat)
    requires GateOk(s) && Enabled(c, s, a) && rid in s.requests && s.requests[rid].Answered?
    ensures rid in Do(c, s, a).requests && Do(c, s, a).requests[rid] == s.requests[rid]
  {
    if ByBatcher(a) {
      BatcherTouchesNoRequest(c, s, a);
    } else if ByWriter(a) {
      WriterTouchesOnly(c, s, a);
    }
  }
}
