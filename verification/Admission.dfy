/** All-or-nothing admission: the gate, the bounded queue and the hand-off of a request's chunks. */
module Admission {
  import opened Ledger
  import opened InsertBatching
  import opened Handler
  import opened Protocol
  import opened Conservation
  import opened Steps
  import opened Soundness
  import opened Requests

  // ---------------------------------------------------------------- over every interleaving

  /** The gate holder has a free slot for every chunk it has not sent yet, and a chunk for the ticket in its hand. */
  predicate RoomLeft(c: Constants, s: State) {
    && |s.queue| + (if s.gate.Taken? then |s.gate.todo| else 0) <= c.capacity
    && (s.gate.Taken? && s.gate.hand.Some? ==> s.gate.todo != [])
  }

  /** A reserved send never finds the queue full; only a vanished batcher can refuse it. */
  lemma ReservedSendFits(c: Constants, s: State)
    requires RoomLeft(c, s) && s.gate.Taken? && s.gate.hand.Some? && s.gate.todo != [] && !s.batcher.Gone?
    ensures |DoSend(c, s).queue| == |s.queue| + 1 && DoSend(c, s).gate.Taken?
  {
  }

  lemma RoomKept(c: Constants, s: State, a: Action)
    requires RoomLeft(c, s) && Enabled(c, s, a)
    ensures RoomLeft(c, Do(c, s, a))
  {
    if ByBatcher(a) {
      BatcherTouchesNoRequest(c, s, a);
      QueueShrinks(c, s, a);
    } else if ByWriter(a) {
      WriterTouchesOnly(c, s, a);
    } else if !ByProducer(a) {
      HandlersTouchNoPipe(c, s, a);
    }
  }

  lemma QueueShrinks(c: Constants, s: State, a: Action)
    requires Enabled(c, s, a) && ByBatcher(a)
    ensures |Do(c, s, a).queue| <= |s.queue|
  {
    if a.Ingest? {
      IngestTouchesOnly(c, s, a.clock);
    }
  }

  predicate Of(x: Sent, rid: nat) {
    x.SentChunk? && x.rid == rid
  }

  /** The chunks of one request are next to each other. */
  predicate Contiguous(sends: seq<Sent>) {
    forall i, j, k :: 0 <= i < j < k < |sends| && sends[i].SentChunk? && Of(sends[k], sends[i].rid) ==>
      Of(sends[j], sends[i].rid)
  }

  predicate Increasing(sends: seq<Sent>) {
    forall i, k :: 0 <= i < k < |sends| && sends[i].SentChunk? && sends[k].SentChunk? ==> sends[i].ticket < sends[k].ticket
  }

  /** Once the gate holder has sent something, nobody else sends. */
  predicate HolderLast(s: State) {
    forall i, j :: 0 <= i < j < |s.sends| && s.gate.Taken? && Of(s.sends[i], s.gate.rid) ==> Of(s.sends[j], s.gate.rid)
  }

  ghost predicate SendsOk(s: State) {
    && Contiguous(s.sends) && Increasing(s.sends) && HolderLast(s)
    && (forall x :: x in s.sends && x.SentChunk? ==>
          x.ticket in s.sizes && (x.rid in s.requests || (s.gate.Taken? && s.gate.rid == x.rid)))
  }

  lemma {:induction false} SendKeepsSends(s: State, s': State, t: nat)
    requires SendsOk(s) && SoundTickets(s) && s.gate.Taken? && Hand(s) == Some(t)
    requires s'.gate.Taken? && s'.gate.rid == s.gate.rid && s'.requests == s.requests
    requires t in s'.sizes && Grows(s.sizes, s'.sizes) && s'.sends == s.sends + [SentChunk(s.gate.rid, t)]
    requires s.gate.rid !in s.requests
    ensures SendsOk(s')
  {
    forall i | 0 <= i < |s.sends| && s.sends[i].SentChunk? ensures s.sends[i].ticket < t {
      assert s.sends[i] in s.sends;
      HandIsLatest(s, s.sends[i].ticket);
    }
  }

  lemma BarrierKeepsSends(s: State, s': State)
    requires SendsOk(s) && s.gate.Open? && s'.gate.Open? && s'.requests == s.requests && s'.sizes == s.sizes
    requires s'.sends == s.sends + [SentBarrier]
    ensures SendsOk(s')
  {
  }

  /** Taking or leaving the gate, and everything that is not a send. */
  lemma NoSendKeepsSends(s: State, s': State)
    requires SendsOk(s) && s'.sends == s.sends && s.requests.Keys <= s'.requests.Keys && Grows(s.sizes, s'.sizes)
    requires s'.gate.Taken? ==> (s.gate.Taken? && s'.gate.rid == s.gate.rid) || (s.gate.Open? && s'.gate.rid !in s.requests)
    requires s.gate.Taken? && s'.gate.Open? ==> s.gate.rid in s'.requests
    ensures SendsOk(s')
  {
    if s'.gate.Taken? && s.gate.Open? {
      forall i | 0 <= i < |s.sends| ensures !Of(s.sends[i], s'.gate.rid) {
        assert s.sends[i] in s.sends;
      }
    }
  }

  lemma ProducersKeepSends(c: Constants, s: State, a: Action)
    requires SendsOk(s) && SoundTickets(s) && GateOk(s) && Enabled(c, s, a) && ByProducer(a)
    ensures SendsOk(Do(c, s, a))
  {
    var s' := Do(c, s, a);
    SizesGrow(c, s, a);
    if a.Send? && !(s.batcher.Gone? || c.capacity <= |s.queue|) {
      SendKeepsSends(s, s', s.gate.hand.value);
    } else if a.SendBarrier? {
      BarrierKeepsSends(s, s');
    } else {
      NoSendKeepsSends(s, s');
    }
  }

  lemma SendsKept(c: Constants, s: State, a: Action)
    requires SendsOk(s) && SoundTickets(s) && GateOk(s) && Enabled(c, s, a)
    ensures SendsOk(Do(c, s, a))
  {
    if ByProducer(a) {
      ProducersKeepSends(c, s, a);
    } else {
      if ByBatcher(a) {
        BatcherTouchesNoRequest(c, s, a);
        BatcherSendsNothing(c, s, a);
      } else if ByWriter(a) {
        WriterTouchesOnly(c, s, a);
      } else {
        HandlersTouchNoPipe(c, s, a);
        HandlersAddNoRequest(c, s, a);
      }
      NoSendKeepsSends(s, Do(c, s, a));
    }
  }

  lemma BatcherSendsNothing(c: Constants, s: State, a: Action)
    requires Enabled(c, s, a) && ByBatcher(a)
    ensures Do(c, s, a).sends == s.sends
  {
    if a.Ingest? {
      match s.queue[0] {
        case Logs(_, t, n) => if n == 0 && IsSettled(s.book, t) {}
        case Barrier(_) =>
      }
    }
  }

  // ---------------------------------------------------------------- whose tickets

  /** The tickets of the chunks a request sent, in order. */
  function SentBy(sends: seq<Sent>, rid: nat): seq<nat> {
    if sends == [] then []
    else
      var last := sends[|sends| - 1];
      SentBy(sends[..|sends| - 1], rid) + if Of(last, rid) then [last.ticket] else []
  }

  lemma {:induction false} SentBySnoc(sends: seq<Sent>, x: Sent, rid: nat)
    ensures SentBy(sends + [x], rid) == SentBy(sends, rid) + if Of(x, rid) then [x.ticket] else []
  {
    assert (sends + [x])[..|sends|] == sends;
  }

  lemma {:induction false} SentByNobody(sends: seq<Sent>, rid: nat)
    requires forall x :: x in sends ==> !Of(x, rid)
    ensures SentBy(sends, rid) == []
  {
    if sends != [] {
      assert sends[|sends| - 1] in sends;
      SentByNobody(sends[..|sends| - 1], rid);
    }
  }

  function Names(tickets: seq<Accepted>): (r: seq<nat>)
    ensures |r| == |tickets| && forall i :: 0 <= i < |r| ==> r[i] == tickets[i].ticket
  {
    seq(|tickets|, i requires 0 <= i < |tickets| => tickets[i].ticket)
  }

  /** An outcome lists the tickets of the chunks its own request sent. */
  predicate Owns(s: State, rid: nat, o: EnqueueOutcome) {
    Names(o.tickets) == SentBy(s.sends, rid)
  }

  predicate OwnTickets(s: State) {
    && (s.gate.Taken? ==> Owns(s, s.gate.rid, s.gate.outcome))
    && (forall rid :: rid in s.requests ==> Owns(s, rid, s.requests[rid].outcome))
  }

  lemma DeliveryKeepsOwn(s: State, s': State, t: nat, n: nat)
    requires OwnTickets(s) && s.gate.Taken? && s.gate.rid !in s.requests && s'.requests == s.requests
    requires s'.gate.Taken? && s'.gate.rid == s.gate.rid && s'.gate.outcome.tickets == s.gate.outcome.tickets + [Accepted(t, n)]
    requires s'.sends == s.sends + [SentChunk(s.gate.rid, t)]
    ensures OwnTickets(s')
  {
    var x := SentChunk(s.gate.rid, t);
    SentBySnoc(s.sends, x, s.gate.rid);
    assert Names(s'.gate.outcome.tickets) == Names(s.gate.outcome.tickets) + [t];
    forall rid | rid in s'.requests ensures Owns(s', rid, s'.requests[rid].outcome) {
      SentBySnoc(s.sends, x, rid);
      assert SentBy(s.sends, rid) + [] == SentBy(s.sends, rid);
    }
  }

  lemma SendKeepsOwn(c: Constants, s: State)
    requires OwnTickets(s) && GateOk(s) && s.gate.Taken? && s.gate.hand.Some? && s.gate.todo != []
    ensures OwnTickets(DoSend(c, s))
  {
    var s' := DoSend(c, s);
    if s'.gate.Taken? {
      DeliveryKeepsOwn(s, s', s.gate.hand.value, s.gate.todo[0].size);
    } else {
      NoSendKeepsOwn(s, s');
    }
  }

  lemma ReserveKeepsOwn(c: Constants, s: State, rid: nat, chunks: seq<ChunkSpec>)
    requires OwnTickets(s) && SendsOk(s) && s.gate.Open? && rid !in s.requests
    ensures OwnTickets(DoReserve(c, s, rid, chunks))
  {
    SentByNobody(s.sends, rid);
    assert Names([]) == [];
  }

  lemma BarrierKeepsOwn(s: State, s': State)
    requires OwnTickets(s) && s.gate.Open? && s'.gate.Open? && s'.requests == s.requests
    requires s'.sends == s.sends + [SentBarrier]
    ensures OwnTickets(s')
  {
    forall rid | rid in s'.requests ensures Owns(s', rid, s'.requests[rid].outcome) {
      SentBySnoc(s.sends, SentBarrier, rid);
    }
  }

  /** Actions that send nothing and give no request other tickets. */
  lemma NoSendKeepsOwn(s: State, s': State)
    requires OwnTickets(s) && s'.sends == s.sends
    requires s'.gate.Taken? ==> s.gate.Taken? && s'.gate.rid == s.gate.rid && s'.gate.outcome == s.gate.outcome
    requires forall rid :: rid in s'.requests ==>
               || (rid in s.requests && s'.requests[rid].outcome == s.requests[rid].outcome)
               || (s.gate.Taken? && s.gate.rid == rid && s'.requests[rid].outcome.tickets == s.gate.outcome.tickets)
    ensures OwnTickets(s')
  {
  }

  lemma OutcomesStay(c: Constants, s: State, a: Action, rid: nat)
    requires Enabled(c, s, a) && !ByProducer(a) && rid in Do(c, s, a).requests
    ensures rid in s.requests && Do(c, s, a).requests[rid].outcome == s.requests[rid].outcome
  {
    if ByBatcher(a) {
      BatcherTouchesNoRequest(c, s, a);
    } else if ByWriter(a) {
      WriterTouchesOnly(c, s, a);
    }
  }

  lemma OwnKept(c: Constants, s: State, a: Action)
    requires OwnTickets(s) && SendsOk(s) && GateOk(s) && Enabled(c, s, a)
    ensures OwnTickets(Do(c, s, a))
  {
    var s' := Do(c, s, a);
    if ByProducer(a) {
      match a {
        case Send => SendKeepsOwn(c, s);
        case Reserve(rid, chunks) => ReserveKeepsOwn(c, s, rid, chunks);
        case SendBarrier => BarrierKeepsOwn(s, s');
        case IssueTicket => NoSendKeepsOwn(s, s');
        case LeaveGate => NoSendKeepsOwn(s, s');
        case CloseInput => NoSendKeepsOwn(s, s');
      }
    } else {
      OthersKeepOwn(c, s, a);
    }
  }

  lemma OthersKeepOwn(c: Constants, s: State, a: Action)
    requires OwnTickets(s) && Enabled(c, s, a) && !ByProducer(a)
    ensures OwnTickets(Do(c, s, a))
  {
    if ByBatcher(a) {
      BatcherTouchesNoRequest(c, s, a);
      BatcherSendsNothing(c, s, a);
    } else if ByWriter(a) {
      WriterTouchesOnly(c, s, a);
    } else {
      HandlersTouchNoPipe(c, s, a);
    }
    forall rid | rid in Do(c, s, a).requests
      ensures rid in s.requests && Do(c, s, a).requests[rid].outcome == s.requests[rid].outcome
    {
      OutcomesStay(c, s, a, rid);
    }
    NoSendKeepsOwn(s, Do(c, s, a));
  }

  lemma {:induction false} SentByHas(sends: seq<Sent>, rid: nat, t: nat) returns (i: nat)
    requires t in SentBy(sends, rid)
    ensures i < |sends| && sends[i] == SentChunk(rid, t)
  {
    var n := |sends| - 1;
    if sends[n] == SentChunk(rid, t) {
      i := n;
    } else {
      i := SentByHas(sends[..n], rid, t);
    }
  }

  /** No two requests share a ticket. */
  lemma {:induction false} TicketsAreOwn(sends: seq<Sent>, rid: nat, rid': nat, t: nat)
    requires Increasing(sends) && t in SentBy(sends, rid) && t in SentBy(sends, rid')
    ensures rid == rid'
  {
    var i := SentByHas(sends, rid, t);
    var j := SentByHas(sends, rid', t);
  }

  /** Admitted whole, refused whole, or cut short because the pipeline died. */
  predicate WholeOrDead(s: State, o: EnqueueOutcome) {
    && (o.rejected == 0 || o.tickets == [] || o.disconnected)
    && (o.disconnected ==> s.writer.Stopped?)
  }

  predicate AdmissionsWhole(s: State) {
    forall rid :: rid in s.requests ==> WholeOrDead(s, s.requests[rid].outcome)
  }

  lemma RefusalIsDeath(c: Constants, s: State)
    requires RoomLeft(c, s) && SoundPhases(s) && s.gate.Taken? && s.gate.hand.Some? && s.gate.todo != []
    requires DoSend(c, s).gate.Open?
    ensures s.writer.Stopped? && DoSend(c, s).requests == s.requests[s.gate.rid := Waiting(Refused(s.gate.outcome, true))]
  {
  }

  lemma WholenessKept(c: Constants, s: State, a: Action, rid: nat)
    requires AdmissionsWhole(s) && RoomLeft(c, s) && SoundPhases(s) && GateOk(s) && Enabled(c, s, a)
    requires rid in Do(c, s, a).requests
    ensures WholeOrDead(Do(c, s, a), Do(c, s, a).requests[rid].outcome)
  {
    if s.writer.Stopped? {
      StoppedStays(c, s, a);
    }
    if Touched(c, s, a) != Some(rid) {
      UntouchedStays(c, s, a, rid);
    } else if a.Send? {
      RefusalIsDeath(c, s);
    }
  }

  lemma StoppedStays(c: Constants, s: State, a: Action)
    requires Enabled(c, s, a) && s.writer.Stopped?
    ensures Do(c, s, a).writer.Stopped?
  {
    if a.Ingest? {
      IngestTouchesOnly(c, s, a.clock);
    }
  }

  // ---------------------------------------------------------------- the hand-off itself

  datatype SendResult = Delivered | Full | Disconnected

  /** A queue after its consumer took up to `n` messages. */
  function Dropped(q: seq<Message>, n: nat): seq<Message> {
    if n <= |q| then q[n..] else []
  }

  /** The bounded channel between the handlers and the batcher. */
  class IngestSender {
    const capacity: nat
    var queue: seq<Message>
    ghost var sent: seq<Message>

    /** First in, first out: the queue is the end of everything ever sent. */
    ghost predicate Valid()
      reads this
    {
      |queue| <= capacity && |queue| <= |sent| && queue == sent[|sent| - |queue|..]
    }

    constructor (capacity: nat)
      ensures Valid() && queue == [] && sent == [] && this.capacity == capacity
    {
      this.capacity := capacity;
      queue, sent := [], [];
    }

    /** The consumer takes up to `n` messages. */
    method Drained(n: nat)
      requires Valid()
      modifies this`queue
      ensures Valid() && queue == Dropped(old(queue), n)
    {
      queue := if n <= |queue| then queue[n..] else [];
    }

    method TrySend(m: Message, gone: bool) returns (r: SendResult)
      requires Valid()
      modifies this`queue, this`sent
      ensures Valid()
      ensures r == if gone then Disconnected else if capacity <= old(|queue|) then Full else Delivered
      ensures sent == old(sent) + (if r.Delivered? then [m] else [])
      ensures queue == old(queue) + (if r.Delivered? then [m] else [])
    {
      if gone {
        return Disconnected;
      }
      if capacity <= |queue| {
        return Full;
      }
      queue, sent := queue + [m], sent + [m];
      r := Delivered;
    }
  }

  function Stamped(work: seq<ChunkSpec>, first: nat): (r: seq<Message>)
    ensures |r| == |work|
    ensures forall i :: 0 <= i < |r| ==> r[i] == Logs(work[i].origin, first + i, work[i].size)
  {
    seq(|work|, i requires 0 <= i < |work| => Logs(work[i].origin, first + i, work[i].size))
  }

  function Tickets(work: seq<ChunkSpec>, first: nat): (r: seq<Accepted>)
    ensures |r| == |work|
    ensures forall i :: 0 <= i < |r| ==> r[i] == Accepted(first + i, work[i].size)
  {
    seq(|work|, i requires 0 <= i < |work| => Accepted(first + i, work[i].size))
  }

  predicate AllThere(gone: nat -> bool, k: nat) {
    forall i: nat :: i < k ==> !gone(i)
  }

  lemma StillThere(gone: nat -> bool, k: nat)
    requires AllThere(gone, k)
    ensures !gone(k) ==> AllThere(gone, k + 1)
  {
  }

  /** The number of chunks delivered before the receiver disappears. */
  predicate Delivers(k: nat, n: nat, gone: nat -> bool) {
    k <= n && AllThere(gone, k) && (k < n ==> gone(k))
  }

  /** The ledger after a hand-off that delivers `k` of `n` chunks: a ticket issued for each of them, and
      one more that is voided if a chunk could not be sent. */
  function HandOffBook(b: Book, k: nat, n: nat): Book {
    if n <= k then b.(issued := b.issued + n)
    else Apply(b.(issued := b.issued + k + 1), Void(b.issued + k + 1))
  }

  lemma {:induction false} SumSizesSnoc(work: seq<ChunkSpec>, k: nat)
    requires k < |work|
    ensures SumSizes(work[..k + 1]) == SumSizes(work[..k]) + work[k].size
    ensures SumSizes(work[..k]) + SumSizes(work[k..]) == SumSizes(work)
    decreases k
  {
    if k > 0 {
      SumSizesSnoc(work[1..], k - 1);
      assert work[..k + 1][1..] == work[1..][..k] && work[..k][1..] == work[1..][..k - 1];
      assert work[k..] == work[1..][k - 1..];
    } else {
      assert work[..1] == [work[0]] && work[..1][1..] == [] && work[..0] == [];
      assert work[0..] == work;
    }
  }

  // ---------------------------------------------------------------- one chunk

  /** The sender and the ledger stand for those of a pipeline state. */
  ghost predicate Stands(q: IngestSender, ledger: CommitLedger, c: Constants, s: State)
    reads q, ledger
  {
    c.capacity == q.capacity && s.queue == q.queue && s.book == ledger.View()
  }

  function NextOutcome(o: EnqueueOutcome, chunk: ChunkSpec, ticket: nat, gone: bool): EnqueueOutcome {
    if gone then o.(rejected := SatSub(o.total, o.accepted), disconnected := true)
    else o.(accepted := o.accepted + chunk.size, last := Some(ticket), tickets := o.tickets + [Accepted(ticket, chunk.size)])
  }

  /** The ledger after a chunk was stamped and sent, or its ticket voided. */
  function NextBook(b: Book, gone: bool): Book {
    if gone then Apply(Apply(b, Op.Issue), Void(b.issued + 1)) else Apply(b, Op.Issue)
  }

  function NextQueue(q: seq<Message>, chunk: ChunkSpec, ticket: nat, gone: bool): seq<Message> {
    if gone then q else q + [Logs(chunk.origin, ticket, chunk.size)]
  }

  /** The steps `IssueTicket` and `Send` of the pipeline, from any state with this queue, ledger and outcome,
      end in the queue, the ledger and the outcome just defined. */
  ghost predicate SendsLike(capacity: nat, q: seq<Message>, b: Book, chunk: ChunkSpec, o: EnqueueOutcome, gone: bool) {
    forall c: Constants, s: State ::
      c.capacity == capacity && s.queue == q && s.book == b && s.batcher.Gone? == gone
      && s.gate.Taken? && s.gate.hand.None? && s.gate.todo != [] && s.gate.todo[0] == chunk && s.gate.outcome == o ==>
        SentTo(s, DoSend(c, DoIssue(s)), chunk, gone)
  }

  predicate SentTo(s: State, s': State, chunk: ChunkSpec, gone: bool)
    requires s.gate.Taken? && s.gate.todo != []
  {
    var t := s.book.issued + 1;
    var o := NextOutcome(s.gate.outcome, chunk, t, gone);
    && s'.queue == NextQueue(s.queue, chunk, t, gone) && s'.book == NextBook(s.book, gone) && s'.batcher == s.batcher
    && (!gone ==> s'.gate == Taken(s.gate.rid, s.gate.todo[1..], None, o) && s'.requests == s.requests)
    && (gone ==> s'.gate.Open? && s'.requests == s.requests[s.gate.rid := Waiting(o)])
  }

  lemma SendSteps(c: Constants, s: State, gone: bool)
    requires s.batcher.Gone? == gone && (gone || |s.queue| < c.capacity) && !s.gate.Open? && !s.gate.outcome.disconnected
    requires s.gate.Taken? && s.gate.hand.None? && s.gate.todo != []
    ensures SentTo(s, DoSend(c, DoIssue(s)), s.gate.todo[0], gone)
  {
    VoidOfSettled(Apply(s.book, Op.Issue), s.book.issued + 1);
  }

  lemma VoidOfSettled(b: Book, t: nat)
    ensures IsSettled(b, t) ==> Apply(b, Void(t)) == b
  {
  }

  lemma SendsAlike(capacity: nat, q: seq<Message>, b: Book, chunk: ChunkSpec, o: EnqueueOutcome, gone: bool)
    requires |q| < capacity && !o.disconnected
    ensures SendsLike(capacity, q, b, chunk, o, gone)
  {
    forall c: Constants, s: State |
      c.capacity == capacity && s.queue == q && s.book == b && s.batcher.Gone? == gone
      && s.gate.Taken? && s.gate.hand.None? && s.gate.todo != [] && s.gate.todo[0] == chunk && s.gate.outcome == o
      ensures SentTo(s, DoSend(c, DoIssue(s)), chunk, gone)
    {
      SendSteps(c, s, gone);
    }
  }

  /** One chunk: stamp it and send it; a ticket that could not be sent is voided. */
  method SendNext(q: IngestSender, ledger: CommitLedger, chunk: ChunkSpec, o: EnqueueOutcome, gone: bool)
    returns (r: SendResult, o': EnqueueOutcome)
    requires q.Valid() && |q.queue| < q.capacity && !o.disconnected
    modifies q`queue, q`sent, ledger
    ensures old(ledger.UpToDate()) ==> ledger.UpToDate()
    ensures q.Valid() && r == if gone then Disconnected else Delivered
    ensures o' == NextOutcome(o, chunk, old(ledger.nextTicket) + 1, gone)
    ensures q.queue == NextQueue(old(q.queue), chunk, old(ledger.nextTicket) + 1, gone)
    ensures q.sent == NextQueue(old(q.sent), chunk, old(ledger.nextTicket) + 1, gone)
    ensures ledger.View() == NextBook(old(ledger.View()), gone)
    ensures SendsLike(q.capacity, old(q.queue), old(ledger.View()), chunk, o, gone)
  {
    SendsAlike(q.capacity, q.queue, ledger.View(), chunk, o, gone);
    var ticket := ledger.Issue();
    o' := o;
    r := q.TrySend(Logs(chunk.origin, ticket, chunk.size), gone);
    match r {
      case Delivered =>
        o' := o'.(accepted := o'.accepted + chunk.size, last := Some(ticket),
                  tickets := o'.tickets + [Accepted(ticket, chunk.size)]);
      case Full => assert false;
      case Disconnected =>
        var settled, watermark := ledger.SettleLocked(ticket, true);
        if settled {
          ledger.Publish(watermark);
        }
        o' := o'.(rejected := SatSub(o'.total, o'.accepted), disconnected := true);
    }
  }

  /** A send with whatever the consumer took before it. */
  method DrainAndSend(q: IngestSender, ledger: CommitLedger, chunk: ChunkSpec, o: EnqueueOutcome, drained: nat, gone: bool)
    returns (r: SendResult, o': EnqueueOutcome)
    requires q.Valid() && |q.queue| < q.capacity && !o.disconnected
    modifies q`queue, q`sent, ledger
    ensures old(ledger.UpToDate()) ==> ledger.UpToDate()
    ensures q.Valid() && r == (if gone then Disconnected else Delivered)
    ensures |q.queue| <= old(|q.queue|) + if gone then 0 else 1
    ensures
      var b := old(ledger.View());
      && o' == NextOutcome(o, chunk, b.issued + 1, gone) && ledger.View() == NextBook(b, gone)
      && q.queue == NextQueue(Dropped(old(q.queue), drained), chunk, b.issued + 1, gone)
      && q.sent == NextQueue(old(q.sent), chunk, b.issued + 1, gone)
  {
    q.Drained(drained);
    r, o' := SendNext(q, ledger, chunk, o, gone);
  }

  // ---------------------------------------------------------------- all chunks

  /** The outcome once the first `i` chunks have been delivered. */
  function SoFar(work: seq<ChunkSpec>, i: nat, first: nat): (o: EnqueueOutcome)
    requires i <= |work|
    ensures !o.disconnected
  {
    if i == 0 then NewOutcome(SumSizes(work)) else NextOutcome(SoFar(work, i - 1, first), work[i - 1], first + i - 1, false)
  }

  /** Everything ever sent by then. */
  function SentSoFar(sent: seq<Message>, work: seq<ChunkSpec>, i: nat, first: nat): seq<Message>
    requires i <= |work|
  {
    if i == 0 then sent else NextQueue(SentSoFar(sent, work, i - 1, first), work[i - 1], first + i - 1, false)
  }

  lemma {:induction false} SoFarIs(work: seq<ChunkSpec>, i: nat, first: nat)
    requires i <= |work|
    ensures SoFar(work, i, first) ==
              EnqueueOutcome(SumSizes(work[..i]), 0, false, if i == 0 then None else Some(first + i - 1),
                             SumSizes(work), Tickets(work[..i], first))
  {
    if 0 < i {
      SoFarIs(work, i - 1, first);
      SumSizesSnoc(work, i - 1);
      assert Tickets(work[..i], first) == Tickets(work[..i - 1], first) + [Accepted(first + i - 1, work[i - 1].size)];
    } else {
      assert work[..0] == [] && Tickets([], first) == [];
    }
  }

  lemma {:induction false} SentSoFarIs(sent: seq<Message>, work: seq<ChunkSpec>, i: nat, first: nat)
    requires i <= |work|
    ensures SentSoFar(sent, work, i, first) == sent + Stamped(work[..i], first)
  {
    if 0 < i {
      var last := Logs(work[i - 1].origin, first + i - 1, work[i - 1].size);
      SentSoFarIs(sent, work, i - 1, first);
      assert Stamped(work[..i], first) == Stamped(work[..i - 1], first) + [last];
      Associative(sent, Stamped(work[..i - 1], first), [last]);
    } else {
      assert work[..0] == [] && Stamped([], first) == [];
    }
  }

  /** The outcome of a hand-off that delivers the first `k` chunks. */
  function FinalOutcome(work: seq<ChunkSpec>, k: nat, first: nat): EnqueueOutcome
    requires k <= |work|
  {
    if k == |work| then SoFar(work, k, first) else NextOutcome(SoFar(work, k, first), work[k], first + k, true)
  }

  /** What it says: the first `k` chunks were accepted under consecutive tickets, the rest was rejected. */
  predicate OutcomeIs(o: EnqueueOutcome, work: seq<ChunkSpec>, k: nat, first: nat) {
    && k <= |work| && Balanced(o) && o.total == SumSizes(work)
    && o.tickets == Tickets(work[..k], first) && o.accepted == SumSizes(work[..k])
    && o.disconnected == (k < |work|) && o.last == (if k == 0 then None else Some(first + k - 1))
  }

  lemma FinalOutcomeIs(work: seq<ChunkSpec>, k: nat, first: nat)
    requires k <= |work|
    ensures OutcomeIs(FinalOutcome(work, k, first), work, k, first)
  {
    SoFarIs(work, k, first);
    if k == |work| {
      assert work[..|work|] == work;
    } else {
      SumSizesSnoc(work, k);
    }
  }

  /** The queue once `i` chunks have been delivered, with `taken(j)` messages leaving before the `j`-th. */
  function QueueAfter(q: seq<Message>, work: seq<ChunkSpec>, taken: nat -> nat, first: nat, i: nat): seq<Message>
    requires i <= |work|
  {
    if i == 0 then q
    else NextQueue(Dropped(QueueAfter(q, work, taken, first, i - 1), taken(i - 1)), work[i - 1], first + i - 1, false)
  }

  function FinalQueue(q: seq<Message>, work: seq<ChunkSpec>, taken: nat -> nat, first: nat, k: nat): seq<Message>
    requires k <= |work|
  {
    var after := QueueAfter(q, work, taken, first, k);
    if k == |work| then after else Dropped(after, taken(k))
  }

  /** Queue, messages ever sent, ledger and outcome once the first `i` chunks have been delivered. */
  ghost predicate Halfway(
    q0: seq<Message>, sent0: seq<Message>, b0: Book, work: seq<ChunkSpec>, taken: nat -> nat, i: nat,
    q: seq<Message>, sent: seq<Message>, b: Book, o: EnqueueOutcome)
    requires i <= |work|
  {
    && q == QueueAfter(q0, work, taken, b0.issued + 1, i) && sent == SentSoFar(sent0, work, i, b0.issued + 1)
    && b == b0.(issued := b0.issued + i) && o == SoFar(work, i, b0.issued + 1)
  }

  /** The same at the end of a hand-off that delivers the first `k` chunks. */
  ghost predicate Over(
    q0: seq<Message>, sent0: seq<Message>, b0: Book, work: seq<ChunkSpec>, taken: nat -> nat, k: nat,
    q: seq<Message>, sent: seq<Message>, b: Book, o: EnqueueOutcome)
    requires k <= |work|
  {
    && q == FinalQueue(q0, work, taken, b0.issued + 1, k) && sent == SentSoFar(sent0, work, k, b0.issued + 1)
    && b == HandOffBook(b0, k, |work|) && o == FinalOutcome(work, k, b0.issued + 1)
  }

  lemma {:induction false} NoneDelivered(q: seq<Message>, sent: seq<Message>, b: Book, work: seq<ChunkSpec>, taken: nat -> nat)
    ensures Halfway(q, sent, b, work, taken, 0, q, sent, b, NewOutcome(SumSizes(work)))
  {
  }

  lemma {:induction false} OneDelivered(
    q0: seq<Message>, sent0: seq<Message>, b0: Book, work: seq<ChunkSpec>, taken: nat -> nat, i: nat,
    q: seq<Message>, sent: seq<Message>, b: Book, o: EnqueueOutcome,
    q': seq<Message>, sent': seq<Message>, b': Book, o': EnqueueOutcome)
    requires i < |work| && Halfway(q0, sent0, b0, work, taken, i, q, sent, b, o)
    requires q' == NextQueue(Dropped(q, taken(i)), work[i], b.issued + 1, false)
    requires sent' == NextQueue(sent, work[i], b.issued + 1, false)
    requires b' == NextBook(b, false) && o' == NextOutcome(o, work[i], b.issued + 1, false)
    ensures Halfway(q0, sent0, b0, work, taken, i + 1, q', sent', b', o')
  {
  }

  /** The ledger calls of a refused send, after `i` tickets were issued. */
  lemma RefusedBook(b: Book, i: nat, n: nat)
    requires i < n
    ensures NextBook(b.(issued := b.issued + i), true) == HandOffBook(b, i, n)
  {
    assert Apply(b.(issued := b.issued + i), Op.Issue) == b.(issued := b.issued + i + 1);
  }

  lemma OneRefused(
    q0: seq<Message>, sent0: seq<Message>, b0: Book, work: seq<ChunkSpec>, taken: nat -> nat, i: nat,
    q: seq<Message>, sent: seq<Message>, b: Book, o: EnqueueOutcome, b': Book, o': EnqueueOutcome)
    requires i < |work| && Halfway(q0, sent0, b0, work, taken, i, q, sent, b, o)
    requires b' == NextBook(b, true) && o' == NextOutcome(o, work[i], b.issued + 1, true)
    ensures Over(q0, sent0, b0, work, taken, i, Dropped(q, taken(i)), sent, b', o')
  {
    RefusedBook(b0, i, |work|);
  }

  /** One round of the hand-off. */
  method SendOneMore(q: IngestSender, ledger: CommitLedger, work: seq<ChunkSpec>, i: nat, o: EnqueueOutcome,
                     drained: nat -> nat, gone: bool, ghost q0: seq<Message>, ghost sent0: seq<Message>, ghost b0: Book)
    returns (r: SendResult, o': EnqueueOutcome)
    requires q.Valid() && i < |work| && |q.queue| + |work| - i <= q.capacity
    requires Halfway(q0, sent0, b0, work, drained, i, q.queue, q.sent, ledger.View(), o)
    modifies q`queue, q`sent, ledger
    ensures old(ledger.UpToDate()) ==> ledger.UpToDate()
    ensures q.Valid() && r == if gone then Disconnected else Delivered
    ensures r.Delivered? ==>
              && |q.queue| + |work| - (i + 1) <= q.capacity
              && Halfway(q0, sent0, b0, work, drained, i + 1, q.queue, q.sent, ledger.View(), o')
    ensures r.Disconnected? ==> Over(q0, sent0, b0, work, drained, i, q.queue, q.sent, ledger.View(), o')
  {
    ghost var queue, sent, b := q.queue, q.sent, ledger.View();
    r, o' := DrainAndSend(q, ledger, work[i], o, drained(i), gone);
    if gone {
      OneRefused(q0, sent0, b0, work, drained, i, queue, sent, b, o, ledger.View(), o');
    } else {
      OneDelivered(q0, sent0, b0, work, drained, i, queue, sent, b, o, q.queue, q.sent, ledger.View(), o');
    }
  }

  /** The sends of an admitted request, whatever the consumer takes in between. */
  method HandOff(q: IngestSender, ledger: CommitLedger, work: seq<ChunkSpec>, drained: nat -> nat, gone: nat -> bool)
    returns (outcome: EnqueueOutcome, ghost k: nat)
    requires q.Valid() && |q.queue| + |work| <= q.capacity
    modifies q, ledger
    ensures old(ledger.UpToDate()) ==> ledger.UpToDate()
    ensures q.Valid() && Delivers(k, |work|, gone)
    ensures Over(old(q.queue), old(q.sent), old(ledger.View()), work, drained, k, q.queue, q.sent, ledger.View(), outcome)
  {
    ghost var q0, sent0, b0 := q.queue, q.sent, ledger.View();
    outcome, k := NewOutcome(SumSizes(work)), 0;
    NoneDelivered(q0, sent0, b0, work, drained);
    var i := 0;
    while i < |work|
      invariant i == k <= |work| && q.Valid() && |q.queue| + |work| - i <= q.capacity
      invariant old(ledger.UpToDate()) ==> ledger.UpToDate()
      invariant AllThere(gone, i)
      invariant Halfway(q0, sent0, b0, work, drained, i, q.queue, q.sent, ledger.View(), outcome)
    {
      StillThere(gone, i);
      var r;
      r, outcome := SendOneMore(q, ledger, work, i, outcome, drained, gone(i), q0, sent0, b0);
      if r.Disconnected? {
        return;
      }
      i, k := i + 1, i + 1;
    }
  }

  // ---------------------------------------------------------------- the hand-off in the pipeline

  /** What a sender sees of the others: messages taken from the queue, and the batcher gone or not. */
  function Seen(s: State, taken: nat, gone: bool): State {
    s.(queue := Dropped(s.queue, taken), batcher := if gone then Gone else s.batcher)
  }

  /** The pipeline after one more chunk: the steps `IssueTicket` and `Send`, whatever was taken before. */
  function OneSend(c: Constants, s: State, taken: nat, gone: bool): State
    requires s.gate.Taken? && s.gate.todo != []
  {
    DoSend(c, DoIssue(Seen(s, taken, gone)))
  }

  /** The pipeline at the end of a hand-off: its sends from the `i`-th on, then `LeaveGate`, unless the
      batcher disappeared. */
  function HandedOff(c: Constants, s: State, taken: nat -> nat, gone: nat -> bool, i: nat): State
    decreases if s.gate.Taken? then |s.gate.todo| + 1 else 0
  {
    if s.gate.Open? then s
    else if s.gate.todo == [] then DoLeaveGate(s)
    else HandedOff(c, OneSend(c, s, taken(i), gone(i)), taken, gone, i + 1)
  }

  /** State `t` of a hand-off that started with queue `q` and ledger `b`, after `i` chunks. */
  ghost predicate OnTheWay(
    c: Constants, q: seq<Message>, b: Book, t: State, rid: nat, work: seq<ChunkSpec>, taken: nat -> nat, i: nat)
    requires i <= |work|
  {
    && t.gate == Taken(rid, work[i..], None, SoFar(work, i, b.issued + 1)) && t.book == b.(issued := b.issued + i)
    && t.queue == QueueAfter(q, work, taken, b.issued + 1, i) && |t.queue| + |work| - i <= c.capacity
  }

  /** State `s` at its end, when `k` chunks were delivered. */
  ghost predicate AtTheEnd(
    q: seq<Message>, b: Book, s: State, rid: nat, work: seq<ChunkSpec>, taken: nat -> nat, k: nat, requests: map<nat, Request>)
    requires k <= |work|
  {
    && s.gate.Open? && s.requests == requests[rid := Waiting(FinalOutcome(work, k, b.issued + 1))]
    && s.book == HandOffBook(b, k, |work|) && s.queue == FinalQueue(q, work, taken, b.issued + 1, k)
  }

  lemma SentOn(
    c: Constants, q: seq<Message>, b: Book, t: State, rid: nat, work: seq<ChunkSpec>, taken: nat -> nat, i: nat, t': State)
    requires i < |work| && OnTheWay(c, q, b, t, rid, work, taken, i)
    requires SentTo(Seen(t, taken(i), false), t', work[i], false)
    ensures OnTheWay(c, q, b, t', rid, work, taken, i + 1)
  {
    assert work[i..][1..] == work[i + 1..];
  }

  lemma SentLast(
    c: Constants, q: seq<Message>, b: Book, t: State, rid: nat, work: seq<ChunkSpec>, taken: nat -> nat, i: nat, t': State)
    requires i < |work| && OnTheWay(c, q, b, t, rid, work, taken, i)
    requires SentTo(Seen(t, taken(i), true), t', work[i], true)
    ensures AtTheEnd(q, b, t', rid, work, taken, i, t.requests)
  {
    RefusedBook(b, i, |work|);
  }

  lemma {:induction false} LeftGate(
    c: Constants, q: seq<Message>, b: Book, t: State, rid: nat, work: seq<ChunkSpec>, taken: nat -> nat, gone: nat -> bool, h: State)
    requires OnTheWay(c, q, b, t, rid, work, taken, |work|) && h == HandedOff(c, t, taken, gone, |work|)
    ensures AtTheEnd(q, b, h, rid, work, taken, |work|, t.requests)
  {
  }

  /** One round of the hand-off in the pipeline. */
  lemma OneRound(
    c: Constants, q: seq<Message>, b: Book, t: State, rid: nat, work: seq<ChunkSpec>, taken: nat -> nat, gone: nat -> bool, i: nat)
    returns (t': State)
    requires i < |work| && OnTheWay(c, q, b, t, rid, work, taken, i) && (t.batcher.Gone? ==> gone(i))
    ensures HandedOff(c, t, taken, gone, i) == HandedOff(c, t', taken, gone, i + 1)
    ensures SentTo(Seen(t, taken(i), gone(i)), t', work[i], gone(i))
  {
    t' := OneSend(c, t, taken(i), gone(i));
    SendSteps(c, Seen(t, taken(i), gone(i)), gone(i));
  }

  lemma NextRound(
    c: Constants, q: seq<Message>, b: Book, t: State, rid: nat, work: seq<ChunkSpec>, taken: nat -> nat, gone: nat -> bool, i: nat,
    h: State)
    returns (t': State)
    requires i < |work| && OnTheWay(c, q, b, t, rid, work, taken, i) && (t.batcher.Gone? ==> gone(i))
    requires h == HandedOff(c, t, taken, gone, i)
    ensures h == HandedOff(c, t', taken, gone, i + 1)
    ensures gone(i) ==> AtTheEnd(q, b, h, rid, work, taken, i, t.requests)
    ensures !gone(i) ==> OnTheWay(c, q, b, t', rid, work, taken, i + 1) && t'.requests == t.requests && !t'.batcher.Gone?
  {
    t' := OneRound(c, q, b, t, rid, work, taken, gone, i);
    if gone(i) {
      SentLast(c, q, b, t, rid, work, taken, i, t');
    } else {
      SentOn(c, q, b, t, rid, work, taken, i, t');
    }
  }

  lemma GoneAt(gone: nat -> bool, i: nat, k: nat, n: nat)
    requires Delivers(k, n, gone) && i <= k && i < n
    ensures gone(i) <==> i == k
  {
  }

  lemma {:induction false} HandedOffEnds(
    c: Constants, q: seq<Message>, b: Book, t: State, rid: nat, work: seq<ChunkSpec>, taken: nat -> nat, gone: nat -> bool,
    i: nat, k: nat, h: State)
    requires i <= k <= |work| && OnTheWay(c, q, b, t, rid, work, taken, i) && Delivers(k, |work|, gone)
    requires t.batcher.Gone? && i < |work| ==> gone(i)
    requires h == HandedOff(c, t, taken, gone, i)
    ensures AtTheEnd(q, b, h, rid, work, taken, k, t.requests)
    decreases |work| - i
  {
    if i == |work| {
      LeftGate(c, q, b, t, rid, work, taken, gone, h);
    } else {
      var t' := NextRound(c, q, b, t, rid, work, taken, gone, i, h);
      GoneAt(gone, i, k, |work|);
      if i < k {
        HandedOffEnds(c, q, b, t', rid, work, taken, gone, i + 1, k, h);
      }
    }
  }

  /** A hand-off in the pipeline ends in the queue, the ledger and the outcome of the loop. */
  lemma {:induction false} HandedOffIs(
    c: Constants, q: seq<Message>, b: Book, t: State, rid: nat, work: seq<ChunkSpec>, taken: nat -> nat, gone: nat -> bool,
    i: nat, k: nat)
    requires i <= k <= |work| && OnTheWay(c, q, b, t, rid, work, taken, i) && Delivers(k, |work|, gone)
    requires t.batcher.Gone? && i < |work| ==> gone(i)
    ensures AtTheEnd(q, b, HandedOff(c, t, taken, gone, i), rid, work, taken, k, t.requests)
  {
    HandedOffEnds(c, q, b, t, rid, work, taken, gone, i, k, HandedOff(c, t, taken, gone, i));
  }

  lemma {:induction false} ReservedHandOff(
    c: Constants, s: State, rid: nat, work: seq<ChunkSpec>, taken: nat -> nat, gone: nat -> bool, k: nat)
    requires s.gate.Open? && |s.queue| + |work| <= c.capacity && Delivers(k, |work|, gone)
    requires s.batcher.Gone? ==> gone(0)
    ensures
      var s' := HandedOff(c, DoReserve(c, s, rid, work), taken, gone, 0);
      AtTheEnd(s.queue, s.book, s', rid, work, taken, k, s.requests)
  {
    Starts(c, s, rid, work, taken);
    HandedOffIs(c, s.queue, s.book, DoReserve(c, s, rid, work), rid, work, taken, gone, 0, k);
  }

  lemma Starts(c: Constants, s: State, rid: nat, work: seq<ChunkSpec>, taken: nat -> nat)
    requires s.gate.Open? && |s.queue| + |work| <= c.capacity
    ensures
      var t := DoReserve(c, s, rid, work);
      OnTheWay(c, s.queue, s.book, t, rid, work, taken, 0) && t.batcher == s.batcher && t.requests == s.requests
  {
    assert work[0..] == work;
  }

  /** After `Reserve` and the hand-off the pipeline has this queue and ledger, and the request is as given. */
  ghost predicate EndsLike(
    c: Constants, s: State, rid: nat, work: seq<ChunkSpec>, taken: nat -> nat, gone: nat -> bool,
    q: seq<Message>, b: Book, r: Request)
  {
    var s' := HandedOff(c, DoReserve(c, s, rid, work), taken, gone, 0);
    s'.queue == q && s'.book == b && s'.gate.Open? && s'.requests == s.requests[rid := r]
  }

  /** The loop and the pipeline agree on the end of a hand-off. */
  lemma HandOffEnds(
    c: Constants, s: State, rid: nat, work: seq<ChunkSpec>, taken: nat -> nat, gone: nat -> bool, k: nat,
    first: nat, sent0: seq<Message>, q: seq<Message>, sent: seq<Message>, b: Book, o: EnqueueOutcome)
    requires first == s.book.issued + 1 && s.gate.Open? && |s.queue| + |work| <= c.capacity
    requires Delivers(k, |work|, gone) && (s.batcher.Gone? ==> gone(0))
    requires Over(s.queue, sent0, s.book, work, taken, k, q, sent, b, o)
    ensures EndsLike(c, s, rid, work, taken, gone, q, b, Waiting(o))
    ensures OutcomeIs(o, work, k, first) && sent == sent0 + Stamped(work[..k], first)
    ensures b == HandOffBook(s.book, k, |work|)
  {
    ReservedHandOff(c, s, rid, work, taken, gone, k);
    FinalOutcomeIs(work, k, first);
    SentSoFarIs(sent0, work, k, first);
  }

  lemma {:induction false} NotReserved(c: Constants, s: State, rid: nat, work: seq<ChunkSpec>, taken: nat -> nat, gone: nat -> bool)
    requires s.gate.Open?
    ensures
      var o := NewOutcome(SumSizes(work));
      && (c.capacity < |work| ==> EndsLike(c, s, rid, work, taken, gone, s.queue, s.book, Answered(o, InvalidArgument)))
      && (|work| <= c.capacity < |s.queue| + |work| ==>
            EndsLike(c, s, rid, work, taken, gone, s.queue, s.book, Waiting(o.(rejected := o.total))))
  {
  }

  /** `enqueue`. The consumer drains any number of messages before each send and may disappear;
      with the gate held nobody else sends. The branch for a full queue is shown to be dead. Seen from
      the pipeline this is the step `Reserve` and the hand-off it allows. */
  method Enqueue(q: IngestSender, ledger: CommitLedger, work: seq<ChunkSpec>, drained: nat -> nat, gone: nat -> bool,
                 ghost c: Constants, ghost s: State, ghost rid: nat)
    returns (oversized: bool, outcome: EnqueueOutcome, ghost k: nat)
    requires q.Valid()
    requires Stands(q, ledger, c, s) && s.gate.Open? && (s.batcher.Gone? ==> gone(0))
    modifies q, ledger
    ensures old(ledger.UpToDate()) ==> ledger.UpToDate()
    ensures q.Valid()
    ensures oversized <==> q.capacity < |work|
    ensures q.capacity < old(|q.queue|) + |work| ==>
              && q.queue == old(q.queue) && q.sent == old(q.sent) && ledger.View() == old(ledger.View())
              && outcome.tickets == [] && outcome.accepted == 0
    ensures old(|q.queue|) + |work| <= q.capacity ==>
              && Delivers(k, |work|, gone) && OutcomeIs(outcome, work, k, old(ledger.nextTicket) + 1)
              && q.sent == old(q.sent) + Stamped(work[..k], old(ledger.nextTicket) + 1)
              && ledger.View() == HandOffBook(old(ledger.View()), k, |work|)
    ensures !oversized ==> Balanced(outcome) && outcome.total == SumSizes(work)
    ensures EndsLike(c, s, rid, work, drained, gone, q.queue, ledger.View(),
                     if oversized then Answered(outcome, InvalidArgument) else Waiting(outcome))
  {
    outcome, k, oversized := NewOutcome(SumSizes(work)), 0, false;
    NotReserved(c, s, rid, work, drained, gone);
    if q.capacity < |work| {
      oversized := true;
      return;
    }
    if q.capacity < |q.queue| + |work| {
      outcome := outcome.(rejected := outcome.total);
      return;
    }
    outcome, k := HandOff(q, ledger, work, drained, gone);
    HandOffEnds(c, s, rid, work, drained, gone, k, old(ledger.nextTicket) + 1, old(q.sent), q.queue, q.sent, ledger.View(), outcome);
  }
}
