/** The export handler's decision: from an enqueue outcome and the ledger to the wire answer. */
module Handler {
  import opened Ledger
  import opened InsertBatching

  const I64_MAX: nat := 0x7FFF_FFFF_FFFF_FFFF

  datatype Mode = OnCommit | OnEnqueue

  /** A ticket accepted into the queue and the number of records behind it. */
  datatype Accepted = Accepted(ticket: nat, records: nat)

  datatype EnqueueOutcome = EnqueueOutcome(
    accepted: nat,
    rejected: nat,
    disconnected: bool,
    last: Option<nat>,
    total: nat,
    tickets: seq<Accepted>)

  datatype Answer =
    | Success
    | PartialSuccess(rejected: nat)
    | Unavailable
    | InvalidArgument

  function NewOutcome(total: nat): EnqueueOutcome {
    EnqueueOutcome(0, 0, false, None, total, [])
  }

  function SumRecords(tickets: seq<Accepted>): nat {
    if tickets == [] then 0 else tickets[0].records + SumRecords(tickets[1..])
  }

  /** The count the wire format can carry. */
  function Partial(rejected: nat): Answer {
    PartialSuccess(if rejected <= I64_MAX then rejected else I64_MAX)
  }

  /** Whether the handler has to wait for the ledger before it answers. */
  predicate MustWait(o: EnqueueOutcome, mode: Mode) {
    o.accepted != 0 && mode == OnCommit
  }

  /** The answer of a request that accepted nothing, or that is acknowledged at queue entry. */
  function AnswerAtOnce(o: EnqueueOutcome): Answer {
    if o.accepted == 0 then
      if o.disconnected || 0 < o.rejected then Unavailable else Success
    else if 0 < o.rejected then Partial(o.rejected)
    else Success
  }

  /** What one ledger reading contributes to the committed count. */
  function Credit(st: TicketState, records: nat): nat {
    match st
    case Completed => records
    case Failed(p) => p.committed
    case Unsettled(p) => p.committed
  }

  function AnswerFrom(o: EnqueueOutcome, committed: nat, anyFailed: bool): Answer {
    var rejected := SatSub(o.total, committed);
    if rejected == 0 then Success
    else if anyFailed || 0 < committed then Partial(rejected)
    else Unavailable
  }

  function Credits(b: Book, tickets: seq<Accepted>): nat {
    if tickets == [] then 0
    else Credits(b, tickets[..|tickets| - 1]) + Credit(State(b, tickets[|tickets| - 1].ticket), tickets[|tickets| - 1].records)
  }

  predicate AnyFailed(b: Book, tickets: seq<Accepted>) {
    exists i :: 0 <= i < |tickets| && State(b, tickets[i].ticket).Failed?
  }

  /** `finish` once the watermark covers the request or the pipeline has closed. */
  method Finish(ledger: CommitLedger, o: EnqueueOutcome, mode: Mode) returns (answer: Answer)
    ensures answer == if MustWait(o, mode)
                      then AnswerFrom(o, Credits(ledger.View(), o.tickets), AnyFailed(ledger.View(), o.tickets))
                      else AnswerAtOnce(o)
    ensures
      var committed, anyFailed := Credits(ledger.View(), o.tickets), AnyFailed(ledger.View(), o.tickets);
      MustWait(o, mode) ==>
        && !answer.InvalidArgument?
        && (answer.Success? <==> o.total <= committed)
        && (answer.Unavailable? <==> committed == 0 < o.total && !anyFailed)
        && (answer.PartialSuccess? && o.total - committed <= I64_MAX ==> answer.rejected == o.total - committed)
  {
    if !MustWait(o, mode) {
      return AnswerAtOnce(o);
    }
    var committed, anyFailed, k := 0, false, 0;
    while k < |o.tickets|
      invariant k <= |o.tickets|
      invariant committed == Credits(ledger.View(), o.tickets[..k])
      invariant anyFailed == AnyFailed(ledger.View(), o.tickets[..k])
    {
      var st := ledger.StateOf(o.tickets[k].ticket);
      assert o.tickets[..k + 1][..k] == o.tickets[..k];
      committed := committed + Credit(st, o.tickets[k].records);
      ghost var before := anyFailed;
      anyFailed := anyFailed || st.Failed?;
      AnyFailedSnoc(ledger.View(), o.tickets, k);
      k := k + 1;
    }
    assert o.tickets[..k] == o.tickets;
    answer := AnswerFrom(o, committed, anyFailed);
  }

  lemma AnyFailedSnoc(b: Book, tickets: seq<Accepted>, k: nat)
    requires k < |tickets|
    ensures AnyFailed(b, tickets[..k + 1]) <==> AnyFailed(b, tickets[..k]) || State(b, tickets[k].ticket).Failed?
  {
    if AnyFailed(b, tickets[..k]) {
      var i :| 0 <= i < k && State(b, tickets[..k][i].ticket).Failed?;
      assert tickets[..k + 1][i] == tickets[..k][i];
    }
    if State(b, tickets[k].ticket).Failed? {
      assert tickets[..k + 1][k] == tickets[k];
    }
    if AnyFailed(b, tickets[..k + 1]) {
      var i :| 0 <= i < k + 1 && State(b, tickets[..k + 1][i].ticket).Failed?;
      if i < k {
        assert tickets[..k][i] == tickets[..k + 1][i];
      }
    }
  }
}
