/** What clients and operators may rely on, over every run of the pipeline. */
module Guarantees {
  import opened Ledger
  import opened Stream
  import opened InsertBatching
  import opened OriginBatching
  import opened Settlement
  import opened Chunks
  import opened Handler
  import opened Protocol
  import opened Conservation
  import opened Steps
  import opened Conserving
  import opened Publishing
  import opened Barriers
  import opened Readings
  import opened Requests
  import opened Admission
  import opened Table
  import opened Calls
  import opened Origins

  // ---------------------------------------------------------------- runs

  /** A run is any sequence of actions, each of them possible when its turn comes. */
  ghost predicate Legal(c: Constants, s: State, run: seq<Action>)
    decreases |run|
  {
    run == [] || (Enabled(c, s, run[0]) && Legal(c, Do(c, s, run[0]), run[1..]))
  }

  ghost function Exec(c: Constants, s: State, run: seq<Action>): State
    requires Legal(c, s, run)
    decreases |run|
  {
    if run == [] then s else Exec(c, Do(c, s, run[0]), run[1..])
  }

  ghost predicate Inv(c: Constants, s: State) {
    && Core(s) && Sound(c, s) && Marks(s) && BarriersHold(s)
    && RequestsOk(c, s) && RoomLeft(c, s) && SendsOk(s) && AdmissionsWhole(s) && OwnTickets(s)
    && CallsDue(s) && OriginsHold(s)
  }

  lemma NothingInitially(t: nat)
    ensures LogAt(INITIAL, t) == [] && FlowAt(INITIAL, t) == [] && Expected(INITIAL, t) == []
    ensures FencedAt(INITIAL, t)
  {
    assert Down(INITIAL) == [] && CommandLists([]) == [] && MessageLists([]) == [];
    assert Tokens([]) == [] && EntryTokens([]) == [];
  }

  lemma CoreInitially()
    ensures Core(INITIAL)
  {
    forall t: nat ensures LogAt(INITIAL, t) == [] && FlowAt(INITIAL, t) == [] && Expected(INITIAL, t) == [] {
      NothingInitially(t);
    }
    assert Valid(FRESH_BOOK);
  }

  lemma BarriersInitially()
    ensures BarriersHold(INITIAL)
  {
    forall t: nat ensures FencedAt(INITIAL, t) {
      NothingInitially(t);
    }
  }

  lemma AllElseInitially(c: Constants)
    requires 0 < c.cfg.maxRecords
    ensures Sound(c, INITIAL) && Marks(INITIAL)
    ensures RequestsOk(c, INITIAL) && RoomLeft(c, INITIAL) && SendsOk(INITIAL) && AdmissionsWhole(INITIAL) && OwnTickets(INITIAL)
    ensures OriginsHold(INITIAL)
  {
    assert Down(INITIAL) == [];
  }

  lemma InvInitially(c: Constants)
    requires 0 < c.cfg.maxRecords
    ensures Inv(c, INITIAL)
  {
    CoreInitially();
    BarriersInitially();
    AllElseInitially(c);
  }

  lemma InvKept(c: Constants, s: State, a: Action)
    requires Inv(c, s) && Enabled(c, s, a)
    ensures Inv(c, Do(c, s, a))
  {
    CoreKept(c, s, a);
    SoundKept(c, s, a);
    MarksKept(c, s, a);
    BarriersKept(c, s, a);
    RequestsKept(c, s, a);
    RoomKept(c, s, a);
    SendsKept(c, s, a);
    OwnKept(c, s, a);
    CallsKept(c, s, a);
    OriginsKept(c, s, a);
    forall rid | rid in Do(c, s, a).requests ensures WholeOrDead(Do(c, s, a), Do(c, s, a).requests[rid].outcome) {
      WholenessKept(c, s, a, rid);
    }
  }

  lemma {:induction false} RunKeepsInv(c: Constants, s: State, run: seq<Action>)
    requires Inv(c, s) && Legal(c, s, run)
    ensures Inv(c, Exec(c, s, run))
    decreases |run|
  {
    if run != [] {
      InvKept(c, s, run[0]);
      RunKeepsInv(c, Do(c, s, run[0]), run[1..]);
    }
  }

  /** The states the pipeline can be in. */
  ghost predicate Reached(c: Constants, run: seq<Action>, s: State) {
    0 < c.cfg.maxRecords && Legal(c, INITIAL, run) && s == Exec(c, INITIAL, run)
  }

  lemma ReachedInv(c: Constants, run: seq<Action>, s: State)
    requires Reached(c, run, s)
    ensures Inv(c, s)
  {
    InvInitially(c);
    RunKeepsInv(c, INITIAL, run);
  }

  // ---------------------------------------------------------------- answers

  /** The rows of the table that came from a request. */
  function RowsOf(s: State, tickets: seq<Accepted>): nat {
    if tickets == [] then 0
    else RowsOf(s, tickets[..|tickets| - 1]) + Rows(s, tickets[|tickets| - 1].ticket)
  }

  lemma {:induction false} CreditsAreRows(s: State, o: EnqueueOutcome, k: nat)
    requires LogIsPrefix(s) && BookMatchesLog(s) && SoundTickets(s) && Recorded(s, o) && AllFinal(s, o) && k <= |o.tickets|
    ensures Credits(s.book, o.tickets[..k]) == RowsOf(s, o.tickets[..k])
  {
    if 0 < k {
      var a := o.tickets[k - 1];
      assert a in o.tickets;
      CreditIsRows(s, a.ticket);
      CreditsAreRows(s, o, k - 1);
      assert o.tickets[..k][..k - 1] == o.tickets[..k - 1];
    }
  }

  /** A chunk contributes at most its records. */
  lemma RowsAtMost(s: State, t: nat)
    requires LogIsPrefix(s)
    ensures Rows(s, t) <= SizeOf(s, t)
  {
    TallySum(s.log, t);
    EndsProj(Tokens(s.log), t);
    assert LogAt(s, t) <= Expected(s, t);
    if |LogAt(s, t)| == SizeOf(s, t) + 1 {
      assert LogAt(s, t) == Chunk(t, Named(t, SizeOf(s, t)));
      EndsChunk(t, Named(t, SizeOf(s, t)), t);
    }
  }

  lemma {:induction false} RowsOfAtMost(s: State, o: EnqueueOutcome, k: nat)
    requires LogIsPrefix(s) && Recorded(s, o) && k <= |o.tickets|
    ensures RowsOf(s, o.tickets[..k]) <= SumRecords(o.tickets[..k])
  {
    if 0 < k {
      LastShare(s, o, k);
      RowsOfAtMost(s, o, k - 1);
    }
  }

  function Clipped(n: nat): nat {
    if n <= I64_MAX then n else I64_MAX
  }

  /** Some ticket among these has ended with a record dropped as poison. */
  predicate Damaged(s: State, tickets: seq<nat>) {
    exists i :: 0 <= i < |tickets| && Ended(s.log, tickets[i]) && 0 < Tally(s.log, tickets[i], false)
  }

  /** The answer of a request that sent nothing: retry, unless it had nothing to send and nothing was wrong. */
  predicate TellsNothingSent(answer: Answer, total: nat, vanished: bool) {
    answer == if vanished || 0 < total then Unavailable else Success
  }

  /** The answer in commit mode, from the records the request sent, its rows in the table, and whether one of its
      tickets ended damaged: success means that nothing is missing; a count is the number of missing records;
      a retry of the whole request is asked for exactly when it sent something, nothing of it is there and
      nothing was dropped for good. */
  predicate TellsRows(answer: Answer, total: nat, sent: nat, rows: nat, damaged: bool, vanished: bool) {
    && rows <= sent <= total
    && (sent == 0 ==> TellsNothingSent(answer, total, vanished))
    && (0 < sent ==>
          && !answer.InvalidArgument?
          && (answer.Success? <==> rows == total)
          && (answer.Unavailable? <==> rows == 0 && !damaged)
          && (answer.PartialSuccess? ==> answer.rejected == Clipped(total - rows)))
  }

  /** A ticket is read as failed exactly when a record of it was dropped. */
  lemma {:induction false} FailedIsDamaged(s: State, o: EnqueueOutcome)
    requires BookMatchesLog(s) && SoundTickets(s) && Recorded(s, o) && AllFinal(s, o)
    ensures AnyFailed(s.book, o.tickets) <==> Damaged(s, Names(o.tickets))
  {
    forall i | 0 <= i < |o.tickets|
      ensures Ledger.State(s.book, o.tickets[i].ticket).Failed? <==>
              Ended(s.log, Names(o.tickets)[i]) && 0 < Tally(s.log, Names(o.tickets)[i], false)
    {
      assert o.tickets[i] in o.tickets;
      FinalMatchesLog(s, o.tickets[i].ticket);
    }
    if AnyFailed(s.book, o.tickets) {
      var i :| 0 <= i < |o.tickets| && Ledger.State(s.book, o.tickets[i].ticket).Failed?;
      assert Ended(s.log, Names(o.tickets)[i]);
    }
    if Damaged(s, Names(o.tickets)) {
      var i :| 0 <= i < |o.tickets| && Ended(s.log, Names(o.tickets)[i]) && 0 < Tally(s.log, Names(o.tickets)[i], false);
      assert Ledger.State(s.book, o.tickets[i].ticket).Failed?;
    }
  }

  /** In commit mode every answered request was told the truth, as of the present state. */
  lemma {:induction false} AnswerTellsRows(c: Constants, s: State, o: EnqueueOutcome, answer: Answer)
    requires Core(s) && SoundTickets(s) && c.mode.OnCommit? && RequestOk(c, s, Answered(o, answer)) && !answer.InvalidArgument?
    ensures TellsRows(answer, o.total, o.accepted, RowsOf(s, o.tickets), Damaged(s, Names(o.tickets)), o.disconnected)
  {
    assert o.tickets[..|o.tickets|] == o.tickets;
    RowsOfAtMost(s, o, |o.tickets|);
    if MustWait(o, c.mode) {
      CreditsAreRows(s, o, |o.tickets|);
      FailedIsDamaged(s, o);
    }
  }

  /** Once given, an answer and the outcome it speaks about stay as they are. */
  lemma {:induction false} AnswersStay(c: Constants, s: State, more: seq<Action>, rid: nat)
    requires Inv(c, s) && Legal(c, s, more) && rid in s.requests && s.requests[rid].Answered?
    ensures
      var s' := Exec(c, s, more);
      rid in s'.requests && s'.requests[rid] == s.requests[rid]
    decreases |more|
  {
    if more != [] {
      AnswerStays(c, s, more[0], rid);
      InvKept(c, s, more[0]);
      AnswersStay(c, Do(c, s, more[0]), more[1..], rid);
    }
  }

  // ---------------------------------------------------------------- in terms of what the request sent

  /** The rows of the table that came from the given tickets. */
  function RowsSent(s: State, tickets: seq<nat>): nat {
    if tickets == [] then 0 else RowsSent(s, tickets[..|tickets| - 1]) + Rows(s, tickets[|tickets| - 1])
  }

  /** The records sent under the given tickets. */
  function SizesSent(s: State, tickets: seq<nat>): nat {
    if tickets == [] then 0 else SizesSent(s, tickets[..|tickets| - 1]) + SizeOf(s, tickets[|tickets| - 1])
  }

  lemma {:induction false} RowsOfSent(s: State, tickets: seq<Accepted>)
    ensures RowsOf(s, tickets) == RowsSent(s, Names(tickets))
  {
    if tickets != [] {
      var n := |tickets| - 1;
      RowsOfSent(s, tickets[..n]);
      assert Names(tickets)[..n] == Names(tickets[..n]);
    }
  }

  lemma {:induction false} AcceptedIsSent(s: State, tickets: seq<Accepted>)
    requires forall i :: 0 <= i < |tickets| ==> SizeOf(s, tickets[i].ticket) == tickets[i].records
    ensures SumRecords(tickets) == SizesSent(s, Names(tickets))
  {
    if tickets != [] {
      var n := |tickets| - 1;
      AcceptedIsSent(s, tickets[..n]);
      SumRecordsSnoc(tickets[..n], tickets[n]);
      assert tickets == tickets[..n] + [tickets[n]];
      assert Names(tickets)[..n] == Names(tickets[..n]);
    }
  }

  /** What a request was granted is what it sent. */
  lemma {:induction false} GrantedIsSent(c: Constants, s: State, rid: nat)
    requires OwnTickets(s) && rid in s.requests && RequestOk(c, s, s.requests[rid])
    ensures s.requests[rid].outcome.accepted == SizesSent(s, SentBy(s.sends, rid))
    ensures RowsOf(s, s.requests[rid].outcome.tickets) == RowsSent(s, SentBy(s.sends, rid))
  {
    var o := s.requests[rid].outcome;
    assert Owns(s, rid, o);
    forall i | 0 <= i < |o.tickets| ensures SizeOf(s, o.tickets[i].ticket) == o.tickets[i].records {
      assert o.tickets[i] in o.tickets;
    }
    AcceptedIsSent(s, o.tickets);
    RowsOfSent(s, o.tickets);
  }

  /** Over every run in commit mode, the answer of a request is exact when it is given and for ever
      after, counted over the chunks this very request sent: `Success` means all its records are in
      the table, a reported count is the number of records missing, and `Unavailable` is answered
      exactly when none is there, none will ever be and none was dropped as poison, so that a retry can neither
      duplicate a record nor repeat a hopeless one. An answered request sends nothing more. */
  lemma {:induction false} AnswersAreExact(c: Constants, run: seq<Action>, s: State, more: seq<Action>, rid: nat)
    requires Reached(c, run, s) && Legal(c, s, more) && c.mode.OnCommit?
    requires rid in s.requests && s.requests[rid].Answered? && !s.requests[rid].answer.InvalidArgument?
    ensures
      var s', o, tickets := Exec(c, s, more), s.requests[rid].outcome, SentBy(s.sends, rid);
      && SentBy(s'.sends, rid) == tickets
      && TellsRows(s.requests[rid].answer, o.total, SizesSent(s', tickets), RowsSent(s', tickets), Damaged(s', tickets),
                   o.disconnected)
  {
    ReachedInv(c, run, s);
    AnswersStay(c, s, more, rid);
    RunKeepsInv(c, s, more);
    AnswerIsExactIn(c, s, Exec(c, s, more), rid);
  }

  lemma {:induction false} AnswerIsExactIn(c: Constants, s: State, s': State, rid: nat)
    requires OwnTickets(s) && Core(s') && SoundTickets(s') && RequestsOk(c, s') && OwnTickets(s') && c.mode.OnCommit?
    requires rid in s.requests && rid in s'.requests && s'.requests[rid] == s.requests[rid]
    requires s.requests[rid].Answered? && !s.requests[rid].answer.InvalidArgument?
    ensures
      var o, tickets := s.requests[rid].outcome, SentBy(s.sends, rid);
      && SentBy(s'.sends, rid) == tickets
      && TellsRows(s.requests[rid].answer, o.total, SizesSent(s', tickets), RowsSent(s', tickets), Damaged(s', tickets),
                   o.disconnected)
  {
    assert Owns(s, rid, s.requests[rid].outcome) && Owns(s', rid, s.requests[rid].outcome);
    assert RequestOk(c, s', s'.requests[rid]);
    AnswerTellsRows(c, s', s.requests[rid].outcome, s.requests[rid].answer);
    GrantedIsSent(c, s', rid);
  }

  /** The last ticket's share of the rows and of the records. */
  lemma {:induction false} LastShare(s: State, o: EnqueueOutcome, k: nat)
    requires LogIsPrefix(s) && Recorded(s, o) && 0 < k <= |o.tickets|
    ensures RowsOf(s, o.tickets[..k]) == RowsOf(s, o.tickets[..k - 1]) + Rows(s, o.tickets[k - 1].ticket)
    ensures SumRecords(o.tickets[..k]) == SumRecords(o.tickets[..k - 1]) + o.tickets[k - 1].records
    ensures Rows(s, o.tickets[k - 1].ticket) <= o.tickets[k - 1].records
  {
    var last := o.tickets[k - 1];
    assert last in o.tickets;
    RowsAtMost(s, last.ticket);
    assert o.tickets[..k][..k - 1] == o.tickets[..k - 1];
    SumRecordsSnoc(o.tickets[..k - 1], last);
    assert o.tickets[..k] == o.tickets[..k - 1] + [last];
  }

  lemma {:induction false} EachRowCounts(s: State, o: EnqueueOutcome, k: nat, i: nat)
    requires LogIsPrefix(s) && Recorded(s, o) && i < k <= |o.tickets|
    requires RowsOf(s, o.tickets[..k]) == SumRecords(o.tickets[..k])
    ensures Rows(s, o.tickets[i].ticket) == o.tickets[i].records
  {
    LastShare(s, o, k);
    RowsOfAtMost(s, o, k - 1);
    if i < k - 1 {
      EachRowCounts(s, o, k - 1, i);
    }
  }

  lemma SuccessHasEachRecord(c: Constants, s: State, o: EnqueueOutcome, a: Accepted, p: nat)
    requires Core(s) && SoundTickets(s) && c.mode.OnCommit? && RequestOk(c, s, Answered(o, Success))
    requires a in o.tickets && p < a.records
    ensures o.accepted == o.total && Record(a.ticket, p) in Committed(s.log)
  {
    AnswerTellsRows(c, s, o, Success);
    RowsOfAtMost(s, o, |o.tickets|);
    assert o.tickets[..|o.tickets|] == o.tickets;
    var i :| 0 <= i < |o.tickets| && o.tickets[i] == a;
    EachRowCounts(s, o, |o.tickets|, i);
    AllRowsMeansEachRecord(s, a.ticket, p);
  }

  /** Over every run in commit mode, success without `partial_success` is durable: the request sent all
      its records, and each record of each chunk it sent is a committed row, however the chunks
      were split and merged into batches. */
  lemma {:induction false} SuccessIsDurable(c: Constants, run: seq<Action>, s: State, rid: nat, t: nat, p: nat)
    requires Reached(c, run, s) && c.mode.OnCommit?
    requires rid in s.requests && s.requests[rid].Answered? && s.requests[rid].answer.Success?
    ensures SizesSent(s, SentBy(s.sends, rid)) == s.requests[rid].outcome.total
    ensures t in SentBy(s.sends, rid) && p < SizeOf(s, t) ==> Record(t, p) in Committed(s.log)
  {
    ReachedInv(c, run, s);
    SuccessCommitsSent(c, s, rid, t, p);
  }

  lemma {:induction false} SuccessCommitsSent(c: Constants, s: State, rid: nat, t: nat, p: nat)
    requires Core(s) && SoundTickets(s) && RequestsOk(c, s) && OwnTickets(s) && c.mode.OnCommit?
    requires rid in s.requests && s.requests[rid].Answered? && s.requests[rid].answer.Success?
    ensures SizesSent(s, SentBy(s.sends, rid)) == s.requests[rid].outcome.total
    ensures t in SentBy(s.sends, rid) && p < SizeOf(s, t) ==> Record(t, p) in Committed(s.log)
  {
    var o := s.requests[rid].outcome;
    assert RequestOk(c, s, s.requests[rid]) && Owns(s, rid, o);
    GrantedIsSent(c, s, rid);
    SuccessAcceptsAll(c, s, o);
    if t in SentBy(s.sends, rid) && p < SizeOf(s, t) {
      var i :| 0 <= i < |o.tickets| && Names(o.tickets)[i] == t;
      assert o.tickets[i] in o.tickets;
      SuccessHasEachRecord(c, s, o, o.tickets[i], p);
    }
  }

  lemma SuccessAcceptsAll(c: Constants, s: State, o: EnqueueOutcome)
    requires Core(s) && SoundTickets(s) && c.mode.OnCommit? && RequestOk(c, s, Answered(o, Success))
    ensures o.accepted == o.total
  {
    AnswerTellsRows(c, s, o, Success);
    RowsOfAtMost(s, o, |o.tickets|);
    assert o.tickets[..|o.tickets|] == o.tickets;
  }

  /** Over every run, no two requests share a ticket. */
  lemma {:induction false} RequestsShareNoTicket(c: Constants, run: seq<Action>, s: State, rid: nat, rid': nat, t: nat)
    requires Reached(c, run, s) && t in SentBy(s.sends, rid) && t in SentBy(s.sends, rid')
    ensures rid == rid'
  {
    ReachedInv(c, run, s);
    TicketsAreOwn(s.sends, rid, rid', t);
  }

  /** The answer in enqueue mode, from the records the request sent. */
  predicate SentExactly(answer: Answer, total: nat, sent: nat, vanished: bool) {
    && sent <= total
    && (sent == 0 ==> TellsNothingSent(answer, total, vanished))
    && (0 < sent == total ==> answer.Success?)
    && (0 < sent < total ==> answer == PartialSuccess(Clipped(total - sent)))
  }

  /** Over every run in enqueue mode, the answer tells exactly how many records this request put into the queue. */
  lemma {:induction false} EnqueueAnswersAreExact(c: Constants, run: seq<Action>, s: State, rid: nat)
    requires Reached(c, run, s) && c.mode.OnEnqueue?
    requires rid in s.requests && s.requests[rid].Answered? && !s.requests[rid].answer.InvalidArgument?
    ensures SentExactly(s.requests[rid].answer, s.requests[rid].outcome.total, SizesSent(s, SentBy(s.sends, rid)),
                        s.requests[rid].outcome.disconnected)
  {
    ReachedInv(c, run, s);
    EnqueueAnswerIsExactIn(c, s, rid);
  }

  lemma {:induction false} EnqueueAnswerIsExactIn(c: Constants, s: State, rid: nat)
    requires OwnTickets(s) && RequestsOk(c, s) && c.mode.OnEnqueue?
    requires rid in s.requests && s.requests[rid].Answered? && !s.requests[rid].answer.InvalidArgument?
    ensures SentExactly(s.requests[rid].answer, s.requests[rid].outcome.total, SizesSent(s, SentBy(s.sends, rid)),
                        s.requests[rid].outcome.disconnected)
  {
    assert RequestOk(c, s, s.requests[rid]);
    GrantedIsSent(c, s, rid);
    EnqueueTellsAccepted(c, s, s.requests[rid].outcome, s.requests[rid].answer);
  }

  lemma EnqueueTellsAccepted(c: Constants, s: State, o: EnqueueOutcome, answer: Answer)
    requires c.mode.OnEnqueue? && !answer.InvalidArgument? && RequestOk(c, s, Answered(o, answer))
    ensures SentExactly(answer, o.total, o.accepted, o.disconnected)
  {
  }

  /** Over every run, no record is in the table twice, and each row is labelled with the ticket it was sent under. */
  lemma RowsAreUnique(c: Constants, run: seq<Action>, s: State)
    requires Reached(c, run, s)
    ensures forall i, j :: 0 <= i < j < |Committed(s.log)| ==> Committed(s.log)[i] != Committed(s.log)[j]
    ensures forall t: nat :: Rows(s, t) == OfTicket(Committed(s.log), t)
  {
    ReachedInv(c, run, s);
    forall i, j | 0 <= i < j < |s.log| && s.log[i].token.Item? && s.log[j].token.Item?
      ensures s.log[i].token.record != s.log[j].token.record
    {
      ItemsAreDistinct(s, i, j);
    }
    CommittedOnce(s.log);
    forall t: nat ensures Rows(s, t) == OfTicket(Committed(s.log), t) {
      RowsAreTableRows(s, t);
    }
  }

  /** Over every run, every row of the table is under the origin its chunk was sent with, and the rows
      are the records the writer committed, in order. */
  lemma RowsKeepTheirOrigin(c: Constants, run: seq<Action>, s: State, i: nat)
    requires Reached(c, run, s) && i < |s.archive.rows|
    ensures
      var row := s.archive.rows[i];
      SentUnder(s.archive.origins, row.record.ticket, row.origin)
    ensures RecordsOf(s.archive.rows) == Committed(s.log)
  {
    ReachedInv(c, run, s);
  }

  // ---------------------------------------------------------------- tickets

  lemma InFlightIsUnsettled(s: State, t: nat)
    requires Core(s) && SoundTickets(s) && !s.writer.Stopped? && 0 < t && InFlight(s, t)
    ensures !IsSettled(s.book, t) && !Ended(s.log, t)
  {
    assert LogAt(s, t) + FlowAt(s, t) == Expected(s, t);
    if Hand(s) == Some(t) {
      assert |LogAt(s, t)| <= |LogAt(s, t) + FlowAt(s, t)|;
      UntouchedIsUnsettled(s, t);
      EndedShows(s.log, t);
    } else {
      assert |FlowAt(s, t)| <= |LogAt(s, t) + FlowAt(s, t)|;
      NoEarlyEnd(LogAt(s, t), FlowAt(s, t), t, Named(t, SizeOf(s, t)));
      EndedShows(s.log, t);
      assert Due(s, t) == Summary(s.log, t);
      if !Ledger.State(s.book, t).Unsettled? {
        SettledStays(Ledger.State(s.book, t), OpsLeft(s), t);
      }
    }
  }

  /** Over every run, while the writer lives, an issued ticket is unsettled exactly when some of its
      chunk is in flight or the writer has its settling call still to make, and never both. */
  lemma NoTicketLeaks(c: Constants, run: seq<Action>, s: State, t: nat)
    requires Reached(c, run, s) && !s.writer.Stopped? && 1 <= t <= s.book.issued
    ensures !IsSettled(s.book, t) <==> InFlight(s, t) || Complete(t) in OpsLeft(s)
    ensures !(InFlight(s, t) && Complete(t) in OpsLeft(s))
  {
    ReachedInv(c, run, s);
    assert CallDue(s, t);
    if InFlight(s, t) {
      InFlightIsUnsettled(s, t);
    } else {
      LandedIsDue(s, t);
    }
  }

  /** Nothing is queued, buffered, batched or in anybody's hands. */
  predicate Quiet(s: State) {
    s.gate.Open? && s.queue == [] && s.entries == [] && Down(s) == [] && OpsLeft(s) == []
  }

  lemma UnissuedIsUnsettled(s: State, t: nat)
    requires LogIsPrefix(s) && BookMatchesLog(s) && s.book.issued < t
    ensures !IsSettled(s.book, t)
  {
    assert LogAt(s, t) <= Expected(s, t);
    UntouchedIsUnsettled(s, t);
  }

  lemma QuietFlow(s: State, t: nat)
    requires Quiet(s)
    ensures !InFlight(s, t)
  {
    assert CommandLists([]) == [] && MessageLists([]) == [] && EntryTokens([]) == [];
  }

  lemma RestIsCaughtUp(c: Constants, s: State)
    requires Inv(c, s) && !s.writer.Stopped? && Quiet(s)
    ensures s.book.through == s.book.issued && s.book.above == {}
  {
    forall t: nat | 1 <= t <= s.book.issued ensures IsSettled(s.book, t) {
      QuietFlow(s, t);
      LandedIsDue(s, t);
    }
    forall t: nat | s.book.issued < t ensures !IsSettled(s.book, t) {
      UnissuedIsUnsettled(s, t);
    }
    WatermarkAtRest(s.book);
  }

  /** Over every run, when the pipeline has come to rest alive the watermark is the last issued
      ticket and nothing is parked above it. */
  lemma WatermarkCatchesUp(c: Constants, run: seq<Action>, s: State)
    requires Reached(c, run, s) && !s.writer.Stopped? && Quiet(s)
    ensures s.book.through == s.book.issued && s.book.above == {}
  {
    ReachedInv(c, run, s);
    RestIsCaughtUp(c, s);
  }

  lemma WatermarkAtRest(b: Book)
    requires Valid(b)
    requires forall t: nat :: 1 <= t <= b.issued ==> IsSettled(b, t)
    requires forall t: nat :: b.issued < t ==> !IsSettled(b, t)
    ensures b.through == b.issued && b.above == {}
  {
    assert !IsSettled(b, b.through + 1) && IsSettled(b, b.through);
    if b.above != {} {
      var t :| t in b.above;
      assert IsSettled(b, t);
    }
  }

  lemma CallGrows(b: Book, op: Op)
    ensures b.through <= Apply(b, op).through
  {
  }

  lemma ThroughGrows(c: Constants, s: State, a: Action)
    requires Enabled(c, s, a)
    ensures s.book.through <= Do(c, s, a).book.through
  {
    if a.SettleOne? {
      CallGrows(s.book, s.writer.ops[0]);
    } else if a.Send? {
      SendGrows(c, s);
    } else if a.Ingest? {
      IngestGrows(c, s, a.clock);
    } else {
      BookUntouched(c, s, a);
    }
  }

  lemma BookUntouched(c: Constants, s: State, a: Action)
    requires Enabled(c, s, a) && !a.SettleOne? && !a.Send? && !a.Ingest?
    ensures Do(c, s, a).book.through == s.book.through
  {
  }

  lemma SendGrows(c: Constants, s: State)
    requires s.gate.Taken? && s.gate.hand.Some? && s.gate.todo != []
    ensures s.book.through <= DoSend(c, s).book.through
  {
    CallGrows(s.book, Void(s.gate.hand.value));
  }

  lemma IngestGrows(c: Constants, s: State, clock: nat -> nat)
    requires s.queue != [] && Usable(c, s)
    ensures s.book.through <= DoIngest(c, s, clock).book.through
  {
    if s.queue[0].Logs? {
      CallGrows(s.book, Void(s.queue[0].ticket));
    }
  }

  lemma {:induction false} ThroughGrowsAlong(c: Constants, s: State, more: seq<Action>)
    requires Inv(c, s) && Legal(c, s, more)
    ensures s.book.through <= Exec(c, s, more).book.through
    decreases |more|
  {
    if more != [] {
      ThroughGrows(c, s, more[0]);
      InvKept(c, s, more[0]);
      ThroughGrowsAlong(c, Do(c, s, more[0]), more[1..]);
    }
  }

  /** Over every run, a published watermark claims only tickets that are settled then and in every
      later state, although publications may overtake one another; and it says `closed` only
      once the writer has stopped. */
  lemma {:induction false} PublishedNeverOverclaims(c: Constants, run: seq<Action>, s: State, more: seq<Action>, t: nat)
    requires Reached(c, run, s) && Legal(c, s, more) && t <= s.published.through
    ensures IsSettled(Exec(c, s, more).book, t)
    ensures s.published.closed ==> s.writer.Stopped?
  {
    ReachedInv(c, run, s);
    ThroughGrowsAlong(c, s, more);
  }

  /** Over every run, a handler released by the watermark finds every ticket of its request final. */
  lemma ReleasedOnFinalTickets(c: Constants, run: seq<Action>, s: State, rid: nat)
    requires Reached(c, run, s) && Enabled(c, s, Release(rid))
    ensures AllFinal(s, s.requests[rid].outcome)
    ensures !s.published.closed ==> forall a :: a in s.requests[rid].outcome.tickets ==> IsSettled(s.book, a.ticket)
  {
    ReachedInv(c, run, s);
    var o := s.requests[rid].outcome;
    ReleaseIsFinal(s, o);
    if !s.published.closed {
      forall a | a in o.tickets ensures IsSettled(s.book, a.ticket) {
        LastBounds(o, a);
      }
    }
  }

  /** Over every run, a settled ticket is failed exactly when one of its records was dropped, and
      then its committed count is the number of its rows. */
  lemma {:induction false} FailedExactlyWhenDropped(c: Constants, run: seq<Action>, s: State, t: nat)
    requires Reached(c, run, s) && 0 < t && IsSettled(s.book, t)
    ensures
      var st := Ledger.State(s.book, t);
      && (st.Failed? <==> 0 < Tally(s.log, t, false))
      && (st.Failed? ==> st.progress == Progress(Rows(s, t), Tally(s.log, t, false)))
      && (st.Completed? ==> Rows(s, t) == SizeOf(s, t))
  {
    ReachedInv(c, run, s);
    FinalMatchesLog(s, t);
    SettledIsWhole(s, t);
  }

  lemma {:induction false} SettledIsWhole(s: State, t: nat)
    requires LogIsPrefix(s) && Ended(s.log, t)
    ensures Rows(s, t) + Tally(s.log, t, false) == SizeOf(s, t)
  {
    EndedIsWhole(s, t);
    TallySum(s.log, t);
    EndsProj(Tokens(s.log), t);
    EndsChunk(t, Named(t, SizeOf(s, t)), t);
  }

  /** The records of `t` on their way to the writer. */
  function Travelling(s: State, t: nat): int {
    |FlowAt(s, t)| - Ends(FlowAt(s, t), t)
  }

  /** Over every run, while the writer lives every record sent is committed, dropped or travelling, and only one of them. */
  lemma {:induction false} EveryRecordAccounted(c: Constants, run: seq<Action>, s: State, t: nat)
    requires Reached(c, run, s) && !s.writer.Stopped? && t in s.sizes
    ensures Rows(s, t) + Tally(s.log, t, false) + Travelling(s, t) == s.sizes[t]
  {
    ReachedInv(c, run, s);
    assert LogAt(s, t) + FlowAt(s, t) == Expected(s, t);
    EndsAppend(LogAt(s, t), FlowAt(s, t), t);
    EndsChunk(t, Named(t, s.sizes[t]), t);
    TallySum(s.log, t);
    EndsProj(Tokens(s.log), t);
  }

  // ---------------------------------------------------------------- flushes and admission

  /** Over every run, when a flush reaches the writer every ticket issued before it was sent is settled. */
  lemma FlushIsABarrier(c: Constants, run: seq<Action>, s: State, t: nat)
    requires Reached(c, run, s) && s.writer.Idle? && s.commands != [] && s.commands[0].Flush?
    requires 1 <= t <= s.commands[0].bound
    ensures IsSettled(s.book, t)
  {
    ReachedInv(c, run, s);
    FlushFindsEverythingSettled(s, t);
  }

  /** Over every run, whatever the producers and the consumer do: a reserved send fits unless the
      batcher is gone, the chunks of a request are contiguous in the order of sends, tickets
      increase along it, and every request was admitted whole, refused whole, or cut short
      by the death of the pipeline with its records balanced. */
  lemma AdmissionIsSound(c: Constants, run: seq<Action>, s: State)
    requires Reached(c, run, s)
    ensures Enabled(c, s, Send) && !s.batcher.Gone? ==> |s.queue| < c.capacity
    ensures Contiguous(s.sends) && Increasing(s.sends)
    ensures forall rid :: rid in s.requests ==> WholeOrDead(s, s.requests[rid].outcome)
    ensures forall rid :: rid in s.requests && !(s.requests[rid].Answered? && s.requests[rid].answer.InvalidArgument?) ==>
              Balanced(s.requests[rid].outcome)
  {
    ReachedInv(c, run, s);
  }

  /** Over every run, the outstanding count is exactly the number of issued unsettled tickets. */
  lemma OutstandingIsExact(c: Constants, run: seq<Action>, s: State)
    requires Reached(c, run, s)
    ensures Outstanding(s.book) == |Pending(s.book)|
  {
    ReachedInv(c, run, s);
    forall t | t in s.book.above ensures t <= s.book.issued {
      if s.book.issued < t {
        UnissuedIsUnsettled(s, t);
      }
    }
    OutstandingIsExactlyPending(s.book);
  }

  /** Closing the ledger reaches every handler: once its last watermark is published, whoever waits may go on, and whatever
      it finds is final. */
  lemma CloseReleases(c: Constants, run: seq<Action>, s: State, rid: nat)
    requires Reached(c, run, s) && s.writer.Stopped?
    requires rid in s.requests && s.requests[rid].Waiting? && MustWait(s.requests[rid].outcome, c.mode)
    ensures
      var closed := DoClose(s);
      var last := Published(closed.book);
      && Legal(c, s, [CloseLedger, Publish(last), Release(rid)])
      && last == Watermark(s.book.through, true)
      && AllFinal(s, s.requests[rid].outcome)
  {
    var closed := DoClose(s);
    var last := Published(closed.book);
    var shown := closed.(published := last, pending := closed.pending - multiset{last});
    assert Do(c, s, CloseLedger) == closed && Do(c, closed, Publish(last)) == shown;
    LegalThree(c, s, closed, shown, CloseLedger, Publish(last), Release(rid));
  }

  lemma {:induction false} LegalThree(c: Constants, s: State, s1: State, s2: State, a: Action, b: Action, d: Action)
    requires Enabled(c, s, a) && Do(c, s, a) == s1 && Enabled(c, s1, b) && Do(c, s1, b) == s2 && Enabled(c, s2, d)
    ensures Legal(c, s, [a, b, d])
  {
    assert [a, b, d][1..] == [b, d] && [b, d][1..] == [d] && [d][1..] == [];
    assert Legal(c, Do(c, s2, d), []);
    assert Legal(c, s2, [d]);
    assert Legal(c, s1, [b, d]);
  }
}
