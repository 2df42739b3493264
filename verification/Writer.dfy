/** The single writer: one transaction per batch under a retry/salvage policy, then settlement
of the batch's tickets on the ledger.

A transaction is atomic: rows are staged and reach the table only when the commit succeeds.
What the database answers is an oracle: for each attempt, the failure class (if any) of its
start, of the resource upsert, of every row and of the commit. */
module Writer {
  import opened Clock
  import opened Stream
  import opened InsertBatching
  import opened OriginBatching

  datatype FailureClass = Retryable | Poison | Fatal

  datatype Attempt = Attempt(
    start: Option<FailureClass>,
    resource: Option<FailureClass>,
    row: nat -> Option<FailureClass>,
    commit: Option<FailureClass>)

  // ---------------------------------------------------------------- one insert pass

  /** The ticket of each record of the batch, read off its segments. */
  function Labels(segments: seq<Segment>): seq<nat> {
    if segments == [] then [] else Repeat(segments[0].ticket, segments[0].records) + Labels(segments[1..])
  }

  function Repeat(t: nat, n: nat): (r: seq<nat>)
    ensures |r| == n && forall i :: 0 <= i < n ==> r[i] == t
  {
    seq(n, _ => t)
  }

  /** Which rows survive a pass: a row is dropped exactly when it is poison. */
  function Fates(row: nat -> Option<FailureClass>, n: nat): (r: seq<bool>)
    ensures |r| == n && forall i :: 0 <= i < n ==> r[i] == (row(i) != Some(Poison))
  {
    seq(n, i requires 0 <= i < n => row(i) != Some(Poison))
  }

  function AllKept(n: nat): (r: seq<bool>)
    ensures |r| == n && forall i :: 0 <= i < n ==> r[i]
  {
    seq(n, _ => true)
  }

  function Survivors(records: seq<Record>, fates: seq<bool>): seq<Record>
    requires |records| == |fates|
  {
    if records == [] then [] else (if fates[0] then [records[0]] else []) + Survivors(records[1..], fates[1..])
  }

  /** A row of the table: a record under the origin its batch was written with. */
  datatype Row = Row(origin: Origin, record: Record)

  function RowsUnder(origin: Origin, records: seq<Record>): (r: seq<Row>)
    ensures |r| == |records| && forall i :: 0 <= i < |r| ==> r[i] == Row(origin, records[i])
  {
    seq(|records|, i requires 0 <= i < |records| => Row(origin, records[i]))
  }

  /** Rows labelled `t` whose fate is `kept`. */
  function Count(labels: seq<nat>, fates: seq<bool>, t: nat, kept: bool): nat
    requires |labels| == |fates|
  {
    if labels == [] then 0
    else (if labels[0] == t && fates[0] == kept then 1 else 0) + Count(labels[1..], fates[1..], t, kept)
  }

  function CountFate(fates: seq<bool>, kept: bool): nat {
    if fates == [] then 0 else (if fates[0] == kept then 1 else 0) + CountFate(fates[1..], kept)
  }

  lemma {:induction false} FatesAddUp(fates: seq<bool>)
    ensures CountFate(fates, true) + CountFate(fates, false) == |fates|
  {
    if fates != [] {
      FatesAddUp(fates[1..]);
    }
  }

  lemma {:induction false} CountSnoc(labels: seq<nat>, fates: seq<bool>, l: nat, f: bool, t: nat, kept: bool)
    requires |labels| == |fates|
    ensures Count(labels + [l], fates + [f], t, kept)
         == Count(labels, fates, t, kept) + (if l == t && f == kept then 1 else 0)
  {
    if labels == [] {
      assert labels + [l] == [l] && fates + [f] == [f];
    } else {
      CountSnoc(labels[1..], fates[1..], l, f, t, kept);
      assert (labels + [l])[1..] == labels[1..] + [l] && (fates + [f])[1..] == fates[1..] + [f];
    }
  }

  lemma {:induction false} CountFateSnoc(fates: seq<bool>, f: bool, kept: bool)
    ensures CountFate(fates + [f], kept) == CountFate(fates, kept) + (if f == kept then 1 else 0)
  {
    if fates == [] {
      assert fates + [f] == [f];
    } else {
      CountFateSnoc(fates[1..], f, kept);
      assert (fates + [f])[1..] == fates[1..] + [f];
    }
  }

  lemma SurvivorsHead(a: seq<Record>, b: seq<Record>, f: seq<bool>, g: seq<bool>)
    requires |a| == |f| && |b| == |g| && a != []
    ensures Survivors(a + b, f + g) == (if f[0] then [a[0]] else []) + Survivors(a[1..] + b, f[1..] + g)
  {
    assert (a + b)[1..] == a[1..] + b && (f + g)[1..] == f[1..] + g;
  }

  lemma {:induction false} SurvivorsAppend(a: seq<Record>, b: seq<Record>, f: seq<bool>, g: seq<bool>)
    requires |a| == |f| && |b| == |g|
    ensures Survivors(a + b, f + g) == Survivors(a, f) + Survivors(b, g)
  {
    if a == [] {
      assert a + b == b && f + g == g;
    } else {
      SurvivorsHead(a, b, f, g);
      SurvivorsAppend(a[1..], b, f[1..], g);
    }
  }

  datatype Salvage = Salvage(kept: nat, dropped: nat, byTicket: map<nat, (nat, nat)>)

  /** The accounting of a tolerant pass, told row by row. */
  ghost predicate Accounts(o: Salvage, labels: seq<nat>, fates: seq<bool>)
    requires |labels| == |fates|
  {
    && o.kept == CountFate(fates, true)
    && o.dropped == CountFate(fates, false)
    && (forall t :: t in o.byTicket ==> t != 0 && t in labels)
    && (forall t :: t != 0 && t in labels ==>
          t in o.byTicket && o.byTicket[t] == (Count(labels, fates, t, true), Count(labels, fates, t, false)))
  }

  datatype Pass = Aborted(class_: FailureClass) | Staged(rows: seq<Record>, outcome: Salvage)

  /** A row that lets a pass go on; a tolerant pass also skips poison. */
  predicate RowFine(row: nat -> Option<FailureClass>, i: nat, tolerant: bool) {
    row(i).None? || (tolerant && row(i) == Some(Poison))
  }

  predicate RowsFine(row: nat -> Option<FailureClass>, n: nat, tolerant: bool) {
    forall i: nat :: i < n ==> RowFine(row, i, tolerant)
  }

  /** The first row that is not fine fails with class `c`. */
  ghost predicate RowsFail(row: nat -> Option<FailureClass>, n: nat, tolerant: bool, c: FailureClass) {
    exists i: nat :: i < n && !RowFine(row, i, tolerant) && row(i) == Some(c) && RowsFine(row, i, tolerant)
  }

  /** A whole transaction goes through: it starts, finds its resource, inserts its rows and commits. */
  predicate Succeeds(a: Attempt, n: nat, tolerant: bool) {
    a.start.None? && a.resource.None? && RowsFine(a.row, n, tolerant) && a.commit.None?
  }

  /** Its first failing stage fails with class `c`. */
  ghost predicate FailsWith(a: Attempt, n: nat, tolerant: bool, c: FailureClass) {
    if a.start.Some? then a.start == Some(c)
    else if a.resource.Some? then a.resource == Some(c)
    else RowsFail(a.row, n, tolerant, c) || (RowsFine(a.row, n, tolerant) && a.commit == Some(c))
  }

  /** A transaction succeeds or fails, and not in two ways. */
  lemma OneFate(a: Attempt, n: nat, tolerant: bool, c: FailureClass, d: FailureClass)
    ensures !(Succeeds(a, n, tolerant) && FailsWith(a, n, tolerant, c))
    ensures FailsWith(a, n, tolerant, c) && FailsWith(a, n, tolerant, d) ==> c == d
  {
    if RowsFail(a.row, n, tolerant, c) && RowsFail(a.row, n, tolerant, d) {
      var i: nat :| i < n && !RowFine(a.row, i, tolerant) && a.row(i) == Some(c) && RowsFine(a.row, i, tolerant);
      var j: nat :| j < n && !RowFine(a.row, j, tolerant) && a.row(j) == Some(d) && RowsFine(a.row, j, tolerant);
      assert i == j;
    }
  }

  lemma {:induction false} LabelsCover(segments: seq<Segment>)
    ensures |Labels(segments)| == Sum(segments)
  {
    if segments != [] {
      LabelsCover(segments[1..]);
    }
  }

  function Bump(m: map<nat, (nat, nat)>, t: nat, kept: bool): map<nat, (nat, nat)> {
    if t == 0 then m
    else
      var (k, d) := if t in m then m[t] else (0, 0);
      m[t := if kept then (k + 1, d) else (k, d + 1)]
  }

  lemma AccountRow(o: Salvage, labels: seq<nat>, fates: seq<bool>, l: nat, f: bool)
    requires |labels| == |fates| && Accounts(o, labels, fates)
    ensures Accounts(
      Salvage(o.kept + (if f then 1 else 0), o.dropped + (if f then 0 else 1), Bump(o.byTicket, l, f)),
      labels + [l], fates + [f])
  {
    CountFateSnoc(fates, f, true);
    CountFateSnoc(fates, f, false);
    forall t: nat, k: bool
      ensures Count(labels + [l], fates + [f], t, k) == Count(labels, fates, t, k) + (if l == t && f == k then 1 else 0)
    {
      CountSnoc(labels, fates, l, f, t, k);
    }
    if l !in labels {
      CountAbsent(labels, fates, l, true);
      CountAbsent(labels, fates, l, false);
    }
  }

  lemma {:induction false} CountAbsent(labels: seq<nat>, fates: seq<bool>, t: nat, kept: bool)
    requires |labels| == |fates| && t !in labels
    ensures Count(labels, fates, t, kept) == 0
  {
    if labels != [] {
      CountAbsent(labels[1..], fates[1..], t, kept);
    }
  }

  /** The rows and the account after one more row. */
  lemma NextRow(records: seq<Record>, labels: seq<nat>, fates: seq<bool>, i: nat, o: Salvage)
    requires i < |records| == |labels| == |fates|
    ensures Survivors(records[..i + 1], fates[..i + 1]) ==
              Survivors(records[..i], fates[..i]) + if fates[i] then [records[i]] else []
    ensures Accounts(o, labels[..i], fates[..i]) ==>
              Accounts(Salvage(o.kept + (if fates[i] then 1 else 0), o.dropped + (if fates[i] then 0 else 1),
                               Bump(o.byTicket, labels[i], fates[i])),
                       labels[..i + 1], fates[..i + 1])
  {
    assert records[..i + 1] == records[..i] + [records[i]];
    assert fates[..i + 1] == fates[..i] + [fates[i]] && labels[..i + 1] == labels[..i] + [labels[i]];
    SurvivorsAppend(records[..i], [records[i]], fates[..i], [fates[i]]);
    assert [records[i]][1..] == [] && [fates[i]][1..] == [];
    if Accounts(o, labels[..i], fates[..i]) {
      AccountRow(o, labels[..i], fates[..i], labels[i], fates[i]);
    }
  }

  /** One insert pass inside an open transaction. The strict pass stops at the first failing
      row; the tolerant pass skips and counts poison rows and stops at any other failure. */
  method InsertLogs(batch: Submission, attempt: Attempt, tolerant: bool) returns (pass: Pass)
    requires WellFormed(batch)
    ensures pass.Staged? <==> attempt.resource.None? && RowsFine(attempt.row, |batch.records|, tolerant)
    ensures pass.Aborted? && attempt.resource.Some? ==> attempt.resource == Some(pass.class_)
    ensures pass.Aborted? && attempt.resource.None? ==> RowsFail(attempt.row, |batch.records|, tolerant, pass.class_)
    ensures pass.Staged? ==> pass.rows == Survivors(batch.records, Fates(attempt.row, |batch.records|))
    ensures pass.Staged? && tolerant ==>
      |Labels(batch.segments)| == |batch.records|
      && Accounts(pass.outcome, Labels(batch.segments), Fates(attempt.row, |batch.records|))
  {
    if attempt.resource.Some? {
      return Aborted(attempt.resource.value);
    }
    LabelsCover(batch.segments);
    var labels, n := Labels(batch.segments), |batch.records|;
    ghost var fates := Fates(attempt.row, n);
    var rows, kept, dropped, byTicket: map<nat, (nat, nat)> := [], 0, 0, map[];
    var i := 0;
    while i < n
      invariant 0 <= i <= n
      invariant RowsFine(attempt.row, i, tolerant)
      invariant rows == Survivors(batch.records[..i], fates[..i])
      invariant tolerant ==> Accounts(Salvage(kept, dropped, byTicket), labels[..i], fates[..i])
    {
      NextRow(batch.records, labels, fates, i, Salvage(kept, dropped, byTicket));
      var answer := attempt.row(i);
      if answer.None? {
        rows, kept := rows + [batch.records[i]], kept + 1;
        if tolerant {
          byTicket := Bump(byTicket, labels[i], true);
        }
      } else if tolerant && answer.value == Poison {
        dropped, byTicket := dropped + 1, Bump(byTicket, labels[i], false);
      } else {
        assert !RowFine(attempt.row, i, tolerant);
        return Aborted(answer.value);
      }
      i := i + 1;
    }
    assert batch.records[..n] == batch.records && fates[..n] == fates && labels[..n] == labels;
    pass := Staged(rows, Salvage(kept, dropped, byTicket));
  }

  lemma StrictKeepsAll(row: nat -> Option<FailureClass>, n: nat)
    requires RowsFine(row, n, false)
    ensures forall i :: 0 <= i < n ==> Fates(row, n)[i]
  {
    forall i | 0 <= i < n ensures Fates(row, n)[i] {
      assert RowFine(row, i, false);
    }
  }

  lemma {:induction false} SurvivorsAll(records: seq<Record>, fates: seq<bool>)
    requires |records| == |fates| && forall i :: 0 <= i < |fates| ==> fates[i]
    ensures Survivors(records, fates) == records
  {
    if records != [] {
      SurvivorsAll(records[1..], fates[1..]);
    }
  }

  // ---------------------------------------------------------------- the policy

  const MAX_TRANSIENT_RETRIES: nat := 4

  /** Pause before retry number `attempt`, in milliseconds. */
  function BackoffDelay(attempt: nat): nat {
    var factor := if attempt == 0 then 1 else if attempt == 1 then 2 else if attempt == 2 then 4
                  else if attempt == 3 then 8 else 16;
    if 250 * factor <= 4000 then 250 * factor else 4000
  }

  /** The pause doubles from a quarter of a second on, up to four seconds. */
  lemma {:induction false} BackoffDoubles(attempt: nat)
    ensures BackoffDelay(attempt) == if 250 * Pow2(attempt) <= 4000 then 250 * Pow2(attempt) else 4000
  {
    assert Pow2(1) == 2 && Pow2(2) == 4 && Pow2(3) == 8 && Pow2(4) == 16;
    if 4 < attempt {
      PowersGrow(4, attempt);
    }
  }

  lemma {:induction false} PowersGrow(k: nat, n: nat)
    requires k <= n
    ensures Pow2(k) <= Pow2(n)
  {
    if k < n {
      PowersGrow(k, n - 1);
    }
  }

  datatype Persisted = Clean | Salvaged(outcome: Salvage) | Died(class_: FailureClass)

  /** How a batch ends, read off its last strict attempt and the salvage: clean if the attempt succeeds,
      salvaged if it meets poison and the salvage succeeds, and given up otherwise: at once on a fatal
      failure, after all retries on a transient one, or when the salvage fails, for whatever reason. */
  ghost predicate Concludes(last: Attempt, salvage: Attempt, n: nat, result: Persisted, tries: nat) {
    match result
    case Clean => Succeeds(last, n, false)
    case Salvaged(_) => FailsWith(last, n, false, Poison) && Succeeds(salvage, n, true)
    case Died(c) =>
      || (FailsWith(last, n, false, Fatal) && c == Fatal)
      || (FailsWith(last, n, false, Retryable) && c == Retryable && tries == MAX_TRANSIENT_RETRIES + 1)
      || (FailsWith(last, n, false, Poison) && FailsWith(salvage, n, true, c))
  }

  class Database {
    var rows: seq<Row>

    constructor ()
      ensures rows == []
    {
      rows := [];
    }

    /** One strict transaction. */
    method RunTransaction(batch: Submission, attempt: Attempt) returns (failure: Option<FailureClass>)
      requires WellFormed(batch)
      modifies this
      ensures failure.None? <==> Succeeds(attempt, |batch.records|, false)
      ensures failure.Some? ==> FailsWith(attempt, |batch.records|, false, failure.value)
      ensures rows == old(rows) + (if failure.None? then RowsUnder(batch.origin, batch.records) else [])
    {
      if attempt.start.Some? {
        return attempt.start;
      }
      var pass := InsertLogs(batch, attempt, false);
      if pass.Aborted? {
        return Some(pass.class_);
      }
      if attempt.commit.Some? {
        return attempt.commit;
      }
      StrictKeepsAll(attempt.row, |batch.records|);
      SurvivorsAll(batch.records, Fates(attempt.row, |batch.records|));
      rows := rows + RowsUnder(batch.origin, pass.rows);
      failure := None;
    }

    /** The second chance of a poisoned batch: healthy rows commit, poison rows are dropped. */
    method FinishSalvage(batch: Submission, attempt: Attempt) returns (result: Persisted)
      requires WellFormed(batch)
      modifies this
      ensures !result.Clean? && (result.Salvaged? <==> Succeeds(attempt, |batch.records|, true))
      ensures result.Died? ==> FailsWith(attempt, |batch.records|, true, result.class_) && rows == old(rows)
      ensures result.Salvaged? ==>
                var fates := Fates(attempt.row, |batch.records|);
                && rows == old(rows) + RowsUnder(batch.origin, Survivors(batch.records, fates))
                && result.outcome.kept + result.outcome.dropped == |batch.records|
                && |Labels(batch.segments)| == |fates| && Accounts(result.outcome, Labels(batch.segments), fates)
    {
      if attempt.start.Some? {
        return Died(attempt.start.value);
      }
      var pass := InsertLogs(batch, attempt, true);
      if pass.Aborted? {
        return Died(pass.class_);
      }
      if attempt.commit.Some? {
        return Died(attempt.commit.value);
      }
      FatesAddUp(Fates(attempt.row, |batch.records|));
      rows := rows + RowsUnder(batch.origin, pass.rows);
      result := Salvaged(pass.outcome);
    }

    /** Up to five strict attempts and at most one salvage pass; the batch reaches the table at
        most once, whole or without its poison rows, or not at all. */
    method PersistWithPolicy(batch: Submission, strict: nat -> Attempt, salvage: Attempt)
      returns (result: Persisted, tries: nat, slept: nat)
      requires WellFormed(batch)
      modifies this
      ensures 1 <= tries <= MAX_TRANSIENT_RETRIES + 1 && slept == 250 * (Pow2(tries - 1) - 1)
      ensures forall k :: 0 <= k < tries - 1 ==> FailsWith(strict(k), |batch.records|, false, Retryable)
      ensures Concludes(strict(tries - 1), salvage, |batch.records|, result, tries)
      ensures match result
              case Clean => rows == old(rows) + RowsUnder(batch.origin, batch.records)
              case Died(_) => rows == old(rows)
              case Salvaged(outcome) =>
                var fates := Fates(salvage.row, |batch.records|);
                && rows == old(rows) + RowsUnder(batch.origin, Survivors(batch.records, fates))
                && outcome.kept + outcome.dropped == |batch.records|
                && |Labels(batch.segments)| == |fates| && Accounts(outcome, Labels(batch.segments), fates)
    {
      tries, slept := 1, 0;
      while true
        invariant 1 <= tries <= MAX_TRANSIENT_RETRIES + 1 && slept == 250 * (Pow2(tries - 1) - 1)
        invariant forall k :: 0 <= k < tries - 1 ==> FailsWith(strict(k), |batch.records|, false, Retryable)
        invariant rows == old(rows)
        decreases MAX_TRANSIENT_RETRIES + 1 - tries
      {
        var failure := RunTransaction(batch, strict(tries - 1));
        match failure {
          case None =>
            return Clean, tries, slept;
          case Some(Poison) =>
            result := FinishSalvage(batch, salvage);
            return;
          case Some(class_) =>
            if class_ == Fatal || tries == MAX_TRANSIENT_RETRIES + 1 {
              return Died(class_), tries, slept;
            }
        }
        BackoffDoubles(tries - 1);
        PowersGrow(tries - 1, 3);
        assert Pow2(3) == 8;
        slept := slept + BackoffDelay(tries - 1);
        tries := tries + 1;
      }
    }
  }
}
