/** The commit-ticket ledger behind the `durability = "commit"` acknowledgement mode.

`Book` is the state guarded by the ledger's lock and `Apply` what each locked section
does to it. The theorems say that the compressed representation (a contiguous watermark
plus the parked tickets above it) is, whatever the order and repetition of the calls,
exactly a family of independent per-ticket automata. `CommitLedger` is the object itself. */
module Ledger {

  const U64_MAX: nat := 0xFFFF_FFFF_FFFF_FFFF

  datatype Watermark = Watermark(through: nat, closed: bool)

  datatype Progress = Progress(committed: nat, dropped: nat)

  datatype TicketState =
    | Unsettled(progress: Progress)
    | Completed
    | Failed(progress: Progress)

  const NO_PROGRESS := Progress(0, 0)

  datatype Book = Book(
    issued: nat,
    through: nat,
    above: set<nat>,
    progress: map<nat, Progress>,
    failed: set<nat>,
    closed: bool)

  /** One locked section of the ledger. */
  datatype Op =
    | Issue
    | NoteCommitted(ticket: nat, records: nat)
    | NoteDropped(ticket: nat, records: nat)
    | Complete(ticket: nat)
    | Void(ticket: nat)
    | Close

  const FRESH_BOOK := Book(0, 0, {}, map[], {}, false)

  predicate IsSettled(b: Book, t: nat) {
    t <= b.through || t in b.above
  }

  function ProgressOf(b: Book, t: nat): Progress {
    if t in b.progress then b.progress[t] else NO_PROGRESS
  }

  function Published(b: Book): Watermark {
    Watermark(b.through, b.closed)
  }

  /** Parked tickets lie beyond the first gap; only failed tickets keep their progress
      once settled, and they are exactly the settled tickets with a dropped record. */
  ghost predicate Valid(b: Book) {
    && (forall t :: t in b.above ==> b.through + 1 < t)
    && (forall t :: t in b.failed ==> IsSettled(b, t) && t in b.progress && 0 < b.progress[t].dropped)
    && (forall t :: t in b.progress ==> 0 < t && (t in b.failed || !IsSettled(b, t)))
    && (forall t :: t in b.progress ==> b.progress[t].committed <= U64_MAX && b.progress[t].dropped <= U64_MAX)
  }

  // ---------------------------------------------------------------- transitions

  function SatAdd(x: nat, y: nat): nat {
    if x + y <= U64_MAX then x + y else U64_MAX
  }

  function Note(b: Book, t: nat, p: Progress): Book {
    if t == 0 || IsSettled(b, t) then b else b.(progress := b.progress[t := p])
  }

  /** Moves the watermark over every parked ticket that has become contiguous. */
  function Drain(through: nat, above: set<nat>): (r: (nat, set<nat>))
    ensures through <= r.0
    ensures forall t: nat :: (t <= r.0 || t in r.1) <==> (t <= through || t in above)
    ensures r.0 + 1 !in r.1 && r.1 <= above
    ensures (forall t :: t in above ==> through < t) ==> forall t :: t in r.1 ==> r.0 + 1 < t
    decreases |above|
  {
    if through + 1 in above then
      assert forall t :: t in above <==> t == through + 1 || t in above - {through + 1};
      Drain(through + 1, above - {through + 1})
    else (through, above)
  }

  function Settle(b: Book, t: nat, voided: bool): Book {
    if IsSettled(b, t) then b
    else
      var p := ProgressOf(b, t);
      var fails := !voided && 0 < p.dropped;
      var b1 := if fails then b.(failed := b.failed + {t}) else b.(progress := b.progress - {t});
      if t == b.through + 1 then
        var (through, above) := Drain(t, b.above);
        b1.(through := through, above := above)
      else
        b1.(above := b.above + {t})
  }

  function Apply(b: Book, op: Op): Book {
    match op
    case Issue => b.(issued := b.issued + 1)
    case NoteCommitted(t, k) =>
      var p := ProgressOf(b, t);
      if k == 0 then b else Note(b, t, p.(committed := SatAdd(p.committed, k)))
    case NoteDropped(t, k) =>
      var p := ProgressOf(b, t);
      if k == 0 then b else Note(b, t, p.(dropped := SatAdd(p.dropped, k)))
    case Complete(t) => Settle(b, t, false)
    case Void(t) => Settle(b, t, true)
    case Close => b.(closed := true)
  }

  function ApplyAll(b: Book, ops: seq<Op>): Book
    decreases |ops|
  {
    if ops == [] then b else ApplyAll(Apply(b, ops[0]), ops[1..])
  }

  function State(b: Book, t: nat): TicketState {
    if t == 0 then Completed
    else if t in b.failed then Failed(ProgressOf(b, t))
    else if IsSettled(b, t) then Completed
    else Unsettled(ProgressOf(b, t))
  }

  // ---------------------------------------------------------------- the per-ticket automaton

  /** What a locked section does to one ticket, told without watermarks or parked sets. */
  function OnTicket(st: TicketState, op: Op, t: nat): TicketState {
    match st
    case Unsettled(p) => (
      match op
      case NoteCommitted(u, k) => if u == t then Unsettled(p.(committed := SatAdd(p.committed, k))) else st
      case NoteDropped(u, k) => if u == t then Unsettled(p.(dropped := SatAdd(p.dropped, k))) else st
      case Complete(u) => if u != t then st else if 0 < p.dropped then Failed(p) else Completed
      case Void(u) => if u == t then Completed else st
      case Issue => st
      case Close => st)
    case Completed => st
    case Failed(_) => st
  }

  function OnTicketAll(st: TicketState, ops: seq<Op>, t: nat): TicketState
    decreases |ops|
  {
    if ops == [] then st else OnTicketAll(OnTicket(st, ops[0], t), ops[1..], t)
  }

  lemma {:induction false} OnTicketAppend(st: TicketState, a: seq<Op>, b: seq<Op>, t: nat)
    ensures OnTicketAll(st, a + b, t) == OnTicketAll(OnTicketAll(st, a, t), b, t)
    decreases |a|
  {
    if a == [] {
      assert a + b == b;
    } else {
      OnTicketAppend(OnTicket(st, a[0], t), a[1..], b, t);
      assert (a + b)[1..] == a[1..] + b;
    }
  }

  lemma {:induction false} ApplyAppend(b: Book, x: seq<Op>, y: seq<Op>)
    ensures ApplyAll(b, x + y) == ApplyAll(ApplyAll(b, x), y)
    decreases |x|
  {
    if x == [] {
      assert x + y == y;
    } else {
      ApplyAppend(Apply(b, x[0]), x[1..], y);
      assert (x + y)[1..] == x[1..] + y;
    }
  }

  lemma {:induction false} SettleKeepsValid(b: Book, t: nat, voided: bool)
    requires Valid(b)
    ensures
      var b' := Settle(b, t, voided);
      && Valid(b') && b.through <= b'.through
      && forall u: nat :: IsSettled(b', u) <==> IsSettled(b, u) || u == t
  {
  }

  lemma NoteKeepsValid(b: Book, t: nat, p: Progress)
    requires Valid(b) && p.committed <= U64_MAX && p.dropped <= U64_MAX
    ensures Valid(Note(b, t, p))
  {
  }

  lemma ApplyKeepsValid(b: Book, op: Op)
    requires Valid(b)
    ensures Valid(Apply(b, op))
    ensures b.through <= Apply(b, op).through
    ensures forall t: nat :: IsSettled(b, t) ==> IsSettled(Apply(b, op), t)
  {
    match op {
      case Issue =>
      case Close =>
      case NoteCommitted(t, k) => NoteKeepsValid(b, t, ProgressOf(b, t).(committed := SatAdd(ProgressOf(b, t).committed, k)));
      case NoteDropped(t, k) => NoteKeepsValid(b, t, ProgressOf(b, t).(dropped := SatAdd(ProgressOf(b, t).dropped, k)));
      case Complete(t) => SettleKeepsValid(b, t, false);
      case Void(t) => SettleKeepsValid(b, t, true);
    }
  }

  /** One locked section, seen from one ticket, is one step of its automaton: a call for
      another ticket never shows, however far it makes the watermark jump. */
  lemma ApplyActsPerTicket(b: Book, op: Op, t: nat)
    requires Valid(b)
    ensures State(Apply(b, op), t) == OnTicket(State(b, t), op, t)
  {
    ApplyKeepsValid(b, op);
  }

  /** Over every sequence of calls, in any order and with any repetition, the ledger answers
      for each ticket what the automaton fed with that same sequence answers. */
  lemma {:induction false} RunActsPerTicket(b: Book, ops: seq<Op>, t: nat)
    requires Valid(b)
    ensures Valid(ApplyAll(b, ops))
    ensures State(ApplyAll(b, ops), t) == OnTicketAll(State(b, t), ops, t)
    ensures b.through <= ApplyAll(b, ops).through
    decreases |ops|
  {
    if ops != [] {
      ApplyKeepsValid(b, ops[0]);
      ApplyActsPerTicket(b, ops[0], t);
      RunActsPerTicket(Apply(b, ops[0]), ops[1..], t);
    }
  }

  /** A settled outcome never changes afterwards. */
  lemma {:induction false} SettledOutcomeIsFinal(b: Book, ops: seq<Op>, t: nat)
    requires Valid(b) && !State(b, t).Unsettled?
    ensures State(ApplyAll(b, ops), t) == State(b, t)
    decreases |ops|
  {
    if ops != [] {
      ApplyKeepsValid(b, ops[0]);
      ApplyActsPerTicket(b, ops[0], t);
      SettledOutcomeIsFinal(Apply(b, ops[0]), ops[1..], t);
    }
  }

  /** What the calls of a run note for a ticket, added up without a bound. */
  function Noted(ops: seq<Op>, t: nat, kept: bool): nat {
    if ops == [] then 0
    else
      (if kept && ops[0].NoteCommitted? && ops[0].ticket == t then ops[0].records
       else if !kept && ops[0].NoteDropped? && ops[0].ticket == t then ops[0].records
       else 0) + Noted(ops[1..], t, kept)
  }

  function Bounded(n: nat): nat {
    if n < U64_MAX then n else U64_MAX
  }

  lemma {:induction false} NotesAddUp(p: Progress, ops: seq<Op>, t: nat)
    requires p.committed <= U64_MAX && p.dropped <= U64_MAX && t !in SettledBy(ops) && 0 < t
    ensures OnTicketAll(Unsettled(p), ops, t) ==
              Unsettled(Progress(Bounded(p.committed + Noted(ops, t, true)), Bounded(p.dropped + Noted(ops, t, false))))
    decreases |ops|
  {
    if ops != [] {
      var next := OnTicket(Unsettled(p), ops[0], t);
      assert next.Unsettled?;
      NotesAddUp(next.progress, ops[1..], t);
    }
  }

  /** Until it is settled, a ticket shows the sum of everything noted for it, however the notes arrive and
      interleave, and the largest number the wire can hold once the sum is larger: it never wraps around. */
  lemma {:induction false} ProgressIsTheSum(ops: seq<Op>, t: nat)
    requires 0 < t && t !in SettledBy(ops)
    ensures State(ApplyAll(FRESH_BOOK, ops), t) ==
              Unsettled(Progress(Bounded(Noted(ops, t, true)), Bounded(Noted(ops, t, false))))
  {
    RunActsPerTicket(FRESH_BOOK, ops, t);
    NotesAddUp(NO_PROGRESS, ops, t);
  }

  // ---------------------------------------------------------------- the watermark

  /** The tickets some call of the run settled. */
  function SettledBy(ops: seq<Op>): (s: set<nat>)
    ensures 0 !in s
  {
    if ops == [] then {}
    else
      (if (ops[0].Complete? || ops[0].Void?) && ops[0].ticket != 0 then {ops[0].ticket} else {}) + SettledBy(ops[1..])
  }

  lemma {:induction false} SettledMembership(b: Book, ops: seq<Op>, t: nat)
    requires Valid(b) && 0 < t
    ensures Valid(ApplyAll(b, ops))
    ensures IsSettled(ApplyAll(b, ops), t) <==> IsSettled(b, t) || t in SettledBy(ops)
    decreases |ops|
  {
    if ops != [] {
      ApplyKeepsValid(b, ops[0]);
      SettledMembership(Apply(b, ops[0]), ops[1..], t);
    }
  }

  /** The watermark is the largest n with every ticket of 1..n settled, and the parked set
      is exactly the settled tickets beyond it. */
  lemma {:induction false} WatermarkIsCanonical(ops: seq<Op>)
    ensures
      var b, s := ApplyAll(FRESH_BOOK, ops), SettledBy(ops);
      && (forall t :: 1 <= t <= b.through ==> t in s)
      && b.through + 1 !in s
      && b.above == (set t | t in s && b.through < t)
  {
    var b, s := ApplyAll(FRESH_BOOK, ops), SettledBy(ops);
    forall t: nat | 0 < t ensures Valid(b) && (IsSettled(b, t) <==> t in s) {
      SettledMembership(FRESH_BOOK, ops, t);
    }
    assert Valid(b) by { SettledMembership(FRESH_BOOK, ops, 1); }
  }

  /** Tickets a caller may still wait for: issued and not settled. */
  function Pending(b: Book): set<nat> {
    set t | 1 <= t <= b.issued && !IsSettled(b, t)
  }

  function SatSub(x: nat, y: nat): nat {
    if y <= x then x - y else 0
  }

  /** The count the health probe publishes. */
  function Outstanding(b: Book): nat {
    SatSub(SatSub(b.issued, b.through), |b.above|)
  }

  function Range(lo: nat, hi: nat): (s: set<nat>)
    requires lo <= hi
    ensures forall t :: t in s <==> lo < t <= hi
    ensures |s| == hi - lo
    decreases hi - lo
  {
    if lo == hi then {} else Range(lo, hi - 1) + {hi}
  }

  /** The published count is the number of issued unsettled tickets exactly when nothing
      beyond the last issued ticket was settled, or nothing is pending anyway. */
  lemma {:induction false} OutstandingIsExactlyPending(b: Book)
    requires Valid(b)
    ensures Outstanding(b) == |Pending(b)| <==>
            ((forall t :: t in b.above ==> t <= b.issued) || Pending(b) == {})
  {
    if b.issued < b.through {
      assert Pending(b) == {};
    } else {
      var inside := set t | t in b.above && t <= b.issued;
      var beyond := b.above - inside;
      var range := Range(b.through, b.issued);
      assert Pending(b) == range - inside && inside <= range;
      SubsetSize(inside, range);
      SubsetSize(inside, b.above);
      assert beyond == {} <==> forall t :: t in b.above ==> t <= b.issued;
    }
  }

  lemma SubsetSize(a: set<nat>, b: set<nat>)
    requires a <= b
    ensures |b - a| == |b| - |a|
    ensures |b - a| == 0 <==> b - a == {}
  {
    assert b == a + (b - a);
  }

  // ---------------------------------------------------------------- the object

  /** `CommitLedger`: the lock-guarded fields plus the watch slot. A settlement computes its
      watermark under the lock and publishes it afterwards, so the two are separate methods. */
  class CommitLedger {
    var nextTicket: nat
    var settledAbove: set<nat>
    var committedThrough: nat
    var progress: map<nat, Progress>
    var failed: set<nat>
    var closed: bool
    var published: Watermark

    function View(): Book
      reads this
    {
      Book(nextTicket, committedThrough, settledAbove, progress, failed, closed)
    }

    /** The watch slot shows the watermark. */
    ghost predicate UpToDate()
      reads this
    {
      published == Published(View())
    }

    constructor ()
      ensures View() == FRESH_BOOK && published == Watermark(0, false) && UpToDate()
    {
      nextTicket, committedThrough, settledAbove := 0, 0, {};
      progress, failed, closed := map[], {}, false;
      published := Watermark(0, false);
    }

    method Issue() returns (ticket: nat)
      modifies this`nextTicket
      ensures ticket == old(nextTicket) + 1
      ensures View() == Apply(old(View()), Op.Issue)
    {
      ticket := nextTicket + 1;
      nextTicket := ticket;
    }

    method NoteCommitted(ticket: nat, records: nat)
      modifies this`progress
      ensures View() == Apply(old(View()), Op.NoteCommitted(ticket, records))
    {
      if ticket == 0 || records == 0 || ticket <= committedThrough || ticket in settledAbove {
        return;
      }
      var p := if ticket in progress then progress[ticket] else NO_PROGRESS;
      progress := progress[ticket := p.(committed := SatAdd(p.committed, records))];
    }

    method NoteDropped(ticket: nat, records: nat)
      modifies this`progress
      ensures View() == Apply(old(View()), Op.NoteDropped(ticket, records))
    {
      if ticket == 0 || records == 0 || ticket <= committedThrough || ticket in settledAbove {
        return;
      }
      var p := if ticket in progress then progress[ticket] else NO_PROGRESS;
      progress := progress[ticket := p.(dropped := SatAdd(p.dropped, records))];
    }

    /** The locked part of `complete` (`voided` false) and `void` (`voided` true). */
    method SettleLocked(ticket: nat, voided: bool) returns (settled: bool, watermark: Watermark)
      modifies this`settledAbove, this`committedThrough, this`progress, this`failed
      ensures View() == Apply(old(View()), if voided then Op.Void(ticket) else Op.Complete(ticket))
      ensures settled == !IsSettled(old(View()), ticket)
      ensures watermark == Published(View())
    {
      if ticket <= committedThrough || ticket in settledAbove {
        return false, Watermark(committedThrough, closed);
      }
      var p := if ticket in progress then progress[ticket] else NO_PROGRESS;
      var fails := !voided && 0 < p.dropped;
      if fails {
        failed := failed + {ticket};
      } else {
        progress := progress - {ticket};
      }
      if ticket == committedThrough + 1 {
        committedThrough := ticket;
        DrainParked();
      } else {
        settledAbove := settledAbove + {ticket};
      }
      settled, watermark := true, Watermark(committedThrough, closed);
    }

    method DrainParked()
      modifies this`settledAbove, this`committedThrough
      ensures (committedThrough, settledAbove) == Drain(old(committedThrough), old(settledAbove))
    {
      while committedThrough + 1 in settledAbove
        invariant Drain(committedThrough, settledAbove) == Drain(old(committedThrough), old(settledAbove))
        decreases |settledAbove|
      {
        settledAbove := settledAbove - {committedThrough + 1};
        committedThrough := committedThrough + 1;
      }
    }

    /** The write to the watch slot, after the lock is released. */
    method Publish(watermark: Watermark)
      modifies this`published
      ensures published == watermark
    {
      published := watermark;
    }

    method CloseLocked() returns (watermark: Watermark)
      modifies this`closed
      ensures View() == Apply(old(View()), Op.Close)
      ensures watermark == Published(View())
    {
      closed := true;
      watermark := Watermark(committedThrough, true);
    }

    method StateOf(ticket: nat) returns (st: TicketState)
      ensures st == State(View(), ticket)
    {
      if ticket == 0 {
        return Completed;
      }
      var p := if ticket in progress then progress[ticket] else NO_PROGRESS;
      if ticket in failed {
        st := Failed(p);
      } else if ticket <= committedThrough || ticket in settledAbove {
        st := Completed;
      } else {
        st := Unsettled(p);
      }
    }

    /** The issue counter is read before the lock is taken, so it may be behind: the count is then short
        by no more than the tickets issued in between, and never too large. */
    method OutstandingTickets(loaded: nat) returns (n: nat)
      requires Valid(View()) && loaded <= nextTicket
      ensures n <= Outstanding(View()) <= n + (nextTicket - loaded)
      ensures (forall t :: t in settledAbove ==> t <= nextTicket) ==> n <= |Pending(View())| <= n + (nextTicket - loaded)
    {
      OutstandingIsExactlyPending(View());
      n := SatSub(SatSub(loaded, committedThrough), |settledAbove|);
    }
  }
}
