/** The per-origin accumulator: arbitrary input batches in, storage-sized batches out.

`EmitFull` says what a push does to the records, `BatcherRun` what any run of pushes and
flushes does; `InsertBatcher` is the object with its buffer and age deadline. */
module InsertBatching {
  import opened Clock

  datatype Option<+T> = None | Some(value: T)

  /** The full batches at the front of `all`, and what is left over. */
  function EmitFull<T>(all: seq<T>, max: nat): (r: (seq<seq<T>>, seq<T>))
    requires 0 < max
    ensures |r.1| < max
    decreases |all|
  {
    if |all| < max then ([], all)
    else
      var rest := EmitFull(all[max..], max);
      ([all[..max]] + rest.0, rest.1)
  }

  function Flatten<T>(batches: seq<seq<T>>): seq<T> {
    if batches == [] then [] else batches[0] + Flatten(batches[1..])
  }

  lemma Associative<T>(a: seq<T>, b: seq<T>, c: seq<T>)
    ensures a + (b + c) == (a + b) + c
  {
  }

  lemma {:induction false} FlattenAppend<T>(a: seq<seq<T>>, b: seq<seq<T>>)
    ensures Flatten(a + b) == Flatten(a) + Flatten(b)
  {
    if a == [] {
      assert a + b == b;
    } else {
      FlattenAppend(a[1..], b);
      assert (a + b)[1..] == a[1..] + b;
      Associative(a[0], Flatten(a[1..]), Flatten(b));
    }
  }

  /** Cutting off full batches loses nothing, keeps the order and cuts only full batches. */
  lemma {:induction false} EmitFullPartitions<T>(all: seq<T>, max: nat)
    requires 0 < max
    ensures Flatten(EmitFull(all, max).0) + EmitFull(all, max).1 == all
    ensures forall i :: 0 <= i < |EmitFull(all, max).0| ==> |EmitFull(all, max).0[i]| == max
    decreases |all|
  {
    if max <= |all| {
      EmitFullPartitions(all[max..], max);
      var rest := EmitFull(all[max..], max);
      assert EmitFull(all, max).0[1..] == rest.0;
      assert all == all[..max] + all[max..];
    }
  }

  lemma {:induction false} CutOneBatch<T>(buffer: seq<T>, incoming: seq<T>, max: nat)
    requires |buffer| < max <= |buffer| + |incoming|
    ensures
      var space := max - |buffer|;
      var rest := EmitFull(incoming[space..], max);
      EmitFull(buffer + incoming, max) == ([buffer + incoming[..space]] + rest.0, rest.1)
  {
    var space := max - |buffer|;
    assert (buffer + incoming)[..max] == buffer + incoming[..space];
    assert (buffer + incoming)[max..] == incoming[space..];
  }

  // ---------------------------------------------------------------- runs

  datatype Event<T> = Pushed(records: seq<T>) | Flushed

  function Ingested<T>(run: seq<Event<T>>): seq<T> {
    if run == [] then []
    else
      var last := run[|run| - 1];
      Ingested(run[..|run| - 1]) + (if last.Pushed? then last.records else [])
  }

  datatype Emission<T> = Emission(records: seq<T>, forced: bool)

  function Full<T>(batches: seq<seq<T>>): (r: seq<Emission<T>>)
    ensures |r| == |batches| && forall i :: 0 <= i < |r| ==> r[i] == Emission(batches[i], false)
  {
    seq(|batches|, i requires 0 <= i < |batches| => Emission(batches[i], false))
  }

  function RecordLists<T>(es: seq<Emission<T>>): (r: seq<seq<T>>)
    ensures |r| == |es| && forall i :: 0 <= i < |r| ==> r[i] == es[i].records
  {
    seq(|es|, i requires 0 <= i < |es| => es[i].records)
  }

  function Emitted<T>(es: seq<Emission<T>>): seq<T> {
    Flatten(RecordLists(es))
  }

  predicate Sized<T>(e: Emission<T>, max: nat) {
    0 < |e.records| <= max && (!e.forced ==> |e.records| == max)
  }

  lemma EmittedAppend<T>(a: seq<Emission<T>>, b: seq<Emission<T>>)
    ensures Emitted(a + b) == Emitted(a) + Emitted(b)
  {
    assert RecordLists(a + b) == RecordLists(a) + RecordLists(b);
    FlattenAppend(RecordLists(a), RecordLists(b));
  }

  datatype Batched<T> = Batched(emitted: seq<Emission<T>>, buffer: seq<T>)

  function OnEvent<T>(b: Batched<T>, event: Event<T>, max: nat): Batched<T>
    requires 0 < max
  {
    match event
    case Pushed(records) =>
      var out := EmitFull(b.buffer + records, max);
      Batched(b.emitted + Full(out.0), out.1)
    case Flushed =>
      if b.buffer == [] then b else Batched(b.emitted + [Emission(b.buffer, true)], [])
  }

  /** Everything emitted by a run, in order, and the buffer it leaves behind. */
  function BatcherRun<T>(run: seq<Event<T>>, max: nat): Batched<T>
    requires 0 < max
  {
    if run == [] then Batched([], []) else OnEvent(BatcherRun(run[..|run| - 1], max), run[|run| - 1], max)
  }

  ghost predicate Conserves<T>(b: Batched<T>, input: seq<T>, max: nat) {
    && Emitted(b.emitted) + b.buffer == input
    && |b.buffer| < max
    && (forall i :: 0 <= i < |b.emitted| ==> Sized(b.emitted[i], max))
  }

  lemma PushConserves<T>(b: Batched<T>, input: seq<T>, records: seq<T>, max: nat)
    requires 0 < max && Conserves(b, input, max)
    ensures Conserves(OnEvent(b, Pushed(records), max), input + records, max)
  {
    var out := EmitFull(b.buffer + records, max);
    EmitFullPartitions(b.buffer + records, max);
    assert RecordLists(Full(out.0)) == out.0;
    EmittedAppend(b.emitted, Full(out.0));
    Associative(Emitted(b.emitted), b.buffer, records);
    Associative(Emitted(b.emitted), Flatten(out.0), out.1);
  }

  lemma FlushConserves<T>(b: Batched<T>, input: seq<T>, max: nat)
    requires 0 < max && Conserves(b, input, max)
    ensures Conserves(OnEvent(b, Flushed, max), input, max)
  {
    if b.buffer != [] {
      EmittedAppend(b.emitted, [Emission(b.buffer, true)]);
      assert RecordLists([Emission(b.buffer, true)]) == [b.buffer] && Flatten([b.buffer]) == b.buffer;
    }
  }

  /** Nothing is lost, duplicated or reordered by any run; a batch that no flush forced has
      exactly the maximum size, no batch is empty or larger, and the buffer stays below it. */
  lemma {:induction false} RunConservesRecords<T>(run: seq<Event<T>>, max: nat)
    requires 0 < max
    ensures Conserves(BatcherRun(run, max), Ingested(run), max)
  {
    if run != [] {
      RunConservesRecords(run[..|run| - 1], max);
      var before, input := BatcherRun(run[..|run| - 1], max), Ingested(run[..|run| - 1]);
      match run[|run| - 1] {
        case Pushed(records) => PushConserves(before, input, records, max);
        case Flushed =>
          FlushConserves(before, input, max);
          assert input + [] == input;
      }
    }
  }

  // ---------------------------------------------------------------- the object

  function Stamps(n: nat, now: nat): (s: seq<nat>)
    ensures |s| == n && forall i :: 0 <= i < n ==> s[i] == now
  {
    seq(n, _ => now)
  }

  /** The deadline of what is buffered, given when each record entered: that of the oldest. */
  function DeadlineOf(entered: seq<nat>, maxAge: nat, horizon: nat): Option<nat>
    requires forall i :: 0 <= i < |entered| ==> entered[i] <= horizon
  {
    if entered == [] then None else Some(SaturatingDeadline(entered[0], maxAge, horizon))
  }

  /** When the records that stay buffered entered, after a push of `added` records that emitted
      `emitted` batches and left `left` records behind. */
  function EnteredAfter(entered: seq<nat>, emitted: nat, added: nat, left: nat, clock: nat -> nat): seq<nat> {
    if emitted == 0 then entered + Stamps(added, clock(0)) else Stamps(left, clock(emitted))
  }

  class InsertBatcher<T> {
    const maxRecords: nat
    const maxAge: nat
    const horizon: nat
    var buffer: seq<T>
    var deadline: Option<nat>
    /** When each buffered record entered, oldest first. */
    ghost var entered: seq<nat>

    ghost predicate Valid()
      reads this
    {
      && 0 < maxRecords
      && |buffer| < maxRecords
      && DeadlineOfOldest()
    }

    /** The age clock runs exactly while something is buffered, and it is the clock of the
        oldest buffered record. */
    ghost predicate DeadlineOfOldest()
      reads this
    {
      && |entered| == |buffer|
      && (forall i :: 0 <= i < |entered| ==> entered[i] <= horizon)
      && deadline == DeadlineOf(entered, maxAge, horizon)
    }

    constructor (maxRecords: nat, maxAge: nat, horizon: nat)
      requires 0 < maxRecords
      ensures Valid() && buffer == []
      ensures this.maxRecords == maxRecords && this.maxAge == maxAge && this.horizon == horizon
    {
      this.maxRecords, this.maxAge, this.horizon := maxRecords, maxAge, horizon;
      buffer, deadline, entered := [], None, [];
    }

    /** `clock(k)` is the instant read while the k-th group of this push is moved in. */
    method Push(records: seq<T>, clock: nat -> nat) returns (ready: seq<seq<T>>)
      requires Valid()
      requires forall k :: clock(k) <= horizon
      modifies this
      ensures Valid()
      ensures (ready, buffer) == EmitFull(old(buffer) + records, maxRecords)
      ensures entered == EnteredAfter(old(entered), |ready|, |records|, |buffer|, clock)
    {
      ready := [];
      var incoming := records;
      ghost var goal := EmitFull(buffer + records, maxRecords);
      assert buffer + [] == buffer && entered + [] == entered;
      while incoming != []
        invariant Valid()
        invariant ready == [] ==> entered == old(entered) && buffer == old(buffer) && incoming == records
        invariant ready != [] ==> buffer == [] && entered == []
        invariant goal.0 == ready + EmitFull(buffer + incoming, maxRecords).0
        invariant goal.1 == EmitFull(buffer + incoming, maxRecords).1
        decreases |incoming|
      {
        var space := maxRecords - |buffer|;
        if |incoming| < space {
          Fill(incoming, clock(|ready|));
          assert goal.0 == ready && goal.1 == buffer;
          return;
        }
        CutOneBatch(buffer, incoming, maxRecords);
        ghost var later := EmitFull(incoming[space..], maxRecords);
        var full := FillAndTake(incoming[..space], clock(|ready|));
        Associative(ready, [full], later.0);
        ready, incoming := ready + [full], incoming[space..];
        assert buffer + incoming == incoming;
      }
      assert buffer + [] == buffer;
      assert goal.0 == ready && goal.1 == buffer;
    }

    /** Tops the buffer up and takes it out as one full batch. */
    method FillAndTake(records: seq<T>, now: nat) returns (full: seq<T>)
      requires Valid() && now <= horizon && records != []
      modifies this
      ensures Valid() && buffer == [] && entered == []
      ensures full == old(buffer) + records
    {
      Fill(records, now);
      full := buffer;
      buffer, deadline, entered := [], None, [];
    }

    /** Moves `records` into the buffer, arming the age clock when it was empty. */
    method Fill(records: seq<T>, now: nat)
      requires DeadlineOfOldest() && now <= horizon && records != []
      modifies this
      ensures DeadlineOfOldest()
      ensures buffer == old(buffer) + records
      ensures entered == old(entered) + Stamps(|records|, now)
    {
      if buffer == [] {
        deadline := Some(SaturatingDeadline(now, maxAge, horizon));
      }
      buffer := buffer + records;
      entered := entered + Stamps(|records|, now);
    }

    method Flush() returns (batch: Option<seq<T>>)
      requires Valid()
      modifies this
      ensures Valid() && buffer == []
      ensures batch == if old(buffer) == [] then None else Some(old(buffer))
    {
      if buffer == [] {
        return None;
      }
      batch := Some(buffer);
      buffer, deadline, entered := [], None, [];
    }

    method FlushIfExpired(now: nat) returns (batch: Option<seq<T>>)
      requires Valid()
      modifies this
      ensures Valid()
      ensures
        var expired := old(buffer) != [] && SaturatingDeadline(old(entered[0]), maxAge, horizon) <= now;
        if expired then batch == Some(old(buffer)) && buffer == []
        else batch == None && buffer == old(buffer) && entered == old(entered)
    {
      if deadline.Some? && deadline.value <= now {
        batch := Flush();
      } else {
        batch := None;
      }
    }
  }
}
