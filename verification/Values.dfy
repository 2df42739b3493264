/** OTLP values: the explicit-stack validator and size estimate against the recursive converter. */
module Values {
  import opened InsertBatching
  import opened Texts

  /** Floating point numbers, as far as the mapping looks at them. */
  datatype Float = Finite(bits: nat) | NonFinite

  datatype AnyValue =
    | Empty
    | Str(text: Text)
    | Int(int_: int)
    | Double(double: Float)
    | Bool(bool_: bool)
    | Bytes(bytes: seq<byte>)
    | Array(items: seq<AnyValue>)
    | Kvlist(entries: seq<KeyValue>)
    | StrIndex(index: int)

  datatype KeyValue = KeyValue(key: Text, value: Option<AnyValue>)

  datatype AttributeValue =
    | Null
    | AString(text: Text)
    | AInt(int_: int)
    | ADouble(double: Float)
    | ABool(bool_: bool)
    | ABytes(bytes: seq<byte>)
    | AArray(items: seq<AttributeValue>)
    | AKvlist(entries: seq<Attribute>)

  datatype Attribute = Attribute(key: Text, value: AttributeValue)

  datatype Limits = Limits(attributes: nat, keyBytes: nat, valueBytes: nat, bodyBytes: nat, scopeBytes: nat)

  const MAX_NESTING_DEPTH: nat := 32

  // ---------------------------------------------------------------- what the limits mean

  /** Containers nest less than `MAX_NESTING_DEPTH` deep, counted from `depth`. */
  predicate WithinDepth(v: AnyValue, depth: nat) {
    match v
    case Array(items) =>
      depth < MAX_NESTING_DEPTH && forall i :: 0 <= i < |items| ==> WithinDepth(items[i], depth + 1)
    case Kvlist(entries) =>
      && depth < MAX_NESTING_DEPTH
      && forall i :: 0 <= i < |entries| && entries[i].value.Some? ==> WithinDepth(entries[i].value.value, depth + 1)
    case _ => true
  }

  /** Every string, byte string and key is within its limit. */
  predicate WithinBytes(v: AnyValue, limits: Limits) {
    match v
    case Str(text) => |text| <= limits.valueBytes
    case Bytes(bytes) => |bytes| <= limits.valueBytes
    case Array(items) => forall i :: 0 <= i < |items| ==> WithinBytes(items[i], limits)
    case Kvlist(entries) =>
      forall i :: 0 <= i < |entries| ==>
        |entries[i].key| <= limits.keyBytes && (entries[i].value.Some? ==> WithinBytes(entries[i].value.value, limits))
    case _ => true
  }

  predicate Fits(v: AnyValue, depth: nat, limits: Limits) {
    WithinDepth(v, depth) && WithinBytes(v, limits)
  }

  // ---------------------------------------------------------------- sizes

  /** The machine: the largest word, and the sizes of the in-memory structures, which the estimate
      adds to the payload. */
  datatype Layout = Layout(max: nat, anyValue: nat, keyValue: nat, attribute: nat)

  /** The model bytes of a value, unbounded. */
  function Size(v: AnyValue, l: Layout): nat
    decreases v, 0
  {
    l.anyValue +
    match v
    case Str(text) => |text|
    case Bytes(bytes) => |bytes|
    case Array(items) => SizeOfItems(v, |items|, l)
    case Kvlist(entries) => SizeOfEntries(v, |entries|, l)
    case _ => 0
  }

  function SizeOfItems(v: AnyValue, k: nat, l: Layout): nat
    requires v.Array? && k <= |v.items|
    decreases v, 0, k
  {
    if k == 0 then 0 else SizeOfItems(v, k - 1, l) + Size(v.items[k - 1], l)
  }

  function SizeOfEntries(v: AnyValue, k: nat, l: Layout): nat
    requires v.Kvlist? && k <= |v.entries|
    decreases v, 0, k
  {
    if k == 0 then 0
    else
      var e := v.entries[k - 1];
      SizeOfEntries(v, k - 1, l) + |e.key| + l.keyValue + if e.value.Some? then Size(e.value.value, l) else 0
  }

  // ---------------------------------------------------------------- the validator

  /** Counts values instead of bytes. */
  const UNIT := Layout(0, 1, 0, 0)

  datatype Pending = Pending(value: AnyValue, depth: nat)

  predicate AllFit(stack: seq<Pending>, limits: Limits) {
    forall i :: 0 <= i < |stack| ==> Fits(stack[i].value, stack[i].depth, limits)
  }

  /** The number of values on the stack, nested ones included. */
  function Load(stack: seq<Pending>): nat {
    if stack == [] then 0 else Load(stack[..|stack| - 1]) + Size(stack[|stack| - 1].value, UNIT)
  }

  /** The stack after the items of an array were pushed, `k` of them. */
  function PushItems(stack: seq<Pending>, v: AnyValue, depth: nat, k: nat): (r: seq<Pending>)
    requires v.Array? && k <= |v.items|
    ensures Load(r) == Load(stack) + SizeOfItems(v, k, UNIT)
  {
    if k == 0 then stack
    else
      var r := PushItems(stack, v, depth, k - 1);
      assert (r + [Pending(v.items[k - 1], depth + 1)])[..|r|] == r;
      r + [Pending(v.items[k - 1], depth + 1)]
  }

  function PushValues(stack: seq<Pending>, v: AnyValue, depth: nat, k: nat): (r: seq<Pending>)
    requires v.Kvlist? && k <= |v.entries|
    ensures Load(r) <= Load(stack) + SizeOfEntries(v, k, UNIT)
  {
    if k == 0 then stack
    else
      var r := PushValues(stack, v, depth, k - 1);
      if v.entries[k - 1].value.None? then r
      else
        assert (r + [Pending(v.entries[k - 1].value.value, depth + 1)])[..|r|] == r;
        r + [Pending(v.entries[k - 1].value.value, depth + 1)]
  }

  lemma AllFitSnoc(stack: seq<Pending>, p: Pending, limits: Limits)
    ensures AllFit(stack + [p], limits) <==> AllFit(stack, limits) && Fits(p.value, p.depth, limits)
  {
    assert (stack + [p])[|stack|] == p;
    assert forall i :: 0 <= i < |stack| ==> (stack + [p])[i] == stack[i];
  }

  lemma {:induction false} ItemsFit(stack: seq<Pending>, v: AnyValue, depth: nat, k: nat, limits: Limits)
    requires v.Array? && k <= |v.items|
    ensures AllFit(PushItems(stack, v, depth, k), limits) <==>
              AllFit(stack, limits) && forall i :: 0 <= i < k ==> Fits(v.items[i], depth + 1, limits)
  {
    if 0 < k {
      ItemsFit(stack, v, depth, k - 1, limits);
      AllFitSnoc(PushItems(stack, v, depth, k - 1), Pending(v.items[k - 1], depth + 1), limits);
    }
  }

  predicate EntryFits(e: KeyValue, depth: nat, limits: Limits) {
    |e.key| <= limits.keyBytes && (e.value.Some? ==> Fits(e.value.value, depth, limits))
  }

  predicate FirstFit(entries: seq<KeyValue>, k: nat, depth: nat, limits: Limits)
    requires k <= |entries|
  {
    forall i :: 0 <= i < k ==> EntryFits(entries[i], depth, limits)
  }

  lemma FirstFitSnoc(entries: seq<KeyValue>, k: nat, depth: nat, limits: Limits)
    requires k < |entries|
    ensures FirstFit(entries, k + 1, depth, limits) <==> FirstFit(entries, k, depth, limits) && EntryFits(entries[k], depth, limits)
  {
  }

  lemma EntryPushed(stack: seq<Pending>, e: KeyValue, depth: nat, limits: Limits)
    requires |e.key| <= limits.keyBytes
    ensures AllFit(if e.value.None? then stack else stack + [Pending(e.value.value, depth + 1)], limits) <==>
              AllFit(stack, limits) && EntryFits(e, depth + 1, limits)
  {
    if e.value.Some? {
      AllFitSnoc(stack, Pending(e.value.value, depth + 1), limits);
    }
  }

  lemma {:induction false} EntriesFit(stack: seq<Pending>, v: AnyValue, depth: nat, k: nat, limits: Limits)
    requires v.Kvlist? && k <= |v.entries| && forall i :: 0 <= i < k ==> |v.entries[i].key| <= limits.keyBytes
    ensures AllFit(PushValues(stack, v, depth, k), limits) <==>
              AllFit(stack, limits) && FirstFit(v.entries, k, depth + 1, limits)
  {
    if 0 < k {
      FirstFitSnoc(v.entries, k - 1, depth + 1, limits);
      EntriesFit(stack, v, depth, k - 1, limits);
      EntryPushed(PushValues(stack, v, depth, k - 1), v.entries[k - 1], depth, limits);
    }
  }

  lemma ArrayFits(v: AnyValue, depth: nat, limits: Limits)
    requires v.Array?
    ensures Fits(v, depth, limits) <==>
              depth < MAX_NESTING_DEPTH && forall i :: 0 <= i < |v.items| ==> Fits(v.items[i], depth + 1, limits)
  {
  }

  lemma KvlistFits(v: AnyValue, depth: nat, limits: Limits)
    requires v.Kvlist?
    ensures Fits(v, depth, limits) <==>
              depth < MAX_NESTING_DEPTH && forall i :: 0 <= i < |v.entries| ==> EntryFits(v.entries[i], depth + 1, limits)
  {
    if depth < MAX_NESTING_DEPTH && forall i :: 0 <= i < |v.entries| ==> EntryFits(v.entries[i], depth + 1, limits) {
      assert forall i :: 0 <= i < |v.entries| && v.entries[i].value.Some? ==> WithinDepth(v.entries[i].value.value, depth + 1);
    }
    if Fits(v, depth, limits) {
      forall i | 0 <= i < |v.entries| ensures EntryFits(v.entries[i], depth + 1, limits) {
      }
    }
  }

  /** One popped value; `None` when it breaks a limit, else the stack with its children. */
  method CheckOne(current: AnyValue, depth: nat, rest: seq<Pending>, limits: Limits) returns (r: Option<seq<Pending>>)
    ensures r.None? ==> !Fits(current, depth, limits)
    ensures r.Some? ==> (AllFit(r.value, limits) <==> AllFit(rest, limits) && Fits(current, depth, limits))
    ensures r.Some? ==> Load(r.value) < Load(rest) + Size(current, UNIT)
  {
    match current {
      case Str(text) => r := if |text| > limits.valueBytes then None else Some(rest);
      case Bytes(bytes) => r := if |bytes| > limits.valueBytes then None else Some(rest);
      case Array(items) => r := CheckArray(current, depth, rest, limits);
      case Kvlist(entries) => r := CheckKvlist(current, depth, rest, limits);
      case _ => r := Some(rest);
    }
  }

  method CheckArray(current: AnyValue, depth: nat, rest: seq<Pending>, limits: Limits) returns (r: Option<seq<Pending>>)
    requires current.Array?
    ensures r.None? ==> !Fits(current, depth, limits)
    ensures r.Some? ==> (AllFit(r.value, limits) <==> AllFit(rest, limits) && Fits(current, depth, limits))
    ensures r.Some? ==> Load(r.value) < Load(rest) + Size(current, UNIT)
  {
    if depth >= MAX_NESTING_DEPTH {
      return None;
    }
    var stack := rest;
    for i := 0 to |current.items|
      invariant stack == PushItems(rest, current, depth, i)
    {
      stack := stack + [Pending(current.items[i], depth + 1)];
    }
    ItemsFit(rest, current, depth, |current.items|, limits);
    ArrayFits(current, depth, limits);
    r := Some(stack);
  }

  method CheckKvlist(current: AnyValue, depth: nat, rest: seq<Pending>, limits: Limits) returns (r: Option<seq<Pending>>)
    requires current.Kvlist?
    ensures r.None? ==> !Fits(current, depth, limits)
    ensures r.Some? ==> (AllFit(r.value, limits) <==> AllFit(rest, limits) && Fits(current, depth, limits))
    ensures r.Some? ==> Load(r.value) < Load(rest) + Size(current, UNIT)
  {
    KvlistFits(current, depth, limits);
    if depth >= MAX_NESTING_DEPTH {
      return None;
    }
    var stack := rest;
    for i := 0 to |current.entries|
      invariant stack == PushValues(rest, current, depth, i)
      invariant forall j :: 0 <= j < i ==> |current.entries[j].key| <= limits.keyBytes
    {
      var e := current.entries[i];
      if |e.key| > limits.keyBytes {
        assert !EntryFits(e, depth + 1, limits);
        return None;
      }
      if e.value.Some? {
        stack := stack + [Pending(e.value.value, depth + 1)];
      }
    }
    EntriesFit(rest, current, depth, |current.entries|, limits);
    r := Some(stack);
  }

  /** `check_any_value`: accepts exactly the values within depth and size limits. */
  method CheckAnyValue(value: AnyValue, limits: Limits) returns (ok: bool)
    ensures ok <==> Fits(value, 0, limits)
  {
    var stack := [Pending(value, 0)];
    assert AllFit(stack, limits) <==> Fits(value, 0, limits) by {
      assert stack[0] == Pending(value, 0);
    }
    while stack != []
      invariant AllFit(stack, limits) <==> Fits(value, 0, limits)
      decreases Load(stack)
    {
      var p, rest := stack[|stack| - 1], stack[..|stack| - 1];
      assert stack == rest + [p];
      AllFitSnoc(rest, p, limits);
      var r := CheckOne(p.value, p.depth, rest, limits);
      if r.None? {
        return false;
      }
      stack := r.value;
    }
    ok := true;
  }

  // ---------------------------------------------------------------- the converter

  /** `attribute_value_with_depth`; `None` when a container is nested too deep. */
  function Convert(v: AnyValue, depth: nat): Option<AttributeValue>
    decreases v, 0
  {
    match v
    case Str(text) => Some(AString(text))
    case Int(i) => Some(AInt(i))
    case Double(d) => Some(ADouble(d))
    case Bool(b) => Some(ABool(b))
    case Bytes(bytes) => Some(ABytes(bytes))
    case Array(items) =>
      if depth >= MAX_NESTING_DEPTH then None
      else
        var r := ConvertItems(v, |items|, depth + 1);
        if r.None? then None else Some(AArray(r.value))
    case Kvlist(entries) =>
      if depth >= MAX_NESTING_DEPTH then None
      else
        var r := ConvertEntries(v, |entries|, depth + 1);
        if r.None? then None else Some(AKvlist(r.value))
    case StrIndex(_) => Some(Null)
    case Empty => Some(Null)
  }

  function ConvertItems(v: AnyValue, k: nat, depth: nat): (r: Option<seq<AttributeValue>>)
    requires v.Array? && k <= |v.items|
    ensures r.Some? ==> |r.value| == k
    decreases v, 0, k
  {
    if k == 0 then Some([])
    else
      var before := ConvertItems(v, k - 1, depth);
      var last := Convert(v.items[k - 1], depth);
      if before.None? || last.None? then None else Some(before.value + [last.value])
  }

  function ConvertEntries(v: AnyValue, k: nat, depth: nat): (r: Option<seq<Attribute>>)
    requires v.Kvlist? && k <= |v.entries|
    ensures r.Some? ==> |r.value| == k
    decreases v, 0, k
  {
    if k == 0 then Some([])
    else
      var e := v.entries[k - 1];
      var before := ConvertEntries(v, k - 1, depth);
      var last := if e.value.None? then Some(Null) else Convert(e.value.value, depth);
      if before.None? || last.None? then None else Some(before.value + [Attribute(e.key, last.value)])
  }

  /** Conversion fails exactly when a container is nested too deep. */
  lemma {:induction false} ConvertsWithinDepth(v: AnyValue, depth: nat)
    ensures Convert(v, depth).Some? <==> WithinDepth(v, depth)
    decreases v, 0
  {
    match v {
      case Array(items) => ItemsConvert(v, |items|, depth + 1);
      case Kvlist(entries) => EntriesConvert(v, |entries|, depth + 1);
      case _ =>
    }
  }

  lemma {:induction false} ItemsConvert(v: AnyValue, k: nat, depth: nat)
    requires v.Array? && k <= |v.items|
    ensures ConvertItems(v, k, depth).Some? <==> forall i :: 0 <= i < k ==> WithinDepth(v.items[i], depth)
    decreases v, 0, k
  {
    if 0 < k {
      ItemsConvert(v, k - 1, depth);
      ConvertsWithinDepth(v.items[k - 1], depth);
    }
  }

  lemma {:induction false} EntriesConvert(v: AnyValue, k: nat, depth: nat)
    requires v.Kvlist? && k <= |v.entries|
    ensures ConvertEntries(v, k, depth).Some? <==>
              forall i :: 0 <= i < k && v.entries[i].value.Some? ==> WithinDepth(v.entries[i].value.value, depth)
    decreases v, 0, k
  {
    if 0 < k {
      EntriesConvert(v, k - 1, depth);
      if v.entries[k - 1].value.Some? {
        ConvertsWithinDepth(v.entries[k - 1].value.value, depth);
      }
    }
  }

  /** A model value as an OTLP value again. */
  function Back(a: AttributeValue): AnyValue {
    match a
    case Null => Empty
    case AString(text) => Str(text)
    case AInt(i) => Int(i)
    case ADouble(d) => Double(d)
    case ABool(b) => Bool(b)
    case ABytes(bytes) => Bytes(bytes)
    case AArray(items) => Array(seq(|items|, i requires 0 <= i < |items| => Back(items[i])))
    case AKvlist(entries) =>
      Kvlist(seq(|entries|, i requires 0 <= i < |entries| => KeyValue(entries[i].key, Some(Back(entries[i].value)))))
  }

  /** What a value means for the log signal: string-table references and missing values are empty. */
  function Meaning(v: AnyValue): AnyValue {
    match v
    case StrIndex(_) => Empty
    case Array(items) => Array(seq(|items|, i requires 0 <= i < |items| => Meaning(items[i])))
    case Kvlist(entries) =>
      Kvlist(seq(|entries|, i requires 0 <= i < |entries| =>
        KeyValue(entries[i].key, Some(if entries[i].value.None? then Empty else Meaning(entries[i].value.value)))))
    case _ => v
  }

  /** Conversion loses nothing but what the log signal does not carry. */
  lemma {:induction false} ConvertKeepsMeaning(v: AnyValue, depth: nat)
    requires Convert(v, depth).Some?
    ensures Back(Convert(v, depth).value) == Meaning(v)
    decreases v, 0
  {
    match v {
      case Array(items) =>
        ItemsKeepMeaning(v, |items|, depth + 1);
        assert Back(Convert(v, depth).value).items == Meaning(v).items;
      case Kvlist(entries) =>
        EntriesKeepMeaning(v, |entries|, depth + 1);
        assert Back(Convert(v, depth).value).entries == Meaning(v).entries;
      case _ =>
    }
  }

  lemma {:induction false} ItemsKeepMeaning(v: AnyValue, k: nat, depth: nat)
    requires v.Array? && k <= |v.items| && ConvertItems(v, k, depth).Some?
    ensures forall i :: 0 <= i < k ==> Back(ConvertItems(v, k, depth).value[i]) == Meaning(v.items[i])
    decreases v, 0, k
  {
    if 0 < k {
      ItemsKeepMeaning(v, k - 1, depth);
      ConvertKeepsMeaning(v.items[k - 1], depth);
    }
  }

  function MeaningOf(e: KeyValue): KeyValue {
    KeyValue(e.key, Some(if e.value.None? then Empty else Meaning(e.value.value)))
  }

  lemma {:induction false} EntriesKeepMeaning(v: AnyValue, k: nat, depth: nat)
    requires v.Kvlist? && k <= |v.entries| && ConvertEntries(v, k, depth).Some?
    ensures forall i :: 0 <= i < k ==>
              var a := ConvertEntries(v, k, depth).value[i];
              KeyValue(a.key, Some(Back(a.value))) == MeaningOf(v.entries[i])
    decreases v, 0, k
  {
    if 0 < k {
      EntriesKeepMeaning(v, k - 1, depth);
      if v.entries[k - 1].value.Some? {
        ConvertKeepsMeaning(v.entries[k - 1].value.value, depth);
      }
    }
  }

  // ---------------------------------------------------------------- the size estimate

  function Capped(max: nat, n: nat): nat {
    if n <= max then n else max
  }

  /** Saturating addition in a machine word whose largest value is `max`. */
  function Plus(max: nat, x: nat, y: nat): nat {
    Capped(max, x + y)
  }

  lemma PlusCapped(max: nat, x: nat, y: nat)
    ensures Plus(max, Capped(max, x), y) == Capped(max, x + y)
    ensures Plus(max, Capped(max, x), Capped(max, y)) == Capped(max, x + y)
  {
  }

  function StackSize(stack: seq<AnyValue>, l: Layout): nat {
    if stack == [] then 0 else StackSize(stack[..|stack| - 1], l) + Size(stack[|stack| - 1], l)
  }

  lemma {:induction false} StackSnoc(stack: seq<AnyValue>, v: AnyValue, l: Layout)
    ensures StackSize(stack + [v], l) == StackSize(stack, l) + Size(v, l)
  {
    assert (stack + [v])[..|stack|] == stack;
  }

  lemma {:induction false} StackItems(stack: seq<AnyValue>, v: AnyValue, k: nat, l: Layout)
    requires v.Array? && k <= |v.items|
    ensures StackSize(stack + v.items[..k], l) == StackSize(stack, l) + SizeOfItems(v, k, l)
  {
    if k == 0 {
      assert stack + v.items[..0] == stack;
    } else {
      StackItems(stack, v, k - 1, l);
      StackSnoc(stack + v.items[..k - 1], v.items[k - 1], l);
      assert stack + v.items[..k] == (stack + v.items[..k - 1]) + [v.items[k - 1]];
    }
  }

  /** The key of an entry is counted at once, its value goes to the stack. */
  method AddEntry(e: KeyValue, rest: seq<AnyValue>, total: nat, ghost done: nat, l: Layout)
    returns (total': nat, stack: seq<AnyValue>, ghost done': nat)
    requires total == Capped(l.max, done)
    ensures total' == Capped(l.max, done') && done' >= done
    ensures done' + StackSize(stack, l) ==
              done + StackSize(rest, l) + (|e.key| + l.keyValue + if e.value.Some? then Size(e.value.value, l) else 0)
  {
    PlusCapped(l.max, done, |e.key| + l.keyValue);
    total', done', stack := Plus(l.max, total, Plus(l.max, |e.key|, l.keyValue)), done + |e.key| + l.keyValue, rest;
    if e.value.Some? {
      StackSnoc(stack, e.value.value, l);
      stack := stack + [e.value.value];
    }
  }

  method AddEntries(current: AnyValue, rest: seq<AnyValue>, total: nat, ghost done: nat, l: Layout)
    returns (total': nat, stack: seq<AnyValue>, ghost done': nat)
    requires current.Kvlist? && total == Capped(l.max, done)
    ensures total' == Capped(l.max, done') && done' >= done
    ensures done' + StackSize(stack, l) == done + StackSize(rest, l) + SizeOfEntries(current, |current.entries|, l)
  {
    total', done', stack := total, done, rest;
    for i := 0 to |current.entries|
      invariant total' == Capped(l.max, done') && done' >= done
      invariant done' + StackSize(stack, l) == done + StackSize(rest, l) + SizeOfEntries(current, i, l)
    {
      total', stack, done' := AddEntry(current.entries[i], stack, total', done', l);
    }
  }

  /** The part of a popped value that is not on the stack again. */
  method AddOwn(current: AnyValue, rest: seq<AnyValue>, total: nat, ghost done: nat, l: Layout)
    returns (total': nat, stack: seq<AnyValue>, ghost done': nat)
    requires total == Capped(l.max, done)
    ensures total' == Capped(l.max, done')
    ensures done' + StackSize(stack, l) == done + StackSize(rest, l) + Size(current, l)
    ensures done' >= done + l.anyValue
  {
    total', done', stack := Plus(l.max, total, l.anyValue), done + l.anyValue, rest;
    match current {
      case Str(text) => total', done' := Plus(l.max, total', |text|), done' + |text|;
      case Bytes(bytes) => total', done' := Plus(l.max, total', |bytes|), done' + |bytes|;
      case Array(items) =>
        StackItems(rest, current, |items|, l);
        assert items[..|items|] == items;
        stack := rest + items;
      case Kvlist(entries) =>
        total', stack, done' := AddEntries(current, rest, total', done', l);
      case _ =>
    }
  }

  /** `any_value_size`: the true size, capped at the machine maximum, whatever the order of the walk. */
  method AnyValueSize(value: AnyValue, l: Layout) returns (total: nat)
    requires 0 < l.anyValue
    ensures total == Capped(l.max, Size(value, l))
  {
    total := 0;
    ghost var done := 0;
    var stack := [value];
    while stack != []
      invariant total == Capped(l.max, done) && done + StackSize(stack, l) == Size(value, l)
      decreases Size(value, l) - done
    {
      var current, rest := stack[|stack| - 1], stack[..|stack| - 1];
      total, stack, done := AddOwn(current, rest, total, done, l);
    }
  }
}
