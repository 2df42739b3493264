/** The canonical attribute encoding: keys ascending, the last of equal keys wins, at every level.
Documents are JSON trees; strings are their bytes. */
module Attributes {
  import opened InsertBatching
  import opened Texts
  import opened Values

  datatype Json =
    | JNull
    | JInt(int_: int)
    | JFloat(bits: nat)
    | JBool(bool_: bool)
    | JString(text: Text)
    | JArray(items: seq<Json>)
    | JObject(members: seq<Member>)

  datatype Member = Member(key: Text, value: Json)

  // ---------------------------------------------------------------- the order of keys

  /** The sort key `(key, index)`. */
  predicate Before(keys: seq<Text>, x: nat, y: nat)
    requires x < |keys| && y < |keys|
  {
    Less(keys[x], keys[y]) || (keys[x] == keys[y] && x < y)
  }

  predicate Sorted(keys: seq<Text>, order: seq<nat>) {
    && (forall i :: 0 <= i < |order| ==> order[i] < |keys|)
    && (forall i, j :: 0 <= i < j < |order| ==> Before(keys, order[i], order[j]))
  }

  lemma BeforeIsStrict(keys: seq<Text>, x: nat, y: nat)
    requires x < |keys| && y < |keys|
    ensures !Before(keys, x, x)
    ensures x != y ==> Before(keys, x, y) || Before(keys, y, x)
    ensures !(Before(keys, x, y) && Before(keys, y, x))
  {
    LessIsTotal(keys[x], keys[y]);
    LessIsTotal(keys[x], keys[x]);
  }

  lemma BeforeIsTransitive(keys: seq<Text>, x: nat, y: nat, z: nat)
    requires x < |keys| && y < |keys| && z < |keys| && Before(keys, x, y) && Before(keys, y, z)
    ensures Before(keys, x, z)
  {
    if Less(keys[x], keys[y]) && Less(keys[y], keys[z]) {
      LessIsTransitive(keys[x], keys[y], keys[z]);
    }
  }

  /** Inserts index `x` where it belongs. */
  function InsertIndex(keys: seq<Text>, order: seq<nat>, x: nat): (r: seq<nat>)
    requires x < |keys| && forall i :: 0 <= i < |order| ==> order[i] < |keys|
    ensures forall y :: y in r <==> y == x || y in order
    ensures forall i :: 0 <= i < |r| ==> r[i] < |keys|
  {
    if order == [] then [x]
    else if Before(keys, x, order[0]) then [x] + order
    else
      assert forall y :: y in order <==> y == order[0] || y in order[1..];
      [order[0]] + InsertIndex(keys, order[1..], x)
  }

  /** The indices of `keys[..n]` sorted by key, then by index. */
  function Order(keys: seq<Text>, n: nat): (r: seq<nat>)
    requires n <= |keys|
    ensures forall x: nat :: x in r <==> x < n
  {
    if n == 0 then []
    else
      var before := Order(keys, n - 1);
      assert forall i :: 0 <= i < |before| ==> before[i] in before;
      InsertIndex(keys, before, n - 1)
  }

  lemma {:induction false} InsertKeepsSorted(keys: seq<Text>, order: seq<nat>, x: nat)
    requires x < |keys| && Sorted(keys, order) && x !in order
    ensures Sorted(keys, InsertIndex(keys, order, x))
  {
    if order != [] {
      var y, rest := order[0], order[1..];
      assert Sorted(keys, rest);
      BeforeIsStrict(keys, x, y);
      if Before(keys, x, y) {
        forall i | 0 <= i < |order| ensures Before(keys, x, order[i]) {
          if 0 < i {
            BeforeIsTransitive(keys, x, y, order[i]);
          }
        }
      } else {
        InsertKeepsSorted(keys, rest, x);
        var r := InsertIndex(keys, rest, x);
        forall i | 0 <= i < |r| ensures Before(keys, y, r[i]) {
          assert r[i] in r;
          if r[i] != x {
            assert r[i] in rest;
          }
        }
      }
    }
  }

  lemma {:induction false} OrderIsSorted(keys: seq<Text>, n: nat)
    requires n <= |keys|
    ensures Sorted(keys, Order(keys, n))
  {
    if 0 < n {
      OrderIsSorted(keys, n - 1);
      InsertKeepsSorted(keys, Order(keys, n - 1), n - 1);
    }
  }

  /** Whatever algorithm sorts the indices, the result is the same. */
  lemma {:induction false} SortedIsUnique(keys: seq<Text>, a: seq<nat>, b: seq<nat>)
    requires Sorted(keys, a) && Sorted(keys, b) && forall x :: x in a <==> x in b
    ensures a == b
  {
    assert b == [] || b[0] in b;
    if a != [] {
      assert a[0] in b && b != [] && b[0] in a;
      if a[0] != b[0] {
        FirstIsFirst(keys, a, b[0]);
        FirstIsFirst(keys, b, a[0]);
        BeforeIsStrict(keys, a[0], b[0]);
      }
      forall x ensures x in a[1..] <==> x in b[1..] {
        NotAgain(keys, a);
        NotAgain(keys, b);
        assert x in a <==> x == a[0] || x in a[1..];
        assert x in b <==> x == b[0] || x in b[1..];
      }
      SortedIsUnique(keys, a[1..], b[1..]);
      assert a == [a[0]] + a[1..] && b == [b[0]] + b[1..];
    }
  }

  lemma FirstIsFirst(keys: seq<Text>, a: seq<nat>, x: nat)
    requires Sorted(keys, a) && x in a && a[0] != x
    ensures Before(keys, a[0], x)
  {
  }

  lemma NotAgain(keys: seq<Text>, a: seq<nat>)
    requires Sorted(keys, a) && a != []
    ensures a[0] !in a[1..]
  {
    if a[0] in a[1..] {
      var i :| 0 <= i < |a[1..]| && a[1..][i] == a[0];
      assert Before(keys, a[0], a[i + 1]);
      BeforeIsStrict(keys, a[0], a[0]);
    }
  }

  // ---------------------------------------------------------------- the encoding

  function HexDigit(n: int): byte
    requires 0 <= n < 16
  {
    if n < 10 then (48 + n) as byte else (87 + n) as byte
  }

  /** Two lower-case hexadecimal digits a byte. */
  function Hex(bytes: seq<byte>): Text {
    if bytes == [] then []
    else [HexDigit(bytes[0] as int / 16), HexDigit(bytes[0] as int % 16)] + Hex(bytes[1..])
  }

  function Keys(entries: seq<Attribute>): (r: seq<Text>)
    ensures |r| == |entries| && forall i :: 0 <= i < |r| ==> r[i] == entries[i].key
  {
    seq(|entries|, i requires 0 <= i < |entries| => entries[i].key)
  }

  function FullOrder(entries: seq<Attribute>): (r: seq<nat>)
    ensures forall i :: 0 <= i < |r| ==> r[i] < |entries|
  {
    var r := Order(Keys(entries), |entries|);
    assert forall i :: 0 <= i < |r| ==> r[i] in r;
    r
  }

  function Encode(v: AttributeValue): Json
    decreases v, 0
  {
    match v
    case Null => JNull
    case AInt(i) => JInt(i)
    case ADouble(d) => if d.Finite? then JFloat(d.bits) else JNull
    case ABool(b) => JBool(b)
    case AString(text) => JString(text)
    case ABytes(bytes) => JString(Hex(bytes))
    case AArray(items) => JArray(seq(|items|, i requires 0 <= i < |items| => Encode(items[i])))
    case AKvlist(entries) => JObject(Walk(v, FullOrder(entries), 0))
  }

  /** Skips every entry that another one with the same key follows. */
  function Walk(v: AttributeValue, order: seq<nat>, at: nat): seq<Member>
    requires v.AKvlist? && at <= |order| && forall i :: 0 <= i < |order| ==> order[i] < |v.entries|
    decreases v, 0, |order| - at
  {
    if at == |order| then []
    else
      var e := v.entries[order[at]];
      if at + 1 < |order| && v.entries[order[at + 1]].key == e.key then Walk(v, order, at + 1)
      else [Member(e.key, Encode(e.value))] + Walk(v, order, at + 1)
  }

  /** `Resource::get`: the last attribute with the key. */
  function Get(entries: seq<Attribute>, key: Text): Option<AttributeValue> {
    if entries == [] then None
    else
      var last := entries[|entries| - 1];
      if last.key == key then Some(last.value) else Get(entries[..|entries| - 1], key)
  }

  function Encoded(v: Option<AttributeValue>): Option<Json> {
    if v.None? then None else Some(Encode(v.value))
  }

  function Lookup(members: seq<Member>, key: Text): Option<Json> {
    if members == [] then None
    else if members[0].key == key then Some(members[0].value)
    else Lookup(members[1..], key)
  }

  predicate Ascending(members: seq<Member>) {
    forall i, j :: 0 <= i < j < |members| ==> Less(members[i].key, members[j].key)
  }

  // ---------------------------------------------------------------- the walk is last-wins

  /** The last position from `at` on whose key is `key`. */
  function LastAmong(keys: seq<Text>, order: seq<nat>, at: nat, key: Text): (r: Option<nat>)
    requires at <= |order| && forall i :: 0 <= i < |order| ==> order[i] < |keys|
    ensures r.None? ==> forall q :: at <= q < |order| ==> keys[order[q]] != key
    ensures r.Some? ==>
              && at <= r.value < |order| && keys[order[r.value]] == key
              && forall q :: r.value < q < |order| ==> keys[order[q]] != key
    decreases |order| - at
  {
    if at == |order| then None
    else
      var rest := LastAmong(keys, order, at + 1, key);
      if rest.Some? then rest else if keys[order[at]] == key then Some(at) else None
  }

  /** What the walk emits for `key` from `at` on. */
  function Emitted(v: AttributeValue, order: seq<nat>, at: nat, key: Text): Option<Json>
    requires v.AKvlist? && at <= |order| && forall i :: 0 <= i < |order| ==> order[i] < |v.entries|
  {
    var q := LastAmong(Keys(v.entries), order, at, key);
    if q.None? then None else Some(Encode(v.entries[order[q.value]].value))
  }

  lemma LaterKeysDiffer(keys: seq<Text>, order: seq<nat>, at: nat, q: nat)
    requires Sorted(keys, order) && at + 1 < |order| && at < q < |order| && keys[order[at + 1]] != keys[order[at]]
    ensures Less(keys[order[at]], keys[order[q]])
  {
    assert Before(keys, order[at], order[at + 1]);
    if at + 1 < q {
      assert Before(keys, order[at + 1], order[q]);
      if keys[order[at + 1]] != keys[order[q]] {
        LessIsTransitive(keys[order[at]], keys[order[at + 1]], keys[order[q]]);
      }
    }
  }

  lemma {:induction false} WalkEmitsLast(v: AttributeValue, order: seq<nat>, at: nat, key: Text)
    requires v.AKvlist? && at <= |order| && Sorted(Keys(v.entries), order)
    ensures Lookup(Walk(v, order, at), key) == Emitted(v, order, at, key)
    decreases |order| - at
  {
    var keys := Keys(v.entries);
    if at < |order| {
      WalkEmitsLast(v, order, at + 1, key);
      if !(at + 1 < |order| && keys[order[at + 1]] == keys[order[at]]) {
        forall q | at < q < |order| ensures keys[order[q]] != keys[order[at]] {
          LaterKeysDiffer(keys, order, at, q);
          LessIsTotal(keys[order[at]], keys[order[q]]);
        }
      }
    }
  }

  /** Every member carries the key of some later position. */
  lemma {:induction false} WalkKeys(v: AttributeValue, order: seq<nat>, at: nat, i: nat) returns (q: nat)
    requires v.AKvlist? && at <= |order| && Sorted(Keys(v.entries), order) && i < |Walk(v, order, at)|
    ensures at <= q < |order| && Walk(v, order, at)[i].key == Keys(v.entries)[order[q]]
    decreases |order| - at
  {
    if at + 1 < |order| && v.entries[order[at + 1]].key == v.entries[order[at]].key {
      q := WalkKeys(v, order, at + 1, i);
    } else if i == 0 {
      q := at;
    } else {
      q := WalkKeys(v, order, at + 1, i - 1);
    }
  }

  /** Keys come out strictly ascending. */
  lemma {:induction false} WalkAscends(v: AttributeValue, order: seq<nat>, at: nat)
    requires v.AKvlist? && at <= |order| && Sorted(Keys(v.entries), order)
    ensures Ascending(Walk(v, order, at))
    decreases |order| - at
  {
    var keys := Keys(v.entries);
    if at < |order| {
      var rest := Walk(v, order, at + 1);
      WalkAscends(v, order, at + 1);
      if !(at + 1 < |order| && keys[order[at + 1]] == keys[order[at]]) {
        forall i | 0 <= i < |rest| ensures Less(keys[order[at]], rest[i].key) {
          var q := WalkKeys(v, order, at + 1, i);
          LaterKeysDiffer(keys, order, at, q);
        }
      }
    }
  }

  /** The last position of a key in the sorted order is its last attribute. */
  lemma {:induction false} LastIsGot(entries: seq<Attribute>, key: Text, n: nat, x: nat)
    requires n <= |entries|
    requires x < n && entries[x].key == key && forall y :: x < y < n ==> entries[y].key != key
    ensures Get(entries[..n], key) == Some(entries[x].value)
    decreases n
  {
    assert entries[..n][..n - 1] == entries[..n - 1];
    if x < n - 1 {
      LastIsGot(entries, key, n - 1, x);
    }
  }

  lemma {:induction false} NoneIsGot(entries: seq<Attribute>, key: Text)
    requires forall y :: 0 <= y < |entries| ==> entries[y].key != key
    ensures Get(entries, key).None?
  {
    if entries != [] {
      NoneIsGot(entries[..|entries| - 1], key);
    }
  }

  lemma {:induction false} EmittedIsGot(entries: seq<Attribute>, order: seq<nat>, key: Text)
    requires Sorted(Keys(entries), order) && forall x: nat :: x in order <==> x < |entries|
    ensures Emitted(AKvlist(entries), order, 0, key) == Encoded(Get(entries, key))
  {
    var keys := Keys(entries);
    var last := LastAmong(keys, order, 0, key);
    if last.None? {
      forall y | 0 <= y < |entries| ensures entries[y].key != key {
        assert y in order;
      }
      NoneIsGot(entries, key);
    } else {
      var x := order[last.value];
      forall y | x < y < |entries| ensures entries[y].key != key {
        assert y in order;
        var q :| 0 <= q < |order| && order[q] == y;
        if q < last.value {
          assert Before(keys, order[q], order[last.value]);
          LessIsTotal(keys[y], keys[x]);
        }
      }
      LastIsGot(entries, key, |entries|, x);
      assert entries[..|entries|] == entries;
    }
  }

  /** The members of an encoded list are the last-wins map in strictly ascending key order. */
  lemma {:induction false} EncodingIsLastWins(entries: seq<Attribute>, key: Text)
    ensures
      var members := Encode(AKvlist(entries)).members;
      Ascending(members) && Lookup(members, key) == Encoded(Get(entries, key))
  {
    var order := FullOrder(entries);
    OrderIsSorted(Keys(entries), |entries|);
    WalkAscends(AKvlist(entries), order, 0);
    WalkEmitsLast(AKvlist(entries), order, 0, key);
    EmittedIsGot(entries, order, key);
  }

  // ---------------------------------------------------------------- when two lists encode alike

  lemma {:induction false} LookupBelow(members: seq<Member>, key: Text)
    requires forall i :: 0 <= i < |members| ==> Less(key, members[i].key)
    ensures Lookup(members, key).None?
  {
    if members != [] {
      LessIsTotal(key, members[0].key);
      LookupBelow(members[1..], key);
    }
  }

  lemma {:induction false} TailLookup(members: seq<Member>, key: Text)
    requires Ascending(members) && members != []
    ensures Lookup(members[1..], key) == if key == members[0].key then None else Lookup(members, key)
  {
    if key == members[0].key {
      LookupBelow(members[1..], key);
    }
  }

  lemma {:induction false} HeadIsLeast(members: seq<Member>, key: Text)
    requires Ascending(members) && members != [] && Less(key, members[0].key)
    ensures Lookup(members, key).None?
  {
    forall i | 0 <= i < |members| ensures Less(key, members[i].key) {
      if 0 < i {
        LessIsTransitive(key, members[0].key, members[i].key);
      }
    }
    LookupBelow(members, key);
  }

  lemma {:induction false} SameHead(a: seq<Member>, b: seq<Member>)
    requires Ascending(a) && Ascending(b) && a != [] && b != []
    requires forall key :: Lookup(a, key) == Lookup(b, key)
    ensures a[0] == b[0]
  {
    var x, y := a[0].key, b[0].key;
    assert Lookup(a, x).Some? && Lookup(b, y).Some?;
    LessIsTotal(x, y);
    if Less(x, y) {
      HeadIsLeast(b, x);
    } else if Less(y, x) {
      HeadIsLeast(a, y);
    }
  }

  /** An ascending object is determined by what its keys map to. */
  lemma {:induction false} AscendingIsUnique(a: seq<Member>, b: seq<Member>)
    requires Ascending(a) && Ascending(b) && forall key :: Lookup(a, key) == Lookup(b, key)
    ensures a == b
  {
    assert a == [] || Lookup(a, a[0].key).Some?;
    assert b == [] || Lookup(b, b[0].key).Some?;
    if a != [] && b != [] {
      SameHead(a, b);
      forall key ensures Lookup(a[1..], key) == Lookup(b[1..], key) {
        TailLookup(a, key);
        TailLookup(b, key);
      }
      AscendingIsUnique(a[1..], b[1..]);
      assert a == [a[0]] + a[1..] && b == [b[0]] + b[1..];
    }
  }

  lemma {:induction false} AlikeIfSameValues(a: seq<Attribute>, b: seq<Attribute>)
    requires forall key :: Encoded(Get(a, key)) == Encoded(Get(b, key))
    ensures Encode(AKvlist(a)) == Encode(AKvlist(b))
  {
    var x, y := Encode(AKvlist(a)).members, Encode(AKvlist(b)).members;
    EncodingIsLastWins(a, []);
    EncodingIsLastWins(b, []);
    forall key ensures Lookup(x, key) == Lookup(y, key) {
      EncodingIsLastWins(a, key);
      EncodingIsLastWins(b, key);
    }
    AscendingIsUnique(x, y);
  }

  /** Two lists have the same encoding exactly when every key's last value has. */
  lemma {:induction false} EncodeAlike(a: seq<Attribute>, b: seq<Attribute>)
    ensures Encode(AKvlist(a)) == Encode(AKvlist(b)) <==> forall key :: Encoded(Get(a, key)) == Encoded(Get(b, key))
  {
    if forall key :: Encoded(Get(a, key)) == Encoded(Get(b, key)) {
      AlikeIfSameValues(a, b);
    } else {
      var key :| Encoded(Get(a, key)) != Encoded(Get(b, key));
      EncodingIsLastWins(a, key);
      EncodingIsLastWins(b, key);
    }
  }

  // ---------------------------------------------------------------- reordering

  /** `p` lists `a` in another order, with equal keys in the order they had. */
  predicate Renumbers(p: seq<nat>, a: seq<Attribute>, b: seq<Attribute>) {
    && |p| == |a| == |b|
    && (forall i :: 0 <= i < |p| ==> p[i] < |a| && a[p[i]].key == b[i].key)
    && (forall x: nat :: x < |a| ==> x in p)
    && (forall i, j :: 0 <= i < j < |p| && b[i].key == b[j].key ==> p[i] < p[j])
  }

  /** `w` is `v` with the entries of any of its lists, nested ones included, reordered that way. */
  ghost predicate Shuffled(v: AttributeValue, w: AttributeValue)
    decreases v
  {
    match v
    case AArray(items) =>
      w.AArray? && |w.items| == |items| && forall i :: 0 <= i < |items| ==> Shuffled(items[i], w.items[i])
    case AKvlist(entries) =>
      && w.AKvlist?
      && exists p: seq<nat> :: Renumbers(p, entries, w.entries)
                               && forall i :: 0 <= i < |p| ==> Shuffled(entries[p[i]].value, w.entries[i].value)
    case _ => v == w
  }

  /** Where `Get` finds its value. */
  lemma {:induction false} GetAt(entries: seq<Attribute>, key: Text) returns (x: Option<nat>)
    ensures x.None? ==> Get(entries, key).None? && forall y :: 0 <= y < |entries| ==> entries[y].key != key
    ensures x.Some? ==>
              && x.value < |entries| && entries[x.value].key == key && Get(entries, key) == Some(entries[x.value].value)
              && forall y :: x.value < y < |entries| ==> entries[y].key != key
  {
    if entries == [] {
      return None;
    }
    var n := |entries| - 1;
    if entries[n].key == key {
      return Some(n);
    }
    x := GetAt(entries[..n], key);
  }

  /** The last entry with a key stays the last one with it. */
  lemma LastMoves(a: seq<Attribute>, b: seq<Attribute>, p: seq<nat>, x: nat) returns (i: nat)
    requires Renumbers(p, a, b) && x < |a| && forall y :: x < y < |a| ==> a[y].key != a[x].key
    ensures i < |p| && p[i] == x && b[i].key == a[x].key && forall j :: i < j < |b| ==> b[j].key != a[x].key
  {
    assert x in p;
    i :| 0 <= i < |p| && p[i] == x;
    forall j | i < j < |b| ensures b[j].key != a[x].key {
      var x', y := p[i], p[j];
      assert b[i].key == b[j].key ==> x' < y;
    }
  }

  lemma {:induction false} ShuffleKeepsGet(a: seq<Attribute>, b: seq<Attribute>, p: seq<nat>, key: Text)
    requires Renumbers(p, a, b)
    requires forall i :: 0 <= i < |p| ==> Encode(a[p[i]].value) == Encode(b[i].value)
    ensures Encoded(Get(a, key)) == Encoded(Get(b, key))
  {
    var x := GetAt(a, key);
    if x.None? {
      forall i | 0 <= i < |b| ensures b[i].key != key {
        assert a[p[i]].key == b[i].key;
      }
      NoneIsGot(b, key);
    } else {
      var i := LastMoves(a, b, p, x.value);
      LastIsGot(b, key, |b|, i);
      assert b[..|b|] == b;
    }
  }

  /** Reordering that keeps equal keys in order does not change the encoding, at any nesting level. */
  lemma {:induction false} ReorderingIsInvisible(v: AttributeValue, w: AttributeValue)
    requires Shuffled(v, w)
    ensures Encode(v) == Encode(w)
    decreases v
  {
    match v {
      case AArray(items) =>
        forall i | 0 <= i < |items| ensures Encode(items[i]) == Encode(w.items[i]) {
          ReorderingIsInvisible(items[i], w.items[i]);
        }
        assert Encode(v).items == Encode(w).items;
      case AKvlist(entries) =>
        var p: seq<nat> :| Renumbers(p, entries, w.entries)
                           && forall i :: 0 <= i < |p| ==> Shuffled(entries[p[i]].value, w.entries[i].value);
        forall i | 0 <= i < |p| ensures Encode(entries[p[i]].value) == Encode(w.entries[i].value) {
          ReorderingIsInvisible(entries[p[i]].value, w.entries[i].value);
        }
        forall key ensures Encoded(Get(entries, key)) == Encoded(Get(w.entries, key)) {
          ShuffleKeepsGet(entries, w.entries, p, key);
        }
        EncodeAlike(entries, w.entries);
      case _ =>
    }
  }

  // ---------------------------------------------------------------- what a document says

  /** The value of a lower-case hexadecimal digit. */
  function Nibble(digit: byte): Option<nat> {
    if 48 <= digit <= 57 then Some(digit as int - 48)
    else if 97 <= digit <= 102 then Some(digit as int - 87)
    else None
  }

  /** Reads bytes back from their two digits each. */
  function Unhex(text: Text): Option<seq<byte>> {
    if text == [] then Some([])
    else if |text| == 1 then None
    else
      var high, low, rest := Nibble(text[0]), Nibble(text[1]), Unhex(text[2..]);
      if high.None? || low.None? || rest.None? then None
      else Some([(16 * high.value + low.value) as byte] + rest.value)
  }

  lemma {:induction false} HexReadsBack(bytes: seq<byte>)
    ensures Unhex(Hex(bytes)) == Some(bytes)
  {
    if bytes != [] {
      var x := bytes[0] as int;
      HexReadsBack(bytes[1..]);
      assert Hex(bytes)[0] == HexDigit(x / 16) && Hex(bytes)[1] == HexDigit(x % 16) && Hex(bytes)[2..] == Hex(bytes[1..]);
      assert bytes == [bytes[0]] + bytes[1..];
    }
  }

  /** Only one text reads as the given bytes. */
  lemma {:induction false} HexIsOnly(text: Text, bytes: seq<byte>)
    requires Unhex(text) == Some(bytes)
    ensures text == Hex(bytes)
  {
    if text != [] {
      var high, low := Nibble(text[0]).value, Nibble(text[1]).value;
      HexIsOnly(text[2..], bytes[1..]);
      assert bytes[0] as int == 16 * high + low;
      assert text == [text[0], text[1]] + text[2..];
    }
  }

  lemma {:induction false} HexIsInjective(a: seq<byte>, b: seq<byte>)
    requires Hex(a) == Hex(b)
    ensures a == b
  {
    HexReadsBack(a);
    HexReadsBack(b);
  }

  /** Entry `x` is the last one with its key. */
  predicate IsLast(entries: seq<Attribute>, x: nat) {
    x < |entries| && forall y :: x < y < |entries| ==> entries[y].key != entries[x].key
  }

  /** What a document says, told without the encoder: scalars are themselves, a number that is not finite is null, bytes
      are their hexadecimal digits, lists go item by item, and an object has ascending keys, a member for every key of
      the list, and in each member what the last entry with that key says. */
  ghost predicate Denotes(j: Json, v: AttributeValue)
    decreases v
  {
    match v
    case Null => j.JNull?
    case AInt(i) => j == JInt(i)
    case ADouble(d) => if d.Finite? then j == JFloat(d.bits) else j.JNull?
    case ABool(b) => j == JBool(b)
    case AString(text) => j == JString(text)
    case ABytes(bytes) => j.JString? && Unhex(j.text) == Some(bytes)
    case AArray(items) =>
      j.JArray? && |j.items| == |items| && forall i :: 0 <= i < |items| ==> Denotes(j.items[i], items[i])
    case AKvlist(entries) =>
      && j.JObject? && Ascending(j.members)
      && (forall x :: 0 <= x < |entries| ==> HasKey(j.members, entries[x].key))
      && (forall k :: 0 <= k < |j.members| ==>
            exists x: nat :: IsLast(entries, x) && entries[x].key == j.members[k].key
                             && Denotes(j.members[k].value, entries[x].value))
  }

  predicate HasKey(members: seq<Member>, key: Text) {
    exists k :: 0 <= k < |members| && members[k].key == key
  }

  lemma {:induction false} LookupFinds(members: seq<Member>, key: Text)
    ensures Lookup(members, key).None? ==> !HasKey(members, key)
    ensures Lookup(members, key).Some? ==>
              exists k :: 0 <= k < |members| && members[k].key == key && members[k].value == Lookup(members, key).value
  {
    if members != [] && members[0].key != key {
      LookupFinds(members[1..], key);
      if Lookup(members[1..], key).Some? {
        var k :| 0 <= k < |members[1..]| && members[1..][k].key == key && members[1..][k].value == Lookup(members, key).value;
        assert members[k + 1] == members[1..][k];
      }
      forall k | 0 < k < |members| && members[k].key == key ensures HasKey(members[1..], key) {
        assert members[1..][k - 1] == members[k];
      }
    }
  }

  /** In an ascending object a key has one member, and lookup finds it. */
  lemma {:induction false} LookupAt(members: seq<Member>, k: nat)
    requires Ascending(members) && k < |members|
    ensures Lookup(members, members[k].key) == Some(members[k].value)
  {
    if 0 < k {
      LessIsTotal(members[0].key, members[k].key);
      LookupAt(members[1..], k - 1);
    }
  }

  /** The members of an encoded list and the entries they come from. */
  lemma MemberComesFromLast(entries: seq<Attribute>, k: nat) returns (x: nat)
    requires k < |Encode(AKvlist(entries)).members|
    ensures
      var m := Encode(AKvlist(entries)).members[k];
      IsLast(entries, x) && entries[x].key == m.key && m.value == Encode(entries[x].value)
  {
    var m := Encode(AKvlist(entries)).members[k];
    EncodingIsLastWins(entries, m.key);
    LookupAt(Encode(AKvlist(entries)).members, k);
    var at := GetAt(entries, m.key);
    x := at.value;
  }

  lemma EveryKeyIsThere(entries: seq<Attribute>, x: nat)
    requires x < |entries|
    ensures HasKey(Encode(AKvlist(entries)).members, entries[x].key)
  {
    EncodingIsLastWins(entries, entries[x].key);
    var at := GetAt(entries, entries[x].key);
    LookupFinds(Encode(AKvlist(entries)).members, entries[x].key);
  }

  /** The encoder writes a document that says the value. */
  lemma {:induction false} EncodedDenotes(v: AttributeValue)
    ensures Denotes(Encode(v), v)
    decreases v
  {
    match v {
      case ABytes(bytes) => HexReadsBack(bytes);
      case AArray(items) =>
        forall i | 0 <= i < |items| ensures Denotes(Encode(items[i]), items[i]) {
          EncodedDenotes(items[i]);
        }
      case AKvlist(entries) =>
        var members := Encode(v).members;
        EncodingIsLastWins(entries, []);
        forall x | 0 <= x < |entries| ensures HasKey(members, entries[x].key) {
          EveryKeyIsThere(entries, x);
        }
        forall k | 0 <= k < |members|
          ensures exists x: nat :: IsLast(entries, x) && entries[x].key == members[k].key
                                   && Denotes(members[k].value, entries[x].value)
        {
          var x := MemberComesFromLast(entries, k);
          EncodedDenotes(entries[x].value);
        }
      case _ =>
    }
  }

  lemma SameLast(entries: seq<Attribute>, x: nat, y: nat)
    requires IsLast(entries, x) && IsLast(entries, y) && entries[x].key == entries[y].key
    ensures x == y
  {
  }

  /** What lookup finds in a document that says the list is the encoding of the key's last value. */
  lemma {:induction false} DenotedLookup(j: Json, entries: seq<Attribute>, key: Text)
    requires Denotes(j, AKvlist(entries))
    requires forall x: nat, k :: IsLast(entries, x) && 0 <= k < |j.members| && Denotes(j.members[k].value, entries[x].value) ==>
               j.members[k].value == Encode(entries[x].value)
    ensures Lookup(j.members, key) == Encoded(Get(entries, key))
  {
    var at := GetAt(entries, key);
    assert at.Some? ==> HasKey(j.members, entries[at.value].key);
    LookupFinds(j.members, key);
    if Lookup(j.members, key).Some? {
      var k :| 0 <= k < |j.members| && j.members[k].key == key && j.members[k].value == Lookup(j.members, key).value;
      var x: nat :| IsLast(entries, x) && entries[x].key == j.members[k].key && Denotes(j.members[k].value, entries[x].value);
      SameLast(entries, x, at.value);
    }
  }

  lemma {:induction false} SameMembers(j: Json, entries: seq<Attribute>)
    requires Denotes(j, AKvlist(entries))
    requires forall x: nat, k :: IsLast(entries, x) && 0 <= k < |j.members| && Denotes(j.members[k].value, entries[x].value) ==>
               j.members[k].value == Encode(entries[x].value)
    ensures j == Encode(AKvlist(entries))
  {
    var members := Encode(AKvlist(entries)).members;
    EncodingIsLastWins(entries, []);
    forall key ensures Lookup(j.members, key) == Lookup(members, key) {
      DenotedLookup(j, entries, key);
      EncodingIsLastWins(entries, key);
    }
    AscendingIsUnique(j.members, members);
  }

  lemma {:induction false} DenotedIsEncoded(j: Json, v: AttributeValue)
    requires Denotes(j, v)
    ensures j == Encode(v)
    decreases v
  {
    match v {
      case ABytes(bytes) => HexIsOnly(j.text, bytes);
      case AArray(items) =>
        forall i | 0 <= i < |items| ensures j.items[i] == Encode(items[i]) {
          DenotedIsEncoded(j.items[i], items[i]);
        }
        assert j.items == Encode(v).items;
      case AKvlist(entries) =>
        forall x: nat, k | IsLast(entries, x) && 0 <= k < |j.members| && Denotes(j.members[k].value, entries[x].value)
          ensures j.members[k].value == Encode(entries[x].value)
        {
          DenotedIsEncoded(j.members[k].value, entries[x].value);
        }
        SameMembers(j, entries);
      case _ =>
    }
  }

  /** The canonical encoding of a value is the one document that says it. */
  lemma {:induction false} EncodingIsCanonical(j: Json, v: AttributeValue)
    ensures j == Encode(v) <==> Denotes(j, v)
  {
    EncodedDenotes(v);
    if Denotes(j, v) {
      DenotedIsEncoded(j, v);
    }
  }

  // ---------------------------------------------------------------- the encoders

  lemma OrderNext(keys: seq<Text>, n: nat)
    requires n < |keys|
    ensures forall i :: 0 <= i < |Order(keys, n)| ==> Order(keys, n)[i] < |keys|
    ensures Order(keys, n + 1) == InsertIndex(keys, Order(keys, n), n)
  {
    assert forall i :: 0 <= i < |Order(keys, n)| ==> Order(keys, n)[i] in Order(keys, n);
  }

  /** The index vector, sorted. */
  method SortIndices(keys: seq<Text>) returns (order: seq<nat>)
    ensures order == Order(keys, |keys|) && Sorted(keys, order)
  {
    order := [];
    for n := 0 to |keys|
      invariant order == Order(keys, n)
    {
      OrderNext(keys, n);
      order := InsertIndex(keys, order, n);
    }
    OrderIsSorted(keys, |keys|);
  }

  /** The loop both encoders share. */
  method SerializeMembers(attributes: seq<Attribute>, order: seq<nat>) returns (members: seq<Member>)
    requires forall i :: 0 <= i < |order| ==> order[i] < |attributes|
    ensures members == Walk(AKvlist(attributes), order, 0)
  {
    members := [];
    for at := 0 to |order|
      invariant members + Walk(AKvlist(attributes), order, at) == Walk(AKvlist(attributes), order, 0)
    {
      var e := attributes[order[at]];
      if !(at + 1 < |order| && attributes[order[at + 1]].key == e.key) {
        members := members + [Member(e.key, Encode(e.value))];
      }
    }
  }

  const TWO_TO_THE_32: nat := 0x1_0000_0000

  /** What the flat encoder sees of a list: its indices are 32 bits wide. */
  function Seen(attributes: seq<Attribute>): seq<Attribute> {
    attributes[..|attributes| % TWO_TO_THE_32]
  }

  /** A list whose length is a multiple of 2^32 is not seen at all: its flat document has no
      members, while its nested one has some. */
  lemma LongListIsLost(attributes: seq<Attribute>)
    requires attributes != [] && |attributes| % TWO_TO_THE_32 == 0
    ensures Encode(AKvlist(Seen(attributes))) == JObject([]) != Encode(AKvlist(attributes))
  {
    var key := attributes[0].key;
    assert Seen(attributes) == [];
    EncodingIsLastWins(attributes, key);
    var x := GetAt(attributes, key);
    assert Keys([]) == [] && Order([], 0) == [];
  }

  /** `write_attributes_json_into`: agrees with the nested encoding exactly when every key's last
      value shows in the part of the list that is seen, as it always does below 2^32 entries. */
  method WriteAttributesJson(attributes: seq<Attribute>) returns (document: Json)
    ensures document == Encode(AKvlist(Seen(attributes))) && Denotes(document, AKvlist(Seen(attributes)))
    ensures |attributes| < TWO_TO_THE_32 ==> document == Encode(AKvlist(attributes))
    ensures document == Encode(AKvlist(attributes)) <==>
              forall key :: Encoded(Get(Seen(attributes), key)) == Encoded(Get(attributes, key))
  {
    var seen := Seen(attributes);
    assert |attributes| < TWO_TO_THE_32 ==> seen == attributes;
    EncodeAlike(seen, attributes);
    EncodedDenotes(AKvlist(seen));
    var order := SortIndices(Keys(seen));
    assert order == FullOrder(seen);
    var members := SerializeMembers(seen, order);
    document := JObject(members);
  }
}
