/** What the request limits bound: everything in a request that has a length or a depth is measured, and a request is valid
exactly when every measure is allowed and every scope is within its budget. */
module Measures {
  import opened InsertBatching
  import opened Texts
  import opened Values
  import opened Mapping

  datatype Measure =
    | KeyLength(bytes: nat)
    | TextLength(bytes: nat)
    | BodyLength(bytes: nat)
    | ListLength(entries: nat)
    | Nesting(levels: nat)

  predicate Allowed(m: Measure, limits: Limits) {
    match m
    case KeyLength(n) => n <= limits.keyBytes
    case TextLength(n) => n <= limits.valueBytes
    case BodyLength(n) => n <= limits.bodyBytes
    case ListLength(n) => n <= limits.attributes
    case Nesting(n) => n <= MAX_NESTING_DEPTH
  }

  // ---------------------------------------------------------------- what is measured

  /** `m` is a measure of `v` or of something inside it, with `depth` containers around it. */
  ghost predicate In(m: Measure, v: AnyValue, depth: nat)
    decreases v
  {
    match v
    case Str(text) => m == TextLength(|text|)
    case Bytes(bytes) => m == TextLength(|bytes|)
    case Array(items) => m == Nesting(depth + 1) || exists i :: 0 <= i < |items| && In(m, items[i], depth + 1)
    case Kvlist(entries) =>
      || m == Nesting(depth + 1)
      || exists i :: 0 <= i < |entries| &&
           (m == KeyLength(|entries[i].key|) || (entries[i].value.Some? && In(m, entries[i].value.value, depth + 1)))
    case _ => false
  }

  ghost predicate InEntry(m: Measure, e: KeyValue, depth: nat) {
    m == KeyLength(|e.key|) || (e.value.Some? && In(m, e.value.value, depth))
  }

  ghost predicate InList(m: Measure, values: seq<KeyValue>) {
    m == ListLength(|values|) || exists i :: 0 <= i < |values| && InEntry(m, values[i], 0)
  }

  ghost predicate InBody(m: Measure, body: Option<AnyValue>) {
    body.Some? &&
    match body.value
    case Str(text) => m == BodyLength(|text|)
    case Bytes(bytes) => m == BodyLength(|bytes|)
    case _ => In(m, body.value, 0)
  }

  ghost predicate InRecord(m: Measure, r: ProtoRecord) {
    || m == TextLength(|r.severityText|) || m == TextLength(|r.eventName|)
    || InList(m, r.attributes) || InBody(m, r.body)
  }

  ghost predicate InScope(m: Measure, s: ScopeLogs) {
    || m == TextLength(|s.schemaUrl|)
    || (s.scope.Some? &&
        (m == TextLength(|s.scope.value.name|) || m == TextLength(|s.scope.value.version|) || InList(m, s.scope.value.attributes)))
    || exists i :: 0 <= i < |s.records| && InRecord(m, s.records[i])
  }

  ghost predicate InGroup(m: Measure, g: ResourceLogs) {
    || m == TextLength(|g.schemaUrl|)
    || InList(m, if g.resource.None? then [] else g.resource.value)
    || exists i :: 0 <= i < |g.scopes| && InScope(m, g.scopes[i])
  }

  ghost predicate InRequest(m: Measure, groups: seq<ResourceLogs>) {
    exists i :: 0 <= i < |groups| && InGroup(m, groups[i])
  }

  /** The metadata a scope's records repeat fit the budget, a lone record under the largest budget always. */
  predicate Affordable(s: ScopeLogs, limits: Limits, l: Layout) {
    ScopeSize(s.scope, s.schemaUrl, l) * |s.records| <= limits.scopeBytes || (limits.scopeBytes == l.max && |s.records| == 1)
  }

  // ---------------------------------------------------------------- values

  ghost predicate AllAllowed(v: AnyValue, depth: nat, limits: Limits) {
    forall m: Measure :: In(m, v, depth) ==> Allowed(m, limits)
  }

  lemma ArrayAllowed(v: AnyValue, depth: nat, limits: Limits)
    requires v.Array?
    ensures AllAllowed(v, depth, limits) <==>
              depth < MAX_NESTING_DEPTH && forall i :: 0 <= i < |v.items| ==> AllAllowed(v.items[i], depth + 1, limits)
  {
    if AllAllowed(v, depth, limits) {
      assert In(Nesting(depth + 1), v, depth);
      forall i, m: Measure | 0 <= i < |v.items| && In(m, v.items[i], depth + 1) ensures Allowed(m, limits) {
        assert In(m, v, depth);
      }
    }
  }

  lemma KvlistAllowed(v: AnyValue, depth: nat, limits: Limits)
    requires v.Kvlist?
    ensures AllAllowed(v, depth, limits) <==>
              && depth < MAX_NESTING_DEPTH
              && forall i :: 0 <= i < |v.entries| ==>
                   && |v.entries[i].key| <= limits.keyBytes
                   && (v.entries[i].value.Some? ==> AllAllowed(v.entries[i].value.value, depth + 1, limits))
  {
    if AllAllowed(v, depth, limits) {
      assert In(Nesting(depth + 1), v, depth);
      forall i | 0 <= i < |v.entries| ensures |v.entries[i].key| <= limits.keyBytes {
        assert In(KeyLength(|v.entries[i].key|), v, depth);
      }
      forall i, m: Measure | 0 <= i < |v.entries| && v.entries[i].value.Some? && In(m, v.entries[i].value.value, depth + 1)
        ensures Allowed(m, limits)
      {
        assert In(m, v, depth);
      }
    }
  }

  /** A value is accepted exactly when everything measured in it is allowed. */
  lemma {:induction false} FitsMeansAllowed(v: AnyValue, depth: nat, limits: Limits)
    ensures Fits(v, depth, limits) <==> AllAllowed(v, depth, limits)
    decreases v
  {
    match v {
      case Str(text) => assert In(TextLength(|text|), v, depth);
      case Bytes(bytes) => assert In(TextLength(|bytes|), v, depth);
      case Array(items) =>
        forall i | 0 <= i < |items| ensures Fits(items[i], depth + 1, limits) <==> AllAllowed(items[i], depth + 1, limits) {
          FitsMeansAllowed(items[i], depth + 1, limits);
        }
        ArrayFits(v, depth, limits);
        ArrayAllowed(v, depth, limits);
      case Kvlist(entries) =>
        forall i | 0 <= i < |entries|
          ensures EntryFits(entries[i], depth + 1, limits) <==>
                  && |entries[i].key| <= limits.keyBytes
                  && (entries[i].value.Some? ==> AllAllowed(entries[i].value.value, depth + 1, limits))
        {
          if entries[i].value.Some? {
            FitsMeansAllowed(entries[i].value.value, depth + 1, limits);
          }
        }
        KvlistFits(v, depth, limits);
        KvlistAllowed(v, depth, limits);
      case _ =>
    }
  }

  // ---------------------------------------------------------------- requests

  lemma EntryMeans(e: KeyValue, depth: nat, limits: Limits)
    ensures EntryFits(e, depth, limits) <==> forall m: Measure :: InEntry(m, e, depth) ==> Allowed(m, limits)
  {
    if e.value.Some? {
      FitsMeansAllowed(e.value.value, depth, limits);
    }
    if forall m: Measure :: InEntry(m, e, depth) ==> Allowed(m, limits) {
      assert InEntry(KeyLength(|e.key|), e, depth);
      forall m: Measure | e.value.Some? && In(m, e.value.value, depth) ensures Allowed(m, limits) {
        assert InEntry(m, e, depth);
      }
    }
  }

  lemma ListMeans(values: seq<KeyValue>, limits: Limits)
    ensures AttributesOk(values, limits) <==> forall m: Measure :: InList(m, values) ==> Allowed(m, limits)
  {
    forall i | 0 <= i < |values|
      ensures EntryFits(values[i], 0, limits) <==> forall m: Measure :: InEntry(m, values[i], 0) ==> Allowed(m, limits)
    {
      EntryMeans(values[i], 0, limits);
    }
    if forall m: Measure :: InList(m, values) ==> Allowed(m, limits) {
      assert InList(ListLength(|values|), values);
      forall i, m: Measure | 0 <= i < |values| && InEntry(m, values[i], 0) ensures Allowed(m, limits) {
        assert InList(m, values);
      }
    }
  }

  lemma BodyMeans(body: Option<AnyValue>, limits: Limits)
    ensures BodyOk(body, limits) <==> forall m: Measure :: InBody(m, body) ==> Allowed(m, limits)
  {
    if body.Some? {
      match body.value {
        case Str(text) => assert InBody(BodyLength(|text|), body);
        case Bytes(bytes) => assert InBody(BodyLength(|bytes|), body);
        case _ =>
          FitsMeansAllowed(body.value, 0, limits);
          assert forall m: Measure :: InBody(m, body) <==> In(m, body.value, 0);
      }
    }
  }

  lemma RecordMeans(r: ProtoRecord, limits: Limits)
    ensures RecordOk(r, limits) <==> forall m: Measure :: InRecord(m, r) ==> Allowed(m, limits)
  {
    ListMeans(r.attributes, limits);
    BodyMeans(r.body, limits);
    if forall m: Measure :: InRecord(m, r) ==> Allowed(m, limits) {
      assert InRecord(TextLength(|r.severityText|), r) && InRecord(TextLength(|r.eventName|), r);
      forall m: Measure | InList(m, r.attributes) || InBody(m, r.body) ensures Allowed(m, limits) {
        assert InRecord(m, r);
      }
    }
  }

  lemma ScopeAllowedMeansOk(s: ScopeLogs, limits: Limits, l: Layout)
    requires Affordable(s, limits, l) && forall m: Measure :: InScope(m, s) ==> Allowed(m, limits)
    ensures ScopeOk(s, limits, l)
  {
    assert InScope(TextLength(|s.schemaUrl|), s);
    if s.scope.Some? {
      assert InScope(TextLength(|s.scope.value.name|), s) && InScope(TextLength(|s.scope.value.version|), s);
      forall m: Measure | InList(m, s.scope.value.attributes) ensures Allowed(m, limits) {
        assert InScope(m, s);
      }
      ListMeans(s.scope.value.attributes, limits);
    }
    forall i | 0 <= i < |s.records| ensures RecordOk(s.records[i], limits) {
      forall m: Measure | InRecord(m, s.records[i]) ensures Allowed(m, limits) {
        assert InScope(m, s);
      }
      RecordMeans(s.records[i], limits);
    }
  }

  lemma ScopeMeans(s: ScopeLogs, limits: Limits, l: Layout)
    ensures ScopeOk(s, limits, l) <==> Affordable(s, limits, l) && forall m: Measure :: InScope(m, s) ==> Allowed(m, limits)
  {
    if ScopeOk(s, limits, l) {
      forall m: Measure | InScope(m, s) ensures Allowed(m, limits) {
        if s.scope.Some? {
          ListMeans(s.scope.value.attributes, limits);
        }
        forall i | 0 <= i < |s.records| ensures InRecord(m, s.records[i]) ==> Allowed(m, limits) {
          RecordMeans(s.records[i], limits);
        }
      }
    } else if Affordable(s, limits, l) && forall m: Measure :: InScope(m, s) ==> Allowed(m, limits) {
      ScopeAllowedMeansOk(s, limits, l);
    }
  }

  lemma GroupAllowedMeansOk(g: ResourceLogs, limits: Limits, l: Layout)
    requires forall m: Measure :: InGroup(m, g) ==> Allowed(m, limits)
    requires forall i :: 0 <= i < |g.scopes| ==> Affordable(g.scopes[i], limits, l)
    ensures GroupOk(g, limits, l)
  {
    assert InGroup(TextLength(|g.schemaUrl|), g);
    var resource := if g.resource.None? then [] else g.resource.value;
    forall m: Measure | InList(m, resource) ensures Allowed(m, limits) {
      assert InGroup(m, g);
    }
    ListMeans(resource, limits);
    forall i | 0 <= i < |g.scopes| ensures ScopeOk(g.scopes[i], limits, l) {
      forall m: Measure | InScope(m, g.scopes[i]) ensures Allowed(m, limits) {
        assert InGroup(m, g);
      }
      ScopeMeans(g.scopes[i], limits, l);
    }
  }

  lemma GroupMeans(g: ResourceLogs, limits: Limits, l: Layout)
    ensures GroupOk(g, limits, l) <==>
              && (forall i :: 0 <= i < |g.scopes| ==> Affordable(g.scopes[i], limits, l))
              && forall m: Measure :: InGroup(m, g) ==> Allowed(m, limits)
  {
    if GroupOk(g, limits, l) {
      ListMeans(if g.resource.None? then [] else g.resource.value, limits);
      forall i | 0 <= i < |g.scopes|
        ensures Affordable(g.scopes[i], limits, l) && forall m: Measure :: InScope(m, g.scopes[i]) ==> Allowed(m, limits)
      {
        ScopeMeans(g.scopes[i], limits, l);
      }
    } else if && (forall i :: 0 <= i < |g.scopes| ==> Affordable(g.scopes[i], limits, l))
              && forall m: Measure :: InGroup(m, g) ==> Allowed(m, limits) {
      GroupAllowedMeansOk(g, limits, l);
    }
  }

  /** A request is valid exactly when everything measured anywhere in it is allowed and every scope is affordable. */
  lemma ValidMeansAllowed(groups: seq<ResourceLogs>, limits: Limits, l: Layout)
    ensures RequestOk(groups, limits, l) <==>
              && (forall i, j :: 0 <= i < |groups| && 0 <= j < |groups[i].scopes| ==> Affordable(groups[i].scopes[j], limits, l))
              && forall m: Measure :: InRequest(m, groups) ==> Allowed(m, limits)
  {
    forall i | 0 <= i < |groups|
      ensures GroupOk(groups[i], limits, l) <==>
              && (forall j :: 0 <= j < |groups[i].scopes| ==> Affordable(groups[i].scopes[j], limits, l))
              && forall m: Measure :: InGroup(m, groups[i]) ==> Allowed(m, limits)
    {
      GroupMeans(groups[i], limits, l);
    }
    if forall m: Measure :: InRequest(m, groups) ==> Allowed(m, limits) {
      forall i, m: Measure | 0 <= i < |groups| && InGroup(m, groups[i]) ensures Allowed(m, limits) {
        assert InRequest(m, groups);
      }
    }
  }

  // ---------------------------------------------------------------- what the budget counts

  /** The size of a scope's metadata, told by how it grows: nothing for an empty scope, and one byte for every byte added
      anywhere, plus the room of every entry and value added. */
  lemma ScopeSizeGrows(s: Scope, schemaUrl: Text, name: Text, version: Text, more: Text, e: KeyValue, l: Layout)
    ensures ScopeSize(Some(Scope([], [], [])), [], l) == 0 && ScopeSize(None, schemaUrl, l) == |schemaUrl|
    ensures ScopeSize(Some(Scope(s.name + name, s.version + version, s.attributes + [e])), schemaUrl + more, l)
         == ScopeSize(Some(s), schemaUrl, l) + |name| + |version| + |more|
            + |e.key| + l.attribute + if e.value.Some? then Size(e.value.value, l) else 0
  {
    var n := |s.attributes|;
    PrefixSize(s.attributes, [e], n, l);
    assert (s.attributes + [e])[n] == e;
  }

  lemma {:induction false} PrefixSize(a: seq<KeyValue>, b: seq<KeyValue>, k: nat, l: Layout)
    requires k <= |a|
    ensures AttributesSize(a + b, k, l) == AttributesSize(a, k, l)
  {
    if 0 < k {
      PrefixSize(a, b, k - 1, l);
      assert (a + b)[k - 1] == a[k - 1];
    }
  }

  /** The size of a value, told the same way. */
  lemma SizeGrows(v: AnyValue, e: KeyValue, items: seq<AnyValue>, entries: seq<KeyValue>, text: Text, l: Layout)
    ensures Size(Str(text), l) == Size(Bytes(text), l) == l.anyValue + |text|
    ensures !v.Str? && !v.Bytes? && !v.Array? && !v.Kvlist? ==> Size(v, l) == l.anyValue
    ensures Size(Array([]), l) == Size(Kvlist([]), l) == l.anyValue
    ensures Size(Array(items + [v]), l) == Size(Array(items), l) + Size(v, l)
    ensures Size(Kvlist(entries + [e]), l)
         == Size(Kvlist(entries), l) + |e.key| + l.keyValue + if e.value.Some? then Size(e.value.value, l) else 0
  {
    ItemsPrefix(items, [v], |items|, l);
    EntriesPrefix(entries, [e], |entries|, l);
    assert (items + [v])[|items|] == v && (entries + [e])[|entries|] == e;
  }

  lemma {:induction false} ItemsPrefix(a: seq<AnyValue>, b: seq<AnyValue>, k: nat, l: Layout)
    requires k <= |a|
    ensures SizeOfItems(Array(a + b), k, l) == SizeOfItems(Array(a), k, l)
  {
    if 0 < k {
      ItemsPrefix(a, b, k - 1, l);
      assert (a + b)[k - 1] == a[k - 1];
    }
  }

  lemma {:induction false} EntriesPrefix(a: seq<KeyValue>, b: seq<KeyValue>, k: nat, l: Layout)
    requires k <= |a|
    ensures SizeOfEntries(Kvlist(a + b), k, l) == SizeOfEntries(Kvlist(a), k, l)
  {
    if 0 < k {
      EntriesPrefix(a, b, k - 1, l);
      assert (a + b)[k - 1] == a[k - 1];
    }
  }
}
