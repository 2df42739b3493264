/** Export requests: the validator that runs first, and the mapping it protects. */
module Mapping {
  import opened InsertBatching
  import opened Texts
  import opened Values

  /** `fields` stands for the ids, times, severity and flags, which are copied by total functions. */
  datatype ProtoRecord = ProtoRecord(
    fields: nat, severityText: Text, eventName: Text, attributes: seq<KeyValue>, body: Option<AnyValue>)

  datatype Scope = Scope(name: Text, version: Text, attributes: seq<KeyValue>)

  datatype ScopeLogs = ScopeLogs(scope: Option<Scope>, records: seq<ProtoRecord>, schemaUrl: Text)

  datatype ResourceLogs = ResourceLogs(resource: Option<seq<KeyValue>>, scopes: seq<ScopeLogs>, schemaUrl: Text)

  /** A scalar body is rendered as text, a structured one as canonical JSON. */
  datatype Body = PlainBody(of: AnyValue) | JsonBody(value: AttributeValue)

  datatype LogScope = LogScope(name: Text, version: Text, attributes: seq<Attribute>, schemaUrl: Text)

  datatype LogRecord = LogRecord(
    fields: nat, severityText: Text, eventName: Text, attributes: seq<Attribute>, body: Body, scope: LogScope)

  datatype Chunk = Chunk(resource: Option<seq<Attribute>>, schemaUrl: Text, records: seq<LogRecord>)

  // ---------------------------------------------------------------- the scope budget

  function AttributesSize(values: seq<KeyValue>, k: nat, l: Layout): nat
    requires k <= |values|
  {
    if k == 0 then 0
    else
      var e := values[k - 1];
      AttributesSize(values, k - 1, l) + |e.key| + l.attribute + if e.value.Some? then Size(e.value.value, l) else 0
  }

  /** The metadata every record of the scope repeats, unbounded. */
  function ScopeSize(scope: Option<Scope>, schemaUrl: Text, l: Layout): nat {
    if scope.None? then |schemaUrl|
    else
      var s := scope.value;
      |s.name| + |s.version| + |schemaUrl| + AttributesSize(s.attributes, |s.attributes|, l)
  }

  method AddAttribute(e: KeyValue, total: nat, ghost done: nat, l: Layout) returns (total': nat)
    requires 0 < l.anyValue && total == Capped(l.max, done)
    ensures total' == Capped(l.max, done + (|e.key| + l.attribute + if e.value.Some? then Size(e.value.value, l) else 0))
  {
    total' := Plus(l.max, total, Plus(l.max, |e.key|, l.attribute));
    if e.value.Some? {
      var size := AnyValueSize(e.value.value, l);
      total' := Plus(l.max, total', size);
    }
  }

  /** `scope_metadata_bytes`. */
  method ScopeMetadataBytes(scope: Option<Scope>, schemaUrl: Text, l: Layout) returns (total: nat)
    requires 0 < l.anyValue && |schemaUrl| <= l.max
    ensures total == Capped(l.max, ScopeSize(scope, schemaUrl, l))
  {
    if scope.None? {
      return |schemaUrl|;
    }
    var s := scope.value;
    ghost var base: nat := |s.name| + |s.version| + |schemaUrl|;
    total := Plus(l.max, Plus(l.max, |s.name|, |s.version|), |schemaUrl|);
    for i := 0 to |s.attributes|
      invariant total == Capped(l.max, base + AttributesSize(s.attributes, i, l))
    {
      total := AddAttribute(s.attributes[i], total, base + AttributesSize(s.attributes, i, l), l);
    }
  }

  /** `check_scope_expansion`: division instead of multiplication. */
  predicate Rejects(metadata: nat, members: nat, budget: nat) {
    members != 0 && metadata != 0 && metadata > budget / members
  }

  lemma DivisionComparesProducts(x: nat, n: nat, budget: nat)
    requires 0 < n
    ensures x > budget / n <==> x * n > budget
  {
    var q := budget / n;
    assert q * n <= budget < (q + 1) * n;
    if x > q {
      assert x * n >= (q + 1) * n by { Monotone(q + 1, x, n); }
    } else {
      assert x * n <= q * n by { Monotone(x, q, n); }
    }
  }

  lemma Monotone(a: nat, b: nat, n: nat)
    requires a <= b
    ensures a * n <= b * n
  {
  }

  /** Computed with saturating sums and one division, the check rejects exactly when the true size
      times the members exceeds the budget; except that a lone member under the maximal budget
      is never rejected. */
  lemma BudgetIsExact(size: nat, members: nat, budget: nat, max: nat)
    requires budget <= max && 0 < max
    ensures Rejects(Capped(max, size), members, budget) <==>
              size * members > budget && !(budget == max && members == 1)
  {
    if members != 0 && size != 0 {
      DivisionComparesProducts(size, members, budget);
      DivisionComparesProducts(Capped(max, size), members, budget);
      if max < size {
        Monotone(1, members, size);
        assert size * members == members * size >= size;
        if 1 < members {
          Monotone(2, members, max);
          assert max * members == members * max;
        }
      }
    }
  }

  // ---------------------------------------------------------------- what a valid request is

  predicate AttributesOk(values: seq<KeyValue>, limits: Limits) {
    |values| <= limits.attributes && forall i :: 0 <= i < |values| ==> EntryFits(values[i], 0, limits)
  }

  predicate PlainOk(text: Text, limits: Limits) {
    |text| <= limits.valueBytes
  }

  predicate BodyOk(body: Option<AnyValue>, limits: Limits) {
    body.Some? ==>
      match body.value
      case Str(text) => |text| <= limits.bodyBytes
      case Bytes(bytes) => |bytes| <= limits.bodyBytes
      case _ => Fits(body.value, 0, limits)
  }

  predicate RecordOk(r: ProtoRecord, limits: Limits) {
    AttributesOk(r.attributes, limits) && PlainOk(r.severityText, limits) && PlainOk(r.eventName, limits) && BodyOk(r.body, limits)
  }

  predicate ScopeOk(s: ScopeLogs, limits: Limits, l: Layout) {
    && (s.scope.Some? ==>
          var scope := s.scope.value;
          AttributesOk(scope.attributes, limits) && PlainOk(scope.name, limits) && PlainOk(scope.version, limits))
    && PlainOk(s.schemaUrl, limits)
    && (ScopeSize(s.scope, s.schemaUrl, l) * |s.records| <= limits.scopeBytes
        || (limits.scopeBytes == l.max && |s.records| == 1))
    && forall i :: 0 <= i < |s.records| ==> RecordOk(s.records[i], limits)
  }

  predicate GroupOk(g: ResourceLogs, limits: Limits, l: Layout) {
    && PlainOk(g.schemaUrl, limits)
    && AttributesOk(if g.resource.None? then [] else g.resource.value, limits)
    && forall i :: 0 <= i < |g.scopes| ==> ScopeOk(g.scopes[i], limits, l)
  }

  predicate RequestOk(groups: seq<ResourceLogs>, limits: Limits, l: Layout) {
    forall i :: 0 <= i < |groups| ==> GroupOk(groups[i], limits, l)
  }

  /** Limits and lengths are machine words, and values take room. */
  predicate Machine(limits: Limits, l: Layout) {
    0 < l.anyValue && 0 < l.max && limits.scopeBytes <= l.max && limits.valueBytes <= l.max
  }

  // ---------------------------------------------------------------- the validator

  method CheckAttributes(values: seq<KeyValue>, limits: Limits) returns (ok: bool)
    ensures ok <==> AttributesOk(values, limits)
  {
    if |values| > limits.attributes {
      return false;
    }
    for i := 0 to |values|
      invariant forall j :: 0 <= j < i ==> EntryFits(values[j], 0, limits)
    {
      var e := values[i];
      if |e.key| > limits.keyBytes {
        assert !EntryFits(values[i], 0, limits);
        return false;
      }
      if e.value.Some? {
        var fits := CheckAnyValue(e.value.value, limits);
        if !fits {
          assert !EntryFits(values[i], 0, limits);
          return false;
        }
      }
    }
    ok := true;
  }

  method CheckBody(body: Option<AnyValue>, limits: Limits) returns (ok: bool)
    ensures ok <==> BodyOk(body, limits)
  {
    if body.None? {
      return true;
    }
    match body.value {
      case Str(text) => ok := |text| <= limits.bodyBytes;
      case Bytes(bytes) => ok := |bytes| <= limits.bodyBytes;
      case _ => ok := CheckAnyValue(body.value, limits);
    }
  }

  method CheckRecords(records: seq<ProtoRecord>, limits: Limits) returns (ok: bool)
    ensures ok <==> forall i :: 0 <= i < |records| ==> RecordOk(records[i], limits)
  {
    for i := 0 to |records|
      invariant forall j :: 0 <= j < i ==> RecordOk(records[j], limits)
    {
      var r := records[i];
      ok := CheckAttributes(r.attributes, limits);
      if ok && PlainOk(r.severityText, limits) && PlainOk(r.eventName, limits) {
        ok := CheckBody(r.body, limits);
      } else {
        ok := false;
      }
      if !ok {
        assert !RecordOk(records[i], limits);
        return;
      }
    }
    ok := true;
  }

  method CheckScope(s: ScopeLogs, limits: Limits, l: Layout) returns (ok: bool)
    requires Machine(limits, l)
    ensures ok <==> ScopeOk(s, limits, l)
  {
    if s.scope.Some? {
      var scope := s.scope.value;
      ok := CheckAttributes(scope.attributes, limits);
      if !ok || !PlainOk(scope.name, limits) || !PlainOk(scope.version, limits) {
        return false;
      }
    }
    if !PlainOk(s.schemaUrl, limits) {
      return false;
    }
    var metadata := ScopeMetadataBytes(s.scope, s.schemaUrl, l);
    BudgetIsExact(ScopeSize(s.scope, s.schemaUrl, l), |s.records|, limits.scopeBytes, l.max);
    if Rejects(metadata, |s.records|, limits.scopeBytes) {
      return false;
    }
    ok := CheckRecords(s.records, limits);
  }

  method CheckGroup(g: ResourceLogs, limits: Limits, l: Layout) returns (ok: bool)
    requires Machine(limits, l)
    ensures ok <==> GroupOk(g, limits, l)
  {
    if !PlainOk(g.schemaUrl, limits) {
      return false;
    }
    ok := CheckAttributes(if g.resource.None? then [] else g.resource.value, limits);
    if !ok {
      return;
    }
    for i := 0 to |g.scopes|
      invariant forall j :: 0 <= j < i ==> ScopeOk(g.scopes[j], limits, l)
    {
      ok := CheckScope(g.scopes[i], limits, l);
      if !ok {
        return;
      }
    }
    ok := true;
  }

  /** `validate_request`: accepts exactly the requests within all limits. */
  method ValidateRequest(groups: seq<ResourceLogs>, limits: Limits, l: Layout) returns (ok: bool)
    requires Machine(limits, l)
    ensures ok <==> RequestOk(groups, limits, l)
  {
    for i := 0 to |groups|
      invariant forall j :: 0 <= j < i ==> GroupOk(groups[j], limits, l)
    {
      ok := CheckGroup(groups[i], limits, l);
      if !ok {
        return;
      }
    }
    ok := true;
  }

  // ---------------------------------------------------------------- the mapping

  function Attributes(values: seq<KeyValue>): Option<seq<Attribute>> {
    ConvertEntries(Kvlist(values), |values|, 0)
  }

  /** `body_value`: the parts of a structured body are converted from depth zero again. */
  function BodyValue(body: Option<AnyValue>): Option<Body> {
    if body.None? then Some(PlainBody(Empty))
    else
      match body.value
      case Array(items) =>
        var r := ConvertItems(body.value, |items|, 0);
        if r.None? then None else Some(JsonBody(AArray(r.value)))
      case Kvlist(entries) =>
        var r := Attributes(entries);
        if r.None? then None else Some(JsonBody(AKvlist(r.value)))
      case StrIndex(_) => Some(PlainBody(Empty))
      case _ => Some(PlainBody(body.value))
  }

  function ConvertRecord(r: ProtoRecord, scope: LogScope): Option<LogRecord> {
    var body, attributes := BodyValue(r.body), Attributes(r.attributes);
    if body.None? || attributes.None? then None
    else Some(LogRecord(r.fields, r.severityText, r.eventName, attributes.value, body.value, scope))
  }

  function ScopeParts(s: ScopeLogs): Scope {
    if s.scope.None? then Scope([], [], []) else s.scope.value
  }

  function ConvertRecords(records: seq<ProtoRecord>, scope: LogScope): Option<seq<LogRecord>> {
    if records == [] then Some([])
    else
      var before := ConvertRecords(records[..|records| - 1], scope);
      var last := ConvertRecord(records[|records| - 1], scope);
      if before.None? || last.None? then None else Some(before.value + [last.value])
  }

  function ConvertScope(s: ScopeLogs): Option<seq<LogRecord>> {
    var parts := ScopeParts(s);
    var attributes := Attributes(parts.attributes);
    if attributes.None? then None
    else ConvertRecords(s.records, LogScope(parts.name, parts.version, attributes.value, s.schemaUrl))
  }

  function ConvertScopes(scopes: seq<ScopeLogs>): Option<seq<LogRecord>> {
    if scopes == [] then Some([])
    else
      var before, last := ConvertScopes(scopes[..|scopes| - 1]), ConvertScope(scopes[|scopes| - 1]);
      if before.None? || last.None? then None else Some(before.value + last.value)
  }

  function ConvertGroup(g: ResourceLogs): Option<Chunk> {
    var resource := if g.resource.None? then Some(None)
                    else
                      var r := Attributes(g.resource.value);
                      if r.None? then None else Some(r);
    var records := ConvertScopes(g.scopes);
    if resource.None? || records.None? then None else Some(Chunk(resource.value, g.schemaUrl, records.value))
  }

  /** One chunk per group that has records. */
  function ChunksOf(groups: seq<ResourceLogs>): Option<seq<Chunk>> {
    if groups == [] then Some([])
    else
      var before, last := ChunksOf(groups[..|groups| - 1]), ConvertGroup(groups[|groups| - 1]);
      if before.None? || last.None? then None
      else if last.value.records == [] then before
      else Some(before.value + [last.value])
  }

  method ConvertRecordList(records: seq<ProtoRecord>, scope: LogScope, done: seq<LogRecord>) returns (r: Option<seq<LogRecord>>)
    ensures
      var converted := ConvertRecords(records, scope);
      r == if converted.None? then None else Some(done + converted.value)
  {
    var out := done;
    for i := 0 to |records|
      invariant ConvertRecords(records[..i], scope).Some? && out == done + ConvertRecords(records[..i], scope).value
    {
      assert records[..i + 1][..i] == records[..i];
      var next := ConvertRecord(records[i], scope);
      if next.None? {
        RecordsFail(records, i + 1, scope);
        return None;
      }
      out := out + [next.value];
    }
    assert records[..|records|] == records;
    r := Some(out);
  }

  lemma {:induction false} RecordsFail(records: seq<ProtoRecord>, k: nat, scope: LogScope)
    requires k <= |records| && ConvertRecords(records[..k], scope).None?
    ensures ConvertRecords(records, scope).None?
    decreases |records| - k
  {
    if k == |records| {
      assert records[..k] == records;
    } else {
      assert records[..k + 1][..k] == records[..k];
      RecordsFail(records, k + 1, scope);
    }
  }

  lemma {:induction false} ScopesFail(scopes: seq<ScopeLogs>, k: nat)
    requires k <= |scopes| && ConvertScopes(scopes[..k]).None?
    ensures ConvertScopes(scopes).None?
    decreases |scopes| - k
  {
    if k == |scopes| {
      assert scopes[..k] == scopes;
    } else {
      assert scopes[..k + 1][..k] == scopes[..k];
      ScopesFail(scopes, k + 1);
    }
  }

  /** A scope without records is converted for its errors only. */
  method ConvertOneScope(s: ScopeLogs, done: seq<LogRecord>) returns (r: Option<seq<LogRecord>>)
    ensures r == if ConvertScope(s).None? then None else Some(done + ConvertScope(s).value)
  {
    var parts := ScopeParts(s);
    var attributes := Attributes(parts.attributes);
    if attributes.None? {
      return None;
    }
    if s.records == [] {
      assert done + [] == done;
      return Some(done);
    }
    r := ConvertRecordList(s.records, LogScope(parts.name, parts.version, attributes.value, s.schemaUrl), done);
  }

  /** `try_convert_batch`. */
  method TryConvertBatch(g: ResourceLogs) returns (r: Option<Chunk>)
    ensures r == ConvertGroup(g)
  {
    var resource: Option<seq<Attribute>> := None;
    if g.resource.Some? {
      resource := Attributes(g.resource.value);
      if resource.None? {
        return None;
      }
    }
    var records := [];
    for i := 0 to |g.scopes|
      invariant ConvertScopes(g.scopes[..i]) == Some(records)
    {
      assert g.scopes[..i + 1][..i] == g.scopes[..i];
      var next := ConvertOneScope(g.scopes[i], records);
      if next.None? {
        ScopesFail(g.scopes, i + 1);
        return None;
      }
      records := next.value;
    }
    assert g.scopes[..|g.scopes|] == g.scopes;
    r := Some(Chunk(resource, g.schemaUrl, records));
  }

  lemma {:induction false} GroupsFail(groups: seq<ResourceLogs>, k: nat)
    requires k <= |groups| && ChunksOf(groups[..k]).None?
    ensures ChunksOf(groups).None?
    decreases |groups| - k
  {
    if k == |groups| {
      assert groups[..k] == groups;
    } else {
      assert groups[..k + 1][..k] == groups[..k];
      GroupsFail(groups, k + 1);
    }
  }

  /** `map_chunks`. */
  method MapChunks(groups: seq<ResourceLogs>) returns (r: Option<seq<Chunk>>)
    ensures r == ChunksOf(groups)
  {
    var chunks := [];
    for i := 0 to |groups|
      invariant ChunksOf(groups[..i]) == Some(chunks)
    {
      assert groups[..i + 1][..i] == groups[..i];
      var chunk := TryConvertBatch(groups[i]);
      if chunk.None? {
        GroupsFail(groups, i + 1);
        return None;
      }
      if chunk.value.records != [] {
        chunks := chunks + [chunk.value];
      }
    }
    assert groups[..|groups|] == groups;
    r := Some(chunks);
  }

  // ---------------------------------------------------------------- when the mapping succeeds

  predicate AttributesDeepOk(values: seq<KeyValue>) {
    forall i :: 0 <= i < |values| && values[i].value.Some? ==> WithinDepth(values[i].value.value, 0)
  }

  predicate BodyDeepOk(body: Option<AnyValue>) {
    body.Some? ==>
      match body.value
      case Array(items) => forall i :: 0 <= i < |items| ==> WithinDepth(items[i], 0)
      case Kvlist(entries) => AttributesDeepOk(entries)
      case _ => true
  }

  predicate ScopeDeepOk(s: ScopeLogs) {
    && AttributesDeepOk(ScopeParts(s).attributes)
    && forall i :: 0 <= i < |s.records| ==> AttributesDeepOk(s.records[i].attributes) && BodyDeepOk(s.records[i].body)
  }

  predicate GroupDeepOk(g: ResourceLogs) {
    && (g.resource.Some? ==> AttributesDeepOk(g.resource.value))
    && forall i :: 0 <= i < |g.scopes| ==> ScopeDeepOk(g.scopes[i])
  }

  lemma AttributesConvert(values: seq<KeyValue>)
    ensures Attributes(values).Some? <==> AttributesDeepOk(values)
  {
    EntriesConvert(Kvlist(values), |values|, 0);
  }

  lemma BodyConverts(body: Option<AnyValue>)
    ensures BodyValue(body).Some? <==> BodyDeepOk(body)
  {
    if body.Some? {
      match body.value {
        case Array(items) => ItemsConvert(body.value, |items|, 0);
        case Kvlist(entries) => AttributesConvert(entries);
        case _ =>
      }
    }
  }

  /** The records of a scope convert together or not at all, in order, one each. */
  lemma {:induction false} RecordsConvert(records: seq<ProtoRecord>, scope: LogScope)
    ensures ConvertRecords(records, scope).Some? <==>
              forall i :: 0 <= i < |records| ==> AttributesDeepOk(records[i].attributes) && BodyDeepOk(records[i].body)
    ensures ConvertRecords(records, scope).Some? ==>
              var r := ConvertRecords(records, scope).value;
              |r| == |records| && forall i :: 0 <= i < |r| ==> Some(r[i]) == ConvertRecord(records[i], scope)
  {
    if records != [] {
      var n := |records| - 1;
      RecordsConvert(records[..n], scope);
      AttributesConvert(records[n].attributes);
      BodyConverts(records[n].body);
    }
  }

  lemma ScopeConverts(s: ScopeLogs)
    ensures ConvertScope(s).Some? <==> ScopeDeepOk(s)
    ensures ConvertScope(s).Some? ==>
              && ScopeOf(s).Some? && |ConvertScope(s).value| == |s.records|
              && forall i :: 0 <= i < |s.records| ==> ConvertRecord(s.records[i], ScopeOf(s).value) == Some(ConvertScope(s).value[i])
  {
    var parts := ScopeParts(s);
    AttributesConvert(parts.attributes);
    if Attributes(parts.attributes).Some? {
      RecordsConvert(s.records, LogScope(parts.name, parts.version, Attributes(parts.attributes).value, s.schemaUrl));
    }
  }

  /** A sent record with the scope and the group it was sent in. */
  datatype Sent = Sent(record: ProtoRecord, scope: ScopeLogs, group: ResourceLogs)

  /** A mapped record with the origin of its chunk. */
  datatype Mapped = Mapped(record: LogRecord, resource: Option<seq<Attribute>>, schemaUrl: Text)

  /** The records of a scope, of the first `k` scopes of a group, and of a request, as they were sent. */
  function SentIn(scope: ScopeLogs, group: ResourceLogs): (r: seq<Sent>)
    ensures |r| == |scope.records| && forall i :: 0 <= i < |r| ==> r[i] == Sent(scope.records[i], scope, group)
  {
    seq(|scope.records|, i requires 0 <= i < |scope.records| => Sent(scope.records[i], scope, group))
  }

  function GroupSent(group: ResourceLogs, k: nat): seq<Sent>
    requires k <= |group.scopes|
  {
    if k == 0 then [] else GroupSent(group, k - 1) + SentIn(group.scopes[k - 1], group)
  }

  function RequestSent(groups: seq<ResourceLogs>): seq<Sent> {
    if groups == [] then []
    else
      var last := groups[|groups| - 1];
      RequestSent(groups[..|groups| - 1]) + GroupSent(last, |last.scopes|)
  }

  function MappedIn(chunk: Chunk): (r: seq<Mapped>)
    ensures |r| == |chunk.records|
    ensures forall i :: 0 <= i < |r| ==> r[i] == Mapped(chunk.records[i], chunk.resource, chunk.schemaUrl)
  {
    seq(|chunk.records|, i requires 0 <= i < |chunk.records| => Mapped(chunk.records[i], chunk.resource, chunk.schemaUrl))
  }

  /** The records of the chunks in order. */
  function AllMapped(chunks: seq<Chunk>): seq<Mapped> {
    if chunks == [] then [] else AllMapped(chunks[..|chunks| - 1]) + MappedIn(chunks[|chunks| - 1])
  }

  /** The scope shared by the records of a group of logs. */
  function ScopeOf(s: ScopeLogs): Option<LogScope> {
    var parts := ScopeParts(s);
    var attributes := Attributes(parts.attributes);
    if attributes.None? then None else Some(LogScope(parts.name, parts.version, attributes.value, s.schemaUrl))
  }

  function ResourceOf(g: ResourceLogs): Option<seq<Attribute>> {
    if g.resource.None? then None else Attributes(g.resource.value)
  }

  /** `m` is `x` converted under its own scope, with the origin of its own group. */
  predicate Maps(m: Mapped, x: Sent) {
    && ScopeOf(x.scope).Some? && ConvertRecord(x.record, ScopeOf(x.scope).value) == Some(m.record)
    && m.resource == ResourceOf(x.group) && m.schemaUrl == x.group.schemaUrl
    && (m.resource.Some? <==> x.group.resource.Some?)
  }

  predicate MapsAll(ms: seq<Mapped>, xs: seq<Sent>) {
    |ms| == |xs| && forall k :: 0 <= k < |ms| ==> Maps(ms[k], xs[k])
  }

  lemma MapsAppend(ms: seq<Mapped>, xs: seq<Sent>, ns: seq<Mapped>, ys: seq<Sent>)
    requires MapsAll(ms, xs) && MapsAll(ns, ys)
    ensures MapsAll(ms + ns, xs + ys)
  {
  }

  /** Records under the origin of a group. */
  function Under(records: seq<LogRecord>, g: ResourceLogs): (r: seq<Mapped>)
    ensures |r| == |records| && forall i :: 0 <= i < |r| ==> r[i] == Mapped(records[i], ResourceOf(g), g.schemaUrl)
  {
    seq(|records|, i requires 0 <= i < |records| => Mapped(records[i], ResourceOf(g), g.schemaUrl))
  }

  function CountScopes(scopes: seq<ScopeLogs>): nat {
    if scopes == [] then 0 else CountScopes(scopes[..|scopes| - 1]) + |scopes[|scopes| - 1].records|
  }

  /** `count`: the records of a request. */
  function Count(groups: seq<ResourceLogs>): nat {
    if groups == [] then 0 else Count(groups[..|groups| - 1]) + CountScopes(groups[|groups| - 1].scopes)
  }

  lemma {:induction false} ScopesConvert(scopes: seq<ScopeLogs>)
    ensures ConvertScopes(scopes).Some? <==> forall i :: 0 <= i < |scopes| ==> ScopeDeepOk(scopes[i])
  {
    if scopes != [] {
      ScopesConvert(scopes[..|scopes| - 1]);
      ScopeConverts(scopes[|scopes| - 1]);
    }
  }

  lemma ScopeMaps(g: ResourceLogs, s: ScopeLogs)
    requires ConvertScope(s).Some? && (ResourceOf(g).Some? <==> g.resource.Some?)
    ensures MapsAll(Under(ConvertScope(s).value, g), SentIn(s, g))
  {
    ScopeConverts(s);
  }

  lemma ScopesLast(scopes: seq<ScopeLogs>, k: nat)
    requires 0 < k <= |scopes| && ConvertScopes(scopes[..k]).Some?
    ensures ConvertScopes(scopes[..k - 1]).Some? && ConvertScope(scopes[k - 1]).Some?
    ensures ConvertScopes(scopes[..k]).value == ConvertScopes(scopes[..k - 1]).value + ConvertScope(scopes[k - 1]).value
  {
    assert scopes[..k][..k - 1] == scopes[..k - 1];
  }

  lemma UnderAppend(x: seq<LogRecord>, y: seq<LogRecord>, g: ResourceLogs)
    ensures Under(x + y, g) == Under(x, g) + Under(y, g)
  {
  }

  lemma {:induction false} ScopesMap(g: ResourceLogs, k: nat)
    requires k <= |g.scopes| && ConvertScopes(g.scopes[..k]).Some? && (ResourceOf(g).Some? <==> g.resource.Some?)
    ensures MapsAll(Under(ConvertScopes(g.scopes[..k]).value, g), GroupSent(g, k))
  {
    if 0 < k {
      ScopesLast(g.scopes, k);
      ScopesMap(g, k - 1);
      ScopeMaps(g, g.scopes[k - 1]);
      var x, y := ConvertScopes(g.scopes[..k - 1]).value, ConvertScope(g.scopes[k - 1]).value;
      MapsAppend(Under(x, g), GroupSent(g, k - 1), Under(y, g), SentIn(g.scopes[k - 1], g));
      UnderAppend(x, y, g);
    }
  }

  lemma {:induction false} GroupMaps(g: ResourceLogs)
    requires ConvertGroup(g).Some?
    ensures MapsAll(MappedIn(ConvertGroup(g).value), GroupSent(g, |g.scopes|))
  {
    assert g.scopes[..|g.scopes|] == g.scopes;
    ScopesMap(g, |g.scopes|);
    assert MappedIn(ConvertGroup(g).value) == Under(ConvertScopes(g.scopes).value, g);
  }

  lemma {:induction false} GroupSentLength(g: ResourceLogs, k: nat)
    requires k <= |g.scopes|
    ensures CountScopes(g.scopes[..k]) == |GroupSent(g, k)|
  {
    if 0 < k {
      GroupSentLength(g, k - 1);
      assert g.scopes[..k][..k - 1] == g.scopes[..k - 1];
    }
  }

  lemma {:induction false} CountIsLength(groups: seq<ResourceLogs>)
    ensures Count(groups) == |RequestSent(groups)|
  {
    if groups != [] {
      var g := groups[|groups| - 1];
      CountIsLength(groups[..|groups| - 1]);
      GroupSentLength(g, |g.scopes|);
      assert g.scopes[..|g.scopes|] == g.scopes;
    }
  }

  lemma {:induction false} TotalIsLength(chunks: seq<Chunk>)
    ensures RecordTotal(chunks) == |AllMapped(chunks)|
  {
    if chunks != [] {
      TotalIsLength(chunks[..|chunks| - 1]);
    }
  }

  lemma GroupConverts(g: ResourceLogs)
    ensures ConvertGroup(g).Some? <==> GroupDeepOk(g)
  {
    ScopesConvert(g.scopes);
    if g.resource.Some? {
      AttributesConvert(g.resource.value);
    }
  }

  function RecordTotal(chunks: seq<Chunk>): nat {
    if chunks == [] then 0 else RecordTotal(chunks[..|chunks| - 1]) + |chunks[|chunks| - 1].records|
  }

  /** Mapping a request succeeds exactly when nothing in it is nested too deep. */
  lemma {:induction false} MappingSucceeds(groups: seq<ResourceLogs>)
    ensures ChunksOf(groups).Some? <==> forall i :: 0 <= i < |groups| ==> GroupDeepOk(groups[i])
  {
    if groups != [] {
      var n := |groups| - 1;
      MappingSucceeds(groups[..n]);
      GroupConverts(groups[n]);
      assert forall i :: 0 <= i < n ==> groups[..n][i] == groups[i];
      ChunksOfLast(groups);
    }
  }

  lemma {:induction false} ChunksOfLast(groups: seq<ResourceLogs>)
    requires groups != []
    ensures ChunksOf(groups).Some? <==> ChunksOf(groups[..|groups| - 1]).Some? && ConvertGroup(groups[|groups| - 1]).Some?
  {
  }

  /** No chunk is empty, and the k-th record of the chunks is the k-th record sent, converted under
      its own scope and kept with the origin of its own group. */
  lemma {:induction false} MappingKeepsOrder(groups: seq<ResourceLogs>)
    requires ChunksOf(groups).Some?
    ensures MapsAll(AllMapped(ChunksOf(groups).value), RequestSent(groups))
    ensures forall chunk :: chunk in ChunksOf(groups).value ==> chunk.records != []
  {
    if groups != [] {
      var n := |groups| - 1;
      var before, last := ChunksOf(groups[..n]).value, ConvertGroup(groups[n]).value;
      var sent := GroupSent(groups[n], |groups[n].scopes|);
      MappingKeepsOrder(groups[..n]);
      GroupMaps(groups[n]);
      MapsAppend(AllMapped(before), RequestSent(groups[..n]), MappedIn(last), sent);
      if last.records != [] {
        assert (before + [last])[..|before|] == before;
      } else {
        assert sent == [] && AllMapped(before) + MappedIn(last) == AllMapped(before);
      }
    }
  }

  // ---------------------------------------------------------------- what is stored means what was sent

  /** The stored attributes, read back, mean those that were sent, one by one. */
  predicate SameAttributes(stored: seq<Attribute>, sent: seq<KeyValue>) {
    && |stored| == |sent|
    && forall i :: 0 <= i < |sent| ==> KeyValue(stored[i].key, Some(Back(stored[i].value))) == MeaningOf(sent[i])
  }

  function BodyBack(body: Body): AnyValue {
    match body
    case PlainBody(v) => v
    case JsonBody(a) => Back(a)
  }

  /** The scope as it was sent, an absent one as an empty one. */
  predicate SameScope(stored: LogScope, sent: ScopeLogs) {
    var parts := ScopeParts(sent);
    && stored.name == parts.name && stored.version == parts.version && stored.schemaUrl == sent.schemaUrl
    && SameAttributes(stored.attributes, parts.attributes)
  }

  /** Everything stored for a record means what was sent: its own fields, attributes and body, its scope and
      its resource. */
  predicate SameMeaning(m: Mapped, x: Sent) {
    && m.record.fields == x.record.fields
    && m.record.severityText == x.record.severityText && m.record.eventName == x.record.eventName
    && SameAttributes(m.record.attributes, x.record.attributes)
    && BodyBack(m.record.body) == (if x.record.body.None? then Empty else Meaning(x.record.body.value))
    && SameScope(m.record.scope, x.scope)
    && m.schemaUrl == x.group.schemaUrl && (m.resource.Some? <==> x.group.resource.Some?)
    && (m.resource.Some? ==> SameAttributes(m.resource.value, x.group.resource.value))
  }

  lemma AttributesKeepMeaning(values: seq<KeyValue>)
    requires Attributes(values).Some?
    ensures SameAttributes(Attributes(values).value, values)
  {
    EntriesKeepMeaning(Kvlist(values), |values|, 0);
  }

  lemma BodyKeepsMeaning(body: Option<AnyValue>)
    requires BodyValue(body).Some?
    ensures BodyBack(BodyValue(body).value) == if body.None? then Empty else Meaning(body.value)
  {
    if body.Some? {
      match body.value {
        case Array(items) =>
          ItemsKeepMeaning(body.value, |items|, 0);
          assert BodyBack(BodyValue(body).value).items == Meaning(body.value).items;
        case Kvlist(entries) =>
          AttributesKeepMeaning(entries);
          assert BodyBack(BodyValue(body).value).entries == Meaning(body.value).entries;
        case _ =>
      }
    }
  }

  lemma MappedRecordsMean(m: Mapped, x: Sent)
    requires Maps(m, x)
    ensures SameMeaning(m, x)
  {
    AttributesKeepMeaning(x.record.attributes);
    BodyKeepsMeaning(x.record.body);
    AttributesKeepMeaning(ScopeParts(x.scope).attributes);
    if x.group.resource.Some? {
      AttributesKeepMeaning(x.group.resource.value);
    }
  }

  // ---------------------------------------------------------------- validated requests map

  lemma {:induction false} DeeperIsStricter(v: AnyValue, depth: nat)
    requires WithinDepth(v, depth + 1)
    ensures WithinDepth(v, depth)
  {
    match v {
      case Array(items) =>
        forall i | 0 <= i < |items| ensures WithinDepth(items[i], depth + 1) {
          DeeperIsStricter(items[i], depth + 1);
        }
      case Kvlist(entries) =>
        forall i | 0 <= i < |entries| && entries[i].value.Some? ensures WithinDepth(entries[i].value.value, depth + 1) {
          DeeperIsStricter(entries[i].value.value, depth + 1);
        }
      case _ =>
    }
  }

  lemma ValidBodyMaps(body: Option<AnyValue>, limits: Limits)
    requires BodyOk(body, limits)
    ensures BodyDeepOk(body)
  {
    if body.Some? {
      match body.value {
        case Array(items) =>
          forall i | 0 <= i < |items| ensures WithinDepth(items[i], 0) {
            DeeperIsStricter(items[i], 0);
          }
        case Kvlist(entries) =>
          forall i | 0 <= i < |entries| && entries[i].value.Some? ensures WithinDepth(entries[i].value.value, 0) {
            DeeperIsStricter(entries[i].value.value, 0);
          }
        case _ =>
      }
    }
  }

  lemma ValidGroupMaps(g: ResourceLogs, limits: Limits, l: Layout)
    requires GroupOk(g, limits, l)
    ensures GroupDeepOk(g)
  {
    forall i | 0 <= i < |g.scopes| ensures ScopeDeepOk(g.scopes[i]) {
      ValidScopeMaps(g.scopes[i], limits, l);
    }
    if g.resource.Some? {
      ValidAttributesMap(g.resource.value, limits);
    }
  }

  lemma ValidAttributesMap(values: seq<KeyValue>, limits: Limits)
    requires AttributesOk(values, limits)
    ensures AttributesDeepOk(values)
  {
    forall i | 0 <= i < |values| && values[i].value.Some? ensures WithinDepth(values[i].value.value, 0) {
      assert EntryFits(values[i], 0, limits);
    }
  }

  lemma ValidScopeMaps(s: ScopeLogs, limits: Limits, l: Layout)
    requires ScopeOk(s, limits, l)
    ensures ScopeDeepOk(s)
  {
    if s.scope.Some? {
      ValidAttributesMap(s.scope.value.attributes, limits);
    }
    forall i | 0 <= i < |s.records| ensures AttributesDeepOk(s.records[i].attributes) && BodyDeepOk(s.records[i].body) {
      assert RecordOk(s.records[i], limits);
      ValidAttributesMap(s.records[i].attributes, limits);
      ValidBodyMaps(s.records[i].body, limits);
    }
  }

  /** Every request the validator accepts is mapped without error, into chunks that hold exactly its
      records in order, each converted and with everything stored for it meaning what was sent. */
  lemma {:induction false} ValidatedRequestMaps(groups: seq<ResourceLogs>, limits: Limits, l: Layout)
    requires RequestOk(groups, limits, l)
    ensures ChunksOf(groups).Some? && RecordTotal(ChunksOf(groups).value) == Count(groups)
    ensures MapsAll(AllMapped(ChunksOf(groups).value), RequestSent(groups))
    ensures
      var stored, sent := AllMapped(ChunksOf(groups).value), RequestSent(groups);
      forall k :: 0 <= k < |sent| ==> SameMeaning(stored[k], sent[k])
  {
    forall i | 0 <= i < |groups| ensures GroupDeepOk(groups[i]) {
      ValidGroupMaps(groups[i], limits, l);
    }
    MappingSucceeds(groups);
    MappingKeepsOrder(groups);
    CountIsLength(groups);
    TotalIsLength(ChunksOf(groups).value);
    var stored, sent := AllMapped(ChunksOf(groups).value), RequestSent(groups);
    forall k | 0 <= k < |sent| ensures SameMeaning(stored[k], sent[k]) {
      MappedRecordsMean(stored[k], sent[k]);
    }
  }

  // ---------------------------------------------------------------- where the two differ

  /** Levels of containers. */
  function Height(v: AnyValue): nat
    decreases v, 0
  {
    match v
    case Array(items) => 1 + HeightOfItems(v, |items|)
    case Kvlist(entries) => 1 + HeightOfEntries(v, |entries|)
    case _ => 0
  }

  function Max(x: nat, y: nat): nat {
    if x < y then y else x
  }

  function HeightOfItems(v: AnyValue, k: nat): nat
    requires v.Array? && k <= |v.items|
    decreases v, 0, k
  {
    if k == 0 then 0 else Max(HeightOfItems(v, k - 1), Height(v.items[k - 1]))
  }

  function HeightOfEntries(v: AnyValue, k: nat): nat
    requires v.Kvlist? && k <= |v.entries|
    decreases v, 0, k
  {
    if k == 0 then 0
    else
      var e := v.entries[k - 1];
      Max(HeightOfEntries(v, k - 1), if e.value.None? then 0 else Height(e.value.value))
  }

  predicate Low(height: nat, depth: nat) {
    height == 0 || height + depth <= MAX_NESTING_DEPTH
  }

  /** Depth counted on the way down is height counted on the way up. */
  lemma {:induction false} DepthIsHeight(v: AnyValue, depth: nat)
    ensures WithinDepth(v, depth) <==> Low(Height(v), depth)
    decreases v, 0
  {
    match v {
      case Array(items) => ItemsAreLow(v, |items|, depth + 1);
      case Kvlist(entries) => EntriesAreLow(v, |entries|, depth + 1);
      case _ =>
    }
  }

  lemma {:induction false} ItemsAreLow(v: AnyValue, k: nat, depth: nat)
    requires v.Array? && k <= |v.items|
    ensures (forall i :: 0 <= i < k ==> WithinDepth(v.items[i], depth)) <==> Low(HeightOfItems(v, k), depth)
    decreases v, 0, k
  {
    if 0 < k {
      ItemsAreLow(v, k - 1, depth);
      DepthIsHeight(v.items[k - 1], depth);
    }
  }

  lemma {:induction false} EntriesAreLow(v: AnyValue, k: nat, depth: nat)
    requires v.Kvlist? && k <= |v.entries|
    ensures (forall i :: 0 <= i < k && v.entries[i].value.Some? ==> WithinDepth(v.entries[i].value.value, depth))
       <==> Low(HeightOfEntries(v, k), depth)
    decreases v, 0, k
  {
    if 0 < k {
      EntriesAreLow(v, k - 1, depth);
      if v.entries[k - 1].value.Some? {
        DepthIsHeight(v.entries[k - 1].value.value, depth);
      }
    }
  }

  /** On every body the validator is stricter than the mapping by exactly one level: it counts the
      body itself, the mapping does not. */
  lemma {:induction false} BodiesMayBeOneDeeper(v: AnyValue)
    ensures BodyValue(Some(v)).Some? <==> Height(v) <= MAX_NESTING_DEPTH + 1
    ensures WithinDepth(v, 0) <==> Height(v) <= MAX_NESTING_DEPTH
  {
    BodyConverts(Some(v));
    DepthIsHeight(v, 0);
    match v {
      case Array(items) => ItemsAreLow(v, |items|, 0);
      case Kvlist(entries) => EntriesAreLow(v, |entries|, 0);
      case _ =>
    }
  }

  function Chain(n: nat): AnyValue {
    if n == 0 then Empty else Array([Chain(n - 1)])
  }

  lemma {:induction false} ChainHeight(n: nat)
    ensures Height(Chain(n)) == n
  {
    if 0 < n {
      ChainHeight(n - 1);
      assert HeightOfItems(Chain(n), 1) == Max(HeightOfItems(Chain(n), 0), Height(Chain(n).items[0]));
    }
  }

  /** The extra level is there: a body of 33 nested arrays is mapped but not validated, whatever the limits. */
  lemma DeepestBody(limits: Limits)
    ensures BodyValue(Some(Chain(33))).Some? && !BodyOk(Some(Chain(33)), limits)
  {
    ChainHeight(33);
    BodiesMayBeOneDeeper(Chain(33));
  }
}
