/**
 * What the decoder delivers for the bytes of any request: which spans, with which
 * session, fields and attributes. Everything is told from the fields of the request.
 */
module OtlpEvents {
  import opened Common
  import opened Protobuf
  import opened Otlp
  import opened OtlpRoundTrip

  // ── Attribute entries ──────────────────────────────────────────────────────

  /** The key of an entry is its last one. */
  predicate HasKey(kv: KeyValue, key: bytes) {
    exists i :: 0 <= i < |kv| && kv[i] == Key(key) && forall j :: i < j < |kv| ==> !kv[j].Key?
  }

  /** The 64-bit number of an integer: itself, or for a negative one what is left below 2^64. */
  function Unsigned(n: int): nat {
    if n >= 0 then n % 0x1_0000_0000_0000_0000 else 0x1_0000_0000_0000_0000 - 1 - (-n - 1) % 0x1_0000_0000_0000_0000
  }

  lemma UnsignedIs(n: int)
    ensures Int64(n) == Unsigned(n)
  {
    if n < 0 {
      var q, r := (-n - 1) / 0x1_0000_0000_0000_0000, (-n - 1) % 0x1_0000_0000_0000_0000;
      assert -n - 1 == q * 0x1_0000_0000_0000_0000 + r;
      assert n == -(q + 1) * 0x1_0000_0000_0000_0000 + (0x1_0000_0000_0000_0000 - 1 - r);
    }
  }

  /** A string as its bytes, a flag, an integer as an unsigned 64-bit number, rounded if a double does not hold it. */
  predicate Reads(a: AnyValue, v: Value) {
    match a.value
    case None => v == Undefined
    case Some(Str(utf8)) => v == Text(utf8)
    case Some(Bool(b)) => v == Flag(b)
    case Some(Int(n)) =>
      var m := Unsigned(n);
      v == if Representable(m) then Num(m) else Inexact(m)
  }

  /** The value of an entry is its last one. */
  predicate HasValue(kv: KeyValue, v: Value) {
    ((forall j :: 0 <= j < |kv| ==> !kv[j].Val?) && v == Undefined)
    || exists i :: 0 <= i < |kv| && IsLastValue(kv, i, v)
  }

  predicate IsLastValue(kv: KeyValue, i: nat, v: Value)
    requires i < |kv|
  {
    kv[i].Val? && Reads(kv[i].value, v) && forall j :: i < j < |kv| ==> !kv[j].Val?
  }

  /** What a key stands for: the value of its last entry; only `__proto__` never counts. */
  predicate Stands(kvs: seq<KeyValue>, key: bytes, v: Value) {
    key != Ascii("__proto__")
    && exists i :: 0 <= i < |kvs| && HasKey(kvs[i], key) && HasValue(kvs[i], v) && forall j :: i < j < |kvs| ==> !HasKey(kvs[j], key)
  }

  lemma {:induction false} PairHasKey(kv: KeyValue, key: bytes)
    ensures PairMeans(kv).key == Some(key) <==> HasKey(kv, key)
  {
    if |kv| > 0 {
      var n, before := |kv| - 1, kv[..|kv| - 1];
      PairHasKey(before, key);
      if kv[n].Key? {
        if kv[n] == Key(key) {
          assert HasKey(kv, key);
        }
      } else {
        KeyBefore(kv, key);
      }
    }
  }

  lemma KeyBefore(kv: KeyValue, key: bytes)
    requires |kv| > 0 && !kv[|kv| - 1].Key?
    ensures HasKey(kv, key) <==> HasKey(kv[..|kv| - 1], key)
  {
    var before := kv[..|kv| - 1];
    if HasKey(before, key) {
      var i :| 0 <= i < |before| && before[i] == Key(key) && forall j :: i < j < |before| ==> !before[j].Key?;
      assert kv[i] == Key(key);
    }
    if HasKey(kv, key) {
      var i :| 0 <= i < |kv| && kv[i] == Key(key) && forall j :: i < j < |kv| ==> !kv[j].Key?;
      assert before[i] == Key(key);
    }
  }

  lemma ValueReads(a: AnyValue, v: Value)
    ensures ValueMeans(a) == v <==> Reads(a, v)
  {
    if a.value.Some? && a.value.value.Int? {
      UnsignedIs(a.value.value.n);
    }
  }

  lemma {:induction false} PairHasValue(kv: KeyValue, v: Value)
    ensures PairMeans(kv).value == v <==> HasValue(kv, v)
  {
    if |kv| > 0 {
      var n, before := |kv| - 1, kv[..|kv| - 1];
      PairHasValue(before, v);
      if kv[n].Val? {
        ValueReads(kv[n].value, v);
        assert IsLastValue(kv, n, v) <==> Reads(kv[n].value, v);
      } else {
        ValueBefore(kv, v);
      }
    }
  }

  lemma ValueBefore(kv: KeyValue, v: Value)
    requires |kv| > 0 && !kv[|kv| - 1].Val?
    ensures HasValue(kv, v) <==> HasValue(kv[..|kv| - 1], v)
  {
    var before := kv[..|kv| - 1];
    forall i: nat | i < |before| ensures IsLastValue(kv, i, v) <==> IsLastValue(before, i, v) {
    }
  }

  lemma {:induction false} AttributesStand(kvs: seq<KeyValue>, key: bytes, v: Value)
    ensures key in AttributesMean(kvs) && AttributesMean(kvs)[key] == v <==> Stands(kvs, key, v)
  {
    if |kvs| > 0 {
      var n, before := |kvs| - 1, kvs[..|kvs| - 1];
      AttributesStand(before, key, v);
      PairHasKey(kvs[n], key);
      PairHasValue(kvs[n], v);
      if HasKey(kvs[n], key) {
        if HasValue(kvs[n], v) && key != PROTO {
          assert Stands(kvs, key, v);
        }
      } else {
        StandsBefore(kvs, key, v);
      }
    }
  }

  lemma StandsBefore(kvs: seq<KeyValue>, key: bytes, v: Value)
    requires |kvs| > 0 && !HasKey(kvs[|kvs| - 1], key)
    ensures Stands(kvs, key, v) <==> Stands(kvs[..|kvs| - 1], key, v)
  {
    var before := kvs[..|kvs| - 1];
    if i :| 0 <= i < |before| && HasKey(before[i], key) && HasValue(before[i], v) && forall j :: i < j < |before| ==> !HasKey(before[j], key) {
      forall j | i < j < |kvs| ensures !HasKey(kvs[j], key) {
        if j < |before| {
          assert kvs[j] == before[j];
        }
      }
      assert HasKey(kvs[i], key) && HasValue(kvs[i], v);
    }
    if i :| 0 <= i < |kvs| && HasKey(kvs[i], key) && HasValue(kvs[i], v) && forall j :: i < j < |kvs| ==> !HasKey(kvs[j], key) {
      assert HasKey(before[i], key) && HasValue(before[i], v);
      forall j | i < j < |before| ensures !HasKey(before[j], key) {
        assert kvs[j] == before[j];
      }
    }
  }

  // ── The session ────────────────────────────────────────────────────────────

  predicate IsTrue(v: Value) {
    (v.Text? && v.utf8 != []) || v == Flag(true) || (v.Num? && v.n > 0) || v.Inexact?
  }

  ghost predicate Names(kvs: seq<KeyValue>, key: bytes, v: Value) {
    Stands(kvs, key, v) && IsTrue(v)
  }

  /** The value that names a session: under the first of the three keys that holds one. */
  ghost predicate SessionIs(kvs: seq<KeyValue>, v: Value) {
    var a, b, c := Ascii("session.id"), Ascii("langfuse.session.id"), Ascii("langfuse.sessionId");
    Names(kvs, a, v)
    || ((forall w :: !Names(kvs, a, w)) && Names(kvs, b, v))
    || ((forall w :: !Names(kvs, a, w)) && (forall w :: !Names(kvs, b, w)) && Names(kvs, c, v))
  }

  ghost predicate HasSession(kvs: seq<KeyValue>) {
    exists v :: SessionIs(kvs, v)
  }

  lemma KeyNames(kvs: seq<KeyValue>, key: bytes)
    ensures var attrs := AttributesMean(kvs);
            HoldsSession(attrs, key) <==> exists v :: Names(kvs, key, v)
    ensures HoldsSession(AttributesMean(kvs), key) ==> forall v :: Names(kvs, key, v) <==> v == AttributesMean(kvs)[key]
  {
    var attrs := AttributesMean(kvs);
    forall v ensures Names(kvs, key, v) <==> HoldsSession(attrs, key) && v == attrs[key] {
      AttributesStand(kvs, key, v);
    }
    if HoldsSession(attrs, key) {
      assert Names(kvs, key, attrs[key]);
    }
  }

  lemma SessionFound(kvs: seq<KeyValue>, v: Value)
    ensures Session(AttributesMean(kvs)) == Some(v) <==> SessionIs(kvs, v)
  {
    var attrs := AttributesMean(kvs);
    var a, b, c := Ascii("session.id"), Ascii("langfuse.session.id"), Ascii("langfuse.sessionId");
    KeyNames(kvs, a);
    KeyNames(kvs, b);
    KeyNames(kvs, c);
    ThreeKeys(attrs, a, b, c);
  }

  lemma ThreeKeys(attrs: Attributes, a: bytes, b: bytes, c: bytes)
    requires SESSION_ID_KEYS == [a, b, c]
    ensures Session(attrs) == if HoldsSession(attrs, a) then Some(attrs[a])
                              else if HoldsSession(attrs, b) then Some(attrs[b])
                              else if HoldsSession(attrs, c) then Some(attrs[c]) else None
  {
    assert [a, b, c][1..] == [b, c] && [b, c][1..] == [c] && [c][1..] == [];
    assert SessionUnder(attrs, [a, b, c]) == if HoldsSession(attrs, a) then Some(attrs[a]) else SessionUnder(attrs, [b, c]);
    assert SessionUnder(attrs, [b, c]) == if HoldsSession(attrs, b) then Some(attrs[b]) else SessionUnder(attrs, [c]);
    assert SessionUnder(attrs, [c]) == if HoldsSession(attrs, c) then Some(attrs[c]) else SessionUnder(attrs, []);
  }

  // ── Events ─────────────────────────────────────────────────────────────────

  /** The attribute entries of a span. */
  function EntriesOf(fields: seq<SpanField>): seq<KeyValue> {
    if |fields| == 0 then []
    else EntriesOf(fields[..|fields| - 1]) + if fields[|fields| - 1].Attr? then [fields[|fields| - 1].kv] else []
  }

  predicate IsLast(fields: seq<SpanField>, i: nat) {
    i < |fields| && forall j :: i < j < |fields| ==> !SameField(fields[i], fields[j])
  }

  /** SPAN_KIND_LABELS. */
  predicate IsLabel(kind: nat, shown: string) {
    shown in {"UNSPECIFIED", "INTERNAL", "SERVER", "CLIENT", "PRODUCER", "CONSUMER", "UNKNOWN"}
    && (shown == "UNSPECIFIED" <==> kind == 0) && (shown == "INTERNAL" <==> kind == 1) && (shown == "SERVER" <==> kind == 2)
    && (shown == "CLIENT" <==> kind == 3) && (shown == "PRODUCER" <==> kind == 4) && (shown == "CONSUMER" <==> kind == 5)
  }

  /** What an event shows of a field of its span. */
  predicate ShowsField(e: Event, f: SpanField) {
    match f
    case TraceId(b) => e.traceId == Some(b)
    case SpanId(b) => e.spanId == Some(b)
    case ParentSpanId(b) => e.parentSpanId == Some(b)
    case Name(utf8) => e.name == Some(utf8)
    case Kind(n) => IsLabel(n, e.kind)
    case Start(ns) => e.startMs * 1_000_000 <= ns < (e.startMs + 1) * 1_000_000
    case End(ns) => if ns == 0 then e.endMs == None
                    else e.endMs.Some? && e.endMs.value * 1_000_000 <= ns < (e.endMs.value + 1) * 1_000_000
    case Attr(_) => true
    case SpanOther(_) => true
  }

  /** What it shows of a field its span does not have. */
  predicate ShowsAbsence(e: Event, fields: seq<SpanField>) {
    ((forall f :: f in fields ==> !f.TraceId?) ==> e.traceId == None)
    && ((forall f :: f in fields ==> !f.SpanId?) ==> e.spanId == None)
    && ((forall f :: f in fields ==> !f.ParentSpanId?) ==> e.parentSpanId == None)
    && ((forall f :: f in fields ==> !f.Name?) ==> e.name == None)
    && ((forall f :: f in fields ==> !f.Kind?) ==> e.kind == "UNSPECIFIED")
    && ((forall f :: f in fields ==> !f.Start?) ==> e.startMs == 0)
    && ((forall f :: f in fields ==> !f.End?) ==> e.endMs == None)
  }

  predicate IsOwnKey(key: bytes) {
    key == Ascii("traceId") || key == Ascii("spanId") || key == Ascii("parentSpanId") || key == Ascii("name")
    || key == Ascii("kind") || key == Ascii("startTime") || key == Ascii("endTime")
  }

  /** Every attribute under its key, but none under the body's own keys. */
  ghost predicate ShowsAttributes(e: Event, entries: seq<KeyValue>) {
    forall key, v :: ShowsAttribute(e, entries, key, v)
  }

  predicate ShowsAttribute(e: Event, entries: seq<KeyValue>, key: bytes, v: Value) {
    (key in e.rest && e.rest[key] == v) == (Stands(entries, key, v) && !IsOwnKey(key))
  }

  /** The result of a span: its session is its own, or else its resource's. */
  ghost predicate IsResultOf(r: Result, fields: seq<SpanField>, about: seq<KeyValue>) {
    var entries := EntriesOf(fields);
    (if HasSession(entries) then SessionIs(entries, r.sessionId) else SessionIs(about, r.sessionId))
    && (forall i: nat :: IsLast(fields, i) ==> ShowsField(r.event, fields[i]))
    && ShowsAbsence(r.event, fields) && ShowsAttributes(r.event, entries)
  }

  lemma {:induction false} SpanEntries(fields: seq<SpanField>)
    ensures SpanMeans(fields).attrs == EntriesOf(fields)
  {
    if |fields| > 0 {
      SpanEntries(fields[..|fields| - 1]);
    }
  }

  lemma LabelIs(kind: nat)
    ensures IsLabel(kind, KindLabel(kind))
  {
  }

  lemma FieldShows(span: Span<KeyValue>, attrs: Attributes, f: SpanField)
    requires Shows(span, f)
    ensures ShowsField(EventOf(span, attrs), f)
  {
    LabelIs(span.kind);
  }

  lemma {:induction false} Absences(fields: seq<SpanField>, attrs: Attributes)
    ensures ShowsAbsence(EventOf(SpanMeans(fields), attrs), fields)
  {
    if |fields| > 0 {
      var before, last := fields[..|fields| - 1], fields[|fields| - 1];
      Absences(before, attrs);
      assert forall f :: f in fields <==> f in before || f == last;
      AbsenceStays(SpanMeans(before), last, attrs, before, fields);
    }
  }

  lemma AbsenceStays(s: Span<KeyValue>, last: SpanField, attrs: Attributes, before: seq<SpanField>, fields: seq<SpanField>)
    requires ShowsAbsence(EventOf(s, attrs), before) && forall f :: f in fields <==> f in before || f == last
    ensures ShowsAbsence(EventOf(ApplySpan(s, last, Itself), attrs), fields)
  {
    match last
    case TraceId(_) => case SpanId(_) => case ParentSpanId(_) => case Name(_) => case Kind(_) =>
    case Start(_) => case End(_) => case Attr(_) => case SpanOther(_) =>
  }

  lemma OwnKeysAre(key: bytes)
    ensures key in OWN_KEYS <==> IsOwnKey(key)
  {
  }

  lemma RestShows(span: Span<KeyValue>, entries: seq<KeyValue>)
    ensures ShowsAttributes(EventOf(span, AttributesMean(entries)), entries)
  {
    var e, attrs := EventOf(span, AttributesMean(entries)), AttributesMean(entries);
    forall key, v ensures ShowsAttribute(e, entries, key, v) {
      AttributesStand(entries, key, v);
      OwnKeysAre(key);
    }
  }

  /** A span yields one result, which is its own, or none if neither it nor its resource names a session. */
  lemma SpanYields(fields: seq<SpanField>, about: seq<KeyValue>)
    ensures var found := SpanResults(fields, Session(AttributesMean(about)));
            if HasSession(EntriesOf(fields)) || HasSession(about)
            then |found| == 1 && IsResultOf(found[0], fields, about) else found == []
  {
    var entries := EntriesOf(fields);
    SpanEntries(fields);
    SessionExists(entries);
    SessionExists(about);
    var found := SpanResults(fields, Session(AttributesMean(about)));
    if |found| == 1 {
      EventShows(fields, about, found[0]);
    }
  }

  lemma SessionExists(kvs: seq<KeyValue>)
    ensures HasSession(kvs) <==> Session(AttributesMean(kvs)).Some?
    ensures HasSession(kvs) ==> SessionIs(kvs, Session(AttributesMean(kvs)).value)
  {
    if v :| SessionIs(kvs, v) {
      SessionFound(kvs, v);
    }
    if Session(AttributesMean(kvs)).Some? {
      SessionFound(kvs, Session(AttributesMean(kvs)).value);
    }
  }

  lemma EventShows(fields: seq<SpanField>, about: seq<KeyValue>, r: Result)
    requires SpanResults(fields, Session(AttributesMean(about))) == [r]
    ensures IsResultOf(r, fields, about)
  {
    SpanEntries(fields);
    SessionExists(EntriesOf(fields));
    SessionExists(about);
    var attrs := AttributesMean(EntriesOf(fields));
    assert r.event == EventOf(SpanMeans(fields), attrs);
    forall i: nat | IsLast(fields, i) ensures ShowsField(r.event, fields[i]) {
      LastFieldWins(fields, i);
      FieldShows(SpanMeans(fields), attrs, fields[i]);
    }
    Absences(fields, attrs);
    RestShows(SpanMeans(fields), EntriesOf(fields));
  }

  // ── Requests ───────────────────────────────────────────────────────────────

  /** A span of a request, with the attribute entries of the resource it is about. */
  datatype Placed = Placed(fields: seq<SpanField>, about: seq<KeyValue>)

  /** The entries of every Resource field of a group, wherever it stands. */
  function AboutOf(group: seq<GroupField>): seq<KeyValue> {
    if |group| == 0 then []
    else AboutOf(group[..|group| - 1]) + if group[|group| - 1].Resource? then ResourceEntries(group[|group| - 1].about) else []
  }

  function ResourceEntries(fields: seq<ResourceField>): seq<KeyValue> {
    if |fields| == 0 then []
    else ResourceEntries(fields[..|fields| - 1]) + if fields[|fields| - 1].ResourceAttr? then [fields[|fields| - 1].kv] else []
  }

  function ScopeSpans(fields: seq<ScopeField>, about: seq<KeyValue>): seq<Placed> {
    if |fields| == 0 then []
    else ScopeSpans(fields[..|fields| - 1], about)
         + if fields[|fields| - 1].SpanIn? then [Placed(fields[|fields| - 1].span, about)] else []
  }

  function GroupSpans(group: seq<GroupField>, about: seq<KeyValue>): seq<Placed> {
    if |group| == 0 then []
    else GroupSpans(group[..|group| - 1], about)
         + if group[|group| - 1].Scope? then ScopeSpans(group[|group| - 1].spans, about) else []
  }

  /** All spans of a request, in order. */
  function SpansOf(request: seq<RequestField>): seq<Placed> {
    if |request| == 0 then []
    else SpansOf(request[..|request| - 1])
         + if request[|request| - 1].ResourceSpans? then GroupSpans(request[|request| - 1].group, AboutOf(request[|request| - 1].group)) else []
  }

  ghost predicate IsKept(p: Placed) {
    HasSession(EntriesOf(p.fields)) || HasSession(p.about)
  }

  ghost function KeptOf(spans: seq<Placed>): seq<Placed> {
    if |spans| == 0 then [] else KeptOf(spans[..|spans| - 1]) + if IsKept(spans[|spans| - 1]) then [spans[|spans| - 1]] else []
  }

  /** The results are those of the kept spans, in order. */
  ghost predicate Delivers(found: seq<Result>, spans: seq<Placed>) {
    |found| == |KeptOf(spans)|
    && forall n :: 0 <= n < |found| ==> IsResultOf(found[n], KeptOf(spans)[n].fields, KeptOf(spans)[n].about)
  }

  lemma DeliversOne(found: seq<Result>, spans: seq<Placed>, p: Placed)
    requires Delivers(found, spans)
    ensures Delivers(found + SpanResults(p.fields, Session(AttributesMean(p.about))), spans + [p])
  {
    SpanYields(p.fields, p.about);
    assert (spans + [p])[..|spans|] == spans;
    assert KeptOf(spans + [p]) == KeptOf(spans) + if IsKept(p) then [p] else [];
  }

  lemma {:induction false} ScopeDelivers(found: seq<Result>, spans: seq<Placed>, fields: seq<ScopeField>, about: seq<KeyValue>)
    requires Delivers(found, spans)
    ensures Delivers(ScopeResults(found, fields, Session(AttributesMean(about))), spans + ScopeSpans(fields, about))
  {
    if |fields| == 0 {
      assert spans + [] == spans;
    } else {
      var before, last := fields[..|fields| - 1], fields[|fields| - 1];
      ScopeDelivers(found, spans, before, about);
      var sofar := spans + ScopeSpans(before, about);
      if last.SpanIn? {
        DeliversOne(ScopeResults(found, before, Session(AttributesMean(about))), sofar, Placed(last.span, about));
        assert sofar + [Placed(last.span, about)] == spans + ScopeSpans(fields, about);
      } else {
        assert ScopeSpans(fields, about) == ScopeSpans(before, about);
      }
    }
  }

  lemma {:induction false} AboutIs(group: seq<GroupField>)
    ensures GroupAttrs(group) == AboutOf(group)
  {
    if |group| > 0 {
      AboutIs(group[..|group| - 1]);
      if group[|group| - 1].Resource? {
        ResourceEntriesAre(group[|group| - 1].about);
      }
    }
  }

  lemma {:induction false} ResourceEntriesAre(fields: seq<ResourceField>)
    ensures ResourceAttrs(fields) == ResourceEntries(fields)
  {
    if |fields| > 0 {
      ResourceEntriesAre(fields[..|fields| - 1]);
    }
  }

  lemma {:induction false} GroupDelivers(found: seq<Result>, spans: seq<Placed>, group: seq<GroupField>, about: seq<KeyValue>)
    requires Delivers(found, spans)
    ensures Delivers(ScopesResults(found, GroupScopes(group), Session(AttributesMean(about))), spans + GroupSpans(group, about))
  {
    if |group| == 0 {
      assert spans + [] == spans;
    } else {
      var before, last := group[..|group| - 1], group[|group| - 1];
      GroupDelivers(found, spans, before, about);
      if last.Scope? {
        NextScopeDelivers(found, spans, GroupScopes(before), GroupSpans(before, about), last.spans, about);
      } else {
        assert GroupScopes(group) == GroupScopes(before) && GroupSpans(group, about) == GroupSpans(before, about);
      }
    }
  }

  lemma NextScopeDelivers(found: seq<Result>, spans: seq<Placed>, scopes: seq<seq<ScopeField>>, placed: seq<Placed>,
                          last: seq<ScopeField>, about: seq<KeyValue>)
    requires Delivers(ScopesResults(found, scopes, Session(AttributesMean(about))), spans + placed)
    ensures Delivers(ScopesResults(found, scopes + [last], Session(AttributesMean(about))), spans + (placed + ScopeSpans(last, about)))
  {
    ScopesSnoc(found, scopes, last, Session(AttributesMean(about)));
    ScopeDelivers(ScopesResults(found, scopes, Session(AttributesMean(about))), spans + placed, last, about);
    assert spans + placed + ScopeSpans(last, about) == spans + (placed + ScopeSpans(last, about));
  }

  lemma ScopesSnoc(found: seq<Result>, scopes: seq<seq<ScopeField>>, last: seq<ScopeField>, resource: Option<Value>)
    ensures ScopesResults(found, scopes + [last], resource) == ScopeResults(ScopesResults(found, scopes, resource), last, resource)
  {
    Snoc(scopes, last);
  }

  lemma {:induction false} RequestDelivers(request: seq<RequestField>)
    ensures Delivers(RequestMeans(request), SpansOf(request))
  {
    if |request| > 0 {
      var before, last := request[..|request| - 1], request[|request| - 1];
      RequestDelivers(before);
      if last.ResourceSpans? {
        AboutIs(last.group);
        GroupDelivers(RequestMeans(before), SpansOf(before), last.group, AboutOf(last.group));
      } else {
        assert SpansOf(request) == SpansOf(before);
      }
    }
  }

  /**
   * Decoding the bytes of any request yields, in order, one result for every span that
   * names a session or whose resource does: its own session first, the last occurrence of
   * each of its fields, and every attribute's last value under its key.
   */
  lemma EventsAreDelivered(request: seq<RequestField>)
    requires RequestOk(request)
    ensures Decode(Encode(request)).Some? && Delivers(Decode(Encode(request)).value, SpansOf(request))
  {
    RoundTrip(request);
    RequestDelivers(request);
  }
}
