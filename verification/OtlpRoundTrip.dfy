/** Decoding an encoded request yields exactly what the request means. */
module OtlpRoundTrip {
  import opened Common
  import opened Protobuf
  import opened Otlp

  // ── Values ─────────────────────────────────────────────────────────────────

  function Unchanged(s: Value, u: Unknown): Value {
    s
  }

  lemma {:induction false} UnchangedThroughout(s: Value, us: seq<Unknown>)
    ensures Fold(Unchanged, s, us) == s
  {
    if |us| > 0 {
      UnchangedThroughout(s, us[..|us| - 1]);
    }
  }

  lemma ValueAt(field: nat, wire: nat, payload: bytes, after: bytes, v: Value)
    requires FieldOk(field) && wire < 8 && StepValue(Undefined, field, wire, payload + after) == Return(v)
    ensures Walk(StepValue, Undefined, (Tag(field, wire) + payload) + after) == Some(v)
  {
    TagRoundTrip(field, wire, payload + after);
    assert (Tag(field, wire) + payload) + after == Tag(field, wire) + (payload + after);
  }

  lemma PrimitiveRead(p: Primitive, after: bytes)
    requires PrimitiveOk(p)
    ensures Walk(StepValue, Undefined, PrimitiveBytes(p) + after) == Some(PrimitiveMeans(p))
  {
    match p {
      case Str(utf8) =>
        ChunkRoundTrip(utf8, after);
        ValueAt(1, 2, Chunk(utf8), after, Text(utf8));
      case Bool(b) =>
        var n := if b then 1 else 0;
        VarintRoundTrip(n, after);
        ValueAt(2, 0, Varint(n), after, Flag(b));
      case Int(n) =>
        VarintRoundTrip(Int64(n), after);
        ValueAt(3, 0, Varint(Int64(n)), after, ToNumber(Int64(n)));
    }
  }

  lemma ValueRoundTrip(v: AnyValue)
    requires ValueOk(v)
    ensures ParseValue(ValueBytes(v)) == Some(ValueMeans(v))
  {
    var tail := if v.value.Some? then PrimitiveBytes(v.value.value) + v.after else [];
    forall s, u | u in v.others ensures Takes(StepValue, s, UnknownBytes(u), Unchanged(s, u)) {
      TakesUnknown(StepValue, s, u);
    }
    WalkFields(StepValue, UnknownBytes, Unchanged, Undefined, v.others, tail);
    UnchangedThroughout(Undefined, v.others);
    if v.value.Some? {
      PrimitiveRead(v.value.value, v.after);
    }
  }

  /**
   * An integer attribute comes back as itself exactly if it is not negative and a
   * double holds it: the reader does not undo two's complement.
   */
  lemma IntegersReadExactly(n: int)
    requires PrimitiveOk(Int(n))
    ensures (exists m: nat :: m == n && ParseValue(ValueBytes(AnyValue([], Some(Int(n)), []))) == Some(Num(m)))
            <==> n >= 0 && Representable(n)
  {
    ValueRoundTrip(AnyValue([], Some(Int(n)), []));
    assert ParseValue(ValueBytes(AnyValue([], Some(Int(n)), []))) == Some(ToNumber(Int64(n)));
    ItselfExactly(n);
  }

  lemma ItselfExactly(n: int)
    requires PrimitiveOk(Int(n))
    ensures (exists m: nat :: m == n && ToNumber(Int64(n)) == Num(m)) <==> n >= 0 && Representable(n)
  {
    if n >= 0 {
      var m: nat := n;
      assert Int64(n) == m;
      assert Representable(n) ==> m == n && ToNumber(Int64(n)) == Num(m);
    }
  }

  /** Beyond 2^53 that is every number under 2^53 doubled some times over, and no other. */
  lemma RepresentableIsScaled(n: nat)
    ensures Representable(n) <==> exists m: nat, k: nat :: m < 0x20_0000_0000_0000 && n == Scale(m, k)
  {
    if Representable(n) {
      var m, k := Unscale(n);
    }
    if m: nat, k: nat :| m < 0x20_0000_0000_0000 && n == Scale(m, k) {
      ScaledIsRepresentable(m, k);
    }
  }

  lemma {:induction false} Unscale(n: nat) returns (m: nat, k: nat)
    requires Representable(n)
    ensures m < 0x20_0000_0000_0000 && n == Scale(m, k)
  {
    if n < 0x20_0000_0000_0000 {
      m, k := n, 0;
    } else {
      m, k := Unscale(n / 2);
      k := k + 1;
    }
  }

  lemma {:induction false} ScaledIsRepresentable(m: nat, k: nat)
    requires m < 0x20_0000_0000_0000
    ensures Representable(Scale(m, k))
  {
    if k > 0 {
      ScaledIsRepresentable(m, k - 1);
    }
  }

  /** m doubled k times. */
  function Scale(m: nat, k: nat): nat {
    if k == 0 then m else 2 * Scale(m, k - 1)
  }

  // ── Attributes ─────────────────────────────────────────────────────────────

  lemma KeyTaken(p: Pair, f: KeyField)
    requires KeyFieldOk(f)
    ensures Takes(StepKey, p, KeyFieldBytes(f), ApplyKey(p, f))
  {
    match f
    case Key(utf8) => TakesChunk(StepKey, p, 1, utf8, ApplyKey(p, f));
    case Val(v) =>
      ValueRoundTrip(v);
      TakesChunk(StepKey, p, 2, ValueBytes(v), ApplyKey(p, f));
    case KeyOther(u) => TakesUnknown(StepKey, p, u);
  }

  lemma PairRoundTrip(kv: KeyValue)
    requires KeyValueOk(kv)
    ensures ParsePair(KeyValueBytes(kv)) == Some(PairMeans(kv))
  {
    forall p, f | f in kv ensures Takes(StepKey, p, KeyFieldBytes(f), ApplyKey(p, f)) {
      KeyTaken(p, f);
    }
    WalkMessage(StepKey, KeyFieldBytes, ApplyKey, Pair(None, Undefined), kv);
  }

  function EncodedAttrs(kvs: seq<KeyValue>): seq<bytes> {
    seq(|kvs|, i requires 0 <= i < |kvs| => KeyValueBytes(kvs[i]))
  }

  lemma {:induction false} AttributesRoundTrip(kvs: seq<KeyValue>)
    requires forall kv :: kv in kvs ==> KeyValueOk(kv)
    ensures Collect(EncodedAttrs(kvs)) == Some(AttributesMean(kvs))
  {
    if |kvs| > 0 {
      AttributesRoundTrip(kvs[..|kvs| - 1]);
      assert EncodedAttrs(kvs)[..|kvs| - 1] == EncodedAttrs(kvs[..|kvs| - 1]);
      PairRoundTrip(kvs[|kvs| - 1]);
    }
  }

  // ── Spans ──────────────────────────────────────────────────────────────────

  function ApplySpanBytes(s: Span<bytes>, f: SpanField): Span<bytes> {
    ApplySpan(s, f, KeyValueBytes)
  }

  lemma SpanTaken(s: Span<bytes>, f: SpanField)
    requires SpanFieldOk(f)
    ensures Takes(StepSpan, s, SpanFieldBytes(f), ApplySpanBytes(s, f))
  {
    var next := ApplySpanBytes(s, f);
    match f
    case TraceId(b) => TakesChunk(StepSpan, s, 1, b, next);
    case SpanId(b) => TakesChunk(StepSpan, s, 2, b, next);
    case ParentSpanId(b) => TakesChunk(StepSpan, s, 4, b, next);
    case Name(b) => TakesChunk(StepSpan, s, 5, b, next);
    case Kind(n) => TakesVarint(StepSpan, s, 6, n, next);
    case Start(ns) => TakesFixed(StepSpan, s, 7, ns, next);
    case End(ns) => TakesFixed(StepSpan, s, 8, ns, next);
    case Attr(kv) => TakesChunk(StepSpan, s, 9, KeyValueBytes(kv), next);
    case SpanOther(u) => TakesUnknown(StepSpan, s, u);
  }

  function EncodedSpan(s: Span<KeyValue>): Span<bytes> {
    Span(s.traceId, s.spanId, s.parentSpanId, s.name, s.kind, s.startNs, s.endNs, EncodedAttrs(s.attrs))
  }

  lemma {:induction false} SpanFold(fields: seq<SpanField>)
    requires SpanOk(fields)
    ensures Fold(ApplySpanBytes, EmptySpan(), fields) == EncodedSpan(SpanMeans(fields))
    ensures forall kv :: kv in SpanMeans(fields).attrs ==> KeyValueOk(kv)
  {
    if |fields| > 0 {
      var before, last := fields[..|fields| - 1], fields[|fields| - 1];
      SpanFold(before);
      assert SpanFieldOk(last);
      if last.Attr? {
        assert EncodedAttrs(SpanMeans(before).attrs + [last.kv]) == EncodedAttrs(SpanMeans(before).attrs) + [KeyValueBytes(last.kv)];
      }
    }
  }

  lemma SpanRoundTrip(fields: seq<SpanField>)
    requires SpanOk(fields)
    ensures ParseSpan(Each(SpanFieldBytes, fields))
            == Some((EncodedSpan(SpanMeans(fields)), AttributesMean(SpanMeans(fields).attrs)))
  {
    forall s, f | f in fields ensures Takes(StepSpan, s, SpanFieldBytes(f), ApplySpanBytes(s, f)) {
      SpanTaken(s, f);
    }
    WalkMessage(StepSpan, SpanFieldBytes, ApplySpanBytes, EmptySpan(), fields);
    SpanFold(fields);
    AttributesRoundTrip(SpanMeans(fields).attrs);
  }

  // ── Scopes ─────────────────────────────────────────────────────────────────

  lemma ScopeTaken(found: seq<Result>, f: ScopeField, resource: Option<Value>)
    requires ScopeFieldOk(f)
    ensures Takes(ScopeStep(resource), found, ScopeFieldBytes(f), ApplyScope(found, f, resource))
  {
    match f
    case SpanIn(span) =>
      SpanRoundTrip(span);
      TakesChunk(ScopeStep(resource), found, 2, Each(SpanFieldBytes, span), ApplyScope(found, f, resource));
    case ScopeOther(u) => TakesUnknown(ScopeStep(resource), found, u);
  }

  lemma {:induction false} ScopeWalk(found: seq<Result>, fields: seq<ScopeField>, resource: Option<Value>, tail: bytes)
    requires forall f :: f in fields ==> ScopeFieldOk(f)
    ensures Walk(ScopeStep(resource), found, Each(ScopeFieldBytes, fields) + tail)
            == Walk(ScopeStep(resource), ScopeResults(found, fields, resource), tail)
  {
    if |fields| == 0 {
      assert Each(ScopeFieldBytes, fields) + tail == tail;
    } else {
      var before, last := fields[..|fields| - 1], fields[|fields| - 1];
      assert Each(ScopeFieldBytes, fields) + tail == Each(ScopeFieldBytes, before) + (ScopeFieldBytes(last) + tail);
      ScopeWalk(found, before, resource, ScopeFieldBytes(last) + tail);
      var mid := ScopeResults(found, before, resource);
      ScopeTaken(mid, last, resource);
      TakeOne(ScopeStep(resource), mid, ScopeFieldBytes(last), ApplyScope(mid, last, resource), tail);
    }
  }

  predicate ScopeOk(fields: seq<ScopeField>) {
    forall f :: f in fields ==> ScopeFieldOk(f)
  }

  function EncodedScopes(scopes: seq<seq<ScopeField>>): seq<bytes> {
    seq(|scopes|, i requires 0 <= i < |scopes| => Each(ScopeFieldBytes, scopes[i]))
  }

  lemma {:induction false} ScopesRoundTrip(found: seq<Result>, scopes: seq<seq<ScopeField>>, resource: Option<Value>)
    requires forall fields :: fields in scopes ==> ScopeOk(fields)
    ensures ParseScopes(found, EncodedScopes(scopes), resource) == Some(ScopesResults(found, scopes, resource))
  {
    if |scopes| > 0 {
      var before, last := scopes[..|scopes| - 1], scopes[|scopes| - 1];
      ScopesRoundTrip(found, before, resource);
      assert last in scopes;
      assert EncodedScopes(scopes)[..|scopes| - 1] == EncodedScopes(before);
      ScopeWalk(ScopesResults(found, before, resource), last, resource, []);
      assert Each(ScopeFieldBytes, last) + [] == Each(ScopeFieldBytes, last);
    }
  }

  // ── Groups ─────────────────────────────────────────────────────────────────

  function ApplyResource(attrs: seq<bytes>, f: ResourceField): seq<bytes> {
    if f.ResourceAttr? then attrs + [KeyValueBytes(f.kv)] else attrs
  }

  lemma {:induction false} ResourceFold(attrs: seq<bytes>, fields: seq<ResourceField>)
    requires forall f :: f in fields ==> ResourceFieldOk(f)
    ensures Fold(ApplyResource, attrs, fields) == attrs + EncodedAttrs(ResourceAttrs(fields))
    ensures forall kv :: kv in ResourceAttrs(fields) ==> KeyValueOk(kv)
  {
    if |fields| > 0 {
      ResourceFold(attrs, fields[..|fields| - 1]);
      assert ResourceFieldOk(fields[|fields| - 1]);
    }
  }

  lemma ResourceRoundTrip(attrs: seq<bytes>, fields: seq<ResourceField>)
    requires forall f :: f in fields ==> ResourceFieldOk(f)
    ensures Walk(StepResource, attrs, Each(ResourceFieldBytes, fields)) == Some(attrs + EncodedAttrs(ResourceAttrs(fields)))
  {
    forall s, f | f in fields ensures Takes(StepResource, s, ResourceFieldBytes(f), ApplyResource(s, f)) {
      match f
      case ResourceAttr(kv) => TakesChunk(StepResource, s, 1, KeyValueBytes(kv), ApplyResource(s, f));
      case ResourceOther(u) => TakesUnknown(StepResource, s, u);
    }
    WalkMessage(StepResource, ResourceFieldBytes, ApplyResource, attrs, fields);
    ResourceFold(attrs, fields);
  }

  function ApplyGroup(g: Group, f: GroupField): Group {
    match f
    case Resource(about) => g.(attrs := g.attrs + EncodedAttrs(ResourceAttrs(about)))
    case Scope(spans) => g.(scopes := g.scopes + [Each(ScopeFieldBytes, spans)])
    case GroupOther(_) => g
  }

  lemma GroupTaken(g: Group, f: GroupField)
    requires GroupFieldOk(f)
    ensures Takes(StepGroup, g, GroupFieldBytes(f), ApplyGroup(g, f))
  {
    match f
    case Resource(about) =>
      ResourceRoundTrip(g.attrs, about);
      TakesChunk(StepGroup, g, 1, Each(ResourceFieldBytes, about), ApplyGroup(g, f));
    case Scope(spans) =>
      TakesChunk(StepGroup, g, 2, Each(ScopeFieldBytes, spans), ApplyGroup(g, f));
    case GroupOther(u) => TakesUnknown(StepGroup, g, u);
  }

  lemma EncodedAttrsAppend(a: seq<KeyValue>, b: seq<KeyValue>)
    ensures EncodedAttrs(a + b) == EncodedAttrs(a) + EncodedAttrs(b)
  {
  }

  lemma {:induction false} GroupFold(fields: seq<GroupField>)
    requires forall f :: f in fields ==> GroupFieldOk(f)
    ensures Fold(ApplyGroup, Group([], []), fields)
            == Group(EncodedAttrs(GroupAttrs(fields)), EncodedScopes(GroupScopes(fields)))
    ensures forall kv :: kv in GroupAttrs(fields) ==> KeyValueOk(kv)
    ensures forall scope :: scope in GroupScopes(fields) ==> ScopeOk(scope)
  {
    if |fields| > 0 {
      var before, last := fields[..|fields| - 1], fields[|fields| - 1];
      GroupFold(before);
      assert GroupFieldOk(last);
      match last
      case Resource(about) =>
        ResourceFold([], about);
        EncodedAttrsAppend(GroupAttrs(before), ResourceAttrs(about));
      case Scope(spans) =>
        assert EncodedScopes(GroupScopes(before) + [spans]) == EncodedScopes(GroupScopes(before)) + [Each(ScopeFieldBytes, spans)];
      case GroupOther(_) =>
    }
  }

  lemma GroupRoundTrip(found: seq<Result>, fields: seq<GroupField>)
    requires forall f :: f in fields ==> GroupFieldOk(f)
    ensures ParseGroup(found, Each(GroupFieldBytes, fields)) == Some(GroupResults(found, fields))
  {
    forall g, f | f in fields ensures Takes(StepGroup, g, GroupFieldBytes(f), ApplyGroup(g, f)) {
      GroupTaken(g, f);
    }
    WalkMessage(StepGroup, GroupFieldBytes, ApplyGroup, Group([], []), fields);
    GroupFold(fields);
    AttributesRoundTrip(GroupAttrs(fields));
    ScopesRoundTrip(found, GroupScopes(fields), Session(AttributesMean(GroupAttrs(fields))));
  }

  // ── Requests ───────────────────────────────────────────────────────────────

  function ApplyRequest(found: seq<Result>, f: RequestField): seq<Result> {
    if f.ResourceSpans? then GroupResults(found, f.group) else found
  }

  lemma {:induction false} RequestFold(request: seq<RequestField>)
    ensures Fold(ApplyRequest, [], request) == RequestMeans(request)
  {
    if |request| > 0 {
      RequestFold(request[..|request| - 1]);
    }
  }

  /**
   * The round trip: in order, exactly the spans with a session id, from the span
   * first and then its resource, whatever unknown fields the request carries.
   */
  lemma RoundTrip(request: seq<RequestField>)
    requires RequestOk(request)
    ensures Decode(Encode(request)) == Some(RequestMeans(request))
  {
    forall found, f | f in request ensures Takes(StepRequest, found, RequestFieldBytes(f), ApplyRequest(found, f)) {
      match f
      case ResourceSpans(group) =>
        GroupRoundTrip(found, group);
        TakesChunk(StepRequest, found, 1, Each(GroupFieldBytes, group), ApplyRequest(found, f));
      case RequestOther(u) => TakesUnknown(StepRequest, found, u);
    }
    WalkMessage(StepRequest, RequestFieldBytes, ApplyRequest, [], request);
    RequestFold(request);
  }

  // ── Unknown fields, and the order of a group ───────────────────────────────

  function StripValue(v: AnyValue): AnyValue {
    v.(others := [])
  }

  function StripPair(kv: KeyValue): KeyValue {
    if |kv| == 0 then []
    else
      var last := kv[|kv| - 1];
      StripPair(kv[..|kv| - 1])
      + match last case KeyOther(_) => [] case Key(_) => [last] case Val(v) => [Val(StripValue(v))]
  }

  function StripSpan(fields: seq<SpanField>): seq<SpanField> {
    if |fields| == 0 then []
    else
      var last := fields[|fields| - 1];
      StripSpan(fields[..|fields| - 1])
      + if last.SpanOther? then [] else if last.Attr? then [Attr(StripPair(last.kv))] else [last]
  }

  function StripScope(fields: seq<ScopeField>): seq<ScopeField> {
    if |fields| == 0 then []
    else
      var last := fields[|fields| - 1];
      StripScope(fields[..|fields| - 1]) + if last.SpanIn? then [SpanIn(StripSpan(last.span))] else []
  }

  function StripResource(fields: seq<ResourceField>): seq<ResourceField> {
    if |fields| == 0 then []
    else
      var last := fields[|fields| - 1];
      StripResource(fields[..|fields| - 1]) + if last.ResourceAttr? then [ResourceAttr(StripPair(last.kv))] else []
  }

  function StripGroup(fields: seq<GroupField>): seq<GroupField> {
    if |fields| == 0 then []
    else
      var last := fields[|fields| - 1];
      StripGroup(fields[..|fields| - 1])
      + match last
        case Resource(about) => [Resource(StripResource(about))]
        case Scope(spans) => [Scope(StripScope(spans))]
        case GroupOther(_) => []
  }

  /** The request without any unknown field, at any depth. */
  function Strip(request: seq<RequestField>): seq<RequestField> {
    if |request| == 0 then []
    else
      var last := request[|request| - 1];
      Strip(request[..|request| - 1]) + if last.ResourceSpans? then [ResourceSpans(StripGroup(last.group))] else []
  }

  lemma Snoc<T>(s: seq<T>, x: T)
    ensures var t := s + [x]; t[..|t| - 1] == s && t[|t| - 1] == x
    ensures s + [] == s
  {
  }

  lemma {:induction false} PairStripped(kv: KeyValue)
    requires KeyValueOk(kv)
    ensures KeyValueOk(StripPair(kv)) && PairMeans(StripPair(kv)) == PairMeans(kv)
  {
    if |kv| > 0 {
      PairStripped(kv[..|kv| - 1]);
      var last := kv[|kv| - 1];
      assert KeyFieldOk(last);
      Snoc(StripPair(kv[..|kv| - 1]), if last.Val? then Val(StripValue(last.value)) else last);
    }
  }

  function StripPairs(kvs: seq<KeyValue>): seq<KeyValue> {
    seq(|kvs|, i requires 0 <= i < |kvs| => StripPair(kvs[i]))
  }

  lemma {:induction false} AttributesStripped(kvs: seq<KeyValue>)
    requires forall kv :: kv in kvs ==> KeyValueOk(kv)
    ensures AttributesMean(StripPairs(kvs)) == AttributesMean(kvs)
  {
    if |kvs| > 0 {
      AttributesStripped(kvs[..|kvs| - 1]);
      assert StripPairs(kvs)[..|kvs| - 1] == StripPairs(kvs[..|kvs| - 1]);
      PairStripped(kvs[|kvs| - 1]);
    }
  }

  lemma {:induction false} SpanStripped(fields: seq<SpanField>)
    requires SpanOk(fields)
    ensures SpanOk(StripSpan(fields))
    ensures SpanMeans(StripSpan(fields)) == SpanMeans(fields).(attrs := StripPairs(SpanMeans(fields).attrs))
    ensures forall kv :: kv in SpanMeans(fields).attrs ==> KeyValueOk(kv)
  {
    if |fields| > 0 {
      var before, last := fields[..|fields| - 1], fields[|fields| - 1];
      SpanStripped(before);
      assert SpanFieldOk(last);
      SpanFieldStripped(SpanMeans(before), last);
      Snoc(StripSpan(before), if last.Attr? then Attr(StripPair(last.kv)) else last);
    }
  }

  /** Stripping a span field by field. */
  lemma SpanFieldStripped(s: Span<KeyValue>, f: SpanField)
    requires SpanFieldOk(f) && forall kv :: kv in s.attrs ==> KeyValueOk(kv)
    ensures var next, stripped := ApplySpan(s, f, Itself), s.(attrs := StripPairs(s.attrs));
            (forall kv :: kv in next.attrs ==> KeyValueOk(kv))
            && next.(attrs := StripPairs(next.attrs))
               == (if f.SpanOther? then stripped
                   else ApplySpan(stripped, if f.Attr? then Attr(StripPair(f.kv)) else f, Itself))
    ensures f.Attr? ==> KeyValueOk(StripPair(f.kv))
  {
    if f.Attr? {
      PairStripped(f.kv);
      assert StripPairs(s.attrs + [f.kv]) == StripPairs(s.attrs) + [StripPair(f.kv)];
    }
  }

  lemma {:induction false} ScopeStripped(found: seq<Result>, fields: seq<ScopeField>, resource: Option<Value>)
    requires ScopeOk(fields)
    ensures ScopeOk(StripScope(fields)) && ScopeResults(found, StripScope(fields), resource) == ScopeResults(found, fields, resource)
  {
    if |fields| > 0 {
      var before, last := fields[..|fields| - 1], fields[|fields| - 1];
      ScopeStripped(found, before, resource);
      assert ScopeFieldOk(last);
      Snoc(StripScope(before), if last.SpanIn? then SpanIn(StripSpan(last.span)) else last);
      if last.SpanIn? {
        SpanStripped(last.span);
        AttributesStripped(SpanMeans(last.span).attrs);
      }
    }
  }

  lemma {:induction false} ResourceStripped(fields: seq<ResourceField>)
    requires forall f :: f in fields ==> ResourceFieldOk(f)
    ensures forall f :: f in StripResource(fields) ==> ResourceFieldOk(f)
    ensures ResourceAttrs(StripResource(fields)) == StripPairs(ResourceAttrs(fields))
    ensures forall kv :: kv in ResourceAttrs(fields) ==> KeyValueOk(kv)
  {
    if |fields| > 0 {
      var before, last := fields[..|fields| - 1], fields[|fields| - 1];
      ResourceStripped(before);
      assert ResourceFieldOk(last);
      if last.ResourceAttr? {
        PairStripped(last.kv);
        Snoc(StripResource(before), ResourceAttr(StripPair(last.kv)));
        assert StripPairs(ResourceAttrs(before) + [last.kv]) == StripPairs(ResourceAttrs(before)) + [StripPair(last.kv)];
      } else {
        Snoc(StripResource(before), last);
        Snoc(ResourceAttrs(before), []);
      }
    }
  }

  function StripScopes(scopes: seq<seq<ScopeField>>): seq<seq<ScopeField>> {
    seq(|scopes|, i requires 0 <= i < |scopes| => StripScope(scopes[i]))
  }

  lemma {:induction false} ScopesStripped(found: seq<Result>, scopes: seq<seq<ScopeField>>, resource: Option<Value>)
    requires forall fields :: fields in scopes ==> ScopeOk(fields)
    ensures ScopesResults(found, StripScopes(scopes), resource) == ScopesResults(found, scopes, resource)
  {
    if |scopes| > 0 {
      var before, last := scopes[..|scopes| - 1], scopes[|scopes| - 1];
      ScopesStripped(found, before, resource);
      assert StripScopes(scopes)[..|scopes| - 1] == StripScopes(before);
      assert last in scopes;
      ScopeStripped(ScopesResults(found, before, resource), last, resource);
    }
  }

  lemma StripPairsAppend(a: seq<KeyValue>, b: seq<KeyValue>)
    ensures StripPairs(a + b) == StripPairs(a) + StripPairs(b)
  {
  }

  lemma {:induction false} GroupStripped(fields: seq<GroupField>)
    requires forall f :: f in fields ==> GroupFieldOk(f)
    ensures forall f :: f in StripGroup(fields) ==> GroupFieldOk(f)
    ensures GroupAttrs(StripGroup(fields)) == StripPairs(GroupAttrs(fields))
    ensures GroupScopes(StripGroup(fields)) == StripScopes(GroupScopes(fields))
  {
    if |fields| > 0 {
      var before, last := fields[..|fields| - 1], fields[|fields| - 1];
      GroupStripped(before);
      assert GroupFieldOk(last);
      match last
      case Resource(about) =>
        ResourceStripped(about);
        Snoc(StripGroup(before), Resource(StripResource(about)));
        StripPairsAppend(GroupAttrs(before), ResourceAttrs(about));
        Snoc(GroupScopes(before), []);
        Snoc(GroupScopes(StripGroup(before)), []);
      case Scope(spans) =>
        ScopeStripped([], spans, None);
        Snoc(StripGroup(before), Scope(StripScope(spans)));
        assert StripScopes(GroupScopes(before) + [spans]) == StripScopes(GroupScopes(before)) + [StripScope(spans)];
        Snoc(GroupAttrs(before), []);
        Snoc(GroupAttrs(StripGroup(before)), []);
      case GroupOther(_) =>
        Snoc(StripGroup(before), last);
        Snoc(GroupAttrs(before), []);
        Snoc(GroupScopes(before), []);
    }
  }

  lemma GroupMeansStripped(found: seq<Result>, fields: seq<GroupField>)
    requires forall f :: f in fields ==> GroupFieldOk(f)
    ensures GroupResults(found, StripGroup(fields)) == GroupResults(found, fields)
  {
    GroupStripped(fields);
    GroupFold(fields);
    AttributesStripped(GroupAttrs(fields));
    ScopesStripped(found, GroupScopes(fields), Session(AttributesMean(GroupAttrs(fields))));
  }

  lemma {:induction false} RequestStripped(request: seq<RequestField>)
    requires RequestOk(request)
    ensures RequestOk(Strip(request)) && RequestMeans(Strip(request)) == RequestMeans(request)
  {
    if |request| > 0 {
      var before, last := request[..|request| - 1], request[|request| - 1];
      RequestStripped(before);
      assert RequestFieldOk(last);
      Snoc(Strip(before), if last.ResourceSpans? then ResourceSpans(StripGroup(last.group)) else last);
      if last.ResourceSpans? {
        GroupStripped(last.group);
        GroupMeansStripped(RequestMeans(before), last.group);
      }
    }
  }

  /** Unknown fields of wire types 0, 1, 2 and 5, at every depth, change nothing. */
  lemma UnknownFieldsChangeNothing(request: seq<RequestField>)
    requires RequestOk(request)
    ensures Decode(Encode(request)) == Decode(Encode(Strip(request)))
  {
    RequestStripped(request);
    RoundTrip(request);
    RoundTrip(Strip(request));
  }

  lemma {:induction false} GroupAppend(a: seq<GroupField>, b: seq<GroupField>)
    ensures GroupAttrs(a + b) == GroupAttrs(a) + GroupAttrs(b)
    ensures GroupScopes(a + b) == GroupScopes(a) + GroupScopes(b)
  {
    if |b| == 0 {
      assert a + b == a;
    } else {
      var all, before, last := a + b, b[..|b| - 1], b[|b| - 1];
      assert all[..|all| - 1] == a + before && all[|all| - 1] == last;
      GroupAppend(a, before);
      Regroup(GroupAttrs(a), GroupAttrs(before), if last.Resource? then ResourceAttrs(last.about) else []);
      Regroup(GroupScopes(a), GroupScopes(before), if last.Scope? then [last.spans] else []);
    }
  }

  lemma Regroup<A>(a: seq<A>, b: seq<A>, c: seq<A>)
    ensures (a + b) + c == a + (b + c)
  {
  }

  /** A resource may stand before or after the scopes it is about. */
  lemma ResourceMayFollowItsScopes(before: seq<RequestField>, resource: GroupField, scopes: seq<GroupField>, after: seq<RequestField>)
    requires resource.Resource? && forall f :: f in scopes ==> !f.Resource?
    requires RequestOk(before + [ResourceSpans([resource] + scopes)] + after)
    ensures Decode(Encode(before + [ResourceSpans([resource] + scopes)] + after))
            == Decode(Encode(before + [ResourceSpans(scopes + [resource])] + after))
  {
    var here, there := ResourceSpans([resource] + scopes), ResourceSpans(scopes + [resource]);
    assert here in before + [here] + after;
    assert RequestFieldOk(here) && RequestFieldOk(there) by {
      assert RequestFieldOk(here);
    }
    assert RequestOk(before + [there] + after);
    GroupAppend([resource], scopes);
    GroupAppend(scopes, [resource]);
    NoResources(scopes);
    assert GroupScopes([resource]) == [];
    Snoc(GroupAttrs([resource]), []);
    Snoc(GroupScopes(scopes), []);
    assert GroupAttrs([resource] + scopes) == GroupAttrs(scopes + [resource]);
    assert GroupScopes([resource] + scopes) == GroupScopes(scopes + [resource]);
    forall found ensures ApplyRequest(found, here) == ApplyRequest(found, there) {
    }
    SameMeaning(before, here, there, after);
    RoundTrip(before + [here] + after);
    RoundTrip(before + [there] + after);
  }

  lemma {:induction false} NoResources(fields: seq<GroupField>)
    requires forall f :: f in fields ==> !f.Resource?
    ensures GroupAttrs(fields) == []
  {
    if |fields| > 0 {
      NoResources(fields[..|fields| - 1]);
    }
  }

  lemma {:induction false} SameMeaning(before: seq<RequestField>, here: RequestField, there: RequestField, after: seq<RequestField>)
    requires forall found :: ApplyRequest(found, here) == ApplyRequest(found, there)
    ensures RequestMeans(before + [here] + after) == RequestMeans(before + [there] + after)
  {
    var a, b := before + [here] + after, before + [there] + after;
    if |after| == 0 {
      assert a[..|a| - 1] == before && b[..|b| - 1] == before;
      assert ApplyRequest(RequestMeans(before), here) == ApplyRequest(RequestMeans(before), there);
    } else {
      SameMeaning(before, here, there, after[..|after| - 1]);
      assert a[..|a| - 1] == before + [here] + after[..|after| - 1];
      assert b[..|b| - 1] == before + [there] + after[..|after| - 1];
    }
  }

  // ── What arrives ───────────────────────────────────────────────────────────

  /** A session id is the value under the first of the three keys that holds a truthy one. */
  lemma {:induction false} SessionIsFirstTruthy(attrs: Attributes, keys: seq<bytes>, v: Value)
    ensures SessionUnder(attrs, keys) == Some(v) <==>
            exists i :: 0 <= i < |keys| && HoldsSession(attrs, keys[i]) && attrs[keys[i]] == v
                        && forall j :: 0 <= j < i ==> !HoldsSession(attrs, keys[j])
  {
    if |keys| > 0 {
      SessionIsFirstTruthy(attrs, keys[1..], v);
      if HoldsSession(attrs, keys[0]) {
        assert SessionUnder(attrs, keys) == Some(attrs[keys[0]]);
      } else {
        if i :| 0 <= i < |keys[1..]| && HoldsSession(attrs, keys[1..][i]) && attrs[keys[1..][i]] == v
                && forall j :: 0 <= j < i ==> !HoldsSession(attrs, keys[1..][j]) {
          forall j | 0 <= j < i + 1 ensures !HoldsSession(attrs, keys[j]) {
            if j > 0 {
              assert keys[j] == keys[1..][j - 1];
            }
          }
          assert keys[i + 1] == keys[1..][i];
        }
        if i :| 0 <= i < |keys| && HoldsSession(attrs, keys[i]) && attrs[keys[i]] == v
                && forall j :: 0 <= j < i ==> !HoldsSession(attrs, keys[j]) {
          assert keys[1..][i - 1] == keys[i];
          forall j | 0 <= j < i - 1 ensures !HoldsSession(attrs, keys[1..][j]) {
            assert keys[1..][j] == keys[j + 1];
          }
        }
      }
    }
  }

  predicate HoldsSession(attrs: Attributes, key: bytes) {
    key in attrs && Truthy(attrs[key])
  }

  /** The same field of a span, whatever its content. */
  predicate SameField(f: SpanField, g: SpanField) {
    (f.TraceId? && g.TraceId?) || (f.SpanId? && g.SpanId?) || (f.ParentSpanId? && g.ParentSpanId?) || (f.Name? && g.Name?)
    || (f.Kind? && g.Kind?) || (f.Start? && g.Start?) || (f.End? && g.End?)
  }

  predicate Shows(s: Span<KeyValue>, f: SpanField) {
    match f
    case TraceId(b) => s.traceId == Some(b)
    case SpanId(b) => s.spanId == Some(b)
    case ParentSpanId(b) => s.parentSpanId == Some(b)
    case Name(utf8) => s.name == Some(utf8)
    case Kind(n) => s.kind == n
    case Start(ns) => s.startNs == ns
    case End(ns) => s.endNs == ns
    case Attr(kv) => kv in s.attrs
    case SpanOther(_) => true
  }

  /** The last occurrence of a field is the one a span shows; every attribute entry stays. */
  lemma {:induction false} LastFieldWins(fields: seq<SpanField>, i: nat)
    requires i < |fields| && forall j :: i < j < |fields| ==> !SameField(fields[i], fields[j])
    ensures Shows(SpanMeans(fields), fields[i])
  {
    var before, last := fields[..|fields| - 1], fields[|fields| - 1];
    if i < |before| {
      LastFieldWins(before, i);
      assert !SameField(fields[i], last);
      LaterFieldKeeps(SpanMeans(before), fields[i], last);
    }
  }

  lemma LaterFieldKeeps(s: Span<KeyValue>, f: SpanField, later: SpanField)
    requires Shows(s, f) && !SameField(f, later)
    ensures Shows(ApplySpan(s, later, Itself), f)
  {
  }

  predicate IsKeyAt(kvs: seq<KeyValue>, i: nat, key: bytes) {
    i < |kvs| && PairMeans(kvs[i]).key == Some(key)
  }

  /** An attribute is its key's last entry; only a key named __proto__ is lost. */
  lemma {:induction false} LastKeyWins(kvs: seq<KeyValue>, i: nat, key: bytes)
    requires IsKeyAt(kvs, i, key) && forall j :: i < j < |kvs| ==> !IsKeyAt(kvs, j, key)
    ensures key in AttributesMean(kvs) <==> key != PROTO
    ensures key != PROTO ==> AttributesMean(kvs)[key] == PairMeans(kvs[i]).value
  {
    var before := kvs[..|kvs| - 1];
    if i < |before| {
      assert forall j :: i < j < |before| ==> IsKeyAt(before, j, key) == IsKeyAt(kvs, j, key);
      LastKeyWins(before, i, key);
      assert !IsKeyAt(kvs, |kvs| - 1, key);
    } else if key == PROTO {
      OnlyKeys(before, key);
    }
  }

  /** Nothing else is an attribute. */
  lemma {:induction false} OnlyKeys(kvs: seq<KeyValue>, key: bytes)
    ensures key in AttributesMean(kvs) ==> key != PROTO && exists i :: IsKeyAt(kvs, i, key)
  {
    if |kvs| > 0 {
      var before := kvs[..|kvs| - 1];
      OnlyKeys(before, key);
      if i :| IsKeyAt(before, i, key) {
        assert IsKeyAt(kvs, i, key);
      }
      if key in AttributesMean(kvs) && key !in AttributesMean(before) {
        assert IsKeyAt(kvs, |kvs| - 1, key);
      }
    }
  }

  /**
   * A span is kept exactly if it or its resource has a session id, under its own
   * first; times are whole milliseconds, rounded down, and an end of zero is none;
   * the body's own keys are never an attribute's.
   */
  lemma KeptShows(span: Span<KeyValue>, attrs: Attributes, resource: Option<Value>)
    ensures var kept := Kept(span, attrs, resource);
            (|kept| == 1 <==> Session(attrs).Some? || resource.Some?) && (|kept| == 0 || |kept| == 1)
            && (|kept| == 1 ==>
                  var e := kept[0].event;
                  (Session(attrs).Some? ==> kept[0].sessionId == Session(attrs).value)
                  && (Session(attrs).None? ==> Some(kept[0].sessionId) == resource)
                  && e.startMs * 1_000_000 <= span.startNs < (e.startMs + 1) * 1_000_000
                  && (e.endMs.None? <==> span.endNs == 0)
                  && (e.endMs.Some? ==> e.endMs.value * 1_000_000 <= span.endNs < (e.endMs.value + 1) * 1_000_000)
                  && (e.traceId, e.spanId, e.parentSpanId, e.name) == (span.traceId, span.spanId, span.parentSpanId, span.name)
                  && forall k :: k in e.rest <==> k in attrs && k !in OWN_KEYS)
  {
  }
}
