/**
 * Decoding an OTLP ExportTraceServiceRequest (langfuse.utility.ts): what a request
 * means, how it is encoded, what the decoder's loops do with the bytes.
 */
module Otlp {
  import opened Common
  import opened Protobuf

  // ── What the decoder yields ────────────────────────────────────────────────

  /** An attribute's value. Strings are their UTF-8 bytes; Inexact is an integer that a double rounds. */
  datatype Value = Text(utf8: bytes) | Flag(b: bool) | Num(n: nat) | Inexact(n: nat) | Undefined

  type Attributes = map<bytes, Value>

  /** A Span message read so far; `attrs` are its attribute entries, as bytes or as messages. */
  datatype Span<A> = Span(
    traceId: Option<bytes>, spanId: Option<bytes>, parentSpanId: Option<bytes>, name: Option<bytes>,
    kind: nat, startNs: nat, endNs: nat, attrs: seq<A>)

  datatype Event = Event(
    kind: string, startMs: nat, endMs: Option<nat>, traceId: Option<bytes>, spanId: Option<bytes>,
    parentSpanId: Option<bytes>, name: Option<bytes>, rest: Attributes)

  datatype Result = Result(sessionId: Value, event: Event)

  function Ascii(s: string): bytes {
    seq(|s|, i requires 0 <= i < |s| => s[i] as int % 256)
  }

  const SESSION_ID_KEYS: seq<bytes> := [Ascii("session.id"), Ascii("langfuse.session.id"), Ascii("langfuse.sessionId")]

  /** Keys the body sets itself, after spreading the attributes. */
  const OWN_KEYS: set<bytes> := {Ascii("traceId"), Ascii("spanId"), Ascii("parentSpanId"), Ascii("name"), Ascii("kind"),
                                 Ascii("startTime"), Ascii("endTime")}

  function KindLabel(kind: nat): string {
    match kind
    case 0 => "UNSPECIFIED"
    case 1 => "INTERNAL"
    case 2 => "SERVER"
    case 3 => "CLIENT"
    case 4 => "PRODUCER"
    case 5 => "CONSUMER"
    case _ => "UNKNOWN"
  }

  /** A double holds the integer: its odd part fits in 53 bits. */
  predicate Representable(n: nat) {
    n < 0x20_0000_0000_0000 || (n % 2 == 0 && Representable(n / 2))
  }

  /** Number(bigint). */
  function ToNumber(n: nat): Value {
    if Representable(n) then Num(n) else Inexact(n)
  }

  predicate Truthy(v: Value) {
    match v
    case Text(utf8) => |utf8| > 0
    case Flag(b) => b
    case Num(n) => n != 0
    case Inexact(_) => true
    case Undefined => false
  }

  /** SESSION_ID_KEYS.map(k => attrs[k]).find(Boolean). */
  function SessionUnder(attrs: Attributes, keys: seq<bytes>): Option<Value> {
    if |keys| == 0 then None
    else if keys[0] in attrs && Truthy(attrs[keys[0]]) then Some(attrs[keys[0]])
    else SessionUnder(attrs, keys[1..])
  }

  function Session(attrs: Attributes): Option<Value> {
    SessionUnder(attrs, SESSION_ID_KEYS)
  }

  function OrElse(a: Option<Value>, b: Option<Value>): Option<Value> {
    if a.Some? then a else b
  }

  function EventOf<A>(span: Span<A>, attrs: Attributes): Event {
    Event(KindLabel(span.kind), span.startNs / 1_000_000, if span.endNs > 0 then Some(span.endNs / 1_000_000) else None,
          span.traceId, span.spanId, span.parentSpanId, span.name, attrs - OWN_KEYS)
  }

  // ── Requests as messages ───────────────────────────────────────────────────

  datatype Primitive = Str(utf8: bytes) | Bool(b: bool) | Int(n: int)

  /** The reader returns at the first value it knows; what follows is never read. */
  datatype AnyValue = AnyValue(others: seq<Unknown>, value: Option<Primitive>, after: bytes)

  datatype KeyField = Key(utf8: bytes) | Val(value: AnyValue) | KeyOther(u: Unknown)
  type KeyValue = seq<KeyField>

  datatype SpanField =
    | TraceId(b: bytes) | SpanId(b: bytes) | ParentSpanId(b: bytes) | Name(utf8: bytes)
    | Kind(n: nat) | Start(ns: nat) | End(ns: nat) | Attr(kv: KeyValue) | SpanOther(u: Unknown)

  datatype ScopeField = SpanIn(span: seq<SpanField>) | ScopeOther(u: Unknown)
  datatype ResourceField = ResourceAttr(kv: KeyValue) | ResourceOther(u: Unknown)
  datatype GroupField = Resource(about: seq<ResourceField>) | Scope(spans: seq<ScopeField>) | GroupOther(u: Unknown)
  datatype RequestField = ResourceSpans(group: seq<GroupField>) | RequestOther(u: Unknown)

  predicate PrimitiveOk(p: Primitive) {
    p.Int? ==> -0x8000_0000_0000_0000 <= p.n < 0x8000_0000_0000_0000
  }

  predicate ValueOk(v: AnyValue) {
    (forall u :: u in v.others ==> UnknownOk(u) && u.field !in {1, 2, 3}) && (v.value.Some? ==> PrimitiveOk(v.value.value))
  }

  predicate KeyFieldOk(f: KeyField) {
    match f
    case Key(_) => true
    case Val(v) => ValueOk(v)
    case KeyOther(u) => UnknownOk(u) && (u.field, Wire(u.payload)) !in {(1, 2), (2, 2)}
  }

  predicate KeyValueOk(kv: KeyValue) {
    forall f :: f in kv ==> KeyFieldOk(f)
  }

  predicate SpanFieldOk(f: SpanField) {
    match f
    case Start(ns) => ns < Power256(8)
    case End(ns) => ns < Power256(8)
    case Attr(kv) => KeyValueOk(kv)
    case SpanOther(u) => UnknownOk(u) && u.field !in {1, 2, 4, 5, 6, 7, 8, 9}
    case _ => true
  }

  predicate SpanOk(span: seq<SpanField>) {
    forall f :: f in span ==> SpanFieldOk(f)
  }

  predicate ScopeFieldOk(f: ScopeField) {
    match f
    case SpanIn(span) => SpanOk(span)
    case ScopeOther(u) => UnknownOk(u) && (u.field, Wire(u.payload)) != (2, 2)
  }

  predicate ResourceFieldOk(f: ResourceField) {
    match f
    case ResourceAttr(kv) => KeyValueOk(kv)
    case ResourceOther(u) => UnknownOk(u) && (u.field, Wire(u.payload)) != (1, 2)
  }

  predicate GroupFieldOk(f: GroupField) {
    match f
    case Resource(fields) => forall g :: g in fields ==> ResourceFieldOk(g)
    case Scope(fields) => forall g :: g in fields ==> ScopeFieldOk(g)
    case GroupOther(u) => UnknownOk(u) && (u.field, Wire(u.payload)) !in {(1, 2), (2, 2)}
  }

  predicate RequestFieldOk(f: RequestField) {
    match f
    case ResourceSpans(fields) => forall g :: g in fields ==> GroupFieldOk(g)
    case RequestOther(u) => UnknownOk(u) && (u.field, Wire(u.payload)) != (1, 2)
  }

  predicate RequestOk(request: seq<RequestField>) {
    forall f :: f in request ==> RequestFieldOk(f)
  }

  // ── What a request means ───────────────────────────────────────────────────

  /** int64 on the wire: two's complement. */
  function Int64(n: int): nat {
    n % 0x1_0000_0000_0000_0000
  }

  function PrimitiveMeans(p: Primitive): Value {
    match p
    case Str(utf8) => Text(utf8)
    case Bool(b) => Flag(b)
    case Int(n) => ToNumber(Int64(n))
  }

  function ValueMeans(v: AnyValue): Value {
    if v.value.Some? then PrimitiveMeans(v.value.value) else Undefined
  }

  /** A KeyValue read so far. */
  datatype Pair = Pair(key: Option<bytes>, value: Value)

  function ApplyKey(p: Pair, f: KeyField): Pair {
    match f
    case Key(utf8) => p.(key := Some(utf8))
    case Val(v) => p.(value := ValueMeans(v))
    case KeyOther(_) => p
  }

  function PairMeans(kv: KeyValue): Pair {
    Fold(ApplyKey, Pair(None, Undefined), kv)
  }

  /** Assigning a primitive under this key of an object literal has no effect. */
  const PROTO: bytes := Ascii("__proto__")

  function AddPair(attrs: Attributes, p: Pair): Attributes {
    if p.key.Some? && p.key.value != PROTO then attrs[p.key.value := p.value] else attrs
  }

  function AttributesMean(kvs: seq<KeyValue>): Attributes {
    if |kvs| == 0 then map[] else AddPair(AttributesMean(kvs[..|kvs| - 1]), PairMeans(kvs[|kvs| - 1]))
  }

  /** The last occurrence of a field wins; attributes accumulate. */
  function ApplySpan<A>(s: Span<A>, f: SpanField, attr: KeyValue -> A): Span<A> {
    match f
    case TraceId(b) => s.(traceId := Some(b))
    case SpanId(b) => s.(spanId := Some(b))
    case ParentSpanId(b) => s.(parentSpanId := Some(b))
    case Name(utf8) => s.(name := Some(utf8))
    case Kind(n) => s.(kind := n)
    case Start(ns) => s.(startNs := ns)
    case End(ns) => s.(endNs := ns)
    case Attr(kv) => s.(attrs := s.attrs + [attr(kv)])
    case SpanOther(_) => s
  }

  function EmptySpan<A>(): Span<A> {
    Span(None, None, None, None, 0, 0, 0, [])
  }

  function Itself(kv: KeyValue): KeyValue {
    kv
  }

  function SpanMeans(fields: seq<SpanField>): Span<KeyValue> {
    if |fields| == 0 then EmptySpan() else ApplySpan(SpanMeans(fields[..|fields| - 1]), fields[|fields| - 1], Itself)
  }

  /** A span is kept when it, or else its resource, has a session id. */
  function Kept<A>(span: Span<A>, attrs: Attributes, resource: Option<Value>): seq<Result> {
    var session := OrElse(Session(attrs), resource);
    if session.Some? then [Result(session.value, EventOf(span, attrs))] else []
  }

  function SpanResults(fields: seq<SpanField>, resource: Option<Value>): seq<Result> {
    var span := SpanMeans(fields);
    Kept(span, AttributesMean(span.attrs), resource)
  }

  function ApplyScope(found: seq<Result>, f: ScopeField, resource: Option<Value>): seq<Result> {
    if f.SpanIn? then found + SpanResults(f.span, resource) else found
  }

  function ScopeResults(found: seq<Result>, fields: seq<ScopeField>, resource: Option<Value>): seq<Result> {
    if |fields| == 0 then found
    else ApplyScope(ScopeResults(found, fields[..|fields| - 1], resource), fields[|fields| - 1], resource)
  }

  function ScopesResults(found: seq<Result>, scopes: seq<seq<ScopeField>>, resource: Option<Value>): seq<Result> {
    if |scopes| == 0 then found
    else ScopeResults(ScopesResults(found, scopes[..|scopes| - 1], resource), scopes[|scopes| - 1], resource)
  }

  function ResourceAttrs(fields: seq<ResourceField>): seq<KeyValue> {
    if |fields| == 0 then []
    else
      var last := fields[|fields| - 1];
      ResourceAttrs(fields[..|fields| - 1]) + if last.ResourceAttr? then [last.kv] else []
  }

  /** The attributes of all Resource fields of a group, wherever they stand in it. */
  function GroupAttrs(fields: seq<GroupField>): seq<KeyValue> {
    if |fields| == 0 then []
    else
      var last := fields[|fields| - 1];
      GroupAttrs(fields[..|fields| - 1]) + if last.Resource? then ResourceAttrs(last.about) else []
  }

  function GroupScopes(fields: seq<GroupField>): seq<seq<ScopeField>> {
    if |fields| == 0 then []
    else
      var last := fields[|fields| - 1];
      GroupScopes(fields[..|fields| - 1]) + if last.Scope? then [last.spans] else []
  }

  function GroupResults(found: seq<Result>, fields: seq<GroupField>): seq<Result> {
    ScopesResults(found, GroupScopes(fields), Session(AttributesMean(GroupAttrs(fields))))
  }

  function RequestMeans(request: seq<RequestField>): seq<Result> {
    if |request| == 0 then []
    else
      var before, last := RequestMeans(request[..|request| - 1]), request[|request| - 1];
      if last.ResourceSpans? then GroupResults(before, last.group) else before
  }

  // ── The encoding ───────────────────────────────────────────────────────────

  function Field(number: nat, content: bytes): bytes {
    Tag(number, 2) + Chunk(content)
  }

  function PrimitiveBytes(p: Primitive): bytes {
    match p
    case Str(utf8) => Field(1, utf8)
    case Bool(b) => Tag(2, 0) + Varint(if b then 1 else 0)
    case Int(n) => Tag(3, 0) + Varint(Int64(n))
  }

  function ValueBytes(v: AnyValue): bytes {
    Each(UnknownBytes, v.others)
    + if v.value.Some? then PrimitiveBytes(v.value.value) + v.after else []
  }

  function KeyFieldBytes(f: KeyField): bytes {
    match f
    case Key(utf8) => Field(1, utf8)
    case Val(v) => Field(2, ValueBytes(v))
    case KeyOther(u) => UnknownBytes(u)
  }

  function KeyValueBytes(kv: KeyValue): bytes {
    Each(KeyFieldBytes, kv)
  }

  function SpanFieldBytes(f: SpanField): bytes {
    match f
    case TraceId(b) => Field(1, b)
    case SpanId(b) => Field(2, b)
    case ParentSpanId(b) => Field(4, b)
    case Name(utf8) => Field(5, utf8)
    case Kind(n) => Tag(6, 0) + Varint(n)
    case Start(ns) => Tag(7, 1) + LittleBytes(ns, 8)
    case End(ns) => Tag(8, 1) + LittleBytes(ns, 8)
    case Attr(kv) => Field(9, KeyValueBytes(kv))
    case SpanOther(u) => UnknownBytes(u)
  }

  function ScopeFieldBytes(f: ScopeField): bytes {
    match f
    case SpanIn(span) => Field(2, Each(SpanFieldBytes, span))
    case ScopeOther(u) => UnknownBytes(u)
  }

  function ResourceFieldBytes(f: ResourceField): bytes {
    match f
    case ResourceAttr(kv) => Field(1, KeyValueBytes(kv))
    case ResourceOther(u) => UnknownBytes(u)
  }

  function GroupFieldBytes(f: GroupField): bytes {
    match f
    case Resource(fields) => Field(1, Each(ResourceFieldBytes, fields))
    case Scope(fields) => Field(2, Each(ScopeFieldBytes, fields))
    case GroupOther(u) => UnknownBytes(u)
  }

  function RequestFieldBytes(f: RequestField): bytes {
    match f
    case ResourceSpans(fields) => Field(1, Each(GroupFieldBytes, fields))
    case RequestOther(u) => UnknownBytes(u)
  }

  function Encode(request: seq<RequestField>): bytes {
    Each(RequestFieldBytes, request)
  }

  // ── What the decoder's loops do ────────────────────────────────────────────

  /** A wire type that does not fit breaks out of the switch: nothing is skipped. */
  function StepValue(s: Value, field: nat, wire: nat, b: bytes): Next<Value> {
    match field
    case 1 => if wire == 2 then Return(Text(ReadBytes(b).0)) else Go(s, b)
    case 2 => if wire == 0 then Return(Flag(ReadVarint(b).0 != 0)) else Go(s, b)
    case 3 => if wire == 0 then Return(ToNumber(ReadVarint(b).0)) else Go(s, b)
    case _ => SkipOr(s, wire, b)
  }

  function ParseValue(b: bytes): Option<Value> {
    Walk(StepValue, Undefined, b)
  }

  function StepKey(p: Pair, field: nat, wire: nat, b: bytes): Next<Pair> {
    var chunk := ReadBytes(b);
    if field == 1 && wire == 2 then Go(p.(key := Some(chunk.0)), chunk.1)
    else if field == 2 && wire == 2 then
      var value := ParseValue(chunk.0);
      if value.Some? then Go(p.(value := value.value), chunk.1) else Throws
    else SkipOr(p, wire, b)
  }

  function ParsePair(b: bytes): Option<Pair> {
    Walk(StepKey, Pair(None, Undefined), b)
  }

  function Collect(bufs: seq<bytes>): Option<Attributes> {
    if |bufs| == 0 then Some(map[])
    else
      var before := Collect(bufs[..|bufs| - 1]);
      var pair := ParsePair(bufs[|bufs| - 1]);
      if before.Some? && pair.Some? then Some(AddPair(before.value, pair.value)) else None
  }

  /** The fields of a span are read whatever their wire type says. */
  function StepSpan(s: Span<bytes>, field: nat, wire: nat, b: bytes): Next<Span<bytes>> {
    var chunk := ReadBytes(b);
    match field
    case 1 => Go(s.(traceId := Some(chunk.0)), chunk.1)
    case 2 => Go(s.(spanId := Some(chunk.0)), chunk.1)
    case 4 => Go(s.(parentSpanId := Some(chunk.0)), chunk.1)
    case 5 => Go(s.(name := Some(chunk.0)), chunk.1)
    case 6 => Go(s.(kind := ReadVarint(b).0), ReadVarint(b).1)
    case 7 => (match ReadFixed64(b) case None => Throws case Some((ns, rest)) => Go(s.(startNs := ns), rest))
    case 8 => (match ReadFixed64(b) case None => Throws case Some((ns, rest)) => Go(s.(endNs := ns), rest))
    case 9 => Go(s.(attrs := s.attrs + [chunk.0]), chunk.1)
    case _ => SkipOr(s, wire, b)
  }

  function ParseSpan(b: bytes): Option<(Span<bytes>, Attributes)> {
    var span := Walk(StepSpan, EmptySpan(), b);
    if span.None? then None
    else
      var attrs := Collect(span.value.attrs);
      if attrs.None? then None else Some((span.value, attrs.value))
  }

  function StepScope(found: seq<Result>, field: nat, wire: nat, b: bytes, resource: Option<Value>): Next<seq<Result>> {
    if field != 2 || wire != 2 then SkipOr(found, wire, b)
    else
      var chunk := ReadBytes(b);
      var span := ParseSpan(chunk.0);
      if span.None? then Throws else Go(found + Kept(span.value.0, span.value.1, resource), chunk.1)
  }

  function ScopeStep(resource: Option<Value>): Step<seq<Result>> {
    (found: seq<Result>, field: nat, wire: nat, b: bytes) => StepScope(found, field, wire, b, resource)
  }

  function ParseScope(found: seq<Result>, b: bytes, resource: Option<Value>): Option<seq<Result>> {
    Walk(ScopeStep(resource), found, b)
  }

  function ParseScopes(found: seq<Result>, bufs: seq<bytes>, resource: Option<Value>): Option<seq<Result>> {
    if |bufs| == 0 then Some(found)
    else
      var before := ParseScopes(found, bufs[..|bufs| - 1], resource);
      if before.None? then None else ParseScope(before.value, bufs[|bufs| - 1], resource)
  }

  function StepResource(attrs: seq<bytes>, field: nat, wire: nat, b: bytes): Next<seq<bytes>> {
    if field == 1 && wire == 2 then Go(attrs + [ReadBytes(b).0], ReadBytes(b).1) else SkipOr(attrs, wire, b)
  }

  /** Attribute and scope buffers gathered from a ResourceSpans message. */
  datatype Group = Group(attrs: seq<bytes>, scopes: seq<bytes>)

  function StepGroup(g: Group, field: nat, wire: nat, b: bytes): Next<Group> {
    var chunk := ReadBytes(b);
    if field == 1 && wire == 2 then
      var attrs := Walk(StepResource, g.attrs, chunk.0);
      if attrs.None? then Throws else Go(g.(attrs := attrs.value), chunk.1)
    else if field == 2 && wire == 2 then Go(g.(scopes := g.scopes + [chunk.0]), chunk.1)
    else SkipOr(g, wire, b)
  }

  function ParseGroup(found: seq<Result>, b: bytes): Option<seq<Result>> {
    var g := Walk(StepGroup, Group([], []), b);
    if g.None? then None
    else
      var attrs := Collect(g.value.attrs);
      if attrs.None? then None else ParseScopes(found, g.value.scopes, Session(attrs.value))
  }

  function StepRequest(found: seq<Result>, field: nat, wire: nat, b: bytes): Next<seq<Result>> {
    if field != 1 || wire != 2 then SkipOr(found, wire, b)
    else
      var chunk := ReadBytes(b);
      var next := ParseGroup(found, chunk.0);
      if next.None? then Throws else Go(next.value, chunk.1)
  }

  function Decode(raw: bytes): Option<seq<Result>> {
    Walk(StepRequest, [], raw)
  }
}
