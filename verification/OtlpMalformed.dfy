/**
 * Bytes that no encoder writes: what the reader makes of wire types that do not fit and
 * of buffers that end too early.
 */
module OtlpMalformed {
  import opened Common
  import opened Protobuf
  import opened Otlp
  import opened OtlpRoundTrip

  /** Of a tag only the low 32 bits count. */
  lemma TagsAreShort(m: nat, rest: bytes)
    ensures ReadTag(Varint(m) + rest) == (m % 0x1_0000_0000 / 8, m % 8, rest)
  {
    VarintRoundTrip(m, rest);
  }

  /** A chunk that claims more bytes than there are gets those there are. */
  lemma ChunksStopAtTheEnd(n: nat, b: bytes)
    ensures ReadBytes(Varint(n) + b) == if n <= |b| then (b[..n], b[n..]) else (b, [])
  {
    VarintRoundTrip(n, b);
    assert b[..|b|] == b;
  }

  /** Four wire types are skipped, as far as there are bytes; on any other the reader throws. */
  lemma SkipsExactly(wire: nat, n: nat, b: bytes)
    ensures Skip(wire, b).None? <==> wire !in {0, 1, 2, 5}
    ensures Skip(0, Varint(n) + b) == Some(b)
    ensures Skip(1, b) == Some(if |b| >= 8 then b[8..] else [])
    ensures Skip(2, Varint(n) + b) == Some(if n <= |b| then b[n..] else [])
    ensures Skip(5, b) == Some(if |b| >= 4 then b[4..] else [])
  {
    VarintRoundTrip(n, b);
    ChunksStopAtTheEnd(n, b);
  }

  /** Behind a tag, the message's step decides. */
  lemma BehindTag<S>(step: Step<S>, s: S, field: nat, wire: nat, b: bytes)
    requires FieldOk(field) && wire < 8
    ensures Walk(step, s, Tag(field, wire) + b)
            == match step(s, field, wire, b)
               case Throws => None
               case Return(result) => Some(result)
               case Go(next, rest) => if |rest| < |Tag(field, wire) + b| then Walk(step, next, rest) else None
  {
    TagRoundTrip(field, wire, b);
  }

  /** A value whose wire type does not fit is not skipped: the reader goes on in the middle of it. */
  lemma UnfitValuesAreNotSkipped(v: Value, field: nat, wire: nat, rest: bytes)
    requires wire < 8 && ((field == 1 && wire != 2) || (field in {2, 3} && wire != 0))
    ensures Walk(StepValue, v, Tag(field, wire) + rest) == Walk(StepValue, v, rest)
  {
    BehindTag(StepValue, v, field, wire, rest);
    TagRoundTrip(field, wire, rest);
  }

  predicate IsKnown(f: SpanField) {
    !f.SpanOther?
  }

  function NumberOf(f: SpanField): nat {
    match f
    case TraceId(_) => 1
    case SpanId(_) => 2
    case ParentSpanId(_) => 4
    case Name(_) => 5
    case Kind(_) => 6
    case Start(_) => 7
    case End(_) => 8
    case Attr(_) => 9
    case SpanOther(u) => u.field
  }

  function ContentOf(f: SpanField): bytes {
    match f
    case TraceId(b) => Chunk(b)
    case SpanId(b) => Chunk(b)
    case ParentSpanId(b) => Chunk(b)
    case Name(utf8) => Chunk(utf8)
    case Kind(n) => Varint(n)
    case Start(ns) => LittleBytes(ns, 8)
    case End(ns) => LittleBytes(ns, 8)
    case Attr(kv) => Chunk(KeyValueBytes(kv))
    case SpanOther(u) => PayloadBytes(u.payload)
  }

  /** The known fields of a span are read whatever their wire type says. */
  lemma WireTypesOfSpansAreIgnored(s: Span<bytes>, f: SpanField, wire: nat, rest: bytes)
    requires IsKnown(f) && SpanFieldOk(f) && wire < 8
    ensures Walk(StepSpan, s, Tag(NumberOf(f), wire) + (ContentOf(f) + rest)) == Walk(StepSpan, ApplySpanBytes(s, f), rest)
  {
    BehindTag(StepSpan, s, NumberOf(f), wire, ContentOf(f) + rest);
    TagRoundTrip(NumberOf(f), wire, []);
    match f
    case TraceId(b) => ChunkRoundTrip(b, rest);
    case SpanId(b) => ChunkRoundTrip(b, rest);
    case ParentSpanId(b) => ChunkRoundTrip(b, rest);
    case Name(utf8) => ChunkRoundTrip(utf8, rest);
    case Kind(n) => VarintRoundTrip(n, rest);
    case Start(ns) => FixedRoundTrip(ns, rest);
    case End(ns) => FixedRoundTrip(ns, rest);
    case Attr(kv) => ChunkRoundTrip(KeyValueBytes(kv), rest);
  }

  /** A time with fewer than eight bytes left makes the decoder throw. */
  lemma ShortTimesThrow(s: Span<bytes>, field: nat, wire: nat, rest: bytes)
    requires field in {7, 8} && wire < 8 && |rest| < 8
    ensures Walk(StepSpan, s, Tag(field, wire) + rest) == None
  {
    BehindTag(StepSpan, s, field, wire, rest);
  }

  /** So does an unknown field of an unknown wire type, in a request as in a span. */
  lemma UnknownWireTypesThrow(found: seq<Result>, s: Span<bytes>, field: nat, wire: nat, rest: bytes)
    requires FieldOk(field) && wire in {3, 4, 6, 7}
    ensures Walk(StepRequest, found, Tag(field, wire) + rest) == None
    ensures field !in {1, 2, 4, 5, 6, 7, 8, 9} ==> Walk(StepSpan, s, Tag(field, wire) + rest) == None
  {
    BehindTag(StepRequest, found, field, wire, rest);
    BehindTag(StepSpan, s, field, wire, rest);
  }
}
