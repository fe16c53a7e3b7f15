/**
 * The protobuf wire format as the hand-written reader sees it
 * (langfuse.utility.ts), and the encoder it is measured against
 * (Protocol Buffers Encoding, "Base 128 Varints" and "Message Structure").
 */
module Protobuf {
  import opened Common

  type byte = x: int | 0 <= x < 256
  type bytes = seq<byte>

  // ── Reading, on the bytes that are left ────────────────────────────────────

  function ReadVarint(b: bytes): (nat, bytes) {
    if |b| == 0 then (0, b)
    else if b[0] < 128 then (b[0], b[1..])
    else
      var rest := ReadVarint(b[1..]);
      (b[0] - 128 + 128 * rest.0, rest.1)
  }

  /** subarray and the advance both stop at the end of the buffer. */
  function Drop(b: bytes, n: nat): bytes {
    if n <= |b| then b[n..] else []
  }

  function ReadBytes(b: bytes): (bytes, bytes) {
    var length := ReadVarint(b);
    (length.1[..Min(length.0, |length.1|)], Drop(length.1, length.0))
  }

  function Little(b: bytes): nat {
    if |b| == 0 then 0 else b[0] + 256 * Little(b[1..])
  }

  /** readUInt32LE throws when the buffer is too short. */
  function ReadFixed64(b: bytes): Option<(nat, bytes)> {
    if |b| < 8 then None else Some((Little(b[..8]), b[8..]))
  }

  /** `tag >>> 3` works on the low 32 bits. */
  function ReadTag(b: bytes): (nat, nat, bytes) {
    var tag := ReadVarint(b);
    (tag.0 % 0x1_0000_0000 / 8, tag.0 % 8, tag.1)
  }

  /** None: unknown wire type. */
  function Skip(wire: nat, b: bytes): Option<bytes> {
    match wire
    case 0 => Some(ReadVarint(b).1)
    case 1 => Some(Drop(b, 8))
    case 2 => Some(ReadBytes(b).1)
    case 5 => Some(Drop(b, 4))
    case _ => None
  }

  lemma {:induction false} VarintShrinks(b: bytes)
    ensures |b| > 0 ==> |ReadVarint(b).1| < |b|
    ensures |ReadVarint(b).1| <= |b|
  {
    if |b| > 0 && b[0] >= 128 {
      VarintShrinks(b[1..]);
    }
  }

  function Scaled(low: nat, factor: nat, high: nat): nat {
    low + factor * high
  }

  lemma VarintStep(b: bytes, low: nat, high: nat)
    requires |b| > 0 && low == b[0] % 128 && high == ReadVarint(b[1..]).0
    ensures ReadVarint(b) == if b[0] < 128 then (low, b[1..]) else (low + 128 * high, ReadVarint(b[1..]).1)
  {
  }

  lemma Distribute(result: nat, factor: nat, low: nat, high: nat)
    ensures Scaled(result, factor, low + 128 * high) == Scaled(Scaled(result, factor, low), factor * 128, high)
  {
    assert factor * (low + 128 * high) == factor * low + factor * 128 * high;
  }

  // ── A loop over the fields of a message ────────────────────────────────────

  /** What the body of such a loop does with one field. */
  datatype Next<S> = Go(state: S, rest: bytes) | Return(state: S) | Throws

  type Step<!S> = (S, nat, nat, bytes) -> Next<S>

  /** Read a tag, act on it, until the bytes are used up; no step gives bytes back. */
  function Walk<S>(step: Step<S>, s: S, b: bytes): Option<S>
    decreases |b|
  {
    if |b| == 0 then Some(s)
    else
      var tag := ReadTag(b);
      match step(s, tag.0, tag.1, tag.2)
      case Throws => None
      case Return(result) => Some(result)
      case Go(next, rest) => if |rest| < |b| then Walk(step, next, rest) else None
  }

  function SkipOr<S>(s: S, wire: nat, b: bytes): Next<S> {
    var rest := Skip(wire, b);
    if rest.Some? then Go(s, rest.value) else Throws
  }

  // ── Writing ────────────────────────────────────────────────────────────────

  function Varint(n: nat): bytes {
    if n < 128 then [n] else [n % 128 + 128] + Varint(n / 128)
  }

  function Tag(field: nat, wire: nat): bytes {
    Varint(8 * field + wire)
  }

  function Chunk(b: bytes): bytes {
    Varint(|b|) + b
  }

  function LittleBytes(n: nat, width: nat): bytes {
    if width == 0 then [] else [n % 256] + LittleBytes(n / 256, width - 1)
  }

  datatype Payload = AsVarint(n: nat) | AsEight(b: bytes) | AsChunk(b: bytes) | AsFour(b: bytes)

  /** A field the reader of a message does not know. */
  datatype Unknown = Unknown(field: nat, payload: Payload)

  function Wire(p: Payload): nat {
    match p
    case AsVarint(_) => 0
    case AsEight(_) => 1
    case AsChunk(_) => 2
    case AsFour(_) => 5
  }

  predicate FieldOk(field: nat) {
    1 <= field < 0x2000_0000
  }

  predicate UnknownOk(u: Unknown) {
    FieldOk(u.field) && (u.payload.AsEight? ==> |u.payload.b| == 8) && (u.payload.AsFour? ==> |u.payload.b| == 4)
  }

  function PayloadBytes(p: Payload): bytes {
    match p
    case AsVarint(n) => Varint(n)
    case AsEight(b) => b
    case AsChunk(b) => Chunk(b)
    case AsFour(b) => b
  }

  function UnknownBytes(u: Unknown): bytes {
    Tag(u.field, Wire(u.payload)) + PayloadBytes(u.payload)
  }

  function Each<F>(enc: F -> bytes, fields: seq<F>): bytes {
    if |fields| == 0 then [] else Each(enc, fields[..|fields| - 1]) + enc(fields[|fields| - 1])
  }

  function Fold<S, F>(apply: (S, F) -> S, s: S, fields: seq<F>): S {
    if |fields| == 0 then s else apply(Fold(apply, s, fields[..|fields| - 1]), fields[|fields| - 1])
  }

  // ── What is on the wire ────────────────────────────────────────────────────

  /** n without its lowest i septets. */
  function Septets(n: nat, i: nat): nat {
    if i == 0 then n else Septets(n / 128, i - 1)
  }

  function Octets(n: nat, i: nat): nat {
    if i == 0 then n else Octets(n / 256, i - 1)
  }

  /** A varint holds n in septets, lowest first; all bytes but the last have the top bit set. */
  lemma {:induction false} VarintSeptets(n: nat, i: nat)
    requires i < |Varint(n)|
    ensures Varint(n)[i] % 128 == Septets(n, i) % 128
    ensures Varint(n)[i] >= 128 <==> i < |Varint(n)| - 1
    ensures Septets(n, |Varint(n)|) == 0
  {
    if n >= 128 {
      VarintSeptets(n / 128, if i > 0 then i - 1 else 0);
    } else {
      assert Septets(n, 1) == Septets(n / 128, 0);
    }
  }

  /** A fixed-width number is written lowest byte first. */
  lemma {:induction false} LittleOctets(n: nat, width: nat, i: nat)
    requires i < width
    ensures |LittleBytes(n, width)| == width && LittleBytes(n, width)[i] == Octets(n, i) % 256
    decreases width
  {
    if width > 1 {
      LittleOctets(n / 256, width - 1, if i > 0 then i - 1 else 0);
    }
  }

  /** A tag is the varint of a number: the field's, three bits further up, and the wire type below it. */
  lemma TagIsVarint(field: nat, wire: nat, m: nat)
    requires wire < 8 && m / 8 == field && m % 8 == wire
    ensures Tag(field, wire) == Varint(m)
  {
    assert m == 8 * field + wire;
  }

  // ── Each reader undoes its writer ──────────────────────────────────────────

  lemma {:induction false} VarintRoundTrip(n: nat, rest: bytes)
    ensures |Varint(n)| > 0 && ReadVarint(Varint(n) + rest) == (n, rest)
  {
    var b := Varint(n) + rest;
    if n < 128 {
      assert b[1..] == rest;
    } else {
      VarintRoundTrip(n / 128, rest);
      assert b[1..] == Varint(n / 128) + rest;
    }
  }

  lemma TagRoundTrip(field: nat, wire: nat, rest: bytes)
    requires FieldOk(field) && wire < 8
    ensures |Tag(field, wire)| > 0 && ReadTag(Tag(field, wire) + rest) == (field, wire, rest)
  {
    VarintRoundTrip(8 * field + wire, rest);
  }

  lemma ChunkRoundTrip(b: bytes, rest: bytes)
    ensures ReadBytes(Chunk(b) + rest) == (b, rest)
  {
    assert Chunk(b) + rest == Varint(|b|) + (b + rest);
    VarintRoundTrip(|b|, b + rest);
  }

  lemma {:induction false} LittleRoundTrip(n: nat, width: nat)
    requires n < Power256(width)
    ensures |LittleBytes(n, width)| == width && Little(LittleBytes(n, width)) == n
  {
    if width > 0 {
      LittleRoundTrip(n / 256, width - 1);
      assert LittleBytes(n, width)[1..] == LittleBytes(n / 256, width - 1);
    }
  }

  function Power256(n: nat): nat {
    if n == 0 then 1 else 256 * Power256(n - 1)
  }

  lemma FixedRoundTrip(n: nat, rest: bytes)
    requires n < Power256(8)
    ensures ReadFixed64(LittleBytes(n, 8) + rest) == Some((n, rest))
  {
    LittleRoundTrip(n, 8);
    var b := LittleBytes(n, 8) + rest;
    assert b[..8] == LittleBytes(n, 8) && b[8..] == rest;
  }

  lemma PayloadSkipped(u: Unknown, rest: bytes)
    requires UnknownOk(u)
    ensures Skip(Wire(u.payload), PayloadBytes(u.payload) + rest) == Some(rest)
  {
    match u.payload
    case AsVarint(n) => VarintRoundTrip(n, rest);
    case AsChunk(b) => ChunkRoundTrip(b, rest);
    case AsEight(b) => assert (b + rest)[8..] == rest;
    case AsFour(b) => assert (b + rest)[4..] == rest;
  }

  // ── A message is read back field by field ──────────────────────────────────

  /** Read from `field + rest`, the step takes the whole field and moves on to `next`. */
  ghost predicate Takes<S(!new)>(step: Step<S>, s: S, field: bytes, next: S) {
    |field| > 0 && forall rest: bytes :: TakesFrom(step, s, field, next, rest)
  }

  ghost predicate TakesFrom<S(!new)>(step: Step<S>, s: S, field: bytes, next: S, rest: bytes) {
    var tag := ReadTag(field + rest);
    step(s, tag.0, tag.1, tag.2) == Go(next, rest)
  }

  lemma TakeOne<S(!new)>(step: Step<S>, s: S, field: bytes, next: S, rest: bytes)
    requires Takes(step, s, field, next)
    ensures Walk(step, s, field + rest) == Walk(step, next, rest)
  {
    assert TakesFrom(step, s, field, next, rest);
  }

  lemma {:induction false} WalkFields<S(!new), F(!new)>(step: Step<S>, enc: F -> bytes, apply: (S, F) -> S, s: S, fields: seq<F>, tail: bytes)
    requires forall t, f :: f in fields ==> Takes(step, t, enc(f), apply(t, f))
    ensures Walk(step, s, Each(enc, fields) + tail) == Walk(step, Fold(apply, s, fields), tail)
  {
    if |fields| == 0 {
      assert Each(enc, fields) + tail == tail;
    } else {
      var before, last := fields[..|fields| - 1], fields[|fields| - 1];
      assert Each(enc, fields) + tail == Each(enc, before) + (enc(last) + tail);
      WalkFields(step, enc, apply, s, before, enc(last) + tail);
      TakeOne(step, Fold(apply, s, before), enc(last), apply(Fold(apply, s, before), last), tail);
    }
  }

  lemma WalkMessage<S(!new), F(!new)>(step: Step<S>, enc: F -> bytes, apply: (S, F) -> S, s: S, fields: seq<F>)
    requires forall t, f :: f in fields ==> Takes(step, t, enc(f), apply(t, f))
    ensures Walk(step, s, Each(enc, fields)) == Some(Fold(apply, s, fields))
  {
    WalkFields(step, enc, apply, s, fields, []);
    assert Each(enc, fields) + [] == Each(enc, fields);
  }

  /** A length-delimited field: the step sees its content. */
  lemma TakesChunk<S(!new)>(step: Step<S>, s: S, field: nat, content: bytes, next: S)
    requires FieldOk(field)
    requires forall b, rest :: ReadBytes(b) == (content, rest) ==> step(s, field, 2, b) == Go(next, rest)
    ensures Takes(step, s, Tag(field, 2) + Chunk(content), next)
  {
    TagRoundTrip(field, 2, []);
    forall rest: bytes ensures TakesFrom(step, s, Tag(field, 2) + Chunk(content), next, rest) {
      assert Tag(field, 2) + Chunk(content) + rest == Tag(field, 2) + (Chunk(content) + rest);
      TagRoundTrip(field, 2, Chunk(content) + rest);
      ChunkRoundTrip(content, rest);
    }
  }

  lemma TakesVarint<S(!new)>(step: Step<S>, s: S, field: nat, n: nat, next: S)
    requires FieldOk(field)
    requires forall b, rest :: ReadVarint(b) == (n, rest) ==> step(s, field, 0, b) == Go(next, rest)
    ensures Takes(step, s, Tag(field, 0) + Varint(n), next)
  {
    TagRoundTrip(field, 0, []);
    forall rest: bytes ensures TakesFrom(step, s, Tag(field, 0) + Varint(n), next, rest) {
      assert Tag(field, 0) + Varint(n) + rest == Tag(field, 0) + (Varint(n) + rest);
      TagRoundTrip(field, 0, Varint(n) + rest);
      VarintRoundTrip(n, rest);
    }
  }

  lemma TakesFixed<S(!new)>(step: Step<S>, s: S, field: nat, n: nat, next: S)
    requires FieldOk(field) && n < Power256(8)
    requires forall b, rest :: ReadFixed64(b) == Some((n, rest)) ==> step(s, field, 1, b) == Go(next, rest)
    ensures Takes(step, s, Tag(field, 1) + LittleBytes(n, 8), next)
  {
    TagRoundTrip(field, 1, []);
    forall rest: bytes ensures TakesFrom(step, s, Tag(field, 1) + LittleBytes(n, 8), next, rest) {
      assert Tag(field, 1) + LittleBytes(n, 8) + rest == Tag(field, 1) + (LittleBytes(n, 8) + rest);
      TagRoundTrip(field, 1, LittleBytes(n, 8) + rest);
      FixedRoundTrip(n, rest);
    }
  }

  /** An unknown field is passed over by every step that skips it. */
  lemma TakesUnknown<S(!new)>(step: Step<S>, s: S, u: Unknown)
    requires UnknownOk(u)
    requires forall b :: step(s, u.field, Wire(u.payload), b) == SkipOr(s, Wire(u.payload), b)
    ensures Takes(step, s, UnknownBytes(u), s)
  {
    var wire := Wire(u.payload);
    TagRoundTrip(u.field, wire, []);
    forall rest: bytes ensures TakesFrom(step, s, UnknownBytes(u), s, rest) {
      assert UnknownBytes(u) + rest == Tag(u.field, wire) + (PayloadBytes(u.payload) + rest);
      TagRoundTrip(u.field, wire, PayloadBytes(u.payload) + rest);
      PayloadSkipped(u, rest);
    }
  }

  // ── The reader ─────────────────────────────────────────────────────────────

  class ProtoReader {
    const buf: bytes
    var pos: nat

    constructor (buf: bytes)
      ensures this.buf == buf && pos == 0 && Rest() == buf
    {
      this.buf, pos := buf, 0;
    }

    function Rest(): (rest: bytes)
      reads this
      ensures |rest| == 0 <==> pos >= |buf|
    {
      Drop(buf, pos)
    }

    method Varint() returns (result: nat)
      modifies this`pos
      ensures (result, Rest()) == ReadVarint(old(Rest()))
    {
      result := 0;
      var factor: nat := 1;
      ghost var start := Rest();
      while pos < |buf|
        invariant ReadVarint(start).0 == Scaled(result, factor, ReadVarint(Rest()).0)
        invariant ReadVarint(start).1 == ReadVarint(Rest()).1
      {
        var next: nat := buf[pos];
        assert Rest()[0] == next && Rest()[1..] == Drop(buf, pos + 1);
        VarintStep(Rest(), next % 128, ReadVarint(Rest()[1..]).0);
        Distribute(result, factor, next % 128, ReadVarint(Rest()[1..]).0);
        pos := pos + 1;
        result := result + factor * (next % 128);
        if next < 128 {
          return;
        }
        factor := factor * 128;
      }
    }

    method Bytes() returns (slice: bytes)
      modifies this`pos
      ensures (slice, Rest()) == ReadBytes(old(Rest()))
    {
      var len := Varint();
      slice := Rest()[..Min(len, |Rest()|)];
      pos := pos + len;
    }

    method Fixed64LE() returns (result: Option<nat>)
      modifies this`pos
      ensures match ReadFixed64(old(Rest()))
              case None => result.None?
              case Some((n, rest)) => result == Some(n) && Rest() == rest
    {
      if pos + 8 > |buf| {
        return None;
      }
      result := Some(Little(buf[pos..pos + 8]));
      assert Rest()[..8] == buf[pos..pos + 8];
      pos := pos + 8;
    }

    method TagAt() returns (field: nat, wire: nat)
      modifies this`pos
      ensures (field, wire, Rest()) == ReadTag(old(Rest()))
      ensures |old(Rest())| > 0 ==> |Rest()| < |old(Rest())|
    {
      VarintShrinks(Rest());
      var tag := Varint();
      field, wire := tag % 0x1_0000_0000 / 8, tag % 8;
    }

    method SkipField(wire: nat) returns (status: Status)
      modifies this`pos
      ensures match Skip(wire, old(Rest()))
              case None => status.Threw?
              case Some(rest) => status.Success? && Rest() == rest
    {
      match wire {
        case 0 => var _ := Varint();
        case 1 => pos := pos + 8;
        case 2 => var _ := Bytes();
        case 5 => pos := pos + 4;
        case _ => return Threw;
      }
      return Success;
    }
  }
}
