/** The decoder as it is written: readers advanced field by field, buffers pushed, results collected. */
module OtlpDecoder {
  import opened Common
  import opened Protobuf
  import opened Otlp

  /** parseAnyValue; None when it throws. */
  method ParseAnyValue(buf: bytes) returns (result: Option<Value>)
    ensures result == ParseValue(buf)
  {
    var r := new ProtoReader(buf);
    while r.pos < |buf|
      invariant fresh(r) && r.buf == buf && Walk(StepValue, Undefined, r.Rest()) == ParseValue(buf)
      decreases |r.Rest()|
    {
      var field, wire := r.TagAt();
      if field == 1 {
        if wire == 2 {
          var text := r.Bytes();
          return Some(Text(text));
        }
      } else if field == 2 {
        if wire == 0 {
          var n := r.Varint();
          return Some(Flag(n != 0));
        }
      } else if field == 3 {
        if wire == 0 {
          var n := r.Varint();
          return Some(ToNumber(n));
        }
      } else {
        SkipShrinks(wire, r.Rest());
        var status := r.SkipField(wire);
        if status.Threw? {
          return None;
        }
      }
    }
    return Some(Undefined);
  }

  lemma SkipShrinks(wire: nat, b: bytes)
    ensures Skip(wire, b).Some? ==> |Skip(wire, b).value| <= |b|
    ensures |ReadVarint(b).1| <= |b| && |ReadBytes(b).1| <= |b|
  {
    VarintShrinks(b);
  }

  /** parseKeyValue: the pair is kept only if it has a key. */
  method ParseKeyValue(buf: bytes) returns (result: Option<Pair>)
    ensures result == ParsePair(buf)
  {
    var r := new ProtoReader(buf);
    var p := Pair(None, Undefined);
    while r.pos < |buf|
      invariant fresh(r) && r.buf == buf && Walk(StepKey, p, r.Rest()) == ParsePair(buf)
      decreases |r.Rest()|
    {
      var field, wire := r.TagAt();
      SkipShrinks(wire, r.Rest());
      if field == 1 && wire == 2 {
        var key := r.Bytes();
        p := p.(key := Some(key));
      } else if field == 2 && wire == 2 {
        var chunk := r.Bytes();
        var value := ParseAnyValue(chunk);
        if value.None? {
          return None;
        }
        p := p.(value := value.value);
      } else {
        var status := r.SkipField(wire);
        if status.Threw? {
          return None;
        }
      }
    }
    return Some(p);
  }

  method CollectAttributes(bufs: seq<bytes>) returns (result: Option<Attributes>)
    ensures result == Collect(bufs)
  {
    var attrs: Attributes := map[];
    for i := 0 to |bufs|
      invariant Collect(bufs[..i]) == Some(attrs)
    {
      assert bufs[..i + 1][..i] == bufs[..i];
      var pair := ParseKeyValue(bufs[i]);
      if pair.None? {
        CollectThrows(bufs, i + 1);
        return None;
      }
      if pair.value.key.Some? && pair.value.key.value != PROTO {
        attrs := attrs[pair.value.key.value := pair.value.value];
      }
    }
    assert bufs[..|bufs|] == bufs;
    return Some(attrs);
  }

  lemma {:induction false} CollectThrows(bufs: seq<bytes>, i: nat)
    requires i <= |bufs| && Collect(bufs[..i]).None?
    ensures Collect(bufs).None?
    decreases |bufs|
  {
    if i == |bufs| {
      assert bufs[..i] == bufs;
    } else {
      assert bufs[..|bufs| - 1][..i] == bufs[..i];
      CollectThrows(bufs[..|bufs| - 1], i);
    }
  }

  method ParseSpanMessage(buf: bytes) returns (result: Option<(Span<bytes>, Attributes)>)
    ensures result == ParseSpan(buf)
  {
    var r := new ProtoReader(buf);
    var span: Span<bytes> := EmptySpan();
    while r.pos < |buf|
      invariant fresh(r) && r.buf == buf && Walk(StepSpan, span, r.Rest()) == Walk(StepSpan, EmptySpan(), buf)
      decreases |r.Rest()|
    {
      var field, wire := r.TagAt();
      ghost var before, rest := span, r.Rest();
      SkipShrinks(wire, rest);
      var next := ReadSpanField(r, span, field, wire);
      if next.None? {
        return None;
      }
      span := next.value;
    }
    var attrs := CollectAttributes(span.attrs);
    return if attrs.None? then None else Some((span, attrs.value));
  }

  /** The switch of parseSpan. */
  method ReadSpanField(r: ProtoReader, span: Span<bytes>, field: nat, wire: nat) returns (next: Option<Span<bytes>>)
    modifies r`pos
    ensures match StepSpan(span, field, wire, old(r.Rest()))
            case Throws => next.None?
            case Return(_) => false
            case Go(s, rest) => next == Some(s) && r.Rest() == rest && |rest| <= |old(r.Rest())|
  {
    SkipShrinks(wire, r.Rest());
    if field == 6 {
      var kind := r.Varint();
      return Some(span.(kind := kind));
    }
    if field in {7, 8} {
      var ns := r.Fixed64LE();
      if ns.None? {
        return None;
      }
      return Some(if field == 7 then span.(startNs := ns.value) else span.(endNs := ns.value));
    }
    if field !in {1, 2, 4, 5, 9} {
      var status := r.SkipField(wire);
      return if status.Threw? then None else Some(span);
    }
    var chunk := r.Bytes();
    match field {
      case 1 => next := Some(span.(traceId := Some(chunk)));
      case 2 => next := Some(span.(spanId := Some(chunk)));
      case 4 => next := Some(span.(parentSpanId := Some(chunk)));
      case 5 => next := Some(span.(name := Some(chunk)));
      case _ => next := Some(span.(attrs := span.attrs + [chunk]));
    }
  }

  /** The spans of one ScopeSpans message, appended to the results. */
  method ReadScope(buf: bytes, found: seq<Result>, resource: Option<Value>) returns (result: Option<seq<Result>>)
    ensures result == ParseScope(found, buf, resource)
  {
    var r := new ProtoReader(buf);
    var results := found;
    while r.pos < |buf|
      invariant fresh(r) && r.buf == buf && Walk(ScopeStep(resource), results, r.Rest()) == ParseScope(found, buf, resource)
      decreases |r.Rest()|
    {
      var field, wire := r.TagAt();
      SkipShrinks(wire, r.Rest());
      if field != 2 || wire != 2 {
        var status := r.SkipField(wire);
        if status.Threw? {
          return None;
        }
        continue;
      }
      var chunk := r.Bytes();
      var span := ParseSpanMessage(chunk);
      if span.None? {
        return None;
      }
      var sessionId := OrElse(Session(span.value.1), resource);
      if sessionId.None? {
        assert results + [] == results;
        continue;
      }
      results := results + [Result(sessionId.value, EventOf(span.value.0, span.value.1))];
    }
    return Some(results);
  }

  method ReadResource(buf: bytes, attrs: seq<bytes>) returns (result: Option<seq<bytes>>)
    ensures result == Walk(StepResource, attrs, buf)
  {
    var r := new ProtoReader(buf);
    var bufs := attrs;
    while r.pos < |buf|
      invariant fresh(r) && r.buf == buf && Walk(StepResource, bufs, r.Rest()) == Walk(StepResource, attrs, buf)
      decreases |r.Rest()|
    {
      var field, wire := r.TagAt();
      SkipShrinks(wire, r.Rest());
      if field == 1 && wire == 2 {
        var chunk := r.Bytes();
        bufs := bufs + [chunk];
      } else {
        var status := r.SkipField(wire);
        if status.Threw? {
          return None;
        }
      }
    }
    return Some(bufs);
  }

  /** One ResourceSpans message: gather the buffers, then the resource's session, then the spans. */
  method ReadGroup(buf: bytes, found: seq<Result>) returns (result: Option<seq<Result>>)
    ensures result == ParseGroup(found, buf)
  {
    var g := GatherGroup(buf);
    if g.None? {
      return None;
    }
    var attrs := CollectAttributes(g.value.attrs);
    if attrs.None? {
      return None;
    }
    result := ReadScopes(g.value.scopes, found, Session(attrs.value));
  }

  method GatherGroup(buf: bytes) returns (result: Option<Group>)
    ensures result == Walk(StepGroup, Group([], []), buf)
  {
    var r := new ProtoReader(buf);
    var g := Group([], []);
    while r.pos < |buf|
      invariant fresh(r) && r.buf == buf && Walk(StepGroup, g, r.Rest()) == Walk(StepGroup, Group([], []), buf)
      decreases |r.Rest()|
    {
      var field, wire := r.TagAt();
      SkipShrinks(wire, r.Rest());
      if field == 1 && wire == 2 {
        var chunk := r.Bytes();
        var attrs := ReadResource(chunk, g.attrs);
        if attrs.None? {
          return None;
        }
        g := g.(attrs := attrs.value);
      } else if field == 2 && wire == 2 {
        var chunk := r.Bytes();
        g := g.(scopes := g.scopes + [chunk]);
      } else {
        var status := r.SkipField(wire);
        if status.Threw? {
          return None;
        }
      }
    }
    return Some(g);
  }

  method ReadScopes(bufs: seq<bytes>, found: seq<Result>, resource: Option<Value>) returns (result: Option<seq<Result>>)
    ensures result == ParseScopes(found, bufs, resource)
  {
    var results := found;
    for i := 0 to |bufs|
      invariant ParseScopes(found, bufs[..i], resource) == Some(results)
    {
      assert bufs[..i + 1][..i] == bufs[..i];
      var more := ReadScope(bufs[i], results, resource);
      if more.None? {
        ScopesThrow(found, bufs, i + 1, resource);
        return None;
      }
      results := more.value;
    }
    assert bufs[..|bufs|] == bufs;
    return Some(results);
  }

  lemma {:induction false} ScopesThrow(found: seq<Result>, bufs: seq<bytes>, i: nat, resource: Option<Value>)
    requires i <= |bufs| && ParseScopes(found, bufs[..i], resource).None?
    ensures ParseScopes(found, bufs, resource).None?
    decreases |bufs|
  {
    if i == |bufs| {
      assert bufs[..i] == bufs;
    } else {
      assert bufs[..|bufs| - 1][..i] == bufs[..i];
      ScopesThrow(found, bufs[..|bufs| - 1], i, resource);
    }
  }

  /** deserializeOtlpTraces; None when it throws. */
  method DeserializeOtlpTraces(raw: bytes) returns (result: Option<seq<Result>>)
    ensures result == Decode(raw)
  {
    var root := new ProtoReader(raw);
    var results: seq<Result> := [];
    while root.pos < |raw|
      invariant fresh(root) && root.buf == raw && Walk(StepRequest, results, root.Rest()) == Decode(raw)
      decreases |root.Rest()|
    {
      var field, wire := root.TagAt();
      SkipShrinks(wire, root.Rest());
      if field != 1 || wire != 2 {
        var status := root.SkipField(wire);
        if status.Threw? {
          return None;
        }
        continue;
      }
      var chunk := root.Bytes();
      var more := ReadGroup(chunk, results);
      if more.None? {
        return None;
      }
      results := more.value;
    }
    return Some(results);
  }
}
