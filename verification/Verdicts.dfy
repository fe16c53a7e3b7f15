/**
 * Recovering a JSON verdict from model prose (agent.utility.ts): the brace
 * scanner, the fences it starts from, and what they find for every JSON object.
 */
module Verdicts {
  import opened Common
  import opened JsonText
  import opened Texts

  // ── The scanner ────────────────────────────────────────────────────────────

  datatype Scan = Scan(depth: int, inString: bool, escape: bool)

  const OUTSIDE := Scan(0, false, false)

  function Feed(s: Scan, ch: char): Scan {
    if s.escape then s.(escape := false)
    else if ch == '\\' && s.inString then s.(escape := true)
    else if ch == '"' then s.(inString := !s.inString)
    else if s.inString then s
    else if ch == '{' then s.(depth := s.depth + 1)
    else if ch == '}' then s.(depth := s.depth - 1)
    else s
  }

  /** This character closes the outermost brace. */
  predicate Closes(s: Scan, ch: char) {
    !s.escape && !s.inString && ch == '}' && s.depth == 1
  }

  /** Where the scan has come to after all of `text`; None when the object closed on the way. */
  function Through(s: Scan, text: string): Option<Scan>
    decreases |text|
  {
    if |text| == 0 then Some(s)
    else if Closes(s, text[0]) then None
    else Through(Feed(s, text[0]), text[1..])
  }

  /** Length of the shortest beginning of `text` that closes the object. */
  function Closing(s: Scan, text: string): Option<nat>
    decreases |text|
  {
    if |text| == 0 then None
    else if Closes(s, text[0]) then Some(1)
    else
      var rest := Closing(Feed(s, text[0]), text[1..]);
      if rest.Some? then Some(rest.value + 1) else None
  }

  /** indexOf('{'). */
  function FirstBrace(text: string): Option<nat> {
    if |text| == 0 then None
    else if text[0] == '{' then Some(0)
    else
      var rest := FirstBrace(text[1..]);
      if rest.Some? then Some(rest.value + 1) else None
  }

  /** Where the first complete object starts and how long it is. */
  function FirstSpan(text: string): Option<(nat, nat)> {
    match FirstBrace(text)
    case None => None
    case Some(start) =>
      if start > |text| then None
      else
        match Closing(OUTSIDE, text[start..])
        case None => None
        case Some(length) => Some((start, length))
  }

  function FirstObject(text: string): Option<string> {
    match FirstSpan(text)
    case None => None
    case Some((start, length)) => if start + length <= |text| then Some(text[start..start + length]) else None
  }

  lemma {:induction false} FirstBraceIs(text: string)
    ensures FirstBrace(text).None? ==> forall i :: 0 <= i < |text| ==> text[i] != '{'
    ensures FirstBrace(text).Some? ==> var b := FirstBrace(text).value;
                                       b < |text| && text[b] == '{' && forall i :: 0 <= i < b ==> text[i] != '{'
  {
    if |text| > 0 && text[0] != '{' {
      FirstBraceIs(text[1..]);
      assert forall i :: 1 <= i < |text| ==> text[i] == text[1..][i - 1];
    }
  }

  lemma {:induction false} ClosingFits(s: Scan, text: string)
    ensures Closing(s, text).Some? ==> 1 <= Closing(s, text).value <= |text|
    decreases |text|
  {
    if |text| > 0 && !Closes(s, text[0]) {
      ClosingFits(Feed(s, text[0]), text[1..]);
    }
  }

  lemma {:induction false} ThroughThen(s: Scan, a: string, b: string)
    ensures Through(s, a + b) == (match Through(s, a) case None => None case Some(mid) => Through(mid, b))
    ensures Through(s, a).Some? ==>
              Closing(s, a + b) == (match Closing(Through(s, a).value, b)
                                    case None => None
                                    case Some(n) => Some(|a| + n))
    ensures Closing(s, a).None? <==> Through(s, a).Some?
    ensures Closing(s, a).Some? ==> Closing(s, a + b) == Closing(s, a)
    decreases |a|
  {
    if |a| == 0 {
      assert a + b == b;
    } else {
      assert (a + b)[1..] == a[1..] + b;
      if !Closes(s, a[0]) {
        ThroughThen(Feed(s, a[0]), a[1..], b);
      }
    }
  }

  /** extractFirstJsonObject. */
  method ExtractFirstJsonObject(text: string) returns (found: Option<string>)
    ensures found == FirstObject(text)
  {
    var start := 0;
    while start < |text| && text[start] != '{'
      invariant 0 <= start <= |text|
      invariant FirstBrace(text) == (var rest := FirstBrace(text[start..]); if rest.Some? then Some(rest.value + start) else None)
    {
      start := start + 1;
    }
    if start == |text| {
      return None;
    }
    var depth, inString, escape := 0, false, false;
    var i := start;
    while i < |text|
      invariant start <= i <= |text|
      invariant Closing(OUTSIDE, text[start..]) == (
                  var rest := Closing(Scan(depth, inString, escape), text[i..]);
                  if rest.Some? then Some(rest.value + (i - start)) else None)
    {
      var ch := text[i];
      assert text[i..][1..] == text[i + 1..];
      i := i + 1;
      if escape {
        escape := false;
        continue;
      }
      if ch == '\\' && inString {
        escape := true;
        continue;
      }
      if ch == '"' {
        inString := !inString;
        continue;
      }
      if inString {
        continue;
      }
      if ch == '{' {
        depth := depth + 1;
      } else if ch == '}' {
        depth := depth - 1;
        if depth == 0 {
          return Some(text[start..i]);
        }
      }
    }
    return None;
  }

  // ── Every JSON text is balanced ────────────────────────────────────────────

  /** No backtick stands right before a line break, here or across the end. */
  predicate Unticked(text: string) {
    (forall i :: 0 <= i < |text| - 1 && text[i] == '`' ==> text[i + 1] != '\n')
    && (|text| > 0 ==> text[|text| - 1] != '`')
  }

  /** The scan passes over `text` and is where it was; no fence line can begin in it. */
  predicate Quiet(d: nat, text: string) {
    Through(Scan(d, false, false), text) == Some(Scan(d, false, false)) && Unticked(text)
  }

  predicate Unbraced(text: string) {
    forall i :: 0 <= i < |text| ==> text[i] !in "{}\"`"
  }

  lemma UntickedThen(a: string, b: string)
    requires Unticked(a) && Unticked(b)
    ensures Unticked(a + b)
  {
    forall i | 0 <= i < |a + b| - 1 && (a + b)[i] == '`' ensures (a + b)[i + 1] != '\n' {
      if i >= |a| {
        assert b[i - |a|] == '`';
      }
    }
  }

  lemma {:induction false} UnbracedQuiet(d: nat, text: string)
    requires Unbraced(text)
    ensures Quiet(d, text)
  {
    if |text| > 0 {
      assert text[0] !in "{}\"`" && text[|text| - 1] !in "{}\"`";
      UnbracedQuiet(d, text[1..]);
    }
  }

  lemma QuietThen(d: nat, a: string, b: string)
    requires Quiet(d, a) && Quiet(d, b)
    ensures Quiet(d, a + b)
  {
    ThroughThen(Scan(d, false, false), a, b);
    UntickedThen(a, b);
  }

  lemma {:induction false} CharsStayInside(d: nat, chars: seq<StrChar>)
    requires StrOk(chars)
    ensures Through(Scan(d, true, false), CharsText(chars)) == Some(Scan(d, true, false))
  {
    if |chars| > 0 {
      CharsStayInside(d, chars[1..]);
      CharStaysInside(d, chars[0]);
      ThroughThen(Scan(d, true, false), CharText(chars[0]), CharsText(chars[1..]));
    }
  }

  lemma CharStaysInside(d: nat, u: StrChar)
    requires StrCharOk(u)
    ensures Through(Scan(d, true, false), CharText(u)) == Some(Scan(d, true, false))
  {
    var inside := Scan(d, true, false);
    match u
    case Unescaped(c) =>
      assert Through(inside, [c]) == Through(Feed(inside, c), [c][1..]);
    case Escape(c) =>
      assert ['\\', c][1..] == [c];
      assert Through(inside, ['\\', c]) == Through(inside.(escape := true), [c]);
    case Unicode(hex) =>
      ThroughThen(inside, "\\u", hex);
      assert "\\u"[1..] == "u";
      HexStaysInside(d, hex);
  }

  lemma {:induction false} HexStaysInside(d: nat, hex: string)
    requires forall i :: 0 <= i < |hex| ==> IsHex(hex[i])
    ensures Through(Scan(d, true, false), hex) == Some(Scan(d, true, false))
  {
    if |hex| > 0 {
      assert IsHex(hex[0]);
      HexStaysInside(d, hex[1..]);
    }
  }

  lemma {:induction false} CharsHaveNoBreak(chars: seq<StrChar>)
    requires StrOk(chars)
    ensures forall i :: 0 <= i < |CharsText(chars)| ==> CharsText(chars)[i] != '\n'
  {
    if |chars| > 0 {
      CharsHaveNoBreak(chars[1..]);
      assert StrCharOk(chars[0]);
    }
  }

  lemma QuotedQuiet(d: nat, chars: seq<StrChar>)
    requires StrOk(chars)
    ensures Quiet(d, Quoted(chars))
  {
    CharsStayInside(d, chars);
    ThroughThen(Scan(d, false, false), "\"", CharsText(chars) + "\"");
    ThroughThen(Scan(d, true, false), CharsText(chars), "\"");
    CharsHaveNoBreak(chars);
    assert forall i :: 0 <= i < |Quoted(chars)| ==> Quoted(chars)[i] != '\n';
  }

  lemma NumberQuiet(d: nat, n: Number)
    requires NumberOk(n)
    ensures Quiet(d, NumberText(n))
  {
    forall i | 0 <= i < |n.exp| ensures n.exp[i] !in "{}\"`" {
      if i >= 2 {
        assert n.exp[i] == n.exp[1..][i - 1] == n.exp[2..][i - 2];
      } else if i == 1 && Digits(n.exp[1..]) {
        assert n.exp[1] == n.exp[1..][0];
      }
    }
    forall i | 1 <= i < |n.frac| ensures n.frac[i] !in "{}\"`" {
      assert n.frac[i] == n.frac[1..][i - 1];
    }
    UnbracedQuiet(d, NumberText(n));
  }

  /** Inside an object, a value leaves the scanner where it was, at any depth. */
  lemma {:induction false} ValueQuiet(d: nat, v: Json)
    requires JsonOk(v) && d >= 1
    ensures Quiet(d, Text(v))
    decreases v, 0
  {
    match v
    case Literal(word) => UnbracedQuiet(d, word);
    case Num(number) => NumberQuiet(d, number);
    case Str(chars) => QuotedQuiet(d, chars);
    case Arr(gap, items) => ArrayQuiet(d, gap, items);
    case Obj(gap, members) => ObjectQuiet(d, gap, members);
  }

  lemma {:induction false} ArrayQuiet(d: nat, gap: string, items: Items)
    requires Blank(gap) && ItemsOk(items) && d >= 1
    ensures Quiet(d, "[" + (gap + (ItemsText(items) + "]")))
    decreases items, 1
  {
    ItemsQuiet(d, items);
    UnbracedQuiet(d, gap);
    QuietThen(d, gap, ItemsText(items));
    BracketsQuiet(d, gap, ItemsText(items));
  }

  lemma {:induction false} ObjectQuiet(d: nat, gap: string, members: Members)
    requires Blank(gap) && MembersOk(members) && d >= 1
    ensures Quiet(d, "{" + (gap + (MembersText(members) + "}")))
    decreases members, 2
  {
    BodyQuiet(d + 1, gap, members);
    BracesQuiet(d, gap, MembersText(members));
  }

  lemma BracketsQuiet(d: nat, gap: string, inner: string)
    requires Quiet(d, gap + inner)
    ensures Quiet(d, "[" + (gap + (inner + "]")))
  {
    var body := gap + inner;
    Regroup(gap, inner, "]");
    UnbracedQuiet(d, "[");
    UnbracedQuiet(d, "]");
    QuietThen(d, body, "]");
    QuietThen(d, "[", body + "]");
  }

  lemma Regroup(a: string, b: string, c: string)
    ensures a + (b + c) == (a + b) + c
  {
  }

  lemma BracesQuiet(d: nat, gap: string, inner: string)
    requires Quiet(d + 1, gap + inner) && d >= 1
    ensures Quiet(d, "{" + (gap + (inner + "}")))
  {
    var body := gap + inner;
    Regroup(gap, inner, "}");
    BracesThrough(d, body, "}");
    ThroughThen(Scan(d + 1, false, false), body, "}");
    assert "}"[1..] == "";
    assert Through(Scan(d + 1, false, false), "}") == Through(Scan(d, false, false), "");
    UntickedThen(body, "}");
    UntickedThen("{", body + "}");
  }

  lemma BracesThrough(d: nat, body: string, rest: string)
    ensures Through(Scan(d, false, false), "{" + (body + rest)) == Through(Scan(d + 1, false, false), body + rest)
    ensures Closing(Scan(d, false, false), "{" + (body + rest))
            == (match Closing(Scan(d + 1, false, false), body + rest) case None => None case Some(n) => Some(n + 1))
  {
    assert ("{" + (body + rest))[1..] == body + rest;
  }

  lemma {:induction false} BodyQuiet(d: nat, gap: string, members: Members)
    requires Blank(gap) && MembersOk(members) && d >= 1
    ensures Quiet(d, gap + MembersText(members))
    decreases members, 1
  {
    UnbracedQuiet(d, gap);
    MembersQuiet(d, members);
    QuietThen(d, gap, MembersText(members));
  }

  lemma {:induction false} ItemsQuiet(d: nat, items: Items)
    requires ItemsOk(items) && d >= 1
    ensures Quiet(d, ItemsText(items))
    decreases items, 0
  {
    if items.Item? {
      var tail := if items.rest.NoItems? then "" else "," + ItemsText(items.rest);
      ItemsQuiet(d, items.rest);
      UnbracedQuiet(d, ",");
      QuietThen(d, ",", ItemsText(items.rest));
      ValueQuiet(d, items.value);
      PaddedQuiet(d, items.before, Text(items.value), items.after, tail);
    }
  }

  lemma PaddedQuiet(d: nat, before: string, value: string, after: string, tail: string)
    requires Blank(before) && Quiet(d, value) && Blank(after) && Quiet(d, tail)
    ensures Quiet(d, before + (value + (after + tail)))
  {
    UnbracedQuiet(d, before);
    UnbracedQuiet(d, after);
    QuietThen(d, after, tail);
    QuietThen(d, value, after + tail);
    QuietThen(d, before, value + (after + tail));
  }

  lemma {:induction false} MembersQuiet(d: nat, members: Members)
    requires MembersOk(members) && d >= 1
    ensures Quiet(d, MembersText(members))
    decreases members, 0
  {
    if members.Member? {
      var tail := if members.rest.NoMembers? then "" else "," + MembersText(members.rest);
      MembersQuiet(d, members.rest);
      UnbracedQuiet(d, ",");
      QuietThen(d, ",", MembersText(members.rest));
      ValueQuiet(d, members.value);
      PaddedQuiet(d, members.mid2, Text(members.value), members.after, tail);
      var value := members.mid2 + (Text(members.value) + (members.after + tail));
      NamedQuiet(d, members.before, members.name, members.mid, value);
    }
  }

  lemma NamedQuiet(d: nat, before: string, name: seq<StrChar>, mid: string, value: string)
    requires Blank(before) && StrOk(name) && Blank(mid) && Quiet(d, value)
    ensures Quiet(d, before + (Quoted(name) + (mid + (":" + value))))
  {
    UnbracedQuiet(d, ":");
    UnbracedQuiet(d, mid);
    UnbracedQuiet(d, before);
    QuotedQuiet(d, name);
    QuietThen(d, ":", value);
    QuietThen(d, mid, ":" + value);
    QuietThen(d, Quoted(name), mid + (":" + value));
    QuietThen(d, before, Quoted(name) + (mid + (":" + value)));
  }

  // ── What the scanner finds ─────────────────────────────────────────────────

  /** The scan of an object text closes with its last character, whatever follows. */
  lemma ObjectCloses(o: Json, suffix: string)
    requires JsonOk(o) && o.Obj?
    ensures Closing(OUTSIDE, Text(o) + suffix) == Some(|Text(o)|)
  {
    var body := o.gap + MembersText(o.members);
    BodyQuiet(1, o.gap, o.members);
    Regroup(o.gap, MembersText(o.members), "}");
    assert Text(o) == "{" + (body + "}");
    BodyCloses(body, suffix);
  }

  lemma BodyCloses(body: string, suffix: string)
    requires Quiet(1, body)
    ensures Closing(OUTSIDE, "{" + (body + "}") + suffix) == Some(|body| + 2)
  {
    assert "{" + (body + "}") + suffix == "{" + (body + ("}" + suffix));
    BracesThrough(0, body, "}" + suffix);
    ThroughThen(Scan(1, false, false), body, "}" + suffix);
    ClosesAtOnce(suffix);
  }

  lemma ClosesAtOnce(suffix: string)
    ensures Closing(Scan(1, false, false), "}" + suffix) == Some(1)
  {
  }

  /** No proper beginning of it closes anything. */
  lemma TruncatedStaysOpen(o: Json, k: nat)
    requires JsonOk(o) && o.Obj? && k < |Text(o)|
    ensures Closing(OUTSIDE, Text(o)[..k]) == None
  {
    var body := o.gap + MembersText(o.members);
    BodyQuiet(1, o.gap, o.members);
    assert Text(o) == "{" + (body + "}");
    if k > 0 {
      assert Text(o)[..k] == "{" + body[..k - 1];
      BodyStaysOpen(body, k - 1);
    }
  }

  lemma BodyStaysOpen(body: string, n: nat)
    requires Quiet(1, body) && n <= |body|
    ensures Closing(OUTSIDE, "{" + body[..n]) == None
  {
    assert body == body[..n] + body[n..];
    ThroughThen(Scan(1, false, false), body[..n], body[n..]);
    assert body[..n] + "" == body[..n];
    BracesThrough(0, body[..n], "");
  }

  lemma {:induction false} FirstBraceAfter(prefix: string, rest: string)
    requires '{' !in prefix
    ensures FirstBrace(prefix + rest) == (match FirstBrace(rest) case None => None case Some(b) => Some(|prefix| + b))
  {
    if |prefix| == 0 {
      assert prefix + rest == rest;
    } else {
      assert (prefix + rest)[1..] == prefix[1..] + rest;
      FirstBraceAfter(prefix[1..], rest);
    }
  }

  /** Text without a brace in front changes nothing. */
  lemma ProseIsSkipped(prefix: string, rest: string)
    requires '{' !in prefix
    ensures FirstObject(prefix + rest) == FirstObject(rest)
  {
    FirstBraceAfter(prefix, rest);
    FirstBraceIs(rest);
    if FirstBrace(rest).Some? {
      ObjectAt(prefix, rest, FirstBrace(rest).value);
    }
  }

  /** The object found from the brace at b, if it closes. */
  function ObjectFrom(text: string, b: nat): Option<string>
    requires b <= |text|
  {
    match Closing(OUTSIDE, text[b..])
    case None => None
    case Some(n) => if b + n <= |text| then Some(text[b..b + n]) else None
  }

  lemma FirstObjectIs(text: string, b: nat)
    requires b < |text| && FirstBrace(text) == Some(b)
    ensures FirstObject(text) == ObjectFrom(text, b)
  {
  }

  lemma ObjectAt(prefix: string, rest: string, b: nat)
    requires b < |rest| && FirstBrace(rest) == Some(b) && FirstBrace(prefix + rest) == Some(|prefix| + b)
    ensures FirstObject(prefix + rest) == FirstObject(rest)
  {
    FirstObjectIs(rest, b);
    FirstObjectIs(prefix + rest, |prefix| + b);
    SameObject(prefix, rest, b);
  }

  lemma SameObject(prefix: string, rest: string, b: nat)
    requires b <= |rest|
    ensures ObjectFrom(prefix + rest, |prefix| + b) == ObjectFrom(rest, b)
  {
    var all, at := prefix + rest, |prefix| + b;
    assert all[at..] == rest[b..];
    ClosingFits(OUTSIDE, rest[b..]);
    if Closing(OUTSIDE, rest[b..]).Some? {
      var n := Closing(OUTSIDE, rest[b..]).value;
      assert all[at..at + n] == rest[b..b + n];
    }
  }

  /**
   * Between any prefix and any suffix, the scanner finds exactly the object's text
   * if and only if the prefix has no opening brace.
   */
  lemma RecoveredExactly(prefix: string, o: Json, suffix: string)
    requires JsonOk(o) && o.Obj?
    ensures FirstSpan(prefix + Text(o) + suffix) == Some((|prefix|, |Text(o)|)) <==> '{' !in prefix
    ensures '{' !in prefix ==> FirstObject(prefix + Text(o) + suffix) == Some(Text(o))
  {
    ObjectCloses(o, suffix);
    assert Text(o)[0] == '{';
    Regroup(prefix, Text(o), suffix);
    SpanBehind(prefix, Text(o), suffix);
  }

  /** A text that starts with a brace and closes, behind some prose. */
  lemma SpanBehind(prefix: string, braced: string, suffix: string)
    requires |braced| > 0 && braced[0] == '{' && Closing(OUTSIDE, braced + suffix) == Some(|braced|)
    ensures FirstSpan(prefix + (braced + suffix)) == Some((|prefix|, |braced|)) <==> '{' !in prefix
    ensures '{' !in prefix ==> FirstObject(prefix + (braced + suffix)) == Some(braced)
  {
    var rest := braced + suffix;
    if '{' !in prefix {
      FirstBraceAfter(prefix, rest);
      assert (prefix + rest)[|prefix|..] == rest;
      assert (prefix + rest)[|prefix|..|prefix| + |braced|] == braced;
    } else {
      FirstBraceIs(prefix + rest);
      var i :| 0 <= i < |prefix| && prefix[i] == '{';
      assert (prefix + rest)[i] == '{';
    }
  }

  /** Truncated output is never taken for a verdict. */
  lemma TruncatedIsNull(prefix: string, o: Json, k: nat)
    requires JsonOk(o) && o.Obj? && k < |Text(o)| && '{' !in prefix
    ensures FirstObject(prefix + Text(o)[..k]) == None
  {
    ProseIsSkipped(prefix, Text(o)[..k]);
    TruncatedStaysOpen(o, k);
    FirstBraceIs(Text(o)[..k]);
    if k > 0 {
      assert Text(o)[..k][0] == '{';
      assert Text(o)[..k][0..] == Text(o)[..k];
    }
  }

  // ── Fences ─────────────────────────────────────────────────────────────────

  const JSON_FENCE := "```json"
  const PLAIN_FENCE := "```\n"

  function DropBlanks(text: string): string {
    if |text| > 0 && text[0] in " \t" then DropBlanks(text[1..]) else text
  }

  /** replace(/^```json[ \t]*\n?/, ''). */
  function AfterJsonFence(text: string): string
    requires OccursAt(text, JSON_FENCE, 0)
  {
    var rest := DropBlanks(text[|JSON_FENCE|..]);
    if |rest| > 0 && rest[0] == '\n' then rest[1..] else rest
  }

  function Listed(found: Option<string>): seq<string> {
    if found.Some? then [found.value] else []
  }

  function FencedCandidate(text: string): Option<string> {
    var fence := IndexOf(text, JSON_FENCE, 0);
    if fence.None? then None else FirstObject(AfterJsonFence(text[fence.value..]))
  }

  function PlainCandidate(text: string): Option<string> {
    var fence := IndexOf(text, PLAIN_FENCE, 0);
    if fence.None? then None else FirstObject(text[fence.value + |PLAIN_FENCE|..])
  }

  /** The first candidate that parses. */
  function FirstParsed<V>(candidates: seq<string>, parse: string -> Option<V>): Option<V> {
    if |candidates| == 0 then None
    else if parse(Trim(candidates[0])).Some? then parse(Trim(candidates[0]))
    else FirstParsed(candidates[1..], parse)
  }

  function JsonBlock<V>(text: string, parse: string -> Option<V>): Option<V> {
    FirstParsed(Listed(FencedCandidate(text)) + Listed(PlainCandidate(text)) + Listed(FirstObject(text)), parse)
  }

  /** What a candidate parses to, without the white space around it. */
  function Parsed<V>(candidate: Option<string>, parse: string -> Option<V>): Option<V> {
    if candidate.Some? then parse(Trim(candidate.value)) else None
  }

  /** The three candidates in turn: one that is missing or does not parse leaves it to the next. */
  lemma BlockFallsThrough<V>(text: string, parse: string -> Option<V>)
    ensures var fenced, plain := Parsed(FencedCandidate(text), parse), Parsed(PlainCandidate(text), parse);
            JsonBlock(text, parse) == if fenced.Some? then fenced else if plain.Some? then plain else Parsed(FirstObject(text), parse)
  {
    var a, b, c := Listed(FencedCandidate(text)), Listed(PlainCandidate(text)), Listed(FirstObject(text));
    ParsedBefore(a, b + c, parse);
    ParsedBefore(b, c, parse);
    ParsedBefore(c, [], parse);
    assert a + b + c == a + (b + c) && c + [] == c;
  }

  lemma ParsedBefore<V>(first: seq<string>, rest: seq<string>, parse: string -> Option<V>)
    requires |first| <= 1
    ensures FirstParsed(first + rest, parse)
            == if first != [] && parse(Trim(first[0])).Some? then parse(Trim(first[0])) else FirstParsed(rest, parse)
  {
    if first == [] {
      assert first + rest == rest;
    } else {
      assert (first + rest)[1..] == rest;
    }
  }

  /** extractJsonBlock; `parse` is JSON.parse, None where it throws. */
  method ExtractJsonBlock<V>(text: string, parse: string -> Option<V>) returns (result: Option<V>)
    ensures result == JsonBlock(text, parse)
  {
    var candidates: seq<string> := [];
    var fence := IndexOf(text, JSON_FENCE, 0);
    if fence.Some? {
      var afterFence := AfterJsonFence(text[fence.value..]);
      var obj := ExtractFirstJsonObject(afterFence);
      if obj.Some? {
        candidates := candidates + [obj.value];
      }
    }
    assert candidates == Listed(FencedCandidate(text));
    var plain := IndexOf(text, PLAIN_FENCE, 0);
    if plain.Some? {
      var obj := ExtractFirstJsonObject(text[plain.value + |PLAIN_FENCE|..]);
      if obj.Some? {
        candidates := candidates + [obj.value];
      }
    }
    assert candidates == Listed(FencedCandidate(text)) + Listed(PlainCandidate(text));
    var obj := ExtractFirstJsonObject(text);
    if obj.Some? {
      candidates := candidates + [obj.value];
    }
    assert candidates == Listed(FencedCandidate(text)) + Listed(PlainCandidate(text)) + Listed(FirstObject(text));
    result := ParseFirst(candidates, parse);
  }

  method ParseFirst<V>(candidates: seq<string>, parse: string -> Option<V>) returns (result: Option<V>)
    ensures result == FirstParsed(candidates, parse)
  {
    for i := 0 to |candidates|
      invariant FirstParsed(candidates, parse) == FirstParsed(candidates[i..], parse)
    {
      assert candidates[i..][1..] == candidates[i + 1..];
      result := parse(Trim(candidates[i]));
      if result.Some? {
        return;
      }
    }
    return None;
  }

  // ── The verdict behind a fence ─────────────────────────────────────────────

  lemma {:induction false} BlanksAreSkipped(text: string)
    ensures FirstObject(DropBlanks(text)) == FirstObject(text)
  {
    if |text| > 0 && text[0] in " \t" {
      BlanksAreSkipped(text[1..]);
      assert text == [text[0]] + text[1..];
      ProseIsSkipped([text[0]], text[1..]);
    }
  }

  lemma AfterFenceFinds(text: string)
    requires OccursAt(text, JSON_FENCE, 0)
    ensures FirstObject(AfterJsonFence(text)) == FirstObject(text[|JSON_FENCE|..])
  {
    var behind := text[|JSON_FENCE|..];
    BlanksAreSkipped(behind);
    var rest := DropBlanks(behind);
    if |rest| > 0 && rest[0] == '\n' {
      assert rest == "\n" + rest[1..];
      ProseIsSkipped("\n", rest[1..]);
    }
  }

  lemma ObjectTextIsTrimmed(o: Json)
    requires o.Obj?
    ensures Trim(Text(o)) == Text(o)
  {
    var text := Text(o);
    assert text[0] == '{';
    assert text == ("{" + o.gap + MembersText(o.members)) + "}";
    assert text[|text| - 1] == '}';
  }

  /** A fence that first occurs at the end of `before` is still the first in anything longer. */
  lemma FenceStaysFirst(before: string, rest: string, fence: string)
    requires |before| >= |fence| && IndexOf(before, fence, 0) == Some(|before| - |fence|)
    ensures IndexOf(before + rest, fence, 0) == Some(|before| - |fence|)
  {
    var at := |before| - |fence|;
    OccursWithin(before, rest, fence, at);
    forall i: nat | i < at ensures !OccursAt(before + rest, fence, i) {
      OccursWithin(before, rest, fence, i);
    }
  }

  lemma OccursWithin(before: string, rest: string, pattern: string, i: nat)
    requires i + |pattern| <= |before|
    ensures OccursAt(before + rest, pattern, i) <==> OccursAt(before, pattern, i)
  {
    assert (before + rest)[i..i + |pattern|] == before[i..i + |pattern|];
  }

  /** The fenced candidate is the first object behind the first ```json fence. */
  lemma FenceLooksBehind(before: string, rest: string)
    requires |before| >= |JSON_FENCE| && IndexOf(before, JSON_FENCE, 0) == Some(|before| - |JSON_FENCE|)
    ensures FencedCandidate(before + rest) == FirstObject(rest)
  {
    var text := before + rest;
    var at := |before| - |JSON_FENCE|;
    FenceStaysFirst(before, rest, JSON_FENCE);
    assert text[at..][|JSON_FENCE|..] == rest;
    assert text[at..][0..|JSON_FENCE|] == text[at..at + |JSON_FENCE|];
    AfterFenceFinds(text[at..]);
  }

  /**
   * A verdict after the first ```json fence is recovered, whatever braces, quotes
   * and fences stand before it, inside its strings, or after it.
   */
  lemma FencedVerdictRecovered<V>(before: string, gap: string, o: Json, after: string, parse: string -> Option<V>)
    requires |before| >= |JSON_FENCE| && IndexOf(before, JSON_FENCE, 0) == Some(|before| - |JSON_FENCE|)
    requires '{' !in gap && JsonOk(o) && o.Obj? && parse(Text(o)).Some?
    ensures JsonBlock(before + (gap + Text(o) + after), parse) == parse(Text(o))
  {
    FenceLooksBehind(before, gap + Text(o) + after);
    RecoveredExactly(gap, o, after);
    ObjectTextIsTrimmed(o);
  }

  /** With no ```json fence at all, the same holds of the first plain fence. */
  lemma PlainFenceRecovered<V>(before: string, gap: string, o: Json, after: string, parse: string -> Option<V>)
    requires |before| >= |PLAIN_FENCE| && IndexOf(before, PLAIN_FENCE, 0) == Some(|before| - |PLAIN_FENCE|)
    requires IndexOf(before + (gap + Text(o) + after), JSON_FENCE, 0).None?
    requires '{' !in gap && JsonOk(o) && o.Obj? && parse(Text(o)).Some?
    ensures JsonBlock(before + (gap + Text(o) + after), parse) == parse(Text(o))
  {
    var rest := gap + Text(o) + after;
    var text := before + rest;
    FenceStaysFirst(before, rest, PLAIN_FENCE);
    assert text[|before|..] == rest;
    RecoveredExactly(gap, o, after);
    ObjectTextIsTrimmed(o);
    assert PlainCandidate(text) == Some(Text(o)) && FencedCandidate(text) == None;
  }

  /** With no fence, the first object of the text is the verdict if no brace stands before it. */
  lemma UnfencedVerdictRecovered<V>(before: string, o: Json, after: string, parse: string -> Option<V>)
    requires IndexOf(before + Text(o) + after, JSON_FENCE, 0).None? && IndexOf(before + Text(o) + after, PLAIN_FENCE, 0).None?
    requires '{' !in before && JsonOk(o) && o.Obj? && parse(Text(o)).Some?
    ensures JsonBlock(before + Text(o) + after, parse) == parse(Text(o))
  {
    RecoveredExactly(before, o, after);
    ObjectTextIsTrimmed(o);
  }

  /** A fence line cannot begin in a JSON text: backticks live in strings, line breaks outside them. */
  lemma NoFenceInside(head: string, o: Json, k: nat)
    requires JsonOk(o) && o.Obj? && k < |Text(o)| && IndexOf(head, PLAIN_FENCE, 0).None?
    ensures IndexOf(head + Text(o)[..k], PLAIN_FENCE, 0).None?
  {
    var json := Text(o);
    ValueQuiet(1, o);
    assert json[0] == '{';
    var text := head + json[..k];
    forall i: nat ensures !OccursAt(text, PLAIN_FENCE, i) {
      if i + 4 <= |head| {
        assert !OccursAt(head, PLAIN_FENCE, i);
        assert text[i..i + 4] == head[i..i + 4];
      } else if i + 4 <= |text| {
        assert text[i + 3] == json[i + 3 - |head|];
        assert i + 2 >= |head| ==> text[i + 2] == json[i + 2 - |head|];
        NotAFence(text, i);
      }
    }
  }

  lemma NotAFence(text: string, i: nat)
    requires i + 4 <= |text| && (text[i + 2] == '`' ==> text[i + 3] != '\n')
    ensures !OccursAt(text, PLAIN_FENCE, i)
  {
    var here := text[i..i + 4];
    assert here[2] == text[i + 2] && here[3] == text[i + 3];
    assert PLAIN_FENCE[2] == '`' && PLAIN_FENCE[3] == '\n';
  }

  /** A verdict that breaks off, behind its fence, yields nothing rather than a part of it. */
  lemma TruncatedFencedIsNull<V>(head: string, o: Json, k: nat, parse: string -> Option<V>)
    requires '{' !in head && IndexOf(head, JSON_FENCE, 0).Some? && IndexOf(head, PLAIN_FENCE, 0).None?
    requires JsonOk(o) && o.Obj? && k < |Text(o)|
    ensures JsonBlock(head + Text(o)[..k], parse) == None
  {
    var rest := Text(o)[..k];
    var text := head + rest;
    var at := IndexOf(head, JSON_FENCE, 0).value;
    var behind := head[at + |JSON_FENCE|..];
    FirstFenceEnds(head, at);
    assert head == head[..at + |JSON_FENCE|] + behind;
    Regroup(head[..at + |JSON_FENCE|], behind, rest);
    FenceLooksBehind(head[..at + |JSON_FENCE|], behind + rest);
    TruncatedIsNull(behind, o, k);
    TruncatedIsNull(head, o, k);
    NoFenceInside(head, o, k);
  }

  lemma FirstFenceEnds(head: string, at: nat)
    requires IndexOf(head, JSON_FENCE, 0) == Some(at)
    ensures IndexOf(head[..at + |JSON_FENCE|], JSON_FENCE, 0) == Some(at)
  {
    var cut := head[..at + |JSON_FENCE|];
    assert cut[at..at + |JSON_FENCE|] == head[at..at + |JSON_FENCE|];
    assert OccursAt(cut, JSON_FENCE, at);
    forall i: nat | i < at ensures !OccursAt(cut, JSON_FENCE, i) {
      assert !OccursAt(head, JSON_FENCE, i);
      assert cut[i..i + |JSON_FENCE|] == head[i..i + |JSON_FENCE|];
    }
  }
}
