/**
 * JSON texts as RFC 8259 writes them: a concrete syntax tree, whitespace and
 * escapes included, and the text it stands for.
 */
module JsonText {
  /** A character of a string literal (section 7 of RFC 8259). */
  datatype StrChar = Unescaped(c: char) | Escape(c: char) | Unicode(hex: string)

  datatype Number = Number(minus: bool, digits: string, frac: string, exp: string)

  datatype Json =
    | Literal(word: string)
    | Num(number: Number)
    | Str(chars: seq<StrChar>)
    | Arr(gap: string, items: Items)
    | Obj(gap: string, members: Members)

  /** Whitespace may stand around every token (section 2). */
  datatype Items = NoItems | Item(before: string, value: Json, after: string, rest: Items)
  datatype Members =
    | NoMembers
    | Member(before: string, name: seq<StrChar>, mid: string, mid2: string, value: Json, after: string, rest: Members)

  // ── Well-formedness ────────────────────────────────────────────────────────

  predicate Blank(s: string) {
    forall i :: 0 <= i < |s| ==> s[i] in " \t\n\r"
  }

  predicate Digits(s: string) {
    |s| > 0 && forall i :: 0 <= i < |s| ==> '0' <= s[i] <= '9'
  }

  predicate IsHex(c: char) {
    '0' <= c <= '9' || 'a' <= c <= 'f' || 'A' <= c <= 'F'
  }

  predicate StrCharOk(u: StrChar) {
    match u
    case Unescaped(c) => c >= ' ' && c != '"' && c != '\\'
    case Escape(c) => c in "\"\\/bfnrt"
    case Unicode(hex) => |hex| == 4 && forall i :: 0 <= i < 4 ==> IsHex(hex[i])
  }

  predicate StrOk(chars: seq<StrChar>) {
    forall i :: 0 <= i < |chars| ==> StrCharOk(chars[i])
  }

  /** Section 6: no leading zero, a fraction and an exponent are optional. */
  predicate NumberOk(n: Number) {
    Digits(n.digits) && (n.digits[0] == '0' ==> |n.digits| == 1)
    && (n.frac == "" || (n.frac[0] == '.' && Digits(n.frac[1..])))
    && (n.exp == "" || (n.exp[0] in "eE" && (Digits(n.exp[1..]) || (|n.exp| > 1 && n.exp[1] in "+-" && Digits(n.exp[2..])))))
  }

  predicate JsonOk(v: Json) {
    match v
    case Literal(word) => word in {"null", "true", "false"}
    case Num(number) => NumberOk(number)
    case Str(chars) => StrOk(chars)
    case Arr(gap, items) => Blank(gap) && ItemsOk(items)
    case Obj(gap, members) => Blank(gap) && MembersOk(members)
  }

  predicate ItemsOk(items: Items) {
    match items
    case NoItems => true
    case Item(before, value, after, rest) => Blank(before) && JsonOk(value) && Blank(after) && ItemsOk(rest)
  }

  predicate MembersOk(members: Members) {
    match members
    case NoMembers => true
    case Member(before, name, mid, mid2, value, after, rest) =>
      Blank(before) && StrOk(name) && Blank(mid) && Blank(mid2) && JsonOk(value) && Blank(after) && MembersOk(rest)
  }

  // ── The text ───────────────────────────────────────────────────────────────

  function CharText(u: StrChar): string {
    match u
    case Unescaped(c) => [c]
    case Escape(c) => ['\\', c]
    case Unicode(hex) => "\\u" + hex
  }

  function CharsText(chars: seq<StrChar>): string {
    if |chars| == 0 then "" else CharText(chars[0]) + CharsText(chars[1..])
  }

  function Quoted(chars: seq<StrChar>): string {
    "\"" + (CharsText(chars) + "\"")
  }

  function NumberText(n: Number): string {
    (if n.minus then "-" else "") + n.digits + n.frac + n.exp
  }

  function Text(v: Json): string {
    match v
    case Literal(word) => word
    case Num(number) => NumberText(number)
    case Str(chars) => Quoted(chars)
    case Arr(gap, items) => "[" + (gap + (ItemsText(items) + "]"))
    case Obj(gap, members) => "{" + (gap + (MembersText(members) + "}"))
  }

  function ItemsText(items: Items): string {
    match items
    case NoItems => ""
    case Item(before, value, after, rest) =>
      before + (Text(value) + (after + (if rest.NoItems? then "" else "," + ItemsText(rest))))
  }

  function MembersText(members: Members): string {
    match members
    case NoMembers => ""
    case Member(before, name, mid, mid2, value, after, rest) =>
      before + (Quoted(name) + (mid + (":" + (mid2 + (Text(value) + (after + (
        if rest.NoMembers? then "" else "," + MembersText(rest))))))))
  }
}
