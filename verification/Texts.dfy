/** Searching strings, and trimming them as JavaScript does. */
module Texts {
  import opened Common

  predicate OccursAt(text: string, pattern: string, i: nat) {
    i + |pattern| <= |text| && text[i..i + |pattern|] == pattern
  }

  /** text.indexOf(pattern, from). */
  function IndexOf(text: string, pattern: string, from: nat): (at: Option<nat>)
    ensures at.Some? ==> from <= at.value && OccursAt(text, pattern, at.value)
                         && forall i :: from <= i < at.value ==> !OccursAt(text, pattern, i)
    ensures at.None? ==> forall i :: from <= i ==> !OccursAt(text, pattern, i)
    decreases |text| - from
  {
    if from > |text| then None
    else if OccursAt(text, pattern, from) then Some(from)
    else IndexOf(text, pattern, from + 1)
  }

  /** The pattern occurs at `at` and nowhere before. */
  ghost predicate FirstAt(text: string, pattern: string, at: nat) {
    OccursAt(text, pattern, at) && forall i: nat :: i < at ==> !OccursAt(text, pattern, i)
  }

  ghost predicate Nowhere(text: string, pattern: string) {
    forall i: nat :: !OccursAt(text, pattern, i)
  }

  lemma IndexIs(text: string, pattern: string, at: nat)
    requires FirstAt(text, pattern, at)
    ensures IndexOf(text, pattern, 0) == Some(at)
  {
    var found := IndexOf(text, pattern, 0);
    assert found.Some?;
  }

  lemma IndexFound(text: string, pattern: string)
    ensures IndexOf(text, pattern, 0).Some? ==> FirstAt(text, pattern, IndexOf(text, pattern, 0).value)
    ensures IndexOf(text, pattern, 0).None? <==> Nowhere(text, pattern)
  {
  }

  predicate IsBlank(c: char) {
    c == ' ' || c == '\t'
  }

  /** What '.' does not match. */
  predicate IsLineEnd(c: char) {
    c == '\n' || c == '\r' || c == '\U{2028}' || c == '\U{2029}'
  }

  /** What trim() strips. */
  predicate IsSpace(c: char) {
    IsBlank(c) || IsLineEnd(c) || c == '\U{0B}' || c == '\U{0C}' || c == '\U{A0}' || c == '\U{1680}'
    || '\U{2000}' <= c <= '\U{200A}' || c == '\U{202F}' || c == '\U{205F}' || c == '\U{3000}' || c == '\U{FEFF}'
  }

  function TrimStart(s: string): string {
    if |s| > 0 && IsSpace(s[0]) then TrimStart(s[1..]) else s
  }

  function TrimEnd(s: string): string {
    if |s| > 0 && IsSpace(s[|s| - 1]) then TrimEnd(s[..|s| - 1]) else s
  }

  function Trim(s: string): string {
    TrimEnd(TrimStart(s))
  }

  /** t is what trimming must leave of s: nothing but white space is gone, and none is left at either end. */
  ghost predicate IsTrimmed(s: string, t: string) {
    (t != "" ==> !IsSpace(t[0]) && !IsSpace(t[|t| - 1]))
    && exists i: nat :: CutsOut(s, t, i)
  }

  predicate CutsOut(s: string, t: string, i: nat) {
    i + |t| <= |s| && s[i..i + |t|] == t
    && forall k :: 0 <= k < |s| && (k < i || i + |t| <= k) ==> IsSpace(s[k])
  }

  lemma {:induction false} TrimStartIs(s: string)
    ensures |TrimStart(s)| <= |s| && TrimStart(s) == s[|s| - |TrimStart(s)|..]
    ensures forall k :: 0 <= k < |s| - |TrimStart(s)| ==> IsSpace(s[k])
    ensures TrimStart(s) != "" ==> !IsSpace(TrimStart(s)[0])
  {
    if |s| > 0 && IsSpace(s[0]) {
      TrimStartIs(s[1..]);
      forall k | 0 < k < |s| - |TrimStart(s)| ensures IsSpace(s[k]) {
        assert s[k] == s[1..][k - 1];
      }
    }
  }

  lemma {:induction false} TrimEndIs(s: string)
    ensures |TrimEnd(s)| <= |s| && TrimEnd(s) == s[..|TrimEnd(s)|]
    ensures forall k :: |TrimEnd(s)| <= k < |s| ==> IsSpace(s[k])
    ensures TrimEnd(s) != "" ==> !IsSpace(TrimEnd(s)[|TrimEnd(s)| - 1])
  {
    if |s| > 0 && IsSpace(s[|s| - 1]) {
      TrimEndIs(s[..|s| - 1]);
    }
  }

  /** Trimming cuts the text out of the white space around it. */
  lemma TrimIs(s: string)
    ensures IsTrimmed(s, Trim(s))
  {
    TrimStartIs(s);
    var rest := TrimStart(s);
    TrimEndIs(rest);
    var i: nat, t := |s| - |rest|, Trim(s);
    forall k | 0 <= k < |s| && (k < i || i + |t| <= k) ensures IsSpace(s[k]) {
      if k >= i {
        assert s[k] == rest[k - i];
      }
    }
    assert CutsOut(s, t, i);
  }

  predicate OneLine(s: string) {
    forall i :: 0 <= i < |s| ==> !IsLineEnd(s[i])
  }

  lemma {:induction false} TrimStartFacts(s: string)
    ensures TrimStart(s) != "" ==> !IsSpace(TrimStart(s)[0])
    ensures OneLine(s) ==> OneLine(TrimStart(s))
  {
    if |s| > 0 && IsSpace(s[0]) {
      TrimStartFacts(s[1..]);
    }
  }

  lemma {:induction false} TrimEndFacts(s: string)
    ensures |TrimEnd(s)| <= |s| && TrimEnd(s) == s[..|TrimEnd(s)|]
    ensures |s| > 0 && !IsSpace(s[0]) ==> |TrimEnd(s)| > 0
  {
    if |s| > 0 && IsSpace(s[|s| - 1]) {
      TrimEndFacts(s[..|s| - 1]);
    }
  }

  lemma TrimFacts(s: string)
    ensures Trim(s) != "" ==> !IsSpace(Trim(s)[0])
    ensures OneLine(s) ==> OneLine(Trim(s))
  {
    TrimStartFacts(s);
    TrimEndFacts(TrimStart(s));
  }

  lemma {:induction false} TrimEndTwice(s: string)
    ensures TrimEnd(TrimEnd(s)) == TrimEnd(s)
  {
    if |s| > 0 && IsSpace(s[|s| - 1]) {
      TrimEndTwice(s[..|s| - 1]);
    }
  }

  /** What is trimmed stays as it is. */
  lemma TrimTwice(s: string)
    ensures Trim(Trim(s)) == Trim(s)
  {
    TrimFacts(s);
    TrimEndTwice(TrimStart(s));
  }
}
