/**
 * A file of two sections under their headers (persist_state), and what reading it
 * back makes of it: each header is looked for as a string, anywhere.
 */
module Sections {
  import opened Common
  import opened Texts
  import opened Findings

  /** The text of the two sections, as _write puts it together. */
  function Write(h1: string, h2: string, first: string, second: string): string {
    h1 + "\n" + first + "\n\n" + h2 + "\n" + second + "\n"
  }

  /** _split: the second section is whatever follows the first h2, the first what follows the first h1 before it. */
  function Read(h1: string, h2: string, text: string): (string, string) {
    var at := IndexOf(text, h2, 0);
    var head := if at.Some? && at.value <= |text| then text[..at.value] else text;
    var second := if at.Some? && at.value + |h2| <= |text| then Strip(text[at.value + |h2|..]) else "";
    var from := IndexOf(head, h1, 0);
    (if from.Some? && from.value + |h1| <= |head| then Strip(head[from.value + |h1|..]) else "", second)
  }

  /** Of any text: what stands behind the first second header, and behind the first first header before it. */
  lemma ReadIs(h1: string, h2: string, text: string, head: string, second: string)
    requires if Nowhere(text, h2) then head == text && second == ""
             else exists at: nat :: FirstAt(text, h2, at) && head == text[..at] && second == Strip(text[at + |h2|..])
    ensures Read(h1, h2, text).1 == second
    ensures Nowhere(head, h1) ==> Read(h1, h2, text).0 == ""
    ensures forall k: nat :: FirstAt(head, h1, k) ==> Read(h1, h2, text).0 == Strip(head[k + |h1|..])
  {
    IndexFound(text, h2);
    IndexFound(head, h1);
    if !Nowhere(text, h2) {
      var at: nat :| FirstAt(text, h2, at) && head == text[..at] && second == Strip(text[at + |h2|..]);
      IndexIs(text, h2, at);
    }
    forall k: nat | FirstAt(head, h1, k) ensures Read(h1, h2, text).0 == Strip(head[k + |h1|..]) {
      IndexIs(head, h1, k);
    }
  }

  predicate GoodHeaders(h1: string, h2: string) {
    h1 != "" && h2 != "" && '\n' !in h1 && '\n' !in h2 && IndexOf(h1, h2, 0).None?
  }

  // ── Searching line by line ─────────────────────────────────────────────────

  predicate IsPattern(pattern: string) {
    '\n' !in pattern && pattern != ""
  }

  /** A pattern without a line break lies within a line. */
  lemma OccursInLines(a: string, b: string, text: string, pattern: string, i: nat)
    requires text == a + "\n" + b && IsPattern(pattern)
    ensures OccursAt(text, pattern, i) <==> OccursAt(a, pattern, i) || (i > |a| && OccursAt(b, pattern, i - |a| - 1))
  {
    if i + |pattern| <= |a| {
      assert text[i..i + |pattern|] == a[i..i + |pattern|];
    } else if i <= |a| && i + |pattern| <= |text| {
      assert text[i..i + |pattern|][|a| - i] == '\n';
    } else if i > |a| && i + |pattern| <= |text| {
      var j := i - |a| - 1;
      assert text[i..i + |pattern|] == b[j..j + |pattern|];
    }
  }

  lemma FirstLineHasIt(a: string, b: string, text: string, pattern: string, at: nat)
    requires text == a + "\n" + b && IsPattern(pattern) && FirstAt(a, pattern, at)
    ensures FirstAt(text, pattern, at)
  {
    OccursInLines(a, b, text, pattern, at);
    forall i: nat | i < at ensures !OccursAt(text, pattern, i) {
      OccursInLines(a, b, text, pattern, i);
    }
  }

  lemma OtherLinesHaveIt(a: string, b: string, text: string, pattern: string, at: nat)
    requires text == a + "\n" + b && IsPattern(pattern) && Nowhere(a, pattern) && FirstAt(b, pattern, at)
    ensures FirstAt(text, pattern, |a| + 1 + at)
  {
    OccursThere(a, b, text, pattern, at);
    forall i: nat | i < |a| + 1 + at ensures !OccursAt(text, pattern, i) {
      NotEarlier(a, b, text, pattern, at, i);
    }
  }

  lemma OccursThere(a: string, b: string, text: string, pattern: string, at: nat)
    requires text == a + "\n" + b && IsPattern(pattern) && OccursAt(b, pattern, at)
    ensures OccursAt(text, pattern, |a| + 1 + at)
  {
    var i := |a| + 1 + at;
    OccursInLines(a, b, text, pattern, i);
    assert i - |a| - 1 == at;
  }

  lemma NotEarlier(a: string, b: string, text: string, pattern: string, at: nat, i: nat)
    requires text == a + "\n" + b && IsPattern(pattern) && Nowhere(a, pattern) && FirstAt(b, pattern, at) && i < |a| + 1 + at
    ensures !OccursAt(text, pattern, i)
  {
    OccursInLines(a, b, text, pattern, i);
    assert !OccursAt(a, pattern, i);
    if i > |a| {
      var j: nat := i - |a| - 1;
      assert !OccursAt(b, pattern, j);
    }
  }

  lemma StartsWithIt(header: string, rest: string, text: string)
    requires text == header + rest
    ensures FirstAt(text, header, 0)
  {
    assert text[0..|header|] == header;
  }

  // ── Reading back what was written ──────────────────────────────────────────

  /** The file line by line: h1, the first section, an empty line, h2 and what follows it. */
  predicate IsFile(h1: string, h2: string, first: string, tail: string, text: string, below: string, rest: string) {
    below == "" + "\n" + (h2 + tail) && rest == first + "\n" + below && text == h1 + "\n" + rest
  }

  lemma HeaderOnItsLine(h2: string, tail: string, below: string)
    requires IsPattern(h2) && below == "" + "\n" + (h2 + tail)
    ensures FirstAt(below, h2, 1)
  {
    StartsWithIt(h2, tail, h2 + tail);
    OtherLinesHaveIt("", h2 + tail, below, h2, 0);
  }

  lemma HeaderInFirst(h1: string, h2: string, first: string, tail: string, text: string, below: string, rest: string, p: nat)
    requires IsPattern(h2) && Nowhere(h1, h2) && IsFile(h1, h2, first, tail, text, below, rest) && FirstAt(first, h2, p)
    ensures FirstAt(text, h2, |h1| + 1 + p)
  {
    FirstLineHasIt(first, below, rest, h2, p);
    OtherLinesHaveIt(h1, rest, text, h2, p);
  }

  lemma HeaderBehindFirst(h1: string, h2: string, first: string, tail: string, text: string, below: string, rest: string)
    requires IsPattern(h2) && Nowhere(h1, h2) && IsFile(h1, h2, first, tail, text, below, rest) && Nowhere(first, h2)
    ensures FirstAt(text, h2, |h1| + 1 + (|first| + 2))
  {
    HeaderOnItsLine(h2, tail, below);
    OtherLinesHaveIt(first, below, rest, h2, 1);
    OtherLinesHaveIt(h1, rest, text, h2, |first| + 2);
  }

  lemma WriteIsFile(h1: string, h2: string, first: string, second: string)
    ensures var tail := "\n" + second + "\n";
            var below := "" + "\n" + (h2 + tail);
            IsFile(h1, h2, first, tail, Write(h1, h2, first, second), below, first + "\n" + below)
  {
  }

  /** A text cut at the second header. */
  lemma ReadAt(h1: string, h2: string, text: string, head: string, behind: string)
    requires text == h1 + head + h2 + behind && FirstAt(text, h2, |h1| + |head|)
    ensures Read(h1, h2, text) == (Strip(head), Strip(behind))
  {
    IndexIs(text, h2, |h1| + |head|);
    var at := |h1| + |head|;
    assert text[..at] == h1 + head && text[at + |h2|..] == behind;
    StartsWithIt(h1, head, h1 + head);
    IndexIs(h1 + head, h1, 0);
    assert (h1 + head)[|h1|..] == head;
  }

  lemma ReadWhole(h1: string, h2: string, first: string, second: string)
    requires GoodHeaders(h1, h2) && Stripped(first) && first != "" && Stripped(second) && second != ""
    requires IndexOf(first, h2, 0).None?
    ensures Read(h1, h2, Write(h1, h2, first, second)) == (first, second)
  {
    var text, tail := Write(h1, h2, first, second), "\n" + second + "\n";
    WriteIsFile(h1, h2, first, second);
    var below := "" + "\n" + (h2 + tail);
    IndexFound(h1, h2);
    IndexFound(first, h2);
    HeaderBehindFirst(h1, h2, first, tail, text, below, first + "\n" + below);
    var head := "\n" + first + "\n\n";
    WholeText(h1, h2, first, second, text, head, tail);
    ReadAt(h1, h2, text, head, tail);
    StripAround("\n", first, "\n\n");
    StripAround("\n", second, "\n");
  }

  lemma WholeText(h1: string, h2: string, first: string, second: string, text: string, head: string, tail: string)
    requires text == Write(h1, h2, first, second) && head == "\n" + first + "\n\n" && tail == "\n" + second + "\n"
    ensures text == h1 + head + h2 + tail
  {
  }

  /** What is read of a first section that is cut at p, and what is taken for the second then. */
  function UpTo(first: string, p: nat): string
    requires p <= |first|
  {
    Strip(first[..p])
  }

  function Spilled(h2: string, first: string, p: nat, second: string): string
    requires p + |h2| <= |first|
  {
    Strip(first[p + |h2|..] + ("\n\n" + h2 + "\n" + second + "\n"))
  }

  lemma CutText(h1: string, h2: string, first: string, p: nat, second: string, text: string, head: string, behind: string)
    requires OccursAt(first, h2, p) && text == Write(h1, h2, first, second)
    requires head == "\n" + first[..p] && behind == first[p + |h2|..] + ("\n\n" + h2 + "\n" + second + "\n")
    ensures text == h1 + head + h2 + behind
  {
    assert first == first[..p] + h2 + first[p + |h2|..];
  }

  lemma HeaderInWritten(h1: string, h2: string, first: string, second: string, text: string, p: nat)
    requires GoodHeaders(h1, h2) && IndexOf(first, h2, 0) == Some(p) && text == Write(h1, h2, first, second)
    ensures FirstAt(text, h2, |h1| + 1 + p)
  {
    var tail := "\n" + second + "\n";
    var below := "" + "\n" + (h2 + tail);
    WriteIsFile(h1, h2, first, second);
    IndexFound(h1, h2);
    IndexFound(first, h2);
    HeaderInFirst(h1, h2, first, tail, text, below, first + "\n" + below, p);
  }

  lemma ReadCut(h1: string, h2: string, first: string, second: string, p: nat)
    requires GoodHeaders(h1, h2) && IndexOf(first, h2, 0) == Some(p) && p + |h2| <= |first|
    ensures Read(h1, h2, Write(h1, h2, first, second)) == (UpTo(first, p), Spilled(h2, first, p, second))
  {
    IndexFound(first, h2);
    HeaderInWritten(h1, h2, first, second, Write(h1, h2, first, second), p);
    CutRead(h1, h2, first, second, p, Write(h1, h2, first, second));
  }

  lemma CutRead(h1: string, h2: string, first: string, second: string, p: nat, text: string)
    requires OccursAt(first, h2, p) && text == Write(h1, h2, first, second) && FirstAt(text, h2, |h1| + 1 + p)
    ensures Read(h1, h2, text) == (UpTo(first, p), Spilled(h2, first, p, second))
  {
    var head, behind := "\n" + first[..p], first[p + |h2|..] + ("\n\n" + h2 + "\n" + second + "\n");
    CutText(h1, h2, first, p, second, text, head, behind);
    ReadAt(h1, h2, text, head, behind);
    StripSkipsBreak(first[..p], head);
  }

  lemma StripSkipsBreak(s: string, t: string)
    requires t == "\n" + s
    ensures Strip(t) == Strip(s)
  {
    assert t[1..] == s;
  }

  lemma UpToIsShorter(first: string, p: nat)
    requires p < |first|
    ensures UpTo(first, p) != first
  {
    LStripIs(first[..p]);
    RStripIs(LStrip(first[..p]));
  }

  /**
   * Reading back what was written gives the first section, and both, if and only if the
   * second header does not occur in the first section.
   */
  lemma ReadGivesBackExactly(h1: string, h2: string, first: string, second: string)
    requires GoodHeaders(h1, h2) && Stripped(first) && first != "" && Stripped(second) && second != ""
    ensures Read(h1, h2, Write(h1, h2, first, second)).0 == first <==> IndexOf(first, h2, 0).None?
    ensures Read(h1, h2, Write(h1, h2, first, second)) == (first, second) <==> IndexOf(first, h2, 0).None?
  {
    var p := IndexOf(first, h2, 0);
    if p.Some? {
      ReadCut(h1, h2, first, second, p.value);
      UpToIsShorter(first, p.value);
    } else {
      ReadWhole(h1, h2, first, second);
    }
  }
}
