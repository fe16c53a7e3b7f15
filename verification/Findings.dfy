/**
 * The Findings section of PROGRESS.md (persist_state), as text: entries begin where a
 * line looks like "### 12.", and a text over the budget loses whole entries from the
 * front.
 */
module Findings {
  import opened Common

  const SEPARATOR := "\n\n"
  const MARKER := "_…older findings trimmed…_"
  const BUDGET: int := 50_000

  /** What stands before a trimmed text. */
  const LEAD := MARKER + SEPARATOR

  // ── Stripping ──────────────────────────────────────────────────────────────

  /** What strip() takes. */
  predicate IsWhite(c: char) {
    '\t' <= c <= '\r' || '\U{1C}' <= c <= ' ' || c == '\U{85}' || c == '\U{A0}' || c == '\U{1680}'
    || '\U{2000}' <= c <= '\U{200A}' || c == '\U{2028}' || c == '\U{2029}' || c == '\U{202F}' || c == '\U{205F}' || c == '\U{3000}'
  }

  predicate AllWhite(s: string) {
    forall i :: 0 <= i < |s| ==> IsWhite(s[i])
  }

  function LStrip(s: string): string {
    if |s| > 0 && IsWhite(s[0]) then LStrip(s[1..]) else s
  }

  function RStrip(s: string): string {
    if |s| > 0 && IsWhite(s[|s| - 1]) then RStrip(s[..|s| - 1]) else s
  }

  function Strip(s: string): string {
    RStrip(LStrip(s))
  }

  /** Nothing to strip on either side. */
  predicate Stripped(s: string) {
    s == "" || (!IsWhite(s[0]) && !IsWhite(s[|s| - 1]))
  }

  lemma {:induction false} LStripIs(s: string)
    ensures LStrip(s) == "" || !IsWhite(LStrip(s)[0])
    ensures |LStrip(s)| <= |s| && LStrip(s) == s[|s| - |LStrip(s)|..]
  {
    if |s| > 0 && IsWhite(s[0]) {
      LStripIs(s[1..]);
    }
  }

  lemma {:induction false} RStripIs(s: string)
    ensures |RStrip(s)| <= |s| && RStrip(s) == s[..|RStrip(s)|] && AllWhite(s[|RStrip(s)|..])
    ensures RStrip(s) == "" || !IsWhite(RStrip(s)[|RStrip(s)| - 1])
  {
    if |s| > 0 && IsWhite(s[|s| - 1]) {
      var shorter := s[..|s| - 1];
      RStripIs(shorter);
      var n := |RStrip(shorter)|;
      forall i | 0 <= i < |s| - n ensures IsWhite(s[n..][i]) {
        if i < |s| - 1 - n {
          assert shorter[n..][i] == s[n..][i];
        }
      }
    }
  }

  lemma StripIs(s: string)
    ensures Stripped(Strip(s))
    ensures Stripped(s) ==> Strip(s) == s
  {
    LStripIs(s);
    RStripIs(LStrip(s));
  }

  /** White space around a stripped text is what strip() takes. */
  lemma {:induction false} StripAround(before: string, s: string, after: string)
    requires AllWhite(before) && Stripped(s) && AllWhite(after) && s != ""
    ensures Strip(before + s + after) == s
    decreases |before| + |after|
  {
    var all := before + s + after;
    if |before| > 0 {
      assert all[1..] == before[1..] + s + after;
      StripAround(before[1..], s, after);
    } else {
      assert all[0] == s[0];
      RStripBehind(s, after);
      assert all == s + after;
    }
  }

  lemma {:induction false} RStripBehind(s: string, after: string)
    requires AllWhite(after) && (s == "" || !IsWhite(s[|s| - 1]))
    ensures RStrip(s + after) == s
  {
    if |after| > 0 {
      assert (s + after)[..|s + after| - 1] == s + after[..|after| - 1];
      RStripBehind(s, after[..|after| - 1]);
    } else {
      assert s + after == s;
    }
  }

  lemma {:induction false} StripWhite(s: string)
    requires AllWhite(s)
    ensures Strip(s) == ""
  {
    if |s| > 0 {
      StripWhite(s[1..]);
    }
  }

  // ── Where entries begin ────────────────────────────────────────────────────

  function DigitRun(s: string): nat {
    if |s| > 0 && '0' <= s[0] <= '9' then 1 + DigitRun(s[1..]) else 0
  }

  /** "### ", digits, ".": what the entry expression matches at the start of a line. */
  predicate EntryHead(s: string) {
    |s| > 4 && s[..4] == "### "
    && var digits := DigitRun(s[4..]);
       digits >= 1 && digits < |s| - 4 && s[4 + digits] == '.'
  }

  /** An entry starts at i, as far as the expression can tell. */
  predicate IsStart(text: string, i: nat) {
    i < |text| && (i == 0 || text[i - 1] == '\n') && EntryHead(text[i..])
  }

  /** At i stands "### ", a number of d digits and a dot. */
  predicate IsHeadAt(text: string, i: nat, d: nat) {
    d >= 1 && i + 4 + d < |text| && text[i..i + 4] == "### " && text[i + 4 + d] == '.'
    && AllDigits(text[i + 4..i + 4 + d])
  }

  lemma {:induction false} DigitRunIs(s: string, d: nat)
    requires d < |s| && !('0' <= s[d] <= '9')
    ensures DigitRun(s) == d <==> AllDigits(s[..d])
  {
    if d > 0 && '0' <= s[0] <= '9' {
      DigitRunIs(s[1..], d - 1);
      assert s[..d] == [s[0]] + s[1..][..d - 1];
    }
  }

  predicate AllDigits(s: string) {
    forall k :: 0 <= k < |s| ==> '0' <= s[k] <= '9'
  }

  /** An entry starts exactly where a line begins with such a heading. */
  lemma StartsExactly(text: string, i: nat)
    ensures IsStart(text, i) <==> i < |text| && (i == 0 || text[i - 1] == '\n') && exists d: nat :: IsHeadAt(text, i, d)
  {
    if i < |text| {
      var s := text[i..];
      if EntryHead(s) {
        var d := DigitRun(s[4..]);
        DigitRunIs(s[4..], d);
        assert s[..4] == text[i..i + 4] && s[4..][..d] == text[i + 4..i + 4 + d];
        assert IsHeadAt(text, i, d);
      }
      if d: nat :| IsHeadAt(text, i, d) {
        assert s[..4] == text[i..i + 4] && s[4..][d] == text[i + 4 + d] && s[4..][..d] == text[i + 4..i + 4 + d];
        DigitRunIs(s[4..], d);
      }
    }
  }

  function FirstStart(text: string, from: nat): (at: Option<nat>)
    ensures at.Some? ==> from <= at.value && IsStart(text, at.value) && forall i :: from <= i < at.value ==> !IsStart(text, i)
    ensures at.None? ==> forall i :: from <= i ==> !IsStart(text, i)
    decreases |text| - from
  {
    if from >= |text| then None
    else if IsStart(text, from) then Some(from)
    else FirstStart(text, from + 1)
  }

  function LastStart(text: string, below: nat): (at: Option<nat>)
    ensures at.Some? ==> at.value < below && IsStart(text, at.value) && forall i :: at.value < i < below ==> !IsStart(text, i)
    ensures at.None? ==> forall i: nat :: i < below ==> !IsStart(text, i)
  {
    if below == 0 then None
    else if IsStart(text, below - 1) then Some(below - 1)
    else LastStart(text, below - 1)
  }

  ghost predicate HasStart(text: string) {
    exists i: nat :: IsStart(text, i)
  }

  // ── Trimming ───────────────────────────────────────────────────────────────

  /** From i on the text fits behind the lead. */
  predicate Fits(lead: string, text: string, i: nat) {
    |lead| + |text| - i <= BUDGET
  }

  /** The earliest entry whose tail fits, else the last one; 0 when there is none. */
  function KeptFrom(lead: string, text: string): nat {
    var first := FirstStart(text, Max(0, |lead| + |text| - BUDGET));
    if first.Some? then first.value
    else
      var last := LastStart(text, |text|);
      if last.Some? then last.value else 0
  }

  /** A text without entries is cut: as much of the end as fits. */
  function HardSlice(lead: string, text: string): string {
    var from := |lead| + |text| - BUDGET;
    lead + LStrip(if 0 <= from <= |text| then text[from..] else text)
  }

  /** What becomes of a stripped text, behind the given lead where it is cut. */
  function Cut(lead: string, text: string): string {
    if |text| <= BUDGET then text
    else if FirstStart(text, 0).None? then HardSlice(lead, text)
    else if KeptFrom(lead, text) <= |text| then lead + text[KeptFrom(lead, text)..]
    else text
  }

  function Trim(text: string): string {
    Cut(LEAD, Strip(text))
  }

  /** prior + separator + entry, or the entry alone. */
  function Append(prior: string, entry: string): string {
    if prior == "" then entry else prior + SEPARATOR + entry
  }

  // ── What is kept ───────────────────────────────────────────────────────────

  /** No entry starts behind i. */
  ghost predicate IsLast(text: string, i: nat) {
    forall j :: i < j ==> !IsStart(text, j)
  }

  /**
   * Of a text over the budget exactly the entries survive whose tail fits behind the
   * lead, and the last one in any case.
   */
  lemma SurvivesExactly(lead: string, text: string, i: nat)
    requires IsStart(text, i)
    ensures KeptFrom(lead, text) < |text| && IsStart(text, KeptFrom(lead, text))
    ensures KeptFrom(lead, text) <= i <==> |lead| + (|text| - i) <= 50_000 || IsLast(text, i)
    ensures Cut(lead, text) == if |text| <= 50_000 then text else lead + text[KeptFrom(lead, text)..]
  {
    KeptExactly(lead, text, i);
    CutIs(lead, text, i, KeptFrom(lead, text));
  }

  lemma KeptExactly(lead: string, text: string, i: nat)
    requires IsStart(text, i)
    ensures KeptFrom(lead, text) < |text| && IsStart(text, KeptFrom(lead, text))
    ensures KeptFrom(lead, text) <= i <==> Fits(lead, text, i) || IsLast(text, i)
  {
  }

  lemma CutIs(lead: string, text: string, i: nat, k: nat)
    requires IsStart(text, i) && k == KeptFrom(lead, text) <= |text|
    ensures Cut(lead, text) == if |text| <= 50_000 then text else lead + text[k..]
  {
  }

  /** A text over the budget without any entry is cut to as much of its end as fits, less the white space it begins with. */
  lemma CutWithoutEntries(lead: string, text: string, room: nat)
    requires |text| > 50_000 && room == 50_000 - |lead| && forall i: nat :: !IsStart(text, i)
    ensures exists n: nat :: KeepsEnd(lead, text, room, n)
  {
    var from := |text| - room;
    assert Cut(lead, text) == lead + LStrip(text[from..]);
    EndKept(lead, text, from, text[from..], LStrip(text[from..]));
  }

  lemma EndKept(lead: string, text: string, from: nat, last: string, rest: string)
    requires from <= |text| && last == text[from..] && rest == LStrip(last) && Cut(lead, text) == lead + rest
    ensures KeepsEnd(lead, text, |text| - from, |rest|)
  {
    LStripEndsIt(last);
    var at := |last| - |rest|;
    assert rest == last[at..] == text[from + at..];
    forall k | from <= k < from + at ensures IsWhite(text[k]) {
      assert text[k] == last[k - from];
    }
  }

  /** Of the last characters that fit, the last n are kept, and before them is only white space. */
  predicate KeepsEnd(lead: string, text: string, room: nat, n: nat) {
    n <= room <= |text| && Cut(lead, text) == lead + text[|text| - n..]
    && (forall k :: |text| - room <= k < |text| - n ==> IsWhite(text[k]))
    && (n > 0 ==> !IsWhite(text[|text| - n]))
  }

  lemma {:induction false} LStripEndsIt(s: string)
    ensures |LStrip(s)| <= |s| && LStrip(s) == s[|s| - |LStrip(s)|..]
    ensures forall k :: 0 <= k < |s| - |LStrip(s)| ==> IsWhite(s[k])
    ensures LStrip(s) != "" ==> !IsWhite(LStrip(s)[0])
  {
    if |s| > 0 && IsWhite(s[0]) {
      LStripEndsIt(s[1..]);
      forall k | 0 < k < |s| - |LStrip(s)| ensures IsWhite(s[k]) {
        assert s[k] == s[1..][k - 1];
      }
    }
  }

  /** A text that was cut says so: what is left of it stands behind the marker. */
  lemma CutIsMarked(text: string)
    requires |Strip(text)| > 50_000
    ensures exists rest :: Trim(text) == "_…older findings trimmed…_\n\n" + rest
  {
    var g := Strip(text);
    assert LEAD == "_…older findings trimmed…_\n\n";
    if FirstStart(g, 0).Some? {
      SurvivesExactly(LEAD, g, FirstStart(g, 0).value);
      assert Trim(text) == LEAD + g[KeptFrom(LEAD, g)..];
    } else {
      var from := |LEAD| + |g| - BUDGET;
      assert Trim(text) == LEAD + LStrip(if 0 <= from <= |g| then g[from..] else g);
    }
  }

  // ── Entries of texts put together ──────────────────────────────────────────

  lemma {:induction false} DigitsStop(a: string, t: string)
    requires |t| > 0 && !('0' <= t[0] <= '9')
    ensures DigitRun(a + t) == DigitRun(a) <= |a|
  {
    if |a| > 0 {
      assert (a + t)[1..] == a[1..] + t;
      DigitsStop(a[1..], t);
    }
  }

  /** At least two characters of white space at the front. */
  predicate Opens(t: string) {
    |t| >= 2 && IsWhite(t[0]) && IsWhite(t[1])
  }

  /** A heading does not reach into the white space behind it. */
  lemma HeadStops(a: string, t: string)
    requires |a| > 0 && Opens(t)
    ensures EntryHead(a + t) == EntryHead(a)
  {
    if |a| >= 4 {
      assert (a + t)[..4] == a[..4] && (a + t)[4..] == a[4..] + t;
      DigitsStop(a[4..], t);
      if |a| == 4 + DigitRun(a[4..]) {
        assert (a + t)[|a|] == t[0];
      }
    } else {
      if |a + t| > 4 {
        assert (a + t)[..4][|a|] == t[0];
      }
      if |a| == 3 {
        DigitsStop("", t[1..]);
        assert (a + t)[4..] == "" + t[1..];
      }
    }
  }

  /** Entries of the front part stay entries, and none is added to it. */
  lemma StartsBefore(g: string, t: string, i: nat)
    requires i < |g| && Opens(t)
    ensures IsStart(g + t, i) == IsStart(g, i)
  {
    assert (g + t)[i..] == g[i..] + t;
    HeadStops(g[i..], t);
  }

  /** Behind a line break, a text has its own entries. */
  lemma StartsBehind(p: string, e: string, i: nat)
    requires |p| > 0 && p[|p| - 1] == '\n' && i < |e|
    ensures IsStart(p + e, |p| + i) == IsStart(e, i)
  {
    assert (p + e)[|p| + i..] == e[i..];
    if i > 0 {
      assert (p + e)[|p| + i - 1] == e[i - 1];
    }
  }

  lemma NoStartWithoutHash(text: string, i: nat)
    requires i < |text| && text[i] != '#'
    ensures !IsStart(text, i)
  {
    if |text[i..]| >= 4 {
      assert text[i..][..4][0] == text[i];
      assert "### "[0] == '#';
    }
  }

  /** From one of its entries on, a text has the same entries. */
  lemma StartsFrom(h: string, k: nat, rest: string, i: nat)
    requires IsStart(h, k) && rest == h[k..]
    ensures IsStart(rest, i) <==> IsStart(h, k + i)
  {
    if i < |rest| {
      assert rest[i..] == h[k + i..];
      if i > 0 {
        assert rest[i - 1] == h[k + i - 1];
      }
    }
  }

  /** A lead of lines without a hash. */
  predicate IsLead(lead: string) {
    |lead| > 0 && lead[|lead| - 1] == '\n' && forall i :: 0 <= i < |lead| ==> lead[i] != '#'
  }

  /** Behind such a lead: the entries of the rest and no others. */
  lemma StartsBehindLead(lead: string, rest: string, i: nat)
    requires IsLead(lead)
    ensures IsStart(lead + rest, i) <==> i >= |lead| && IsStart(rest, i - |lead|)
  {
    if i < |lead| {
      assert (lead + rest)[i] == lead[i];
      NoStartWithoutHash(lead + rest, i);
    } else if i - |lead| < |rest| {
      StartsBehind(lead, rest, i - |lead|);
    }
  }

  // ── Cutting twice ──────────────────────────────────────────────────────────

  lemma CutOf(lead: string, text: string, k: nat)
    requires |text| > BUDGET && IsStart(text, k) && KeptFrom(lead, text) == k
    ensures Cut(lead, text) == lead + text[k..]
  {
  }

  /** k is where the text is cut: it does not fit from an earlier entry on, and it fits from k or k is the last. */
  lemma KeptFromIs(lead: string, text: string, k: nat)
    requires IsStart(text, k) && forall s: nat :: s < k && IsStart(text, s) ==> !Fits(lead, text, s)
    requires Fits(lead, text, k) || IsLast(text, k)
    ensures KeptFrom(lead, text) == k
  {
    KeptExactly(lead, text, k);
    if KeptFrom(lead, text) < k {
      KeptExactly(lead, text, KeptFrom(lead, text));
    }
  }

  /** h2 has the entries of h from k on, moved to d. */
  ghost predicate Moved(h: string, k: nat, h2: string, d: nat) {
    |h2| - d == |h| - k && forall i: nat :: IsStart(h2, i) <==> i >= d && IsStart(h, k + (i - d))
  }

  lemma KeptMoves(lead: string, h: string, k: nat, h2: string, d: nat)
    requires IsStart(h, k) && Moved(h, k, h2, d) && forall s: nat :: s < k && IsStart(h, s) ==> !Fits(lead, h, s)
    ensures KeptFrom(lead, h) >= k && KeptFrom(lead, h2) == KeptFrom(lead, h) - k + d && IsStart(h2, KeptFrom(lead, h2)) && IsStart(h, KeptFrom(lead, h))
  {
    KeptExactly(lead, h, k);
    var at := KeptFrom(lead, h);
    KeptExactly(lead, h, at);
    assert at >= k;
    MovedCut(lead, h, k, h2, d, at);
    KeptFromIs(lead, h2, at - k + d);
  }

  lemma MovedCut(lead: string, h: string, k: nat, h2: string, d: nat, at: nat)
    requires Moved(h, k, h2, d) && at >= k && IsStart(h, at) && at == KeptFrom(lead, h)
    ensures var at2: nat := at - k + d;
            IsStart(h2, at2) && (forall s: nat :: s < at2 && IsStart(h2, s) ==> !Fits(lead, h2, s)) && (Fits(lead, h2, at2) || IsLast(h2, at2))
  {
    var at2: nat := at - k + d;
    assert k + (at2 - d) == at;
    forall s: nat | s < at2 && IsStart(h2, s) ensures !Fits(lead, h2, s) {
      KeptExactly(lead, h, k + (s - d));
    }
    KeptExactly(lead, h, at);
    if IsLast(h, at) {
      forall j | at2 < j ensures !IsStart(h2, j) {
        var r: nat := k + (j - d);
        assert !IsStart(h, r);
      }
    }
  }

  lemma MovesBehindLead(lead: string, h: string, k: nat)
    requires IsLead(lead) && IsStart(h, k)
    ensures Moved(h, k, lead + h[k..], |lead|)
  {
    var all := lead + h[k..];
    forall i: nat ensures IsStart(all, i) <==> i >= |lead| && IsStart(h, k + (i - |lead|)) {
      MovedStart(lead, h, k, h[k..], all, i);
    }
  }

  lemma MovedStart(lead: string, h: string, k: nat, rest: string, all: string, i: nat)
    requires IsLead(lead) && IsStart(h, k) && rest == h[k..] && all == lead + rest
    ensures IsStart(all, i) <==> i >= |lead| && IsStart(h, k + (i - |lead|))
  {
    StartsBehindLead(lead, rest, i);
    if i >= |lead| {
      StartsFrom(h, k, rest, i - |lead|);
    }
  }

  lemma SameRest(lead: string, h: string, k: nat, i: nat)
    requires k + i <= |h|
    ensures (lead + h[k..])[|lead| + i..] == h[k + i..]
  {
  }

  lemma CutFits(lead: string, h: string, k: nat, h2: string)
    requires |h| > BUDGET && IsStart(h, k) && forall s: nat :: s < k && IsStart(h, s) ==> !Fits(lead, h, s)
    requires h2 == lead + h[k..] && |h2| <= BUDGET
    ensures Cut(lead, h2) == Cut(lead, h)
  {
    KeptFromIs(lead, h, k);
    CutOf(lead, h, k);
  }

  lemma CutMoved(lead: string, h: string, h2: string, at: nat, at2: nat, rest: string)
    requires |h| > BUDGET && |h2| > BUDGET && IsStart(h, at) && KeptFrom(lead, h) == at && rest == h[at..]
    requires IsStart(h2, at2) && KeptFrom(lead, h2) == at2 && rest == h2[at2..]
    ensures Cut(lead, h2) == Cut(lead, h)
  {
    CutAt(lead, h, at, rest);
    CutAt(lead, h2, at2, rest);
  }

  lemma CutAt(lead: string, text: string, k: nat, rest: string)
    requires |text| > BUDGET && IsStart(text, k) && KeptFrom(lead, text) == k && rest == text[k..]
    ensures Cut(lead, text) == lead + rest
  {
    CutOf(lead, text, k);
  }

  /** A text that has lost entries which would not survive anyway is cut to the same. */
  lemma CutAfterCut(lead: string, h: string, k: nat, h2: string)
    requires IsLead(lead) && |h| > BUDGET && IsStart(h, k)
    requires forall s: nat :: s < k && IsStart(h, s) ==> !Fits(lead, h, s)
    requires h2 == lead + h[k..]
    ensures Cut(lead, h2) == Cut(lead, h)
  {
    if |h2| <= BUDGET {
      CutFits(lead, h, k, h2);
    } else {
      MovesBehindLead(lead, h, k);
      KeptMoves(lead, h, k, h2, |lead|);
      var at := KeptFrom(lead, h);
      SameRest(lead, h, k, at - k);
      CutMoved(lead, h, h2, at, at - k + |lead|, h[at..]);
    }
  }

  /** What may stand before a cut text. */
  predicate GoodLead(lead: string) {
    IsLead(lead) && !IsWhite(lead[0]) && |lead| < BUDGET
  }

  lemma LeadIsGood()
    ensures GoodLead(LEAD)
  {
  }

  lemma SliceFits(lead: string, text: string)
    requires GoodLead(lead) && Stripped(text) && |text| > BUDGET
    ensures |HardSlice(lead, text)| <= BUDGET && Stripped(HardSlice(lead, text))
  {
    var slice := text[|lead| + |text| - BUDGET..];
    LStripIs(slice);
    LStripEnds(slice);
  }

  lemma {:induction false} LStripEnds(s: string)
    requires |s| > 0 && !IsWhite(s[|s| - 1])
    ensures LStrip(s) != "" && LStrip(s)[|LStrip(s)| - 1] == s[|s| - 1]
  {
    if IsWhite(s[0]) {
      LStripEnds(s[1..]);
    }
  }

  /** A cut text is stripped, and cutting it again changes nothing. */
  lemma CutTwice(lead: string, g: string)
    requires GoodLead(lead) && Stripped(g)
    ensures Stripped(Cut(lead, g)) && Cut(lead, Cut(lead, g)) == Cut(lead, g)
    ensures g != "" ==> Cut(lead, g) != ""
  {
    if |g| > BUDGET {
      var first := FirstStart(g, 0);
      if first.None? {
        SliceFits(lead, g);
      } else {
        CutTwiceAt(lead, g, first.value);
      }
    }
  }

  lemma CutTwiceAt(lead: string, g: string, s: nat)
    requires GoodLead(lead) && Stripped(g) && |g| > BUDGET && IsStart(g, s)
    ensures Stripped(Cut(lead, g)) && Cut(lead, Cut(lead, g)) == Cut(lead, g) != ""
  {
    CutKeeps(lead, g, s);
    var k := KeptFrom(lead, g);
    CutAfterCut(lead, g, k, lead + g[k..]);
    assert (lead + g[k..])[0] == lead[0];
  }

  lemma CutKeeps(lead: string, g: string, s: nat)
    requires |g| > BUDGET && IsStart(g, s)
    ensures var k := KeptFrom(lead, g);
            k < |g| && IsStart(g, k) && Cut(lead, g) == lead + g[k..] && forall i: nat :: i < k && IsStart(g, i) ==> !Fits(lead, g, i)
  {
    SurvivesExactly(lead, g, s);
    var k := KeptFrom(lead, g);
    CutOf(lead, g, k);
    forall i: nat | i < k && IsStart(g, i) ensures !Fits(lead, g, i) {
      SurvivesExactly(lead, g, i);
    }
  }

  /** The budget holds wherever the last entry fits, and where there is none. */
  lemma CutFitsTheBudget(lead: string, g: string)
    requires GoodLead(lead) && Stripped(g)
    requires forall i: nat :: IsStart(g, i) && IsLast(g, i) ==> Fits(lead, g, i)
    ensures |Cut(lead, g)| <= BUDGET
  {
    if |g| > BUDGET {
      var first := FirstStart(g, 0);
      if first.None? {
        SliceFits(lead, g);
      } else {
        CutKeeps(lead, g, first.value);
        SurvivesExactly(lead, g, KeptFrom(lead, g));
      }
    }
  }

  // ── Trimming and restarting ────────────────────────────────────────────────

  /** Every text with an entry, and every text that fits. */
  ghost predicate Divisible(g: string) {
    |g| <= BUDGET || HasStart(g)
  }

  /** White space that ends in a line break, as it stands before an entry. */
  predicate IsGap(white: string) {
    AllWhite(white) && |white| >= 2 && white[|white| - 1] == '\n'
  }

  predicate IsEntry(e: string) {
    Stripped(e) && EntryHead(e)
  }

  lemma StartsOfBoth(g: string, gap: string, e: string, i: nat)
    requires IsGap(gap) && i < |g|
    ensures IsStart(g + gap + e, i) == IsStart(g, i)
  {
    assert g + gap + e == g + (gap + e);
    StartsBefore(g, gap + e, i);
  }

  lemma EntryIsStart(g: string, gap: string, e: string)
    requires IsGap(gap) && IsEntry(e)
    ensures IsStart(g + gap + e, |g| + |gap|)
  {
    assert e[0..] == e;
    StartsBehind(g + gap, e, 0);
  }

  /** The entries that a cut drops do not fit in a longer text either. */
  lemma DroppedStayOut(lead: string, g: string, gap: string, e: string, k: nat, h: string)
    requires IsGap(gap) && IsStart(g, k) && h == g + gap + e
    requires forall i: nat :: i < k && IsStart(g, i) ==> !Fits(lead, g, i)
    ensures IsStart(h, k) && forall i: nat :: i < k && IsStart(h, i) ==> !Fits(lead, h, i)
  {
    StartsOfBoth(g, gap, e, k);
    forall i: nat | i < k && IsStart(h, i) ensures !Fits(lead, h, i) {
      StartsOfBoth(g, gap, e, i);
    }
  }

  lemma RestOfBoth(lead: string, g: string, gap: string, e: string, k: nat)
    requires k <= |g|
    ensures (lead + g[k..]) + gap + e == lead + (g + gap + e)[k..]
  {
    assert (g + gap + e)[k..] == g[k..] + gap + e;
  }

  /** Nothing is lost by having cut before: what is dropped now would be dropped with the next entry anyway. */
  lemma CutThenAppend(lead: string, g: string, gap: string, e: string)
    requires GoodLead(lead) && Stripped(g) && Divisible(g) && IsGap(gap) && IsEntry(e)
    ensures Cut(lead, Cut(lead, g) + gap + e) == Cut(lead, g + gap + e)
  {
    if |g| > BUDGET {
      var s: nat :| IsStart(g, s);
      CutKeeps(lead, g, s);
      var k, h := KeptFrom(lead, g), g + gap + e;
      DroppedStayOut(lead, g, gap, e, k, h);
      RestOfBoth(lead, g, gap, e, k);
      CutAfterCut(lead, h, k, lead + h[k..]);
    }
  }

  lemma GapIsGap(tail: string)
    requires AllWhite(tail)
    ensures IsGap(tail + SEPARATOR)
  {
  }

  /** A stripped text with its white space, an entry behind it: stripped again. */
  lemma AppendStripped(g: string, tail: string, e: string)
    requires Stripped(g) && g != "" && IsEntry(RStrip(e))
    ensures Strip(Append(g + tail, e)) == g + (tail + SEPARATOR) + RStrip(e)
  {
    var gap := tail + SEPARATOR;
    EndsStripped(g, gap, e);
    Regroup(g, tail, SEPARATOR, e);
  }

  lemma Regroup(a: string, b: string, c: string, d: string)
    ensures a + b + c + d == a + (b + c) + d
  {
  }

  lemma EndsStripped(g: string, gap: string, e: string)
    requires Stripped(g) && g != "" && IsEntry(RStrip(e))
    ensures Strip(g + gap + e) == g + gap + RStrip(e)
  {
    RStripIs(e);
    var text, white := g + gap + RStrip(e), e[|RStrip(e)|..];
    assert g + gap + e == "" + text + white;
    assert text[0] == g[0] && text[|text| - 1] == RStrip(e)[|RStrip(e)| - 1];
    StripAround("", text, white);
  }

  lemma {:induction false} DigitsWithin(s: string, m: nat)
    requires DigitRun(s) <= m <= |s|
    ensures DigitRun(s[..m]) == DigitRun(s)
  {
    if m > 0 && '0' <= s[0] <= '9' {
      assert s[..m][1..] == s[1..][..m - 1];
      DigitsWithin(s[1..], m - 1);
    }
  }

  /** An entry loses nothing of its heading to stripping. */
  lemma EntryStripped(e: string)
    requires EntryHead(e)
    ensures IsEntry(RStrip(e)) && Strip(e) == RStrip(e)
  {
    RStripIs(e);
    var m, d := |RStrip(e)|, DigitRun(e[4..]);
    assert e[..4][0] == '#';
    forall i | m <= i < |e| ensures IsWhite(e[i]) {
      assert e[m..][i - m] == e[i];
    }
    assert e[4 + d] == '.' && m > 4 + d;
    assert RStrip(e)[..4] == e[..4] && RStrip(e)[4..] == e[4..][..m - 4];
    DigitsWithin(e[4..], m - 4);
  }

  /**
   * Nothing but the white space after the last entry is lost by having trimmed before:
   * trimming, appending and trimming again is what stripping, appending and trimming
   * once is. Whatever the entries hold.
   */
  lemma TrimThenAppend(f: string, e: string)
    requires Divisible(Strip(f)) && EntryHead(e)
    ensures Trim(Append(Trim(f), e)) == Trim(Append(Strip(f), e))
  {
    var g := Strip(f);
    LeadIsGood();
    StripIs(f);
    CutTwice(LEAD, g);
    if g != "" {
      var cut := Cut(LEAD, g);
      EntryStripped(e);
      GapIsGap("");
      AppendStripped(g, "", e);
      AppendStripped(cut, "", e);
      assert g + "" == g && cut + "" == cut && "" + SEPARATOR == SEPARATOR;
      CutThenAppend(LEAD, g, SEPARATOR, RStrip(e));
    }
  }

  /** Trimming what is trimmed, or only stripped, changes nothing more. */
  lemma TrimTwice(f: string)
    ensures Trim(Trim(f)) == Trim(f) && Trim(Strip(f)) == Trim(f) && Stripped(Trim(f))
  {
    LeadIsGood();
    StripIs(f);
    StripIs(Strip(f));
    CutTwice(LEAD, Strip(f));
    StripIs(Trim(f));
  }

  // ── When a restart changes what is kept ────────────────────────────────────

  /** The entry at i is still there once the text is trimmed. */
  predicate Survives(lead: string, text: string, i: nat) {
    |text| <= BUDGET || KeptFrom(lead, text) <= i
  }

  /** In lengths known before the call: the entry at i stays, but only without the white space in between. */
  predicate TailDecidesAt(lead: string, g: string, tail: nat, e: string, i: nat) {
    var total := |g| + |SEPARATOR| + |e|;
    (total <= BUDGET || |lead| + total - i <= BUDGET) && total + tail > BUDGET && |lead| + total + tail - i > BUDGET
  }

  lemma EarlierSurvives(lead: string, g: string, gap: string, e: string, i: nat)
    requires IsGap(gap) && IsEntry(e) && IsStart(g, i)
    ensures Survives(lead, g + gap + e, i) <==> |g + gap + e| <= BUDGET || Fits(lead, g + gap + e, i)
  {
    StartsOfBoth(g, gap, e, i);
    EntryIsStart(g, gap, e);
    SurvivesExactly(lead, g + gap + e, i);
  }

  /**
   * A process that resumes the file and one that was never interrupted keep the same
   * entries after the next report, except exactly those where the tail decides.
   */
  lemma RestartKeepsTheSameEntries(lead: string, g: string, tail: string, e: string, i: nat)
    requires AllWhite(tail) && IsEntry(e) && IsStart(g, i)
    ensures Survives(lead, g + SEPARATOR + e, i) == Survives(lead, g + (tail + SEPARATOR) + e, i)
            <==> !TailDecidesAt(lead, g, |tail|, e, i)
  {
    EarlierSurvives(lead, g, SEPARATOR, e, i);
    EarlierSurvives(lead, g, tail + SEPARATOR, e, i);
  }

  // ── Numbers ────────────────────────────────────────────────────────────────

  function Decimal(n: nat): string {
    if n < 10 then [(n + '0' as int) as char] else Decimal(n / 10) + Decimal(n % 10)
  }

  function Value(digits: string): nat {
    if |digits| == 0 then 0
    else
      var d := digits[|digits| - 1];
      10 * Value(digits[..|digits| - 1]) + (if '0' <= d <= '9' then d as int - '0' as int else 0)
  }

  /** The number of a heading. */
  function HeadNumber(s: string): nat
    requires |s| >= 4
  {
    var rest := s[4..];
    if DigitRun(rest) <= |rest| then Value(rest[..DigitRun(rest)]) else 0
  }

  function NumberAt(text: string, i: nat): nat {
    if i + 4 <= |text| then HeadNumber(text[i..]) else 0
  }

  function MaxBelow(text: string, n: nat): nat {
    if n == 0 then 0
    else if IsStart(text, n - 1) then Max(NumberAt(text, n - 1), MaxBelow(text, n - 1))
    else MaxBelow(text, n - 1)
  }

  /** The highest number of any entry, 0 when there is none. */
  function MaxNumber(text: string): nat {
    MaxBelow(text, |text|)
  }

  /** "### n." and the rest of an entry: label, goal, report and the white space it ends in. */
  function EntryText(n: nat, rest: string): string {
    "### " + (Decimal(n) + ("." + rest))
  }

  lemma {:induction false} MaxBelowIs(text: string, n: nat)
    ensures forall i: nat :: i < n && IsStart(text, i) ==> NumberAt(text, i) <= MaxBelow(text, n)
    ensures MaxBelow(text, n) > 0 ==> exists i: nat :: i < n && IsStart(text, i) && NumberAt(text, i) == MaxBelow(text, n)
  {
    if n > 0 {
      MaxBelowIs(text, n - 1);
    }
  }

  lemma {:induction false} DecimalIs(n: nat)
    ensures |Decimal(n)| >= 1 && Value(Decimal(n)) == n
    ensures forall i :: 0 <= i < |Decimal(n)| ==> '0' <= Decimal(n)[i] <= '9'
  {
    if n < 10 {
      assert Decimal(n)[..0] == "";
    } else {
      DecimalIs(n / 10);
      DecimalIs(n % 10);
      assert Decimal(n)[..|Decimal(n)| - 1] == Decimal(n / 10);
    }
  }

  lemma {:induction false} RunOfDigits(digits: string, rest: string)
    requires forall i :: 0 <= i < |digits| ==> '0' <= digits[i] <= '9'
    requires rest == "" || !('0' <= rest[0] <= '9')
    ensures DigitRun(digits + rest) == |digits|
  {
    if digits == "" {
      assert digits + rest == rest;
    } else {
      assert (digits + rest)[1..] == digits[1..] + rest;
      RunOfDigits(digits[1..], rest);
    }
  }

  lemma EntryTextIs(n: nat, rest: string)
    ensures EntryHead(EntryText(n, rest)) && HeadNumber(EntryText(n, rest)) == n
  {
    DecimalIs(n);
    var tail := Decimal(n) + ("." + rest);
    RunOfDigits(Decimal(n), "." + rest);
    assert EntryText(n, rest)[..4] == "### " && EntryText(n, rest)[4..] == tail;
    assert tail[..|Decimal(n)|] == Decimal(n) && tail[|Decimal(n)|] == '.';
  }

  /** Text put behind a heading, or cut off behind it, leaves its number. */
  lemma NumberStays(a: string, b: string)
    requires EntryHead(a)
    ensures EntryHead(a + b) && HeadNumber(a + b) == HeadNumber(a)
  {
    var d := DigitRun(a[4..]);
    assert (a + b)[..4] == a[..4] && (a + b)[4..] == a[4..] + b;
    DigitsUpTo(a[4..], b);
    assert (a[4..] + b)[..d] == a[4..][..d];
  }

  lemma {:induction false} DigitsUpTo(a: string, b: string)
    requires DigitRun(a) < |a|
    ensures DigitRun(a + b) == DigitRun(a)
  {
    if '0' <= a[0] <= '9' {
      assert (a + b)[1..] == a[1..] + b;
      DigitsUpTo(a[1..], b);
    }
  }

  // ── The loop ───────────────────────────────────────────────────────────────

  /** finditer: where the entries begin, in order. */
  method FindStarts(text: string) returns (starts: seq<nat>)
    ensures forall i: nat :: i in starts <==> IsStart(text, i)
    ensures forall a, b :: 0 <= a < b < |starts| ==> starts[a] < starts[b]
  {
    starts := [];
    for i := 0 to |text|
      invariant forall j: nat :: j in starts <==> j < i && IsStart(text, j)
      invariant forall a :: 0 <= a < |starts| ==> starts[a] < i
      invariant forall a, b :: 0 <= a < b < |starts| ==> starts[a] < starts[b]
    {
      if IsStart(text, i) {
        starts := starts + [i];
      }
    }
  }

  /** _trim_findings: look for the earliest entry whose tail fits. */
  method TrimFindings(text: string) returns (trimmed: string)
    ensures trimmed == Trim(text)
  {
    var findings := Strip(text);
    if |findings| <= BUDGET {
      return findings;
    }
    var starts := FindStarts(findings);
    if starts == [] {
      return HardSlice(LEAD, findings);
    }
    assert starts[0] in starts && starts[|starts| - 1] in starts;
    var kept := starts[|starts| - 1];
    var i := 0;
    while i < |starts| && !Fits(LEAD, findings, starts[i])
      invariant 0 <= i <= |starts|
      invariant forall a :: 0 <= a < i ==> !Fits(LEAD, findings, starts[a])
    {
      i := i + 1;
    }
    if i < |starts| {
      kept := starts[i];
    }
    EarliestFit(LEAD, findings, starts, i, kept);
    return LEAD + findings[kept..];
  }

  lemma EarliestFit(lead: string, text: string, starts: seq<nat>, i: nat, kept: nat)
    requires |text| > BUDGET && |starts| > 0 && i <= |starts|
    requires forall s: nat :: s in starts <==> IsStart(text, s)
    requires forall a, b :: 0 <= a < b < |starts| ==> starts[a] < starts[b]
    requires forall a :: 0 <= a < i ==> !Fits(lead, text, starts[a])
    requires if i < |starts| then kept == starts[i] && Fits(lead, text, kept) else kept == starts[|starts| - 1]
    ensures kept < |text| && Cut(lead, text) == lead + text[kept..]
  {
    assert kept in starts;
    forall s: nat | s < kept && IsStart(text, s) ensures !Fits(lead, text, s) {
      var a :| 0 <= a < |starts| && starts[a] == s;
    }
    if i == |starts| {
      forall s | s in starts ensures s <= kept {
        var a :| 0 <= a < |starts| && starts[a] == s;
      }
    }
    KeptFromIs(lead, text, kept);
    CutOf(lead, text, kept);
  }
}
