/**
 * Findings over many processes: the text in memory and the text that was never
 * trimmed show the same for ever, and the last number recorded is never lost.
 */
module Resumption {
  import opened Common
  import opened Findings
  import opened Sections
  import opened PersistState

  // ── Two texts that show the same from now on ───────────────────────────────

  /** A text as memory holds it: nothing to strip at the front. */
  predicate GoodText(f: string) {
    f == "" || !IsWhite(f[0])
  }

  /** The white space at the end. */
  function TailOf(f: string): string {
    if |RStrip(f)| <= |f| then f[|RStrip(f)|..] else ""
  }

  /** Cut alike, with the same white space at the end. */
  ghost predicate Kin(m: string, h: string) {
    GoodText(m) && GoodText(h) && m != "" && h != ""
    && Divisible(RStrip(m)) && Divisible(RStrip(h)) && TailOf(m) == TailOf(h)
    && Cut(LEAD, RStrip(m)) == Cut(LEAD, RStrip(h))
  }

  ghost predicate SameFindings(m: string, h: string) {
    GoodText(h) && (m == h || Kin(m, h))
  }

  lemma GoodParts(f: string)
    requires GoodText(f)
    ensures Strip(f) == RStrip(f) && Stripped(RStrip(f)) && AllWhite(TailOf(f)) && f == RStrip(f) + TailOf(f)
    ensures f != "" ==> RStrip(f) != ""
  {
    RStripIs(f);
    var n := |RStrip(f)|;
    forall i | n <= i < |f| ensures IsWhite(f[i]) {
      assert f[n..][i - n] == f[i];
    }
    assert LStrip(f) == f;
  }

  lemma SameShows(m: string, h: string)
    requires SameFindings(m, h)
    ensures Trim(m) == Trim(h) && Shown(m) == Shown(h) && (m == "" <==> h == "")
  {
    if m != h {
      GoodParts(m);
      GoodParts(h);
    }
  }

  /** An entry behind a text: the parts of the result. */
  lemma AppendParts(f: string, e: string)
    requires GoodText(f) && f != "" && EntryHead(e)
    ensures var gap, g := TailOf(f) + SEPARATOR, RStrip(f);
            IsGap(gap) && IsEntry(RStrip(e)) && GoodText(Append(f, e)) && Append(f, e) != ""
            && RStrip(Append(f, e)) == g + gap + RStrip(e) && TailOf(Append(f, e)) == TailOf(e)
  {
    GoodParts(f);
    EntryStripped(e);
    GapIsGap(TailOf(f));
    AppendStripped(RStrip(f), TailOf(f), e);
    assert Append(f, e)[0] == f[0];
    GoodParts(Append(f, e));
    RStripIs(e);
    EndOfAppend(f, e, RStrip(f), TailOf(f));
  }

  lemma EndOfAppend(f: string, e: string, g: string, tail: string)
    requires f == g + tail && RStrip(f + SEPARATOR + e) == g + (tail + SEPARATOR) + RStrip(e) && |RStrip(e)| <= |e|
    ensures TailOf(f + SEPARATOR + e) == TailOf(e)
  {
    var all := f + SEPARATOR + e;
    assert |RStrip(all)| == |f| + |SEPARATOR| + |RStrip(e)|;
    assert all[|RStrip(all)|..] == e[|RStrip(e)|..];
  }

  lemma AppendSame(m: string, h: string, e: string)
    requires SameFindings(m, h) && EntryHead(e)
    ensures SameFindings(Append(m, e), Append(h, e))
  {
    if h == "" {
      SameShows(m, h);
      HeadIsGood(e);
    } else {
      AppendParts(h, e);
      if m != h {
        AppendParts(m, e);
        AppendKin(m, h, e);
      }
    }
  }

  lemma HeadIsGood(e: string)
    requires EntryHead(e)
    ensures GoodText(e) && e != ""
  {
    assert e[..4][0] == '#';
  }

  lemma AppendKin(m: string, h: string, e: string)
    requires Kin(m, h) && EntryHead(e)
    requires IsEntry(RStrip(e)) && IsGap(TailOf(h) + SEPARATOR)
    requires RStrip(Append(m, e)) == RStrip(m) + (TailOf(h) + SEPARATOR) + RStrip(e)
    requires RStrip(Append(h, e)) == RStrip(h) + (TailOf(h) + SEPARATOR) + RStrip(e)
    requires TailOf(Append(m, e)) == TailOf(Append(h, e)) && GoodText(Append(m, e)) && GoodText(Append(h, e))
    requires Append(m, e) != "" && Append(h, e) != ""
    ensures Kin(Append(m, e), Append(h, e))
  {
    var gap, last := TailOf(h) + SEPARATOR, RStrip(e);
    LeadIsGood();
    GoodParts(m);
    GoodParts(h);
    CutThenAppend(LEAD, RStrip(m), gap, last);
    CutThenAppend(LEAD, RStrip(h), gap, last);
    EntryIsStart(RStrip(m), gap, last);
    EntryIsStart(RStrip(h), gap, last);
  }

  // ── What a resumed process goes on with ────────────────────────────────────

  /** The text without its last white space; one without entries that was too long stays cut for good. */
  function Carried(f: string): string {
    if Trim(f) == "" then NONE_YET
    else if |Strip(f)| <= BUDGET || FirstStart(Strip(f), 0).Some? then Strip(f)
    else Trim(f)
  }

  lemma StrippedParts(f: string)
    requires Stripped(f)
    ensures GoodText(f) && RStrip(f) == f && TailOf(f) == ""
  {
    StripIs(f);
  }

  lemma CutHasStart(lead: string, g: string)
    requires GoodLead(lead) && |g| > BUDGET && FirstStart(g, 0).Some?
    ensures HasStart(Cut(lead, g))
  {
    CutKeeps(lead, g, FirstStart(g, 0).value);
    var k := KeptFrom(lead, g);
    MovesBehindLead(lead, g, k);
    assert IsStart(lead + g[k..], |lead|);
  }

  /** What is read shows the same, from now on, as what was never trimmed. */
  lemma CarriedSame(f: string)
    ensures SameFindings(Shown(f), Carried(f)) && Stripped(Carried(f)) && Carried(f) != ""
  {
    PlaceholdersAreGood();
    LeadIsGood();
    StripIs(f);
    TrimTwice(f);
    var g := Strip(f);
    if Trim(f) != "" && |g| > BUDGET && FirstStart(g, 0).Some? {
      CutHasStart(LEAD, g);
      CutTwice(LEAD, g);
      StrippedParts(Trim(f));
      StrippedParts(g);
    }
  }

  // ── The last number ────────────────────────────────────────────────────────

  /** The entry at i has this number and survives every trimming until another is recorded. */
  ghost predicate AnchorAt(g: string, last: nat, i: nat) {
    IsStart(g, i) && NumberAt(g, i) == last && (Fits(LEAD, g, i) || IsLast(g, i))
  }

  ghost predicate Anchored(f: string, last: nat) {
    last == 0 || exists i: nat :: AnchorAt(Strip(f), last, i)
  }

  /** An entry that fits, or that holds no line like an entry's first. */
  ghost predicate Sound(e: string) {
    |LEAD| + |RStrip(e)| <= BUDGET || Plain(e)
  }

  ghost predicate Plain(e: string) {
    forall i: nat :: i > 0 ==> !IsStart(RStrip(e), i)
  }

  lemma NumberMoves(p: string, rest: string, i: nat)
    requires i < |rest|
    ensures NumberAt(p + rest, |p| + i) == NumberAt(rest, i)
  {
    assert (p + rest)[|p| + i..] == rest[i..];
  }

  lemma NumberInFront(g: string, t: string, i: nat)
    requires IsStart(g, i)
    ensures NumberAt(g + t, i) == NumberAt(g, i)
  {
    assert (g + t)[i..] == g[i..] + t;
    NumberStays(g[i..], t);
  }

  lemma NumberBehindCut(lead: string, g: string, k: nat, i: nat)
    requires k <= i < |g|
    ensures NumberAt(lead + g[k..], i - k + |lead|) == NumberAt(g, i)
  {
    SameRest(lead, g, k, i - k);
  }

  /** Trimming keeps the anchor. */
  lemma TrimAnchored(f: string, last: nat)
    requires Anchored(f, last)
    ensures Anchored(Trim(f), last)
  {
    if last > 0 {
      var g := Strip(f);
      var i: nat :| AnchorAt(g, last, i);
      TrimTwice(f);
      StripIs(Trim(f));
      if |g| > BUDGET {
        CutAnchored(g, last, i);
      }
    }
  }

  lemma CutAnchored(g: string, last: nat, i: nat)
    requires |g| > BUDGET && AnchorAt(g, last, i)
    ensures KeptFrom(LEAD, g) <= i && AnchorAt(Cut(LEAD, g), last, i - KeptFrom(LEAD, g) + |LEAD|)
  {
    LeadIsGood();
    SurvivesExactly(LEAD, g, i);
    CutKeeps(LEAD, g, i);
    var k := KeptFrom(LEAD, g);
    MovesBehindLead(LEAD, g, k);
    NumberBehindCut(LEAD, g, k, i);
    AnchorMoves(g, k, LEAD + g[k..], |LEAD|, last, i);
  }

  lemma AnchorMoves(h: string, k: nat, h2: string, d: nat, last: nat, i: nat)
    requires Moved(h, k, h2, d) && i >= k && AnchorAt(h, last, i) && NumberAt(h2, i - k + d) == last
    ensures AnchorAt(h2, last, i - k + d)
  {
    var j: nat := i - k + d;
    assert k + (j - d) == i && IsStart(h2, j);
    if IsLast(h, i) {
      forall r | j < r ensures !IsStart(h2, r) {
        var s: nat := k + (r - d);
        assert !IsStart(h, s);
      }
    }
  }

  /** So does going on from a file. */
  lemma CarriedAnchored(f: string, last: nat)
    requires Anchored(f, last)
    ensures Anchored(Carried(f), last) && Anchored(Shown(f), last)
  {
    if last > 0 {
      var i: nat :| AnchorAt(Strip(f), last, i);
      LeadIsGood();
      StripIs(f);
      CutTwice(LEAD, Strip(f));
      StripIs(Strip(f));
      TrimAnchored(f, last);
    }
  }

  /** Recording an entry anchors its number. */
  lemma AppendAnchored(f: string, n: nat, rest: string)
    requires GoodText(f) && Sound(EntryText(n, rest))
    ensures Anchored(Append(f, EntryText(n, rest)), n)
  {
    var e := EntryText(n, rest);
    EntryTextIs(n, rest);
    EntryStripped(e);
    EntryNumber(e);
    assert RStrip(e)[0..] == RStrip(e);
    if f == "" {
      assert AnchorAt(RStrip(e), n, 0);
    } else {
      AppendParts(f, e);
      GoodParts(Append(f, e));
      AnchorBehind(RStrip(f), TailOf(f) + SEPARATOR, RStrip(e), n);
    }
  }

  lemma EntryNumber(e: string)
    requires EntryHead(e)
    ensures EntryHead(RStrip(e)) && HeadNumber(RStrip(e)) == HeadNumber(e)
  {
    EntryStripped(e);
    RStripIs(e);
    NumberStays(RStrip(e), e[|RStrip(e)|..]);
    assert RStrip(e) + e[|RStrip(e)|..] == e;
  }

  lemma AnchorBehind(g: string, gap: string, e: string, n: nat)
    requires IsGap(gap) && IsEntry(e) && HeadNumber(e) == n
    requires |LEAD| + |e| <= BUDGET || forall i: nat :: i > 0 ==> !IsStart(e, i)
    ensures AnchorAt(g + gap + e, n, |g| + |gap|)
  {
    var p := g + gap;
    EntryIsStart(g, gap, e);
    assert e[0..] == e;
    NumberMoves(p, e, 0);
    if |LEAD| + |e| > BUDGET {
      LastBehind(p, e);
    }
  }

  lemma LastBehind(p: string, e: string)
    requires |p| > 0 && p[|p| - 1] == '\n' && forall i: nat :: i > 0 ==> !IsStart(e, i)
    ensures IsLast(p + e, |p|)
  {
    forall j | |p| < j ensures !IsStart(p + e, j) {
      if j < |p + e| {
        StartsBehind(p, e, j - |p|);
      }
    }
  }

  /** A text behind lines of its own keeps its anchor. */
  lemma BehindAnchored(p: string, f: string, last: nat)
    requires |p| > 0 && p[|p| - 1] == '\n' && !IsWhite(p[0]) && Stripped(f) && f != "" && Anchored(f, last)
    ensures Anchored(p + f, last) && Stripped(p + f)
  {
    StripIs(f);
    StripIs(p + f);
    if last > 0 {
      var i: nat :| AnchorAt(f, last, i);
      AnchorStays(p, f, last, i);
    }
  }

  lemma AnchorStays(p: string, f: string, last: nat, i: nat)
    requires |p| > 0 && p[|p| - 1] == '\n' && AnchorAt(f, last, i)
    ensures AnchorAt(p + f, last, |p| + i)
  {
    StartsBehind(p, f, i);
    NumberMoves(p, f, i);
    if IsLast(f, i) {
      forall j | |p| + i < j ensures !IsStart(p + f, j) {
        if j < |p + f| {
          StartsBehind(p, f, j - |p|);
        }
      }
    }
  }

  /** What spills out of a cut list keeps the anchor of the findings behind it. */
  lemma SpilledAnchored(list: string, p: nat, f: string, last: nat)
    requires p + |FINDINGS_HEADER| <= |list| && Stripped(f) && f != "" && Anchored(f, last)
    ensures var text := Spilled(FINDINGS_HEADER, list, p, f); Anchored(text, last) && Stripped(text) && text != ""
  {
    var front := list[p + |FINDINGS_HEADER|..] + "\n\n" + FINDINGS_HEADER + "\n";
    var all := list[p + |FINDINGS_HEADER|..] + ("\n\n" + FINDINGS_HEADER + "\n" + f + "\n");
    assert all == front + (f + "\n");
    HeaderInFront(list[p + |FINDINGS_HEADER|..], front);
    StripFront(front, f, |list[p + |FINDINGS_HEADER|..]| + 2);
    BehindAnchored(LStrip(front), f, last);
  }

  lemma HeaderInFront(rest: string, front: string)
    requires front == rest + "\n\n" + FINDINGS_HEADER + "\n"
    ensures |front| > |rest| + 3 && front[|rest| + 2] == '#' && front[|front| - 1] == '\n'
  {
    assert FINDINGS_HEADER[0] == '#';
  }

  /** Stripping takes white space before the first visible character and the last line break. */
  lemma StripFront(front: string, f: string, at: nat)
    requires at < |front| - 1 && !IsWhite(front[at]) && front[|front| - 1] == '\n' && Stripped(f) && f != ""
    ensures Strip(front + (f + "\n")) == LStrip(front) + f
    ensures |LStrip(front)| > 0 && !IsWhite(LStrip(front)[0]) && LStrip(front)[|LStrip(front)| - 1] == '\n'
  {
    LStripFront(front, f + "\n", at);
    LStripIs(front);
    var text := LStrip(front) + f;
    assert LStrip(front) + (f + "\n") == text + "\n";
    RStripBehind(text, "\n");
  }

  lemma {:induction false} LStripFront(front: string, t: string, at: nat)
    requires at < |front| && !IsWhite(front[at])
    ensures LStrip(front + t) == LStrip(front) + t && |LStrip(front)| >= |front| - at
  {
    if IsWhite(front[0]) {
      assert (front + t)[1..] == front[1..] + t;
      LStripFront(front[1..], t, at - 1);
    }
  }

  /** A process that reads the text counts on from the anchor or beyond. */
  lemma AnchoredCounts(f: string, last: nat)
    requires Stripped(f) && Anchored(f, last)
    ensures MaxNumber(f) >= last
  {
    StripIs(f);
    if last > 0 {
      var i: nat :| AnchorAt(f, last, i);
      MaxBelowIs(f, |f|);
    }
  }

  // ── No other numbers ───────────────────────────────────────────────────────

  /** No entry, true or apparent, has a number above n. */
  ghost predicate AtMost(f: string, n: nat) {
    forall i: nat :: IsStart(Strip(f), i) ==> NumberAt(Strip(f), i) <= n
  }

  lemma AtMostCounts(f: string, n: nat)
    requires Stripped(f) && AtMost(f, n)
    ensures MaxNumber(f) <= n
  {
    StripIs(f);
    MaxBelowIs(f, |f|);
  }

  lemma TrimAtMost(f: string, n: nat)
    requires AtMost(f, n) && Divisible(Strip(f))
    ensures AtMost(Trim(f), n) && Divisible(Trim(f))
  {
    var g := Strip(f);
    LeadIsGood();
    StripIs(f);
    TrimTwice(f);
    StripIs(Trim(f));
    if |g| > BUDGET {
      var s: nat :| IsStart(g, s);
      CutAtMost(g, n, s);
      CutHasStart(LEAD, g);
    }
  }

  lemma CarriedAtMost(f: string, n: nat)
    requires AtMost(f, n) && Divisible(Strip(f))
    ensures AtMost(Carried(f), n) && Divisible(Carried(f)) && AtMost(Shown(f), n)
  {
    StripIs(f);
    StripIs(Strip(f));
    TrimAtMost(f, n);
    NoStartInPlaceholder();
  }

  lemma NoStartInPlaceholder()
    ensures AtMost(NONE_YET, 0) && Divisible(NONE_YET)
  {
    PlaceholdersAreGood();
    StripIs(NONE_YET);
    NoHashNoStart(NONE_YET);
  }

  lemma NoHashNoStart(text: string)
    requires '#' !in text
    ensures !HasStart(text)
  {
    forall i: nat ensures !IsStart(text, i) {
      if i < |text| {
        NoStartWithoutHash(text, i);
      }
    }
  }

  /** A plain entry adds its own number and no other. */
  lemma AppendAtMost(f: string, n: nat, rest: string)
    requires GoodText(f) && (f != "" ==> AtMost(f, n)) && Plain(EntryText(n, rest))
    ensures AtMost(Append(f, EntryText(n, rest)), n) && Divisible(Strip(Append(f, EntryText(n, rest))))
  {
    var e := EntryText(n, rest);
    EntryTextIs(n, rest);
    EntryStripped(e);
    EntryNumber(e);
    assert RStrip(e)[0..] == RStrip(e);
    if f == "" {
      assert IsStart(RStrip(e), 0);
    } else {
      AppendParts(f, e);
      GoodParts(f);
      GoodParts(Append(f, e));
      EntryIsStart(RStrip(f), TailOf(f) + SEPARATOR, RStrip(e));
      NumbersOfBoth(RStrip(f), TailOf(f) + SEPARATOR, RStrip(e), n);
    }
  }

  lemma NumbersOfBoth(g: string, gap: string, e: string, n: nat)
    requires IsGap(gap) && IsEntry(e) && HeadNumber(e) == n && forall i: nat :: i > 0 ==> !IsStart(e, i)
    requires forall i: nat :: IsStart(g, i) ==> NumberAt(g, i) <= n
    ensures forall i: nat :: IsStart(g + gap + e, i) ==> NumberAt(g + gap + e, i) <= n
  {
    forall i: nat | IsStart(g + gap + e, i) ensures NumberAt(g + gap + e, i) <= n {
      NumberOfBoth(g, gap, e, n, i);
    }
  }

  lemma NumberOfBoth(g: string, gap: string, e: string, n: nat, i: nat)
    requires IsGap(gap) && IsEntry(e) && HeadNumber(e) == n && forall j: nat :: j > 0 ==> !IsStart(e, j)
    requires forall j: nat :: IsStart(g, j) ==> NumberAt(g, j) <= n
    requires IsStart(g + gap + e, i)
    ensures NumberAt(g + gap + e, i) <= n
  {
    if i < |g| {
      StartsOfBoth(g, gap, e, i);
      NumberInFront(g, gap + e, i);
      assert g + (gap + e) == g + gap + e;
    } else if i < |g + gap| {
      NoStartInGap(g, gap, e, i);
    } else {
      NumberBehind(g + gap, e, i);
    }
  }

  lemma NoStartInGap(g: string, gap: string, e: string, i: nat)
    requires AllWhite(gap) && |g| <= i < |g + gap|
    ensures !IsStart(g + gap + e, i)
  {
    assert (g + gap + e)[i] == gap[i - |g|];
    NoStartWithoutHash(g + gap + e, i);
  }

  lemma NumberBehind(p: string, e: string, i: nat)
    requires |p| > 0 && p[|p| - 1] == '\n' && |p| <= i && IsStart(p + e, i) && |e| >= 4 && forall j: nat :: j > 0 ==> !IsStart(e, j)
    ensures NumberAt(p + e, i) == HeadNumber(e)
  {
    StartsBehind(p, e, i - |p|);
    assert e[0..] == e;
    NumberMoves(p, e, 0);
  }

  lemma CutAtMost(g: string, n: nat, s: nat)
    requires |g| > BUDGET && IsStart(g, s) && forall i: nat :: IsStart(g, i) ==> NumberAt(g, i) <= n
    ensures forall i: nat :: IsStart(Cut(LEAD, g), i) ==> NumberAt(Cut(LEAD, g), i) <= n
  {
    LeadIsGood();
    CutKeeps(LEAD, g, s);
    MovesBehindLead(LEAD, g, KeptFrom(LEAD, g));
    RestAtMost(LEAD, g, n, KeptFrom(LEAD, g), Cut(LEAD, g));
  }

  lemma RestAtMost(lead: string, g: string, n: nat, k: nat, h: string)
    requires k < |g| && h == lead + g[k..] && Moved(g, k, h, |lead|)
    requires forall i: nat :: IsStart(g, i) ==> NumberAt(g, i) <= n
    ensures forall i: nat :: IsStart(h, i) ==> NumberAt(h, i) <= n
  {
    forall i: nat | IsStart(h, i) ensures NumberAt(h, i) <= n {
      NumberBehindCut(lead, g, k, k + (i - |lead|));
    }
  }
}
