/**
 * Re-basing the headings of a critique (judge.utility.ts; persist_state mirrors it).
 * A text is its lines; a heading is what the heading expression matches.
 */
module Relevel {
  import opened Common
  import opened Texts

  /** A line on its own: a fence marker, a heading with its level and title, or neither. */
  datatype Line = Fence | Head(level: nat, title: string) | Plain

  // ── One line ───────────────────────────────────────────────────────────────

  function SkipBlanks(s: string): string {
    if |s| > 0 && IsBlank(s[0]) then SkipBlanks(s[1..]) else s
  }

  function HashRun(s: string): nat {
    if |s| > 0 && s[0] == '#' then 1 + HashRun(s[1..]) else 0
  }

  function SkipHashes(s: string): string {
    if |s| > 0 && s[0] == '#' then SkipHashes(s[1..]) else s
  }

  function DropHashes(s: string): string {
    if |s| > 0 && s[|s| - 1] == '#' then DropHashes(s[..|s| - 1]) else s
  }

  function DropBlanks(s: string): string {
    if |s| > 0 && IsBlank(s[|s| - 1]) then DropBlanks(s[..|s| - 1]) else s
  }

  /** The shortest non-empty beginning of `body` that leaves only blanks and then hashes. */
  function Title(body: string): string {
    var shortest := DropBlanks(DropHashes(body));
    if shortest == "" && |body| > 0 then body[..1] else shortest
  }

  /** What follows the hashes: at least one blank, and a title of at least one character. */
  function AfterHashes(level: nat, rest: string): Line {
    if |rest| == 0 || !IsBlank(rest[0]) then Plain
    else
      var body := SkipBlanks(rest);
      if body == "" then (if |rest| >= 2 then Head(level, " ") else Plain)
      else if OneLine(body) then Head(level, Title(body)) else Plain
  }

  /** /^[ \t]*(#{1,6})[ \t]+(.+?)[ \t]*#*$/ */
  function Heading(line: string): Line {
    var s := SkipBlanks(line);
    var level := HashRun(s);
    if 1 <= level <= 6 then AfterHashes(level, SkipHashes(s)) else Plain
  }

  predicate StartsWith(s: string, start: string) {
    |start| <= |s| && s[..|start|] == start
  }

  predicate IsFence(line: string) {
    var s := TrimStart(line);
    StartsWith(s, "```") || StartsWith(s, "~~~")
  }

  function Classify(line: string): Line {
    if IsFence(line) then Fence else Heading(line)
  }

  function Hashes(n: nat): string {
    if n == 0 then "" else "#" + Hashes(n - 1)
  }

  function NewLevel(level: nat, shift: int): nat {
    Max(1, Min(6, level + shift))
  }

  function Rewritten(h: Line, shift: int): string
    requires h.Head?
  {
    Hashes(NewLevel(h.level, shift)) + (" " + Trim(h.title))
  }

  // ── What the expression matches ────────────────────────────────────────────

  predicate AllBlank(s: string) {
    forall k :: 0 <= k < |s| ==> IsBlank(s[k])
  }

  predicate AllHashes(s: string) {
    forall k :: 0 <= k < |s| ==> s[k] == '#'
  }

  lemma {:induction false} SkipBlanksIs(s: string)
    ensures |SkipBlanks(s)| <= |s| && SkipBlanks(s) == s[|s| - |SkipBlanks(s)|..]
    ensures AllBlank(s[..|s| - |SkipBlanks(s)|])
    ensures SkipBlanks(s) != "" ==> !IsBlank(SkipBlanks(s)[0])
  {
    if |s| > 0 && IsBlank(s[0]) {
      SkipBlanksIs(s[1..]);
      assert s[..|s| - |SkipBlanks(s)|] == [s[0]] + s[1..][..|s[1..]| - |SkipBlanks(s)|];
    }
  }

  lemma {:induction false} HashRunIs(s: string)
    ensures HashRun(s) <= |s| && SkipHashes(s) == s[HashRun(s)..] && AllHashes(s[..HashRun(s)])
    ensures SkipHashes(s) != "" ==> SkipHashes(s)[0] != '#'
  {
    if |s| > 0 && s[0] == '#' {
      HashRunIs(s[1..]);
      assert s[..HashRun(s)] == [s[0]] + s[1..][..HashRun(s[1..])];
    }
  }

  /** Blanks, n hashes from i on, a blank, and at least one character more, all of them on one line. */
  predicate IsHeadingLine(line: string, i: nat, n: nat) {
    1 <= n <= 6 && i + n + 1 < |line| && AllBlank(line[..i]) && AllHashes(line[i..i + n]) && IsBlank(line[i + n])
    && OneLine(line[i + n + 1..])
  }

  lemma {:induction false} BlanksEnd(s: string, i: nat)
    requires i < |s| && AllBlank(s[..i]) && !IsBlank(s[i])
    ensures SkipBlanks(s) == s[i..]
  {
    if i > 0 {
      assert s[0] == s[..i][0] && s[1..][..i - 1] == s[..i][1..];
      BlanksEnd(s[1..], i - 1);
    }
  }

  lemma {:induction false} HashesEnd(s: string, n: nat)
    requires n < |s| && AllHashes(s[..n]) && s[n] != '#'
    ensures HashRun(s) == n
  {
    if n > 0 {
      assert s[0] == s[..n][0] && s[1..][..n - 1] == s[..n][1..];
      HashesEnd(s[1..], n - 1);
    }
  }

  lemma HashesStandAt(line: string, i: nat, n: nat)
    requires IsHeadingLine(line, i, n)
    ensures SkipBlanks(line) == line[i..] && n == HashRun(line[i..])
  {
    assert line[i] == line[i..i + n][0];
    BlanksEnd(line, i);
    assert line[i..][..n] == line[i..i + n] && line[i..][n] == line[i + n];
    HashesEnd(line[i..], n);
  }

  lemma BlanksStayOnTheLine(rest: string)
    requires |rest| > 0 && IsBlank(rest[0])
    ensures OneLine(SkipBlanks(rest)) <==> OneLine(rest[1..])
    ensures SkipBlanks(rest) != "" ==> |rest| >= 2
  {
    SkipBlanksIs(rest);
    var at, body := |rest| - |SkipBlanks(rest)|, SkipBlanks(rest);
    if OneLine(body) {
      forall k | 0 <= k < |rest[1..]| ensures !IsLineEnd(rest[1..][k]) {
        if k + 1 < at {
          assert IsBlank(rest[..at][k + 1]);
        } else {
          assert rest[1..][k] == body[k + 1 - at];
        }
      }
    }
    if OneLine(rest[1..]) {
      forall k | 0 <= k < |body| ensures !IsLineEnd(body[k]) {
        assert body[k] == rest[1..][at + k - 1];
      }
    }
  }

  /** A line is a heading of level n exactly if it looks like that. */
  lemma HeadingsAre(line: string, n: nat)
    ensures Heading(line).Head? && Heading(line).level == n <==> exists i: nat :: IsHeadingLine(line, i, n)
  {
    if i: nat :| IsHeadingLine(line, i, n) {
      HashesStandAt(line, i, n);
      HeadingAt(line, i, n);
    }
    if Heading(line).Head? && Heading(line).level == n {
      SkipBlanksIs(line);
      HashRunIs(SkipBlanks(line));
      var at := |line| - |SkipBlanks(line)|;
      assert line[at..at + n] == SkipBlanks(line)[..n];
      HeadingAt(line, at, n);
      assert IsHeadingLine(line, at, n);
    }
  }

  lemma HeadingAt(line: string, at: nat, m: nat)
    requires at + m <= |line| && SkipBlanks(line) == line[at..] && HashRun(line[at..]) == m
    ensures Heading(line).Head? <==> 1 <= m <= 6 && at + m + 1 < |line| && IsBlank(line[at + m]) && OneLine(line[at + m + 1..])
    ensures Heading(line).Head? ==> Heading(line).level == m
  {
    HashRunIs(line[at..]);
    var rest := line[at + m..];
    assert SkipHashes(line[at..]) == rest;
    if |rest| > 0 && IsBlank(rest[0]) {
      BlanksStayOnTheLine(rest);
      assert rest[1..] == line[at + m + 1..];
    }
  }

  /** Blanks and behind them hashes: what may follow a title. */
  predicate IsTail(s: string, k: nat) {
    k <= |s| && AllBlank(s[..k]) && AllHashes(s[k..])
  }

  lemma {:induction false} DropHashesIs(s: string)
    ensures |DropHashes(s)| <= |s| && DropHashes(s) == s[..|DropHashes(s)|] && AllHashes(s[|DropHashes(s)|..])
    ensures DropHashes(s) != "" ==> s[|DropHashes(s)| - 1] != '#'
  {
    if |s| > 0 && s[|s| - 1] == '#' {
      DropHashesIs(s[..|s| - 1]);
      assert s[|DropHashes(s)|..] == s[..|s| - 1][|DropHashes(s)|..] + [s[|s| - 1]];
    }
  }

  lemma {:induction false} DropBlanksIs(s: string)
    ensures |DropBlanks(s)| <= |s| && DropBlanks(s) == s[..|DropBlanks(s)|] && AllBlank(s[|DropBlanks(s)|..])
    ensures DropBlanks(s) != "" ==> !IsBlank(s[|DropBlanks(s)| - 1])
  {
    if |s| > 0 && IsBlank(s[|s| - 1]) {
      DropBlanksIs(s[..|s| - 1]);
      assert s[|DropBlanks(s)|..] == s[..|s| - 1][|DropBlanks(s)|..] + [s[|s| - 1]];
    }
  }

  /** A title is the shortest beginning, of at least one character, that leaves such a tail. */
  lemma TitleIsShortest(body: string)
    requires |body| > 0
    ensures 1 <= |Title(body)| <= |body| && Title(body) == body[..|Title(body)|]
    ensures exists k: nat :: IsTail(body[|Title(body)|..], k)
    ensures forall m, k: nat :: 1 <= m < |Title(body)| ==> !IsTail(body[m..], k)
  {
    DropHashesIs(body);
    var h, b := |DropHashes(body)|, |DropBlanks(DropHashes(body))|;
    DropBlanksIs(DropHashes(body));
    var n := |Title(body)|;
    TailBehind(body, b, h, n);
    forall m, k: nat | 1 <= m < n ensures !IsTail(body[m..], k) {
      NoTailBefore(body, b, h, m, k);
    }
  }

  lemma TailBehind(body: string, b: nat, h: nat, n: nat)
    requires b <= h <= |body| && n <= |body| && (n == b || (b == 0 && n == 1))
    requires AllBlank(body[..h][b..]) && AllHashes(body[h..])
    ensures exists k: nat :: IsTail(body[n..], k)
  {
    if n <= h {
      assert body[n..][..h - n] == body[..h][b..][n - b..] && body[n..][h - n..] == body[h..];
      assert IsTail(body[n..], h - n);
    } else {
      assert body[n..][..0] == "" && body[n..][0..] == body[h..][n - h..];
      assert IsTail(body[n..], 0);
    }
  }

  lemma TailChar(s: string, k: nat, j: nat)
    requires j < |s|
    ensures IsTail(s, k) ==> if j < k then IsBlank(s[j]) else s[j] == '#'
  {
    if IsTail(s, k) {
      if j < k {
        assert s[..k][j] == s[j];
      } else {
        assert s[k..][j - k] == s[j];
      }
    }
  }

  lemma NoTailBefore(body: string, b: nat, h: nat, m: nat, k: nat)
    requires m < b <= h <= |body| && !IsBlank(body[b - 1]) && body[h - 1] != '#' && AllBlank(body[..h][b..])
    ensures !IsTail(body[m..], k)
  {
    TailChar(body[m..], k, b - 1 - m);
    TailChar(body[m..], k, h - 1 - m);
  }

  lemma {:induction false} SpaceEnds(s: string, i: nat)
    requires i < |s| && (forall k :: 0 <= k < i ==> IsSpace(s[k])) && !IsSpace(s[i])
    ensures TrimStart(s) == s[i..]
  {
    if i > 0 {
      SpaceEnds(s[1..], i - 1);
    }
  }

  /** A line marks a fence exactly if, after white space, it begins with three backticks or tildes. */
  lemma FencesAre(line: string)
    ensures Classify(line).Fence? <==> exists i: nat :: IsFenceAt(line, i)
  {
    TrimStartIs(line);
    if IsFence(line) {
      var at := |line| - |TrimStart(line)|;
      assert line[at..at + 3] == TrimStart(line)[..3];
      assert IsFenceAt(line, at);
    }
    if i: nat :| IsFenceAt(line, i) {
      assert line[i..i + 3][0] == line[i];
      SpaceEnds(line, i);
      assert line[i..][..3] == line[i..i + 3];
    }
  }

  predicate IsFenceAt(line: string, i: nat) {
    i + 3 <= |line| && (forall k :: 0 <= k < i ==> IsSpace(line[k])) && (line[i..i + 3] == "```" || line[i..i + 3] == "~~~")
  }

  // ── All lines, classified ──────────────────────────────────────────────────

  /** Line i is inside a fenced block: an odd number of fence lines stands before it. */
  predicate FencedAt(kinds: seq<Line>, i: nat)
    requires i <= |kinds|
  {
    i > 0 && FencedAt(kinds, i - 1) != kinds[i - 1].Fence?
  }

  function FencesBefore(kinds: seq<Line>, i: nat): set<nat> {
    set k: nat | k < i && k < |kinds| && kinds[k].Fence?
  }

  lemma {:induction false} FencedIsOdd(kinds: seq<Line>, i: nat)
    requires i <= |kinds|
    ensures FencedAt(kinds, i) <==> |FencesBefore(kinds, i)| % 2 == 1
  {
    if i > 0 {
      FencedIsOdd(kinds, i - 1);
      assert FencesBefore(kinds, i) == FencesBefore(kinds, i - 1) + if kinds[i - 1].Fence? then {(i - 1) as nat} else {};
    }
  }

  predicate IsHeading(kinds: seq<Line>, i: nat) {
    i < |kinds| && kinds[i].Head? && !FencedAt(kinds, i)
  }

  /** The shallowest level among the first n lines. */
  function MinLevel(kinds: seq<Line>, n: nat): Option<nat>
    requires n <= |kinds|
  {
    if n == 0 then None
    else
      var before := MinLevel(kinds, n - 1);
      if !IsHeading(kinds, n - 1) then before
      else if before.None? || kinds[n - 1].level < before.value then Some(kinds[n - 1].level)
      else before
  }

  function Shallowest(kinds: seq<Line>): Option<nat> {
    MinLevel(kinds, |kinds|)
  }

  function Kinds(lines: seq<string>): seq<Line> {
    seq(|lines|, i requires 0 <= i < |lines| => Classify(lines[i]))
  }

  function NewLine(kinds: seq<Line>, line: string, i: nat, shift: int): string {
    if IsHeading(kinds, i) then Rewritten(kinds[i], shift) else line
  }

  function Shifted(lines: seq<string>, kinds: seq<Line>, shift: int): seq<string> {
    seq(|lines|, i requires 0 <= i < |lines| => NewLine(kinds, lines[i], i, shift))
  }

  function Relevelled(lines: seq<string>, base: int): seq<string> {
    var kinds := Kinds(lines);
    var shallowest := Shallowest(kinds);
    if shallowest.None? || shallowest.value == base then lines else Shifted(lines, kinds, base - shallowest.value)
  }

  /** relevelCritique; what the expressions match in each line is looked up once and kept. */
  method RelevelCritique(lines: seq<string>, base: int) returns (out: seq<string>)
    ensures out == Relevelled(lines, base)
  {
    var kinds := Kinds(lines);
    var shallowest := ShallowestOf(kinds);
    if shallowest.None? {
      return lines;
    }
    var shift := base - shallowest.value;
    if shift == 0 {
      return lines;
    }
    out := ShiftHeadings(lines, kinds, shift);
  }

  /** The first pass over the lines: Math.min of the levels, if there are any. */
  method ShallowestOf(kinds: seq<Line>) returns (shallowest: Option<nat>)
    ensures shallowest == Shallowest(kinds)
  {
    var inFence := false;
    shallowest := None;
    for i := 0 to |kinds|
      invariant inFence == FencedAt(kinds, i) && shallowest == MinLevel(kinds, i)
    {
      if kinds[i].Fence? {
        inFence := !inFence;
        continue;
      }
      if inFence {
        continue;
      }
      if kinds[i].Head? && (shallowest.None? || kinds[i].level < shallowest.value) {
        shallowest := Some(kinds[i].level);
      }
    }
  }

  /** The second pass: rewrite every heading outside the fences. */
  method ShiftHeadings(lines: seq<string>, kinds: seq<Line>, shift: int) returns (out: seq<string>)
    requires |kinds| == |lines|
    ensures out == Shifted(lines, kinds, shift)
  {
    var inFence := false;
    out := [];
    for i := 0 to |lines|
      invariant inFence == FencedAt(kinds, i) && out == Shifted(lines, kinds, shift)[..i]
    {
      var line := lines[i];
      if kinds[i].Fence? {
        inFence := !inFence;
      } else if !inFence && kinds[i].Head? {
        line := Rewritten(kinds[i], shift);
      }
      ShiftedNext(lines, kinds, shift, i);
      out := out + [line];
    }
  }

  lemma ShiftedNext(lines: seq<string>, kinds: seq<Line>, shift: int, i: nat)
    requires i < |lines|
    ensures Shifted(lines, kinds, shift)[..i + 1] == Shifted(lines, kinds, shift)[..i] + [NewLine(kinds, lines[i], i, shift)]
  {
  }

  // ── A rewritten heading is a heading ───────────────────────────────────────

  predicate Titled(title: string) {
    Trim(title) != ""
  }

  lemma {:induction false} HashesRun(n: nat, rest: string)
    requires |rest| > 0 && rest[0] != '#'
    ensures HashRun(Hashes(n) + rest) == n && SkipHashes(Hashes(n) + rest) == rest
  {
    if n == 0 {
      assert Hashes(n) + rest == rest;
    } else {
      assert (Hashes(n) + rest)[1..] == Hashes(n - 1) + rest;
      HashesRun(n - 1, rest);
    }
  }

  lemma {:induction false} DropHashesIsStart(s: string)
    ensures |DropHashes(s)| <= |s| && DropHashes(s) == s[..|DropHashes(s)|]
  {
    if |s| > 0 && s[|s| - 1] == '#' {
      DropHashesIsStart(s[..|s| - 1]);
    }
  }

  lemma {:induction false} DropBlanksIsStart(s: string)
    ensures |DropBlanks(s)| <= |s| && DropBlanks(s) == s[..|DropBlanks(s)|]
  {
    if |s| > 0 && IsBlank(s[|s| - 1]) {
      DropBlanksIsStart(s[..|s| - 1]);
    }
  }

  lemma TitleIsStart(body: string)
    requires |body| > 0
    ensures 0 < |Title(body)| <= |body| && Title(body) == body[..|Title(body)|]
  {
    DropHashesIsStart(body);
    DropBlanksIsStart(DropHashes(body));
  }

  lemma StartsTitled(s: string)
    requires |s| > 0 && !IsSpace(s[0])
    ensures Titled(s)
  {
    TrimEndFacts(s);
  }

  lemma HeadingFacts(line: string)
    requires Heading(line).Head?
    ensures 1 <= Heading(line).level <= 6 && OneLine(Heading(line).title)
  {
    var rest := SkipHashes(SkipBlanks(line));
    var body := SkipBlanks(rest);
    if body != "" {
      TitleIsStart(body);
    }
  }

  lemma AfterBlank(n: nat, text: string)
    requires OneLine(text) && (text != "" ==> !IsSpace(text[0]))
    ensures AfterHashes(n, " " + text) == if text == "" then Plain else Head(n, Title(text))
  {
    assert (" " + text)[1..] == text;
    assert SkipBlanks(" " + text) == SkipBlanks(text) == text;
  }

  lemma RewrittenParses(n: nat, text: string)
    requires 1 <= n <= 6 && OneLine(text) && (text != "" ==> !IsSpace(text[0]))
    ensures Classify(Hashes(n) + (" " + text)) == if text == "" then Plain else Head(n, Title(text))
  {
    var line := Hashes(n) + (" " + text);
    assert line[0] == '#';
    HashesRun(n, " " + text);
    AfterBlank(n, text);
    assert SkipBlanks(line) == line && TrimStart(line) == line;
  }

  /** A title that is not blank survives rewriting; a blank one ends the heading. */
  lemma RewrittenKind(h: Line, shift: int)
    requires h.Head? && OneLine(h.title)
    ensures var r := Classify(Rewritten(h, shift));
            if Titled(h.title) then r.Head? && r.level == NewLevel(h.level, shift) && Titled(r.title) else r == Plain
  {
    var text := Trim(h.title);
    TrimFacts(h.title);
    RewrittenParses(NewLevel(h.level, shift), text);
    if text != "" {
      TitleIsStart(text);
      StartsTitled(Title(text));
    }
  }

  lemma ClassifiedFacts(line: string)
    requires Classify(line).Head?
    ensures 1 <= Classify(line).level <= 6 && OneLine(Classify(line).title)
  {
    HeadingFacts(line);
  }

  // ── Headings before and after ──────────────────────────────────────────────

  /** `after` is what becomes of the classified lines: titled headings move, blank ones end. */
  predicate KindsMove(kinds: seq<Line>, after: seq<Line>, shift: int) {
    |after| == |kinds|
    && forall i :: 0 <= i < |kinds| ==> KindMoves(kinds[i], IsHeading(kinds, i), after[i], shift)
  }

  predicate KindMoves(h: Line, heading: bool, r: Line, shift: int) {
    if heading && h.Head? then
      (if Titled(h.title) then r.Head? && r.level == NewLevel(h.level, shift) && Titled(r.title) else r == Plain)
    else r == h
  }

  lemma ShiftedKinds(lines: seq<string>, shift: int)
    ensures KindsMove(Kinds(lines), Kinds(Shifted(lines, Kinds(lines), shift)), shift)
  {
    var kinds := Kinds(lines);
    var out := Shifted(lines, kinds, shift);
    forall i | 0 <= i < |kinds| ensures KindMoves(kinds[i], IsHeading(kinds, i), Kinds(out)[i], shift) {
      assert kinds[i] == Classify(lines[i]) && Kinds(out)[i] == Classify(NewLine(kinds, lines[i], i, shift));
      if IsHeading(kinds, i) {
        ClassifiedFacts(lines[i]);
        RewrittenKind(kinds[i], shift);
      }
    }
  }

  lemma {:induction false} SameFences(kinds: seq<Line>, after: seq<Line>, shift: int, i: nat)
    requires KindsMove(kinds, after, shift) && i <= |kinds|
    ensures FencedAt(after, i) == FencedAt(kinds, i)
  {
    if i > 0 {
      SameFences(kinds, after, shift, i - 1);
      assert KindMoves(kinds[i - 1], IsHeading(kinds, i - 1), after[i - 1], shift);
    }
  }

  lemma {:induction false} MinLevelIs(kinds: seq<Line>, n: nat)
    requires n <= |kinds|
    ensures MinLevel(kinds, n).None? <==> forall i :: 0 <= i < n ==> !IsHeading(kinds, i)
    ensures MinLevel(kinds, n).Some? ==> exists i: nat :: i < n && IsHeading(kinds, i) && kinds[i].level == MinLevel(kinds, n).value
    ensures MinLevel(kinds, n).Some? ==> forall i: nat :: i < n && IsHeading(kinds, i) ==> kinds[i].level >= MinLevel(kinds, n).value
  {
    if n > 0 {
      MinLevelIs(kinds, n - 1);
    }
  }

  ghost predicate AllTitled(kinds: seq<Line>) {
    forall i: nat :: IsHeading(kinds, i) ==> Titled(kinds[i].title)
  }

  ghost predicate LevelsOk(kinds: seq<Line>) {
    forall i: nat :: IsHeading(kinds, i) ==> 1 <= kinds[i].level <= 6
  }

  lemma KindsAreOk(lines: seq<string>)
    ensures LevelsOk(Kinds(lines))
  {
    var kinds := Kinds(lines);
    forall i: nat | IsHeading(kinds, i) ensures 1 <= kinds[i].level <= 6 {
      ClassifiedFacts(lines[i]);
    }
  }

  /** The headings afterwards are the titled ones before, each at its shifted level. */
  ghost predicate Rebased(kinds: seq<Line>, after: seq<Line>, shift: int) {
    |after| == |kinds|
    && (forall i: nat :: i < |kinds| ==> (IsHeading(after, i) <==> IsHeading(kinds, i) && Titled(kinds[i].title)))
    && (forall i: nat :: IsHeading(after, i) ==> Titled(after[i].title) && after[i].level == NewLevel(kinds[i].level, shift))
  }

  lemma MovesRebase(kinds: seq<Line>, after: seq<Line>, shift: int)
    requires KindsMove(kinds, after, shift)
    ensures Rebased(kinds, after, shift)
  {
    forall i: nat | i < |kinds|
      ensures IsHeading(after, i) <==> IsHeading(kinds, i) && Titled(kinds[i].title)
      ensures IsHeading(after, i) ==> Titled(after[i].title) && after[i].level == NewLevel(kinds[i].level, shift)
    {
      assert KindMoves(kinds[i], IsHeading(kinds, i), after[i], shift);
      SameFences(kinds, after, shift, i);
    }
  }

  /** A titled heading that the shift puts at the base. */
  predicate LandsOnBase(kinds: seq<Line>, base: int, shift: int, i: nat) {
    IsHeading(kinds, i) && Titled(kinds[i].title) && NewLevel(kinds[i].level, shift) == base
  }

  ghost predicate SomeLands(kinds: seq<Line>, base: int, shift: int) {
    exists i: nat :: LandsOnBase(kinds, base, shift, i)
  }

  /** No heading has a title. */
  ghost predicate NoneTitled(kinds: seq<Line>) {
    forall i: nat :: IsHeading(kinds, i) ==> !Titled(kinds[i].title)
  }

  ghost predicate HasLevel(kinds: seq<Line>, level: int) {
    exists i: nat :: IsHeading(kinds, i) && kinds[i].level == level
  }

  ghost predicate NoHeading(kinds: seq<Line>) {
    forall i: nat :: !IsHeading(kinds, i)
  }

  ghost predicate NoneAbove(kinds: seq<Line>, level: int) {
    forall i: nat :: IsHeading(kinds, i) ==> kinds[i].level >= level
  }

  lemma ShallowestIs(kinds: seq<Line>)
    ensures Shallowest(kinds).None? <==> NoHeading(kinds)
    ensures Shallowest(kinds).Some? ==> HasLevel(kinds, Shallowest(kinds).value) && NoneAbove(kinds, Shallowest(kinds).value)
  {
    MinLevelIs(kinds, |kinds|);
  }

  lemma RebasedLevels(kinds: seq<Line>, after: seq<Line>, base: int, shift: int, level: nat)
    requires 1 <= base <= 6 && NoneAbove(kinds, level) && shift == base - level && Rebased(kinds, after, shift)
    ensures NoneAbove(after, base)
  {
  }

  lemma RebasedLanding(kinds: seq<Line>, after: seq<Line>, base: int, shift: int)
    requires Rebased(kinds, after, shift)
    ensures HasLevel(after, base) <==> SomeLands(kinds, base, shift)
  {
    if HasLevel(after, base) {
      var i: nat :| IsHeading(after, i) && after[i].level == base;
      assert LandsOnBase(kinds, base, shift, i);
    }
    if i: nat :| LandsOnBase(kinds, base, shift, i) {
      assert IsHeading(after, i);
    }
  }

  lemma RebasedToNothing(kinds: seq<Line>, after: seq<Line>, shift: int)
    requires Rebased(kinds, after, shift)
    ensures NoHeading(after) <==> NoneTitled(kinds)
  {
    if NoHeading(after) {
      forall i: nat | IsHeading(kinds, i) ensures !Titled(kinds[i].title) {
        assert !IsHeading(after, i);
      }
    }
  }

  lemma ShallowestIsBase(kinds: seq<Line>, base: int)
    requires NoneAbove(kinds, base)
    ensures Shallowest(kinds) == Some(base) <==> HasLevel(kinds, base)
  {
    ShallowestIs(kinds);
  }

  lemma ShallowestAfter(kinds: seq<Line>, after: seq<Line>, base: int, shift: int)
    requires 1 <= base <= 6 && Shallowest(kinds).Some? && shift == base - Shallowest(kinds).value
    requires Rebased(kinds, after, shift)
    ensures Shallowest(after) == Some(base) <==> SomeLands(kinds, base, shift)
    ensures Shallowest(after).None? <==> NoneTitled(kinds)
  {
    ShallowestIs(kinds);
    ShallowestIs(after);
    RebasedLevels(kinds, after, base, shift, Shallowest(kinds).value);
    RebasedLanding(kinds, after, base, shift);
    RebasedToNothing(kinds, after, shift);
    ShallowestIsBase(after, base);
  }

  // ── Results ────────────────────────────────────────────────────────────────

  /** Deeper stays deeper, strictly unless both have come to level 6. */
  ghost predicate SameOrder(before: seq<Line>, after: seq<Line>) {
    forall i: nat, j: nat :: IsHeading(before, i) && IsHeading(before, j) && IsHeading(after, i) && IsHeading(after, j) ==>
      (before[i].level <= before[j].level ==> after[i].level <= after[j].level)
      && (before[i].level < before[j].level ==> after[i].level < after[j].level || after[i].level == 6 == after[j].level)
  }

  /** Of classified lines: the same headings, in the same order, the shallowest on the base. */
  ghost predicate StableKinds(before: seq<Line>, after: seq<Line>, base: int) {
    |after| == |before|
    && (forall i: nat :: i < |before| ==> (IsHeading(after, i) <==> IsHeading(before, i)))
    && SameOrder(before, after)
    && (Shallowest(before).Some? ==> Shallowest(after) == Some(base))
  }

  ghost predicate OthersKept(lines: seq<string>, out: seq<string>, kinds: seq<Line>) {
    |out| == |lines| && forall i: nat :: i < |lines| && !IsHeading(kinds, i) ==> out[i] == lines[i]
  }

  /**
   * A stable rebase: the shallowest heading lands on the base; the order of levels
   * stays, strictly unless both have come to level 6; every other line, and the
   * number of lines, stay.
   */
  ghost predicate StableRebase(lines: seq<string>, out: seq<string>, base: int) {
    StableKinds(Kinds(lines), Kinds(out), base) && OthersKept(lines, out, Kinds(lines)) && TitlesKept(lines, out, Kinds(lines))
  }

  /** A heading keeps its title, behind the hashes of its new level, unless the whole line stays. */
  ghost predicate TitlesKept(lines: seq<string>, out: seq<string>, kinds: seq<Line>) {
    |out| == |lines| <= |kinds|
    && forall i: nat :: i < |lines| && IsHeading(kinds, i) ==> out[i] == lines[i] || IsTitleLine(out[i], kinds[i].title)
  }

  ghost predicate IsTitleLine(line: string, title: string) {
    Classify(line).Head? && |line| > Classify(line).level && AllHashes(line[..Classify(line).level])
    && line[Classify(line).level] == ' ' && IsTrimmed(title, line[Classify(line).level + 1..])
  }

  lemma {:induction false} HashesAre(n: nat)
    ensures |Hashes(n)| == n && AllHashes(Hashes(n))
  {
    if n > 0 {
      HashesAre(n - 1);
    }
  }

  lemma RewrittenKeepsTitle(h: Line, shift: int)
    requires h.Head? && OneLine(h.title) && Titled(h.title)
    ensures IsTitleLine(Rewritten(h, shift), h.title)
  {
    var n, line := NewLevel(h.level, shift), Rewritten(h, shift);
    RewrittenKind(h, shift);
    HashesAre(n);
    TrimIs(h.title);
    assert line[..n] == Hashes(n) && line[n + 1..] == Trim(h.title);
  }

  lemma ShiftedKeepsTitles(lines: seq<string>, kinds: seq<Line>, shift: int)
    requires kinds == Kinds(lines) && AllTitled(kinds)
    ensures TitlesKept(lines, Shifted(lines, kinds, shift), kinds)
  {
    forall i: nat | i < |lines| && IsHeading(kinds, i) ensures IsTitleLine(Shifted(lines, kinds, shift)[i], kinds[i].title) {
      ClassifiedFacts(lines[i]);
      RewrittenKeepsTitle(kinds[i], shift);
    }
  }

  lemma OrderKept(before: seq<Line>, after: seq<Line>, base: int)
    requires 1 <= base <= 6 && AllTitled(before) && LevelsOk(before)
    requires Shallowest(before).Some? && Rebased(before, after, base - Shallowest(before).value)
    ensures SameOrder(before, after)
  {
    ShallowestIs(before);
  }

  /** What relevelCritique returns: the text itself, or the text shifted onto the base. */
  ghost predicate IsRelevelled(lines: seq<string>, out: seq<string>, base: int) {
    var m := Shallowest(Kinds(lines));
    if m.Some? && m.value != base then out == Shifted(lines, Kinds(lines), base - m.value) else out == lines
  }

  lemma RelevelledIs(lines: seq<string>, base: int)
    ensures IsRelevelled(lines, Relevelled(lines, base), base)
  {
  }

  lemma RelevelIsStable(lines: seq<string>, base: int)
    requires AllTitled(Kinds(lines)) && 1 <= base <= 6
    ensures StableRebase(lines, Relevelled(lines, base), base)
  {
    RelevelledIs(lines, base);
    RelevelledIsStable(lines, Relevelled(lines, base), base);
  }

  lemma RelevelledIsStable(lines: seq<string>, out: seq<string>, base: int)
    requires AllTitled(Kinds(lines)) && 1 <= base <= 6 && IsRelevelled(lines, out, base)
    ensures StableRebase(lines, out, base)
  {
    if Shallowest(Kinds(lines)) in {None, Some(base)} {
      SameIsStable(lines, Kinds(lines), base);
    } else {
      ShiftedIsStable(lines, out, Kinds(lines), base, base - Shallowest(Kinds(lines)).value);
    }
  }

  lemma SameIsStable(lines: seq<string>, kinds: seq<Line>, base: int)
    requires kinds == Kinds(lines) && Shallowest(kinds) in {None, Some(base)}
    ensures StableRebase(lines, lines, base)
  {
  }

  lemma ShiftedIsStable(lines: seq<string>, out: seq<string>, kinds: seq<Line>, base: int, shift: int)
    requires kinds == Kinds(lines) && AllTitled(kinds) && 1 <= base <= 6 && out == Shifted(lines, kinds, shift)
    requires Shallowest(kinds).Some? && shift == base - Shallowest(kinds).value
    ensures StableRebase(lines, out, base)
  {
    ShiftedKinds(lines, shift);
    KindsAreOk(lines);
    MovesAreStable(kinds, Kinds(out), base, shift);
    ShiftedKeepsOthers(lines, kinds, shift);
    ShiftedKeepsTitles(lines, kinds, shift);
  }

  lemma ShiftedKeepsOthers(lines: seq<string>, kinds: seq<Line>, shift: int)
    ensures OthersKept(lines, Shifted(lines, kinds, shift), kinds)
  {
  }

  lemma MovesAreStable(before: seq<Line>, after: seq<Line>, base: int, shift: int)
    requires 1 <= base <= 6 && AllTitled(before) && LevelsOk(before)
    requires Shallowest(before).Some? && shift == base - Shallowest(before).value && KindsMove(before, after, shift)
    ensures StableKinds(before, after, base)
  {
    MovesRebase(before, after, shift);
    OrderKept(before, after, base);
    LandsThere(before, base, shift);
    ShallowestAfter(before, after, base, shift);
  }

  /** The shallowest heading is the one that lands on the base. */
  lemma LandsThere(kinds: seq<Line>, base: int, shift: int)
    requires 1 <= base <= 6 && AllTitled(kinds) && Shallowest(kinds).Some? && shift == base - Shallowest(kinds).value
    ensures SomeLands(kinds, base, shift)
  {
    ShallowestIs(kinds);
    var i: nat :| IsHeading(kinds, i) && kinds[i].level == Shallowest(kinds).value;
    assert LandsOnBase(kinds, base, shift, i);
  }

  /** What a caller can check: nothing moves, nothing is left to move, or a titled heading lands on the base. */
  ghost predicate Settles(kinds: seq<Line>, base: int) {
    var m := Shallowest(kinds);
    m.None? || m.value == base
    || NoneTitled(kinds) || SomeLands(kinds, base, base - m.value)
  }

  /**
   * Done twice is done once exactly if the first time settles the text. It always
   * does when every heading has a title; a shallowest heading that is blank stops
   * being one, and the rest moves again.
   */
  lemma RelevelTwice(lines: seq<string>, base: int)
    requires 1 <= base <= 6
    ensures Relevelled(Relevelled(lines, base), base) == Relevelled(lines, base) <==> Settles(Kinds(lines), base)
    ensures AllTitled(Kinds(lines)) ==> Settles(Kinds(lines), base)
  {
    TwiceExactly(lines, Relevelled(lines, base), base, Settles(Kinds(lines), base));
    if AllTitled(Kinds(lines)) {
      TitledSettles(Kinds(lines), base);
    }
  }

  lemma TitledSettles(kinds: seq<Line>, base: int)
    requires 1 <= base <= 6 && AllTitled(kinds)
    ensures Settles(kinds, base)
  {
    var m := Shallowest(kinds);
    if m.Some? && m.value != base {
      LandsThere(kinds, base, base - m.value);
    }
  }

  lemma TwiceExactly(lines: seq<string>, out: seq<string>, base: int, settles: bool)
    requires 1 <= base <= 6 && out == Relevelled(lines, base) && settles == Settles(Kinds(lines), base)
    ensures Relevelled(out, base) == out <==> settles
  {
    RelevelledIs(lines, base);
    var m := Shallowest(Kinds(lines));
    if m.Some? && m.value != base {
      ShiftedTwice(lines, out, base, base - m.value);
      SettlesOff(Kinds(lines), base, m.value);
    }
  }

  /** A text whose shallowest heading is off the base. */
  lemma SettlesOff(kinds: seq<Line>, base: int, level: nat)
    requires Shallowest(kinds) == Some(level) && level != base
    ensures Settles(kinds, base) <==> NoneTitled(kinds) || SomeLands(kinds, base, base - level)
  {
  }

  lemma ShiftedTwice(lines: seq<string>, out: seq<string>, base: int, shift: int)
    requires 1 <= base <= 6 && Shallowest(Kinds(lines)).Some? && shift == base - Shallowest(Kinds(lines)).value
    requires out == Shifted(lines, Kinds(lines), shift)
    ensures Relevelled(out, base) == out <==> NoneTitled(Kinds(lines)) || SomeLands(Kinds(lines), base, shift)
  {
    ShiftedKinds(lines, shift);
    MovesRebase(Kinds(lines), Kinds(out), shift);
    ShallowestAfter(Kinds(lines), Kinds(out), base, shift);
    TitledAfter(Kinds(lines), Kinds(out), shift);
    MovesAgain(out, base);
  }

  lemma TitledAfter(kinds: seq<Line>, after: seq<Line>, shift: int)
    requires Rebased(kinds, after, shift)
    ensures AllTitled(after)
  {
  }

  /** With its shallowest heading titled and off the base, a text changes. */
  lemma MovesAgain(lines: seq<string>, base: int)
    requires 1 <= base <= 6 && AllTitled(Kinds(lines))
    ensures Relevelled(lines, base) == lines <==> Shallowest(Kinds(lines)) in {None, Some(base)}
  {
    var m := Shallowest(Kinds(lines));
    if m.Some? && m.value != base {
      MovesOff(lines, Shifted(lines, Kinds(lines), base - m.value), base, m.value);
    }
  }

  lemma MovesOff(lines: seq<string>, out: seq<string>, base: int, level: nat)
    requires 1 <= base <= 6 && level != base && AllTitled(Kinds(lines)) && Shallowest(Kinds(lines)) == Some(level)
    requires out == Shifted(lines, Kinds(lines), base - level)
    ensures out != lines
  {
    var kinds, after := Kinds(lines), Kinds(out);
    ShiftedKinds(lines, base - level);
    MovesRebase(kinds, after, base - level);
    ShallowestIs(kinds);
    var i: nat :| IsHeading(kinds, i) && kinds[i].level == level;
    assert IsHeading(after, i) && after[i].level == base;
  }
}
