/**
 * Who owns the working memory, over every interleaving of tool calls, file
 * deletions and restarts, background delegations included: a sub-agent may call when
 * nobody waits for it any more.
 */
module Ownership {
  import opened Common
  import opened Findings
  import opened Sections
  import opened PersistState
  import opened Resumption
  import Texts

  datatype Event =
    | Pre(tool: Tool, id: string)
    | Post(tool: Tool, id: string, result: ToolResult)
    | FileDeleted
    | Restarted

  /**
   * What a process goes by, or what was last written: the list, all findings, never
   * trimmed, and whether the list is still the one that was given.
   */
  datatype Sheet = Sheet(list: string, findings: string, whole: bool)

  const BLANK := Sheet("", "", true)

  /**
   * What happened, told from the events alone.
   * Roles: delegations in flight, whether this process has seen any, the sub-agents
   * that have called it, and those of them that called while one was in flight.
   */
  datatype World = World(
    inflight: nat, delegated: bool, callers: set<string>, seen: set<string>,
    awake: bool,    // this process has read the file
    present: bool,  // the file is there
    own: string,    // the primary's last non-empty list
    list: string,   // the last list that was taken for the primary's
    mine: bool,     // it was the primary's
    mind: Sheet,    // what the process goes by
    filed: Sheet,   // what was last written
    number: nat,    // the number the process counts on from
    last: nat,      // the last number given to a report
    sound: bool,    // every report fits in the room or holds no line like an entry's first
    plain: bool)    // no report holds such a line, and no list was ever cut

  datatype Run = Run(world: World, plugin: Plugin, file: Option<string>)

  const NOTHING := World(0, false, {}, {}, false, false, "", "", true, BLANK, BLANK, 0, 0, true, true)
  const START := Run(NOTHING, FRESH, None)

  /**
   * Sub-agents never delegate, exist only after some delegation, and have non-empty ids
   * of their own; a call ends only for who has begun one.
   */
  predicate Allowed(primary: string, w: World, ev: Event) {
    match ev
    case Pre(tool, id) => id == primary || (tool != Delegate && id != "" && w.delegated)
    case Post(tool, id, result) =>
      (id == primary || (tool != Delegate && id in w.callers)) && (tool == Delegate ==> w.inflight > 0)
    case FileDeleted => true
    case Restarted => true
  }

  /** A sub-agent that calls while a delegation is in flight gives itself away. */
  function SeenAfter(primary: string, w: World, id: string): set<string> {
    if w.inflight > 0 && id != primary && id != "" then w.seen + {id} else w.seen
  }

  // ── A process wakes up over a file ─────────────────────────────────────────

  /** The text it reads as findings. */
  function ReadFindings(s: Sheet): string {
    var at := Texts.IndexOf(Listed(s.list), FINDINGS_HEADER, 0);
    if at.Some? && at.value + |FINDINGS_HEADER| <= |Listed(s.list)|
    then Spilled(FINDINGS_HEADER, Listed(s.list), at.value, Shown(s.findings))
    else Shown(s.findings)
  }

  /** The header in a list cuts it there, and the rest of it goes to the findings. */
  function ReadBack(s: Sheet): Sheet {
    var at := Texts.IndexOf(Listed(s.list), FINDINGS_HEADER, 0);
    if at.Some? && at.value + |FINDINGS_HEADER| <= |Listed(s.list)|
    then Sheet(UpTo(Listed(s.list), at.value), ReadFindings(s), false)
    else Sheet(Listed(s.list), Carried(s.findings), s.whole)
  }

  function Woken(w: World): World {
    if w.awake then w
    else if !w.present then w.(awake := true)
    else w.(awake := true, mind := ReadBack(w.filed), number := MaxNumber(ReadFindings(w.filed)),
            plain := w.plain && !HasHeader(Listed(w.filed.list)))
  }

  // ── What every event does ──────────────────────────────────────────────────

  function Written(w: World): World {
    w.(filed := w.mind, present := true)
  }

  ghost function Recorded(w: World, rest: string): World {
    var n := w.number + 1;
    var e := EntryText(n, rest);
    Written(w.(number := n, last := n, mind := w.mind.(findings := Append(w.mind.findings, e)),
               sound := w.sound && Sound(e), plain := w.plain && Plain(e)))
  }

  /** A list from anybody but a sub-agent that has given itself away is taken. */
  function Taken(primary: string, w: World, id: string, list: string): World {
    var v := w.(seen := SeenAfter(primary, w, id));
    if id in v.seen || Strip(list) == "" then v
    else
      var c := Strip(list);
      Written(v.(list := c, own := if id == primary then c else v.own, mine := id == primary,
                 mind := v.mind.(list := c, whole := true)))
  }

  function Healed(w: World): World {
    if !w.present && (w.mind.list != "" || w.mind.findings != "") then Written(w) else w
  }

  ghost function Posted(primary: string, w: World, tool: Tool, id: string, result: ToolResult): World {
    match tool
    case Delegate =>
      var v := w.(inflight := Max(0, w.inflight - 1));
      if result.Report? then Recorded(v, result.rest) else v
    case Todo => if result.Todos? then Taken(primary, w, id, result.list) else w.(seen := SeenAfter(primary, w, id))
    case OtherTool => w
  }

  /** What no process remembers and no file holds is gone. */
  function Forget(w: World): World {
    if w.awake || w.present then w
    else NOTHING.(inflight := w.inflight, delegated := w.delegated, callers := w.callers, seen := w.seen)
  }

  ghost function WorldNext(primary: string, w: World, ev: Event): World {
    match ev
    case Pre(tool, id) =>
      if tool == Delegate then w.(inflight := w.inflight + 1, delegated := true)
      else if id == primary then w
      else w.(callers := w.callers + {id}, seen := SeenAfter(primary, w, id))
    case Post(tool, id, result) => Healed(Posted(primary, Woken(w), tool, id, result))
    case FileDeleted => Forget(w.(present := false))
    case Restarted => Forget(w.(inflight := 0, delegated := false, callers := {}, seen := {}, awake := false))
  }

  function PluginNext(p: Plugin, file: Option<string>, ev: Event): (Plugin, Option<string>) {
    match ev
    case Pre(tool, id) => (PreHook(p, tool, id), file)
    case Post(tool, id, result) => PostHook(p, file, tool, id, result)
    case FileDeleted => (p, None)
    case Restarted => (FRESH, file)
  }

  /** An event the spawn discipline rules out does not happen. */
  ghost function Next(primary: string, r: Run, ev: Event): Run {
    if !Allowed(primary, r.world, ev) then r
    else
      var (plugin, file) := PluginNext(r.plugin, r.file, ev);
      Run(WorldNext(primary, r.world, ev), plugin, file)
  }

  ghost function After(primary: string, events: seq<Event>): Run {
    if |events| == 0 then START else Next(primary, After(primary, events[..|events| - 1]), events[|events| - 1])
  }

  // ── Roles ──────────────────────────────────────────────────────────────────

  predicate RolesOk(primary: string, w: World, p: Plugin) {
    p.active == w.inflight && p.subagents == w.seen
    && primary !in w.seen && "" !in w.seen && primary !in w.callers && "" !in w.callers
    && (w.inflight > 0 ==> w.delegated)
    && (p.primary.Some? ==> p.primary == Some(primary))
    && (primary != "" && w.delegated ==> p.primary == Some(primary))
  }

  /** What a post-hook does to the plugin's notion of roles. */
  lemma PostHookRoles(p: Plugin, file: Option<string>, tool: Tool, id: string, result: ToolResult)
    ensures var q := PostHook(p, file, tool, id, result).0;
            q.primary == (if tool == Delegate then NotePrimary(p, id).primary else p.primary)
            && q.active == (if tool == Delegate then Max(0, p.active - 1) else p.active)
            && q.subagents == (if tool == Todo then Observe(p, id).subagents else p.subagents)
  {
  }

  predicate SameRoles(v: World, w: World) {
    v.inflight == w.inflight && v.delegated == w.delegated && v.callers == w.callers && v.seen == w.seen
  }

  lemma PostedRoles(primary: string, w: World, tool: Tool, id: string, result: ToolResult)
    ensures SameRoles(Posted(primary, w, tool, id, result),
                      w.(inflight := if tool == Delegate then Max(0, w.inflight - 1) else w.inflight,
                         seen := if tool == Todo then SeenAfter(primary, w, id) else w.seen))
  {
  }

  /** And to what really happened. */
  lemma PostRoles(primary: string, w: World, tool: Tool, id: string, result: ToolResult)
    ensures SameRoles(WorldNext(primary, w, Post(tool, id, result)),
                      w.(inflight := if tool == Delegate then Max(0, w.inflight - 1) else w.inflight,
                         seen := if tool == Todo then SeenAfter(primary, w, id) else w.seen))
  {
    var woken := Woken(w);
    assert SameRoles(woken, w);
    PostedRoles(primary, woken, tool, id, result);
  }

  lemma PostKeepsRoles(primary: string, w: World, p: Plugin, file: Option<string>, tool: Tool, id: string, result: ToolResult)
    requires RolesOk(primary, w, p) && Allowed(primary, w, Post(tool, id, result))
    ensures RolesOk(primary, WorldNext(primary, w, Post(tool, id, result)), PostHook(p, file, tool, id, result).0)
  {
    PostHookRoles(p, file, tool, id, result);
    PostRoles(primary, w, tool, id, result);
  }

  lemma RolesKept(primary: string, r: Run, ev: Event)
    requires RolesOk(primary, r.world, r.plugin)
    ensures RolesOk(primary, Next(primary, r, ev).world, Next(primary, r, ev).plugin)
  {
    if Allowed(primary, r.world, ev) {
      match ev
      case Pre(tool, id) => PreKeepsRoles(primary, r.world, r.plugin, tool, id);
      case Post(tool, id, result) => PostKeepsRoles(primary, r.world, r.plugin, r.file, tool, id, result);
      case FileDeleted =>
      case Restarted =>
    }
  }

  lemma PreKeepsRoles(primary: string, w: World, p: Plugin, tool: Tool, id: string)
    requires RolesOk(primary, w, p) && Allowed(primary, w, Pre(tool, id))
    ensures RolesOk(primary, WorldNext(primary, w, Pre(tool, id)), PreHook(p, tool, id))
  {
  }

  // ── Sheets ─────────────────────────────────────────────────────────────────

  /** Well formed; whole exactly if it shows the list, else the list has the header and the sheet has not. */
  predicate SheetOk(s: Sheet, list: string) {
    Stripped(s.list) && GoodText(s.findings)
    && if s.whole then Listed(s.list) == Listed(list) else HasHeader(list) && !HasHeader(s.list)
  }

  /** Numbers in a sheet's findings. */
  ghost predicate Counted(s: Sheet, last: nat, sound: bool, plain: bool) {
    (sound ==> Anchored(s.findings, last))
    && (plain ==> (s.findings == "" && last == 0) || (AtMost(s.findings, last) && Divisible(Strip(s.findings))))
  }

  ghost predicate MemoryMatches(w: World, m: Memory, number: nat) {
    m.checklist == w.mind.list && SameFindings(m.findings, w.mind.findings) && number == w.number
    && (w.sound ==> w.number >= w.last) && (w.plain ==> w.sound && w.number == w.last)
  }

  ghost predicate MemoryOk(w: World, p: Plugin, file: Option<string>) {
    file == (if w.present then Some(Compose(Memory(w.filed.list, w.filed.findings))) else None)
    && (p.memory.Some? <==> w.awake)
    && (w.awake ==> MemoryMatches(w, p.memory.value, p.delegations) && SheetOk(w.mind, w.list) && Counted(w.mind, w.last, w.sound, w.plain))
    && (w.present ==> SheetOk(w.filed, w.list) && Counted(w.filed, w.last, w.sound, w.plain))
    && w == Forget(w)
    && (w.mine ==> w.list == w.own)
    && (w.plain ==> w.sound)
  }

  // ── Waking ─────────────────────────────────────────────────────────────────

  lemma NotWithin(list: string, h: string, p: nat, from: nat, s: string, i: nat)
    requires Texts.FirstAt(list, h, p) && from + |s| <= p <= |list| && s == list[from..from + |s|] && h != ""
    ensures !Texts.OccursAt(s, h, i)
  {
    if i + |h| <= |s| {
      SliceOfSlice(list, from, from + |s|, i, i + |h|);
      assert !Texts.OccursAt(list, h, from + i);
    }
  }

  lemma SliceOfSlice(s: string, a: nat, b: nat, i: nat, j: nat)
    requires a <= b <= |s| && i <= j <= b - a
    ensures s[a..b][i..j] == s[a + i..a + j]
  {
    var x, y := s[a..b][i..j], s[a + i..a + j];
    assert |x| == |y| == j - i;
    forall k | 0 <= k < |x| ensures x[k] == y[k] {
      assert x[k] == s[a..b][i + k] == s[a + i + k];
    }
  }

  lemma UpToIsWithin(list: string, p: nat) returns (from: nat)
    requires p <= |list|
    ensures from + |UpTo(list, p)| <= p && UpTo(list, p) == list[from..from + |UpTo(list, p)|]
  {
    var front := list[..p];
    LStripIs(front);
    RStripIs(LStrip(front));
    from := |front| - |LStrip(front)|;
    SliceOfSlice(list, 0, p, from, p);
    SliceOfSlice(list, from, p, 0, |UpTo(list, p)|);
    assert list[0..p] == front;
  }

  lemma UpToIsClear(list: string, h: string, p: nat)
    requires Texts.IndexOf(list, h, 0) == Some(p) && p <= |list| && h != ""
    ensures Texts.IndexOf(UpTo(list, p), h, 0).None? && Stripped(UpTo(list, p))
  {
    Texts.IndexFound(list, h);
    StripIs(list[..p]);
    var from := UpToIsWithin(list, p);
    NoneWithin(list, h, p, from, UpTo(list, p));
  }

  lemma UpToHasNoHeader(list: string, p: nat)
    requires Texts.IndexOf(list, FINDINGS_HEADER, 0) == Some(p) && p <= |list|
    ensures !HasHeader(UpTo(list, p)) && Stripped(UpTo(list, p))
  {
    UpToIsClear(list, FINDINGS_HEADER, p);
  }

  lemma NoneWithin(list: string, h: string, p: nat, from: nat, s: string)
    requires Texts.FirstAt(list, h, p) && from + |s| <= p <= |list| && s == list[from..from + |s|] && h != ""
    ensures Texts.IndexOf(s, h, 0).None?
  {
    forall i: nat ensures !Texts.OccursAt(s, h, i) {
      NotWithin(list, h, p, from, s, i);
    }
    Texts.IndexFound(s, h);
  }

  /** Cut or not, the sheet a process reads back is in order. */
  lemma ReadBackOk(s: Sheet, list: string)
    requires SheetOk(s, list)
    ensures SheetOk(ReadBack(s), list)
    ensures ReadBack(s).whole == (s.whole && !HasHeader(Listed(s.list)))
  {
    PlaceholdersAreGood();
    CarriedSame(s.findings);
    var at := Texts.IndexOf(Listed(s.list), FINDINGS_HEADER, 0);
    if at.Some? {
      UpToHasNoHeader(Listed(s.list), at.value);
      ShownIsStripped(s.findings);
      SpilledAnchored(Listed(s.list), at.value, Shown(s.findings), 0);
    }
  }

  /** What the process reads is what it is then taken to go by. */
  lemma SplitReadsBack(s: Sheet)
    requires Stripped(s.list)
    ensures var m := Split(Compose(Memory(s.list, s.findings)));
            m.checklist == ReadBack(s).list && m.findings == ReadFindings(s) && SameFindings(m.findings, ReadBack(s).findings)
  {
    var m := Memory(s.list, s.findings);
    SeededExactly(m);
    CarriedSame(s.findings);
    var at := Texts.IndexOf(Listed(s.list), FINDINGS_HEADER, 0);
    if at.Some? {
      SeededCut(m, at.value);
      ShownIsStripped(s.findings);
      SpilledAnchored(Listed(s.list), at.value, Shown(s.findings), 0);
    }
  }

  /** Numbers go on from the last one given, or beyond; exactly from it while nothing looks like another entry. */
  lemma ReadBackCounted(s: Sheet, last: nat, sound: bool, plain: bool)
    requires Counted(s, last, sound, plain) && (plain ==> sound)
    ensures var still := plain && !HasHeader(Listed(s.list));
            Counted(ReadBack(s), last, sound, still)
            && (sound ==> MaxNumber(ReadFindings(s)) >= last) && (still ==> MaxNumber(ReadFindings(s)) == last)
  {
    var at := Texts.IndexOf(Listed(s.list), FINDINGS_HEADER, 0);
    ShownIsStripped(s.findings);
    if sound {
      CarriedAnchored(s.findings, last);
      if at.Some? {
        SpilledAnchored(Listed(s.list), at.value, Shown(s.findings), last);
      }
      AnchoredCounts(ReadFindings(s), last);
    }
    if plain && at.None? {
      PlainCounted(s.findings, last);
      AtMostCounts(Shown(s.findings), last);
      CarriedSame(s.findings);
      StripIs(Carried(s.findings));
    }
  }

  lemma PlainCounted(f: string, last: nat)
    requires (f == "" && last == 0) || (AtMost(f, last) && Divisible(Strip(f)))
    ensures AtMost(Carried(f), last) && Divisible(Carried(f)) && AtMost(Shown(f), last)
  {
    if f == "" {
      NoStartInPlaceholder();
    } else {
      CarriedAtMost(f, last);
    }
  }

  lemma SeedKeeps(w: World, p: Plugin, file: Option<string>)
    requires MemoryOk(w, p, file)
    ensures MemoryOk(Woken(w), Seed(p, file), file) && Woken(w).awake
  {
    if !w.awake {
      if w.present {
        SplitReadsBack(w.filed);
        ReadBackOk(w.filed, w.list);
        ReadBackCounted(w.filed, w.last, w.sound, w.plain);
      } else {
        EmptyReadsEmpty();
      }
    }
  }

  // ── Writing and healing ────────────────────────────────────────────────────

  /** What memory would write is what the world says it goes by. */
  lemma MemoryComposes(w: World, m: Memory)
    requires m.checklist == w.mind.list && SameFindings(m.findings, w.mind.findings)
    ensures Compose(m) == Compose(Memory(w.mind.list, w.mind.findings))
    ensures m.findings == "" <==> w.mind.findings == ""
  {
    SameShows(m.findings, w.mind.findings);
  }

  lemma WriteKeeps(w: World, p: Plugin, file: Option<string>)
    requires MemoryOk(w, p, file) && w.awake
    ensures MemoryOk(Written(w), p, Some(Compose(p.memory.value)))
  {
    MemoryComposes(w, p.memory.value);
  }

  lemma HealKeeps(w: World, p: Plugin, file: Option<string>)
    requires MemoryOk(w, p, file) && w.awake
    ensures MemoryOk(Healed(w), p, Heal(p.memory.value, file))
  {
    MemoryComposes(w, p.memory.value);
    if !w.present && (w.mind.list != "" || w.mind.findings != "") {
      WriteKeeps(w, p, file);
    }
  }

  // ── Reports and lists ──────────────────────────────────────────────────────

  /** A report in memory and in the world. */
  lemma RecordKeeps(w: World, m: Memory, rest: string)
    requires MemoryMatches(w, m, w.number) && SheetOk(w.mind, w.list) && Counted(w.mind, w.last, w.sound, w.plain) && (w.plain ==> w.sound)
    ensures var v := Recorded(w, rest);
            MemoryMatches(v, Memory(m.checklist, Append(m.findings, EntryText(w.number + 1, rest))), w.number + 1)
            && SheetOk(v.mind, v.list) && Counted(v.mind, v.last, v.sound, v.plain) && (v.plain ==> v.sound)
  {
    EntryTextIs(w.number + 1, rest);
    ReportKeeps(w, m, w.number + 1, EntryText(w.number + 1, rest), Recorded(w, rest));
    AppendedCounted(w.mind, w.last, w.sound, w.plain, w.number + 1, rest);
    RecordedIs(w, rest);
  }

  lemma RecordedIs(w: World, rest: string)
    ensures var v, e := Recorded(w, rest), EntryText(w.number + 1, rest);
            v.mind == w.mind.(findings := Append(w.mind.findings, e)) && v.number == v.last == w.number + 1
            && v.sound == (w.sound && Sound(e)) && v.plain == (w.plain && Plain(e)) && v.list == w.list
  {
  }

  lemma ReportKeeps(w: World, m: Memory, n: nat, e: string, v: World)
    requires MemoryMatches(w, m, w.number) && SheetOk(w.mind, w.list) && (w.plain ==> w.sound) && EntryHead(e)
    requires v.mind == w.mind.(findings := Append(w.mind.findings, e)) && v.list == w.list
    requires n == w.number + 1 && v.number == n == v.last && (v.sound ==> w.sound) && (v.plain ==> w.plain && v.sound)
    ensures MemoryMatches(v, Memory(m.checklist, Append(m.findings, e)), n) && SheetOk(v.mind, v.list)
  {
    AppendSame(m.findings, w.mind.findings, e);
  }

  lemma AppendedCounted(s: Sheet, last: nat, sound: bool, plain: bool, n: nat, rest: string)
    requires Counted(s, last, sound, plain) && GoodText(s.findings) && (plain ==> n == last + 1)
    ensures var e := EntryText(n, rest);
            Counted(s.(findings := Append(s.findings, e)), n, sound && Sound(e), plain && Plain(e))
  {
    var e := EntryText(n, rest);
    if Sound(e) {
      AppendAnchored(s.findings, n, rest);
    }
    if plain && Plain(e) {
      AppendAtMost(s.findings, n, rest);
    }
  }

  lemma DelegateWrites(p: Plugin, file: Option<string>, id: string, result: ToolResult)
    requires p.memory.Some?
    ensures var (q, written) := PostDelegate(p, file, id, result);
            if result.Report? then
              q.delegations == p.delegations + 1
              && q.memory == Some(Memory(p.memory.value.checklist, Append(p.memory.value.findings, EntryText(q.delegations, result.rest))))
              && written == Some(Compose(q.memory.value))
            else q.memory == p.memory && q.delegations == p.delegations && written == file
  {
  }

  lemma DelegateKeeps(w: World, v: World, p: Plugin, file: Option<string>, id: string, result: ToolResult)
    requires MemoryOk(w, p, file) && w.awake
    requires v == if result.Report? then Recorded(w, result.rest) else w
    ensures MemoryOk(v, PostDelegate(p, file, id, result).0, PostDelegate(p, file, id, result).1)
  {
    var (q, written) := PostDelegate(p, file, id, result);
    DelegateWrites(p, file, id, result);
    if result.Report? {
      RecordKeeps(w, p.memory.value, result.rest);
      MemoryComposes(v, q.memory.value);
    }
  }

  /** A list that is taken, in memory and in the world. */
  lemma TakenKeeps(primary: string, w: World, m: Memory, id: string, list: string)
    requires MemoryMatches(w, m, w.number) && SheetOk(w.mind, w.list) && Counted(w.mind, w.last, w.sound, w.plain)
    requires Strip(list) != "" && id !in SeenAfter(primary, w, id)
    ensures var v := Taken(primary, w, id, list);
            MemoryMatches(v, m.(checklist := Strip(list)), w.number)
            && SheetOk(v.mind, v.list) && Counted(v.mind, v.last, v.sound, v.plain) && (v.mine ==> v.list == v.own)
  {
    StripIs(list);
  }

  lemma TodoWrites(p: Plugin, file: Option<string>, id: string, result: ToolResult)
    requires p.memory.Some?
    ensures var (q, written) := PostTodo(p, file, id, result);
            q.delegations == p.delegations && q.subagents == Observe(p, id).subagents
            && if id in q.subagents || !result.Todos? || Strip(result.list) == "" then q.memory == p.memory && written == file
               else q.memory == Some(p.memory.value.(checklist := Strip(result.list))) && written == Some(Compose(q.memory.value))
  {
  }

  lemma TodoKeeps(primary: string, w: World, p: Plugin, file: Option<string>, id: string, result: ToolResult)
    requires MemoryOk(w, p, file) && w.awake
    requires id in SeenAfter(primary, w, id) <==> id in Observe(p, id).subagents
    ensures var v := if result.Todos? then Taken(primary, w, id, result.list) else w.(seen := SeenAfter(primary, w, id));
            MemoryOk(v, PostTodo(p, file, id, result).0, PostTodo(p, file, id, result).1)
  {
    var (q, written) := PostTodo(p, file, id, result);
    TodoWrites(p, file, id, result);
    if id !in q.subagents && result.Todos? && Strip(result.list) != "" {
      TakenKeeps(primary, w, p.memory.value, id, result.list);
      MemoryComposes(Taken(primary, w, id, result.list), q.memory.value);
    }
  }

  lemma DelegatePosted(primary: string, w: World, p: Plugin, file: Option<string>, id: string, result: ToolResult)
    requires MemoryOk(w, p, file) && w.awake
    ensures var v := Posted(primary, w, Delegate, id, result);
            v.awake && MemoryOk(v, PostDelegate(p, file, id, result).0, PostDelegate(p, file, id, result).1)
  {
    var v := w.(inflight := Max(0, w.inflight - 1));
    DelegateKeeps(v, Posted(primary, w, Delegate, id, result), p, file, id, result);
  }

  lemma TodoPosted(primary: string, w: World, p: Plugin, file: Option<string>, id: string, result: ToolResult)
    requires MemoryOk(w, p, file) && w.awake && RolesOk(primary, w, p)
    ensures var v := Posted(primary, w, Todo, id, result);
            v.awake && MemoryOk(v, PostTodo(p, file, id, result).0, PostTodo(p, file, id, result).1)
  {
    assert SeenAfter(primary, w, id) == Observe(p, id).subagents;
    TodoKeeps(primary, w, p, file, id, result);
  }

  /** The part of the post-hook between seeding and healing. */
  function Handled(p: Plugin, file: Option<string>, tool: Tool, id: string, result: ToolResult): (Plugin, Option<string>)
    requires p.memory.Some?
  {
    match tool
    case Delegate => PostDelegate(p, file, id, result)
    case Todo => PostTodo(p, file, id, result)
    case OtherTool => (p, file)
  }

  lemma PostedKeeps(primary: string, w: World, p: Plugin, file: Option<string>, tool: Tool, id: string, result: ToolResult)
    requires MemoryOk(w, p, file) && w.awake && RolesOk(primary, w, p)
    ensures var v, (q, written) := Posted(primary, w, tool, id, result), Handled(p, file, tool, id, result);
            v.awake && MemoryOk(v, q, written)
  {
    match tool
    case Delegate => DelegatePosted(primary, w, p, file, id, result);
    case Todo => TodoPosted(primary, w, p, file, id, result);
    case OtherTool =>
  }

  lemma PostKeepsMemory(primary: string, w: World, p: Plugin, file: Option<string>, tool: Tool, id: string, result: ToolResult)
    requires MemoryOk(w, p, file) && RolesOk(primary, w, p) && Allowed(primary, w, Post(tool, id, result))
    ensures var (q, after) := PostHook(p, file, tool, id, result);
            MemoryOk(WorldNext(primary, w, Post(tool, id, result)), q, after)
  {
    SeedKeeps(w, p, file);
    var woken, seeded := Woken(w), Seed(p, file);
    assert RolesOk(primary, woken, seeded);
    var (q, written) := Handled(seeded, file, tool, id, result);
    PostedKeeps(primary, woken, seeded, file, tool, id, result);
    HealKeeps(Posted(primary, woken, tool, id, result), q, written);
  }

  /** Roles aside, nothing has changed. */
  lemma RolesAside(w: World, v: World, p: Plugin, q: Plugin, file: Option<string>)
    requires MemoryOk(w, p, file) && q.memory == p.memory && q.delegations == p.delegations
    requires v == w.(inflight := v.inflight, delegated := v.delegated, callers := v.callers, seen := v.seen)
    ensures MemoryOk(v, q, file)
  {
  }

  lemma BeginningMovesRoles(primary: string, w: World, p: Plugin, tool: Tool, id: string)
    ensures var v, q := WorldNext(primary, w, Pre(tool, id)), PreHook(p, tool, id);
            v == w.(inflight := v.inflight, delegated := v.delegated, callers := v.callers, seen := v.seen)
            && q.memory == p.memory && q.delegations == p.delegations
  {
  }

  /** Calls that only begin change nothing that is remembered. */
  lemma PreKeepsMemory(primary: string, w: World, p: Plugin, file: Option<string>, tool: Tool, id: string)
    requires MemoryOk(w, p, file)
    ensures MemoryOk(WorldNext(primary, w, Pre(tool, id)), PreHook(p, tool, id), file)
  {
    BeginningMovesRoles(primary, w, p, tool, id);
    RolesAside(w, WorldNext(primary, w, Pre(tool, id)), p, PreHook(p, tool, id), file);
  }

  lemma DeletionKeepsMemory(w: World, p: Plugin, file: Option<string>)
    requires MemoryOk(w, p, file)
    ensures MemoryOk(Forget(w.(present := false)), p, None)
  {
  }

  lemma RestartKeepsMemory(w: World, p: Plugin, file: Option<string>)
    requires MemoryOk(w, p, file)
    ensures MemoryOk(Forget(w.(inflight := 0, delegated := false, callers := {}, seen := {}, awake := false)), FRESH, file)
  {
  }

  lemma MemoryKept(primary: string, r: Run, ev: Event)
    requires RolesOk(primary, r.world, r.plugin) && MemoryOk(r.world, r.plugin, r.file)
    ensures var s := Next(primary, r, ev); MemoryOk(s.world, s.plugin, s.file)
  {
    if Allowed(primary, r.world, ev) {
      match ev
      case Pre(tool, id) => PreKeepsMemory(primary, r.world, r.plugin, r.file, tool, id);
      case Post(tool, id, result) => PostKeepsMemory(primary, r.world, r.plugin, r.file, tool, id, result);
      case FileDeleted => DeletionKeepsMemory(r.world, r.plugin, r.file);
      case Restarted => RestartKeepsMemory(r.world, r.plugin, r.file);
    }
  }

  lemma StartIsOk(primary: string)
    ensures RolesOk(primary, START.world, START.plugin) && MemoryOk(START.world, START.plugin, START.file)
  {
  }

  lemma {:induction false} RunKeeps(primary: string, events: seq<Event>)
    ensures var r := After(primary, events); RolesOk(primary, r.world, r.plugin) && MemoryOk(r.world, r.plugin, r.file)
  {
    if |events| == 0 {
      StartIsOk(primary);
    } else {
      var before, last := events[..|events| - 1], events[|events| - 1];
      RunKeeps(primary, before);
      RolesKept(primary, After(primary, before), last);
      MemoryKept(primary, After(primary, before), last);
    }
  }

  // ── Results ────────────────────────────────────────────────────────────────

  /**
   * Whatever the interleaving of calls, deletions and restarts: the file is there
   * exactly if the world says so, and shows what was last written: a list, and all
   * reports, trimmed once. The list is the primary's last if that was the last one
   * taken, and it is whole exactly if no process has since resumed the file while the
   * Findings header occurred in it.
   */
  lemma FileIsThePrimarys(primary: string, events: seq<Event>)
    ensures var r := After(primary, events);
            var w := r.world;
            r.file == (if w.present then Some(Write(CHECKLIST_HEADER, FINDINGS_HEADER, Listed(w.filed.list), Shown(w.filed.findings)))
                       else None)
            && (w.present ==> (Listed(w.filed.list) == Listed(w.list) <==> w.filed.whole))
            && (w.mine ==> w.list == w.own)
  {
    RunKeeps(primary, events);
    WholeExactly(After(primary, events).world);
  }

  lemma WholeExactly(w: World)
    requires w.present ==> SheetOk(w.filed, w.list)
    ensures w.present ==> (Listed(w.filed.list) == Listed(w.list) <==> w.filed.whole)
  {
    PlaceholdersAreGood();
  }

  /** No list that anybody hands in has the header. */
  predicate HeaderFree(events: seq<Event>) {
    forall i :: 0 <= i < |events| ==> HeaderFreeEvent(events[i])
  }

  predicate HeaderFreeEvent(ev: Event) {
    ev.Post? && ev.result.Todos? ==> !HasHeader(Strip(ev.result.list))
  }

  predicate Clear(w: World) {
    !HasHeader(w.list) && w.mind.whole && w.filed.whole
    && (w.awake ==> Listed(w.mind.list) == Listed(w.list)) && (w.present ==> Listed(w.filed.list) == Listed(w.list))
  }

  /** Then the list on file is always whole, restarts or not. */
  lemma {:induction false} HeaderFreeListsSurvive(primary: string, events: seq<Event>)
    requires HeaderFree(events)
    ensures Clear(After(primary, events).world)
  {
    if |events| == 0 {
      EmptyHasNoHeader();
    } else {
      var before, last := events[..|events| - 1], events[|events| - 1];
      HeaderFreeListsSurvive(primary, before);
      RunKeeps(primary, before);
      var r := After(primary, before);
      if Allowed(primary, r.world, last) {
        ClearKept(primary, r.world, last);
      }
    }
  }

  lemma EmptyHasNoHeader()
    ensures !HasHeader("")
  {
    NoHashNoHeader("");
  }

  lemma ClearKept(primary: string, w: World, ev: Event)
    requires Clear(w) && w == Forget(w) && HeaderFreeEvent(ev)
    ensures Clear(WorldNext(primary, w, ev))
  {
    match ev
    case Pre(tool, id) => BeginningIsClear(primary, w, tool, id);
    case Post(tool, id, result) =>
      WakingIsClear(w);
      PostedIsClear(primary, Woken(w), tool, id, result);
    case FileDeleted => ForgettingIsClear(w.(present := false));
    case Restarted => ForgettingIsClear(w.(inflight := 0, delegated := false, callers := {}, seen := {}, awake := false));
  }

  lemma BeginningIsClear(primary: string, w: World, tool: Tool, id: string)
    requires Clear(w)
    ensures Clear(WorldNext(primary, w, Pre(tool, id)))
  {
  }

  lemma ForgettingIsClear(w: World)
    requires Clear(w)
    ensures Clear(Forget(w))
  {
    EmptyHasNoHeader();
  }

  lemma WakingIsClear(w: World)
    requires Clear(w) && w == Forget(w)
    ensures Clear(Woken(w))
  {
    PlaceholdersAreGood();
  }

  lemma PostedIsClear(primary: string, w: World, tool: Tool, id: string, result: ToolResult)
    requires Clear(w) && w.awake && (result.Todos? ==> !HasHeader(Strip(result.list)))
    ensures Clear(Healed(Posted(primary, w, tool, id, result)))
  {
  }

  /**
   * What a restart changes in what is shown. At any point of a run, a process that goes
   * on and one that takes over its file record the next report: each shows the findings
   * with that report, cut once, the one with the white space at their end and the other
   * without, and they show the same entries exactly where that white space does not decide.
   */
  lemma RestartShowsTheSameEntries(primary: string, events: seq<Event>, m: Memory, e: string, i: nat)
    requires After(primary, events).plugin.memory == Some(m) && !HasHeader(Listed(m.checklist))
    requires EntryHead(e) && Divisible(Strip(m.findings)) && IsStart(Strip(m.findings), i)
    ensures var g, r := Strip(m.findings), RStrip(e);
            var goesOn, resumed := g + (TailOf(m.findings) + SEPARATOR) + r, g + SEPARATOR + r;
            Shown(Append(m.findings, e)) == Cut(LEAD, goesOn)
            && Shown(Append(Split(Compose(m)).findings, e)) == Cut(LEAD, resumed)
            && (Survives(LEAD, resumed, i) == Survives(LEAD, goesOn, i) <==> !TailDecidesAt(LEAD, g, |TailOf(m.findings)|, r, i))
  {
    RunKeeps(primary, events);
    GoodParts(m.findings);
    EntryStripped(e);
    SeededExactly(m);
    FindingsShow(m.findings, e);
    ResumedFindingsShow(m.findings, e);
    RestartKeepsTheSameEntries(LEAD, Strip(m.findings), TailOf(m.findings), RStrip(e), i);
  }

  lemma FindingsShow(f: string, e: string)
    requires GoodText(f) && EntryHead(e) && Strip(f) != ""
    ensures Shown(Append(f, e)) == Cut(LEAD, Strip(f) + (TailOf(f) + SEPARATOR) + RStrip(e))
  {
    GoodParts(f);
    AppendParts(f, e);
    GoodParts(Append(f, e));
    LeadIsGood();
    CutTwice(LEAD, Strip(Append(f, e)));
  }

  lemma ResumedFindingsShow(f: string, e: string)
    requires GoodText(f) && EntryHead(e) && Strip(f) != "" && Divisible(Strip(f))
    ensures Shown(Append(Shown(f), e)) == Cut(LEAD, Strip(f) + SEPARATOR + RStrip(e))
  {
    GoodParts(f);
    LeadIsGood();
    CutTwice(LEAD, Strip(f));
    TrimThenAppend(f, e);
    EntryStripped(e);
    AppendStripped(Strip(f), "", e);
    assert Strip(f) + "" == Strip(f) && "" + SEPARATOR == SEPARATOR;
    EntryBehind(Strip(f), e);
    CutTwice(LEAD, Strip(Append(Strip(f), e)));
  }

  lemma EntryBehind(g: string, e: string)
    requires Strip(Append(g, e)) == g + SEPARATOR + RStrip(e)
    ensures Stripped(Strip(Append(g, e))) && Strip(Append(g, e)) != ""
  {
    StripIs(Append(g, e));
  }

  /** After every post-hook the file is there as soon as there is anything to lose. */
  lemma PostHookHeals(primary: string, events: seq<Event>, tool: Tool, id: string, result: ToolResult)
    requires Allowed(primary, After(primary, events).world, Post(tool, id, result))
    ensures var r := Next(primary, After(primary, events), Post(tool, id, result));
            r.world.awake && (r.world.mind.list != "" || r.world.mind.findings != "" ==> r.world.present && r.file.Some?)
  {
    RunKeeps(primary, events);
    HealedHere(primary, After(primary, events).world, After(primary, events).plugin, After(primary, events).file, tool, id, result);
  }

  lemma HealedHere(primary: string, w: World, p: Plugin, file: Option<string>, tool: Tool, id: string, result: ToolResult)
    requires MemoryOk(w, p, file) && RolesOk(primary, w, p) && Allowed(primary, w, Post(tool, id, result))
    ensures var v := WorldNext(primary, w, Post(tool, id, result));
            v.awake && (v.mind.list != "" || v.mind.findings != "" ==> v.present && PostHook(p, file, tool, id, result).1.Some?)
  {
    PostKeepsMemory(primary, w, p, file, tool, id, result);
  }

  /**
   * A report recorded now gets a number above every number given before, across
   * restarts, while every report fits in the room or holds no line like an entry's
   * first; and the next one exactly, while none does hold one and no list was cut.
   */
  lemma NumbersIncrease(primary: string, events: seq<Event>, rest: string)
    requires Allowed(primary, After(primary, events).world, Post(Delegate, primary, Report(rest)))
    ensures var w := After(primary, events).world;
            var v := Next(primary, After(primary, events), Post(Delegate, primary, Report(rest))).world;
            v.last == v.number == Woken(w).number + 1
            && (w.sound ==> v.last > w.last) && (Woken(w).plain ==> v.last == w.last + 1)
  {
    RunKeeps(primary, events);
    var r := After(primary, events);
    SeedKeeps(r.world, r.plugin, r.file);
  }

  /** Roles: exactly the sub-agents that have called while a delegation was in flight are known; the primary never is. */
  lemma SubAgentsAreKnown(primary: string, events: seq<Event>, id: string)
    ensures var r := After(primary, events);
            (id in r.plugin.subagents <==> id in r.world.seen) && primary !in r.plugin.subagents
  {
    RunKeeps(primary, events);
  }

  /**
   * Whose list is taken: the primary's always, a sub-agent's exactly if it has not
   * given itself away by this call or an earlier one.
   */
  lemma ListsAreTakenExactly(primary: string, events: seq<Event>, id: string, list: string)
    requires Allowed(primary, After(primary, events).world, Post(Todo, id, Todos(list))) && Strip(list) != ""
    ensures var w := After(primary, events).world;
            var v := Next(primary, After(primary, events), Post(Todo, id, Todos(list))).world;
            var known := id in SeenAfter(primary, w, id);
            (id == primary ==> !known)
            && (if known then v.list == w.list && v.own == w.own
                else v.list == v.filed.list == Strip(list) && v.mine == (id == primary) && v.present)
  {
    RunKeeps(primary, events);
    TakenList(primary, Woken(After(primary, events).world), id, list);
  }

  lemma TakenList(primary: string, w: World, id: string, list: string)
    requires Strip(list) != ""
    ensures var v := Healed(Posted(primary, w, Todo, id, Todos(list)));
            if id in SeenAfter(primary, w, id) then v.list == w.list && v.own == w.own
            else v.list == v.filed.list == Strip(list) && v.mine == (id == primary) && v.present
  {
  }

  /** If every sub-agent calls while a delegation is in flight, no list but the primary's is ever taken. */
  ghost predicate Prompt(primary: string, events: seq<Event>) {
    forall i: nat :: i < |events| ==> PromptAt(primary, events, i)
  }

  ghost predicate PromptAt(primary: string, events: seq<Event>, i: nat)
    requires i < |events|
  {
    events[i].Pre? && events[i].id != primary ==> After(primary, events[..i]).world.inflight > 0
  }

  lemma {:induction false} PromptCallersOwnNothing(primary: string, events: seq<Event>)
    requires Prompt(primary, events)
    ensures After(primary, events).world.callers <= After(primary, events).world.seen && After(primary, events).world.mine
  {
    if |events| > 0 {
      var before, last := events[..|events| - 1], events[|events| - 1];
      forall i: nat | i < |before| ensures PromptAt(primary, before, i) {
        assert PromptAt(primary, events, i) && before[..i] == events[..i];
      }
      PromptCallersOwnNothing(primary, before);
      RunKeeps(primary, before);
      assert PromptAt(primary, events, |before|);
      PromptStep(primary, After(primary, before).world, After(primary, before).plugin, last);
    }
  }

  lemma PromptStep(primary: string, w: World, p: Plugin, ev: Event)
    requires RolesOk(primary, w, p)
    requires w.callers <= w.seen && w.mine && (ev.Pre? && ev.id != primary ==> w.inflight > 0)
    ensures Allowed(primary, w, ev) ==> WorldNext(primary, w, ev).callers <= WorldNext(primary, w, ev).seen && WorldNext(primary, w, ev).mine
  {
    if Allowed(primary, w, ev) && ev.Post? {
      PostRoles(primary, w, ev.tool, ev.id, ev.result);
      MineStays(primary, Woken(w), ev.tool, ev.id, ev.result);
    }
  }

  lemma MineStays(primary: string, w: World, tool: Tool, id: string, result: ToolResult)
    requires w.mine && (id == primary || id in w.seen)
    ensures Healed(Posted(primary, w, tool, id, result)).mine
  {
  }

  // ── The cut list, as a run ─────────────────────────────────────────────────

  /**
   * The primary hands in a list with the header in it, the process ends, and the next
   * one records a report: the file then shows the list only up to the header, and the
   * rest of it among the findings. For every such list.
   */
  lemma CutListIsLost(primary: string, list: string, p: nat, rest: string)
    requires Stripped(list) && Texts.IndexOf(list, FINDINGS_HEADER, 0) == Some(p) && p + |FINDINGS_HEADER| <= |list|
    ensures var events := [Post(Todo, primary, Todos(list)), Restarted, Pre(Delegate, primary), Post(Delegate, primary, Report(rest))];
            var w := After(primary, events).world;
            w.own == w.list == list && !w.filed.whole && w.filed.list == UpTo(list, p)
            && After(primary, events).file == Some(Compose(Memory(w.filed.list, w.filed.findings)))
            && w.filed.findings == Append(Spilled(FINDINGS_HEADER, list, p, NONE_YET), EntryText(w.number, rest))
  {
    var e1, e2, e3, e4 := Post(Todo, primary, Todos(list)), Restarted, Pre(Delegate, primary), Post(Delegate, primary, Report(rest));
    FourSteps(primary, e1, e2, e3, e4);
    RunKeeps(primary, [e1, e2, e3, e4]);
    StripIs(list);
    FirstListIsFiled(primary, list);
    CutAtWaking(primary, WorldNext(primary, NOTHING, e1), list, p, rest);
  }

  lemma OneMore(primary: string, before: seq<Event>, ev: Event)
    ensures After(primary, before + [ev]) == Next(primary, After(primary, before), ev)
  {
    assert (before + [ev])[..|before|] == before;
  }

  lemma FourSteps(primary: string, e1: Event, e2: Event, e3: Event, e4: Event)
    ensures After(primary, [e1, e2, e3, e4])
            == Next(primary, Next(primary, Next(primary, Next(primary, START, e1), e2), e3), e4)
  {
    OneMore(primary, [], e1);
    assert [] + [e1] == [e1];
    OneMore(primary, [e1], e2);
    assert [e1] + [e2] == [e1, e2];
    OneMore(primary, [e1, e2], e3);
    assert [e1, e2] + [e3] == [e1, e2, e3];
    OneMore(primary, [e1, e2, e3], e4);
    assert [e1, e2, e3] + [e4] == [e1, e2, e3, e4];
  }

  lemma FirstListIsFiled(primary: string, list: string)
    requires Strip(list) == list != ""
    ensures var w := WorldNext(primary, NOTHING, Post(Todo, primary, Todos(list)));
            w.list == w.own == list && w.present && w.filed == Sheet(list, "", true) && w.inflight == 0 && w.awake
  {
    EmptyReadsEmpty();
  }

  lemma CutAtWaking(primary: string, w: World, list: string, p: nat, rest: string)
    requires w.list == w.own == list && w.present && w.filed == Sheet(list, "", true) && w.inflight == 0
    requires Texts.IndexOf(list, FINDINGS_HEADER, 0) == Some(p) && p + |FINDINGS_HEADER| <= |list|
    ensures var v := WorldNext(primary, WorldNext(primary, w, Restarted), Pre(Delegate, primary));
            var u := WorldNext(primary, v, Post(Delegate, primary, Report(rest)));
            v.inflight == 1 && u.own == u.list == list && u.present && !u.filed.whole && u.filed.list == UpTo(list, p)
            && u.filed.findings == Append(Spilled(FINDINGS_HEADER, list, p, NONE_YET), EntryText(u.number, rest))
  {
    NothingToShow();
    assert Listed(list) == list;
  }

  lemma NothingToShow()
    ensures Shown("") == NONE_YET
  {
  }

  lemma HeaderAtTheEnd(front: string, h: string)
    requires h != "" && h[0] !in front
    ensures Texts.IndexOf(front + h, h, 0) == Some(|front|)
  {
    var list := front + h;
    assert list[|front|..|front| + |h|] == h;
    forall i: nat | i < |front| ensures !Texts.OccursAt(list, h, i) {
      if i + |h| <= |list| {
        assert list[i..i + |h|][0] == front[i];
      }
    }
    Texts.IndexIs(list, h, |front|);
  }

  const COPY := "- [ ] Copy the survey into"

  /** One such list. */
  lemma CopyTheSurvey(primary: string, rest: string)
    ensures var events := [Post(Todo, primary, Todos(COPY + " " + FINDINGS_HEADER)), Restarted, Pre(Delegate, primary),
                           Post(Delegate, primary, Report(rest))];
            var w := After(primary, events).world;
            w.own == COPY + " " + FINDINGS_HEADER && w.filed.list == COPY
            && After(primary, events).file == Some(Compose(Memory(COPY, w.filed.findings)))
  {
    var front := COPY + " ";
    HeaderAtTheEnd(front, FINDINGS_HEADER);
    HeaderEnds();
    assert (front + FINDINGS_HEADER)[..|front|] == front;
    StripAround("", COPY, " ");
    assert "" + COPY + " " == front;
    CutListIsLost(primary, front + FINDINGS_HEADER, |front|, rest);
  }

  lemma HeaderEnds()
    ensures Stripped(COPY + " " + FINDINGS_HEADER) && Stripped(COPY) && FINDINGS_HEADER[0] !in COPY + " "
  {
  }
}
