/**
 * worker_guard: the primary agent orchestrates, its sub-agents edit. Who is who is
 * told from the order of tool calls alone, and the primary's id may be empty.
 */
module WorkerGuard {
  import opened Common

  datatype Guard = Guard(primary: Option<string>, active: nat, subagents: set<string>)

  const FRESH := Guard(None, 0, {})

  /** A tool as the guard tells them apart; a terminal call with what its command does. */
  datatype Tool = Delegate | WriteFile | Patch | CodeExec | Terminal(gitWrite: bool, fileWrite: bool) | ReadFile | Other

  datatype Verdict = Allow | BlockGit | BlockEdit | BlockCode | BlockShell

  // ── What the hooks do ──────────────────────────────────────────────────────

  function Track(g: Guard, tool: Tool, id: string): Guard {
    if tool == Delegate then
      g.(primary := if g.primary.None? && id != "" then Some(id) else g.primary, active := g.active + 1)
    else
      g.(subagents := if g.active > 0 && id != "" && Some(id) != g.primary then g.subagents + {id} else g.subagents,
         primary := if g.primary.None? && id != "" then Some(id) else g.primary)
  }

  function Judge(subagent: bool, tool: Tool): Verdict {
    if tool.Delegate? then Allow
    else if tool.Terminal? && tool.gitWrite then BlockGit
    else if subagent then Allow
    else
      match tool
      case WriteFile => BlockEdit
      case Patch => BlockEdit
      case CodeExec => BlockCode
      case Terminal(_, fileWrite) => if fileWrite then BlockShell else Allow
      case _ => Allow
  }

  function PreHook(g: Guard, tool: Tool, id: string): (Guard, Verdict) {
    var next := Track(g, tool, id);
    (next, Judge(id in next.subagents, tool))
  }

  function PostHook(g: Guard, tool: Tool): Guard {
    if tool == Delegate then g.(active := Max(0, g.active - 1)) else g
  }

  /** _is_subagent: whose reads are left uncapped. */
  predicate Uncapped(g: Guard, id: string) {
    id != "" && id in g.subagents
  }

  // ── The hooks as they are written ──────────────────────────────────────────

  class WorkerGuardPlugin {
    var primary: Option<string>
    var active: nat
    var subagents: set<string>

    function State(): Guard
      reads this
    {
      Guard(primary, active, subagents)
    }

    constructor ()
      ensures State() == FRESH
    {
      primary, active, subagents := None, 0, {};
    }

    method OnPreToolCall(tool: Tool, id: string) returns (verdict: Verdict)
      modifies this
      ensures (State(), verdict) == PreHook(old(State()), tool, id)
    {
      if tool == Delegate {
        if primary.None? && id != "" {
          primary := Some(id);
        }
        active := active + 1;
        return Allow;
      }
      if active > 0 && id != "" && Some(id) != primary {
        subagents := subagents + {id};
      }
      if primary.None? && id != "" {
        primary := Some(id);
      }
      if tool.Terminal? && tool.gitWrite {
        return BlockGit;
      }
      if id in subagents {
        return Allow;
      }
      if tool in {WriteFile, Patch} {
        return BlockEdit;
      }
      if tool == CodeExec {
        return BlockCode;
      }
      if tool.Terminal? && tool.fileWrite {
        return BlockShell;
      }
      return Allow;
    }

    method OnPostToolCall(tool: Tool)
      modifies this`active
      ensures State() == PostHook(old(State()), tool)
    {
      if tool == Delegate {
        active := Max(0, active - 1);
      }
    }
  }

  // ── Every interleaving ─────────────────────────────────────────────────────

  datatype Event = Pre(tool: Tool, id: string) | Post(tool: Tool)

  /**
   * What really happened, told without looking at the guard: delegations in flight,
   * whether there ever was one, the first non-empty id to call, and the ids that
   * have called.
   */
  datatype World = World(inflight: nat, delegated: bool, first: Option<string>, called: set<string>)

  datatype Run = Run(world: World, guard: Guard)

  const START := Run(World(0, false, None, {}), FRESH)

  /**
   * The primary may call at any time. A sub-agent never delegates, exists only after
   * some delegation, and has a non-empty id of its own; it may still be calling when
   * no delegation is in flight any more, as that of a background one is.
   */
  predicate Allowed(primary: string, w: World, ev: Event) {
    match ev
    case Pre(tool, id) => id == primary || (tool != Delegate && id != "" && w.delegated)
    case Post(tool) => tool == Delegate ==> w.inflight > 0
  }

  function WorldNext(w: World, ev: Event): World {
    match ev
    case Pre(tool, id) =>
      World(if tool == Delegate then w.inflight + 1 else w.inflight, w.delegated || tool == Delegate,
            if w.first.None? && id != "" then Some(id) else w.first, w.called + {id})
    case Post(tool) => if tool == Delegate then w.(inflight := Max(0, w.inflight - 1)) else w
  }

  /** An event that the discipline rules out does not happen. */
  function Next(primary: string, r: Run, ev: Event): Run {
    if !Allowed(primary, r.world, ev) then r
    else Run(WorldNext(r.world, ev), if ev.Pre? then PreHook(r.guard, ev.tool, ev.id).0 else PostHook(r.guard, ev.tool))
  }

  function After(primary: string, events: seq<Event>): Run {
    if |events| == 0 then START else Next(primary, After(primary, events[..|events| - 1]), events[|events| - 1])
  }

  /** A call that gives its caller away: a delegation is in flight, and the first caller was somebody else. */
  predicate GivesAway(w: World, ev: Event, id: string) {
    ev.Pre? && ev.tool != Delegate && ev.id == id != "" && w.inflight > 0 && w.first != Some(id)
  }

  predicate GaveAway(primary: string, events: seq<Event>, i: nat, id: string)
    requires i < |events|
  {
    var w := After(primary, events[..i]).world;
    Allowed(primary, w, events[i]) && GivesAway(w, events[i], id)
  }

  /** Some call so far gave the id away as a sub-agent's. */
  ghost predicate Recognised(primary: string, events: seq<Event>, id: string) {
    exists i: nat :: i < |events| && GaveAway(primary, events, i, id)
  }

  lemma RecognisedSnoc(primary: string, before: seq<Event>, ev: Event, id: string)
    ensures Recognised(primary, before + [ev], id) <==>
              Recognised(primary, before, id)
              || (Allowed(primary, After(primary, before).world, ev) && GivesAway(After(primary, before).world, ev, id))
  {
    var events := before + [ev];
    assert events[..|before|] == before;
    forall i: nat | i < |before| ensures GaveAway(primary, events, i, id) == GaveAway(primary, before, i, id) {
      assert events[..i] == before[..i];
    }
    if Recognised(primary, before, id) {
      var i: nat :| i < |before| && GaveAway(primary, before, i, id);
      assert GaveAway(primary, events, i, id);
    }
    if Allowed(primary, After(primary, before).world, ev) && GivesAway(After(primary, before).world, ev, id) {
      assert GaveAway(primary, events, |before|, id);
    }
  }

  /** The guard's memory is the history's: who delegated first, what is in flight, who gave itself away. */
  ghost predicate GuardOk(primary: string, events: seq<Event>) {
    var r := After(primary, events);
    r.guard.active == r.world.inflight && r.guard.primary == r.world.first
    && (forall id :: id in r.guard.subagents <==> Recognised(primary, events, id))
  }

  lemma {:induction false} GuardKept(primary: string, events: seq<Event>)
    ensures GuardOk(primary, events)
  {
    if |events| > 0 {
      var before, last := events[..|events| - 1], events[|events| - 1];
      GuardKept(primary, before);
      assert events == before + [last];
      forall id ensures id in After(primary, events).guard.subagents <==> Recognised(primary, events, id) {
        RecognisedSnoc(primary, before, last, id);
      }
    }
  }

  /** The first caller: with an id of its own the primary always is; without one, some sub-agent is. */
  predicate WorldOk(primary: string, w: World) {
    (w.inflight > 0 ==> w.delegated)
    && (w.first.Some? ==> w.first.value != "" && w.first.value in w.called)
    && (primary != "" && w.called != {} ==> w.first == Some(primary))
    && (w.delegated ==> primary in w.called)
  }

  lemma {:induction false} WorldKept(primary: string, events: seq<Event>)
    ensures WorldOk(primary, After(primary, events).world)
  {
    if |events| > 0 {
      WorldKept(primary, events[..|events| - 1]);
    }
  }

  // ── When a caller is told to be a sub-agent ────────────────────────────────

  /**
   * What is refused: to everybody a shell command that writes to git; to all but
   * sub-agents writing or patching a file, running code, and a shell command that writes
   * files. A delegation never is.
   */
  predicate IsVerdict(verdict: Verdict, subagent: bool, tool: Tool) {
    (verdict == BlockGit <==> tool.Terminal? && tool.gitWrite)
    && (verdict == BlockEdit <==> !subagent && (tool == WriteFile || tool == Patch))
    && (verdict == BlockCode <==> !subagent && tool == CodeExec)
    && (verdict == BlockShell <==> !subagent && tool.Terminal? && tool.fileWrite && !tool.gitWrite)
  }

  /**
   * For every interleaving and every caller: the verdict is that of a sub-agent
   * exactly if the caller, by this call or an earlier one, called while a delegation
   * was in flight and was not the first id ever to call.
   */
  lemma JudgedExactly(primary: string, events: seq<Event>, tool: Tool, id: string)
    requires tool != Delegate && Allowed(primary, After(primary, events).world, Pre(tool, id))
    ensures var (g, verdict) := PreHook(After(primary, events).guard, tool, id);
            var known := id in g.subagents;
            (known <==> Recognised(primary, events + [Pre(tool, id)], id)) && IsVerdict(verdict, known, tool)
  {
    GuardKept(primary, events + [Pre(tool, id)]);
    assert (events + [Pre(tool, id)])[..|events|] == events;
  }

  /** An id that calls with a delegation in flight. */
  ghost predicate CalledInFlight(primary: string, events: seq<Event>, id: string) {
    exists i: nat :: i < |events| && CallInFlight(primary, events, i, id)
  }

  predicate CallInFlight(primary: string, events: seq<Event>, i: nat, id: string)
    requires i < |events|
  {
    var w := After(primary, events[..i]).world;
    Allowed(primary, w, events[i]) && events[i].Pre? && events[i].tool != Delegate && events[i].id == id && w.inflight > 0
  }

  /** With a primary that has an id, a sub-agent is known exactly if it was seen once with a delegation in flight. */
  lemma NamedPrimary(primary: string, events: seq<Event>, id: string)
    requires primary != "" && id != ""
    ensures Recognised(primary, events, id) <==> id != primary && CalledInFlight(primary, events, id)
  {
    forall i: nat | i < |events|
      ensures GaveAway(primary, events, i, id) <==> id != primary && CallInFlight(primary, events, i, id)
    {
      WorldKept(primary, events[..i]);
    }
    if Recognised(primary, events, id) {
      var i: nat :| i < |events| && GaveAway(primary, events, i, id);
      assert CallInFlight(primary, events, i, id);
    }
    if id != primary && CalledInFlight(primary, events, id) {
      var i: nat :| i < |events| && CallInFlight(primary, events, i, id);
      assert GaveAway(primary, events, i, id);
    }
  }

  /** The primary gives itself away to nobody, whatever its id. */
  lemma PrimaryIsNotRecognised(primary: string, events: seq<Event>)
    ensures !Recognised(primary, events, primary)
  {
    forall i: nat | i < |events| ensures !GaveAway(primary, events, i, primary) {
      WorldKept(primary, events[..i]);
    }
  }

  /** A primary's edits are refused in every interleaving, late sub-agents or not. */
  lemma PrimaryNeverWrites(primary: string, events: seq<Event>, tool: Tool)
    requires tool in {WriteFile, Patch, CodeExec} || (tool.Terminal? && tool.fileWrite)
    ensures PreHook(After(primary, events).guard, tool, primary).1 != Allow
  {
    JudgedExactly(primary, events, tool, primary);
    PrimaryIsNotRecognised(primary, events + [Pre(tool, primary)]);
  }

  // ── A late first sub-agent of a nameless primary ───────────────────────────

  lemma {:induction false} FirstStays(primary: string, events: seq<Event>, more: seq<Event>)
    requires After(primary, events).world.first.Some?
    ensures After(primary, events + more).world.first == After(primary, events).world.first
    decreases |more|
  {
    if |more| == 0 {
      assert events + more == events;
    } else {
      FirstStays(primary, events, more[..|more| - 1]);
      assert (events + more)[..|events + more| - 1] == events + more[..|more| - 1];
    }
  }

  /** Once first and not given away by then, never given away. */
  lemma {:induction false} FirstIsNeverRecognised(primary: string, events: seq<Event>, more: seq<Event>, id: string)
    requires After(primary, events).world.first == Some(id) && !Recognised(primary, events, id)
    ensures !Recognised(primary, events + more, id)
    decreases |more|
  {
    if |more| == 0 {
      assert events + more == events;
    } else {
      var earlier, last := more[..|more| - 1], more[|more| - 1];
      FirstIsNeverRecognised(primary, events, earlier, id);
      FirstStays(primary, events, earlier);
      assert events + more == events + earlier + [last];
      RecognisedSnoc(primary, events + earlier, last, id);
    }
  }

  /**
   * With a nameless primary, the first sub-agent to call is told by that one call: if
   * no delegation was in flight then, it holds the primary's place for good and every
   * edit it ever tries is refused, in flight or not; else every one is allowed.
   */
  lemma FirstChildIsToldOnce(events: seq<Event>, tool: Tool, id: string, more: seq<Event>, edit: Tool)
    requires tool != Delegate && id != "" && edit in {WriteFile, Patch, CodeExec}
    requires var w := After("", events).world; w.delegated && w.first.None?
    ensures var later := After("", events + [Pre(tool, id)] + more);
            Allowed("", later.world, Pre(edit, id))
            && (PreHook(later.guard, edit, id).1 == Allow <==> After("", events).world.inflight > 0)
  {
    var call := Pre(tool, id);
    var start := events + [call];
    assert start[..|events|] == events;
    RecognisedSnoc("", events, call, id);
    NobodyCalledYet(events, id);
    Delegated("", start, more);
    JudgedExactly("", start + more, edit, id);
    if After("", events).world.inflight > 0 {
      RecognisedStays("", start, more + [Pre(edit, id)], id);
      assert start + (more + [Pre(edit, id)]) == start + more + [Pre(edit, id)];
    } else {
      FirstIsNeverRecognised("", start, more + [Pre(edit, id)], id);
      assert start + (more + [Pre(edit, id)]) == start + more + [Pre(edit, id)];
    }
  }

  lemma {:induction false} Delegated(primary: string, events: seq<Event>, more: seq<Event>)
    requires After(primary, events).world.delegated
    ensures After(primary, events + more).world.delegated
    decreases |more|
  {
    if |more| == 0 {
      assert events + more == events;
    } else {
      Delegated(primary, events, more[..|more| - 1]);
      assert (events + more)[..|events + more| - 1] == events + more[..|more| - 1];
    }
  }

  lemma RecognisedStays(primary: string, events: seq<Event>, more: seq<Event>, id: string)
    requires Recognised(primary, events, id)
    ensures Recognised(primary, events + more, id)
  {
    var i: nat :| i < |events| && GaveAway(primary, events, i, id);
    assert (events + more)[..i] == events[..i];
    assert GaveAway(primary, events + more, i, id);
  }

  /** No non-empty id has called while there is no first one. */
  lemma NobodyCalledYet(events: seq<Event>, id: string)
    requires After("", events).world.first.None? && id != ""
    ensures !Recognised("", events, id)
  {
    forall i: nat | i < |events| ensures !GaveAway("", events, i, id) {
      if GaveAway("", events, i, id) {
        SomebodyWasFirst(events, i, id);
      }
    }
  }

  lemma SomebodyWasFirst(events: seq<Event>, i: nat, id: string)
    requires i < |events| && GaveAway("", events, i, id)
    ensures After("", events).world.first.Some?
  {
    var call := events[..i + 1];
    assert call[..i] == events[..i];
    FirstStays("", call, events[i + 1..]);
    assert call + events[i + 1..] == events;
  }

  /** With a nameless primary, a sub-agent that was not the first caller is known exactly if seen once in flight since. */
  lemma NamelessPrimary(events: seq<Event>, id: string)
    requires After("", events).world.first.Some? && After("", events).world.first != Some(id) && id != ""
    ensures Recognised("", events, id) <==> CalledInFlight("", events, id)
  {
    forall i: nat | i < |events| ensures GaveAway("", events, i, id) <==> CallInFlight("", events, i, id) {
      if CallInFlight("", events, i, id) && After("", events[..i]).world.first.Some? {
        FirstStays("", events[..i], events[i..]);
        assert events[..i] + events[i..] == events;
      }
    }
    if Recognised("", events, id) {
      var i: nat :| i < |events| && GaveAway("", events, i, id);
      assert CallInFlight("", events, i, id);
    }
    if CalledInFlight("", events, id) {
      var i: nat :| i < |events| && CallInFlight("", events, i, id);
      assert GaveAway("", events, i, id);
    }
  }

  // ── Sub-agents that call only while they are waited for ────────────────────

  /** Every sub-agent's call so far fell into a delegation in flight. */
  ghost predicate Prompt(primary: string, events: seq<Event>) {
    forall i: nat :: i < |events| ==> PromptAt(primary, events, i)
  }

  predicate PromptAt(primary: string, events: seq<Event>, i: nat)
    requires i < |events|
  {
    events[i].Pre? && events[i].id != primary ==> After(primary, events[..i]).world.inflight > 0
  }

  lemma FirstOfThePrompt(primary: string, events: seq<Event>, id: string)
    requires Prompt(primary, events) && After(primary, events).world.first == Some(id) && id != primary
    ensures Recognised(primary, events, id)
    decreases |events|
  {
    if |events| > 0 {
      var before, last := events[..|events| - 1], events[|events| - 1];
      assert events == before + [last];
      forall i: nat | i < |before| ensures PromptAt(primary, before, i) {
        assert PromptAt(primary, events, i) && before[..i] == events[..i];
      }
      RecognisedSnoc(primary, before, last, id);
      if After(primary, before).world.first == Some(id) {
        FirstOfThePrompt(primary, before, id);
      } else {
        assert PromptAt(primary, events, |before|);
      }
    }
  }

  /**
   * Among prompt callers roles are exact from the first call on: every verdict follows
   * from who calls and with what, so a sub-agent is never refused for its role.
   */
  lemma VerdictsAreExact(primary: string, events: seq<Event>, tool: Tool, id: string)
    requires Allowed(primary, After(primary, events).world, Pre(tool, id)) && Prompt(primary, events + [Pre(tool, id)])
    ensures IsVerdict(PreHook(After(primary, events).guard, tool, id).1, id != primary, tool)
    ensures tool != Delegate ==> (id in PreHook(After(primary, events).guard, tool, id).0.subagents <==> id != primary)
  {
    var all := events + [Pre(tool, id)];
    assert all[..|events|] == events;
    if tool != Delegate {
      JudgedExactly(primary, events, tool, id);
      if id == primary {
        PrimaryIsNotRecognised(primary, all);
      } else {
        assert PromptAt(primary, all, |events|);
        RecognisedSnoc(primary, events, Pre(tool, id), id);
        if After(primary, events).world.first == Some(id) {
          FirstOfThePrompt(primary, all, id);
        }
      }
    }
  }

  /** The read cap's exemption is the guard's own notion: exactly those who gave themselves away. */
  lemma ReadsAreCappedExactly(primary: string, events: seq<Event>, id: string)
    ensures Uncapped(After(primary, events).guard, id) <==> id != "" && Recognised(primary, events, id)
    ensures !Uncapped(After(primary, events).guard, primary)
  {
    GuardKept(primary, events);
    PrimaryIsNotRecognised(primary, events);
  }

  /** The smallest run that goes wrong: a background delegation of a nameless primary comes back before its child calls. */
  lemma LateChildIsRefused(id: string)
    requires id != ""
    ensures var events := [Pre(Delegate, ""), Post(Delegate)];
            PreHook(After("", events).guard, WriteFile, id).1 == BlockEdit && !IsVerdict(BlockEdit, id != "", WriteFile)
  {
    var events := [Pre(Delegate, ""), Post(Delegate)];
    assert events[..1] == [Pre(Delegate, "")] && events[..1][..0] == [];
  }
}
