/**
 * persist_state: working memory that survives the run. The primary agent's todo
 * list and every delegated report are kept in memory and mirrored to PROGRESS.md.
 */
module PersistState {
  import opened Common
  import opened Findings
  import opened Sections
  import Texts

  const CHECKLIST_HEADER := "## Checklist"
  const FINDINGS_HEADER := "## Findings"
  const NO_CHECKLIST := "_(no checklist yet)_"
  const NONE_YET := "_(none yet)_"

  /** The two sections as a process knows them. */
  datatype Memory = Memory(checklist: string, findings: string)

  datatype Plugin = Plugin(
    primary: Option<string>, active: nat, subagents: set<string>, delegations: nat, memory: Option<Memory>)

  const FRESH := Plugin(None, 0, {}, 0, None)

  /** The result a post-hook is given, as the plugin reads it. */
  datatype ToolResult =
    | Todos(list: string)    // a todo call: its list as lines
    | Report(rest: string)   // a delegate_task call that came back: what follows "### n." in its entry
    | DispatchAck            // a delegate_task call that was only sent off
    | OtherResult

  datatype Tool = Delegate | Todo | OtherTool

  // ── The file ───────────────────────────────────────────────────────────────

  function Listed(checklist: string): string {
    if checklist == "" then NO_CHECKLIST else checklist
  }

  function Shown(findings: string): string {
    if Trim(findings) == "" then NONE_YET else Trim(findings)
  }

  /** What _write writes. */
  function Compose(m: Memory): string {
    Write(CHECKLIST_HEADER, FINDINGS_HEADER, Listed(m.checklist), Shown(m.findings))
  }

  /** What _split reads. */
  function Split(text: string): Memory {
    var (checklist, findings) := Read(CHECKLIST_HEADER, FINDINGS_HEADER, text);
    Memory(checklist, findings)
  }

  /** The file as a reader sees it. */
  lemma FileReads(m: Memory)
    ensures Compose(m) == "## Checklist" + "\n" + (if m.checklist == "" then "_(no checklist yet)_" else m.checklist) + "\n\n"
                          + "## Findings" + "\n" + (if Trim(m.findings) == "" then "_(none yet)_" else Trim(m.findings)) + "\n"
  {
  }

  // ── What the hooks do ──────────────────────────────────────────────────────

  function NotePrimary(p: Plugin, id: string): Plugin {
    if p.primary.None? && id != "" then p.(primary := Some(id)) else p
  }

  function Observe(p: Plugin, id: string): Plugin {
    if p.active > 0 && id != "" && Some(id) != p.primary then p.(subagents := p.subagents + {id}) else p
  }

  /** _seed: inherit the file once, then memory is authoritative. */
  function Seed(p: Plugin, file: Option<string>): Plugin {
    if p.memory.Some? then p
    else
      var m := Split(if file.Some? then file.value else "");
      p.(memory := Some(m), delegations := MaxNumber(m.findings))
  }

  predicate Worth(m: Memory) {
    m.checklist != "" || m.findings != ""
  }

  function Heal(m: Memory, file: Option<string>): Option<string> {
    if Worth(m) && file.None? then Some(Compose(m)) else file
  }

  function PreHook(p: Plugin, tool: Tool, id: string): Plugin {
    if tool == Delegate then
      var noted := NotePrimary(p, id);
      noted.(active := noted.active + 1)
    else Observe(p, id)
  }

  function PostDelegate(p: Plugin, file: Option<string>, id: string, result: ToolResult): (Plugin, Option<string>)
    requires p.memory.Some?
  {
    var noted := NotePrimary(p, id);
    var q := noted.(active := Max(0, noted.active - 1));
    if !result.Report? then (q, file)
    else
      var n := q.delegations + 1;
      var memory := q.memory.value.(findings := Append(q.memory.value.findings, EntryText(n, result.rest)));
      (q.(delegations := n, memory := Some(memory)), Some(Compose(memory)))
  }

  function PostTodo(p: Plugin, file: Option<string>, id: string, result: ToolResult): (Plugin, Option<string>)
    requires p.memory.Some?
  {
    var q := Observe(p, id);
    if id in q.subagents || !result.Todos? || Strip(result.list) == "" then (q, file)
    else
      var memory := q.memory.value.(checklist := Strip(result.list));
      (q.(memory := Some(memory)), Some(Compose(memory)))
  }

  function PostHook(p: Plugin, file: Option<string>, tool: Tool, id: string, result: ToolResult): (Plugin, Option<string>) {
    var seeded := Seed(p, file);
    var (q, written) := match tool
      case Delegate => PostDelegate(seeded, file, id, result)
      case Todo => PostTodo(seeded, file, id, result)
      case OtherTool => (seeded, file);
    (q, if q.memory.Some? then Heal(q.memory.value, written) else written)
  }

  // ── The hooks as they are written ──────────────────────────────────────────

  /** The workspace: PROGRESS.md, which a build step may delete. */
  class Workspace {
    var file: Option<string>

    constructor ()
      ensures file == None
    {
      file := None;
    }
  }

  class WorkingMemory {
    const workspace: Workspace
    var primary: Option<string>
    var active: nat
    var subagents: set<string>
    var delegations: nat
    var checklist: Option<string>
    var findings: Option<string>

    predicate Valid()
      reads this
    {
      checklist.Some? <==> findings.Some?
    }

    function State(): Plugin
      reads this
      requires Valid()
    {
      Plugin(primary, active, subagents, delegations,
             if checklist.Some? then Some(Memory(checklist.value, findings.value)) else None)
    }

    /** A new process over whatever file there is. */
    constructor (workspace: Workspace)
      ensures Valid() && State() == FRESH && this.workspace == workspace
    {
      this.workspace := workspace;
      primary, active, subagents, delegations, checklist, findings := None, 0, {}, 0, None, None;
    }

    method NoteTheDelegator(id: string)
      requires Valid()
      modifies this`primary
      ensures Valid() && State() == NotePrimary(old(State()), id)
    {
      if primary.None? && id != "" {
        primary := Some(id);
      }
    }

    method ObserveCall(id: string)
      requires Valid()
      modifies this`subagents
      ensures Valid() && State() == Observe(old(State()), id)
    {
      if active > 0 && id != "" && Some(id) != primary {
        subagents := subagents + {id};
      }
    }

    /** Read and split the file, and count on from the highest number in it. */
    method SeedOnce()
      requires Valid()
      modifies this`checklist, this`findings, this`delegations
      ensures Valid() && State() == Seed(old(State()), workspace.file) && checklist.Some?
    {
      if checklist.None? && findings.None? {
        var text := if workspace.file.Some? then workspace.file.value else "";
        var sections := Split(text);
        checklist, findings := Some(sections.checklist), Some(sections.findings);
        var nums := Highest(sections.findings);
        delegations := nums;
      }
    }

    method Highest(text: string) returns (max: nat)
      ensures max == MaxNumber(text)
      ensures forall i: nat :: IsStart(text, i) ==> NumberAt(text, i) <= max
      ensures max > 0 ==> exists i: nat :: IsStart(text, i) && NumberAt(text, i) == max
    {
      max := 0;
      for i := 0 to |text|
        invariant max == MaxBelow(text, i)
      {
        if IsStart(text, i) {
          max := Max(NumberAt(text, i), max);
        }
      }
      MaxBelowIs(text, |text|);
    }

    method Flush()
      requires Valid() && checklist.Some?
      modifies workspace`file
      ensures workspace.file == Some(Compose(State().memory.value))
    {
      var trimmed := TrimFindings(findings.value);
      var list := if checklist.value == "" then NO_CHECKLIST else checklist.value;
      workspace.file := Some(Write(CHECKLIST_HEADER, FINDINGS_HEADER, list, if trimmed == "" then NONE_YET else trimmed));
    }

    method HealFile()
      requires Valid() && checklist.Some?
      modifies workspace`file
      ensures workspace.file == Heal(State().memory.value, old(workspace.file))
    {
      if checklist.value != "" || findings.value != "" {
        if workspace.file.None? {
          Flush();
        }
      }
    }

    method OnPreToolCall(tool: Tool, id: string)
      requires Valid()
      modifies this`primary, this`active, this`subagents
      ensures Valid() && State() == PreHook(old(State()), tool, id)
    {
      if tool == Delegate {
        NoteTheDelegator(id);
        active := active + 1;
      } else {
        ObserveCall(id);
      }
    }

    method OnPostToolCall(tool: Tool, id: string, result: ToolResult)
      requires Valid()
      modifies this, workspace`file
      ensures Valid()
      ensures (State(), workspace.file) == PostHook(old(State()), old(workspace.file), tool, id, result)
    {
      SeedOnce();
      if tool == Delegate {
        AfterDelegate(id, result);
      } else if tool == Todo {
        AfterTodo(id, result);
      }
      HealFile();
    }

    method AfterDelegate(id: string, result: ToolResult)
      requires Valid() && checklist.Some?
      modifies this`primary, this`active, this`delegations, this`findings, workspace`file
      ensures Valid() && checklist.Some?
      ensures (State(), workspace.file) == PostDelegate(old(State()), old(workspace.file), id, result)
    {
      NoteTheDelegator(id);
      active := Max(0, active - 1);
      if result.Report? {
        delegations := delegations + 1;
        findings := Some(Append(findings.value, EntryText(delegations, result.rest)));
        Flush();
      }
    }

    method AfterTodo(id: string, result: ToolResult)
      requires Valid() && checklist.Some?
      modifies this`subagents, this`checklist, workspace`file
      ensures Valid() && checklist.Some?
      ensures (State(), workspace.file) == PostTodo(old(State()), old(workspace.file), id, result)
    {
      ObserveCall(id);
      if id !in subagents {
        if result.Todos? {
          var rendered := Strip(result.list);
          if rendered != "" {
            checklist := Some(rendered);
            Flush();
          }
        }
      }
    }
  }

  // ── What a resumed process reads ───────────────────────────────────────────

  /** The Findings header occurs in a todo list. */
  predicate HasHeader(list: string) {
    Texts.IndexOf(list, FINDINGS_HEADER, 0).Some?
  }

  lemma HeadersAreGood()
    ensures GoodHeaders(CHECKLIST_HEADER, FINDINGS_HEADER)
  {
    NoHeaderInHeader(0);
    NoHeaderInHeader(1);
    assert Texts.IndexOf(CHECKLIST_HEADER, FINDINGS_HEADER, 2).None?;
  }

  lemma PlaceholdersAreGood()
    ensures !HasHeader(NO_CHECKLIST) && Stripped(NO_CHECKLIST) && Stripped(NONE_YET) && NONE_YET != "" && NO_CHECKLIST != ""
  {
    NoHashNoHeader(NO_CHECKLIST);
  }

  lemma NoHeaderInHeader(i: nat)
    requires i <= 1
    ensures !Texts.OccursAt(CHECKLIST_HEADER, FINDINGS_HEADER, i)
  {
    if i == 0 {
      assert CHECKLIST_HEADER[0..11][3] == 'C' && FINDINGS_HEADER[3] == 'F';
    } else {
      assert CHECKLIST_HEADER[1..12][1] == ' ' && FINDINGS_HEADER[1] == '#';
    }
  }

  lemma NoHashNoHeader(list: string)
    requires '#' !in list
    ensures !HasHeader(list)
  {
    forall i: nat ensures !Texts.OccursAt(list, FINDINGS_HEADER, i) {
      if i + |FINDINGS_HEADER| <= |list| {
        assert list[i..i + |FINDINGS_HEADER|][0] == list[i] && FINDINGS_HEADER[0] == '#';
      }
    }
    Texts.IndexFound(list, FINDINGS_HEADER);
  }

  lemma ShownIsStripped(findings: string)
    ensures Stripped(Shown(findings)) && Shown(findings) != ""
  {
    PlaceholdersAreGood();
    TrimTwice(findings);
  }

  /**
   * Seeded from what was written, a process has the list, and both sections, if and only
   * if the Findings header does not occur in the list.
   */
  lemma SeededExactly(m: Memory)
    requires Stripped(m.checklist)
    ensures Split(Compose(m)).checklist == Listed(m.checklist) <==> !HasHeader(Listed(m.checklist))
    ensures Split(Compose(m)) == Memory(Listed(m.checklist), Shown(m.findings)) <==> !HasHeader(Listed(m.checklist))
  {
    HeadersAreGood();
    PlaceholdersAreGood();
    ShownIsStripped(m.findings);
    ReadGivesBackExactly(CHECKLIST_HEADER, FINDINGS_HEADER, Listed(m.checklist), Shown(m.findings));
  }

  /** What it has when the header does occur: the list up to it, and the rest among the findings. */
  lemma SeededCut(m: Memory, p: nat)
    requires Texts.IndexOf(Listed(m.checklist), FINDINGS_HEADER, 0) == Some(p) && p + |FINDINGS_HEADER| <= |Listed(m.checklist)|
    ensures Split(Compose(m)) == Memory(UpTo(Listed(m.checklist), p),
                                        Spilled(FINDINGS_HEADER, Listed(m.checklist), p, Shown(m.findings)))
  {
    HeadersAreGood();
    ReadCut(CHECKLIST_HEADER, FINDINGS_HEADER, Listed(m.checklist), Shown(m.findings), p);
  }

  lemma EmptyReadsEmpty()
    ensures Split("") == Memory("", "") && MaxNumber("") == 0
  {
    HeadersAreGood();
  }
}
