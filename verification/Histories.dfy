/**
 * What the history of a job says about its pull request and about the prompts of its
 * work runs. Both hold of a job's lane from its creation on, hence in every run.
 */
module Histories {
  import opened Common
  import opened Jobs
  import opened Stages
  import opened Lanes
  import opened System
  import opened Pipeline
  import Feedback
  import Gates
  import Q = Queue
  import Theorems

  // ── The pull request ───────────────────────────────────────────────────────

  predicate Presents(e: Entry) {
    e.from == Some(OpeningPr) && e.to == AwaitingPrApproval
  }

  /** The work was presented to a human once. */
  predicate Presented(log: seq<Entry>) {
    exists i :: 0 <= i < |log| && Presents(log[i])
  }

  lemma PresentedSnoc(log: seq<Entry>, e: Entry)
    ensures Presented(log + [e]) <==> Presented(log) || Presents(e)
  {
    var longer := log + [e];
    if Presented(log) {
      var i :| 0 <= i < |log| && Presents(log[i]);
      assert Presents(longer[i]);
    }
    if Presents(e) {
      assert Presents(longer[|log|]);
    }
  }

  /**
   * A dashboard's job never has a pull request. Any other has one once its work was
   * presented; before that only if it was cancelled while the request was being opened.
   * Before its first work is checked no feedback has come in.
   */
  predicate PullRequestOk(ln: Lane) {
    (ln.job.hasPr ==> !ln.job.dashboard && (Presented(ln.job.log) || ln.job.state == Cancelled))
    && (Presented(ln.job.log) ==> ln.job.hasPr || ln.job.dashboard)
    && (ln.kind in {Plan, Implement} ==> !ln.job.hasPr && ln.job.feedback == [])
  }

  /** How the step moved the log. */
  lemma LogPresents(ln: Lane, next: Lane)
    requires Gates.LogStep(ln, next)
    ensures Presented(next.job.log) <==> Presented(ln.job.log) || (next.job.log != ln.job.log && Presents(next.job.log[|ln.job.log|]))
  {
    if next.job.log != ln.job.log {
      PresentedSnoc(ln.job.log, next.job.log[|ln.job.log|]);
    }
  }

  lemma CancelledStays(ln: Lane, next: Lane)
    requires Gates.GatesHold(ln) && Gates.LogStep(ln, next) && ln.job.state == Cancelled
    ensures next.job.state == Cancelled && next.job.log == ln.job.log
  {
    if next.job.state != Cancelled {
      Gates.TerminalStatesAbsorb(ln, next);
    }
  }

  lemma PullRequestKept(cfg: Config, ln: Lane, a: LaneAction)
    requires LaneInv(cfg, ln) && PullRequestOk(ln)
    ensures PullRequestOk(LaneNext(cfg, ln, a))
  {
    var next := LaneNext(cfg, ln, a);
    Gates.StepLogs(cfg, ln, a);
    LogPresents(ln, next);
    match a
    case Claim => case RunAgent => case Restart =>
    case Throw(_) =>
    case Begin(discovered, retry) => BeginKeepsPr(cfg, ln, discovered, retry);
    case Finish(reply, retry) => if MayFinish(ln) { FinishKeepsPr(cfg, ln, reply, retry); }
    case Ask(act) => AskKeepsPr(cfg, ln, act);
  }

  lemma BeginKeepsPr(cfg: Config, ln: Lane, discovered: Option<string>, retry: bool)
    requires LaneInv(cfg, ln) && PullRequestOk(ln)
    ensures PullRequestOk(LaneNext(cfg, ln, LaneAction.Begin(discovered, retry)))
  {
    var next := LaneNext(cfg, ln, LaneAction.Begin(discovered, retry));
    Gates.BeginLogs(cfg, ln, discovered, retry);
    LogPresents(ln, next);
    Feedback.BeginFrame(ln.job, ln.kind, discovered);
    if ln.handler == Some(Claimed) {
      BeginLeads(ln.job, ln.kind, discovered);
    }
  }

  lemma FinishKeepsPr(cfg: Config, ln: Lane, reply: Reply, retry: bool)
    requires LaneInv(cfg, ln) && PullRequestOk(ln) && MayFinish(ln)
    ensures PullRequestOk(LaneNext(cfg, ln, LaneAction.Finish(reply, retry)))
  {
    var next := LaneNext(cfg, ln, LaneAction.Finish(reply, retry));
    Gates.FinishLogs(cfg, ln, reply, retry);
    LogPresents(ln, next);
    FinishFrame(cfg, ln, reply, retry);
    FinishPresents(cfg, ln, reply, retry);
  }

  /** The end of OPEN_PR is what presents the work. */
  lemma FinishPresents(cfg: Config, ln: Lane, reply: Reply, retry: bool)
    requires StageOk(ln) && Gates.GatesHold(ln) && MayFinish(ln)
    ensures var next := LaneNext(cfg, ln, LaneAction.Finish(reply, retry));
            Gates.LogStep(ln, next)
            && (next.kind in {Plan, Implement} ==> ln.kind == next.kind)
            && (ln.job.state == Cancelled ==> next.job.state == Cancelled && next.job.log == ln.job.log)
            && (next.job.log != ln.job.log && Presents(next.job.log[|ln.job.log|]) ==> ln.kind == OpenPr)
            && (ln.kind == OpenPr && ln.job.state != Cancelled ==> next.job.log != ln.job.log && Presents(next.job.log[|ln.job.log|]))
  {
    var next := LaneNext(cfg, ln, LaneAction.Finish(reply, retry));
    Gates.FinishLogs(cfg, ln, reply, retry);
    FinishLeads(ln.job, ln.kind, cfg, reply);
    if ln.job.state == Cancelled {
      CancelledStays(ln, next);
    }
  }

  lemma AskKeepsPr(cfg: Config, ln: Lane, act: HumanAct)
    requires LaneInv(cfg, ln) && PullRequestOk(ln)
    ensures PullRequestOk(LaneNext(cfg, ln, LaneAction.Ask(act)))
  {
    var next := LaneNext(cfg, ln, LaneAction.Ask(act));
    Gates.HumanLogs(cfg, ln, act);
    LogPresents(ln, next);
    AskFrame(cfg, ln, act);
    if ln.job.state == Cancelled {
      CancelledStays(ln, next);
    }
  }

  /** What a human action leaves alone. */
  lemma AskFrame(cfg: Config, ln: Lane, act: HumanAct)
    requires StageOk(ln)
    ensures var next := LaneNext(cfg, ln, LaneAction.Ask(act));
            next.job.hasPr == ln.job.hasPr && next.job.dashboard == ln.job.dashboard && next.job.runs == ln.job.runs
            && (next.kind in {Plan, Implement} ==> ln.kind in {Plan, Implement} && (ln.job.hasPr || next.job.feedback == ln.job.feedback))
            && ((next.job.feedback == ln.job.feedback && next.job.stamp == ln.job.stamp)
                || (next.job.feedback == ln.job.feedback + [ln.job.stamp] && next.job.stamp == ln.job.stamp + 1))
            && (next.handler == None || (next.handler == ln.handler && next.kind == ln.kind))
            && (ln.job.state != Cancelled && next.job.state != ln.job.state ==> ln.job.state != OpeningPr || next.job.state in {Cancelled, Failed})
  {
    match act
    case Approve => case PlanFeedback => case PlanLimit => case RecordFeedback =>
    case RequestChanges => case Accept => case Cancel => case Retry =>
  }

  // ── What a work run quotes ─────────────────────────────────────────────────

  /** When the newest of the first n runs that belongs to an earlier pass was created; -1 if none does. */
  function EarlierPass(runs: seq<WorkRun>, n: nat, snapshot: nat): int
    requires n <= |runs|
  {
    if n == 0 then -1
    else if runs[n - 1].snapshot == snapshot then EarlierPass(runs, n - 1, snapshot)
    else runs[n - 1].stamp
  }

  /** Exactly the feedback that came in after the work run before this pass and before the pass began. */
  predicate IsNewsOf(job: Job, n: nat, snapshot: nat, rows: set<nat>)
    requires n <= |job.runs|
  {
    (forall i :: i in rows ==> i < |job.feedback|)
    && forall i: nat :: i < |job.feedback| ==> (i in rows <==> EarlierPass(job.runs, n, snapshot) < job.feedback[i] < snapshot)
  }

  /** A REVISE run quotes that, and an IMPLEMENT run nothing. */
  predicate Quotes(job: Job, k: nat)
    requires k < |job.runs|
  {
    var run := job.runs[k];
    run.phase in WORK_PHASES && run.snapshot <= run.stamp < job.stamp
    && if run.phase == Revise then IsNewsOf(job, k, run.snapshot, run.prompt) else run.prompt == {}
  }

  predicate PromptsOk(ln: Lane) {
    (forall k: nat :: k < |ln.job.runs| ==> Quotes(ln.job, k))
    && (ln.handler.Some? && ln.handler.value.Working? && ln.kind in WORK_PHASES ==>
          ln.handler.value.snapshot <= ln.job.stamp
          && if ln.kind == Revise then IsNewsOf(ln.job, |ln.job.runs|, ln.handler.value.snapshot, ln.handler.value.read)
             else ln.handler.value.read == {})
  }

  lemma {:induction false} EarlierRuns(runs: seq<WorkRun>, more: seq<WorkRun>, n: nat, snapshot: nat)
    requires n <= |runs|
    ensures EarlierPass(runs + more, n, snapshot) == EarlierPass(runs, n, snapshot)
  {
    if n > 0 {
      EarlierRuns(runs, more, n - 1, snapshot);
    }
  }

  /** Feedback that comes in, or a run that is added, is no news to what ran before. */
  lemma LaterRowsAreNoNews(job: Job, next: Job, n: nat, snapshot: nat, rows: set<nat>)
    requires n <= |job.runs| && IsNewsOf(job, n, snapshot, rows) && snapshot <= job.stamp
    requires |next.runs| >= |job.runs| && next.runs[..|job.runs|] == job.runs
    requires |next.feedback| >= |job.feedback| && next.feedback[..|job.feedback|] == job.feedback
    requires forall i :: |job.feedback| <= i < |next.feedback| ==> next.feedback[i] >= job.stamp
    ensures IsNewsOf(next, n, snapshot, rows)
  {
    EarlierRuns(job.runs, next.runs[|job.runs|..], n, snapshot);
    assert next.runs == job.runs + next.runs[|job.runs|..];
    forall i: nat | i < |next.feedback|
      ensures i in rows <==> EarlierPass(next.runs, n, snapshot) < next.feedback[i] < snapshot
    {
      if i < |job.feedback| {
        assert next.feedback[i] == next.feedback[..|job.feedback|][i];
      }
    }
  }

  lemma OldRunsQuote(job: Job, next: Job, k: nat)
    requires k < |job.runs| && Quotes(job, k) && next.stamp >= job.stamp
    requires |next.runs| >= |job.runs| && next.runs[..|job.runs|] == job.runs
    requires |next.feedback| >= |job.feedback| && next.feedback[..|job.feedback|] == job.feedback
    requires forall i :: |job.feedback| <= i < |next.feedback| ==> next.feedback[i] >= job.stamp
    ensures k < |next.runs| && next.runs[k] == job.runs[k] && Quotes(next, k)
  {
    assert next.runs[k] == next.runs[..|job.runs|][k];
    if job.runs[k].phase == Revise {
      LaterRowsAreNoNews(job, next, k, job.runs[k].snapshot, job.runs[k].prompt);
    }
  }

  /** Steps that add no run, and no feedback that is older than the clock. */
  lemma NoRunKeepsPrompts(ln: Lane, next: Lane)
    requires PromptsOk(ln) && next.job.runs == ln.job.runs && next.job.stamp >= ln.job.stamp
    requires |next.job.feedback| >= |ln.job.feedback| && next.job.feedback[..|ln.job.feedback|] == ln.job.feedback
    requires forall i :: |ln.job.feedback| <= i < |next.job.feedback| ==> next.job.feedback[i] >= ln.job.stamp
    requires next.handler in {None, Some(Claimed)} || (next.handler == ln.handler && next.kind == ln.kind)
    ensures PromptsOk(next)
  {
    forall k: nat | k < |next.job.runs| ensures Quotes(next.job, k) {
      OldRunsQuote(ln.job, next.job, k);
    }
    if ln.handler.Some? && ln.handler.value.Working? && ln.kind == Revise {
      LaterRowsAreNoNews(ln.job, next.job, |ln.job.runs|, ln.handler.value.snapshot, ln.handler.value.read);
    }
  }

  /** A pass that begins holds the news since the last work run. */
  lemma FirstNews(job: Job)
    requires Feedback.Ordered(job) && forall k: nat :: k < |job.runs| ==> Quotes(job, k)
    ensures IsNewsOf(job, |job.runs|, job.stamp, Unaddressed(job))
  {
    Feedback.LastWorkIsAnchor(job);
    if |job.runs| > 0 {
      assert Quotes(job, |job.runs| - 1);
    }
  }

  lemma BeginKeepsPrompts(cfg: Config, ln: Lane, discovered: Option<string>, retry: bool)
    requires LaneInv(cfg, ln) && PullRequestOk(ln) && PromptsOk(ln)
    ensures PromptsOk(LaneNext(cfg, ln, LaneAction.Begin(discovered, retry)))
  {
    if ln.handler == Some(Claimed) {
      Feedback.BeginFrame(ln.job, ln.kind, discovered);
      FirstNews(ln.job);
      match Stages.Begin(ln.job, ln.kind, discovered)
      case Proceed(job, h) =>
        NoRunKeepsPrompts(ln, ln.(job := job, handler := None));
        BegunPass(ln, job, h, discovered);
      case Ended(outcome) => NoRunKeepsPrompts(ln, Ending(outcome, ln.kind, retry));
    }
  }

  /** A pass that begins holds the news. */
  lemma BegunPass(ln: Lane, job: Job, h: Handler, discovered: Option<string>)
    requires PullRequestOk(ln) && IsNewsOf(ln.job, |ln.job.runs|, ln.job.stamp, Unaddressed(ln.job))
    requires Stages.Begin(ln.job, ln.kind, discovered) == Proceed(job, h) && Feedback.SameFeedbackRows(ln.job, job)
    requires PromptsOk(ln.(job := job, handler := None))
    ensures PromptsOk(ln.(job := job, handler := Some(h)))
  {
  }

  lemma RunKeepsPrompts(cfg: Config, ln: Lane)
    requires PromptsOk(ln) && MayRun(cfg, ln)
    ensures PromptsOk(LaneNext(cfg, ln, LaneAction.RunAgent))
  {
    var job, h := ln.job, ln.handler.value;
    var next := AddRun(job, ln.kind, h);
    AddedRunQuotes(job, ln.kind, h, next);
    if ln.kind == Revise {
      SamePass(next, |job.runs|, h.snapshot, h.read);
    }
  }

  lemma AddedRunQuotes(job: Job, kind: TaskKind, h: Handler, next: Job)
    requires h.Working? && kind in WORK_PHASES && h.snapshot <= job.stamp && next == AddRun(job, kind, h)
    requires forall k: nat :: k < |job.runs| ==> Quotes(job, k)
    requires if kind == Revise then IsNewsOf(job, |job.runs|, h.snapshot, h.read) else h.read == {}
    ensures forall k: nat :: k < |next.runs| ==> Quotes(next, k)
    ensures kind == Revise ==> IsNewsOf(next, |job.runs|, h.snapshot, h.read)
  {
    if kind == Revise {
      LaterRowsAreNoNews(job, next, |job.runs|, h.snapshot, h.read);
    }
    forall k: nat | k < |next.runs| ensures Quotes(next, k) {
      if k < |job.runs| {
        OldRunsQuote(job, next, k);
      }
    }
  }

  /** A run of the pass itself is no earlier pass. */
  lemma SamePass(job: Job, n: nat, snapshot: nat, rows: set<nat>)
    requires n < |job.runs| && job.runs[n].snapshot == snapshot && IsNewsOf(job, n, snapshot, rows)
    ensures IsNewsOf(job, n + 1, snapshot, rows)
  {
    assert EarlierPass(job.runs, n + 1, snapshot) == EarlierPass(job.runs, n, snapshot);
  }

  lemma PromptsKept(cfg: Config, ln: Lane, a: LaneAction)
    requires LaneInv(cfg, ln) && PullRequestOk(ln) && PromptsOk(ln)
    ensures PromptsOk(LaneNext(cfg, ln, a))
  {
    match a
    case Claim => case Restart => NoRunKeepsPrompts(ln, LaneNext(cfg, ln, a));
    case RunAgent => if MayRun(cfg, ln) { RunKeepsPrompts(cfg, ln); }
    case Throw(_) => NoRunKeepsPrompts(ln, LaneNext(cfg, ln, a));
    case Begin(discovered, retry) => BeginKeepsPrompts(cfg, ln, discovered, retry);
    case Finish(reply, retry) =>
      if MayFinish(ln) {
        FinishFrame(cfg, ln, reply, retry);
        NoRunKeepsPrompts(ln, LaneNext(cfg, ln, a));
      }
    case Ask(act) => AskKeepsPrompts(cfg, ln, act);
  }

  lemma AskKeepsPrompts(cfg: Config, ln: Lane, act: HumanAct)
    requires LaneInv(cfg, ln) && PromptsOk(ln)
    ensures PromptsOk(LaneNext(cfg, ln, LaneAction.Ask(act)))
  {
    AskFrame(cfg, ln, act);
    NoRunKeepsPrompts(ln, LaneNext(cfg, ln, LaneAction.Ask(act)));
  }

  // ── Every run ──────────────────────────────────────────────────────────────

  lemma {:induction false} LaneHistory(cfg: Config, dashboard: bool, actions: seq<LaneAction>)
    ensures PullRequestOk(LaneRun(cfg, dashboard, actions)) && PromptsOk(LaneRun(cfg, dashboard, actions))
  {
    if |actions| > 0 {
      var before, last := actions[..|actions| - 1], actions[|actions| - 1];
      LaneHistory(cfg, dashboard, before);
      LaneRunKeeps(cfg, dashboard, before);
      LaneRunIs(cfg, dashboard, actions);
      PullRequestKept(cfg, LaneRun(cfg, dashboard, before), last);
      PromptsKept(cfg, LaneRun(cfg, dashboard, before), last);
    }
  }

  /** In every reachable state, whose job has a pull request, and what each of its work runs quoted. */
  lemma HistoriesHold(cfg: Config, actions: seq<Action>, j: nat)
    requires j in Run(cfg, actions).jobs
    ensures var job := Run(cfg, actions).jobs[j];
            (job.hasPr ==> !job.dashboard && (Presented(job.log) || job.state == Cancelled))
            && (Presented(job.log) && !job.dashboard ==> job.hasPr)
            && forall k: nat :: k < |job.runs| ==> Quotes(job, k)
  {
    Reachable(cfg, actions);
    var lane := View(Run(cfg, actions), j);
    var dashboard, steps :| LaneRun(cfg, dashboard, steps) == lane;
    LaneHistory(cfg, dashboard, steps);
  }
}
