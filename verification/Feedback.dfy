/**
 * Human feedback on a pull request: which rows reach an agent's prompt, what is
 * still open when the pull request is presented, and how often feedback can
 * reopen the work. Creation times of one job's rows are assumed distinct.
 */
module Feedback {
  import opened Common
  import opened Jobs
  import opened Stages
  import opened Lanes
  import opened Gates
  import Rounds
  import Queue

  /** Some work run quoted this row. */
  predicate Prompted(job: Job, i: nat) {
    exists k :: 0 <= k < |job.runs| && i in job.runs[k].prompt
  }

  /** The row arrived inside a pass: after the pass read the feedback, before one of its runs was created. */
  predicate SkippedBy(run: WorkRun, at: nat) {
    run.snapshot <= at < run.stamp
  }

  predicate Skipped(job: Job, i: nat)
    requires i < |job.feedback|
  {
    exists k :: 0 <= k < |job.runs| && SkippedBy(job.runs[k], job.feedback[i])
  }

  function LastWork(job: Job): int {
    if |job.runs| == 0 then -1 else job.runs[|job.runs| - 1].stamp
  }

  predicate Ordered(job: Job) {
    (forall i, j :: 0 <= i < j < |job.feedback| ==> job.feedback[i] < job.feedback[j])
    && (forall i :: 0 <= i < |job.feedback| ==> job.feedback[i] < job.stamp)
    && (forall k, l :: 0 <= k < l < |job.runs| ==> job.runs[k].stamp < job.runs[l].stamp)
    && (forall i, k :: 0 <= i < |job.feedback| && 0 <= k < |job.runs| ==> job.feedback[i] != job.runs[k].stamp)
    && (forall k :: 0 <= k < |job.runs| ==> RunOk(job, job.runs[k]))
  }

  predicate RunOk(job: Job, run: WorkRun) {
    run.phase in WORK_PHASES && run.snapshot <= run.stamp < job.stamp
    && forall i :: i in run.prompt ==> i < |job.feedback| && job.feedback[i] < run.snapshot
  }

  /** A row older than the newest work run was quoted by some run, unless it arrived inside a pass. */
  predicate OldRowsAccounted(job: Job) {
    forall i :: 0 <= i < |job.feedback| && job.feedback[i] < LastWork(job) ==> (Prompted(job, i) <==> !Skipped(job, i))
  }

  predicate HandlerOk(ln: Lane) {
    ln.handler.Some? && ln.handler.value.Working? ==>
      var h := ln.handler.value;
      h.snapshot <= ln.job.stamp && h.known <= |ln.job.feedback|
      && (forall i :: 0 <= i < |ln.job.feedback| ==> (i < h.known <==> ln.job.feedback[i] < h.snapshot))
      && (ln.kind in WORK_PHASES ==> PassOk(ln.job, h))
      && (ln.kind == OpenPr ==> forall i :: 0 <= i < h.known ==> ln.job.feedback[i] < LastWork(ln.job))
  }

  /** Before its first run a pass holds exactly the rows newer than the last run; afterwards it has moved that mark. */
  predicate PassOk(job: Job, h: Handler)
    requires h.Working? && h.known <= |job.feedback|
  {
    (forall i :: i in h.read ==> i < h.known)
    && (h.attempts == 0 ==> LastWork(job) < h.snapshot
                            && forall i :: 0 <= i < h.known ==> (i in h.read <==> job.feedback[i] > LastWork(job)))
    && (h.attempts > 0 ==> |job.runs| > 0 && job.runs[|job.runs| - 1].snapshot == h.snapshot <= LastWork(job)
                           && forall i :: i in h.read ==> Prompted(job, i))
  }

  predicate ProvenanceOk(ln: Lane) {
    (ln.kind == Plan ==> ln.job.runs == [])
    && (ln.kind == Implement ==> forall k :: 0 <= k < |ln.job.runs| ==> ln.job.runs[k].phase == Implement)
    && (|ln.job.feedback| > 0 || ln.job.state == AwaitingPrApproval ==> ln.job.hasPr || ln.job.dashboard)
  }

  /** Rows that have reopened the work: one per loop-back, one per settled change request. */
  function Consumed(job: Job): nat {
    Count(job.log, IsLoopBack) + Count(job.log, IsChangeRequest)
  }

  predicate Past(ln: Lane) {
    ln.kind in {Verify, Review, OpenPr}
    || (ln.kind in WORK_PHASES && ln.handler.Some? && ln.handler.value.Working? && ln.handler.value.attempts > 0)
  }

  predicate ConsumedOk(ln: Lane) {
    var n := Consumed(ln.job);
    n <= |ln.job.feedback| && (Past(ln) && n > 0 ==> ln.job.feedback[n - 1] < LastWork(ln.job))
  }

  predicate FeedbackOk(ln: Lane) {
    Ordered(ln.job) && OldRowsAccounted(ln.job) && HandlerOk(ln) && ProvenanceOk(ln) && ConsumedOk(ln)
  }

  // ── The two writes ─────────────────────────────────────────────────────────

  lemma AddFeedbackKeeps(job: Job)
    requires Ordered(job) && OldRowsAccounted(job)
    ensures Ordered(AddFeedback(job)) && OldRowsAccounted(AddFeedback(job))
    ensures LastWork(AddFeedback(job)) == LastWork(job)
  {
    var next := AddFeedback(job);
    forall k | 0 <= k < |next.runs| ensures RunOk(next, next.runs[k]) {
      assert RunOk(job, job.runs[k]);
    }
    if |job.runs| > 0 {
      assert RunOk(job, job.runs[|job.runs| - 1]);
    }
    assert LastWork(next) < next.feedback[|job.feedback|];
    forall i | 0 <= i < |next.feedback| && next.feedback[i] < LastWork(next)
      ensures Prompted(next, i) <==> !Skipped(next, i)
    {
      assert i < |job.feedback|;
      assert Prompted(next, i) == Prompted(job, i);
      assert Skipped(next, i) == Skipped(job, i);
    }
  }

  /** What adding one run does to one row. */
  lemma RunTouches(job: Job, kind: TaskKind, h: Handler, i: nat)
    requires h.Working? && i < |job.feedback|
    ensures var next := AddRun(job, kind, h);
            && (Prompted(next, i) <==> Prompted(job, i) || i in RunRow(job, kind, h).prompt)
            && (Skipped(next, i) <==> Skipped(job, i) || SkippedBy(RunRow(job, kind, h), job.feedback[i]))
  {
    var next := AddRun(job, kind, h);
    assert next.runs[|job.runs|] == RunRow(job, kind, h);
    assert forall k :: 0 <= k < |job.runs| ==> next.runs[k] == job.runs[k];
  }

  lemma NotYetPrompted(job: Job, i: nat)
    requires Ordered(job) && i < |job.feedback| && job.feedback[i] > LastWork(job)
    ensures !Prompted(job, i) && !Skipped(job, i)
  {
    forall k | 0 <= k < |job.runs| ensures i !in job.runs[k].prompt && !SkippedBy(job.runs[k], job.feedback[i]) {
      assert RunOk(job, job.runs[k]);
      assert job.runs[k].stamp <= LastWork(job);
    }
  }

  lemma RunKeepsOrder(job: Job, kind: TaskKind, h: Handler)
    requires h.Working? && kind in WORK_PHASES && Ordered(job) && h.known <= |job.feedback| && h.snapshot <= job.stamp
    requires forall i :: i in h.read ==> i < h.known
    requires forall i :: 0 <= i < |job.feedback| ==> (i < h.known <==> job.feedback[i] < h.snapshot)
    ensures Ordered(AddRun(job, kind, h))
  {
    var next := AddRun(job, kind, h);
    forall k | 0 <= k < |next.runs| ensures RunOk(next, next.runs[k]) {
      if k < |job.runs| {
        assert RunOk(job, job.runs[k]);
      }
    }
  }

  lemma RunAccounts(ln: Lane)
    requires FeedbackOk(ln) && ln.handler.Some? && ln.handler.value.Working? && ln.kind in WORK_PHASES
    ensures OldRowsAccounted(AddRun(ln.job, ln.kind, ln.handler.value))
  {
    var job, h := ln.job, ln.handler.value;
    var next := AddRun(job, ln.kind, h);
    var row := RunRow(job, ln.kind, h);
    forall i | 0 <= i < |next.feedback| && next.feedback[i] < LastWork(next)
      ensures Prompted(next, i) <==> !Skipped(next, i)
    {
      RunTouches(job, ln.kind, h, i);
      if job.feedback[i] > LastWork(job) {
        NotYetPrompted(job, i);
        assert i in row.prompt <==> !SkippedBy(row, job.feedback[i]);
      } else {
        assert |job.runs| > 0 && job.feedback[i] != job.runs[|job.runs| - 1].stamp;
        if h.attempts == 0 {
          assert i !in h.read;
        } else {
          assert SkippedBy(row, job.feedback[i]) ==> SkippedBy(job.runs[|job.runs| - 1], job.feedback[i]);
        }
      }
    }
  }

  lemma RunAgentKeeps(cfg: Config, ln: Lane)
    requires FeedbackOk(ln) && MayRun(cfg, ln)
    ensures FeedbackOk(LaneNext(cfg, ln, RunAgent))
  {
    RunAdds(ln, LaneNext(cfg, ln, RunAgent));
  }

  lemma RunAdds(ln: Lane, next: Lane)
    requires FeedbackOk(ln) && ln.handler.Some? && ln.handler.value.Working? && ln.kind in WORK_PHASES
    requires next.job == AddRun(ln.job, ln.kind, ln.handler.value) && next.kind == ln.kind
    requires next.handler == Some(ln.handler.value.(attempts := ln.handler.value.attempts + 1))
    ensures FeedbackOk(next)
  {
    RunKeepsOrder(ln.job, ln.kind, ln.handler.value);
    RunAccounts(ln);
    RunKeepsPass(ln.job, ln.kind, ln.handler.value, next.job);
    RunKeepsRest(ln, next.job, next);
  }

  lemma RunKeepsRest(ln: Lane, run: Job, next: Lane)
    requires FeedbackOk(ln) && ln.handler.Some? && ln.handler.value.Working? && ln.kind in WORK_PHASES
    requires run == AddRun(ln.job, ln.kind, ln.handler.value)
    requires next.job == run && next.kind == ln.kind
    requires next.handler == Some(ln.handler.value.(attempts := ln.handler.value.attempts + 1))
    requires Ordered(run) && OldRowsAccounted(run) && PassOk(run, next.handler.value)
    ensures FeedbackOk(next)
  {
    var n := Consumed(ln.job);
    if n > 0 {
      assert ln.job.feedback[n - 1] < ln.job.stamp;
    }
  }

  /** A run moves the pass's mark and has quoted what the pass holds. */
  lemma RunKeepsPass(job: Job, kind: TaskKind, h: Handler, next: Job)
    requires h.Working? && h.known <= |job.feedback| && PassOk(job, h) && h.snapshot <= job.stamp && next == AddRun(job, kind, h)
    ensures PassOk(next, h.(attempts := h.attempts + 1))
  {
    forall i | i in h.read ensures Prompted(next, i) {
      RunTouches(job, kind, h, i);
    }
  }

  // ── Every step ─────────────────────────────────────────────────────────────

  predicate SameFeedbackRows(a: Job, b: Job) {
    a.feedback == b.feedback && a.runs == b.runs && a.stamp == b.stamp && a.dashboard == b.dashboard
  }

  lemma SameRowsKeep(job: Job, next: Job)
    requires SameFeedbackRows(job, next) && Ordered(job) && OldRowsAccounted(job)
    ensures Ordered(next) && OldRowsAccounted(next) && LastWork(next) == LastWork(job)
  {
    forall k | 0 <= k < |next.runs| ensures RunOk(next, next.runs[k]) {
      assert RunOk(job, job.runs[k]);
    }
    forall i | 0 <= i < |next.feedback| && next.feedback[i] < LastWork(next)
      ensures Prompted(next, i) <==> !Skipped(next, i)
    {
      assert Prompted(next, i) == Prompted(job, i) && Skipped(next, i) == Skipped(job, i);
    }
  }

  lemma ConsumedStep(ln: Lane, next: Lane)
    requires LogStep(ln, next)
    ensures next.job.log == ln.job.log ==> Consumed(next.job) == Consumed(ln.job)
    ensures next.job.log != ln.job.log ==>
              var e := next.job.log[|ln.job.log|];
              Consumed(next.job) == Consumed(ln.job) + (if IsLoopBack(e) || IsChangeRequest(e) then 1 else 0)
  {
    if next.job.log != ln.job.log {
      CountSnoc(ln.job.log, next.job.log[|ln.job.log|], IsLoopBack);
      CountSnoc(ln.job.log, next.job.log[|ln.job.log|], IsChangeRequest);
    }
  }

  lemma LastWorkIsAnchor(job: Job)
    requires Ordered(job)
    ensures LastRunStamp(job.runs, WORK_PHASES) == LastWork(job)
  {
    if |job.runs| > 0 {
      assert RunOk(job, job.runs[|job.runs| - 1]);
    }
  }

  /** A step that writes no feedback and no run row. */
  predicate Quiet(ln: Lane, next: Lane) {
    SameFeedbackRows(ln.job, next.job)
    && (next.kind == Plan ==> ln.kind == Plan) && (next.kind == Implement ==> ln.kind in {Plan, Implement})
    && (ln.job.hasPr ==> next.job.hasPr)
    && (next.job.state == AwaitingPrApproval ==> next.job.hasPr || next.job.dashboard)
  }

  lemma QuietKeeps(ln: Lane, next: Lane)
    requires FeedbackOk(ln) && Quiet(ln, next) && HandlerOk(next)
    requires if Consumed(next.job) == Consumed(ln.job) then Past(next) ==> Past(ln)
             else Consumed(next.job) <= |next.job.feedback| && !Past(next)
    ensures FeedbackOk(next)
  {
    SameRowsKeep(ln.job, next.job);
  }

  predicate SameConsumption(ln: Lane, next: Lane) {
    Consumed(next.job) == Consumed(ln.job) && (Past(next) ==> Past(ln))
  }

  lemma BeginSummary(cfg: Config, ln: Lane, discovered: Option<string>, retry: bool)
    requires StageOk(ln) && ln.handler == Some(Claimed)
    requires ln.job.state == AwaitingPrApproval ==> ln.job.hasPr || ln.job.dashboard
    ensures var next := LaneNext(cfg, ln, LaneAction.Begin(discovered, retry));
            Quiet(ln, next)
            && match Stages.Begin(ln.job, ln.kind, discovered)
               case Proceed(job, h) => next == ln.(job := job, handler := Some(h)) && SameConsumption(ln, next)
               case Ended(_) =>
                 next.handler == None
                 && if Terminal(ln.job.state) then SameConsumption(ln, next)
                    else next.kind == Revise && Unaddressed(ln.job) != {} && Consumed(next.job) == Consumed(ln.job) + 1
                         && ln.kind == OpenPr
  {
    var next := LaneNext(cfg, ln, LaneAction.Begin(discovered, retry));
    BeginLogs(cfg, ln, discovered, retry);
    BeginLeads(ln.job, ln.kind, discovered);
    BeginFrame(ln.job, ln.kind, discovered);
    ConsumedStep(ln, next);
  }

  lemma BeginKeeps(cfg: Config, ln: Lane, discovered: Option<string>, retry: bool)
    requires StageOk(ln) && FeedbackOk(ln) && ln.handler == Some(Claimed)
    ensures FeedbackOk(LaneNext(cfg, ln, LaneAction.Begin(discovered, retry)))
  {
    BeginSummary(cfg, ln, discovered, retry);
    if Stages.Begin(ln.job, ln.kind, discovered).Proceed? {
      ReadIsWhatIsNew(ln.job, ln.kind, discovered, ln);
    } else if !Terminal(ln.job.state) {
      OpenFeedbackIsUnconsumed(ln);
    }
    QuietKeeps(ln, LaneNext(cfg, ln, LaneAction.Begin(discovered, retry)));
  }

  lemma OpenFeedbackIsUnconsumed(ln: Lane)
    requires FeedbackOk(ln) && Past(ln) && Unaddressed(ln.job) != {}
    ensures Consumed(ln.job) < |ln.job.feedback|
  {
    LastWorkIsAnchor(ln.job);
    var i :| i in Unaddressed(ln.job);
    assert ln.job.feedback[i] > LastWork(ln.job);
  }

  lemma BeginFrame(job: Job, kind: TaskKind, discovered: Option<string>)
    ensures var begun := Stages.Begin(job, kind, discovered);
            SameFeedbackRows(job, if begun.Proceed? then begun.job else begun.outcome.job)
            && (if begun.Proceed? then begun.job else begun.outcome.job).hasPr == job.hasPr
  {
    match kind case Plan => case Implement => case Verify => case Review => case Revise => case OpenPr =>
  }

  /** A pass reads exactly the rows that arrived since the last work run. */
  lemma ReadIsWhatIsNew(job: Job, kind: TaskKind, discovered: Option<string>, ln: Lane)
    requires FeedbackOk(ln) && ln.job == job && ln.kind == kind && Stages.Begin(job, kind, discovered).Proceed?
    ensures var next := ln.(job := Stages.Begin(job, kind, discovered).job, handler := Some(Stages.Begin(job, kind, discovered).handler));
            HandlerOk(next)
  {
    BeginFrame(job, kind, discovered);
    LastWorkIsAnchor(job);
    if kind == Implement {
      ImplementAnchor(job);
      assert FeedbackFor(job, kind) == FeedbackAfter(job, LastWork(job));
    }
    if |job.runs| > 0 {
      assert RunOk(job, job.runs[|job.runs| - 1]);
    }
    if kind == OpenPr {
      AllAddressed(job);
    }
  }

  lemma AllAddressed(job: Job)
    requires Ordered(job) && Unaddressed(job) == {}
    ensures forall i :: 0 <= i < |job.feedback| ==> job.feedback[i] < LastWork(job)
  {
    LastWorkIsAnchor(job);
    forall i | 0 <= i < |job.feedback| ensures job.feedback[i] < LastWork(job) {
      assert i !in Unaddressed(job);
      if |job.runs| > 0 {
        assert job.feedback[i] != job.runs[|job.runs| - 1].stamp;
      }
    }
  }

  lemma ImplementAnchor(job: Job)
    requires forall k :: 0 <= k < |job.runs| ==> job.runs[k].phase == Implement
    ensures LastRunStamp(job.runs, {Implement}) == LastWork(job)
  {
  }

  lemma FinishSummary(cfg: Config, ln: Lane, reply: Reply, retry: bool)
    requires StageOk(ln) && MayFinish(ln)
    ensures var next := LaneNext(cfg, ln, LaneAction.Finish(reply, retry));
            Quiet(ln, next) && SameConsumption(ln, next) && next.handler == None
  {
    var next := LaneNext(cfg, ln, LaneAction.Finish(reply, retry));
    FinishLogs(cfg, ln, reply, retry);
    FinishLeads(ln.job, ln.kind, cfg, reply);
    FinishFrame(cfg, ln, reply, retry);
    ConsumedStep(ln, next);
  }

  lemma FinishKeeps(cfg: Config, ln: Lane, reply: Reply, retry: bool)
    requires StageOk(ln) && FeedbackOk(ln) && MayFinish(ln)
    ensures FeedbackOk(LaneNext(cfg, ln, LaneAction.Finish(reply, retry)))
  {
    FinishSummary(cfg, ln, reply, retry);
    QuietKeeps(ln, LaneNext(cfg, ln, LaneAction.Finish(reply, retry)));
  }

  lemma ThrowKeeps(cfg: Config, ln: Lane, retry: bool)
    requires StageOk(ln) && FeedbackOk(ln) && ln.handler.Some?
    ensures FeedbackOk(LaneNext(cfg, ln, LaneAction.Throw(retry)))
  {
    var next := LaneNext(cfg, ln, LaneAction.Throw(retry));
    StepLogs(cfg, ln, LaneAction.Throw(retry));
    ConsumedStep(ln, next);
    QuietKeeps(ln, next);
  }

  predicate AddsFeedback(ln: Lane, next: Lane, act: HumanAct) {
    act in {RecordFeedback, RequestChanges} && next != ln
  }

  /** What a human action does to the rows. */
  lemma HumanRows(cfg: Config, ln: Lane, act: HumanAct)
    requires StageOk(ln)
    requires ln.job.state == AwaitingPrApproval ==> ln.job.hasPr || ln.job.dashboard
    ensures var next := LaneNext(cfg, ln, Ask(act));
            if AddsFeedback(ln, next, act) then
              SameFeedbackRows(AddFeedback(ln.job), next.job) && (next.job.hasPr || next.job.dashboard)
              && (if act == RecordFeedback then next == ln.(job := next.job) else next.handler == None && next.kind == Revise)
            else
              Quiet(ln, next) && (next.handler == None || (next.handler == ln.handler && next.kind == ln.kind))
  {
    match act
    case Approve => case PlanFeedback => case PlanLimit => case RecordFeedback =>
    case RequestChanges => case Accept => case Cancel => case Retry =>
  }

  /** A round opened by feedback uses it up. */
  lemma ChangeRequestConsumes(cfg: Config, ln: Lane)
    requires StageOk(ln) && ln.job.state == AwaitingPrApproval
    ensures Consumed(LaneNext(cfg, ln, Ask(RequestChanges)).job) == Consumed(ln.job) + 1
  {
    HumanLogs(cfg, ln, RequestChanges);
    ConsumedStep(ln, LaneNext(cfg, ln, Ask(RequestChanges)));
  }

  /** No other human action does. */
  lemma OthersConsumeNothing(cfg: Config, ln: Lane, act: HumanAct)
    requires StageOk(ln) && (act == RequestChanges ==> ln.job.state != AwaitingPrApproval)
    ensures SameConsumption(ln, LaneNext(cfg, ln, Ask(act)))
  {
    HumanLogs(cfg, ln, act);
    ConsumedStep(ln, LaneNext(cfg, ln, Ask(act)));
    match act
    case Approve => case PlanFeedback => case PlanLimit => case RecordFeedback =>
    case RequestChanges => case Accept => case Cancel => case Retry =>
  }

  /** What it does to the log, as far as feedback is used up by it. */
  lemma HumanConsumes(cfg: Config, ln: Lane, act: HumanAct)
    requires StageOk(ln)
    ensures var next := LaneNext(cfg, ln, Ask(act));
            if act == RequestChanges && next != ln then Consumed(next.job) == Consumed(ln.job) + 1
            else SameConsumption(ln, next)
  {
    if act == RequestChanges && ln.job.state == AwaitingPrApproval {
      ChangeRequestConsumes(cfg, ln);
    } else {
      OthersConsumeNothing(cfg, ln, act);
    }
  }

  lemma AddFeedbackHandler(ln: Lane, next: Lane)
    requires Ordered(ln.job) && HandlerOk(ln) && SameFeedbackRows(AddFeedback(ln.job), next.job)
    requires next.handler == ln.handler && next.kind == ln.kind
    ensures HandlerOk(next)
  {
    assert LastWork(next.job) == LastWork(ln.job);
    forall i | Prompted(ln.job, i) ensures Prompted(next.job, i) {
      var k :| 0 <= k < |ln.job.runs| && i in ln.job.runs[k].prompt;
      assert i in next.job.runs[k].prompt;
    }
  }

  lemma AddFeedbackStep(ln: Lane, next: Lane)
    requires FeedbackOk(ln) && SameFeedbackRows(AddFeedback(ln.job), next.job) && (next.job.hasPr || next.job.dashboard)
    requires if Consumed(next.job) == Consumed(ln.job) then next.handler == ln.handler && next.kind == ln.kind
             else Consumed(next.job) == Consumed(ln.job) + 1 && next.handler == None && next.kind == Revise
    ensures FeedbackOk(next)
  {
    AddFeedbackKeeps(ln.job);
    SameRowsKeep(AddFeedback(ln.job), next.job);
    assert HandlerOk(next) by {
      if next.handler != None {
        AddFeedbackHandler(ln, next);
      }
    }
    assert ProvenanceOk(next);
    assert ConsumedOk(next);
  }

  lemma SameHandler(ln: Lane, next: Lane)
    requires HandlerOk(ln) && SameFeedbackRows(ln.job, next.job) && next.handler == ln.handler && next.kind == ln.kind
    ensures HandlerOk(next)
  {
    assert forall i :: Prompted(ln.job, i) ==> Prompted(next.job, i);
  }

  lemma HumanKeeps(cfg: Config, ln: Lane, act: HumanAct)
    requires StageOk(ln) && FeedbackOk(ln)
    ensures FeedbackOk(LaneNext(cfg, ln, Ask(act)))
  {
    var next := LaneNext(cfg, ln, Ask(act));
    HumanRows(cfg, ln, act);
    HumanConsumes(cfg, ln, act);
    if AddsFeedback(ln, next, act) {
      AddFeedbackStep(ln, next);
    } else {
      if next.handler != None {
        SameHandler(ln, next);
      }
      QuietKeeps(ln, next);
    }
  }

  /** The task is claimed, or the process restarts: the job itself is untouched. */
  lemma IdleKeeps(ln: Lane, next: Lane)
    requires FeedbackOk(ln) && next.job == ln.job && next.kind == ln.kind && next.handler in {None, Some(Claimed)}
    requires Past(next) ==> Past(ln)
    ensures FeedbackOk(next)
  {
  }

  lemma FeedbackKept(cfg: Config, ln: Lane, a: LaneAction)
    requires StageOk(ln) && FeedbackOk(ln)
    ensures FeedbackOk(LaneNext(cfg, ln, a))
  {
    match a
    case Claim => if ln.status == Queue.Pending { IdleKeeps(ln, LaneNext(cfg, ln, Claim)); }
    case Begin(discovered, retry) => if ln.handler == Some(Claimed) { BeginKeeps(cfg, ln, discovered, retry); }
    case RunAgent => if MayRun(cfg, ln) { RunAgentKeeps(cfg, ln); }
    case Finish(reply, retry) => if MayFinish(ln) { FinishKeeps(cfg, ln, reply, retry); }
    case Throw(retry) => if ln.handler.Some? { ThrowKeeps(cfg, ln, retry); }
    case Restart => IdleKeeps(ln, LaneNext(cfg, ln, LaneAction.Restart));
    case Ask(act) => HumanKeeps(cfg, ln, act);
  }

  // ── What it means ──────────────────────────────────────────────────────────

  /**
   * When OPEN_PR presents the work, every row that was there at its guard is older
   * than the newest work run, and an agent was told about it exactly if it did not
   * arrive in the middle of a pass.
   */
  lemma PresentedFeedback(cfg: Config, ln: Lane, reply: Reply, retry: bool, i: nat)
    requires StageOk(ln) && FeedbackOk(ln) && MayFinish(ln) && ln.kind == OpenPr
    requires i < ln.handler.value.known
    ensures var next := LaneNext(cfg, ln, LaneAction.Finish(reply, retry));
            i < |next.job.feedback| && next.job.feedback[i] < LastWork(next.job)
            && (Prompted(next.job, i) <==> !Skipped(next.job, i))
  {
    PresentedRow(ln, i);
    FinishFrame(cfg, ln, reply, retry);
    SameRowsSameAccount(ln.job, Ending(Stages.Finish(ln.job, ln.kind, cfg, reply), ln.kind, retry).job, i);
  }

  /** The guard's rows, while OPEN_PR is at work. */
  lemma PresentedRow(ln: Lane, i: nat)
    requires FeedbackOk(ln) && ln.handler.Some? && ln.handler.value.Working? && ln.kind == OpenPr && i < ln.handler.value.known
    ensures i < |ln.job.feedback| && ln.job.feedback[i] < LastWork(ln.job)
    ensures Prompted(ln.job, i) <==> !Skipped(ln.job, i)
  {
  }

  lemma SameRowsSameAccount(a: Job, b: Job, i: nat)
    requires a.feedback == b.feedback && a.runs == b.runs && i < |a.feedback|
    ensures LastWork(a) == LastWork(b) && Prompted(a, i) == Prompted(b, i) && Skipped(a, i) == Skipped(b, i)
  {
  }

  /** With one agent run per pass, created as the feedback is read, nobody's feedback is missed. */
  lemma SingleRunPassesLoseNothing(ln: Lane, i: nat)
    requires FeedbackOk(ln) && i < |ln.job.feedback| && ln.job.feedback[i] < LastWork(ln.job)
    requires forall k :: 0 <= k < |ln.job.runs| ==> ln.job.runs[k].snapshot == ln.job.runs[k].stamp
    ensures Prompted(ln.job, i)
  {
    assert !Skipped(ln.job, i);
  }

  /** Loop-backs of a round, and of the whole job with its change requests, are paid for in feedback rows. */
  lemma FeedbackPaysForWork(ln: Lane)
    requires FeedbackOk(ln)
    ensures Rounds.LoopBacks(ln.job) <= Count(ln.job.log, IsLoopBack)
    ensures Count(ln.job.log, IsLoopBack) + Count(ln.job.log, IsChangeRequest) <= |ln.job.feedback|
  {
    RoundWithinLog(ln.job.log);
  }

  lemma {:induction false} RoundWithinLog(log: seq<Entry>)
    ensures CountInRound(log, IsLoopBack) <= Count(log, IsLoopBack)
  {
    if |log| > 0 {
      RoundWithinLog(log[..|log| - 1]);
    }
  }
}
