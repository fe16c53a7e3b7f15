/**
 * What a stage or a decision leaves behind, in every run: told from the rows before and
 * after and from what the outside world answered, and from nothing else.
 */
module Outcomes {
  import opened Common
  import opened Jobs
  import opened Stages
  import opened Lanes
  import opened System
  import opened Tables
  import opened Pipeline
  import opened Theorems
  import Q = Queue
  import Builds
  import Records
  import Texts

  // ── VERIFY ─────────────────────────────────────────────────────────────────

  predicate Checking(s: Sys, t: nat) {
    Held(s, t) && s.tasks[t].kind == Verify && s.running[t].Working? && s.jobs[s.tasks[t].jobId].state == Verifying
  }

  /**
   * The command failed if it failed twice; a result that could not be had counts as
   * passed. The result is recorded under the next number of its round and is the round's
   * newest; it leads to review if it passed, and else to REVISE until the failures of the
   * round reach the maximum. Without a command nothing is recorded.
   */
  predicate VerifyLeads(cfg: Config, job: Job, after: Job, first: CheckRun, second: CheckRun) {
    after.cycle == job.cycle && after.command == job.command
    && if job.command == "" then after.verifyRuns == job.verifyRuns && after.state == SelfReviewing
       else
         var red := first == Red && second == Red;
         after.verifyRuns == job.verifyRuns + [VerifyRun(job.cycle, |Records.VerifyRows(job.verifyRuns, job.cycle)| + 1, !red)]
         && LastVerify(after.verifyRuns, after.cycle) == Some(!red)
         && (after.state == SelfReviewing <==> !red)
         && (after.state == Revising <==> red && |Records.FailedRows(after.verifyRuns, job.cycle)| < cfg.maxVerifyAttempts)
         && (after.state == OpeningPr <==> red && |Records.FailedRows(after.verifyRuns, job.cycle)| >= cfg.maxVerifyAttempts)
  }

  lemma VerifyEnds(cfg: Config, job: Job, first: CheckRun, second: CheckRun)
    requires job.state == Verifying
    ensures var end := FinishVerify(job, cfg, first, second); end.Committed? && VerifyLeads(cfg, job, end.job, first, second)
  {
    var red := first == Red && second == Red;
    var recorded := RecordVerify(job, !red);
    Records.VerifiesAreCounted(job.verifyRuns, job.cycle);
    Records.FailuresAreCounted(recorded.verifyRuns, job.cycle);
  }

  lemma VerifiesLeadExactly(cfg: Config, actions: seq<Action>, t: nat, reply: Reply)
    requires Checking(Run(cfg, actions), t)
    ensures var s, next := Run(cfg, actions), SysNext(cfg, Run(cfg, actions), Action.Finish(t, reply));
            var j := s.tasks[t].jobId;
            j in next.jobs && VerifyLeads(cfg, s.jobs[j], next.jobs[j], reply.first, reply.second)
  {
    var s := Run(cfg, actions);
    var job := s.jobs[s.tasks[t].jobId];
    VerifyEnds(cfg, job, reply.first, reply.second);
    FinishIsEnd(cfg, s, t, reply);
    CommittedJob(cfg, s, t, Stages.Finish(job, Verify, cfg, reply));
  }

  // ── The verify command ─────────────────────────────────────────────────────

  /** A known command is kept; else what discovery reports is stored without the white space around it. */
  ghost predicate Discovers(job: Job, after: Job, discovered: Option<string>) {
    if job.command != "" || discovered.None? then after.command == job.command
    else Texts.IsTrimmed(discovered.value, after.command)
  }

  lemma CommandIsDiscovered(cfg: Config, actions: seq<Action>, t: nat, discovered: Option<string>)
    requires var s := Run(cfg, actions);
             Held(s, t) && s.running[t] == Claimed && s.tasks[t].kind == Verify && !Terminal(s.jobs[s.tasks[t].jobId].state)
    ensures var s, next := Run(cfg, actions), SysNext(cfg, Run(cfg, actions), Action.Begin(t, discovered));
            var j := s.tasks[t].jobId;
            j in next.jobs && next.jobs[j].state == Verifying && Discovers(s.jobs[j], next.jobs[j], discovered)
            && t in next.running && next.running[t].Working?
  {
    var s := Run(cfg, actions);
    Reachable(cfg, actions);
    HandlersMatchTasks(cfg, s, t);
    ReachableStage(cfg, View(s, s.tasks[t].jobId));
    if discovered.Some? {
      Texts.TrimIs(discovered.value);
    }
  }

  /** Nothing else ever sets a command. */
  lemma CommandsStay(cfg: Config, ln: Lane, a: LaneAction)
    ensures LaneNext(cfg, ln, a).job.command == ln.job.command
            || (a.Begin? && ln.kind == Verify && ln.job.command == "" && a.discovered.Some?)
  {
    match a
    case Claim => case RunAgent => case Restart => case Throw(_) => case Ask(_) =>
    case Begin(discovered, _) =>
      match ln.kind { case Plan => case Implement => case Verify => case Review => case Revise => case OpenPr => }
    case Finish(reply, retry) => if MayFinish(ln) { FinishFrame(cfg, ln, reply, retry); }
  }

  // ── PLAN and what the human decides on it ──────────────────────────────────

  predicate Drafting(s: Sys, t: nat) {
    Held(s, t) && s.tasks[t].kind == Plan && s.running[t].Working? && s.jobs[s.tasks[t].jobId].state == Planning
  }

  /** The draft, without the white space around it, is the newest revision, open, under the next number. */
  ghost predicate DraftIsOnTheTable(job: Job, after: Job, draft: string) {
    after.state == AwaitingPlanApproval && |after.plans| == |job.plans| + 1 && after.plans[..|job.plans|] == job.plans
    && var last := Builds.LastPlan(after.plans);
       last.number == |after.plans| && last.status == Proposed && Texts.IsTrimmed(draft, last.content)
  }

  lemma DraftsAreProposed(cfg: Config, actions: seq<Action>, t: nat, reply: Reply)
    requires Drafting(Run(cfg, actions), t)
    ensures var s, next := Run(cfg, actions), SysNext(cfg, Run(cfg, actions), Action.Finish(t, reply));
            var j := s.tasks[t].jobId;
            j in next.jobs && DraftIsOnTheTable(s.jobs[j], next.jobs[j], reply.plan)
  {
    var s := Run(cfg, actions);
    var j := s.tasks[t].jobId;
    JobOf(cfg, actions, j);
    PlanEnds(s.jobs[j], reply.plan);
    FinishIsEnd(cfg, s, t, reply);
    CommittedJob(cfg, s, t, Stages.Finish(s.jobs[j], Plan, cfg, reply));
  }

  lemma PlanEnds(job: Job, draft: string)
    requires job.state == Planning && Builds.Numbered(job.plans)
    ensures var end := FinishPlan(job, draft); end.Committed? && DraftIsOnTheTable(job, end.job, draft)
  {
    Texts.TrimIs(draft);
    if |job.plans| > 0 {
      Builds.NewestIsLast(job.plans, AnyRevision);
    }
  }

  /** A decision closes every open revision one way, and touches no number and no text. */
  predicate Decided(plans: seq<PlanRevision>, after: seq<PlanRevision>, to: RevisionStatus) {
    |after| == |plans|
    && forall i :: 0 <= i < |plans| ==> after[i] == if plans[i].status == Proposed then plans[i].(status := to) else plans[i]
  }

  /** The plan that an approval puts in force is the draft that was on the table, text and all. */
  lemma ApprovalPutsTheDraftInForce(cfg: Config, actions: seq<Action>, j: nat)
    requires j in Run(cfg, actions).jobs && Run(cfg, actions).jobs[j].state == AwaitingPlanApproval
    ensures var job, next := Run(cfg, actions).jobs[j], SysNext(cfg, Run(cfg, actions), Action.Ask(j, HumanAct.Approve));
            j in next.jobs && |job.plans| > 0 && Decided(job.plans, next.jobs[j].plans, Approved)
            && next.jobs[j].state == Implementing && next.jobs[j].cycle == job.cycle + 1
            && ApprovedPlan(next.jobs[j].plans) == Some(Builds.LastPlan(job.plans).(status := Approved))
  {
    JobOf(cfg, actions, j);
    PickedPlan(cfg, View(Run(cfg, actions), j));
    ApprovedJob(Run(cfg, actions).jobs[j]);
    AnswerTakesEffect(cfg, Run(cfg, actions), j, HumanAct.Approve, Stages.Approve(Run(cfg, actions).jobs[j]));
  }

  lemma PickedPlan(cfg: Config, ln: Lane)
    requires StageOk(ln) && Builds.PlansOk(ln) && ln.job.state == AwaitingPlanApproval
    ensures var answer := Stages.Approve(ln.job);
            answer.Accepted? && |ln.job.plans| > 0
            && ApprovedPlan(answer.job.plans) == Some(Builds.LastPlan(ln.job.plans).(status := Approved))
  {
    Builds.ApprovalPicksTheProposal(cfg, ln);
  }

  lemma ApprovedJob(job: Job)
    requires job.state == AwaitingPlanApproval
    ensures var answer := Stages.Approve(job);
            answer.Accepted? && Decided(job.plans, answer.job.plans, Approved)
            && answer.job.state == Implementing && answer.job.cycle == job.cycle + 1
  {
  }

  /** Feedback on a plan supersedes it and sends the job back to planning. */
  lemma PlanFeedbackSupersedes(cfg: Config, actions: seq<Action>, j: nat)
    requires j in Run(cfg, actions).jobs && Run(cfg, actions).jobs[j].state == AwaitingPlanApproval
    ensures var job, next := Run(cfg, actions).jobs[j], SysNext(cfg, Run(cfg, actions), Action.Ask(j, HumanAct.PlanFeedback));
            j in next.jobs && Decided(job.plans, next.jobs[j].plans, Superseded)
            && next.jobs[j].state == Planning && next.jobs[j].cycle == job.cycle
  {
    AskIsAnswer(cfg, Run(cfg, actions), j, HumanAct.PlanFeedback);
  }

  /** While a plan waits for its approval, nothing but a decision changes it. */
  lemma TheTableStays(cfg: Config, actions: seq<Action>, a: Action, j: nat)
    requires j in Run(cfg, actions).jobs && Run(cfg, actions).jobs[j].state == AwaitingPlanApproval
    ensures var job, next := Run(cfg, actions).jobs[j], SysNext(cfg, Run(cfg, actions), a);
            j in next.jobs && (next.jobs[j].state == AwaitingPlanApproval ==> next.jobs[j].plans == job.plans)
  {
    JobOf(cfg, actions, j);
    StepKeeps(cfg, Run(cfg, actions), a);
    WaitingPlanStays(cfg, View(Run(cfg, actions), j), View(SysNext(cfg, Run(cfg, actions), a), j));
  }

  lemma WaitingPlanStays(cfg: Config, ln: Lane, next: Lane)
    requires StageOk(ln) && ln.job.state == AwaitingPlanApproval && LaneStep(cfg, ln, next)
    ensures next.job.state == AwaitingPlanApproval ==> next.job.plans == ln.job.plans
  {
    if next != ln {
      var a :| next == LaneNext(cfg, ln, a);
      if a.Ask? {
        match a.act case Approve => case PlanFeedback => case PlanLimit => case RecordFeedback =>
        case RequestChanges => case Accept => case Cancel => case Retry =>
      }
    }
  }

  // ── Every decision of a human ──────────────────────────────────────────────

  /** When a decision is accepted. */
  predicate MayDecide(cfg: Config, job: Job, act: HumanAct) {
    match act
    case Approve => job.state == AwaitingPlanApproval
    case PlanFeedback => job.state == AwaitingPlanApproval
    case PlanLimit => job.state == AwaitingPlanApproval && |job.plans| >= cfg.maxPlanRevisions
    case RecordFeedback => job.hasPr
    case RequestChanges => job.state == AwaitingPrApproval
    case Accept => job.state == AwaitingPrApproval
    case Cancel => job.state !in {Done, Failed, Cancelled}
    case Retry => job.state == Failed
  }

  /** The state it leads to; a failed job resumes where its newest task would drive it. */
  predicate LeadsTo(job: Job, act: HumanAct, kind: TaskKind, state: JobState) {
    match act
    case Approve => state == Implementing
    case PlanFeedback => state == Planning
    case PlanLimit => state == Failed
    case RecordFeedback => state == job.state
    case RequestChanges => state == Revising
    case Accept => state == Done
    case Cancel => state == Cancelled
    case Retry => state != Triaged && Drives(kind, state)
  }

  /** It is logged, counts a round if it opens one, and notes feedback where it is one; the rest of the job stays. */
  predicate Does(job: Job, after: Job, act: HumanAct, kind: TaskKind) {
    LeadsTo(job, act, kind, after.state)
    && after.log == (if act == RecordFeedback then job.log
                     else job.log + [Entry(Some(job.state), after.state, if act == PlanLimit then Actor.System else Human)])
    && after.cycle == job.cycle + (if act in {Approve, RequestChanges} then 1 else 0)
    && after.feedback == job.feedback + (if act in {RecordFeedback, RequestChanges} then [job.stamp] else [])
    && after == job.(state := after.state, log := after.log, cycle := after.cycle, feedback := after.feedback,
                     stamp := after.stamp, plans := after.plans)
    && (act !in {HumanAct.Approve, HumanAct.PlanFeedback} ==> after.plans == job.plans)
  }

  lemma AnswerDoes(cfg: Config, ln: Lane, act: HumanAct)
    ensures var answer := AnswerTo(cfg, ln, act);
            if MayDecide(cfg, ln.job, act) then answer.Accepted? && Does(ln.job, answer.job, act, ln.kind) else answer.Refused?
  {
    match act
    case Approve => case PlanFeedback => case PlanLimit => case RecordFeedback =>
    case RequestChanges => case Accept => case Cancel => case Retry =>
  }

  /** Every decision over every run: accepted exactly when it may be, and then it does that; a refused one changes nothing. */
  lemma DecisionsDo(cfg: Config, actions: seq<Action>, j: nat, act: HumanAct, c: nat)
    requires j in Run(cfg, actions).jobs && IsNewest(Run(cfg, actions).tasks, j, c)
    ensures var s, next := Run(cfg, actions), SysNext(cfg, Run(cfg, actions), Action.Ask(j, act));
            if MayDecide(cfg, s.jobs[j], act) then j in next.jobs && Does(s.jobs[j], next.jobs[j], act, s.tasks[c].kind) else next == s
  {
    var s := Run(cfg, actions);
    Reachable(cfg, actions);
    NewestIs(s.tasks, j, c);
    AnswerDoes(cfg, View(s, j), act);
    AnswerDependsOnKind(cfg, s, j, act);
    AnswerTakesEffect(cfg, s, j, act, AnswerTo(cfg, View(s, j), act));
  }

  lemma AnswerTakesEffect(cfg: Config, s: Sys, j: nat, act: HumanAct, answer: Stages.Answer)
    requires j in s.jobs && answer == System.Answer(cfg, s, j, act)
    ensures var next := SysNext(cfg, s, Action.Ask(j, act));
            if answer.Accepted? then j in next.jobs && next.jobs[j] == answer.job else next == s
  {
    AskIsAnswer(cfg, s, j, act);
  }
}
