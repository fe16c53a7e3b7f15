/** Review never runs over a red build, and the plan that is built is the plan that was approved. */
module Builds {
  import opened Common
  import opened Jobs
  import opened Stages
  import opened Lanes
  import opened Gates
  import Records
  import Reviews
  import Texts

  // ── Red builds ─────────────────────────────────────────────────────────────

  predicate CommandTrimmed(job: Job) {
    Texts.Trim(job.command) == job.command
  }

  /**
   * No check has run while no command was known; whatever reaches REVIEW was
   * green or unchecked; whatever reaches OPEN_PR red has used up its fix budget.
   */
  predicate BuildOk(cfg: Config, ln: Lane) {
    var last := LastVerify(ln.job.verifyRuns, ln.job.cycle);
    CommandTrimmed(ln.job)
    && (ln.job.command == "" ==> ln.job.verifyRuns == [])
    && (ln.kind == Review ==> last != Some(false))
    && (ln.kind == OpenPr && last == Some(false) ==> FailuresIn(ln.job.verifyRuns, ln.job.cycle) >= cfg.maxVerifyAttempts)
  }

  lemma VerifyKeepsBuild(cfg: Config, ln: Lane, reply: Reply, retry: bool)
    requires StageOk(ln) && BuildOk(cfg, ln) && MayFinish(ln) && ln.kind == Verify
    ensures BuildOk(cfg, LaneNext(cfg, ln, LaneAction.Finish(reply, retry)))
  {
    var end := FinishVerify(ln.job, cfg, reply.first, reply.second);
    CheckedBuild(cfg, ln, end, Ending(end, Verify, retry), reply, retry);
  }

  lemma CheckedBuild(cfg: Config, ln: Lane, end: Outcome, next: Lane, reply: Reply, retry: bool)
    requires BuildOk(cfg, ln) && ln.kind == Verify && ln.job.state in {Verifying, Cancelled}
    requires end == FinishVerify(ln.job, cfg, reply.first, reply.second) && next == Ending(end, Verify, retry)
    ensures BuildOk(cfg, next)
  {
    VerifyOutcome(cfg, ln.job, reply.first, reply.second);
    BuildAfterCheck(cfg, ln, next, ChecksOk(reply.first, reply.second));
  }

  lemma BuildAfterCheck(cfg: Config, ln: Lane, next: Lane, ok: bool)
    requires BuildOk(cfg, ln) && ln.kind == Verify && next.job.command == ln.job.command && next.job.cycle == ln.job.cycle
    requires if ln.job.command == "" then next.job.verifyRuns == ln.job.verifyRuns
             else LastVerify(next.job.verifyRuns, ln.job.cycle) == Some(ok)
    requires next.kind in {Verify, Review, Revise, OpenPr} && (next.kind == Review ==> ln.job.command == "" || ok)
    requires next.kind == OpenPr ==> FailuresIn(next.job.verifyRuns, ln.job.cycle) >= cfg.maxVerifyAttempts
    ensures BuildOk(cfg, next)
  {
  }

  lemma VerifyOutcome(cfg: Config, job: Job, first: CheckRun, second: CheckRun)
    requires job.state in {Verifying, Cancelled}
    ensures var end, ok := FinishVerify(job, cfg, first, second), ChecksOk(first, second);
            var after := end.job;
            after.command == job.command && after.cycle == job.cycle
            && (if job.command == "" then after.verifyRuns == job.verifyRuns
                else after.verifyRuns == RecordVerify(job, ok).verifyRuns && LastVerify(after.verifyRuns, job.cycle) == Some(ok))
            && (end.Committed? ==> end.next.Some? && end.next.value in {Review, Revise, OpenPr})
            && (end.Committed? && end.next == Some(Review) ==> job.command == "" || ok)
            && (end.Committed? && end.next == Some(OpenPr) ==>
                  job.command != "" && FailuresIn(after.verifyRuns, job.cycle) >= cfg.maxVerifyAttempts)
  {
    var ok := ChecksOk(first, second);
    assert LastVerify(RecordVerify(job, ok).verifyRuns, job.cycle) == Some(ok);
  }

  lemma FinishKeepsBuild(cfg: Config, ln: Lane, reply: Reply, retry: bool)
    requires StageOk(ln) && BuildOk(cfg, ln) && MayFinish(ln) && ln.kind != Verify
    ensures BuildOk(cfg, LaneNext(cfg, ln, LaneAction.Finish(reply, retry)))
  {
    FinishFrame(cfg, ln, reply, retry);
    FinishLeads(ln.job, ln.kind, cfg, reply);
    var next := LaneNext(cfg, ln, LaneAction.Finish(reply, retry));
    assert next.kind == OpenPr ==> ln.kind in {OpenPr, Review};
    assert next.kind == Review ==> ln.kind == Review;
  }

  lemma HumanKeepsBuild(cfg: Config, ln: Lane, act: HumanAct)
    requires StageOk(ln) && BuildOk(cfg, ln)
    ensures BuildOk(cfg, LaneNext(cfg, ln, Ask(act)))
  {
    match act
    case Approve => case PlanFeedback => case PlanLimit => case RecordFeedback =>
    case RequestChanges => case Accept => case Cancel => case Retry =>
  }

  lemma BeginKeepsBuild(cfg: Config, ln: Lane, discovered: Option<string>, retry: bool)
    requires StageOk(ln) && BuildOk(cfg, ln)
    ensures BuildOk(cfg, LaneNext(cfg, ln, LaneAction.Begin(discovered, retry)))
  {
    if discovered.Some? {
      Texts.TrimTwice(discovered.value);
    }
    match ln.kind case Plan => case Implement => case Verify => case Review => case Revise => case OpenPr =>
  }

  lemma BuildKept(cfg: Config, ln: Lane, a: LaneAction)
    requires StageOk(ln) && BuildOk(cfg, ln)
    ensures BuildOk(cfg, LaneNext(cfg, ln, a))
  {
    match a
    case Claim => case RunAgent => case Restart => case Throw(_) =>
    case Begin(discovered, retry) => BeginKeepsBuild(cfg, ln, discovered, retry);
    case Ask(act) => HumanKeepsBuild(cfg, ln, act);
    case Finish(reply, retry) =>
      if MayFinish(ln) {
        if ln.kind == Verify { VerifyKeepsBuild(cfg, ln, reply, retry); } else { FinishKeepsBuild(cfg, ln, reply, retry); }
      }
  }

  // ── Where a review leads ───────────────────────────────────────────────────

  predicate PassesRubric(review: Option<Reviews.RawReview>) {
    review.Some? && Reviews.MeetsRubric(review.value)
  }

  /** What the pass just recorded says. */
  predicate PassSays(job: Job, pass: ReviewPass, number: nat, review: Option<Reviews.RawReview>, quotes: bool) {
    pass.cycle == job.cycle && pass.number == number && pass.sentinel == (review.None? || quotes)
    && pass.result.verifyOk == LastVerify(job.verifyRuns, job.cycle)
    && if review.Some? then Reviews.Stores(review.value, pass.result)
       else pass.result.verdict == Reviews.Fail && pass.result.dimensions == Reviews.Dimensions(false, false, false, false)
            && pass.result.issues == [Reviews.Issue(Reviews.High, Reviews.UNPARSEABLE_REVIEW_TITLE)]
  }

  /**
   * Where a review leads, told from the passes of the round with the new one as the
   * newest: out exactly if the rubric is met, the pass was the last one, or so many
   * unparseable passes in a row end with it; else to REVISE after a parsed reply, and to
   * another review after an unparseable one.
   */
  predicate ReviewLeads(cfg: Config, job: Job, after: Job, review: Option<Reviews.RawReview>, quotes: bool) {
    var own := Records.OwnPasses(after.passes, after.cycle);
    after.cycle == job.cycle && |own| > 0
    && own[..|own| - 1] == Records.OwnPasses(job.passes, job.cycle)
    && PassSays(job, own[|own| - 1], |own|, review, quotes)
    && (after.state == OpeningPr <==>
          PassesRubric(review) || |own| >= cfg.maxReviewPasses || (review.None? && Records.EndInSentinels(own, cfg.maxReviewRetries)))
    && (after.state != OpeningPr ==> after.state == if review.Some? then Revising else SelfReviewing)
  }

  /** The pass a review leaves is the newest of its round. */
  lemma RecordedPass(job: Job, review: Option<Reviews.RawReview>, quotes: bool)
    ensures var next, own := RecordReview(job, review, quotes), Records.OwnPasses(RecordReview(job, review, quotes).passes, job.cycle);
            |own| > 0 && own[..|own| - 1] == Records.OwnPasses(job.passes, job.cycle)
            && PassSays(job, own[|own| - 1], |own|, review, quotes)
            && PassesIn(next.passes, job.cycle) == |own| == PassesIn(job.passes, job.cycle) + 1
            && (review.None? ==> TrailingUnparseable(next.passes, job.cycle) == TrailingUnparseable(job.passes, job.cycle) + 1)
  {
    var next := RecordReview(job, review, quotes);
    assert next.passes[..|job.passes|] == job.passes;
    Records.PassesAreCounted(next.passes, job.cycle);
    Records.PassesAreCounted(job.passes, job.cycle);
    if review.Some? {
      Reviews.RepliesAreStored(review.value);
    }
  }

  /** Over a build that is not red, the gate is the rubric. */
  lemma GateOverGreen(job: Job, review: Option<Reviews.RawReview>)
    requires LastVerify(job.verifyRuns, job.cycle) != Some(false)
    ensures Reviews.MeetsThreshold(ReviewResultFor(job, review)) <==> PassesRubric(review)
  {
    if review.Some? {
      Reviews.GateIsTheRubric(review.value, LastVerify(job.verifyRuns, job.cycle));
    }
  }

  /** Once a review is in, the job goes out exactly if the rubric is met or the budget is spent. */
  lemma ReviewGoesOut(cfg: Config, job: Job, review: Option<Reviews.RawReview>, quotes: bool)
    requires job.state == SelfReviewing && LastVerify(job.verifyRuns, job.cycle) != Some(false)
    ensures var end := FinishReview(job, cfg, review, quotes);
            end.Committed? && end.job == RecordReview(job, review, quotes).(state := end.job.state, log := end.job.log)
            && ReviewLeads(cfg, job, end.job, review, quotes)
            && end.next == Some(if end.job.state == OpeningPr then OpenPr else if review.Some? then Revise else Review)
  {
    var recorded := RecordReview(job, review, quotes);
    RecordedPass(job, review, quotes);
    GateOverGreen(job, review);
    ReviewMoves(recorded, OpeningPr, Some(OpenPr));
    ReviewMoves(recorded, Revising, Some(Revise));
    Records.AtLeastInARow(recorded.passes, job.cycle, cfg.maxReviewRetries);
    LeadsFrom(cfg, job, recorded, FinishReview(job, cfg, review, quotes).job, Records.OwnPasses(recorded.passes, job.cycle), review, quotes);
  }

  /** The recorded pass, and where the job is now. */
  lemma LeadsFrom(cfg: Config, job: Job, recorded: Job, after: Job, own: seq<ReviewPass>, review: Option<Reviews.RawReview>, quotes: bool)
    requires own == Records.OwnPasses(recorded.passes, job.cycle) && |own| > 0 && recorded.cycle == job.cycle
    requires own[..|own| - 1] == Records.OwnPasses(job.passes, job.cycle) && PassSays(job, own[|own| - 1], |own|, review, quotes)
    requires after == recorded.(state := after.state, log := after.log)
    requires after.state == if PassesRubric(review) || |own| >= cfg.maxReviewPasses
                               || (review.None? && Records.EndInSentinels(own, cfg.maxReviewRetries)) then OpeningPr
                            else if review.Some? then Revising else SelfReviewing
    ensures ReviewLeads(cfg, job, after, review, quotes)
  {
  }

  lemma ReviewMoves(recorded: Job, to: JobState, next: Option<TaskKind>)
    requires recorded.state == SelfReviewing && to in {OpeningPr, Revising}
    ensures MoveOrThrow(recorded, to, next)
            == Committed(recorded.(state := to, log := recorded.log + [Entry(Some(SelfReviewing), to, Agent)]), next)
  {
  }

  // ── The approved plan ──────────────────────────────────────────────────────

  predicate Numbered(plans: seq<PlanRevision>) {
    forall i :: 0 <= i < |plans| ==> plans[i].number == i + 1
  }

  function LastPlan(plans: seq<PlanRevision>): PlanRevision
    requires |plans| > 0
  {
    plans[|plans| - 1]
  }

  /** Revisions are 1..n; an awaiting plan is the newest and open; past planning the newest is the approved one. */
  predicate PlansOk(ln: Lane) {
    var plans := ln.job.plans;
    Numbered(plans)
    && (ln.job.state == AwaitingPlanApproval ==> |plans| > 0 && LastPlan(plans).status == Proposed)
    && (ln.kind != Plan ==> |plans| > 0 && LastPlan(plans).status == Approved)
  }

  lemma {:induction false} NewestIsLast(plans: seq<PlanRevision>, p: PlanRevision -> bool)
    requires Numbered(plans) && |plans| > 0
    ensures p(LastPlan(plans)) ==> NewestRevision(plans, p) == Some(LastPlan(plans))
    ensures NewestRevision(plans, p).Some? ==> NewestRevision(plans, p).value.number <= |plans|
  {
    if |plans| > 1 {
      NewestIsLast(plans[..|plans| - 1], p);
    }
  }

  lemma PlansKept(cfg: Config, ln: Lane, a: LaneAction)
    requires StageOk(ln) && PlansOk(ln)
    ensures PlansOk(LaneNext(cfg, ln, a))
  {
    StageKept(cfg, ln, a);
    StepLogs(cfg, ln, a);
    if ln.kind != Plan {
      PlansFrozen(cfg, ln, a);
    } else if a.Finish? {
      if |ln.job.plans| > 0 {
        NewestIsLast(ln.job.plans, AnyRevision);
      }
    } else if a.Ask? {
      AskKeepsPlans(cfg, ln, a.act);
    }
  }

  lemma AskKeepsPlans(cfg: Config, ln: Lane, act: HumanAct)
    requires StageOk(ln) && PlansOk(ln) && ln.kind == Plan
    ensures PlansOk(Lanes.Answered(ln, act, AnswerTo(cfg, ln, act)))
  {
    match act
    case Approve => case PlanFeedback => case PlanLimit => case RecordFeedback =>
    case RequestChanges => case Accept => case Cancel => case Retry =>
  }

  /** Once a plan is approved, no step adds, drops or re-labels a revision. */
  lemma PlansFrozen(cfg: Config, ln: Lane, a: LaneAction)
    requires StageOk(ln) && ln.kind != Plan
    ensures LaneNext(cfg, ln, a).job.plans == ln.job.plans
  {
    match a
    case Claim => case RunAgent => case Restart => case Throw(_) => case Begin(_, _) => case Ask(_) =>
    case Finish(reply, retry) => FinishFrame(cfg, ln, reply, retry);
  }

  /** From the approval on, approvedPlan answers with the highest-numbered revision. */
  lemma BuiltPlanIsNewest(ln: Lane)
    requires PlansOk(ln) && ln.kind != Plan
    ensures ApprovedPlan(ln.job.plans) == Some(LastPlan(ln.job.plans)) && LastPlan(ln.job.plans).number == |ln.job.plans|
  {
    NewestIsLast(ln.job.plans, IsApproved);
  }

  /** The approval itself: what approvedPlan then returns is the text that was on the table. */
  lemma ApprovalPicksTheProposal(cfg: Config, ln: Lane)
    requires StageOk(ln) && PlansOk(ln) && ln.job.state == AwaitingPlanApproval
    ensures var next := LaneNext(cfg, ln, Ask(HumanAct.Approve));
            next.kind == Implement
            && ApprovedPlan(next.job.plans) == Some(LastPlan(ln.job.plans).(status := Approved))
  {
    var next := LaneNext(cfg, ln, Ask(HumanAct.Approve));
    PlansKept(cfg, ln, Ask(HumanAct.Approve));
    BuiltPlanIsNewest(next);
  }
}
