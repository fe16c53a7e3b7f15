/** What the audit log of one job always says, and the human gates it records. */
module Gates {
  import opened Common
  import opened Jobs
  import opened Stages
  import opened Lanes
  import Reviews
  import Texts

  /** A step leaves the log alone, or appends one legal row that accounts for the change of state, round and kind. */
  predicate LogStep(ln: Lane, next: Lane) {
    var log, log' := ln.job.log, next.job.log;
    if log' == log then
      next.job.state == ln.job.state && next.job.cycle == ln.job.cycle && next.kind == ln.kind && next.job.dashboard == ln.job.dashboard
    else
      |log'| == |log| + 1
      && var e := log'[|log|];
         log' == log + [e] && next.job.dashboard == ln.job.dashboard
         && e.from == Some(ln.job.state) && e.to == next.job.state && LegalEntry(e)
         && next.job.cycle == ln.job.cycle + (if OpensRound(e) then 1 else 0)
         && (IsPlanApproval(e) ==> ln.kind == Plan && next.kind != Plan)
         && (!IsPlanApproval(e) ==> (ln.kind == Plan <==> next.kind == Plan))
         && (IsChangeRequest(e) ==> ln.kind == OpenPr)
         && (e.to == Done ==> IsAcceptance(e))
         && IsSigned(e)
  }

  /**
   * Who signs a move: the system a failure, the human whatever leaves a state that waits
   * for one or a failed job, and every cancellation; the agent the rest.
   */
  predicate IsSigned(e: Entry) {
    e.actor == if e.to == Failed then Actor.System
               else if e.to == Cancelled || e.from in {Some(AwaitingPlanApproval), Some(AwaitingPrApproval), Some(Failed)} then Human
               else Agent
  }

  predicate SameHistory(a: Job, b: Job) {
    a.log == b.log && a.state == b.state && a.cycle == b.cycle && a.dashboard == b.dashboard
  }

  lemma FailingLogs(ln: Lane, job: Job, retry: bool)
    requires StageOk(ln) && SameHistory(ln.job, job) && ln.handler.Some?
    ensures LogStep(ln, Failing(job, ln.kind, retry))
  {
  }

  lemma MoveLogs(ln: Lane, job: Job, to: JobState, next: Option<TaskKind>, retry: bool)
    requires StageOk(ln) && SameHistory(ln.job, job) && ln.handler.Some? && !Terminal(to) && to != ln.job.state
    requires next.Some? ==> ln.kind != Plan && next.value != Plan
    ensures LogStep(ln, Ending(MoveOrThrow(job, to, next), ln.kind, retry))
  {
    if MoveOrThrow(job, to, next).Thrown? {
      FailingLogs(ln, job, retry);
    }
  }

  lemma VerifyLogs(cfg: Config, ln: Lane, first: CheckRun, second: CheckRun, retry: bool)
    requires StageOk(ln) && ln.handler.Some? && ln.kind == Verify
    ensures LogStep(ln, Ending(FinishVerify(ln.job, cfg, first, second), ln.kind, retry))
  {
    var recorded := RecordVerify(ln.job, ChecksOk(first, second));
    if ln.job.command == "" {
      MoveLogs(ln, ln.job, SelfReviewing, Some(Review), retry);
    } else if ChecksOk(first, second) {
      MoveLogs(ln, recorded, SelfReviewing, Some(Review), retry);
    } else if FailuresIn(recorded.verifyRuns, ln.job.cycle) < cfg.maxVerifyAttempts {
      MoveLogs(ln, recorded, Revising, Some(Revise), retry);
    } else {
      MoveLogs(ln, recorded, OpeningPr, Some(OpenPr), retry);
    }
  }

  lemma ReviewLogs(cfg: Config, ln: Lane, review: Option<Reviews.RawReview>, quotes: bool, retry: bool)
    requires StageOk(ln) && ln.handler.Some? && ln.kind == Review
    ensures LogStep(ln, Ending(FinishReview(ln.job, cfg, review, quotes), ln.kind, retry))
  {
    var recorded := RecordReview(ln.job, review, quotes);
    var end := FinishReview(ln.job, cfg, review, quotes);
    if end == Committed(recorded, Some(Review)) {
    } else if end == MoveOrThrow(recorded, Revising, Some(Revise)) {
      MoveLogs(ln, recorded, Revising, Some(Revise), retry);
    } else {
      MoveLogs(ln, recorded, OpeningPr, Some(OpenPr), retry);
    }
  }

  lemma FinishLogs(cfg: Config, ln: Lane, reply: Reply, retry: bool)
    requires StageOk(ln) && ln.handler.Some?
    ensures LogStep(ln, Ending(Stages.Finish(ln.job, ln.kind, cfg, reply), ln.kind, retry))
  {
    var job := ln.job;
    match ln.kind
    case Plan =>
      var last := NewestRevision(job.plans, AnyRevision);
      var number := (if last.Some? then last.value.number else 0) + 1;
      MoveLogs(ln, job.(plans := job.plans + [PlanRevision(number, Proposed, Texts.Trim(reply.plan))]), AwaitingPlanApproval, None, retry);
    case Implement => MoveLogs(ln, job, Verifying, Some(Verify), retry);
    case Revise => MoveLogs(ln, job, Verifying, Some(Verify), retry);
    case Verify => VerifyLogs(cfg, ln, reply.first, reply.second, retry);
    case Review => ReviewLogs(cfg, ln, reply.review, reply.quotesSentinel, retry);
    case OpenPr => MoveLogs(ln, job.(hasPr := job.hasPr || !job.dashboard), AwaitingPrApproval, None, retry);
  }

  lemma BeginLogs(cfg: Config, ln: Lane, discovered: Option<string>, retry: bool)
    requires StageOk(ln)
    ensures LogStep(ln, LaneNext(cfg, ln, LaneAction.Begin(discovered, retry)))
  {
    if ln.handler == Some(Claimed) {
      match ln.kind
      case Plan => BeginMoveLogs(ln, discovered, retry);
      case Implement => BeginMoveLogs(ln, discovered, retry);
      case Verify => BeginMoveLogs(ln, discovered, retry);
      case Review => BeginMoveLogs(ln, discovered, retry);
      case Revise =>
      case OpenPr =>
    }
  }

  /** A first half that moves the job to where its stage begins. */
  lemma BeginMoveLogs(ln: Lane, discovered: Option<string>, retry: bool)
    requires StageOk(ln) && ln.handler == Some(Claimed) && ln.kind in {Plan, Implement, Verify, Review}
    ensures match Stages.Begin(ln.job, ln.kind, discovered)
            case Proceed(job, h) => LogStep(ln, ln.(job := job, handler := Some(h)))
            case Ended(outcome) => LogStep(ln, Ending(outcome, ln.kind, retry))
  {
  }

  lemma HumanLogs(cfg: Config, ln: Lane, act: HumanAct)
    requires StageOk(ln)
    ensures LogStep(ln, Answered(ln, act, AnswerTo(cfg, ln, act)))
  {
    match act
    case Approve => case PlanFeedback => case PlanLimit => case RecordFeedback =>
    case RequestChanges => case Accept => case Cancel => case Retry =>
  }

  lemma StepLogs(cfg: Config, ln: Lane, a: LaneAction)
    requires StageOk(ln)
    ensures LogStep(ln, LaneNext(cfg, ln, a))
  {
    match a
    case Claim =>
    case Begin(discovered, retry) => BeginLogs(cfg, ln, discovered, retry);
    case RunAgent =>
    case Finish(reply, retry) => if MayFinish(ln) { FinishLogs(cfg, ln, reply, retry); }
    case Throw(_) =>
    case Restart =>
    case Ask(act) => HumanLogs(cfg, ln, act);
  }

  /**
   * The log is a legal chain ending in the current state; a job past planning was
   * approved by a human exactly once, a job still planning never; the round number
   * counts the human episodes; a finished job was accepted exactly once, any other never.
   */
  predicate GatesHold(ln: Lane) {
    var log := ln.job.log;
    Chain(log, ln.job.state)
    && Count(log, IsPlanApproval) == (if ln.kind == Plan then 0 else 1)
    && (ln.kind == Plan ==> Count(log, IsChangeRequest) == 0)
    && ln.job.cycle == Count(log, IsPlanApproval) + Count(log, IsChangeRequest)
    && Count(log, IsAcceptance) == (if ln.job.state == Done then 1 else 0)
    && log[0].actor == (if ln.job.dashboard then Human else Actor.System)
    && (forall i :: 0 < i < |log| ==> IsSigned(log[i]))
  }

  lemma GatesKept(ln: Lane, next: Lane)
    requires GatesHold(ln) && LogStep(ln, next)
    ensures GatesHold(next)
  {
    if next.job.log != ln.job.log {
      var e := next.job.log[|ln.job.log|];
      CountSnoc(ln.job.log, e, IsPlanApproval);
      CountSnoc(ln.job.log, e, IsChangeRequest);
      CountSnoc(ln.job.log, e, IsAcceptance);
      ChainGrows(ln.job.log, e, ln.job.state);
    }
  }

  lemma ChainGrows(log: seq<Entry>, e: Entry, state: JobState)
    requires Chain(log, state) && e.from == Some(state) && LegalEntry(e)
    ensures Chain(log + [e], e.to)
  {
  }

  /** DONE and CANCELLED are left by nothing, FAILED only by a human's retry. */
  lemma TerminalStatesAbsorb(ln: Lane, next: Lane)
    requires GatesHold(ln) && LogStep(ln, next) && Terminal(ln.job.state) && next.job.state != ln.job.state
    ensures ln.job.state == Failed
    ensures next.job.log == ln.job.log + [Entry(Some(Failed), next.job.state, Actor.Human)]
    ensures !Terminal(next.job.state)
  {
  }
}
