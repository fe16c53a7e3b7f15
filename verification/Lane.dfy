/**
 * One job seen on its own: the job row, its newest task, and the handler in
 * flight for that task. `LaneNext` is how the whole system looks from here;
 * Pipeline.dfy proves that it is. The invariants below are the promises the
 * stages, the queue and the humans keep together.
 */
module Lanes {
  import opened Common
  import opened Jobs
  import opened Stages
  import Queue
  import Reviews
  import Texts

  datatype Lane = Lane(job: Job, kind: TaskKind, status: Queue.TaskStatus, handler: Option<Handler>)

  /** `retry`: whether a failing task has attempts left. */
  datatype LaneAction =
    | Claim
    | Begin(discovered: Option<string>, retry: bool)
    | RunAgent
    | Finish(reply: Reply, retry: bool)
    | Throw(retry: bool)
    | Restart
    | Ask(act: HumanAct)

  datatype HumanAct = Approve | PlanFeedback | PlanLimit | RecordFeedback | RequestChanges | Accept | Cancel | Retry

  function NewLane(dashboard: bool): Lane {
    Lane(NewJob(dashboard), Plan, Queue.Pending, None)
  }

  function Failing(job: Job, kind: TaskKind, retry: bool): Lane {
    if retry then Lane(job, kind, Queue.Pending, None) else Lane(Exhaust(job), kind, Queue.TaskFailed, None)
  }

  function Ending(outcome: Outcome, kind: TaskKind, retry: bool): Lane {
    match outcome
    case Thrown(job) => Failing(job, kind, retry)
    case Committed(job, None) => Lane(job, kind, Queue.TaskDone, None)
    case Committed(job, Some(next)) => Lane(job, next, Queue.Pending, None)
  }

  predicate MayRun(cfg: Config, ln: Lane) {
    ln.handler.Some? && ln.handler.value.Working? && ln.kind in WORK_PHASES && ln.handler.value.attempts < MaxRuns(cfg)
  }

  predicate MayFinish(ln: Lane) {
    ln.handler.Some? && ln.handler.value.Working? && (ln.kind in WORK_PHASES ==> ln.handler.value.attempts >= 1)
  }

  function AnswerTo(cfg: Config, ln: Lane, act: HumanAct): Stages.Answer {
    match act
    case Approve => Stages.Approve(ln.job)
    case PlanFeedback => Stages.PlanFeedback(ln.job)
    case PlanLimit => Stages.PlanLimit(ln.job, cfg)
    case RecordFeedback => Stages.RecordFeedback(ln.job)
    case RequestChanges => Stages.RequestChanges(ln.job)
    case Accept => Stages.Accept(ln.job)
    case Cancel => Stages.Cancel(ln.job)
    case Retry => Stages.Retry(ln.job, ln.kind)
  }

  /** A human action in effect: a new task becomes the newest; cancelling fails the outstanding one. */
  function Answered(ln: Lane, act: HumanAct, answer: Stages.Answer): Lane {
    match answer
    case Refused => ln
    case Accepted(job, Some(next)) => Lane(job, next, Queue.Pending, None)
    case Accepted(job, None) =>
      ln.(job := job,
          status := if act == Cancel && ln.status in {Queue.Pending, Queue.Running} then Queue.TaskFailed else ln.status)
  }

  /** An action that is not possible in this state changes nothing. */
  function LaneNext(cfg: Config, ln: Lane, a: LaneAction): Lane {
    match a
    case Claim =>
      if ln.status == Queue.Pending then ln.(status := Queue.Running, handler := Some(Claimed)) else ln
    case Begin(discovered, retry) =>
      if ln.handler != Some(Claimed) then ln
      else (
        match Stages.Begin(ln.job, ln.kind, discovered)
        case Proceed(job, h) => ln.(job := job, handler := Some(h))
        case Ended(outcome) => Ending(outcome, ln.kind, retry)
      )
    case RunAgent =>
      if !MayRun(cfg, ln) then ln
      else
        var h := ln.handler.value;
        ln.(job := AddRun(ln.job, ln.kind, h), handler := Some(h.(attempts := h.attempts + 1)))
    case Finish(reply, retry) =>
      if !MayFinish(ln) then ln else Ending(Stages.Finish(ln.job, ln.kind, cfg, reply), ln.kind, retry)
    case Throw(retry) =>
      if ln.handler.None? then ln else Failing(ln.job, ln.kind, retry)
    case Restart =>
      ln.(handler := None, status := if ln.status == Queue.Running then Queue.Pending else ln.status)
    case Ask(act) => Answered(ln, act, AnswerTo(cfg, ln, act))
  }

  // ── No job is stranded ─────────────────────────────────────────────────────

  predicate Live(ln: Lane) {
    (ln.status == Queue.Pending && ln.handler.None?) || (ln.status == Queue.Running && ln.handler.Some?)
  }

  predicate Settled(ln: Lane) {
    ln.status in {Queue.TaskDone, Queue.TaskFailed} && ln.handler.None?
  }

  predicate StageOk(ln: Lane) {
    (ln.status == Queue.Pending ==> ln.handler.None?)
    && (ln.status == Queue.Running ==> ln.handler.Some?)
    && (ln.status == Queue.TaskDone ==> ln.handler.None?)
    && match ln.job.state
       case Triaged => ln.kind == Plan && Live(ln)
       case AwaitingPlanApproval => ln.kind == Plan && Settled(ln)
       case AwaitingPrApproval => ln.kind == OpenPr && Settled(ln)
       case Done => ln.kind == OpenPr && Settled(ln)
       case Failed => Settled(ln)
       case Cancelled => true
       case working => working == StateFor(ln.kind) && Live(ln)
  }

  /** Where a second half leads: on along the table, or to a throw if the job was cancelled meanwhile. */
  lemma FinishLeads(job: Job, kind: TaskKind, cfg: Config, reply: Reply)
    requires job.state == StateFor(kind) || (kind == Plan && job.state == Triaged) || job.state == Cancelled
    ensures var end := Stages.Finish(job, kind, cfg, reply);
            if job.state == Cancelled then end.job.state == Cancelled
            else if job.state == Triaged then end == Thrown(end.job) && end.job.state == Triaged
            else end.Committed? && match end.next
                                   case Some(next) => end.job.state == StateFor(next) && next != Plan
                                   case None => (kind == Plan && end.job.state == AwaitingPlanApproval)
                                                || (kind == OpenPr && end.job.state == AwaitingPrApproval)
  {
    match kind
    case Plan => case Implement => case Revise => case OpenPr =>
    case Verify => VerifyMoves(job, cfg, reply.first, reply.second);
    case Review => ReviewMoves(job, cfg, reply.review, reply.quotesSentinel);
  }

  lemma VerifyMoves(job: Job, cfg: Config, first: CheckRun, second: CheckRun)
    requires job.state in {Verifying, Cancelled}
    ensures var end := Stages.FinishVerify(job, cfg, first, second);
            if job.state == Cancelled then end.job.state == Cancelled
            else end.Committed? && end.next.Some? && end.next.value in {Review, Revise, OpenPr} && end.job.state == StateFor(end.next.value)
  {
  }

  lemma ReviewMoves(job: Job, cfg: Config, review: Option<Reviews.RawReview>, quotesSentinel: bool)
    requires job.state in {SelfReviewing, Cancelled}
    ensures var end := Stages.FinishReview(job, cfg, review, quotesSentinel);
            if job.state == Cancelled then end.job.state == Cancelled
            else end.Committed? && end.next.Some? && end.next.value in {Review, Revise, OpenPr} && end.job.state == StateFor(end.next.value)
  {
  }

  /** The rows a second half leaves alone. */
  predicate FinishFramed(kind: TaskKind, job: Job, next: Job) {
    next.cycle == job.cycle && next.command == job.command && next.dashboard == job.dashboard
    && next.feedback == job.feedback && next.runs == job.runs && next.stamp == job.stamp
    && (kind != Plan ==> next.plans == job.plans)
    && (kind != Verify ==> next.verifyRuns == job.verifyRuns)
    && (kind != Review ==> next.passes == job.passes)
    && next.hasPr == (job.hasPr || (kind == OpenPr && !job.dashboard))
  }

  /** Moving a job touches its state and its log, nothing else. */
  predicate OnlyMoved(job: Job, next: Job) {
    next == job.(state := next.state, log := next.log)
  }

  lemma MoveOnlyMoves(kind: TaskKind, job: Job, to: JobState, next: Option<TaskKind>, retry: bool)
    ensures OnlyMoved(job, Ending(MoveOrThrow(job, to, next), kind, retry).job)
  {
    var moved := Transition(job, to, Agent);
    if moved.Some? {
      assert OnlyMoved(job, moved.value);
    } else {
      assert OnlyMoved(job, Exhaust(job));
    }
  }

  lemma MoveFramed(kind: TaskKind, job: Job, written: Job, to: JobState, next: Option<TaskKind>, retry: bool)
    requires FinishFramed(kind, job, written)
    ensures FinishFramed(kind, job, Ending(MoveOrThrow(written, to, next), kind, retry).job)
  {
    MoveOnlyMoves(kind, written, to, next, retry);
  }

  lemma FinishFrame(cfg: Config, ln: Lane, reply: Reply, retry: bool)
    ensures FinishFramed(ln.kind, ln.job, Ending(Stages.Finish(ln.job, ln.kind, cfg, reply), ln.kind, retry).job)
  {
    var job := ln.job;
    match ln.kind
    case Plan =>
      var last := NewestRevision(job.plans, AnyRevision);
      var number := (if last.Some? then last.value.number else 0) + 1;
      MoveFramed(Plan, job, job.(plans := job.plans + [PlanRevision(number, Proposed, Texts.Trim(reply.plan))]), AwaitingPlanApproval, None, retry);
    case Implement => MoveFramed(Implement, job, job, Verifying, Some(Verify), retry);
    case Revise => MoveFramed(Revise, job, job, Verifying, Some(Verify), retry);
    case OpenPr => MoveFramed(OpenPr, job, job.(hasPr := job.hasPr || !job.dashboard), AwaitingPrApproval, None, retry);
    case Verify => VerifyFrame(cfg, job, reply, retry);
    case Review => ReviewFrame(cfg, job, reply, retry);
  }

  lemma VerifyFrame(cfg: Config, job: Job, reply: Reply, retry: bool)
    ensures FinishFramed(Verify, job, Ending(FinishVerify(job, cfg, reply.first, reply.second), Verify, retry).job)
  {
    var recorded := RecordVerify(job, ChecksOk(reply.first, reply.second));
    MoveFramed(Verify, job, job, SelfReviewing, Some(Review), retry);
    MoveFramed(Verify, job, recorded, SelfReviewing, Some(Review), retry);
    MoveFramed(Verify, job, recorded, Revising, Some(Revise), retry);
    MoveFramed(Verify, job, recorded, OpeningPr, Some(OpenPr), retry);
  }

  lemma ReviewFrame(cfg: Config, job: Job, reply: Reply, retry: bool)
    ensures FinishFramed(Review, job, Ending(FinishReview(job, cfg, reply.review, reply.quotesSentinel), Review, retry).job)
  {
    var recorded := RecordReview(job, reply.review, reply.quotesSentinel);
    MoveFramed(Review, job, recorded, Revising, Some(Revise), retry);
    MoveFramed(Review, job, recorded, OpeningPr, Some(OpenPr), retry);
  }

  lemma BeginLeads(job: Job, kind: TaskKind, discovered: Option<string>)
    requires job.state == StateFor(kind) || (kind == Plan && job.state == Triaged) || Terminal(job.state)
    ensures match Stages.Begin(job, kind, discovered)
            case Proceed(next, h) => h.Working? && next.state == StateFor(kind) && !Terminal(job.state)
            case Ended(end) => end.Committed? && if Terminal(job.state) then end == Committed(job, None)
                                                 else kind == OpenPr && end.next == Some(Revise) && end.job.state == Revising
  {
    match kind case Plan => case Implement => case Verify => case Review => case Revise => case OpenPr =>
  }

  lemma HumanKeepsStage(cfg: Config, ln: Lane, act: HumanAct)
    requires StageOk(ln)
    ensures StageOk(Answered(ln, act, AnswerTo(cfg, ln, act)))
  {
    match act
    case Approve => case PlanFeedback => case PlanLimit => case RecordFeedback =>
    case RequestChanges => case Accept => case Cancel => case Retry =>
  }

  /** Every step keeps a live job's state, newest task and handler in agreement. */
  lemma StageKept(cfg: Config, ln: Lane, a: LaneAction)
    requires StageOk(ln)
    ensures StageOk(LaneNext(cfg, ln, a))
  {
    match a
    case Claim =>
    case Begin(discovered, _) =>
      if ln.handler == Some(Claimed) { BeginLeads(ln.job, ln.kind, discovered); }
    case RunAgent =>
    case Finish(reply, _) =>
      if MayFinish(ln) { FinishLeads(ln.job, ln.kind, cfg, reply); }
    case Throw(_) =>
    case Restart =>
    case Ask(act) => HumanKeepsStage(cfg, ln, act);
  }
}
