/**
 * What each stage handler and each human action does to one job
 * (orchestrator.service.ts). A handler is cut in two where it waits for an
 * agent or a command: `Begin…` is everything up to that wait, `Finish…`
 * everything after it. `Thrown` carries the writes made before an exception.
 */
module Stages {
  import opened Common
  import opened Jobs
  import Reviews
  import Texts

  datatype Config = Config(
    maxVerifyAttempts: int, maxReviewPasses: int, maxReviewRetries: int, maxCompletionRetries: int,
    maxPlanRevisions: int, maxAttempts: nat, backoffBase: nat, lockTtl: nat, concurrency: int)

  /**
   * A handler in flight. `Claimed`: the worker owns the task, processTask has not
   * looked at the job yet. `Working`: the first half has run; `snapshot` is when
   * it read the feedback, `read` what it will quote, `known` how many rows existed.
   */
  datatype Handler = Claimed | Working(snapshot: nat, read: set<nat>, known: nat, attempts: nat)

  datatype Outcome = Committed(job: Job, next: Option<TaskKind>) | Thrown(job: Job)
  datatype Begun = Proceed(job: Job, handler: Handler) | Ended(outcome: Outcome)

  /** One execution of the verify command; `Unavailable` is a null result. */
  datatype CheckRun = Green | Red | Unavailable

  /** What the outside world answers to the stage that asks. */
  datatype Reply = Reply(
    plan: string,                       // the drafted plan
    first: CheckRun, second: CheckRun,  // the verify command and its one retry
    review: Option<Reviews.RawReview>,   // None: no parseable verdict
    quotesSentinel: bool)               // a parsed review whose text mentions the sentinel title

  /** The state a forced retry of each kind of task resumes in. */
  function StateFor(kind: TaskKind): JobState {
    match kind
    case Plan => Planning
    case Implement => Implementing
    case Verify => Verifying
    case Review => SelfReviewing
    case Revise => Revising
    case OpenPr => OpeningPr
  }

  // ── Queries over a job's child rows ────────────────────────────────────────

  function VerifiesIn(runs: seq<VerifyRun>, cycle: nat): nat {
    if |runs| == 0 then 0
    else VerifiesIn(runs[..|runs| - 1], cycle) + (if runs[|runs| - 1].cycle == cycle then 1 else 0)
  }

  function FailuresIn(runs: seq<VerifyRun>, cycle: nat): nat {
    if |runs| == 0 then 0
    else FailuresIn(runs[..|runs| - 1], cycle)
         + (if runs[|runs| - 1].cycle == cycle && !runs[|runs| - 1].ok then 1 else 0)
  }

  /** Whether the newest verify run of the cycle passed; None when there is none. */
  function LastVerify(runs: seq<VerifyRun>, cycle: nat): Option<bool> {
    if |runs| == 0 then None
    else if runs[|runs| - 1].cycle == cycle then Some(runs[|runs| - 1].ok)
    else LastVerify(runs[..|runs| - 1], cycle)
  }

  function PassesIn(passes: seq<ReviewPass>, cycle: nat): nat {
    if |passes| == 0 then 0
    else PassesIn(passes[..|passes| - 1], cycle) + (if passes[|passes| - 1].cycle == cycle then 1 else 0)
  }

  /** The unparseable passes of the cycle in an unbroken row up to the newest. */
  function TrailingUnparseable(passes: seq<ReviewPass>, cycle: nat): nat {
    if |passes| == 0 then 0
    else
      var last := passes[|passes| - 1];
      if last.cycle != cycle then TrailingUnparseable(passes[..|passes| - 1], cycle)
      else if last.sentinel then 1 + TrailingUnparseable(passes[..|passes| - 1], cycle)
      else 0
  }

  /** Creation time of the newest run of one of these phases, -1 when there is none. */
  function LastRunStamp(runs: seq<WorkRun>, phases: set<TaskKind>): int {
    if |runs| == 0 then -1
    else if runs[|runs| - 1].phase in phases then runs[|runs| - 1].stamp
    else LastRunStamp(runs[..|runs| - 1], phases)
  }

  const WORK_PHASES: set<TaskKind> := {Implement, Revise}

  function FeedbackAfter(job: Job, anchor: int): set<nat> {
    set i: nat | i < |job.feedback| && job.feedback[i] > anchor
  }

  function Unaddressed(job: Job): set<nat> {
    FeedbackAfter(job, LastRunStamp(job.runs, WORK_PHASES))
  }

  predicate IsApproved(plan: PlanRevision) {
    plan.status == Approved
  }

  predicate AnyRevision(plan: PlanRevision) {
    true
  }

  /** approvedPlan: the newest approved revision, else the newest of all. */
  function ApprovedPlan(plans: seq<PlanRevision>): Option<PlanRevision> {
    var approved := NewestRevision(plans, IsApproved);
    if approved.Some? then approved else NewestRevision(plans, AnyRevision)
  }

  /** findFirst … orderBy revision desc. */
  function NewestRevision(plans: seq<PlanRevision>, p: PlanRevision -> bool): Option<PlanRevision> {
    if |plans| == 0 then None
    else
      var rest := NewestRevision(plans[..|plans| - 1], p);
      var last := plans[|plans| - 1];
      if p(last) && (rest.None? || rest.value.number <= last.number) then Some(last) else rest
  }

  function Restatus(plans: seq<PlanRevision>, to: RevisionStatus): seq<PlanRevision> {
    seq(|plans|, i requires 0 <= i < |plans| =>
      if plans[i].status == Proposed then plans[i].(status := to) else plans[i])
  }

  // ── First halves ───────────────────────────────────────────────────────────

  function MoveOrThrow(job: Job, to: JobState, next: Option<TaskKind>): Outcome {
    var moved := Transition(job, to, Agent);
    if moved.Some? then Committed(moved.value, next) else Thrown(job)
  }

  function ProceedOrThrow(moved: Option<Job>, job: Job, read: set<nat>): Begun {
    if moved.Some? then Proceed(moved.value, Working(job.stamp, read, |job.feedback|, 0)) else Ended(Thrown(job))
  }

  /** The feedback rows an IMPLEMENT or REVISE pass quotes. */
  function FeedbackFor(job: Job, kind: TaskKind): set<nat> {
    match kind
    case Implement =>
      if job.hasPr || job.dashboard then FeedbackAfter(job, LastRunStamp(job.runs, {Implement})) else {}
    case Revise => Unaddressed(job)
    case _ => {}
  }

  /** verifyCommandFor: a command is kept; else what discovery reports is stored trimmed, a failed one (None) not at all. */
  function Discover(job: Job, discovered: Option<string>): Job {
    if job.command != "" || discovered.None? then job else job.(command := Texts.Trim(discovered.value))
  }

  /** processTask up to the stage's first wait. */
  function Begin(job: Job, kind: TaskKind, discovered: Option<string>): Begun {
    if Terminal(job.state) then Ended(Committed(job, None))
    else
      match kind
      case Plan => ProceedOrThrow(Transition(job, Planning, Agent), job, {})
      case Implement => ProceedOrThrow(Transition(job, Implementing, Agent), job, FeedbackFor(job, kind))
      case Verify =>
        var moved := Transition(job, Verifying, Agent);
        ProceedOrThrow(if moved.Some? then Some(Discover(moved.value, discovered)) else None, job, {})
      case Review => ProceedOrThrow(Transition(job, SelfReviewing, Agent), job, {})
      case Revise => ProceedOrThrow(Some(job), job, FeedbackFor(job, kind))
      case OpenPr =>
        if Unaddressed(job) != {} then Ended(MoveOrThrow(job, Revising, Some(Revise)))
        else ProceedOrThrow(Some(job), job, {})
  }

  /** The row one agent run of a work pass leaves. A continuation of IMPLEMENT quotes the critique instead. */
  function RunRow(job: Job, kind: TaskKind, h: Handler): WorkRun
    requires h.Working?
  {
    WorkRun(kind, job.stamp, h.snapshot, if kind == Implement && h.attempts > 0 then {} else h.read)
  }

  function AddRun(job: Job, kind: TaskKind, h: Handler): Job
    requires h.Working?
  {
    job.(runs := job.runs + [RunRow(job, kind, h)], stamp := job.stamp + 1)
  }

  /** n runs of the same pass, one after the other. */
  function AddRuns(job: Job, kind: TaskKind, h: Handler, n: nat): Job
    requires h.Working? && h.attempts == 0
  {
    if n == 0 then job else AddRun(AddRuns(job, kind, h, n - 1), kind, h.(attempts := n - 1))
  }

  /** How many agent runs a pass may take. */
  function MaxRuns(cfg: Config): nat {
    Max(cfg.maxCompletionRetries, 0) + 1
  }

  // ── Second halves ──────────────────────────────────────────────────────────

  function FinishPlan(job: Job, content: string): Outcome {
    var last := NewestRevision(job.plans, AnyRevision);
    var number := (if last.Some? then last.value.number else 0) + 1;
    MoveOrThrow(job.(plans := job.plans + [PlanRevision(number, Proposed, Texts.Trim(content))]), AwaitingPlanApproval, None)
  }

  /** A failed check is retried once; a null result counts as passed. */
  predicate ChecksOk(first: CheckRun, second: CheckRun) {
    first != Red || second != Red
  }

  function RecordVerify(job: Job, ok: bool): Job {
    job.(verifyRuns := job.verifyRuns + [VerifyRun(job.cycle, VerifiesIn(job.verifyRuns, job.cycle) + 1, ok)])
  }

  function FinishVerify(job: Job, cfg: Config, first: CheckRun, second: CheckRun): Outcome {
    if job.command == "" then MoveOrThrow(job, SelfReviewing, Some(Review))
    else
      var ok := ChecksOk(first, second);
      var recorded := RecordVerify(job, ok);
      if ok then MoveOrThrow(recorded, SelfReviewing, Some(Review))
      else if FailuresIn(recorded.verifyRuns, job.cycle) < cfg.maxVerifyAttempts
      then MoveOrThrow(recorded, Revising, Some(Revise))
      else MoveOrThrow(recorded, OpeningPr, Some(OpenPr))
  }

  function ReviewResultFor(job: Job, review: Option<Reviews.RawReview>): Reviews.ReviewResult {
    var verifyOk := LastVerify(job.verifyRuns, job.cycle);
    if review.Some? then Reviews.FromRaw(review.value).(verifyOk := verifyOk) else Reviews.Unparseable(verifyOk)
  }

  function RecordReview(job: Job, review: Option<Reviews.RawReview>, quotesSentinel: bool): Job {
    var pass := PassesIn(job.passes, job.cycle) + 1;
    job.(passes := job.passes + [ReviewPass(job.cycle, pass, ReviewResultFor(job, review), review.None? || quotesSentinel)])
  }

  function FinishReview(job: Job, cfg: Config, review: Option<Reviews.RawReview>, quotesSentinel: bool): Outcome {
    var recorded := RecordReview(job, review, quotesSentinel);
    var pass := PassesIn(job.passes, job.cycle) + 1;
    var unparseable := TrailingUnparseable(job.passes, job.cycle) + if review.None? then 1 else 0;
    if Reviews.MeetsThreshold(ReviewResultFor(job, review)) then MoveOrThrow(recorded, OpeningPr, Some(OpenPr))
    else if pass < cfg.maxReviewPasses && review.Some? then MoveOrThrow(recorded, Revising, Some(Revise))
    else if pass < cfg.maxReviewPasses && unparseable < cfg.maxReviewRetries then Committed(recorded, Some(Review))
    else MoveOrThrow(recorded, OpeningPr, Some(OpenPr))
  }

  function FinishOpenPr(job: Job): Outcome {
    MoveOrThrow(job.(hasPr := job.hasPr || !job.dashboard), AwaitingPrApproval, None)
  }

  function Finish(job: Job, kind: TaskKind, cfg: Config, reply: Reply): Outcome {
    match kind
    case Plan => FinishPlan(job, reply.plan)
    case Implement => MoveOrThrow(job, Verifying, Some(Verify))
    case Revise => MoveOrThrow(job, Verifying, Some(Verify))
    case Verify => FinishVerify(job, cfg, reply.first, reply.second)
    case Review => FinishReview(job, cfg, reply.review, reply.quotesSentinel)
    case OpenPr => FinishOpenPr(job)
  }

  // ── Exhaustion and human actions ───────────────────────────────────────────

  /** jobs.fail as onTaskExhausted calls it: an illegal move is swallowed by the caller. */
  function Exhaust(job: Job): Job {
    var failed := Transition(job, Failed, System);
    if failed.Some? then failed.value else job
  }

  /** A human action is refused, or changes the job and perhaps enqueues a task. */
  datatype Answer = Refused | Accepted(job: Job, next: Option<TaskKind>)

  function Moved(job: Job, to: JobState, next: Option<TaskKind>): Answer {
    var moved := Transition(job, to, Human);
    if moved.Some? then Accepted(moved.value, next) else Refused
  }

  function Approve(job: Job): Answer {
    if job.state != AwaitingPlanApproval then Refused
    else Moved(job.(plans := Restatus(job.plans, Approved), cycle := job.cycle + 1), Implementing, Some(Implement))
  }

  function PlanFeedback(job: Job): Answer {
    if job.state != AwaitingPlanApproval then Refused
    else Moved(job.(plans := Restatus(job.plans, Superseded)), Planning, Some(Plan))
  }

  /** A plan comment once the revision limit is reached. */
  function PlanLimit(job: Job, cfg: Config): Answer {
    if job.state != AwaitingPlanApproval || |job.plans| < cfg.maxPlanRevisions then Refused
    else Accepted(Exhaust(job), None)
  }

  function AddFeedback(job: Job): Job {
    job.(feedback := job.feedback + [job.stamp], stamp := job.stamp + 1)
  }

  /** A pull request comment that is recorded without opening a round. */
  function RecordFeedback(job: Job): Answer {
    if !job.hasPr then Refused else Accepted(AddFeedback(job), None)
  }

  function RequestChanges(job: Job): Answer {
    if job.state != AwaitingPrApproval then Refused
    else Moved(AddFeedback(job).(cycle := job.cycle + 1), Revising, Some(Revise))
  }

  function Accept(job: Job): Answer {
    if job.state != AwaitingPrApproval then Refused else Moved(job, Done, None)
  }

  function Cancel(job: Job): Answer {
    if Terminal(job.state) then Refused else Moved(job, Cancelled, None)
  }

  function Retry(job: Job, lastKind: TaskKind): Answer {
    if job.state != Failed then Refused
    else Accepted(Transition(job, StateFor(lastKind), Human, true).value, Some(lastKind))
  }
}
