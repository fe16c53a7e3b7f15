/**
 * The job row with its child rows, and the validated state machine with its
 * audit log (job.model.ts, job.utility.ts, job.service.ts).
 */
module Jobs {
  import opened Common
  import Reviews

  datatype JobState =
    | Triaged | Planning | AwaitingPlanApproval | Implementing | Verifying | SelfReviewing
    | Revising | OpeningPr | AwaitingPrApproval | Done | Failed | Cancelled

  datatype TaskKind = Plan | Implement | Verify | Review | Revise | OpenPr
  datatype Actor = Human | Agent | System

  /** One row of the transition log. */
  datatype Entry = Entry(from: Option<JobState>, to: JobState, actor: Actor)

  datatype RevisionStatus = Proposed | Approved | Superseded
  datatype PlanRevision = PlanRevision(number: nat, status: RevisionStatus, content: string)
  datatype VerifyRun = VerifyRun(cycle: nat, attempt: nat, ok: bool)

  /** `sentinel`: the stored issues mention the title of the unparseable-review fallback. */
  datatype ReviewPass = ReviewPass(cycle: nat, number: nat, result: Reviews.ReviewResult, sentinel: bool)

  /**
   * An agent run of an IMPLEMENT or REVISE pass. `stamp` is its creation time;
   * `prompt` says which feedback rows its prompt quoted, and `snapshot` when
   * those rows were read.
   */
  datatype WorkRun = WorkRun(phase: TaskKind, stamp: nat, snapshot: nat, prompt: set<nat>)

  datatype Job = Job(
    dashboard: bool,           // created from the dashboard rather than a GitHub issue
    hasPr: bool,               // a pull request number has been recorded
    state: JobState,
    cycle: nat,                // revisionCycle
    log: seq<Entry>,
    plans: seq<PlanRevision>,
    command: string,           // verifyCommand, stored trimmed; "" also stands for "never discovered"
    verifyRuns: seq<VerifyRun>,
    passes: seq<ReviewPass>,
    feedback: seq<nat>,        // creation times of the pull request feedback rows
    runs: seq<WorkRun>,
    stamp: nat)                // the next creation time for this job's feedback and run rows

  predicate Terminal(s: JobState) {
    s in {Done, Failed, Cancelled}
  }

  function AllowedTransitions(from: JobState): set<JobState> {
    match from
    case Triaged => {Planning}
    case Planning => {AwaitingPlanApproval}
    case AwaitingPlanApproval => {Planning, Implementing}
    case Implementing => {Verifying}
    case Verifying => {Revising, SelfReviewing, OpeningPr}
    case SelfReviewing => {Revising, OpeningPr}
    case Revising => {Verifying}
    case OpeningPr => {AwaitingPrApproval, Revising}
    case AwaitingPrApproval => {Revising, Done}
    case _ => {}
  }

  predicate CanTransition(from: JobState, to: JobState) {
    !Terminal(from) && (to in {Failed, Cancelled} || to in AllowedTransitions(from))
  }

  /** The states a job can come from, other than by failing or being cancelled. */
  function CameFrom(to: JobState): set<JobState> {
    match to
    case Planning => {Triaged, AwaitingPlanApproval}
    case AwaitingPlanApproval => {Planning}
    case Implementing => {AwaitingPlanApproval}
    case Verifying => {Implementing, Revising}
    case SelfReviewing => {Verifying}
    case Revising => {Verifying, SelfReviewing, OpeningPr, AwaitingPrApproval}
    case OpeningPr => {Verifying, SelfReviewing}
    case AwaitingPrApproval => {OpeningPr}
    case Done => {AwaitingPrApproval}
    case _ => {}
  }

  /** The table read backwards: nothing is built but from an approved plan, and nothing done but from a presented result. */
  lemma MovesComeFrom(from: JobState, to: JobState)
    ensures CanTransition(from, to) <==> from !in {Done, Failed, Cancelled} && (to in {Failed, Cancelled} || from in CameFrom(to))
  {
    match from
    case Triaged => case Planning => case AwaitingPlanApproval => case Implementing => case Verifying => case SelfReviewing =>
    case Revising => case OpeningPr => case AwaitingPrApproval => case Done => case Failed => case Cancelled =>
  }

  /** A validated move: None when it is illegal, no row when nothing changes. */
  function Transition(job: Job, to: JobState, actor: Actor, force: bool := false): Option<Job> {
    if job.state == to then Some(job)
    else if !force && !CanTransition(job.state, to) then None
    else Some(job.(state := to, log := job.log + [Entry(Some(job.state), to, actor)]))
  }

  function NewJob(dashboard: bool): Job {
    Job(dashboard, false, Triaged, 0, [Entry(None, Triaged, if dashboard then Human else System)],
        [], "", [], [], [], [], 0)
  }

  // ── Reading the audit log ──────────────────────────────────────────────────

  function Count<T>(s: seq<T>, p: T -> bool): nat {
    if |s| == 0 then 0 else Count(s[..|s| - 1], p) + (if p(s[|s| - 1]) then 1 else 0)
  }

  lemma CountSnoc<T>(s: seq<T>, x: T, p: T -> bool)
    ensures Count(s + [x], p) == Count(s, p) + (if p(x) then 1 else 0)
  {
    assert (s + [x])[..|s|] == s;
  }

  /** How many entries since the last one that opened a revision round satisfy p. */
  function CountInRound(log: seq<Entry>, p: Entry -> bool): nat {
    if |log| == 0 || OpensRound(log[|log| - 1]) then 0
    else CountInRound(log[..|log| - 1], p) + (if p(log[|log| - 1]) then 1 else 0)
  }

  lemma CountInRoundSnoc(log: seq<Entry>, e: Entry, p: Entry -> bool)
    ensures CountInRound(log + [e], p) == if OpensRound(e) then 0 else CountInRound(log, p) + (if p(e) then 1 else 0)
  {
    assert (log + [e])[..|log|] == log;
  }

  predicate IsPlanApproval(e: Entry) {
    e == Entry(Some(AwaitingPlanApproval), Implementing, Human)
  }

  predicate IsChangeRequest(e: Entry) {
    e == Entry(Some(AwaitingPrApproval), Revising, Human)
  }

  predicate IsAcceptance(e: Entry) {
    e == Entry(Some(AwaitingPrApproval), Done, Human)
  }

  predicate IsRetry(e: Entry) {
    e.from == Some(Failed) && e.actor == Human && !Terminal(e.to)
  }

  /** A work episode a human asked for. */
  predicate OpensRound(e: Entry) {
    IsPlanApproval(e) || IsChangeRequest(e)
  }

  /** An IMPLEMENT or REVISE pass that ran to completion. */
  predicate IsWorkPass(e: Entry) {
    e.from in {Some(Implementing), Some(Revising)} && e.to == Verifying
  }

  /** OPEN_PR found unaddressed feedback and sent the job back. */
  predicate IsLoopBack(e: Entry) {
    e.from == Some(OpeningPr) && e.to == Revising
  }

  /** Every move a log may contain after its first row: a legal one, or a retry out of FAILED. */
  predicate LegalEntry(e: Entry) {
    e.from.Some? && (CanTransition(e.from.value, e.to) || IsRetry(e))
  }

  /** The log is a chain of legal moves from null→TRIAGED to the given state. */
  predicate Chain(log: seq<Entry>, state: JobState) {
    |log| > 0
    && log[0].from == None && log[0].to == Triaged
    && (forall i :: 0 < i < |log| ==> log[i].from == Some(log[i - 1].to) && LegalEntry(log[i]))
    && log[|log| - 1].to == state
  }
}
