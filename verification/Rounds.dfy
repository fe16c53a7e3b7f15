/**
 * Every revision round ends: how many verifies may fail, how many reviews and
 * work passes may run in one round, and a measure that every stage decreases.
 */
module Rounds {
  import opened Common
  import opened Jobs
  import opened Stages
  import opened Lanes
  import opened Gates
  import Reviews

  function FailedVerifies(job: Job): nat {
    FailuresIn(job.verifyRuns, job.cycle)
  }

  function Reviewed(job: Job): nat {
    PassesIn(job.passes, job.cycle)
  }

  function LoopBacks(job: Job): nat {
    CountInRound(job.log, IsLoopBack)
  }

  function WorkPasses(job: Job): nat {
    CountInRound(job.log, IsWorkPass)
  }

  /** The verify budget; even a budget of zero or less is spent only after the first failure. */
  function VerifyBudget(cfg: Config): nat {
    Max(cfg.maxVerifyAttempts, 1)
  }

  function ReviewBudget(cfg: Config): nat {
    Max(cfg.maxReviewPasses, 1)
  }

  /** The fix budget of the round may be used up: it is on its way out, or dead. */
  predicate Spent(ln: Lane) {
    ln.kind == OpenPr || (ln.job.state == Cancelled && (ln.handler.Some? ==> ln.handler.value.Claimed?))
  }

  predicate RowsInPast(job: Job) {
    (forall i :: 0 <= i < |job.verifyRuns| ==> job.verifyRuns[i].cycle <= job.cycle)
    && (forall i :: 0 <= i < |job.passes| ==> job.passes[i].cycle <= job.cycle)
  }

  function FixPasses(cfg: Config, job: Job): nat {
    Min(FailedVerifies(job), VerifyBudget(cfg) - 1) + Min(Reviewed(job), ReviewBudget(cfg) - 1) + LoopBacks(job)
  }

  predicate IsBuilding(kind: TaskKind) {
    kind in {Plan, Implement, Revise}
  }

  predicate RoundBounded(cfg: Config, ln: Lane) {
    var reserve := if Spent(ln) then 0 else 1;
    RowsInPast(ln.job)
    && FailedVerifies(ln.job) + reserve <= VerifyBudget(cfg) + LoopBacks(ln.job)
    && Reviewed(ln.job) + reserve <= ReviewBudget(cfg) + LoopBacks(ln.job)
    && WorkPasses(ln.job) <= FixPasses(cfg, ln.job) + (if IsBuilding(ln.kind) then 0 else 1)
  }

  // ── How each kind of write moves the numbers ───────────────────────────────

  lemma NoRowsYet(job: Job, cycle: nat)
    requires RowsInPast(job) && cycle > job.cycle
    ensures FailuresIn(job.verifyRuns, cycle) == 0 && PassesIn(job.passes, cycle) == 0
    decreases |job.verifyRuns|, |job.passes|
  {
    if |job.verifyRuns| > 0 {
      NoRowsYet(job.(verifyRuns := job.verifyRuns[..|job.verifyRuns| - 1]), cycle);
    } else if |job.passes| > 0 {
      NoRowsYet(job.(passes := job.passes[..|job.passes| - 1]), cycle);
    }
  }

  lemma LogNumbers(ln: Lane, next: Lane)
    requires LogStep(ln, next) && next.job.log != ln.job.log
    ensures var e := next.job.log[|ln.job.log|];
            && LoopBacks(next.job) == (if OpensRound(e) then 0 else LoopBacks(ln.job) + (if IsLoopBack(e) then 1 else 0))
            && WorkPasses(next.job) == (if OpensRound(e) then 0 else WorkPasses(ln.job) + (if IsWorkPass(e) then 1 else 0))
  {
    var e := next.job.log[|ln.job.log|];
    CountInRoundSnoc(ln.job.log, e, IsLoopBack);
    CountInRoundSnoc(ln.job.log, e, IsWorkPass);
  }

  /**
   * A verify row counts for its own cycle and no other, raises the failures only if it
   * failed, and is its cycle's newest.
   */
  lemma RecordedVerifyCounts(job: Job, ok: bool, cycle: nat)
    ensures var before, after := job.verifyRuns, RecordVerify(job, ok).verifyRuns;
            VerifiesIn(after, cycle) == VerifiesIn(before, cycle) + (if cycle == job.cycle then 1 else 0)
            && FailuresIn(after, cycle) == FailuresIn(before, cycle) + (if cycle == job.cycle && !ok then 1 else 0)
            && LastVerify(after, cycle) == (if cycle == job.cycle then Some(ok) else LastVerify(before, cycle))
            && after[|before|].attempt == VerifiesIn(after, job.cycle)
  {
    assert RecordVerify(job, ok).verifyRuns[..|job.verifyRuns|] == job.verifyRuns;
  }

  lemma VerifyNumbers(job: Job, ok: bool)
    ensures FailedVerifies(RecordVerify(job, ok)) == FailedVerifies(job) + if ok then 0 else 1
  {
    RecordedVerifyCounts(job, ok, job.cycle);
  }

  lemma ReviewNumbers(job: Job, review: Option<Reviews.RawReview>, quotes: bool)
    ensures Reviewed(RecordReview(job, review, quotes)) == Reviewed(job) + 1
  {
    assert RecordReview(job, review, quotes).passes[..|job.passes|] == job.passes;
  }

  predicate SameRows(a: Job, b: Job) {
    a.verifyRuns == b.verifyRuns && a.passes == b.passes
  }

  /** No verify or review row is added, and the newest task fits the move. */
  predicate QuietMove(ln: Lane, next: Lane)
    requires LogStep(ln, next)
  {
    SameRows(ln.job, next.job)
    && if next.job.log == ln.job.log then Spent(ln) ==> Spent(next)
       else
         var e := next.job.log[|ln.job.log|];
         (OpensRound(e) || (Spent(ln) ==> Spent(next) || IsLoopBack(e)))
         && if OpensRound(e) then IsBuilding(next.kind)
            else if IsWorkPass(e) then IsBuilding(ln.kind) && next.kind == Verify
            else if IsLoopBack(e) then next.kind == Revise
            else IsBuilding(next.kind) == IsBuilding(ln.kind)
  }

  /** A step that adds no verify or review row keeps the bounds. */
  lemma QuietStep(cfg: Config, ln: Lane, next: Lane)
    requires StageOk(ln) && RoundBounded(cfg, ln) && LogStep(ln, next) && QuietMove(ln, next)
    ensures RoundBounded(cfg, next)
  {
    if next.job.log != ln.job.log {
      LogNumbers(ln, next);
      if next.job.cycle != ln.job.cycle {
        NoRowsYet(ln.job, next.job.cycle);
      }
    }
  }

  // ── The bounds hold at every step ──────────────────────────────────────────

  /** Where the VERIFY stage leads, in numbers. */
  lemma VerifyLeads(cfg: Config, ln: Lane, reply: Reply, retry: bool)
    requires StageOk(ln) && MayFinish(ln) && ln.kind == Verify
    ensures var next := LaneNext(cfg, ln, LaneAction.Finish(reply, retry));
            var ok := ChecksOk(reply.first, reply.second);
            var job := if ln.job.command == "" then ln.job else RecordVerify(ln.job, ok);
            && next.handler.None? && SameRows(next.job, job) && next.job.cycle == ln.job.cycle
            && (if ln.job.state == Cancelled then next.job.state == Cancelled && next.kind == Verify
                else if ln.job.command == "" || ok then next.kind == Review
                else if FailedVerifies(job) < cfg.maxVerifyAttempts then next.kind == Revise
                else next.kind == OpenPr)
  {
    VerifyMoves(ln.job, cfg, reply.first, reply.second);
  }

  /** A check is no work pass and no loop-back, wherever it leads. */
  lemma ChecksCountNothing(cfg: Config, ln: Lane, reply: Reply, retry: bool)
    requires StageOk(ln) && MayFinish(ln) && ln.kind in {Verify, Review}
    ensures LogNumbersSame(ln, LaneNext(cfg, ln, LaneAction.Finish(reply, retry)))
  {
    var next := LaneNext(cfg, ln, LaneAction.Finish(reply, retry));
    FinishLogs(cfg, ln, reply, retry);
    if next.job.log != ln.job.log {
      LogNumbers(ln, next);
    }
  }

  predicate LogNumbersSame(ln: Lane, next: Lane) {
    LoopBacks(next.job) == LoopBacks(ln.job) && WorkPasses(next.job) == WorkPasses(ln.job)
  }

  lemma VerifyBounded(cfg: Config, ln: Lane, reply: Reply, retry: bool)
    requires StageOk(ln) && RoundBounded(cfg, ln) && MayFinish(ln) && ln.kind == Verify
    ensures RoundBounded(cfg, LaneNext(cfg, ln, LaneAction.Finish(reply, retry)))
  {
    VerifyLeads(cfg, ln, reply, retry);
    ChecksCountNothing(cfg, ln, reply, retry);
    VerifyNumbers(ln.job, ChecksOk(reply.first, reply.second));
    var next := LaneNext(cfg, ln, LaneAction.Finish(reply, retry));
    VerifyArithmetic(cfg, ln, next, if ln.job.command == "" || ChecksOk(reply.first, reply.second) then 0 else 1);
  }

  lemma VerifyArithmetic(cfg: Config, ln: Lane, next: Lane, failed: nat)
    requires RoundBounded(cfg, ln) && ln.kind == Verify && ln.handler.Some? && ln.handler.value.Working?
    requires RowsInPast(next.job) && LogNumbersSame(ln, next) && next.handler.None?
    requires failed <= 1 && FailedVerifies(next.job) == FailedVerifies(ln.job) + failed && Reviewed(next.job) == Reviewed(ln.job)
    requires Spent(next) || failed == 0 || FailedVerifies(next.job) < VerifyBudget(cfg)
    requires next.kind == Revise ==> failed == 1 && FailedVerifies(next.job) < VerifyBudget(cfg)
    requires next.kind !in {Plan, Implement}
    ensures RoundBounded(cfg, next)
  {
  }

  /** The end of a review: its row is recorded either way, and only passes to spare lead back. */
  lemma ReviewEnds(cfg: Config, job: Job, review: Option<Reviews.RawReview>, quotes: bool)
    requires job.state in {SelfReviewing, Cancelled}
    ensures var end, recorded := FinishReview(job, cfg, review, quotes), RecordReview(job, review, quotes);
            SameRows(end.job, recorded) && end.job.cycle == job.cycle
            && (if job.state == Cancelled then end in {Thrown(recorded), Committed(recorded, Some(Review))}
                else end.Committed? && end.next in {Some(Revise), Some(Review), Some(OpenPr)}
                     && (end.next != Some(OpenPr) ==> Reviewed(job) + 1 < cfg.maxReviewPasses))
  {
  }

  /** Where the REVIEW stage leads, in numbers. */
  lemma ReviewLeads(cfg: Config, ln: Lane, reply: Reply, retry: bool)
    requires StageOk(ln) && MayFinish(ln) && ln.kind == Review
    ensures var next := LaneNext(cfg, ln, LaneAction.Finish(reply, retry));
            var job := RecordReview(ln.job, reply.review, reply.quotesSentinel);
            && next.handler.None? && SameRows(next.job, job) && next.job.cycle == ln.job.cycle
            && (if ln.job.state == Cancelled then next.job.state == Cancelled && next.kind == Review
                else next.kind in {Revise, Review, OpenPr}
                     && (next.kind != OpenPr ==> Reviewed(ln.job) + 1 < cfg.maxReviewPasses))
  {
    ReviewEnds(cfg, ln.job, reply.review, reply.quotesSentinel);
  }

  lemma ReviewBounded(cfg: Config, ln: Lane, reply: Reply, retry: bool)
    requires StageOk(ln) && RoundBounded(cfg, ln) && MayFinish(ln) && ln.kind == Review
    ensures RoundBounded(cfg, LaneNext(cfg, ln, LaneAction.Finish(reply, retry)))
  {
    ReviewLeads(cfg, ln, reply, retry);
    ChecksCountNothing(cfg, ln, reply, retry);
    ReviewNumbers(ln.job, reply.review, reply.quotesSentinel);
    ReviewArithmetic(cfg, ln, LaneNext(cfg, ln, LaneAction.Finish(reply, retry)));
  }

  lemma ReviewArithmetic(cfg: Config, ln: Lane, next: Lane)
    requires RoundBounded(cfg, ln) && ln.kind == Review && ln.handler.Some? && ln.handler.value.Working?
    requires RowsInPast(next.job) && LogNumbersSame(ln, next) && next.handler.None?
    requires FailedVerifies(next.job) == FailedVerifies(ln.job) && Reviewed(next.job) == Reviewed(ln.job) + 1
    requires Spent(next) || Reviewed(next.job) < ReviewBudget(cfg)
    requires next.kind == Revise ==> Reviewed(next.job) < ReviewBudget(cfg)
    requires next.kind !in {Plan, Implement}
    ensures RoundBounded(cfg, next)
  {
  }

  lemma HumanBounded(cfg: Config, ln: Lane, act: HumanAct)
    requires StageOk(ln) && RoundBounded(cfg, ln)
    ensures RoundBounded(cfg, LaneNext(cfg, ln, Ask(act)))
  {
    HumanLogs(cfg, ln, act);
    HumanQuiet(cfg, ln, act);
    QuietStep(cfg, ln, LaneNext(cfg, ln, Ask(act)));
  }

  lemma HumanQuiet(cfg: Config, ln: Lane, act: HumanAct)
    requires StageOk(ln) && LogStep(ln, LaneNext(cfg, ln, Ask(act)))
    ensures QuietMove(ln, LaneNext(cfg, ln, Ask(act)))
  {
    match act
    case Approve => case PlanFeedback => case PlanLimit => case RecordFeedback =>
    case RequestChanges => case Accept => case Cancel => case Retry =>
  }

  lemma QuietFinishBounded(cfg: Config, ln: Lane, reply: Reply, retry: bool)
    requires StageOk(ln) && RoundBounded(cfg, ln) && MayFinish(ln) && ln.kind !in {Verify, Review}
    ensures RoundBounded(cfg, LaneNext(cfg, ln, LaneAction.Finish(reply, retry)))
  {
    var next := LaneNext(cfg, ln, LaneAction.Finish(reply, retry));
    FinishLogs(cfg, ln, reply, retry);
    FinishQuiet(cfg, ln, reply, retry);
    QuietStep(cfg, ln, next);
  }

  lemma FinishQuiet(cfg: Config, ln: Lane, reply: Reply, retry: bool)
    requires StageOk(ln) && MayFinish(ln) && ln.kind !in {Verify, Review}
    requires LogStep(ln, LaneNext(cfg, ln, LaneAction.Finish(reply, retry)))
    ensures QuietMove(ln, LaneNext(cfg, ln, LaneAction.Finish(reply, retry)))
  {
    match ln.kind
    case Plan => case Implement => case Revise => case OpenPr =>
  }

  lemma BeginBounded(cfg: Config, ln: Lane, discovered: Option<string>, retry: bool)
    requires StageOk(ln) && RoundBounded(cfg, ln)
    ensures RoundBounded(cfg, LaneNext(cfg, ln, LaneAction.Begin(discovered, retry)))
  {
    if ln.handler == Some(Claimed) {
      BeginLogs(cfg, ln, discovered, retry);
      BeginLeads(ln.job, ln.kind, discovered);
      QuietStep(cfg, ln, LaneNext(cfg, ln, LaneAction.Begin(discovered, retry)));
    }
  }

  lemma RoundsKept(cfg: Config, ln: Lane, a: LaneAction)
    requires StageOk(ln) && RoundBounded(cfg, ln)
    ensures RoundBounded(cfg, LaneNext(cfg, ln, a))
  {
    match a
    case Claim =>
    case Begin(discovered, retry) => BeginBounded(cfg, ln, discovered, retry);
    case RunAgent =>
    case Throw(_) =>
      StepLogs(cfg, ln, a);
      QuietStep(cfg, ln, LaneNext(cfg, ln, a));
    case Restart =>
    case Ask(act) => HumanBounded(cfg, ln, act);
    case Finish(reply, retry) =>
      if MayFinish(ln) {
        if ln.kind == Verify {
          VerifyBounded(cfg, ln, reply, retry);
        } else if ln.kind == Review {
          ReviewBounded(cfg, ln, reply, retry);
        } else {
          QuietFinishBounded(cfg, ln, reply, retry);
        }
      }
  }

  /** The bounds of one round, spelled out. */
  lemma RoundBounds(cfg: Config, ln: Lane)
    requires RoundBounded(cfg, ln)
    ensures FailedVerifies(ln.job) <= VerifyBudget(cfg) + LoopBacks(ln.job)
    ensures Reviewed(ln.job) <= ReviewBudget(cfg) + LoopBacks(ln.job)
    ensures WorkPasses(ln.job) <= VerifyBudget(cfg) + ReviewBudget(cfg) - 1 + LoopBacks(ln.job)
  {
  }

  // ── Termination of a round ─────────────────────────────────────────────────

  function Position(ln: Lane): nat {
    if ln.job.state == AwaitingPrApproval || Terminal(ln.job.state) then 0
    else
      match ln.kind
      case OpenPr => 1
      case Review => 2
      case Verify => 3
      case _ => 4
  }

  /** What is left of a round: the unused fix budgets, then the place in the pipeline. */
  function Remaining(cfg: Config, ln: Lane): nat {
    var verifies := VerifyBudget(cfg) - Min(FailedVerifies(ln.job), VerifyBudget(cfg));
    var reviews := ReviewBudget(cfg) - Min(Reviewed(ln.job), ReviewBudget(cfg));
    4 * (verifies + reviews) + Position(ln)
  }

  /** Every completed stage of a live round uses some of it up. */
  lemma StagesUseUpTheRound(cfg: Config, ln: Lane, reply: Reply, retry: bool)
    requires StageOk(ln) && ln.job.state !in {Cancelled, Triaged} && ln.kind != Plan && MayFinish(ln)
    ensures Remaining(cfg, LaneNext(cfg, ln, LaneAction.Finish(reply, retry))) < Remaining(cfg, ln)
    ensures LaneNext(cfg, ln, LaneAction.Finish(reply, retry)).job.cycle == ln.job.cycle
  {
    if ln.kind == Verify {
      VerifyUsesUp(cfg, ln, reply, retry);
    } else if ln.kind == Review {
      ReviewUsesUp(cfg, ln, reply, retry);
    }
  }

  lemma VerifyUsesUp(cfg: Config, ln: Lane, reply: Reply, retry: bool)
    requires StageOk(ln) && ln.job.state != Cancelled && ln.kind == Verify && MayFinish(ln)
    ensures Remaining(cfg, LaneNext(cfg, ln, LaneAction.Finish(reply, retry))) < Remaining(cfg, ln)
    ensures LaneNext(cfg, ln, LaneAction.Finish(reply, retry)).job.cycle == ln.job.cycle
  {
    VerifyLeads(cfg, ln, reply, retry);
    VerifyNumbers(ln.job, ChecksOk(reply.first, reply.second));
    VerifyPays(cfg, ln, LaneNext(cfg, ln, LaneAction.Finish(reply, retry)),
               if ln.job.command == "" || ChecksOk(reply.first, reply.second) then 0 else 1);
  }

  lemma VerifyPays(cfg: Config, ln: Lane, next: Lane, failed: nat)
    requires Position(ln) == 3 && Reviewed(next.job) == Reviewed(ln.job)
    requires failed <= 1 && FailedVerifies(next.job) == FailedVerifies(ln.job) + failed
    requires next.kind in {Review, OpenPr} || (failed == 1 && FailedVerifies(next.job) < cfg.maxVerifyAttempts)
    ensures Remaining(cfg, next) < Remaining(cfg, ln)
  {
    UsesUp(cfg, ln, next);
  }

  lemma ReviewUsesUp(cfg: Config, ln: Lane, reply: Reply, retry: bool)
    requires StageOk(ln) && ln.job.state != Cancelled && ln.kind == Review && MayFinish(ln)
    ensures Remaining(cfg, LaneNext(cfg, ln, LaneAction.Finish(reply, retry))) < Remaining(cfg, ln)
    ensures LaneNext(cfg, ln, LaneAction.Finish(reply, retry)).job.cycle == ln.job.cycle
  {
    ReviewLeads(cfg, ln, reply, retry);
    ReviewNumbers(ln.job, reply.review, reply.quotesSentinel);
    UsesUp(cfg, ln, LaneNext(cfg, ln, LaneAction.Finish(reply, retry)));
  }

  lemma UsesUp(cfg: Config, ln: Lane, next: Lane)
    requires FailedVerifies(ln.job) <= FailedVerifies(next.job) && Reviewed(ln.job) <= Reviewed(next.job)
    requires || Position(next) < Position(ln)
             || FailedVerifies(ln.job) < FailedVerifies(next.job) < VerifyBudget(cfg)
             || Reviewed(ln.job) < Reviewed(next.job) < ReviewBudget(cfg)
    requires Position(ln) >= 2
    ensures Remaining(cfg, next) < Remaining(cfg, ln)
  {
  }

  /**
   * The only ways back up inside a round: a loop-back, which takes feedback no
   * pass has seen, and a human's retry of a failed job.
   */
  lemma OnlyFeedbackReopens(cfg: Config, ln: Lane, a: LaneAction)
    requires StageOk(ln) && ln.kind != Plan && LaneNext(cfg, ln, a).job.cycle == ln.job.cycle
    requires Remaining(cfg, LaneNext(cfg, ln, a)) > Remaining(cfg, ln)
    ensures if a == Ask(Retry) then ln.job.state == Failed
            else a.Begin? && ln.kind == OpenPr && Unaddressed(ln.job) != {}
                 && LoopBacks(LaneNext(cfg, ln, a).job) == LoopBacks(ln.job) + 1
  {
    var next := LaneNext(cfg, ln, a);
    match a
    case Claim =>
    case RunAgent =>
    case Restart =>
    case Throw(_) =>
    case Ask(act) => if a != Ask(Retry) { HumanReopensNothing(cfg, ln, act); }
    case Finish(reply, retry) => if MayFinish(ln) { FinishReopensNothing(cfg, ln, reply, retry); }
    case Begin(discovered, retry) => if ln.handler == Some(Claimed) { BeginReopens(cfg, ln, discovered, retry); }
  }

  /** A first half brings the measure up only by looping back. */
  lemma BeginReopens(cfg: Config, ln: Lane, discovered: Option<string>, retry: bool)
    requires StageOk(ln) && ln.kind != Plan && ln.handler == Some(Claimed)
    ensures var next := LaneNext(cfg, ln, LaneAction.Begin(discovered, retry));
            next.job.cycle == ln.job.cycle && Remaining(cfg, next) > Remaining(cfg, ln) ==>
              ln.kind == OpenPr && Unaddressed(ln.job) != {} && LoopBacks(next.job) == LoopBacks(ln.job) + 1
  {
    BeginLeads(ln.job, ln.kind, discovered);
    BeginLogs(cfg, ln, discovered, retry);
    if Stages.Begin(ln.job, ln.kind, discovered).Ended? && !Terminal(ln.job.state) {
      LogNumbers(ln, LaneNext(cfg, ln, LaneAction.Begin(discovered, retry)));
    }
  }

  lemma FinishReopensNothing(cfg: Config, ln: Lane, reply: Reply, retry: bool)
    requires StageOk(ln) && ln.kind != Plan && MayFinish(ln)
    ensures Remaining(cfg, LaneNext(cfg, ln, LaneAction.Finish(reply, retry))) <= Remaining(cfg, ln)
  {
    if ln.job.state != Cancelled {
      StagesUseUpTheRound(cfg, ln, reply, retry);
    } else {
      CancelledStageEnds(cfg, ln, reply, retry);
    }
  }

  /** A stage of a job cancelled meanwhile may still leave its row. */
  lemma CancelledStageEnds(cfg: Config, ln: Lane, reply: Reply, retry: bool)
    requires StageOk(ln) && ln.kind != Plan && ln.job.state == Cancelled && MayFinish(ln)
    ensures Remaining(cfg, LaneNext(cfg, ln, LaneAction.Finish(reply, retry))) <= Remaining(cfg, ln)
  {
    var next := LaneNext(cfg, ln, LaneAction.Finish(reply, retry));
    FinishLeads(ln.job, ln.kind, cfg, reply);
    FinishFrame(cfg, ln, reply, retry);
    if ln.kind == Verify {
      VerifyLeads(cfg, ln, reply, retry);
      VerifyNumbers(ln.job, ChecksOk(reply.first, reply.second));
    } else if ln.kind == Review {
      ReviewLeads(cfg, ln, reply, retry);
      ReviewNumbers(ln.job, reply.review, reply.quotesSentinel);
    }
    OutOfPlace(cfg, ln, next);
  }

  lemma OutOfPlace(cfg: Config, ln: Lane, next: Lane)
    requires Position(next) == 0 && FailedVerifies(ln.job) <= FailedVerifies(next.job) && Reviewed(ln.job) <= Reviewed(next.job)
    ensures Remaining(cfg, next) <= Remaining(cfg, ln)
  {
  }

  lemma HumanReopensNothing(cfg: Config, ln: Lane, act: HumanAct)
    requires StageOk(ln) && ln.kind != Plan && LaneNext(cfg, ln, Ask(act)).job.cycle == ln.job.cycle
    requires act != Retry || ln.job.state != Failed
    ensures Remaining(cfg, LaneNext(cfg, ln, Ask(act))) <= Remaining(cfg, ln)
  {
    match act
    case Approve => case PlanFeedback => case PlanLimit => case RecordFeedback =>
    case RequestChanges => case Accept => case Cancel => case Retry =>
  }
}
