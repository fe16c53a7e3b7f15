/**
 * A revision round ends: one measure over whole runs of the system, in which every
 * stage of a job that ends is paid for by the round's budgets, by feedback nobody has
 * worked on, or by a human's retry.
 */
module Termination {
  import opened Common
  import opened Jobs
  import opened Stages
  import opened Lanes
  import opened System
  import opened Tables
  import opened Pipeline
  import Q = Queue
  import Gates
  import Rounds
  import Feedback

  /** Feedback rows that have not yet brought a job back to work. */
  function Unconsumed(job: Job): nat {
    Max(0, |job.feedback| - Feedback.Consumed(job))
  }

  /** Lexicographic, as one number: a loop-back uses a row up and gives back less than four steps. */
  function Potential(cfg: Config, ln: Lane): nat {
    4 * Unconsumed(ln.job) + Rounds.Remaining(cfg, ln)
  }

  predicate LoopsBack(ln: Lane, a: LaneAction) {
    a.Begin? && ln.handler == Some(Claimed) && !Terminal(ln.job.state) && Stages.Begin(ln.job, ln.kind, a.discovered).Ended?
  }

  /** A step that ends a stage: its second half, or OPEN_PR's loop-back instead of one. */
  predicate EndsStage(ln: Lane, a: LaneAction) {
    (a.Finish? && MayFinish(ln) && !Terminal(ln.job.state)) || LoopsBack(ln, a)
  }

  /** A failed job was set going again. */
  predicate Retried(before: Job, after: Job) {
    before.state == Failed && after.state != Failed
  }

  function One(b: bool): nat {
    if b then 1 else 0
  }

  // ── One step of a job ──────────────────────────────────────────────────────

  /** The feedback ledger only grows. */
  lemma StepLedger(cfg: Config, ln: Lane, a: LaneAction)
    requires StageOk(ln)
    ensures var next := LaneNext(cfg, ln, a);
            |next.job.feedback| >= |ln.job.feedback| && Feedback.Consumed(next.job) >= Feedback.Consumed(ln.job)
  {
    Gates.StepLogs(cfg, ln, a);
    Feedback.ConsumedStep(ln, LaneNext(cfg, ln, a));
    FeedbackGrows(cfg, ln, a);
  }

  lemma FeedbackGrows(cfg: Config, ln: Lane, a: LaneAction)
    ensures |LaneNext(cfg, ln, a).job.feedback| >= |ln.job.feedback|
  {
    match a
    case Claim => case RunAgent => case Restart => case Throw(_) =>
    case Begin(discovered, _) => Feedback.BeginFrame(ln.job, ln.kind, discovered);
    case Finish(reply, retry) => FinishFrame(cfg, ln, reply, retry);
    case Ask(act) => AnswerGrows(cfg, ln, act);
  }

  lemma AnswerGrows(cfg: Config, ln: Lane, act: HumanAct)
    ensures |LaneNext(cfg, ln, LaneAction.Ask(act)).job.feedback| >= |ln.job.feedback|
  {
  }

  /** A loop-back: one row is used up, and the measure of the round grows by three. */
  lemma LoopBackStep(cfg: Config, ln: Lane, a: LaneAction)
    requires StageOk(ln) && LoopsBack(ln, a)
    ensures var next := LaneNext(cfg, ln, a);
            next.job.feedback == ln.job.feedback && Feedback.Consumed(next.job) == Feedback.Consumed(ln.job) + 1
            && Rounds.Remaining(cfg, next) == Rounds.Remaining(cfg, ln) + 3
  {
    var next := LaneNext(cfg, ln, a);
    BeginLeads(ln.job, ln.kind, a.discovered);
    Gates.BeginLogs(cfg, ln, a.discovered, a.retry);
    Feedback.ConsumedStep(ln, next);
  }

  /** A retry puts the job back in its place of the round and gives no budget back. */
  lemma RetryStep(cfg: Config, ln: Lane)
    requires StageOk(ln) && ln.kind != Plan && ln.job.state == Failed
    ensures var next := LaneNext(cfg, ln, LaneAction.Ask(Retry));
            Retried(ln.job, next.job) && Rounds.Remaining(cfg, next) <= Rounds.Remaining(cfg, ln) + 4
  {
  }

  /** Every other step of a round, stages' ends among them, lets the measure of the round only fall. */
  lemma OtherSteps(cfg: Config, ln: Lane, a: LaneAction)
    requires StageOk(ln) && ln.kind != Plan && LaneNext(cfg, ln, a).job.cycle == ln.job.cycle && !LoopsBack(ln, a)
    ensures var next := LaneNext(cfg, ln, a);
            Rounds.Remaining(cfg, next) + One(EndsStage(ln, a)) <= Rounds.Remaining(cfg, ln) + 4 * One(Retried(ln.job, next.job))
  {
    if a.Finish? && MayFinish(ln) && !Terminal(ln.job.state) {
      Rounds.StagesUseUpTheRound(cfg, ln, a.reply, a.retry);
    } else if Rounds.Remaining(cfg, LaneNext(cfg, ln, a)) > Rounds.Remaining(cfg, ln) {
      Rounds.OnlyFeedbackReopens(cfg, ln, a);
      if a == LaneAction.Ask(Retry) {
        RetryStep(cfg, ln);
      } else {
        ReopeningLoopsBack(ln, a);
      }
    }
  }

  lemma ReopeningLoopsBack(ln: Lane, a: LaneAction)
    requires a.Begin? && ln.handler == Some(Claimed) && !Terminal(ln.job.state) && ln.kind == OpenPr && Unaddressed(ln.job) != {}
    ensures LoopsBack(ln, a)
  {
  }

  /** What a step may cost: four for each feedback row that came in, four for a retry. */
  function Charge(before: Job, after: Job): int {
    4 * (|after.feedback| - |before.feedback|) + 4 * One(Retried(before, after))
  }

  lemma PotentialStep(cfg: Config, ln: Lane, a: LaneAction)
    requires LaneInv(cfg, ln) && LaneInv(cfg, LaneNext(cfg, ln, a))
    requires ln.kind != Plan && LaneNext(cfg, ln, a).job.cycle == ln.job.cycle
    ensures var next := LaneNext(cfg, ln, a);
            Potential(cfg, next) + One(EndsStage(ln, a)) <= Potential(cfg, ln) + Charge(ln.job, next.job)
  {
    StepLedger(cfg, ln, a);
    if LoopsBack(ln, a) {
      LoopBackStep(cfg, ln, a);
    } else {
      OtherSteps(cfg, ln, a);
    }
  }

  // ── One step of the system ─────────────────────────────────────────────────

  /** The system's step ends a stage of job j. */
  predicate StageEnds(s: Sys, a: Action, j: nat) {
    match a
    case Finish(t, _) =>
      Held(s, t) && s.tasks[t].jobId == j && MayFinish(LaneAt(s, j, t)) && !Terminal(s.jobs[j].state)
    case Begin(t, discovered) =>
      Held(s, t) && s.tasks[t].jobId == j && s.running[t] == Claimed && !Terminal(s.jobs[j].state)
      && Stages.Begin(s.jobs[j], s.tasks[t].kind, discovered).Ended?
    case _ => false
  }

  /** The job's lane after its handler ended. */
  lemma EndedLane(cfg: Config, s: Sys, t: nat, outcome: Outcome)
    requires SysInv(cfg, s) && Held(s, t)
    ensures var j, next := s.tasks[t].jobId, EndTask(cfg, s, t, outcome);
            View(s, j) == LaneAt(s, j, t) && j in next.jobs && Placed(next, j)
            && View(next, j) == Ending(outcome, s.tasks[t].kind, Q.WillRetry(s.tasks[t]))
  {
    HandlersMatchTasks(cfg, s, t);
    EndTaskMoves(cfg, s, t, outcome);
  }

  lemma BegunLane(cfg: Config, ln: Lane, discovered: Option<string>, retry: bool)
    requires ln.handler == Some(Claimed) && Stages.Begin(ln.job, ln.kind, discovered).Ended?
    ensures LaneNext(cfg, ln, LaneAction.Begin(discovered, retry))
            == Ending(Stages.Begin(ln.job, ln.kind, discovered).outcome, ln.kind, retry)
  {
  }

  lemma FinishedLane(cfg: Config, ln: Lane, reply: Reply, retry: bool)
    requires MayFinish(ln)
    ensures LaneNext(cfg, ln, LaneAction.Finish(reply, retry)) == Ending(Stages.Finish(ln.job, ln.kind, cfg, reply), ln.kind, retry)
  {
  }

  /** How the stage ended. */
  function OutcomeOf(cfg: Config, s: Sys, a: Action, j: nat): Outcome
    requires j in s.jobs && StageEnds(s, a, j)
  {
    if a.Finish? then Stages.Finish(s.jobs[j], s.tasks[a.task].kind, cfg, a.reply)
    else Stages.Begin(s.jobs[j], s.tasks[a.task].kind, a.discovered).outcome
  }

  lemma StageEndsIsEnd(cfg: Config, s: Sys, a: Action, j: nat)
    requires j in s.jobs && StageEnds(s, a, j)
    ensures SysNext(cfg, s, a) == EndTask(cfg, s, a.task, OutcomeOf(cfg, s, a, j))
  {
  }

  /** Seen from the job, its stage ends as well. */
  lemma StageEndsInLane(cfg: Config, s: Sys, a: Action, j: nat) returns (la: LaneAction)
    requires SysInv(cfg, s) && j in s.jobs && StageEnds(s, a, j)
    ensures EndsStage(View(s, j), la) && j in SysNext(cfg, s, a).jobs && Placed(SysNext(cfg, s, a), j)
    ensures View(SysNext(cfg, s, a), j) == LaneNext(cfg, View(s, j), la)
  {
    var retry := Q.WillRetry(s.tasks[a.task]);
    StageEndsIsEnd(cfg, s, a, j);
    EndedLane(cfg, s, a.task, OutcomeOf(cfg, s, a, j));
    if a.Finish? {
      la := LaneAction.Finish(a.reply, retry);
      FinishedLane(cfg, View(s, j), a.reply, retry);
    } else {
      la := LaneAction.Begin(a.discovered, retry);
      BegunLane(cfg, View(s, j), a.discovered, retry);
    }
  }

  /** The job's round goes on, and what the step did to it is paid for. */
  predicate PaysFor(cfg: Config, ln: Lane, next: Lane, ends: bool) {
    next.job.cycle >= ln.job.cycle
    && (next.job.cycle == ln.job.cycle ==>
          Potential(cfg, next) + One(ends) <= Potential(cfg, ln) + Charge(ln.job, next.job))
  }

  /** Every step of the system leaves a job's round to itself, or pays for what it does to it. */
  lemma SystemStep(cfg: Config, s: Sys, a: Action, j: nat)
    requires SysInv(cfg, s) && j in s.jobs && s.jobs[j].cycle > 0
    ensures SysInv(cfg, SysNext(cfg, s, a)) && j in SysNext(cfg, s, a).jobs
    ensures PaysFor(cfg, View(s, j), View(SysNext(cfg, s, a), j), StageEnds(s, a, j))
  {
    StepKeeps(cfg, s, a);
    if StageEnds(s, a, j) {
      var la := StageEndsInLane(cfg, s, a, j);
      LaneStepPays(cfg, View(s, j), la, true);
    } else {
      QuietLanePays(cfg, View(s, j), View(SysNext(cfg, s, a), j));
    }
  }

  lemma QuietLanePays(cfg: Config, ln: Lane, next: Lane)
    requires LaneReachable(cfg, ln) && LaneStep(cfg, ln, next) && ln.job.cycle > 0
    ensures PaysFor(cfg, ln, next, false)
  {
    if next != ln {
      var la :| next == LaneNext(cfg, ln, la);
      LaneStepPays(cfg, ln, la, false);
    }
  }

  lemma LaneStepPays(cfg: Config, ln: Lane, la: LaneAction, ends: bool)
    requires LaneReachable(cfg, ln) && ln.job.cycle > 0 && (ends ==> EndsStage(ln, la))
    ensures PaysFor(cfg, ln, LaneNext(cfg, ln, la), ends)
  {
    ReachableLanesKeepPromises(cfg, ln);
    LaneKept(cfg, ln, la);
    Gates.StepLogs(cfg, ln, la);
    if LaneNext(cfg, ln, la).job.cycle == ln.job.cycle {
      PotentialStep(cfg, ln, la);
    }
  }

  // ── Whole runs ─────────────────────────────────────────────────────────────

  /** How many stages of job j end while the run goes on. */
  ghost function StagesEnded(cfg: Config, actions: seq<Action>, more: seq<Action>, j: nat): nat
    decreases |more|
  {
    if |more| == 0 then 0
    else
      var earlier, last := more[..|more| - 1], more[|more| - 1];
      StagesEnded(cfg, actions, earlier, j) + One(StageEnds(Run(cfg, actions + earlier), last, j))
  }

  predicate RetriesJob(s: Sys, next: Sys, j: nat) {
    j in s.jobs && j in next.jobs && Retried(s.jobs[j], next.jobs[j])
  }

  /** How often a human sets the failed job going again meanwhile. */
  ghost function Retries(cfg: Config, actions: seq<Action>, more: seq<Action>, j: nat): nat
    decreases |more|
  {
    if |more| == 0 then 0
    else
      var earlier, last := more[..|more| - 1], more[|more| - 1];
      var s := Run(cfg, actions + earlier);
      Retries(cfg, actions, earlier, j) + One(RetriesJob(s, SysNext(cfg, s, last), j))
  }

  /** What the stages ended so far are paid for with. */
  ghost predicate Paid(cfg: Config, s: Sys, end: Sys, j: nat, ended: nat, retries: nat) {
    SysInv(cfg, s) && SysInv(cfg, end) && j in s.jobs && j in end.jobs && end.jobs[j].cycle >= s.jobs[j].cycle
    && (end.jobs[j].cycle == s.jobs[j].cycle ==>
          ended + Potential(cfg, View(end, j))
          <= Potential(cfg, View(s, j)) + 4 * (|end.jobs[j].feedback| - |s.jobs[j].feedback|) + 4 * retries)
  }

  lemma PaidStep(cfg: Config, s: Sys, mid: Sys, a: Action, j: nat, ended: nat, retries: nat)
    requires Paid(cfg, s, mid, j, ended, retries) && s.jobs[j].cycle > 0
    ensures Paid(cfg, s, SysNext(cfg, mid, a), j, ended + One(StageEnds(mid, a, j)),
                 retries + One(RetriesJob(mid, SysNext(cfg, mid, a), j)))
  {
    SystemStep(cfg, mid, a, j);
  }

  lemma LastStep(cfg: Config, actions: seq<Action>, more: seq<Action>)
    requires |more| > 0
    ensures Run(cfg, actions + more) == SysNext(cfg, Run(cfg, actions + more[..|more| - 1]), more[|more| - 1])
  {
    assert (actions + more)[..|actions + more| - 1] == actions + more[..|more| - 1];
  }

  lemma {:induction false} RunIsPaid(cfg: Config, actions: seq<Action>, more: seq<Action>, j: nat)
    requires j in Run(cfg, actions).jobs && Run(cfg, actions).jobs[j].cycle > 0
    ensures Paid(cfg, Run(cfg, actions), Run(cfg, actions + more), j,
                 StagesEnded(cfg, actions, more, j), Retries(cfg, actions, more, j))
    decreases |more|
  {
    if |more| == 0 {
      assert actions + more == actions;
      Reachable(cfg, actions);
    } else {
      var earlier, last := more[..|more| - 1], more[|more| - 1];
      RunIsPaid(cfg, actions, earlier, j);
      LastStep(cfg, actions, more);
      PaidStep(cfg, Run(cfg, actions), Run(cfg, actions + earlier), last, j,
               StagesEnded(cfg, actions, earlier, j), Retries(cfg, actions, earlier, j));
    }
  }

  /** The potential is never more than the budgets and the feedback. */
  lemma PotentialBounded(cfg: Config, ln: Lane)
    requires Feedback.ConsumedOk(ln)
    ensures Potential(cfg, ln) <= 4 * (|ln.job.feedback| + Rounds.VerifyBudget(cfg) + Rounds.ReviewBudget(cfg) + 1)
  {
  }

  /**
   * Every revision round ends: from any point of any run, however the steps of all jobs,
   * crashes, task retries and human actions interleave, the stages of a job that end while
   * its round number stays are at most its potential, four for every feedback row that comes
   * in and four for every retry of the failed job; so at most four times the budgets, the
   * feedback there is, the retries, and one.
   */
  lemma RoundsEnd(cfg: Config, actions: seq<Action>, more: seq<Action>, j: nat)
    requires j in Run(cfg, actions).jobs && Run(cfg, actions).jobs[j].cycle > 0
    ensures j in Run(cfg, actions + more).jobs
    ensures var s, end := Run(cfg, actions), Run(cfg, actions + more);
            end.jobs[j].cycle == s.jobs[j].cycle ==>
              Paid(cfg, s, end, j, StagesEnded(cfg, actions, more, j), Retries(cfg, actions, more, j))
              && StagesEnded(cfg, actions, more, j)
                 <= 4 * (Rounds.VerifyBudget(cfg) + Rounds.ReviewBudget(cfg) + |end.jobs[j].feedback|
                         + Retries(cfg, actions, more, j) + 1)
  {
    RunIsPaid(cfg, actions, more, j);
    Reachable(cfg, actions);
    ReachableLanesKeepPromises(cfg, View(Run(cfg, actions), j));
    PotentialBounded(cfg, View(Run(cfg, actions), j));
  }
}
