/** The promises of the delivery pipeline, for every run of the system from an empty database. */
module Theorems {
  import opened Common
  import opened Jobs
  import opened Stages
  import opened Lanes
  import opened System
  import opened Tables
  import opened Pipeline
  import Q = Queue
  import Gates
  import Rounds
  import Builds
  import Feedback
  import Reviews
  import Texts

  predicate AwaitsHuman(state: JobState) {
    state in {AwaitingPlanApproval, AwaitingPrApproval}
  }

  /** The kind of task that drives a job in this state. */
  predicate Drives(kind: TaskKind, state: JobState) {
    state == StateFor(kind) || (kind == Plan && state == Triaged)
  }

  predicate OutstandingFor(s: Sys, j: nat, k: nat) {
    k < |s.tasks| && s.tasks[k].jobId == j && Q.Outstanding(s.tasks[k])
  }

  lemma JobOf(cfg: Config, actions: seq<Action>, j: nat)
    requires j in Run(cfg, actions).jobs
    ensures SysInv(cfg, Run(cfg, actions)) && LaneInv(cfg, View(Run(cfg, actions), j))
  {
    Reachable(cfg, actions);
    ReachableLanesKeepPromises(cfg, View(Run(cfg, actions), j));
  }

  /**
   * No job is stranded. A job that is neither finished nor waiting for a human has
   * exactly one outstanding task, of the kind that drives its state; a job that is
   * waiting, done or failed has none. A cancelled one has at most one, left by a
   * handler that was in flight.
   */
  lemma NoJobStranded(cfg: Config, actions: seq<Action>, j: nat)
    requires j in Run(cfg, actions).jobs
    ensures var s := Run(cfg, actions);
            var state := s.jobs[j].state;
            if AwaitsHuman(state) || state in {Done, Failed} then forall k: nat :: !OutstandingFor(s, j, k)
            else if state == Cancelled then forall k: nat, l: nat :: OutstandingFor(s, j, k) && OutstandingFor(s, j, l) ==> k == l
            else exists c: nat :: OutstandingFor(s, j, c) && Drives(s.tasks[c].kind, state)
                             && forall k: nat :: OutstandingFor(s, j, k) ==> k == c
  {
    var s := Run(cfg, actions);
    JobOf(cfg, actions, j);
    var lane := View(s, j);
    assert StageOk(lane) && Placed(s, j);
    var c := Newest(s.tasks, j).value;
    forall k | OutstandingFor(s, j, k) ensures k == c {
      OutstandingIsNewest(cfg, s, k);
    }
    if AwaitsHuman(s.jobs[j].state) || s.jobs[j].state in {Done, Failed} {
      assert !OutstandingFor(s, j, c);
    } else if s.jobs[j].state != Cancelled {
      assert OutstandingFor(s, j, c);
    }
  }

  /** Whatever a cancelled, or otherwise finished, job still has waiting ends without effect once it is begun. */
  lemma FinishedJobsTasksFizzle(cfg: Config, actions: seq<Action>, t: nat, discovered: Option<string>)
    requires var s := Run(cfg, actions);
             Held(s, t) && s.running[t] == Claimed && Terminal(s.jobs[s.tasks[t].jobId].state)
    ensures var s := Run(cfg, actions);
            SysNext(cfg, s, Action.Begin(t, discovered)) == s.(tasks := Q.Complete(s.tasks, t), running := s.running - {t})
  {
    var s := Run(cfg, actions);
    assert s.jobs[s.tasks[t].jobId := s.jobs[s.tasks[t].jobId]] == s.jobs;
  }

  /** A waiting task whose time has come is never locked out: the claim may take it. */
  lemma WaitingTaskIsClaimable(cfg: Config, actions: seq<Action>, t: nat)
    requires var s := Run(cfg, actions); t < |s.tasks| && s.tasks[t].status == Q.Pending && s.tasks[t].runAt <= s.now
    ensures var s := Run(cfg, actions); Q.Eligible(s.tasks, t, s.now, cfg.lockTtl)
  {
    Reachable(cfg, actions);
    DueIsEligible(cfg, Run(cfg, actions), t);
  }

  lemma DueIsEligible(cfg: Config, s: Sys, t: nat)
    requires SysInv(cfg, s) && Due(s, t)
    ensures Q.Eligible(s.tasks, t, s.now, cfg.lockTtl)
  {
    forall k | 0 <= k < |s.tasks| && s.tasks[k].jobId == s.tasks[t].jobId ensures s.tasks[k].status != Q.Running {
      if Q.Outstanding(s.tasks[k]) {
        OutstandingIsNewest(cfg, s, k);
        OutstandingIsNewest(cfg, s, t);
      }
    }
  }

  /**
   * One handler per job. No two handlers of a job are in flight together, and
   * whatever the next claim takes was waiting, of different jobs, of jobs with no
   * handler; the claim stays within the free capacity and takes the best first.
   */
  lemma OneHandlerPerJob(cfg: Config, actions: seq<Action>, t: nat, u: nat)
    requires var s := Run(cfg, actions);
             t in s.running && u in s.running && t < |s.tasks| && u < |s.tasks| && s.tasks[t].jobId == s.tasks[u].jobId
    ensures t == u
    ensures |Run(cfg, actions).running| <= Max(cfg.concurrency, 0)
  {
    Reachable(cfg, actions);
    OutstandingIsNewest(cfg, Run(cfg, actions), t);
    OutstandingIsNewest(cfg, Run(cfg, actions), u);
  }

  lemma ClaimsAreExclusive(cfg: Config, actions: seq<Action>, rows: set<nat>, t: nat)
    requires var s := Run(cfg, actions);
             Q.IsTop(s.tasks, Q.EligibleRows(s.tasks, s.now, cfg.lockTtl), cfg.concurrency - |s.running|, rows) && t in rows
    ensures ClaimExcludes(cfg, Run(cfg, actions), rows, t)
  {
    Reachable(cfg, actions);
    ClaimExcludesHere(cfg, Run(cfg, actions), rows, t);
  }

  /** A task that waits, and its time has come. */
  predicate Due(s: Sys, u: nat) {
    u < |s.tasks| && s.tasks[u].status == Q.Pending && s.tasks[u].runAt <= s.now
  }

  ghost predicate ClaimExcludes(cfg: Config, s: Sys, rows: set<nat>, t: nat) {
    Due(s, t) && |rows| <= Max(cfg.concurrency - |s.running|, 0)
    && (forall u :: u in s.running && u < |s.tasks| ==> s.tasks[u].jobId != s.tasks[t].jobId)
    && (forall u :: u in rows && u < |s.tasks| && s.tasks[u].jobId == s.tasks[t].jobId ==> u == t)
    && (forall u: nat :: Due(s, u) && u !in rows ==> |rows| == cfg.concurrency - |s.running| && NotAfter(s.tasks[t], s.tasks[u]))
  }

  /** The order of the claim: higher priority first, then the longer due. */
  predicate NotAfter(t: Q.Task, u: Q.Task) {
    t.priority >= u.priority && (t.priority > u.priority || t.runAt <= u.runAt)
  }

  lemma LeftOutIsLater(cfg: Config, s: Sys, rows: set<nat>, t: nat, u: nat)
    requires SysInv(cfg, s) && t in rows && Due(s, u) && u !in rows
    requires Q.IsTop(s.tasks, Q.EligibleRows(s.tasks, s.now, cfg.lockTtl), cfg.concurrency - |s.running|, rows)
    ensures |rows| == cfg.concurrency - |s.running| && t < |s.tasks| && NotAfter(s.tasks[t], s.tasks[u])
  {
    var eligible := Q.EligibleRows(s.tasks, s.now, cfg.lockTtl);
    DueIsEligible(cfg, s, u);
    assert u in eligible - rows && t in eligible;
    assert Q.NoLater(s.tasks[t], s.tasks[u]);
    Q.Smaller(rows, eligible, u);
  }

  lemma ClaimExcludesHere(cfg: Config, s: Sys, rows: set<nat>, t: nat)
    requires SysInv(cfg, s) && t in rows
    requires Q.IsTop(s.tasks, Q.EligibleRows(s.tasks, s.now, cfg.lockTtl), cfg.concurrency - |s.running|, rows)
    ensures ClaimExcludes(cfg, s, rows, t)
  {
    forall u: nat | Due(s, u) && u !in rows
      ensures |rows| == cfg.concurrency - |s.running| && t < |s.tasks| && NotAfter(s.tasks[t], s.tasks[u])
    {
      LeftOutIsLater(cfg, s, rows, t, u);
    }
    ClaimedAlone(cfg, s, rows, t);
  }

  lemma ClaimedAlone(cfg: Config, s: Sys, rows: set<nat>, t: nat)
    requires SysInv(cfg, s) && t in rows && rows <= Q.EligibleRows(s.tasks, s.now, cfg.lockTtl)
    ensures Due(s, t) && forall u :: u in s.running && u < |s.tasks| ==> s.tasks[u].jobId != s.tasks[t].jobId
    ensures forall u :: u in rows && u < |s.tasks| && s.tasks[u].jobId == s.tasks[t].jobId ==> u == t
  {
    assert Q.Eligible(s.tasks, t, s.now, cfg.lockTtl);
    EligibleIsPending(cfg, s, t);
    OutstandingIsNewest(cfg, s, t);
    forall u | u in s.running && u < |s.tasks| ensures s.tasks[u].jobId != s.tasks[t].jobId {
      OutstandingIsNewest(cfg, s, u);
    }
    forall u | u in rows && u < |s.tasks| && s.tasks[u].jobId == s.tasks[t].jobId ensures u == t {
      assert Q.Eligible(s.tasks, u, s.now, cfg.lockTtl);
      EligibleIsPending(cfg, s, u);
      OutstandingIsNewest(cfg, s, u);
    }
  }

  /**
   * The human gates. The log is a legal chain from null→TRIAGED to the current
   * state. A job that got past planning carries exactly one human approval of a
   * plan, a finished one exactly one human acceptance, and the round number is the
   * number of human-triggered work episodes. Every row names who moved the job.
   */
  lemma HumanGatesHold(cfg: Config, actions: seq<Action>, j: nat)
    requires j in Run(cfg, actions).jobs
    ensures var job := Run(cfg, actions).jobs[j];
            Chain(job.log, job.state)
            && Count(job.log, IsPlanApproval) <= 1
            && (job.state in {Implementing, Verifying, SelfReviewing, Revising, OpeningPr, AwaitingPrApproval, Done}
                ==> Count(job.log, IsPlanApproval) == 1)
            && Count(job.log, IsAcceptance) == (if job.state == Done then 1 else 0)
            && job.cycle == Count(job.log, IsPlanApproval) + Count(job.log, IsChangeRequest)
            && job.log[0].actor == (if job.dashboard then Human else Actor.System)
            && forall i :: 0 < i < |job.log| ==> Gates.IsSigned(job.log[i])
  {
    JobOf(cfg, actions, j);
    assert StageOk(View(Run(cfg, actions), j));
  }

  /** DONE and CANCELLED are for ever; FAILED is left only by a human's retry. */
  lemma TerminalIsFinal(cfg: Config, actions: seq<Action>, a: Action, j: nat)
    requires j in Run(cfg, actions).jobs && Terminal(Run(cfg, actions).jobs[j].state)
    ensures var before, after := Run(cfg, actions).jobs[j], SysNext(cfg, Run(cfg, actions), a);
            j in after.jobs
            && (after.jobs[j].state != before.state ==>
                  before.state == Failed && after.jobs[j].log == before.log + [Entry(Some(Failed), after.jobs[j].state, Actor.Human)])
  {
    var s := Run(cfg, actions);
    JobOf(cfg, actions, j);
    StepKeeps(cfg, s, a);
    TerminalLane(cfg, View(s, j), View(SysNext(cfg, s, a), j));
  }

  lemma TerminalLane(cfg: Config, ln: Lane, next: Lane)
    requires LaneInv(cfg, ln) && LaneStep(cfg, ln, next) && Terminal(ln.job.state)
    ensures next.job.state != ln.job.state ==>
              ln.job.state == Failed && next.job.log == ln.job.log + [Entry(Some(Failed), next.job.state, Actor.Human)]
  {
    if next.job.state != ln.job.state {
      var la :| next == LaneNext(cfg, ln, la);
      Gates.StepLogs(cfg, ln, la);
      Gates.TerminalStatesAbsorb(ln, next);
    }
  }

  /** A revision round is finite: its verifies, reviews, work passes and loop-backs are all bounded. */
  lemma RoundsAreBounded(cfg: Config, actions: seq<Action>, j: nat)
    requires j in Run(cfg, actions).jobs
    ensures var job := Run(cfg, actions).jobs[j];
            var v, r, l := Rounds.VerifyBudget(cfg), Rounds.ReviewBudget(cfg), Rounds.LoopBacks(job);
            Rounds.FailedVerifies(job) <= v + l
            && Rounds.Reviewed(job) <= r + l
            && Rounds.WorkPasses(job) <= v + r - 1 + l
            && l + Count(job.log, IsChangeRequest) <= |job.feedback|
  {
    JobOf(cfg, actions, j);
    Rounds.RoundBounds(cfg, View(Run(cfg, actions), j));
    Feedback.FeedbackPaysForWork(View(Run(cfg, actions), j));
  }

  /** Whenever a REVIEW task is being processed, the round's newest verify is green or there is none. */
  lemma ReviewNeverSeesRed(cfg: Config, actions: seq<Action>, t: nat)
    requires var s := Run(cfg, actions); t in s.running && t < |s.tasks| && s.tasks[t].kind == Review
    ensures var s := Run(cfg, actions);
            s.tasks[t].jobId in s.jobs
            && LastVerify(s.jobs[s.tasks[t].jobId].verifyRuns, s.jobs[s.tasks[t].jobId].cycle) != Some(false)
  {
    var s := Run(cfg, actions);
    Reachable(cfg, actions);
    HandlersMatchTasks(cfg, s, t);
    JobOf(cfg, actions, s.tasks[t].jobId);
  }

  /** A job presented to the human with a red build has used up its verify budget. */
  lemma RedDraftsAreExhausted(cfg: Config, actions: seq<Action>, j: nat)
    requires j in Run(cfg, actions).jobs && Run(cfg, actions).jobs[j].state in {OpeningPr, AwaitingPrApproval, Done}
    requires LastVerify(Run(cfg, actions).jobs[j].verifyRuns, Run(cfg, actions).jobs[j].cycle) == Some(false)
    ensures Rounds.FailedVerifies(Run(cfg, actions).jobs[j]) >= cfg.maxVerifyAttempts
  {
    JobOf(cfg, actions, j);
    assert StageOk(View(Run(cfg, actions), j));
  }

  /**
   * The review counterpart: over every run, a finished review sends its job out
   * exactly if the reply meets the rubric or the review budget is spent, and the build
   * it then goes out with is green or unchecked.
   */
  lemma ReviewsGoOutExactly(cfg: Config, actions: seq<Action>, t: nat, reply: Reply)
    requires Reviewing(Run(cfg, actions), t)
    ensures var s := Run(cfg, actions);
            ReviewedExactly(cfg, s.jobs[s.tasks[t].jobId], SysNext(cfg, s, Action.Finish(t, reply)), s.tasks[t].jobId, reply)
  {
    var s := Run(cfg, actions);
    ReviewNeverSeesRed(cfg, actions, t);
    var job := s.jobs[s.tasks[t].jobId];
    Builds.ReviewGoesOut(cfg, job, reply.review, reply.quotesSentinel);
    FinishIsEnd(cfg, s, t, reply);
    CommittedJob(cfg, s, t, Stages.Finish(job, Review, cfg, reply));
  }

  predicate Reviewing(s: Sys, t: nat) {
    Held(s, t) && s.tasks[t].kind == Review && s.running[t].Working? && s.jobs[s.tasks[t].jobId].state == SelfReviewing
  }

  /** In the job's own passes of the round, the one just recorded among them. */
  predicate ReviewedExactly(cfg: Config, before: Job, s: Sys, j: nat, reply: Reply) {
    j in s.jobs
    && Builds.ReviewLeads(cfg, before, s.jobs[j], reply.review, reply.quotesSentinel)
    && LastVerify(s.jobs[j].verifyRuns, s.jobs[j].cycle) != Some(false)
  }

  lemma CommittedJob(cfg: Config, s: Sys, t: nat, outcome: Outcome)
    requires Held(s, t) && outcome.Committed?
    ensures var next := EndTask(cfg, s, t, outcome); s.tasks[t].jobId in next.jobs && next.jobs[s.tasks[t].jobId] == outcome.job
  {
  }

  /** A stored command is trimmed, so testing it for blanks and testing it for emptiness are the same. */
  lemma StoredCommandsAreTrimmed(cfg: Config, actions: seq<Action>, j: nat)
    requires j in Run(cfg, actions).jobs
    ensures var command := Run(cfg, actions).jobs[j].command;
            Texts.Trim(command) == command && (Texts.Trim(command) != "" <==> command != "")
  {
    JobOf(cfg, actions, j);
    assert Builds.CommandTrimmed(View(Run(cfg, actions), j).job);
  }

  /** A completed task rests for ever: no step of any run touches its row again. */
  lemma CompletedTasksRest(cfg: Config, actions: seq<Action>, a: Action, t: nat)
    requires var s := Run(cfg, actions); t < |s.tasks| && s.tasks[t].status == Q.TaskDone
    ensures var next := SysNext(cfg, Run(cfg, actions), a); t < |next.tasks| && next.tasks[t] == Run(cfg, actions).tasks[t]
  {
    Reachable(cfg, actions);
    DoneIsNotHeld(cfg, Run(cfg, actions), t);
    DoneRowsStay(cfg, Run(cfg, actions), a, t);
  }

  lemma DoneIsNotHeld(cfg: Config, s: Sys, t: nat)
    requires SysInv(cfg, s) && t < |s.tasks| && s.tasks[t].status == Q.TaskDone
    ensures t !in s.running
  {
    var j := s.tasks[t].jobId;
    assert j in s.jobs && Placed(s, j);
    ReachableStage(cfg, View(s, j));
  }

  lemma DoneRowsStay(cfg: Config, s: Sys, a: Action, t: nat)
    requires t < |s.tasks| && s.tasks[t].status == Q.TaskDone && t !in s.running
    ensures t < |SysNext(cfg, s, a).tasks| && SysNext(cfg, s, a).tasks[t] == s.tasks[t]
  {
    match a
    case ClaimBatch(rows) => assert t !in Q.EligibleRows(s.tasks, s.now, cfg.lockTtl);
    case Begin(u, discovered) => DoneRowsStayAtBegin(cfg, s, u, discovered, t);
    case Ask(j, act) => DoneRowsStayAtAnswer(cfg, s, j, act, t);
    case Finish(u, reply) => if Held(s, u) {
        OtherRowStays(cfg, s, u, Stages.Finish(s.jobs[s.tasks[u].jobId], s.tasks[u].kind, cfg, reply), t);
      }
    case Throw(u) => if Held(s, u) {
        ThrowIsEnd(cfg, s, u);
        OtherRowStays(cfg, s, u, Thrown(s.jobs[s.tasks[u].jobId]), t);
      }
    case _ =>
  }

  lemma DoneRowsStayAtBegin(cfg: Config, s: Sys, u: nat, discovered: Option<string>, t: nat)
    requires t < |s.tasks| && s.tasks[t].status == Q.TaskDone && t !in s.running
    ensures var next := SysNext(cfg, s, Action.Begin(u, discovered)); t < |next.tasks| && next.tasks[t] == s.tasks[t]
  {
    if Held(s, u) && s.running[u] == Claimed {
      var begun := Stages.Begin(s.jobs[s.tasks[u].jobId], s.tasks[u].kind, discovered);
      if begun.Ended? { OtherRowStays(cfg, s, u, begun.outcome, t); }
    }
  }

  lemma DoneRowsStayAtAnswer(cfg: Config, s: Sys, j: nat, act: HumanAct, t: nat)
    requires t < |s.tasks| && s.tasks[t].status == Q.TaskDone
    ensures var next := SysNext(cfg, s, Action.Ask(j, act)); t < |next.tasks| && next.tasks[t] == s.tasks[t]
  {
    if j in s.jobs {
      AskIsAnswer(cfg, s, j, act);
    }
  }

  lemma OtherRowStays(cfg: Config, s: Sys, u: nat, outcome: Outcome, t: nat)
    requires u < |s.tasks| && s.tasks[u].jobId in s.jobs && t != u && t < |s.tasks| && s.tasks[t].status == Q.TaskDone
    ensures var next := EndTask(cfg, s, u, outcome); t < |next.tasks| && next.tasks[t] == s.tasks[t]
  {
  }

  /** Revisions are numbered 1..n, and the plan in force from the approval on is the newest. */
  lemma PlanInForceIsNewest(cfg: Config, actions: seq<Action>, j: nat)
    requires j in Run(cfg, actions).jobs && Count(Run(cfg, actions).jobs[j].log, IsPlanApproval) == 1
    ensures var plans := Run(cfg, actions).jobs[j].plans;
            Builds.Numbered(plans) && |plans| > 0 && ApprovedPlan(plans) == Some(Builds.LastPlan(plans))
  {
    JobOf(cfg, actions, j);
    Builds.BuiltPlanIsNewest(View(Run(cfg, actions), j));
  }

  /** The plan that is built is the plan that was approved, whatever happens afterwards. */
  lemma {:induction false} ApprovedPlanStands(cfg: Config, actions: seq<Action>, more: seq<Action>, j: nat)
    requires j in Run(cfg, actions).jobs && Count(Run(cfg, actions).jobs[j].log, IsPlanApproval) == 1
    ensures j in Run(cfg, actions + more).jobs
    ensures Run(cfg, actions + more).jobs[j].plans == Run(cfg, actions).jobs[j].plans
    ensures Count(Run(cfg, actions + more).jobs[j].log, IsPlanApproval) == 1
    decreases |more|
  {
    if |more| == 0 {
      assert actions + more == actions;
    } else {
      var earlier, last := more[..|more| - 1], more[|more| - 1];
      ApprovedPlanStands(cfg, actions, earlier, j);
      RunOn(cfg, actions, more);
      JobOf(cfg, actions + earlier, j);
      PlansStandHere(cfg, Run(cfg, actions + earlier), last, j);
    }
  }

  /** A longer run is one step beyond the run before it. */
  lemma RunOn(cfg: Config, actions: seq<Action>, more: seq<Action>)
    requires |more| > 0
    ensures Run(cfg, actions + more) == SysNext(cfg, Run(cfg, actions + more[..|more| - 1]), more[|more| - 1])
  {
    assert (actions + more)[..|actions + more| - 1] == actions + more[..|more| - 1];
  }

  lemma PlansStandHere(cfg: Config, s: Sys, a: Action, j: nat)
    requires SysInv(cfg, s) && j in s.jobs && Count(s.jobs[j].log, IsPlanApproval) == 1
    ensures var next := SysNext(cfg, s, a);
            j in next.jobs && next.jobs[j].plans == s.jobs[j].plans && Count(next.jobs[j].log, IsPlanApproval) == 1
  {
    StepKeeps(cfg, s, a);
    ReachableLanesKeepPromises(cfg, View(s, j));
    PlansStandOneStep(cfg, View(s, j), View(SysNext(cfg, s, a), j));
  }

  lemma PlansStandOneStep(cfg: Config, ln: Lane, next: Lane)
    requires LaneInv(cfg, ln) && LaneStep(cfg, ln, next) && Count(ln.job.log, IsPlanApproval) == 1
    ensures next.job.plans == ln.job.plans && Count(next.job.log, IsPlanApproval) == 1
  {
    if next != ln {
      var a :| next == LaneNext(cfg, ln, a);
      Builds.PlansFrozen(cfg, ln, a);
      Gates.StepLogs(cfg, ln, a);
      Gates.GatesKept(ln, next);
    }
  }

  /**
   * Feedback when the work is presented: every row that was there at OPEN_PR's
   * guard is older than the newest work run, and it was in some work run's prompt
   * exactly if it did not arrive in the middle of a pass.
   */
  lemma FeedbackReachesAPrompt(cfg: Config, actions: seq<Action>, t: nat, reply: Reply, i: nat)
    requires Presenting(Run(cfg, actions), t) && i < Run(cfg, actions).running[t].known
    ensures Accounted(SysNext(cfg, Run(cfg, actions), Action.Finish(t, reply)), Run(cfg, actions).tasks[t].jobId, i)
  {
    Reachable(cfg, actions);
    FeedbackAccounted(cfg, Run(cfg, actions), t, reply, i);
  }

  predicate Presenting(s: Sys, t: nat) {
    Held(s, t) && s.tasks[t].kind == OpenPr && s.running[t].Working?
  }

  predicate Accounted(s: Sys, j: nat, i: nat) {
    j in s.jobs && RowAccounted(s.jobs[j], i)
  }

  predicate RowAccounted(job: Job, i: nat) {
    i < |job.feedback| && job.feedback[i] < Feedback.LastWork(job)
    && (Feedback.Prompted(job, i) <==> !Feedback.Skipped(job, i))
  }

  lemma PresentedLane(cfg: Config, ln: Lane, reply: Reply, retry: bool, i: nat)
    requires LaneReachable(cfg, ln) && ln.kind == OpenPr && ln.handler.Some? && ln.handler.value.Working?
    requires i < ln.handler.value.known
    ensures RowAccounted(Ending(Stages.Finish(ln.job, ln.kind, cfg, reply), ln.kind, retry).job, i)
  {
    ReachableLanesKeepPromises(cfg, ln);
    Feedback.PresentedFeedback(cfg, ln, reply, retry, i);
  }

  lemma FinishIsEnd(cfg: Config, s: Sys, t: nat, reply: Reply)
    requires Held(s, t) && MayFinish(LaneAt(s, s.tasks[t].jobId, t))
    ensures SysNext(cfg, s, Action.Finish(t, reply))
            == EndTask(cfg, s, t, Stages.Finish(s.jobs[s.tasks[t].jobId], s.tasks[t].kind, cfg, reply))
  {
  }

  lemma FeedbackAccounted(cfg: Config, s: Sys, t: nat, reply: Reply, i: nat)
    requires SysInv(cfg, s) && Presenting(s, t) && i < s.running[t].known
    ensures Accounted(SysNext(cfg, s, Action.Finish(t, reply)), s.tasks[t].jobId, i)
  {
    var j := s.tasks[t].jobId;
    HandlersMatchTasks(cfg, s, t);
    var lane := View(s, j);
    PresentedLane(cfg, lane, reply, Q.WillRetry(s.tasks[t]), i);
    var outcome := Stages.Finish(s.jobs[j], s.tasks[t].kind, cfg, reply);
    AccountedAfter(cfg, s, t, outcome, i);
    FinishIsEnd(cfg, s, t, reply);
  }

  lemma AccountedAfter(cfg: Config, s: Sys, t: nat, outcome: Outcome, i: nat)
    requires SysInv(cfg, s) && Held(s, t)
    requires RowAccounted(Ending(outcome, s.tasks[t].kind, Q.WillRetry(s.tasks[t])).job, i)
    ensures Accounted(EndTask(cfg, s, t, outcome), s.tasks[t].jobId, i)
  {
    HandlersMatchTasks(cfg, s, t);
    EndTaskMoves(cfg, s, t, outcome);
    assert View(EndTask(cfg, s, t, outcome), s.tasks[t].jobId) == Ending(outcome, s.tasks[t].kind, Q.WillRetry(s.tasks[t]));
  }

  /** Retry arithmetic in the running system: only restarts stretch the attempt budget. */
  lemma {:induction false} AttemptsStayBounded(cfg: Config, actions: seq<Action>)
    ensures Q.TableAttemptsOk(Run(cfg, actions).tasks, Run(cfg, actions).restarts)
  {
    if |actions| > 0 {
      AttemptsStayBounded(cfg, actions[..|actions| - 1]);
      AttemptsStep(cfg, Run(cfg, actions[..|actions| - 1]), actions[|actions| - 1]);
    }
  }

  lemma EndTaskAttempts(cfg: Config, s: Sys, t: nat, outcome: Outcome)
    requires Q.TableAttemptsOk(s.tasks, s.restarts) && t < |s.tasks| && s.tasks[t].jobId in s.jobs
    ensures Q.TableAttemptsOk(EndTask(cfg, s, t, outcome).tasks, s.restarts)
  {
    match outcome
    case Thrown(_) =>
      Q.ExecuteKeepsAttempts(s.tasks, Q.FailStmt(t), s.now, cfg.lockTtl, cfg.backoffBase, s.restarts);
      Q.ExecuteKeepsAttempts(Q.Fail(s.tasks, t, s.now, cfg.backoffBase), Q.CancelStmt(s.tasks[t].jobId),
                             s.now, cfg.lockTtl, cfg.backoffBase, s.restarts);
    case Committed(_, None) =>
      Q.ExecuteKeepsAttempts(s.tasks, Q.CompleteStmt(t), s.now, cfg.lockTtl, cfg.backoffBase, s.restarts);
    case Committed(_, Some(kind)) =>
      var stmt := Q.EnqueueStmt(s.tasks[t].jobId, kind, cfg.maxAttempts);
      Q.ExecuteKeepsAttempts(s.tasks, stmt, s.now, cfg.lockTtl, cfg.backoffBase, s.restarts);
      Q.ExecuteKeepsAttempts(Q.Execute(s.tasks, stmt, s.now, cfg.lockTtl, cfg.backoffBase), Q.CompleteStmt(t),
                             s.now, cfg.lockTtl, cfg.backoffBase, s.restarts);
  }

  lemma ThrowAttempts(cfg: Config, s: Sys, t: nat)
    requires Q.TableAttemptsOk(s.tasks, s.restarts) && Held(s, t)
    ensures Q.TableAttemptsOk(FailTask(cfg, s, t).tasks, s.restarts)
  {
    ThrowIsEnd(cfg, s, t);
    EndTaskAttempts(cfg, s, t, Thrown(s.jobs[s.tasks[t].jobId]));
  }

  lemma AnswerAttempts(cfg: Config, s: Sys, j: nat, act: HumanAct, answer: Stages.Answer)
    requires Q.TableAttemptsOk(s.tasks, s.restarts) && j in s.jobs && answer == System.Answer(cfg, s, j, act)
    ensures Q.TableAttemptsOk(System.Answered(cfg, s, j, act).tasks, s.restarts)
  {
    if answer.Accepted? && answer.next.Some? {
      Q.ExecuteKeepsAttempts(s.tasks, Q.EnqueueStmt(j, answer.next.value, cfg.maxAttempts),
                             s.now, cfg.lockTtl, cfg.backoffBase, s.restarts);
    }
  }

  lemma BeginAttempts(cfg: Config, s: Sys, t: nat, discovered: Option<string>)
    requires Q.TableAttemptsOk(s.tasks, s.restarts)
    ensures Q.TableAttemptsOk(SysNext(cfg, s, Action.Begin(t, discovered)).tasks, s.restarts)
  {
    if Held(s, t) && s.running[t] == Claimed {
      var begun := Stages.Begin(s.jobs[s.tasks[t].jobId], s.tasks[t].kind, discovered);
      if begun.Ended? {
        EndTaskAttempts(cfg, s, t, begun.outcome);
      }
    }
  }

  lemma FinishAttempts(cfg: Config, s: Sys, t: nat, reply: Reply)
    requires Q.TableAttemptsOk(s.tasks, s.restarts)
    ensures Q.TableAttemptsOk(SysNext(cfg, s, Action.Finish(t, reply)).tasks, s.restarts)
  {
    if Held(s, t) {
      EndTaskAttempts(cfg, s, t, Stages.Finish(s.jobs[s.tasks[t].jobId], s.tasks[t].kind, cfg, reply));
    }
  }

  lemma ClaimAttempts(cfg: Config, s: Sys, rows: set<nat>)
    requires Q.TableAttemptsOk(s.tasks, s.restarts)
    ensures Q.TableAttemptsOk(SysNext(cfg, s, ClaimBatch(rows)).tasks, s.restarts)
  {
    Q.ExecuteKeepsAttempts(s.tasks, Q.ClaimStmt(cfg.concurrency - |s.running|, rows, s.restarts),
                           s.now, cfg.lockTtl, cfg.backoffBase, s.restarts);
  }

  lemma RestartAttempts(cfg: Config, s: Sys)
    requires Q.TableAttemptsOk(s.tasks, s.restarts)
    ensures Q.TableAttemptsOk(Q.ReclaimOrphaned(s.tasks, s.now), s.restarts + 1)
  {
    Q.ExecuteKeepsAttempts(s.tasks, Q.ReclaimStmt, s.now, cfg.lockTtl, cfg.backoffBase, s.restarts);
  }

  lemma ExpireAttempts(cfg: Config, s: Sys)
    requires Q.TableAttemptsOk(s.tasks, s.restarts)
    ensures Q.TableAttemptsOk(Expire(cfg, s).tasks, s.restarts)
  {
  }

  lemma AttemptsStep(cfg: Config, s: Sys, a: Action)
    requires Q.TableAttemptsOk(s.tasks, s.restarts)
    ensures Q.TableAttemptsOk(SysNext(cfg, s, a).tasks, SysNext(cfg, s, a).restarts)
  {
    match a
    case Create(j, _) =>
      Q.ExecuteKeepsAttempts(s.tasks, Q.EnqueueStmt(j, Plan, cfg.maxAttempts), s.now, cfg.lockTtl, cfg.backoffBase, s.restarts);
    case ClaimBatch(rows) => ClaimAttempts(cfg, s, rows);
    case Heartbeat(t) =>
    case Tick(_) =>
    case RunAgent(_) =>
    case ExpireStale => ExpireAttempts(cfg, s);
    case Restart => RestartAttempts(cfg, s);
    case Begin(t, discovered) => BeginAttempts(cfg, s, t, discovered);
    case Finish(t, reply) => FinishAttempts(cfg, s, t, reply);
    case Throw(t) => if Held(s, t) { ThrowAttempts(cfg, s, t); }
    case Ask(j, act) => if j in s.jobs { AnswerAttempts(cfg, s, j, act, System.Answer(cfg, s, j, act)); }
  }
}
