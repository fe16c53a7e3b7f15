/**
 * Two runs that show where a promise ends, each from an empty database: feedback
 * that nobody is told about, and a VERIFY that cannot be run again.
 */
module Witnesses {
  import opened Common
  import opened Jobs
  import opened Stages
  import opened Lanes
  import opened System
  import Q = Queue
  import Feedback
  import Pipeline
  import Reviews
  import Texts

  // ── One job in the factory, step by step ───────────────────────────────────

  function NewTask(cfg: Config, kind: TaskKind): Q.Task {
    Q.Task(0, kind, Q.Pending, 0, cfg.maxAttempts, 0, 0, None, None)
  }

  predicate AllDone(tasks: seq<Q.Task>) {
    forall k :: 0 <= k < |tasks| ==> tasks[k].jobId == 0 && tasks[k].status == Q.TaskDone
  }

  /** Only job 0 exists, at time 0. */
  predicate Alone(s: Sys, job: Job) {
    s.jobs == map[0 := job] && s.now == 0
  }

  /** Its next task waits. */
  predicate Waiting(cfg: Config, s: Sys, job: Job, kind: TaskKind) {
    Alone(s, job) && s.running == map[]
    && |s.tasks| > 0 && AllDone(s.tasks[..|s.tasks| - 1]) && s.tasks[|s.tasks| - 1] == NewTask(cfg, kind)
  }

  /** It waits for a human. */
  predicate Parked(s: Sys, job: Job) {
    Alone(s, job) && s.running == map[] && AllDone(s.tasks)
  }

  /** Its newest task is in a handler's hands. */
  predicate InHand(s: Sys, job: Job, kind: TaskKind, h: Handler) {
    Alone(s, job)
    && |s.tasks| > 0 && AllDone(s.tasks[..|s.tasks| - 1])
    && (var t := s.tasks[|s.tasks| - 1]; t.jobId == 0 && t.kind == kind && t.status == Q.Running)
    && s.running == map[|s.tasks| - 1 := h]
  }

  lemma OneMore(cfg: Config, actions: seq<Action>, a: Action)
    ensures Run(cfg, actions + [a]) == SysNext(cfg, Run(cfg, actions), a)
  {
    assert (actions + [a])[..|actions|] == actions;
  }

  lemma OnlyTheLastIsDue(cfg: Config, s: Sys, job: Job, kind: TaskKind)
    requires Waiting(cfg, s, job, kind)
    ensures Q.EligibleRows(s.tasks, s.now, cfg.lockTtl) == {(|s.tasks| - 1) as nat}
  {
    forall k: nat | k < |s.tasks| ensures Q.Eligible(s.tasks, k, 0, cfg.lockTtl) <==> k == |s.tasks| - 1 {
      if k < |s.tasks| - 1 {
        assert s.tasks[k] == s.tasks[..|s.tasks| - 1][k];
      }
    }
  }

  lemma ClaimStep(cfg: Config, s: Sys, job: Job, kind: TaskKind, rows: set<nat>)
    requires Waiting(cfg, s, job, kind) && cfg.concurrency >= 1 && rows == {(|s.tasks| - 1) as nat}
    ensures InHand(SysNext(cfg, s, ClaimBatch(rows)), job, kind, Claimed)
  {
    OnlyTheLastIsDue(cfg, s, job, kind);
    AllIsTop(s.tasks, rows, cfg.concurrency - |s.running|);
    Pipeline.ClaimHappens(cfg, s, rows);
    ClaimedInHand(cfg, s, job, kind, rows);
  }

  lemma ClaimedInHand(cfg: Config, s: Sys, job: Job, kind: TaskKind, rows: set<nat>)
    requires Waiting(cfg, s, job, kind) && rows == {(|s.tasks| - 1) as nat}
    ensures InHand(Pipeline.AfterClaim(s, rows), job, kind, Claimed)
  {
    LastRowClaimed(s.tasks, rows, s.restarts, s.now);
    assert Pipeline.AfterClaim(s, rows).running == map[|s.tasks| - 1 := Claimed];
  }

  lemma AllIsTop(tasks: seq<Q.Task>, rows: set<nat>, limit: int)
    requires |rows| == 1 <= limit && forall i :: i in rows ==> i < |tasks|
    ensures Q.IsTop(tasks, rows, limit, rows)
  {
  }

  lemma LastRowClaimed(tasks: seq<Q.Task>, rows: set<nat>, worker: nat, now: int)
    requires |tasks| > 0 && rows == {(|tasks| - 1) as nat}
    ensures var after := Q.ClaimRows(tasks, rows, worker, now);
            |after| == |tasks| && after[..|tasks| - 1] == tasks[..|tasks| - 1]
            && after[|tasks| - 1] == Q.Claimed(tasks[|tasks| - 1], worker, now)
  {
  }

  lemma BeginStep(cfg: Config, s: Sys, job: Job, kind: TaskKind, discovered: Option<string>, moved: Job, h: Handler)
    requires InHand(s, job, kind, Claimed) && Stages.Begin(job, kind, discovered) == Proceed(moved, h)
    ensures InHand(SysNext(cfg, s, Action.Begin(|s.tasks| - 1, discovered)), moved, kind, h)
  {
    var next := s.(jobs := s.jobs[0 := moved], running := s.running[|s.tasks| - 1 := h]);
    assert SysNext(cfg, s, Action.Begin(|s.tasks| - 1, discovered)) == next;
  }

  lemma RunStep(cfg: Config, s: Sys, job: Job, kind: TaskKind, h: Handler)
    requires InHand(s, job, kind, h) && kind in WORK_PHASES && h.Working? && h.attempts < MaxRuns(cfg)
    ensures InHand(SysNext(cfg, s, Action.RunAgent(|s.tasks| - 1)), AddRun(job, kind, h), kind, h.(attempts := h.attempts + 1))
  {
    var c: nat := |s.tasks| - 1;
    assert LaneAt(s, 0, c) == Lane(job, kind, Q.Running, Some(h));
    assert SysNext(cfg, s, Action.RunAgent(c))
           == s.(jobs := s.jobs[0 := AddRun(job, kind, h)], running := s.running[c := h.(attempts := h.attempts + 1)]);
  }

  lemma FinishStep(cfg: Config, s: Sys, job: Job, kind: TaskKind, h: Handler, reply: Reply)
    requires InHand(s, job, kind, h) && h.Working? && (kind in WORK_PHASES ==> h.attempts >= 1)
    ensures SysNext(cfg, s, Action.Finish(|s.tasks| - 1, reply)) == EndTask(cfg, s, |s.tasks| - 1, Stages.Finish(job, kind, cfg, reply))
  {
    assert LaneAt(s, 0, |s.tasks| - 1) == Lane(job, kind, Q.Running, Some(h));
  }

  /** The end of a stage: its task is done, and the next one waits or a human is waited for. */
  lemma EndStep(cfg: Config, s: Sys, job: Job, kind: TaskKind, h: Handler, end: Job, follow: Option<TaskKind>)
    requires InHand(s, job, kind, h)
    ensures var after := EndTask(cfg, s, |s.tasks| - 1, Committed(end, follow));
            (follow.Some? ==> Waiting(cfg, after, end, follow.value)) && (follow.None? ==> Parked(after, end))
  {
    var c: nat := |s.tasks| - 1;
    forall k | 0 <= k < c ensures s.tasks[k].jobId == 0 && s.tasks[k].status == Q.TaskDone {
      assert s.tasks[..c][k] == s.tasks[k];
    }
    var after := EndTask(cfg, s, c, Committed(end, follow));
    assert after.running == map[];
    if follow.Some? {
      assert Q.Enqueue(s.tasks, 0, follow.value, 0, cfg.maxAttempts) == s.tasks + [NewTask(cfg, follow.value)];
      assert after.tasks[..|s.tasks|] == Q.Complete(s.tasks, c);
    }
  }

  lemma AskStep(cfg: Config, s: Sys, job: Job, act: HumanAct, moved: Job, kind: TaskKind)
    requires Parked(s, job) && act !in {Retry, Cancel}
    requires AnswerTo(cfg, Lane(job, Plan, Q.TaskDone, None), act) == Accepted(moved, Some(kind))
    ensures Waiting(cfg, SysNext(cfg, s, Action.Ask(0, act)), moved, kind)
  {
    assert System.Answer(cfg, s, 0, act) == Accepted(moved, Some(kind));
    assert Q.Enqueue(s.tasks, 0, kind, 0, cfg.maxAttempts) == s.tasks + [NewTask(cfg, kind)];
    assert (s.tasks + [NewTask(cfg, kind)])[..|s.tasks|] == s.tasks;
  }

  lemma CommentStep(cfg: Config, s: Sys, job: Job, kind: TaskKind, h: Handler)
    requires InHand(s, job, kind, h) && job.hasPr
    ensures InHand(SysNext(cfg, s, Action.Ask(0, RecordFeedback)), AddFeedback(job), kind, h)
  {
    assert System.Answer(cfg, s, 0, RecordFeedback) == Accepted(AddFeedback(job), None);
    assert SysNext(cfg, s, Action.Ask(0, RecordFeedback)) == s.(jobs := s.jobs[0 := AddFeedback(job)]);
  }

  // ── The same steps, at the end of a run ────────────────────────────────────

  lemma Claims(cfg: Config, actions: seq<Action>, job: Job, kind: TaskKind) returns (next: seq<Action>)
    requires Waiting(cfg, Run(cfg, actions), job, kind) && cfg.concurrency >= 1
    ensures InHand(Run(cfg, next), job, kind, Claimed)
  {
    var s := Run(cfg, actions);
    var rows := {(|s.tasks| - 1) as nat};
    ClaimStep(cfg, s, job, kind, rows);
    next := actions + [ClaimBatch(rows)];
    OneMore(cfg, actions, ClaimBatch(rows));
  }

  lemma Begins(cfg: Config, actions: seq<Action>, job: Job, kind: TaskKind, discovered: Option<string>, moved: Job, h: Handler)
    returns (next: seq<Action>)
    requires InHand(Run(cfg, actions), job, kind, Claimed) && Stages.Begin(job, kind, discovered) == Proceed(moved, h)
    ensures InHand(Run(cfg, next), moved, kind, h)
  {
    var a := Action.Begin(|Run(cfg, actions).tasks| - 1, discovered);
    BeginStep(cfg, Run(cfg, actions), job, kind, discovered, moved, h);
    next := actions + [a];
    OneMore(cfg, actions, a);
  }

  lemma Runs(cfg: Config, actions: seq<Action>, job: Job, kind: TaskKind, h: Handler) returns (next: seq<Action>)
    requires InHand(Run(cfg, actions), job, kind, h) && kind in WORK_PHASES && h.Working? && h.attempts < MaxRuns(cfg)
    ensures InHand(Run(cfg, next), AddRun(job, kind, h), kind, h.(attempts := h.attempts + 1))
  {
    var a := Action.RunAgent(|Run(cfg, actions).tasks| - 1);
    RunStep(cfg, Run(cfg, actions), job, kind, h);
    next := actions + [a];
    OneMore(cfg, actions, a);
  }

  lemma Finishes(cfg: Config, actions: seq<Action>, job: Job, kind: TaskKind, h: Handler, reply: Reply, end: Job, follow: Option<TaskKind>)
    returns (next: seq<Action>)
    requires InHand(Run(cfg, actions), job, kind, h) && h.Working? && (kind in WORK_PHASES ==> h.attempts >= 1)
    requires Stages.Finish(job, kind, cfg, reply) == Committed(end, follow)
    ensures follow.Some? ==> Waiting(cfg, Run(cfg, next), end, follow.value)
    ensures follow.None? ==> Parked(Run(cfg, next), end)
  {
    var a := Action.Finish(|Run(cfg, actions).tasks| - 1, reply);
    FinishStep(cfg, Run(cfg, actions), job, kind, h, reply);
    EndStep(cfg, Run(cfg, actions), job, kind, h, end, follow);
    next := actions + [a];
    OneMore(cfg, actions, a);
  }

  lemma Asks(cfg: Config, actions: seq<Action>, job: Job, act: HumanAct, moved: Job, kind: TaskKind) returns (next: seq<Action>)
    requires Parked(Run(cfg, actions), job) && act !in {Retry, Cancel}
    requires AnswerTo(cfg, Lane(job, Plan, Q.TaskDone, None), act) == Accepted(moved, Some(kind))
    ensures Waiting(cfg, Run(cfg, next), moved, kind)
  {
    AskStep(cfg, Run(cfg, actions), job, act, moved, kind);
    next := actions + [Action.Ask(0, act)];
    OneMore(cfg, actions, Action.Ask(0, act));
  }

  lemma Comments(cfg: Config, actions: seq<Action>, job: Job, kind: TaskKind, h: Handler) returns (next: seq<Action>)
    requires InHand(Run(cfg, actions), job, kind, h) && job.hasPr
    ensures InHand(Run(cfg, next), AddFeedback(job), kind, h)
  {
    CommentStep(cfg, Run(cfg, actions), job, kind, h);
    next := actions + [Action.Ask(0, RecordFeedback)];
    OneMore(cfg, actions, Action.Ask(0, RecordFeedback));
  }

  // ── From an issue to its pull request ──────────────────────────────────────

  /** What matters of the job on its way. */
  predicate At(job: Job, state: JobState, hasPr: bool, runs: seq<WorkRun>, feedback: seq<nat>, stamp: nat) {
    !job.dashboard && job.state == state && job.hasPr == hasPr && job.command == "" && job.verifyRuns == []
    && job.runs == runs && job.feedback == feedback && job.stamp == stamp
  }

  const PASSED := Reply("the plan", Green, Green, Some(Reviews.RawReview(Some(Reviews.Pass), None, [])), false)

  lemma Planned(cfg: Config) returns (next: seq<Action>, job: Job)
    requires cfg.concurrency >= 1
    ensures Parked(Run(cfg, next), job) && At(job, AwaitingPlanApproval, false, [], [], 0)
  {
    Created(cfg);
    var first := NewJob(false);
    next := Claims(cfg, [Create(0, false)], first, Plan);
    var planning := first.(state := Planning, log := first.log + [Entry(Some(Triaged), Planning, Agent)]);
    next := Begins(cfg, next, first, Plan, None, planning, Working(0, {}, 0, 0));
    job := Stages.Finish(planning, Plan, cfg, PASSED).job;
    PlanDrafted(cfg, planning);
    next := Finishes(cfg, next, planning, Plan, Working(0, {}, 0, 0), PASSED, job, None);
  }

  lemma Created(cfg: Config)
    ensures Waiting(cfg, Run(cfg, [Create(0, false)]), NewJob(false), Plan)
  {
    var start := [Create(0, false)];
    OneMore(cfg, [], Create(0, false));
    assert [] + start == start;
    assert Run(cfg, start).tasks == [NewTask(cfg, Plan)];
  }

  lemma PlanDrafted(cfg: Config, planning: Job)
    requires At(planning, Planning, false, [], [], 0)
    ensures var end := Stages.Finish(planning, Plan, cfg, PASSED);
            end == Committed(end.job, None) && At(end.job, AwaitingPlanApproval, false, [], [], 0)
  {
  }

  const FIRST_RUN := WorkRun(Implement, 0, 0, {})

  lemma Implemented(cfg: Config) returns (next: seq<Action>, job: Job)
    requires cfg.concurrency >= 1
    ensures Waiting(cfg, Run(cfg, next), job, Verify) && At(job, Verifying, false, [FIRST_RUN], [], 1)
  {
    var planned;
    next, planned := Planned(cfg);
    var approved := Stages.Approve(planned).job;
    next := Asks(cfg, next, planned, HumanAct.Approve, approved, Implement);
    next := Claims(cfg, next, approved, Implement);
    var h := Working(0, {}, 0, 0);
    assert Stages.Begin(approved, Implement, None) == Proceed(approved, h);
    next := Begins(cfg, next, approved, Implement, None, approved, h);
    next := Runs(cfg, next, approved, Implement, h);
    var ran := AddRun(approved, Implement, h);
    job := Stages.Finish(ran, Implement, cfg, PASSED).job;
    next := Finishes(cfg, next, ran, Implement, h.(attempts := 1), PASSED, job, Some(Verify));
  }

  lemma Checked(cfg: Config) returns (next: seq<Action>, job: Job)
    requires cfg.concurrency >= 1
    ensures Waiting(cfg, Run(cfg, next), job, Review) && At(job, SelfReviewing, false, [FIRST_RUN], [], 1)
  {
    var built;
    next, built := Implemented(cfg);
    next := Claims(cfg, next, built, Verify);
    var h := Working(1, {}, 0, 0);
    next := Begins(cfg, next, built, Verify, None, built, h);
    job := Stages.Finish(built, Verify, cfg, PASSED).job;
    next := Finishes(cfg, next, built, Verify, h, PASSED, job, Some(Review));
  }

  lemma PassedReview(cfg: Config, job: Job)
    requires At(job, SelfReviewing, false, [FIRST_RUN], [], 1)
    ensures var end := Stages.Finish(job, Review, cfg, PASSED);
            end == Committed(end.job, Some(OpenPr)) && At(end.job, OpeningPr, false, [FIRST_RUN], [], 1)
  {
    Reviews.GateIsTheRubric(PASSED.review.value, None);
  }

  lemma Reviewed(cfg: Config) returns (next: seq<Action>, job: Job)
    requires cfg.concurrency >= 1
    ensures Waiting(cfg, Run(cfg, next), job, OpenPr) && At(job, OpeningPr, false, [FIRST_RUN], [], 1)
  {
    var checked;
    next, checked := Checked(cfg);
    next := Claims(cfg, next, checked, Review);
    var h := Working(1, {}, 0, 0);
    next := Begins(cfg, next, checked, Review, None, checked, h);
    PassedReview(cfg, checked);
    job := Stages.Finish(checked, Review, cfg, PASSED).job;
    next := Finishes(cfg, next, checked, Review, h, PASSED, job, Some(OpenPr));
  }

  lemma Presented(cfg: Config) returns (next: seq<Action>, job: Job)
    requires cfg.concurrency >= 1
    ensures Parked(Run(cfg, next), job) && At(job, AwaitingPrApproval, true, [FIRST_RUN], [], 1)
  {
    var reviewed;
    next, reviewed := Reviewed(cfg);
    next := Claims(cfg, next, reviewed, OpenPr);
    var h := Working(1, {}, 0, 0);
    assert Unaddressed(reviewed) == {};
    next := Begins(cfg, next, reviewed, OpenPr, None, reviewed, h);
    job := Stages.Finish(reviewed, OpenPr, cfg, PASSED).job;
    next := Finishes(cfg, next, reviewed, OpenPr, h, PASSED, job, None);
  }

  // ── The two witnesses ──────────────────────────────────────────────────────

  const REVISE_RUN := WorkRun(Revise, 2, 2, {0})

  /** Changes are requested, and REVISE has run its agent once. */
  lemma Revising(cfg: Config) returns (next: seq<Action>, job: Job)
    requires cfg.concurrency >= 1
    ensures InHand(Run(cfg, next), job, Revise, Working(2, {0}, 1, 1))
    ensures At(job, JobState.Revising, true, [FIRST_RUN, REVISE_RUN], [1], 3)
  {
    var presented;
    next, presented := Presented(cfg);
    var asked := Stages.RequestChanges(presented).job;
    next := Asks(cfg, next, presented, HumanAct.RequestChanges, asked, Revise);
    next := Claims(cfg, next, asked, Revise);
    assert asked.feedback == [1] && Unaddressed(asked) == {0};
    var h := Working(2, {0}, 1, 0);
    next := Begins(cfg, next, asked, Revise, None, asked, h);
    next := Runs(cfg, next, asked, Revise, h);
    job := AddRun(asked, Revise, h);
  }

  lemma SecondRowIsLost(job: Job)
    requires job.feedback == [1, 3] && job.runs == [FIRST_RUN, REVISE_RUN, WorkRun(Revise, 4, 2, {0})]
    ensures job.feedback[1] < Feedback.LastWork(job)
    ensures Feedback.Prompted(job, 0) && Feedback.Skipped(job, 1) && !Feedback.Prompted(job, 1)
  {
    assert 0 in job.runs[1].prompt;
    assert Feedback.SkippedBy(job.runs[2], job.feedback[1]);
  }

  /**
   * An issue's job is presented, changes are requested, REVISE runs its agent once, a
   * comment comes in, and the agent runs again: the comment is older than the last
   * work run and was in nobody's prompt.
   */
  lemma MidPassFeedbackIsLost(cfg: Config) returns (actions: seq<Action>)
    requires cfg.concurrency >= 1 && cfg.maxCompletionRetries >= 1
    ensures 0 in Run(cfg, actions).jobs
    ensures var job := Run(cfg, actions).jobs[0];
            |job.feedback| == 2 && job.feedback[1] < Feedback.LastWork(job)
            && Feedback.Prompted(job, 0) && Feedback.Skipped(job, 1) && !Feedback.Prompted(job, 1)
  {
    var ran;
    actions, ran := Revising(cfg);
    var h := Working(2, {0}, 1, 1);
    actions := Comments(cfg, actions, ran, Revise, h);
    actions := Runs(cfg, actions, AddFeedback(ran), Revise, h);
    SecondRowIsLost(AddRun(AddFeedback(ran), Revise, h));
  }

  lemma GreenVerifyMoves(cfg: Config, job: Job)
    requires job.state == Verifying && job.command != ""
    ensures var moved := Stages.Finish(job, Verify, cfg, PASSED).job;
            moved.state == SelfReviewing && Stages.Begin(moved, Verify, None) == Ended(Thrown(moved))
  {
  }

  /**
   * An issue's job is verified green: the writes of the stage move it to
   * SELF_REVIEWING, and if the process dies before the task is completed, the re-run
   * throws.
   */
  lemma GreenVerifyCannotRerun(cfg: Config) returns (actions: seq<Action>, t: nat)
    requires cfg.concurrency >= 1
    ensures var s := Run(cfg, actions);
            Held(s, t) && s.tasks[t].kind == Verify && MayFinish(LaneAt(s, s.tasks[t].jobId, t))
            && var moved := Stages.Finish(s.jobs[s.tasks[t].jobId], Verify, cfg, PASSED).job;
               moved.state == SelfReviewing && Stages.Begin(moved, Verify, None) == Ended(Thrown(moved))
  {
    var built;
    actions, built := Implemented(cfg);
    actions := Claims(cfg, actions, built, Verify);
    NpmTestIsTrimmed();
    var known := built.(command := "npm test");
    actions := Begins(cfg, actions, built, Verify, Some("npm test"), known, Working(1, {}, 0, 0));
    t := |Run(cfg, actions).tasks| - 1;
    GreenVerifyMoves(cfg, known);
  }

  lemma NpmTestIsTrimmed()
    ensures Texts.Trim("npm test") == "npm test" != ""
  {
    assert "npm test"[0] == 'n';
  }
}
