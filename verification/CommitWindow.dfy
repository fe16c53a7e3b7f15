/**
 * The window between a stage's last writes and the completion of its task. The
 * system takes both in one step; here they are split: the process dies after the
 * writes, the task is reclaimed, and the stage starts over on the moved job, beside
 * the successor that is queued already.
 */
module CommitWindow {
  import opened Common
  import opened Jobs
  import opened Stages
  import opened System
  import opened Tables
  import opened Pipeline
  import Lanes
  import Q = Queue

  /** The re-run finds its job in a state it can start from. */
  predicate CanStartOver(kind: TaskKind, state: JobState) {
    match kind
    case Plan => true
    case Implement => false
    case Verify => state == Revising
    case Review => state == SelfReviewing
    case Revise => true
    case OpenPr => true
  }

  /** A stage's first half throws exactly if the job cannot move to where the stage begins. */
  lemma BeginThrowsExactly(job: Job, kind: TaskKind, discovered: Option<string>)
    ensures Stages.Begin(job, kind, discovered) == Ended(Thrown(job)) <==>
              !Terminal(job.state)
              && match kind
                 case Revise => false
                 case OpenPr => Unaddressed(job) != {} && Transition(job, Revising, Agent).None?
                 case _ => Transition(job, StateFor(kind), Agent).None?
  {
  }

  /** The states a stage of a live job can leave it in. */
  function LeadsTo(kind: TaskKind): set<JobState> {
    match kind
    case Plan => {AwaitingPlanApproval}
    case Implement => {Verifying}
    case Revise => {Verifying}
    case Verify => {SelfReviewing, Revising, OpeningPr}
    case Review => {SelfReviewing, Revising, OpeningPr}
    case OpenPr => {AwaitingPrApproval}
  }

  lemma StagesLead(job: Job, kind: TaskKind, cfg: Config, reply: Reply)
    requires job.state == StateFor(kind)
    ensures Stages.Finish(job, kind, cfg, reply).Committed?
    ensures Stages.Finish(job, kind, cfg, reply).job.state in LeadsTo(kind)
  {
    match kind
    case Plan => case Implement => case Revise => case OpenPr =>
    case Verify => Lanes.VerifyMoves(job, cfg, reply.first, reply.second);
    case Review => Lanes.ReviewMoves(job, cfg, reply.review, reply.quotesSentinel);
  }

  lemma RerunFrom(moved: Job, kind: TaskKind, discovered: Option<string>)
    requires moved.state in LeadsTo(kind)
    ensures Stages.Begin(moved, kind, discovered) == Ended(Thrown(moved)) <==> !CanStartOver(kind, moved.state)
  {
    BeginThrowsExactly(moved, kind, discovered);
  }

  /** Exactly when a re-run throws instead of starting over, for every stage and every answer it was given. */
  lemma RerunThrowsExactly(job: Job, kind: TaskKind, cfg: Config, reply: Reply, discovered: Option<string>)
    requires job.state == StateFor(kind)
    ensures var end := Stages.Finish(job, kind, cfg, reply);
            end.Committed?
            && (Stages.Begin(end.job, kind, discovered) == Ended(Thrown(end.job)) <==> !CanStartOver(kind, end.job.state))
  {
    StagesLead(job, kind, cfg, reply);
    RerunFrom(Stages.Finish(job, kind, cfg, reply).job, kind, discovered);
  }

  // ── What becomes of the job ────────────────────────────────────────────────

  /** The process died after the stage's writes and before its task's completion, and the next one has started. */
  function Torn(cfg: Config, s: Sys, t: nat, moved: Job, next: TaskKind): Sys
    requires Held(s, t)
  {
    var j := s.tasks[t].jobId;
    AfterRestart(s.(jobs := s.jobs[j := moved], tasks := Q.Enqueue(s.tasks, j, next, s.now, cfg.maxAttempts)))
  }

  /** The interrupted task and its successor are both waiting, and nothing of theirs runs. */
  predicate BothWait(s: Sys, t: nat, u: nat) {
    t < u < |s.tasks| && s.tasks[t].jobId == s.tasks[u].jobId
    && s.tasks[t].status == Q.Pending && s.tasks[u].status == Q.Pending
    && s.tasks[t].runAt <= s.now && s.tasks[u].runAt <= s.now
    && forall k :: 0 <= k < |s.tasks| ==> s.tasks[k].status != Q.Running
  }

  lemma TornTasksWait(cfg: Config, s: Sys, t: nat, moved: Job, next: TaskKind)
    requires SysInv(cfg, s) && Held(s, t) && s.tasks[t].status == Q.Running
    ensures BothWait(Torn(cfg, s, t, moved, next), t, |s.tasks|)
    ensures StillTorn(Torn(cfg, s, t, moved, next), t, |s.tasks|, moved, s.tasks[t].attempts, s.tasks[t].maxAttempts)
    ensures Torn(cfg, s, t, moved, next).running == map[]
  {
    var j := s.tasks[t].jobId;
    OutstandingIsNewest(cfg, s, t);
    NoPendingRow(cfg, s, j, t);
    EnqueueAppends(s, j, next, cfg.maxAttempts);
  }

  /**
   * The claim looks for running tasks before it updates, so with room for all that is due
   * it takes both: two handlers of one job, which no run without the window ever has.
   */
  lemma TornJobRunsTwice(cfg: Config, s: Sys, t: nat, moved: Job, next: TaskKind)
    requires SysInv(cfg, s) && Held(s, t) && s.tasks[t].status == Q.Running
    ensures var torn := Torn(cfg, s, t, moved, next);
            var due := Q.EligibleRows(torn.tasks, torn.now, cfg.lockTtl);
            t in due && |s.tasks| in due
            && (|due| <= cfg.concurrency ==>
                  var claimed := SysNext(cfg, torn, ClaimBatch(due));
                  Held(claimed, t) && Held(claimed, |s.tasks|) && claimed.tasks[t].jobId == claimed.tasks[|s.tasks|].jobId)
  {
    var torn := Torn(cfg, s, t, moved, next);
    TornTasksWait(cfg, s, t, moved, next);
    assert Q.Eligible(torn.tasks, t, torn.now, cfg.lockTtl);
    assert Q.Eligible(torn.tasks, |s.tasks|, torn.now, cfg.lockTtl);
    if |Q.EligibleRows(torn.tasks, torn.now, cfg.lockTtl)| <= cfg.concurrency {
      AllAreTop(torn.tasks, Q.EligibleRows(torn.tasks, torn.now, cfg.lockTtl), cfg.concurrency);
    }
  }

  lemma AllAreTop(tasks: seq<Q.Task>, eligible: set<nat>, limit: int)
    requires (forall i :: i in eligible ==> i < |tasks|) && |eligible| <= limit
    ensures Q.IsTop(tasks, eligible, limit, eligible)
  {
  }

  /** A re-run that throws: nothing but the attempt is lost while attempts remain; then the job fails and its successor with it. */
  lemma ThrowingRerun(cfg: Config, s: Sys, t: nat, discovered: Option<string>)
    requires Held(s, t) && s.running[t] == Claimed
    requires var job := s.jobs[s.tasks[t].jobId];
             job.state in LeadsTo(s.tasks[t].kind) && !CanStartOver(s.tasks[t].kind, job.state)
    ensures SysNext(cfg, s, Action.Begin(t, discovered)) == AfterThrow(cfg, s, t)
  {
    var j := s.tasks[t].jobId;
    RerunFrom(s.jobs[j], s.tasks[t].kind, discovered);
    ThrowIsEnd(cfg, s, t);
    if !Q.WillRetry(s.tasks[t]) {
      assert Q.CancelForJob(Q.Fail(s.tasks, t, s.now, cfg.backoffBase), j) == AfterThrow(cfg, s, t).tasks;
      assert Exhaust(s.jobs[j]) == FailedJob(s.jobs[j]);
    }
  }

  function FailedJob(job: Job): Job {
    job.(state := Failed, log := job.log + [Entry(Some(job.state), Failed, Actor.System)])
  }

  function AfterThrow(cfg: Config, s: Sys, t: nat): Sys
    requires Held(s, t)
  {
    var j := s.tasks[t].jobId;
    if s.tasks[t].attempts < s.tasks[t].maxAttempts then
      s.(tasks := s.tasks[t := s.tasks[t].(status := Q.Pending, lockedAt := None, lockedBy := None,
                                           runAt := s.now + Q.BackoffMs(s.tasks[t].attempts, cfg.backoffBase))],
         running := s.running - {t})
    else
      s.(tasks := seq(|s.tasks|, k requires 0 <= k < |s.tasks| =>
                        if k == t then s.tasks[t].(status := Q.TaskFailed, lockedAt := None, lockedBy := None)
                        else if s.tasks[k].jobId == j && Q.Outstanding(s.tasks[k]) then s.tasks[k].(status := Q.TaskFailed)
                        else s.tasks[k]),
         jobs := s.jobs[j := FailedJob(s.jobs[j])],
         running := s.running - {t})
  }

  /** The worker claims the interrupted task at some time and begins it. */
  ghost function Rerun(cfg: Config, s: Sys, t: nat, now: int, discovered: Option<string>): Sys {
    SysNext(cfg, s.(tasks := Q.ClaimRows(s.tasks, {t}, s.restarts, now), running := s.running[t := Claimed], now := now),
            Action.Begin(t, discovered))
  }

  ghost function Reruns(cfg: Config, s: Sys, t: nat, times: seq<int>, discovered: Option<string>): Sys {
    if |times| == 0 then s else Rerun(cfg, Reruns(cfg, s, t, times[..|times| - 1], discovered), t, times[|times| - 1], discovered)
  }

  /** Both tasks still wait, the job is where the stage left it, and so many attempts are used. */
  predicate StillTorn(s: Sys, t: nat, u: nat, moved: Job, attempts: nat, maxAttempts: nat) {
    t < u < |s.tasks| && s.tasks[t].jobId == s.tasks[u].jobId && t !in s.running
    && s.tasks[t].status == Q.Pending && s.tasks[u].status == Q.Pending
    && s.tasks[t].jobId in s.jobs && s.jobs[s.tasks[t].jobId] == moved
    && s.tasks[t].attempts == attempts && s.tasks[t].maxAttempts == maxAttempts
  }

  /** The job has failed and its successor task with it. */
  predicate GivenUp(s: Sys, t: nat, u: nat, moved: Job) {
    t < u < |s.tasks| && s.tasks[t].jobId in s.jobs && s.jobs[s.tasks[t].jobId] == FailedJob(moved)
    && s.tasks[t].status == Q.TaskFailed && s.tasks[u].status == Q.TaskFailed
  }

  lemma OneRerun(cfg: Config, s: Sys, t: nat, u: nat, moved: Job, attempts: nat, max: nat, now: int, discovered: Option<string>)
    requires StillTorn(s, t, u, moved, attempts, max)
    requires moved.state in LeadsTo(s.tasks[t].kind) && !CanStartOver(s.tasks[t].kind, moved.state)
    ensures var next := Rerun(cfg, s, t, now, discovered);
            if attempts + 1 < max then StillTorn(next, t, u, moved, attempts + 1, max) && next.tasks[t].kind == s.tasks[t].kind
            else GivenUp(next, t, u, moved)
  {
    var held := s.(tasks := Q.ClaimRows(s.tasks, {t}, s.restarts, now), running := s.running[t := Claimed], now := now);
    ThrowingRerun(cfg, held, t, discovered);
  }

  /**
   * While the interrupted task is the one claimed, every re-run throws: the job and its
   * successor stay as they are for as long as attempts remain, and the re-run that uses up
   * the last one fails them all.
   */
  lemma {:induction false} RerunsUseUpTheAttempts(cfg: Config, s: Sys, t: nat, u: nat, moved: Job, attempts: nat, max: nat,
                                                  times: seq<int>, discovered: Option<string>)
    requires StillTorn(s, t, u, moved, attempts, max)
    requires moved.state in LeadsTo(s.tasks[t].kind) && !CanStartOver(s.tasks[t].kind, moved.state)
    requires |times| <= Max(1, max - attempts)
    ensures var end := Reruns(cfg, s, t, times, discovered);
            if |times| == Max(1, max - attempts) then GivenUp(end, t, u, moved)
            else StillTorn(end, t, u, moved, attempts + |times|, max) && end.tasks[t].kind == s.tasks[t].kind
  {
    if |times| > 0 {
      var earlier := times[..|times| - 1];
      RerunsUseUpTheAttempts(cfg, s, t, u, moved, attempts, max, earlier, discovered);
      OneRerun(cfg, Reruns(cfg, s, t, earlier, discovered), t, u, moved, attempts + |earlier|, max, times[|times| - 1], discovered);
    }
  }
}
