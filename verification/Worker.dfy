/**
 * The polling worker: it counts what is in flight, claims up to the free
 * capacity, and settles each task with the queue and the orchestrator. Its
 * methods are steps of the system, so everything proved of runs holds of it.
 */
module Worker {
  import opened Common
  import opened Jobs
  import opened Stages
  import opened Lanes
  import opened System
  import opened Services
  import Q = Queue
  import O = Orchestrator
  import Pipeline

  // ── Escalating several expired tasks one by one ────────────────────────────

  predicate JobAmong(tasks: seq<Q.Task>, expired: seq<nat>, jobId: nat)
    requires forall i :: 0 <= i < |expired| ==> expired[i] < |tasks|
  {
    exists i :: 0 <= i < |expired| && tasks[expired[i]].jobId == jobId
  }

  function EscalatedRow(task: Q.Task, hit: bool): Q.Task {
    if hit && Q.Outstanding(task) then task.(status := Q.TaskFailed) else task
  }

  function EscalatedJob(job: Job, hit: bool): Job {
    if hit then Exhaust(job) else job
  }

  class WorkerService {
    const prisma: Database
    const config: Config
    const queue: QueueService
    const orchestrator: O.OrchestratorService
    var workerId: nat
    var running: map<nat, Handler>
    var inflight: int

    function State(): Sys
      reads this, prisma
    {
      Sys(prisma.jobs, prisma.tasks, running, prisma.now, workerId)
    }

    ghost predicate Valid()
      reads this, prisma
    {
      queue.prisma == prisma && queue.config == config
      && orchestrator.prisma == prisma && orchestrator.config == config && orchestrator.Wired()
      && Pipeline.SysInv(config, State())
      && inflight == |running|
    }

    /** A worker over an empty database. */
    constructor (prisma: Database, config: Config)
      requires prisma.jobs == map[] && prisma.tasks == []
      ensures Valid() && this.prisma == prisma && this.config == config && running == map[]
    {
      this.prisma, this.config := prisma, config;
      this.queue := new QueueService(prisma, config);
      this.orchestrator := new O.OrchestratorService(prisma, config);
      workerId, running, inflight := 0, map[], 0;
    }

    /** A process start: nothing of the previous one is in flight, whatever it left RUNNING is due. */
    method OnModuleInit()
      requires Valid()
      modifies this`workerId, this`running, this`inflight, prisma`tasks
      ensures Valid() && State() == SysNext(config, old(State()), Action.Restart)
    {
      ghost var before := State();
      RestartKeeps(config, before);
      queue.ReclaimOrphaned();
      workerId, running, inflight := workerId + 1, map[], 0;
      assert State() == Pipeline.AfterRestart(before);
    }

    /** onTaskExhausted for each expired task in turn; a job hit twice is failed once. */
    method EscalateAll(expired: seq<nat>)
      requires orchestrator.prisma == prisma && orchestrator.Wired()
      requires forall i :: 0 <= i < |expired| ==> expired[i] < |prisma.tasks|
      requires forall k :: 0 <= k < |prisma.tasks| ==> prisma.tasks[k].jobId in prisma.jobs
      modifies prisma`jobs, prisma`tasks
      ensures Escalated(old(prisma.jobs), old(prisma.tasks), expired, prisma.jobs, prisma.tasks)
    {
      ghost var tasks, jobs := prisma.tasks, prisma.jobs;
      for i := 0 to |expired|
        invariant |prisma.tasks| == |tasks|
        invariant Escalated(jobs, tasks, expired[..i], prisma.jobs, prisma.tasks)
      {
        ghost var jobs1, tasks1 := prisma.jobs, prisma.tasks;
        var jobId := prisma.tasks[expired[i]].jobId;
        orchestrator.OnTaskExhausted(jobId);
        EscalateOneMore(jobs, tasks, expired, i, jobs1, tasks1);
      }
      assert expired[..|expired|] == expired;
    }

    /** The sweep at the head of a poll is the expiry step, however many tasks and jobs it hits. */
    method ExpireAndEscalate()
      requires queue.prisma == prisma && queue.config == config && orchestrator.prisma == prisma && orchestrator.Wired()
      requires forall k :: 0 <= k < |prisma.tasks| ==> prisma.tasks[k].jobId in prisma.jobs
      modifies prisma`jobs, prisma`tasks
      ensures State() == SysNext(config, old(State()), ExpireStale)
    {
      ghost var before := State();
      var expired := queue.ExpireExhaustedStale();
      EscalateAll(expired);
      SweepIsExpire(config, before, expired, prisma.jobs, prisma.tasks);
    }

    /** The sweep of a living worker: its heartbeats leave nothing to expire. */
    method Sweep()
      requires Valid()
      modifies prisma`jobs, prisma`tasks
      ensures Valid() && State() == SysNext(config, old(State()), ExpireStale) == old(State())
    {
      Pipeline.ExpireFindsNothing(config, State());
      ExpireAndEscalate();
    }

    /** One poll: expire and escalate, then claim what the free capacity allows. */
    method Poll() returns (rows: set<nat>)
      requires Valid()
      modifies this`running, this`inflight, prisma`jobs, prisma`tasks
      ensures Valid()
      ensures State() == SysNext(config, SysNext(config, old(State()), ExpireStale), ClaimBatch(rows))
      ensures |rows| == Min(Max(config.concurrency - old(inflight), 0), |Q.EligibleRows(old(prisma.tasks), prisma.now, config.lockTtl)|)
      ensures inflight == old(inflight) + |rows| <= Max(config.concurrency, 0)
    {
      Sweep();
      var capacity := config.concurrency - inflight;
      if capacity <= 0 {
        NoRoom(config, State(), {});
        return {};
      }
      rows := ClaimUpTo(capacity);
    }

    /** Claim up to the free capacity and count what was claimed as in flight. */
    method ClaimUpTo(capacity: int) returns (rows: set<nat>)
      requires Valid() && capacity == config.concurrency - inflight > 0
      modifies this`running, this`inflight, prisma`tasks
      ensures Valid() && State() == SysNext(config, old(State()), ClaimBatch(rows))
      ensures |rows| == Min(capacity, |Q.EligibleRows(old(prisma.tasks), prisma.now, config.lockTtl)|)
      ensures inflight == old(inflight) + |rows|
    {
      ghost var before := State();
      rows := queue.ClaimBatch(workerId, capacity);
      ClaimKeeps(config, before, rows);
      running := running + FreshHandlers(rows);
      inflight := inflight + |rows|;
    }

    /** The heartbeat of a task in flight. */
    method Heartbeat(t: nat)
      requires Valid() && Held(State(), t)
      modifies prisma`tasks
      ensures Valid() && State() == SysNext(config, old(State()), Action.Heartbeat(t))
    {
      Keeps(config, State(), Action.Heartbeat(t));
      queue.RefreshLock(t, workerId);
    }

    // ── process: one task from its claim to its settlement ───────────────────

    /** complete, or fail and escalate when no attempt is left; then the capacity is free again. */
    method Settle(t: nat, status: Status)
      requires queue.prisma == prisma && queue.config == config && orchestrator.prisma == prisma && orchestrator.Wired()
      requires Held(State(), t) && inflight == |running|
      modifies this`running, this`inflight, prisma`jobs, prisma`tasks
      ensures inflight == |running|
      ensures State() == if status.Success?
                         then old(State()).(tasks := Q.Complete(old(prisma.tasks), t), running := old(running) - {t})
                         else FailTask(config, old(State()), t)
    {
      var jobId := prisma.tasks[t].jobId;
      if status.Success? {
        queue.Complete(t);
      } else {
        var willRetry := queue.Fail(t);
        if !willRetry {
          orchestrator.OnTaskExhausted(jobId);
        }
      }
      assert running.Keys == (running - {t}).Keys + {t};
      assert |running| == |running.Keys| && |running - {t}| == |(running - {t}).Keys|;
      inflight := inflight - 1;
      running := running - {t};
    }

    /** processTask up to the stage's first wait; a stage that ends there is settled at once. */
    method BeginTask(t: nat, discovered: Option<string>)
      requires Valid() && Held(State(), t) && running[t] == Claimed
      modifies this`running, this`inflight, prisma`jobs, prisma`tasks
      ensures Valid() && State() == SysNext(config, old(State()), Action.Begin(t, discovered))
    {
      ghost var before := State();
      Keeps(config, before, Action.Begin(t, discovered));
      var jobId, kind := prisma.tasks[t].jobId, prisma.tasks[t].kind;
      var status, proceeding, handler := orchestrator.BeginStage(jobId, kind, discovered);
      if proceeding {
        assert |running[t := handler]| == |running| by {
          assert running[t := handler].Keys == running.Keys;
          assert |running| == |running.Keys| && |running[t := handler]| == |running[t := handler].Keys|;
        }
        running := running[t := handler];
        return;
      }
      SettleIsEnd(config, before, t, Stages.Begin(before.jobs[jobId], kind, discovered).outcome, State(), status);
      Settle(t, status);
    }

    /** The rest of the stage, once the agent or the command it waited for has answered. */
    method FinishTask(t: nat, reply: Reply)
      requires Valid() && Held(State(), t) && MayFinish(LaneAt(State(), prisma.tasks[t].jobId, t))
      modifies this`running, this`inflight, prisma`jobs, prisma`tasks
      ensures Valid() && State() == SysNext(config, old(State()), Action.Finish(t, reply))
    {
      ghost var before := State();
      FinishKeeps(config, before, t, reply);
      var jobId, kind := prisma.tasks[t].jobId, prisma.tasks[t].kind;
      var status := orchestrator.FinishStage(jobId, kind, reply);
      SettleIsEnd(config, before, t, Stages.Finish(before.jobs[jobId], kind, config, reply), State(), status);
      Settle(t, status);
    }

    /** A handler that throws while it waits. */
    method ThrowTask(t: nat)
      requires Valid() && Held(State(), t)
      modifies this`running, this`inflight, prisma`jobs, prisma`tasks
      ensures Valid() && State() == SysNext(config, old(State()), Action.Throw(t))
    {
      ThrowKeeps(config, State(), t);
      Settle(t, Threw);
    }

    /** A whole work pass under the completion judge: so many agent runs, then the stage's end. */
    method WorkPass(t: nat, script: seq<O.Attempt>, reply: Reply) returns (runs: nat)
      requires Valid() && Held(State(), t) && prisma.tasks[t].kind in WORK_PHASES
      requires running[t].Working? && running[t].attempts == 0 && |script| >= MaxRuns(config)
      modifies this`running, this`inflight, prisma`jobs, prisma`tasks
      ensures Valid() && 1 <= runs <= MaxRuns(config)
      ensures var threw := O.AttemptThrows(script[runs - 1], runs);
              State() == SysNext(config, Pipeline.RunAgents(config, old(State()), t, runs),
                                 if threw then Action.Throw(t) else Action.Finish(t, reply))
    {
      ghost var before := State();
      var jobId, kind, h := prisma.tasks[t].jobId, prisma.tasks[t].kind, running[t];
      var status;
      status, runs := orchestrator.RunWithCompletionLoop(jobId, kind, h, script);
      running := running[t := h.(attempts := runs)];
      Pipeline.PassIsRuns(config, before, t, runs, Pipeline.AfterRuns(before, t, runs));
      RunsKeep(config, before, t, runs);
      assert inflight == |running| by {
        assert running.Keys == before.running.Keys;
        assert |running| == |running.Keys| && |before.running| == |before.running.Keys|;
      }
      if status.Threw? {
        ThrowTask(t);
      } else {
        FinishTask(t, reply);
      }
    }
  }

  // ── Lemmas ─────────────────────────────────────────────────────────────────

  lemma Keeps(cfg: Config, s: Sys, a: Action)
    requires Pipeline.SysInv(cfg, s)
    ensures Pipeline.SysInv(cfg, SysNext(cfg, s, a))
  {
    Pipeline.StepKeeps(cfg, s, a);
  }

  lemma RestartKeeps(cfg: Config, s: Sys)
    requires Pipeline.SysInv(cfg, s)
    ensures SysNext(cfg, s, Action.Restart) == Pipeline.AfterRestart(s) && Pipeline.SysInv(cfg, Pipeline.AfterRestart(s))
  {
    Keeps(cfg, s, Action.Restart);
  }

  lemma {:induction false} RunsKeep(cfg: Config, s: Sys, t: nat, n: nat)
    requires Pipeline.SysInv(cfg, s)
    ensures Pipeline.SysInv(cfg, Pipeline.RunAgents(cfg, s, t, n))
  {
    if n > 0 {
      RunsKeep(cfg, s, t, n - 1);
      Keeps(cfg, Pipeline.RunAgents(cfg, s, t, n - 1), Action.RunAgent(t));
    }
  }

  lemma ThrowKeeps(cfg: Config, s: Sys, t: nat)
    requires Pipeline.SysInv(cfg, s) && Held(s, t)
    ensures SysNext(cfg, s, Action.Throw(t)) == FailTask(cfg, s, t) && Pipeline.SysInv(cfg, FailTask(cfg, s, t))
  {
    Keeps(cfg, s, Action.Throw(t));
  }

  lemma FinishKeeps(cfg: Config, s: Sys, t: nat, reply: Reply)
    requires Pipeline.SysInv(cfg, s) && Held(s, t) && MayFinish(LaneAt(s, s.tasks[t].jobId, t))
    ensures Pipeline.SysInv(cfg, SysNext(cfg, s, Action.Finish(t, reply)))
    ensures SysNext(cfg, s, Action.Finish(t, reply))
            == EndTask(cfg, s, t, Stages.Finish(s.jobs[s.tasks[t].jobId], s.tasks[t].kind, cfg, reply))
  {
    Keeps(cfg, s, Action.Finish(t, reply));
  }

  lemma NoRoom(cfg: Config, s: Sys, rows: set<nat>)
    requires cfg.concurrency <= |s.running|
    ensures SysNext(cfg, s, ClaimBatch(rows)) == s
  {
  }

  lemma ClaimKeeps(cfg: Config, s: Sys, rows: set<nat>)
    requires Pipeline.SysInv(cfg, s) && cfg.concurrency > |s.running|
    requires Q.IsTop(s.tasks, Q.EligibleRows(s.tasks, s.now, cfg.lockTtl), cfg.concurrency - |s.running|, rows)
    ensures SysNext(cfg, s, ClaimBatch(rows)) == Pipeline.AfterClaim(s, rows)
    ensures Pipeline.SysInv(cfg, Pipeline.AfterClaim(s, rows))
    ensures |Pipeline.AfterClaim(s, rows).running| == |s.running| + |rows|
  {
    Pipeline.ClaimHappens(cfg, s, rows);
    Keeps(cfg, s, ClaimBatch(rows));
    ClaimedWereWaiting(cfg, s, rows);
    Pipeline.ClaimedCount(s, rows);
  }

  lemma ClaimedWereWaiting(cfg: Config, s: Sys, rows: set<nat>)
    requires Pipeline.SysInv(cfg, s) && rows <= Q.EligibleRows(s.tasks, s.now, cfg.lockTtl)
    ensures forall t :: t in rows ==> t !in s.running
  {
    forall t | t in rows ensures t !in s.running {
      Pipeline.EligibleIsPending(cfg, s, t);
    }
  }

  /** A stage's writes followed by settling its task are the one step EndTask. */
  lemma SettleIsEnd(cfg: Config, s: Sys, t: nat, outcome: Outcome, mid: Sys, status: Status)
    requires t < |s.tasks| && s.tasks[t].jobId in s.jobs
    requires mid == s.(jobs := mid.jobs, tasks := mid.tasks)
    requires O.StageEnded(s.jobs, s.tasks, mid.jobs, mid.tasks, cfg, s.now, s.tasks[t].jobId, outcome, status)
    ensures t < |mid.tasks| && mid.tasks[t] == s.tasks[t]
    ensures EndTask(cfg, s, t, outcome) == if status.Success?
                                           then mid.(tasks := Q.Complete(mid.tasks, t), running := mid.running - {t})
                                           else FailTask(cfg, mid, t)
  {
  }

  ghost predicate Escalated(jobs: map<nat, Job>, tasks: seq<Q.Task>, expired: seq<nat>,
                            jobs1: map<nat, Job>, tasks1: seq<Q.Task>)
    requires forall i :: 0 <= i < |expired| ==> expired[i] < |tasks|
  {
    |tasks1| == |tasks| && jobs1.Keys == jobs.Keys
    && (forall k :: 0 <= k < |tasks| ==> tasks1[k] == EscalatedRow(tasks[k], JobAmong(tasks, expired, tasks[k].jobId)))
    && (forall j :: j in jobs ==> jobs1[j] == EscalatedJob(jobs[j], JobAmong(tasks, expired, j)))
  }

  lemma EscalateOneMore(jobs: map<nat, Job>, tasks: seq<Q.Task>, expired: seq<nat>, i: nat,
                        jobs1: map<nat, Job>, tasks1: seq<Q.Task>)
    requires forall k :: 0 <= k < |expired| ==> expired[k] < |tasks|
    requires i < |expired| && Escalated(jobs, tasks, expired[..i], jobs1, tasks1)
    requires tasks[expired[i]].jobId in jobs
    ensures var jobId := tasks[expired[i]].jobId;
            Escalated(jobs, tasks, expired[..i + 1], jobs1[jobId := Exhaust(jobs1[jobId])], Q.CancelForJob(tasks1, jobId))
  {
    forall j: nat ensures JobAmong(tasks, expired[..i + 1], j) <==> JobAmong(tasks, expired[..i], j) || j == tasks[expired[i]].jobId {
      OneMoreJob(tasks, expired, i, j);
    }
  }

  lemma SweepIsExpire(cfg: Config, s: Sys, expired: seq<nat>, jobs: map<nat, Job>, tasks: seq<Q.Task>)
    requires forall k :: 0 <= k < |expired| ==> expired[k] < |s.tasks|
    requires forall t: nat :: t < |s.tasks| ==> (t in expired <==> Q.Expired(s.tasks[t], s.now, cfg.lockTtl))
    requires Escalated(s.jobs, Q.ExpireExhaustedStale(s.tasks, s.now, cfg.lockTtl), expired, jobs, tasks)
    ensures s.(jobs := jobs, tasks := tasks) == SysNext(cfg, s, ExpireStale)
  {
    var swept := Q.ExpireExhaustedStale(s.tasks, s.now, cfg.lockTtl);
    forall j: nat ensures JobAmong(swept, expired, j) <==> HasExpired(cfg, s, j) {
      SweptJobs(cfg, s, expired, j);
    }
    var next := Expire(cfg, s);
    assert tasks == next.tasks;
    assert jobs == next.jobs;
  }

  lemma SweptJobs(cfg: Config, s: Sys, expired: seq<nat>, j: nat)
    requires forall k :: 0 <= k < |expired| ==> expired[k] < |s.tasks|
    requires forall t: nat :: t < |s.tasks| ==> (t in expired <==> Q.Expired(s.tasks[t], s.now, cfg.lockTtl))
    ensures JobAmong(Q.ExpireExhaustedStale(s.tasks, s.now, cfg.lockTtl), expired, j) <==> HasExpired(cfg, s, j)
  {
    if HasExpired(cfg, s, j) {
      var t: nat :| t < |s.tasks| && s.tasks[t].jobId == j && Q.Expired(s.tasks[t], s.now, cfg.lockTtl);
      assert t in expired;
      var i :| 0 <= i < |expired| && expired[i] == t;
    }
    if JobAmong(Q.ExpireExhaustedStale(s.tasks, s.now, cfg.lockTtl), expired, j) {
      var i :| 0 <= i < |expired| && s.tasks[expired[i]].jobId == j;
      assert expired[i] in expired;
    }
  }

  lemma OneMoreJob(tasks: seq<Q.Task>, expired: seq<nat>, i: nat, j: nat)
    requires forall k :: 0 <= k < |expired| ==> expired[k] < |tasks|
    requires i < |expired|
    ensures JobAmong(tasks, expired[..i + 1], j) <==> JobAmong(tasks, expired[..i], j) || j == tasks[expired[i]].jobId
  {
    if JobAmong(tasks, expired[..i], j) {
      var k :| 0 <= k < i && tasks[expired[..i][k]].jobId == j;
      assert expired[..i + 1][k] == expired[..i][k];
    }
    if j == tasks[expired[i]].jobId {
      assert expired[..i + 1][i] == expired[i];
    }
    if JobAmong(tasks, expired[..i + 1], j) && j != tasks[expired[i]].jobId {
      var k :| 0 <= k < i + 1 && tasks[expired[..i + 1][k]].jobId == j;
      assert expired[..i][k] == expired[..i + 1][k];
    }
  }
}
