/**
 * The services as they are written: objects over one shared database whose
 * methods read rows, decide, and write rows step by step, throwing when a move
 * is illegal. Each method is proved to do what the step functions say.
 */
module Services {
  import opened Common
  import opened Jobs
  import opened Stages
  import Q = Queue
  import Records

  /** The tables every service shares. */
  class Database {
    var jobs: map<nat, Job>
    var tasks: seq<Q.Task>
    var now: int

    constructor ()
      ensures jobs == map[] && tasks == []
    {
      jobs, tasks, now := map[], [], 0;
    }
  }

  class JobService {
    const prisma: Database

    constructor (prisma: Database)
      ensures this.prisma == prisma
    {
      this.prisma := prisma;
    }

    /** A fresh id and its first audit entry. */
    method Create(jobId: nat, dashboard: bool)
      requires jobId !in prisma.jobs
      modifies prisma`jobs
      ensures prisma.jobs == old(prisma.jobs)[jobId := NewJob(dashboard)]
    {
      prisma.jobs := prisma.jobs[jobId := NewJob(dashboard)];
    }

    /** Validated move with an audit row; throws on an illegal one and then changes nothing. */
    method Transition(jobId: nat, to: JobState, actor: Actor, force: bool) returns (status: Status)
      modifies prisma`jobs
      ensures jobId !in old(prisma.jobs) ==> status.Threw?
      ensures jobId in old(prisma.jobs) ==>
                (status.Success? <==> Jobs.Transition(old(prisma.jobs)[jobId], to, actor, force).Some?)
      ensures prisma.jobs == if status.Success? then old(prisma.jobs)[jobId := Jobs.Transition(old(prisma.jobs)[jobId], to, actor, force).value]
                             else old(prisma.jobs)
      ensures jobId in old(prisma.jobs) ==>
                var job := old(prisma.jobs)[jobId];
                (status.Success? <==> job.state == to || force || CanTransition(job.state, to))
                && prisma.jobs[jobId] == if status.Threw? || job.state == to then job
                                         else job.(state := to, log := job.log + [Entry(Some(job.state), to, actor)])
    {
      if jobId !in prisma.jobs {
        return Threw;
      }
      var job := prisma.jobs[jobId];
      var from := job.state;
      if from == to {
        assert prisma.jobs[jobId := job] == prisma.jobs;
        return Success;
      }
      if !force && !CanTransition(from, to) {
        return Threw;
      }
      prisma.jobs := prisma.jobs[jobId := job.(state := to, log := job.log + [Entry(Some(from), to, actor)])];
      return Success;
    }
  }

  /** What may be claimed: due, or abandoned with attempts left, and no task of the job in fresh hands. */
  predicate Claimable(tasks: seq<Q.Task>, t: nat, now: int, ttl: nat)
    requires t < |tasks|
  {
    ((tasks[t].status == Q.Pending && tasks[t].runAt <= now)
     || (tasks[t].status == Q.Running && tasks[t].attempts < tasks[t].maxAttempts
         && tasks[t].lockedAt.Some? && tasks[t].lockedAt.value < now - ttl))
    && forall k :: 0 <= k < |tasks| && tasks[k].jobId == tasks[t].jobId && tasks[k].status == Q.Running ==>
                     tasks[k].lockedAt.Some? && tasks[k].lockedAt.value < now - ttl
  }

  lemma EligibleIsClaimable(tasks: seq<Q.Task>, t: nat, now: int, ttl: nat)
    requires t < |tasks|
    ensures Q.Eligible(tasks, t, now, ttl) <==> Claimable(tasks, t, now, ttl)
  {
    if Q.Eligible(tasks, t, now, ttl) {
      forall k | 0 <= k < |tasks| && tasks[k].jobId == tasks[t].jobId && tasks[k].status == Q.Running
        ensures tasks[k].lockedAt.Some? && tasks[k].lockedAt.value < now - ttl
      {
        assert !Q.Healthy(tasks[k], now, ttl);
      }
    }
  }

  /** What a claim takes: only what may be claimed, and before what it leaves out by priority and then by time. */
  ghost predicate IsSelection(tasks: seq<Q.Task>, rows: set<nat>, limit: int, now: int, ttl: nat) {
    (forall t :: t in rows ==> t < |tasks| && Claimable(tasks, t, now, ttl))
    && forall a, b: nat :: a in rows && LeftOut(tasks, rows, b, now, ttl) ==> GoesBefore(tasks, rows, limit, a, b)
  }

  predicate LeftOut(tasks: seq<Q.Task>, rows: set<nat>, b: nat, now: int, ttl: nat) {
    b < |tasks| && b !in rows && Claimable(tasks, b, now, ttl)
  }

  predicate GoesBefore(tasks: seq<Q.Task>, rows: set<nat>, limit: int, a: nat, b: nat) {
    a < |tasks| && b < |tasks| && |rows| == limit && tasks[a].priority >= tasks[b].priority
    && (tasks[a].priority == tasks[b].priority ==> tasks[a].runAt <= tasks[b].runAt)
  }

  lemma TopIsSelection(tasks: seq<Q.Task>, rows: set<nat>, limit: int, now: int, ttl: nat)
    requires limit > 0 && Q.IsTop(tasks, Q.EligibleRows(tasks, now, ttl), limit, rows)
    ensures IsSelection(tasks, rows, limit, now, ttl)
  {
    var eligible := Q.EligibleRows(tasks, now, ttl);
    forall t | t in rows ensures t < |tasks| && Claimable(tasks, t, now, ttl) {
      assert t in eligible;
      EligibleIsClaimable(tasks, t, now, ttl);
    }
    forall a, b: nat | a in rows && LeftOut(tasks, rows, b, now, ttl) ensures GoesBefore(tasks, rows, limit, a, b) {
      EligibleIsClaimable(tasks, b, now, ttl);
      assert a in eligible && b in eligible - rows && Q.NoLater(tasks[a], tasks[b]);
      Q.Smaller(rows, eligible, b);
    }
  }

  class QueueService {
    const prisma: Database
    const config: Config

    constructor (prisma: Database, config: Config)
      ensures this.prisma == prisma && this.config == config
    {
      this.prisma, this.config := prisma, config;
    }

    /** findFirst for an equivalent PENDING task, else create one. */
    method Enqueue(jobId: nat, kind: TaskKind)
      modifies prisma`tasks
      ensures prisma.tasks == Q.Enqueue(old(prisma.tasks), jobId, kind, prisma.now, config.maxAttempts)
      ensures var waits := exists k :: 0 <= k < |old(prisma.tasks)| && old(prisma.tasks)[k].status == Q.Pending
                                       && old(prisma.tasks)[k].jobId == jobId && old(prisma.tasks)[k].kind == kind;
              prisma.tasks == if waits then old(prisma.tasks)
                              else old(prisma.tasks) + [Q.Task(jobId, kind, Q.Pending, 0, config.maxAttempts, prisma.now, 0, None, None)]
    {
      var i := 0;
      while i < |prisma.tasks|
        invariant 0 <= i <= |prisma.tasks| && prisma.tasks == old(prisma.tasks)
        invariant forall k :: 0 <= k < i ==> !Q.IsPending(prisma.tasks[k], jobId, kind)
      {
        if Q.IsPending(prisma.tasks[i], jobId, kind) {
          return;
        }
        i := i + 1;
      }
      prisma.tasks := prisma.tasks + [Q.Task(jobId, kind, Q.Pending, 0, config.maxAttempts, prisma.now, 0, None, None)];
    }

    /** The one UPDATE … RETURNING statement: whatever ORDER BY … LIMIT selects is claimed. */
    method ClaimBatch(workerId: nat, limit: int) returns (rows: set<nat>)
      modifies prisma`tasks
      ensures Q.IsTop(old(prisma.tasks), Q.EligibleRows(old(prisma.tasks), prisma.now, config.lockTtl), limit, rows)
      ensures prisma.tasks == Q.ClaimRows(old(prisma.tasks), rows, workerId, prisma.now)
    {
      rows := {};
      if limit > 0 {
        rows := SelectDue(limit);
      }
      prisma.tasks := Q.ClaimRows(prisma.tasks, rows, workerId, prisma.now);
    }

    /** SELECT … WHERE … ORDER BY priority DESC, runAt ASC LIMIT: rows in any order the sort leaves open. */
    method SelectDue(limit: int) returns (rows: set<nat>)
      requires limit > 0
      ensures Q.IsTop(prisma.tasks, Q.EligibleRows(prisma.tasks, prisma.now, config.lockTtl), limit, rows)
      ensures IsSelection(prisma.tasks, rows, limit, prisma.now, config.lockTtl)
    {
      var eligible := Q.EligibleRows(prisma.tasks, prisma.now, config.lockTtl);
      rows := {};
      var rest := eligible;
      while |rows| < limit && rest != {}
        invariant rows + rest == eligible && rows !! rest && |rows| <= limit
        invariant forall a, b :: a in rows && b in rest ==> Q.NoLater(prisma.tasks[a], prisma.tasks[b])
        decreases rest
      {
        ghost var first := Q.BestExists(prisma.tasks, rest);
        var best :| best in rest && forall b :: b in rest ==> Q.NoLater(prisma.tasks[best], prisma.tasks[b]);
        rows, rest := rows + {best}, rest - {best};
      }
      assert eligible - rows == rest;
      assert |eligible| == |rows| + |rest| by {
        assert eligible == rows + rest;
      }
      TopIsSelection(prisma.tasks, rows, limit, prisma.now, config.lockTtl);
    }

    method Complete(taskId: nat)
      requires taskId < |prisma.tasks|
      modifies prisma`tasks
      ensures prisma.tasks == Q.Complete(old(prisma.tasks), taskId)
    {
      prisma.tasks := prisma.tasks[taskId := prisma.tasks[taskId].(status := Q.TaskDone, lockedAt := None, lockedBy := None)];
    }

    method RefreshLock(taskId: nat, workerId: nat)
      requires taskId < |prisma.tasks|
      modifies prisma`tasks
      ensures prisma.tasks == Q.RefreshLock(old(prisma.tasks), taskId, workerId, prisma.now)
      ensures var task := old(prisma.tasks)[taskId];
              prisma.tasks == old(prisma.tasks)[taskId := if task.lockedBy == Some(workerId) && task.status == Q.Running
                                                         then task.(lockedAt := Some(prisma.now)) else task]
    {
      var task := prisma.tasks[taskId];
      if task.lockedBy == Some(workerId) && task.status == Q.Running {
        prisma.tasks := prisma.tasks[taskId := task.(lockedAt := Some(prisma.now))];
      }
    }

    /** Back off while attempts remain, else settle as FAILED. */
    method Fail(taskId: nat) returns (willRetry: bool)
      requires taskId < |prisma.tasks|
      modifies prisma`tasks
      ensures willRetry <==> Q.WillRetry(old(prisma.tasks)[taskId])
      ensures prisma.tasks == Q.Fail(old(prisma.tasks), taskId, prisma.now, config.backoffBase)
    {
      var task := prisma.tasks[taskId];
      willRetry := task.attempts < task.maxAttempts;
      task := task.(lockedAt := None, lockedBy := None);
      if willRetry {
        var delay := Q.BackoffMs(task.attempts, config.backoffBase);
        prisma.tasks := prisma.tasks[taskId := task.(status := Q.Pending, runAt := prisma.now + delay)];
      } else {
        prisma.tasks := prisma.tasks[taskId := task.(status := Q.TaskFailed)];
      }
    }

    /** Fail every stale task that is out of attempts, and report which ones. */
    method ExpireExhaustedStale() returns (expired: seq<nat>)
      modifies prisma`tasks
      ensures prisma.tasks == Q.ExpireExhaustedStale(old(prisma.tasks), prisma.now, config.lockTtl)
      ensures forall k :: 0 <= k < |expired| ==> expired[k] < |prisma.tasks|
      ensures forall t: nat :: t < |prisma.tasks| ==>
                (t in expired <==> Q.Expired(old(prisma.tasks)[t], prisma.now, config.lockTtl))
      ensures |prisma.tasks| == |old(prisma.tasks)|
      ensures forall t: nat :: t < |prisma.tasks| ==>
                var task := old(prisma.tasks)[t];
                (t in expired <==> task.status == Q.Running && task.attempts >= task.maxAttempts
                                   && task.lockedAt.Some? && task.lockedAt.value < prisma.now - config.lockTtl)
                && prisma.tasks[t] == if t in expired then task.(status := Q.TaskFailed, lockedAt := None, lockedBy := None) else task
    {
      expired := [];
      ghost var before := prisma.tasks;
      for i := 0 to |prisma.tasks|
        invariant |prisma.tasks| == |before|
        invariant forall k :: 0 <= k < |expired| ==> expired[k] < i
        invariant forall t: nat :: t < i ==> (t in expired <==> Q.Expired(before[t], prisma.now, config.lockTtl))
        invariant forall t: nat :: i <= t < |before| ==> prisma.tasks[t] == before[t]
        invariant forall t: nat :: t < i ==>
                    prisma.tasks[t] == Q.ExpireExhaustedStale(before, prisma.now, config.lockTtl)[t]
      {
        var task := prisma.tasks[i];
        if Q.Expired(task, prisma.now, config.lockTtl) {
          prisma.tasks := prisma.tasks[i := task.(status := Q.TaskFailed, lockedAt := None, lockedBy := None)];
          expired := expired + [i];
        }
      }
    }

    method CancelForJob(jobId: nat)
      modifies prisma`tasks
      ensures prisma.tasks == Q.CancelForJob(old(prisma.tasks), jobId)
      ensures |prisma.tasks| == |old(prisma.tasks)|
      ensures forall t: nat :: t < |prisma.tasks| ==>
                var task := old(prisma.tasks)[t];
                prisma.tasks[t] == if task.jobId == jobId && task.status in {Q.Pending, Q.Running} then task.(status := Q.TaskFailed) else task
    {
      ghost var before := prisma.tasks;
      for i := 0 to |prisma.tasks|
        invariant |prisma.tasks| == |before|
        invariant forall t: nat :: i <= t < |before| ==> prisma.tasks[t] == before[t]
        invariant forall t: nat :: t < i ==> prisma.tasks[t] == Q.CancelForJob(before, jobId)[t]
      {
        if prisma.tasks[i].jobId == jobId && prisma.tasks[i].status in {Q.Pending, Q.Running} {
          prisma.tasks := prisma.tasks[i := prisma.tasks[i].(status := Q.TaskFailed)];
        }
      }
    }

    /** Startup: whatever the previous process left RUNNING is due again at once. */
    method ReclaimOrphaned()
      modifies prisma`tasks
      ensures prisma.tasks == Q.ReclaimOrphaned(old(prisma.tasks), prisma.now)
      ensures |prisma.tasks| == |old(prisma.tasks)|
      ensures forall t: nat :: t < |prisma.tasks| ==>
                var task := old(prisma.tasks)[t];
                prisma.tasks[t] == if task.status == Q.Running
                                   then task.(status := Q.Pending, runAt := prisma.now, lockedAt := None, lockedBy := None) else task
    {
      ghost var before := prisma.tasks;
      for i := 0 to |prisma.tasks|
        invariant |prisma.tasks| == |before|
        invariant forall t: nat :: i <= t < |before| ==> prisma.tasks[t] == before[t]
        invariant forall t: nat :: t < i ==> prisma.tasks[t] == Q.ReclaimOrphaned(before, prisma.now)[t]
      {
        if prisma.tasks[i].status == Q.Running {
          prisma.tasks := prisma.tasks[i := prisma.tasks[i].(status := Q.Pending, runAt := prisma.now, lockedAt := None, lockedBy := None)];
        }
      }
    }
  }

  /** Verify rows of a job: appended by the VERIFY stage, counted for its budget. */
  class VerifyService {
    const prisma: Database

    constructor (prisma: Database)
      ensures this.prisma == prisma
    {
      this.prisma := prisma;
    }

    method Record(jobId: nat, cycle: nat, attempt: nat, ok: bool)
      requires jobId in prisma.jobs
      modifies prisma`jobs
      ensures var job := old(prisma.jobs)[jobId];
              prisma.jobs == old(prisma.jobs)[jobId := job.(verifyRuns := job.verifyRuns + [VerifyRun(cycle, attempt, ok)])]
    {
      var job := prisma.jobs[jobId];
      prisma.jobs := prisma.jobs[jobId := job.(verifyRuns := job.verifyRuns + [VerifyRun(cycle, attempt, ok)])];
    }

    method CountForCycle(jobId: nat, cycle: nat) returns (count: nat)
      requires jobId in prisma.jobs
      ensures count == VerifiesIn(prisma.jobs[jobId].verifyRuns, cycle) == |Records.VerifyRows(prisma.jobs[jobId].verifyRuns, cycle)|
    {
      var runs := prisma.jobs[jobId].verifyRuns;
      count := 0;
      for i := 0 to |runs|
        invariant count == VerifiesIn(runs[..i], cycle)
      {
        assert runs[..i + 1][..i] == runs[..i];
        if runs[i].cycle == cycle {
          count := count + 1;
        }
      }
      Records.VerifiesAreCounted(runs, cycle);
      assert runs[..|runs|] == runs;
    }

    method CountFailedForCycle(jobId: nat, cycle: nat) returns (count: nat)
      requires jobId in prisma.jobs
      ensures count == FailuresIn(prisma.jobs[jobId].verifyRuns, cycle) == |Records.FailedRows(prisma.jobs[jobId].verifyRuns, cycle)|
    {
      var runs := prisma.jobs[jobId].verifyRuns;
      count := 0;
      for i := 0 to |runs|
        invariant count == FailuresIn(runs[..i], cycle)
      {
        assert runs[..i + 1][..i] == runs[..i];
        if runs[i].cycle == cycle && !runs[i].ok {
          count := count + 1;
        }
      }
      Records.FailuresAreCounted(runs, cycle);
      assert runs[..|runs|] == runs;
    }
  }
}
