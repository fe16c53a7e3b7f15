/**
 * The whole factory: the job and task tables, the handlers in flight in the one
 * worker process, the clock, and every step anyone can take. A handler's last
 * writes (final transition, successor task, completion) are one step, and so is
 * failing a task together with the escalation that may follow.
 */
module System {
  import opened Common
  import opened Jobs
  import opened Stages
  import opened Lanes
  import Q = Queue

  datatype Sys = Sys(jobs: map<nat, Job>, tasks: seq<Q.Task>, running: map<nat, Handler>, now: int, restarts: nat)

  datatype Action =
    | Create(jobId: nat, dashboard: bool)
    | ClaimBatch(rows: set<nat>)
    | Heartbeat(task: nat)
    | Tick(to: int)
    | Begin(task: nat, discovered: Option<string>)
    | RunAgent(task: nat)
    | Finish(task: nat, reply: Reply)
    | Throw(task: nat)
    | ExpireStale
    | Restart
    | Ask(jobId: nat, act: HumanAct)

  const INIT := Sys(map[], [], map[], 0, 0)

  /** Row of the job's newest task. */
  function Newest(tasks: seq<Q.Task>, jobId: nat): Option<nat> {
    if |tasks| == 0 then None
    else if tasks[|tasks| - 1].jobId == jobId then Some(|tasks| - 1)
    else Newest(tasks[..|tasks| - 1], jobId)
  }

  /** processTask threw and no attempt is left: cancel what is outstanding, fail the job. */
  function Escalate(s: Sys, jobId: nat): Sys
    requires jobId in s.jobs
  {
    s.(tasks := Q.CancelForJob(s.tasks, jobId), jobs := s.jobs[jobId := Exhaust(s.jobs[jobId])])
  }

  function FailTask(cfg: Config, s: Sys, t: nat): Sys
    requires t < |s.tasks| && s.tasks[t].jobId in s.jobs
  {
    var failed := s.(tasks := Q.Fail(s.tasks, t, s.now, cfg.backoffBase), running := s.running - {t});
    if Q.WillRetry(s.tasks[t]) then failed else Escalate(failed, s.tasks[t].jobId)
  }

  function EndTask(cfg: Config, s: Sys, t: nat, outcome: Outcome): Sys
    requires t < |s.tasks| && s.tasks[t].jobId in s.jobs
  {
    var jobId := s.tasks[t].jobId;
    match outcome
    case Thrown(job) => FailTask(cfg, s.(jobs := s.jobs[jobId := job]), t)
    case Committed(job, next) =>
      var tasks := if next.Some? then Q.Enqueue(s.tasks, jobId, next.value, s.now, cfg.maxAttempts) else s.tasks;
      s.(jobs := s.jobs[jobId := job], tasks := Q.Complete(tasks, t), running := s.running - {t})
  }

  predicate HasExpired(cfg: Config, s: Sys, jobId: nat) {
    exists k :: 0 <= k < |s.tasks| && s.tasks[k].jobId == jobId && Q.Expired(s.tasks[k], s.now, cfg.lockTtl)
  }

  /** expireExhaustedStale, then onTaskExhausted for every job it hit. */
  function Expire(cfg: Config, s: Sys): Sys {
    var tasks := Q.ExpireExhaustedStale(s.tasks, s.now, cfg.lockTtl);
    s.(tasks := seq(|tasks|, i requires 0 <= i < |tasks| =>
                  if HasExpired(cfg, s, tasks[i].jobId) && Q.Outstanding(tasks[i])
                  then tasks[i].(status := Q.TaskFailed) else tasks[i]),
       jobs := map j | j in s.jobs :: if HasExpired(cfg, s, j) then Exhaust(s.jobs[j]) else s.jobs[j])
  }

  function Answer(cfg: Config, s: Sys, jobId: nat, act: HumanAct): Stages.Answer
    requires jobId in s.jobs
  {
    var newest := Newest(s.tasks, jobId);
    var kind := if newest.Some? && newest.value < |s.tasks| then s.tasks[newest.value].kind else Review;
    AnswerTo(cfg, Lane(s.jobs[jobId], kind, Q.TaskDone, None), act)
  }

  function Answered(cfg: Config, s: Sys, jobId: nat, act: HumanAct): Sys
    requires jobId in s.jobs
  {
    match Answer(cfg, s, jobId, act)
    case Refused => s
    case Accepted(job, next) =>
      s.(jobs := s.jobs[jobId := job],
         tasks := if next.Some? then Q.Enqueue(s.tasks, jobId, next.value, s.now, cfg.maxAttempts)
                  else if act == Cancel then Q.CancelForJob(s.tasks, jobId) else s.tasks)
  }

  predicate Held(s: Sys, t: nat) {
    t in s.running && t < |s.tasks| && s.tasks[t].jobId in s.jobs
  }

  /** The environment's one promise: while a handler lives, its heartbeat keeps the lock fresh. */
  predicate LocksFreshAt(cfg: Config, s: Sys, now: int) {
    forall t :: t in s.running && t < |s.tasks| ==> !Q.Stale(s.tasks[t], now, cfg.lockTtl)
  }

  /** Fresh handlers for claimed rows. */
  function FreshHandlers(rows: set<nat>): map<nat, Handler> {
    map t | t in rows :: Claimed
  }

  /** One step; a step that is not possible in this state changes nothing. */
  ghost function SysNext(cfg: Config, s: Sys, a: Action): Sys {
    match a
    case Create(j, dashboard) =>
      if j in s.jobs then s
      else s.(jobs := s.jobs[j := NewJob(dashboard)], tasks := Q.Enqueue(s.tasks, j, Plan, s.now, cfg.maxAttempts))
    case ClaimBatch(rows) =>
      var limit := cfg.concurrency - |s.running|;
      if limit > 0 && Q.IsTop(s.tasks, Q.EligibleRows(s.tasks, s.now, cfg.lockTtl), limit, rows)
      then s.(tasks := Q.ClaimRows(s.tasks, rows, s.restarts, s.now),
              running := s.running + FreshHandlers(rows))
      else s
    case Heartbeat(t) =>
      if Held(s, t) then s.(tasks := Q.RefreshLock(s.tasks, t, s.restarts, s.now)) else s
    case Tick(to) =>
      if to >= s.now && LocksFreshAt(cfg, s, to) then s.(now := to) else s
    case Begin(t, discovered) =>
      if !Held(s, t) || s.running[t] != Claimed then s
      else (
        match Stages.Begin(s.jobs[s.tasks[t].jobId], s.tasks[t].kind, discovered)
        case Proceed(job, h) => s.(jobs := s.jobs[s.tasks[t].jobId := job], running := s.running[t := h])
        case Ended(outcome) => EndTask(cfg, s, t, outcome)
      )
    case RunAgent(t) =>
      if !Held(s, t) || !MayRun(cfg, LaneAt(s, s.tasks[t].jobId, t)) then s
      else
        var h := s.running[t];
        s.(jobs := s.jobs[s.tasks[t].jobId := AddRun(s.jobs[s.tasks[t].jobId], s.tasks[t].kind, h)],
           running := s.running[t := h.(attempts := h.attempts + 1)])
    case Finish(t, reply) =>
      if !Held(s, t) || !MayFinish(LaneAt(s, s.tasks[t].jobId, t)) then s
      else EndTask(cfg, s, t, Stages.Finish(s.jobs[s.tasks[t].jobId], s.tasks[t].kind, cfg, reply))
    case Throw(t) =>
      if !Held(s, t) then s else FailTask(cfg, s, t)
    case ExpireStale => Expire(cfg, s)
    case Restart =>
      s.(tasks := Q.ReclaimOrphaned(s.tasks, s.now), running := map[], restarts := s.restarts + 1)
    case Ask(j, act) =>
      if j in s.jobs then Answered(cfg, s, j, act) else s
  }

  /** The state after a list of steps, any steps, from an empty database. */
  ghost function Run(cfg: Config, actions: seq<Action>): Sys {
    if |actions| == 0 then INIT else SysNext(cfg, Run(cfg, actions[..|actions| - 1]), actions[|actions| - 1])
  }

  // ── One job's view of the system ───────────────────────────────────────────

  function LaneAt(s: Sys, j: nat, c: nat): Lane
    requires j in s.jobs && c < |s.tasks|
  {
    Lane(s.jobs[j], s.tasks[c].kind, s.tasks[c].status, if c in s.running then Some(s.running[c]) else None)
  }

  predicate IsNewest(tasks: seq<Q.Task>, j: nat, c: nat) {
    c < |tasks| && tasks[c].jobId == j && forall k :: c < k < |tasks| ==> tasks[k].jobId != j
  }

  lemma {:induction false} NewestIs(tasks: seq<Q.Task>, j: nat, c: nat)
    ensures IsNewest(tasks, j, c) <==> Newest(tasks, j) == Some(c)
  {
    if |tasks| > 0 && tasks[|tasks| - 1].jobId != j {
      var before := tasks[..|tasks| - 1];
      NewestIs(before, j, c);
      assert IsNewest(tasks, j, c) <==> IsNewest(before, j, c);
    }
  }

  function View(s: Sys, j: nat): Lane
    requires j in s.jobs && Newest(s.tasks, j).Some? && Newest(s.tasks, j).value < |s.tasks|
  {
    LaneAt(s, j, Newest(s.tasks, j).value)
  }
}
