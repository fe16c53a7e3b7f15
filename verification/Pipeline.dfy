/**
 * The factory keeps every job's promises: each step of the whole system is, seen
 * from any one job, a step of its lane or nothing, so the lane invariants hold in
 * every reachable state; and the queue never runs two tasks of one job at once.
 */
module Pipeline {
  import opened Common
  import opened Jobs
  import opened Stages
  import opened Lanes
  import opened System
  import opened Tables
  import Q = Queue
  import Gates
  import Rounds
  import Builds
  import Feedback

  // ── Lanes over their whole life ────────────────────────────────────────────

  /** A job's lane after a list of lane steps. */
  function LaneRun(cfg: Config, dashboard: bool, actions: seq<LaneAction>): Lane {
    if |actions| == 0 then NewLane(dashboard)
    else LaneNext(cfg, LaneRun(cfg, dashboard, actions[..|actions| - 1]), actions[|actions| - 1])
  }

  ghost predicate LaneReachable(cfg: Config, ln: Lane) {
    exists dashboard, actions :: LaneRun(cfg, dashboard, actions) == ln
  }

  lemma NewLaneReachable(cfg: Config, dashboard: bool)
    ensures LaneReachable(cfg, NewLane(dashboard))
  {
    assert LaneRun(cfg, dashboard, []) == NewLane(dashboard);
  }

  lemma NextLaneReachable(cfg: Config, ln: Lane, next: Lane, a: LaneAction)
    requires LaneReachable(cfg, ln) && next == LaneNext(cfg, ln, a)
    ensures LaneReachable(cfg, next)
  {
    var dashboard, actions :| LaneRun(cfg, dashboard, actions) == ln;
    assert (actions + [a])[..|actions|] == actions;
    assert LaneRun(cfg, dashboard, actions + [a]) == next;
  }

  predicate LaneInv(cfg: Config, ln: Lane) {
    StageOk(ln) && Gates.GatesHold(ln) && Rounds.RoundBounded(cfg, ln)
    && Builds.BuildOk(cfg, ln) && Builds.PlansOk(ln) && Feedback.FeedbackOk(ln)
  }

  lemma LaneKept(cfg: Config, ln: Lane, a: LaneAction)
    requires LaneInv(cfg, ln)
    ensures LaneInv(cfg, LaneNext(cfg, ln, a))
  {
    StageKept(cfg, ln, a);
    Gates.StepLogs(cfg, ln, a);
    Gates.GatesKept(ln, LaneNext(cfg, ln, a));
    Rounds.RoundsKept(cfg, ln, a);
    Builds.BuildKept(cfg, ln, a);
    Builds.PlansKept(cfg, ln, a);
    Feedback.FeedbackKept(cfg, ln, a);
  }

  lemma NewLaneKeeps(cfg: Config, dashboard: bool)
    ensures LaneInv(cfg, NewLane(dashboard))
  {
  }

  lemma {:induction false} LaneRunKeeps(cfg: Config, dashboard: bool, actions: seq<LaneAction>)
    ensures LaneInv(cfg, LaneRun(cfg, dashboard, actions))
  {
    if |actions| == 0 {
      NewLaneKeeps(cfg, dashboard);
    } else {
      var before, last := actions[..|actions| - 1], actions[|actions| - 1];
      LaneRunKeeps(cfg, dashboard, before);
      LaneKept(cfg, LaneRun(cfg, dashboard, before), last);
      LaneRunIs(cfg, dashboard, actions);
    }
  }

  lemma LaneRunIs(cfg: Config, dashboard: bool, actions: seq<LaneAction>)
    requires |actions| > 0
    ensures LaneRun(cfg, dashboard, actions)
            == LaneNext(cfg, LaneRun(cfg, dashboard, actions[..|actions| - 1]), actions[|actions| - 1])
  {
  }

  /** Whatever happens to a job, all its promises hold. */
  lemma ReachableLanesKeepPromises(cfg: Config, ln: Lane)
    requires LaneReachable(cfg, ln)
    ensures LaneInv(cfg, ln)
  {
    var dashboard, actions :| LaneRun(cfg, dashboard, actions) == ln;
    LaneRunKeeps(cfg, dashboard, actions);
  }

  lemma ReachableStage(cfg: Config, ln: Lane)
    requires LaneReachable(cfg, ln)
    ensures StageOk(ln)
  {
    ReachableLanesKeepPromises(cfg, ln);
  }

  // ── The system is its lanes ────────────────────────────────────────────────

  ghost predicate SysInv(cfg: Config, s: Sys) {
    TablesOk(cfg, s) && forall j :: j in s.jobs ==> LaneReachable(cfg, View(s, j))
  }

  /** What a step of the system looks like from one job. */
  ghost predicate LaneStep(cfg: Config, ln: Lane, next: Lane) {
    next == ln || exists a :: next == LaneNext(cfg, ln, a)
  }

  /** The step left everything in order, and every job there was took a lane step or none. */
  ghost predicate StepOk(cfg: Config, s: Sys, next: Sys)
    requires SysInv(cfg, s)
  {
    SysInv(cfg, next)
    && forall j :: j in s.jobs ==> j in next.jobs && LaneStep(cfg, View(s, j), View(next, j))
  }

  lemma OneLaneKeeps(cfg: Config, s: Sys, next: Sys, j: nat, a: LaneAction, lane: Lane)
    requires SysInv(cfg, s) && j in s.jobs && OneMoves(cfg, s, next, j, lane) && lane == LaneNext(cfg, View(s, j), a)
    ensures StepOk(cfg, s, next)
  {
    NextLaneReachable(cfg, View(s, j), lane, a);
  }

  lemma NoLaneMoves(cfg: Config, s: Sys, next: Sys, j: nat)
    requires SysInv(cfg, s) && j in s.jobs && OneMoves(cfg, s, next, j, View(s, j))
    ensures StepOk(cfg, s, next)
  {
  }

  // ── Handlers and tasks ─────────────────────────────────────────────────────

  /** A RUNNING task has its handler, a PENDING one has none; only the newest task of a job has either. */
  lemma HandlersMatchTasks(cfg: Config, s: Sys, t: nat)
    requires SysInv(cfg, s) && t < |s.tasks|
    ensures s.tasks[t].status == Q.Running ==> t in s.running
    ensures s.tasks[t].status == Q.Pending ==> t !in s.running
    ensures t in s.running || Q.Outstanding(s.tasks[t]) ==>
              s.tasks[t].jobId in s.jobs && View(s, s.tasks[t].jobId) == LaneAt(s, s.tasks[t].jobId, t)
  {
    if t in s.running || Q.Outstanding(s.tasks[t]) {
      OutstandingIsNewest(cfg, s, t);
      ReachableStage(cfg, View(s, s.tasks[t].jobId));
    }
  }

  /** Every task taken by a claim was waiting and belongs to a job with nothing in flight. */
  lemma EligibleIsPending(cfg: Config, s: Sys, t: nat)
    requires SysInv(cfg, s) && Q.Eligible(s.tasks, t, s.now, cfg.lockTtl)
    ensures s.tasks[t].status == Q.Pending && t !in s.running
  {
    assert LockFresh(cfg, s.now, s.tasks[t]);
    HandlersMatchTasks(cfg, s, t);
  }

  // ── Every step ─────────────────────────────────────────────────────────────

  lemma EndTaskOk(cfg: Config, s: Sys, t: nat, outcome: Outcome, a: LaneAction, lane: Lane)
    requires SysInv(cfg, s) && t in s.running
    requires t < |s.tasks| && s.tasks[t].jobId in s.jobs && lane == LaneNext(cfg, View(s, s.tasks[t].jobId), a)
    requires lane == Ending(outcome, s.tasks[t].kind, Q.WillRetry(s.tasks[t]))
    ensures StepOk(cfg, s, EndTask(cfg, s, t, outcome))
  {
    HandlersMatchTasks(cfg, s, t);
    EndTaskMoves(cfg, s, t, outcome);
    OneLaneKeeps(cfg, s, EndTask(cfg, s, t, outcome), s.tasks[t].jobId, a, lane);
  }

  lemma HandlerOk(cfg: Config, s: Sys, t: nat, job: Job, h: Handler, a: LaneAction, lane: Lane)
    requires SysInv(cfg, s) && t in s.running
    requires t < |s.tasks| && s.tasks[t].jobId in s.jobs && lane == LaneNext(cfg, View(s, s.tasks[t].jobId), a)
    requires lane == Lane(job, s.tasks[t].kind, s.tasks[t].status, Some(h))
    ensures StepOk(cfg, s, s.(jobs := s.jobs[s.tasks[t].jobId := job], running := s.running[t := h]))
  {
    HandlerMoves(cfg, s, t, job, h);
    OneLaneKeeps(cfg, s, s.(jobs := s.jobs[s.tasks[t].jobId := job], running := s.running[t := h]), s.tasks[t].jobId, a, lane);
  }

  lemma BeginOk(cfg: Config, s: Sys, t: nat, discovered: Option<string>)
    requires SysInv(cfg, s)
    ensures StepOk(cfg, s, SysNext(cfg, s, Action.Begin(t, discovered)))
  {
    if Held(s, t) && s.running[t] == Claimed {
      var j := s.tasks[t].jobId;
      HandlersMatchTasks(cfg, s, t);
      var a := LaneAction.Begin(discovered, Q.WillRetry(s.tasks[t]));
      var begun := Stages.Begin(s.jobs[j], s.tasks[t].kind, discovered);
      if begun.Proceed? {
        HandlerOk(cfg, s, t, begun.job, begun.handler, a, LaneNext(cfg, View(s, j), a));
      } else {
        EndTaskOk(cfg, s, t, begun.outcome, a, LaneNext(cfg, View(s, j), a));
      }
    }
  }

  lemma RunAgentOk(cfg: Config, s: Sys, t: nat)
    requires SysInv(cfg, s)
    ensures StepOk(cfg, s, SysNext(cfg, s, Action.RunAgent(t)))
  {
    if Held(s, t) && MayRun(cfg, LaneAt(s, s.tasks[t].jobId, t)) {
      var j, h := s.tasks[t].jobId, s.running[t];
      HandlersMatchTasks(cfg, s, t);
      RunAgentLane(cfg, View(s, j), h);
      HandlerOk(cfg, s, t, AddRun(s.jobs[j], s.tasks[t].kind, h), h.(attempts := h.attempts + 1),
                LaneAction.RunAgent, LaneNext(cfg, View(s, j), LaneAction.RunAgent));
    }
  }

  lemma RunAgentLane(cfg: Config, ln: Lane, h: Handler)
    requires MayRun(cfg, ln) && ln.handler == Some(h)
    ensures LaneNext(cfg, ln, LaneAction.RunAgent)
            == Lane(AddRun(ln.job, ln.kind, h), ln.kind, ln.status, Some(h.(attempts := h.attempts + 1)))
  {
  }

  lemma FinishOk(cfg: Config, s: Sys, t: nat, reply: Reply)
    requires SysInv(cfg, s)
    ensures StepOk(cfg, s, SysNext(cfg, s, Action.Finish(t, reply)))
  {
    if Held(s, t) && MayFinish(LaneAt(s, s.tasks[t].jobId, t)) {
      var j := s.tasks[t].jobId;
      HandlersMatchTasks(cfg, s, t);
      var a := LaneAction.Finish(reply, Q.WillRetry(s.tasks[t]));
      EndTaskOk(cfg, s, t, Stages.Finish(s.jobs[j], s.tasks[t].kind, cfg, reply), a, LaneNext(cfg, View(s, j), a));
    }
  }

  lemma ThrowOk(cfg: Config, s: Sys, t: nat)
    requires SysInv(cfg, s)
    ensures StepOk(cfg, s, SysNext(cfg, s, Action.Throw(t)))
  {
    if Held(s, t) {
      var j := s.tasks[t].jobId;
      HandlersMatchTasks(cfg, s, t);
      ThrowIsEnd(cfg, s, t);
      ThrowLane(cfg, View(s, j), Q.WillRetry(s.tasks[t]));
      EndTaskOk(cfg, s, t, Thrown(s.jobs[j]), LaneAction.Throw(Q.WillRetry(s.tasks[t])),
                Ending(Thrown(s.jobs[j]), s.tasks[t].kind, Q.WillRetry(s.tasks[t])));
    }
  }

  lemma ThrowLane(cfg: Config, ln: Lane, retry: bool)
    requires ln.handler.Some?
    ensures LaneNext(cfg, ln, LaneAction.Throw(retry)) == Ending(Thrown(ln.job), ln.kind, retry)
  {
  }

  lemma ThrowIsEnd(cfg: Config, s: Sys, t: nat)
    requires t < |s.tasks| && s.tasks[t].jobId in s.jobs
    ensures EndTask(cfg, s, t, Thrown(s.jobs[s.tasks[t].jobId])) == FailTask(cfg, s, t)
  {
    var j := s.tasks[t].jobId;
    assert s.jobs[j := s.jobs[j]] == s.jobs;
  }

  lemma AskOk(cfg: Config, s: Sys, j: nat, act: HumanAct)
    requires SysInv(cfg, s) && j in s.jobs
    ensures StepOk(cfg, s, SysNext(cfg, s, Action.Ask(j, act)))
  {
    AskIsAnswer(cfg, s, j, act);
    PlacedJob(cfg, s, j);
    AnswerDependsOnKind(cfg, s, j, act);
    AnsweredOk(cfg, s, j, act, AnswerTo(cfg, View(s, j), act));
  }

  lemma AskIsAnswer(cfg: Config, s: Sys, j: nat, act: HumanAct)
    requires j in s.jobs
    ensures SysNext(cfg, s, Action.Ask(j, act)) == System.Answered(cfg, s, j, act)
  {
  }

  lemma PlacedJob(cfg: Config, s: Sys, j: nat)
    requires SysInv(cfg, s) && j in s.jobs
    ensures Placed(s, j)
  {
  }

  lemma AnsweredOk(cfg: Config, s: Sys, j: nat, act: HumanAct, answer: Stages.Answer)
    requires SysInv(cfg, s) && j in s.jobs
    requires answer == AnswerTo(cfg, View(s, j), act) == System.Answer(cfg, s, j, act)
    ensures StepOk(cfg, s, System.Answered(cfg, s, j, act))
  {
    if answer.Accepted? {
      AskLane(cfg, View(s, j), act, answer);
      if answer.next.Some? {
        ReachableStage(cfg, View(s, j));
        EnqueuingMeansSettled(cfg, View(s, j), act);
        AcceptedMovesOn(cfg, s, j, act, answer.job, answer.next.value);
      } else {
        AcceptedMoves(cfg, s, j, act, answer.job);
      }
    }
  }

  lemma AskLane(cfg: Config, ln: Lane, act: HumanAct, answer: Stages.Answer)
    requires answer == AnswerTo(cfg, ln, act)
    ensures LaneNext(cfg, ln, LaneAction.Ask(act)) == Lanes.Answered(ln, act, answer)
  {
  }

  lemma AcceptedMovesOn(cfg: Config, s: Sys, j: nat, act: HumanAct, job: Job, kind: TaskKind)
    requires SysInv(cfg, s) && j in s.jobs && Settled(View(s, j))
    requires LaneNext(cfg, View(s, j), LaneAction.Ask(act)) == Lane(job, kind, Q.Pending, None)
    ensures StepOk(cfg, s, s.(jobs := s.jobs[j := job], tasks := Q.Enqueue(s.tasks, j, kind, s.now, cfg.maxAttempts)))
  {
    AnswerMovesOn(cfg, s, j, job, kind);
    OneLaneKeeps(cfg, s, s.(jobs := s.jobs[j := job], tasks := Q.Enqueue(s.tasks, j, kind, s.now, cfg.maxAttempts)),
                 j, LaneAction.Ask(act), Lane(job, kind, Q.Pending, None));
  }

  lemma AcceptedMoves(cfg: Config, s: Sys, j: nat, act: HumanAct, job: Job)
    requires SysInv(cfg, s) && j in s.jobs
    requires LaneNext(cfg, View(s, j), LaneAction.Ask(act)) == Lanes.Answered(View(s, j), act, Accepted(job, None))
    ensures StepOk(cfg, s, s.(jobs := s.jobs[j := job],
                              tasks := if act == Cancel then Q.CancelForJob(s.tasks, j) else s.tasks))
  {
    AnswerMoves(cfg, s, j, job, act == Cancel);
    OneLaneKeeps(cfg, s, s.(jobs := s.jobs[j := job], tasks := if act == Cancel then Q.CancelForJob(s.tasks, j) else s.tasks),
                 j, LaneAction.Ask(act), Lanes.Answered(View(s, j), act, Accepted(job, None)));
  }

  lemma AnswerDependsOnKind(cfg: Config, s: Sys, j: nat, act: HumanAct)
    requires j in s.jobs && Placed(s, j)
    ensures System.Answer(cfg, s, j, act) == AnswerTo(cfg, View(s, j), act)
  {
    match act
    case Approve => case PlanFeedback => case PlanLimit => case RecordFeedback =>
    case RequestChanges => case Accept => case Cancel => case Retry =>
  }

  lemma EnqueuingMeansSettled(cfg: Config, ln: Lane, act: HumanAct)
    requires StageOk(ln) && AnswerTo(cfg, ln, act).Accepted? && AnswerTo(cfg, ln, act).next.Some?
    ensures Settled(ln)
  {
    match act
    case Approve => case PlanFeedback => case PlanLimit => case RecordFeedback =>
    case RequestChanges => case Accept => case Cancel => case Retry =>
  }

  lemma CreateOk(cfg: Config, s: Sys, j: nat, dashboard: bool)
    requires SysInv(cfg, s)
    ensures StepOk(cfg, s, SysNext(cfg, s, Create(j, dashboard)))
  {
    if j !in s.jobs {
      JobCreated(cfg, s, j, NewJob(dashboard));
      NewLaneReachable(cfg, dashboard);
    }
  }

  lemma TickOk(cfg: Config, s: Sys, to: int)
    requires SysInv(cfg, s)
    ensures StepOk(cfg, s, SysNext(cfg, s, Tick(to)))
  {
    if to >= s.now && LocksFreshAt(cfg, s, to) {
      TickTables(cfg, s, s.(now := to));
      LanesStay(cfg, s, s.(now := to));
    }
  }

  lemma TickTables(cfg: Config, s: Sys, next: Sys)
    requires SysInv(cfg, s) && next == s.(now := next.now) && LocksFreshAt(cfg, s, next.now)
    ensures TablesOk(cfg, next) && forall j :: j in s.jobs ==> View(next, j) == View(s, j)
  {
    forall k | 0 <= k < |s.tasks| ensures LockFresh(cfg, next.now, s.tasks[k]) {
      HandlersMatchTasks(cfg, s, k);
      assert LockFresh(cfg, s.now, s.tasks[k]);
    }
    forall j | j in s.jobs ensures Placed(next, j) && View(next, j) == View(s, j) {
      AllStayPlaced(cfg, s, next, j);
    }
  }

  /** A step that moves no lane. */
  lemma LanesStay(cfg: Config, s: Sys, next: Sys)
    requires SysInv(cfg, s) && TablesOk(cfg, next) && next.jobs.Keys == s.jobs.Keys
    requires forall j :: j in s.jobs ==> View(next, j) == View(s, j)
    ensures StepOk(cfg, s, next)
  {
  }

  lemma ClaimedCount(s: Sys, rows: set<nat>)
    requires forall t :: t in rows ==> t !in s.running
    ensures AfterClaim(s, rows).running.Keys == s.running.Keys + rows
    ensures |AfterClaim(s, rows).running| == |s.running| + |rows|
  {
    var claimed := FreshHandlers(rows);
    var all := s.running + claimed;
    assert claimed.Keys == rows && all.Keys == s.running.Keys + rows;
    assert |all| == |all.Keys| && |s.running| == |s.running.Keys|;
  }

  lemma ClaimHappens(cfg: Config, s: Sys, rows: set<nat>)
    requires cfg.concurrency > |s.running|
    requires Q.IsTop(s.tasks, Q.EligibleRows(s.tasks, s.now, cfg.lockTtl), cfg.concurrency - |s.running|, rows)
    ensures SysNext(cfg, s, ClaimBatch(rows)) == AfterClaim(s, rows)
    ensures rows <= Q.EligibleRows(s.tasks, s.now, cfg.lockTtl)
  {
  }

  lemma LanesKeep(cfg: Config, s: Sys, next: Sys, j: nat, a: LaneAction)
    requires SysInv(cfg, s) && j in s.jobs && j in next.jobs && Placed(next, j)
    requires View(next, j) == View(s, j) || View(next, j) == LaneNext(cfg, View(s, j), a)
    ensures LaneStep(cfg, View(s, j), View(next, j)) && LaneReachable(cfg, View(next, j))
  {
    if View(next, j) != View(s, j) {
      NextLaneReachable(cfg, View(s, j), View(next, j), a);
    }
  }

  predicate Waiting(s: Sys, rows: set<nat>) {
    forall t :: t in rows ==> t < |s.tasks| && s.tasks[t].status == Q.Pending && t !in s.running
  }

  function AfterClaim(s: Sys, rows: set<nat>): Sys {
    s.(tasks := Q.ClaimRows(s.tasks, rows, s.restarts, s.now), running := s.running + FreshHandlers(rows))
  }

  /** One row after the claim. */
  predicate ClaimedRow(s: Sys, rows: set<nat>, next: Sys, k: nat)
    requires k < |s.tasks| && k < |next.tasks|
  {
    next.tasks[k] == (if k in rows then Q.Claimed(s.tasks[k], s.restarts, s.now) else s.tasks[k])
    && (k in next.running <==> k in s.running || k in rows)
    && (k in rows ==> next.running[k] == Claimed)
    && (k in s.running && k !in rows ==> next.running[k] == s.running[k])
  }

  lemma ClaimRowByRow(s: Sys, rows: set<nat>, next: Sys)
    requires next == AfterClaim(s, rows)
    ensures |next.tasks| == |s.tasks| && next.jobs == s.jobs && next.now == s.now
    ensures forall k :: 0 <= k < |s.tasks| ==> ClaimedRow(s, rows, next, k)
  {
  }

  lemma ClaimPlaces(cfg: Config, s: Sys, rows: set<nat>, next: Sys, j: nat)
    requires TablesOk(cfg, s) && Waiting(s, rows) && j in s.jobs
    requires |next.tasks| == |s.tasks| && next.jobs == s.jobs
    requires forall k :: 0 <= k < |s.tasks| ==> ClaimedRow(s, rows, next, k)
    ensures Placed(next, j)
    ensures View(next, j) == if Newest(s.tasks, j).value in rows
                             then View(s, j).(status := Q.Running, handler := Some(Claimed)) else View(s, j)
  {
    forall k | 0 <= k < |s.tasks| ensures next.tasks[k].jobId == s.tasks[k].jobId && (Idle(s, k) ==> Idle(next, k)) {
      assert ClaimedRow(s, rows, next, k);
    }
    AllStayPlaced(cfg, s, next, j);
    assert Placed(s, j) && ClaimedRow(s, rows, next, Newest(s.tasks, j).value);
  }

  /** The tables after a claim of waiting rows. */
  lemma ClaimTables(cfg: Config, s: Sys, rows: set<nat>, next: Sys)
    requires TablesOk(cfg, s) && Waiting(s, rows) && next.now == s.now
    requires |next.tasks| == |s.tasks| && next.jobs == s.jobs && next.running.Keys == s.running.Keys + rows
    requires forall k :: 0 <= k < |s.tasks| ==> ClaimedRow(s, rows, next, k)
    requires |next.running| <= Max(cfg.concurrency, 0)
    ensures TablesOk(cfg, next)
  {
    forall k | 0 <= k < |s.tasks| ensures LockFresh(cfg, next.now, next.tasks[k]) && next.tasks[k].jobId in next.jobs {
      assert LockFresh(cfg, s.now, s.tasks[k]) && ClaimedRow(s, rows, next, k);
    }
    forall j | j in s.jobs ensures Placed(next, j) {
      ClaimPlaces(cfg, s, rows, next, j);
    }
  }

  lemma ClaimOk(cfg: Config, s: Sys, rows: set<nat>)
    requires SysInv(cfg, s)
    ensures StepOk(cfg, s, SysNext(cfg, s, ClaimBatch(rows)))
  {
    var next := SysNext(cfg, s, ClaimBatch(rows));
    var limit := cfg.concurrency - |s.running|;
    if limit > 0 && Q.IsTop(s.tasks, Q.EligibleRows(s.tasks, s.now, cfg.lockTtl), limit, rows) {
      assert Waiting(s, rows) by {
        forall t | t in rows ensures t < |s.tasks| && s.tasks[t].status == Q.Pending && t !in s.running {
          EligibleIsPending(cfg, s, t);
        }
      }
      ClaimedCount(s, rows);
      ClaimRowByRow(s, rows, next);
      ClaimTables(cfg, s, rows, next);
      forall j | j in s.jobs ensures LaneStep(cfg, View(s, j), View(next, j)) && LaneReachable(cfg, View(next, j)) {
        ClaimPlaces(cfg, s, rows, next, j);
        LanesKeep(cfg, s, next, j, LaneAction.Claim);
      }
    }
  }

  function AfterRestart(s: Sys): Sys {
    s.(tasks := Q.ReclaimOrphaned(s.tasks, s.now), running := map[], restarts := s.restarts + 1)
  }

  lemma RestartPlaces(cfg: Config, s: Sys, j: nat)
    requires TablesOk(cfg, s) && j in s.jobs
    ensures var next := AfterRestart(s);
            Placed(next, j)
            && View(next, j) == View(s, j).(handler := None,
                                            status := if View(s, j).status == Q.Running then Q.Pending else View(s, j).status)
  {
    AllStayPlaced(cfg, s, AfterRestart(s), j);
  }

  lemma RestartTables(cfg: Config, s: Sys)
    requires TablesOk(cfg, s)
    ensures TablesOk(cfg, AfterRestart(s))
  {
    forall j | j in s.jobs ensures Placed(AfterRestart(s), j) {
      RestartPlaces(cfg, s, j);
    }
  }

  lemma RestartOk(cfg: Config, s: Sys)
    requires SysInv(cfg, s)
    ensures StepOk(cfg, s, AfterRestart(s))
  {
    var next := AfterRestart(s);
    RestartTables(cfg, s);
    forall j | j in s.jobs ensures LaneStep(cfg, View(s, j), View(next, j)) && LaneReachable(cfg, View(next, j)) {
      RestartLane(cfg, s, j);
    }
  }

  lemma RestartLane(cfg: Config, s: Sys, j: nat)
    requires SysInv(cfg, s) && j in s.jobs
    ensures var next := AfterRestart(s);
            Placed(next, j) && LaneStep(cfg, View(s, j), View(next, j)) && LaneReachable(cfg, View(next, j))
  {
    RestartPlaces(cfg, s, j);
    LanesKeep(cfg, s, AfterRestart(s), j, LaneAction.Restart);
  }

  /** With living heartbeats the stale sweep finds nothing. */
  lemma ExpireFindsNothing(cfg: Config, s: Sys)
    requires SysInv(cfg, s)
    ensures SysNext(cfg, s, ExpireStale) == s
  {
    forall k | 0 <= k < |s.tasks| ensures !Q.Expired(s.tasks[k], s.now, cfg.lockTtl) {
      assert LockFresh(cfg, s.now, s.tasks[k]);
    }
    assert forall j :: !HasExpired(cfg, s, j);
    assert SysNext(cfg, s, ExpireStale).tasks == s.tasks;
    assert SysNext(cfg, s, ExpireStale).jobs == s.jobs;
  }

  lemma StepKeeps(cfg: Config, s: Sys, a: Action)
    requires SysInv(cfg, s)
    ensures StepOk(cfg, s, SysNext(cfg, s, a))
  {
    match a
    case Create(j, dashboard) => CreateOk(cfg, s, j, dashboard);
    case ClaimBatch(rows) => ClaimOk(cfg, s, rows);
    case Heartbeat(t) =>
      if Held(s, t) {
        HandlersMatchTasks(cfg, s, t);
        HeartbeatMoves(cfg, s, t);
        NoLaneMoves(cfg, s, SysNext(cfg, s, a), s.tasks[t].jobId);
      }
    case Tick(to) => TickOk(cfg, s, to);
    case Begin(t, discovered) => BeginOk(cfg, s, t, discovered);
    case RunAgent(t) => RunAgentOk(cfg, s, t);
    case Finish(t, reply) => FinishOk(cfg, s, t, reply);
    case Throw(t) => ThrowOk(cfg, s, t);
    case ExpireStale => ExpireFindsNothing(cfg, s);
    case Restart => RestartOk(cfg, s);
    case Ask(j, act) => if j in s.jobs { AskOk(cfg, s, j, act); }
  }

  lemma {:induction false} Reachable(cfg: Config, actions: seq<Action>)
    ensures SysInv(cfg, Run(cfg, actions))
  {
    if |actions| > 0 {
      Reachable(cfg, actions[..|actions| - 1]);
      StepKeeps(cfg, Run(cfg, actions[..|actions| - 1]), actions[|actions| - 1]);
    }
  }

  // ── A work pass ────────────────────────────────────────────────────────────

  /** n agent runs of the same work pass, one after the other. */
  ghost function RunAgents(cfg: Config, s: Sys, t: nat, n: nat): Sys {
    if n == 0 then s else SysNext(cfg, RunAgents(cfg, s, t, n - 1), Action.RunAgent(t))
  }

  lemma {:induction false} PassIsRuns(cfg: Config, s: Sys, t: nat, n: nat, after: Sys)
    requires Held(s, t) && s.tasks[t].kind in WORK_PHASES && s.running[t].Working? && s.running[t].attempts == 0
    requires n <= MaxRuns(cfg) && after == AfterRuns(s, t, n)
    ensures RunAgents(cfg, s, t, n) == after
  {
    if n == 0 {
      NoRuns(s, t);
    } else {
      PassIsRuns(cfg, s, t, n - 1, AfterRuns(s, t, n - 1));
      NextRun(cfg, s, t, n - 1);
    }
  }

  /** n runs recorded, and counted by the handler. */
  function AfterRuns(s: Sys, t: nat, n: nat): Sys
    requires Held(s, t) && s.running[t].Working? && s.running[t].attempts == 0
  {
    var j := s.tasks[t].jobId;
    s.(jobs := s.jobs[j := AddRuns(s.jobs[j], s.tasks[t].kind, s.running[t], n)],
       running := s.running[t := s.running[t].(attempts := n)])
  }

  lemma NoRuns(s: Sys, t: nat)
    requires Held(s, t) && s.running[t].Working? && s.running[t].attempts == 0
    ensures AfterRuns(s, t, 0) == s
  {
    assert s.jobs[s.tasks[t].jobId := s.jobs[s.tasks[t].jobId]] == s.jobs;
    assert s.running[t := s.running[t]] == s.running;
  }

  lemma NextRun(cfg: Config, s: Sys, t: nat, n: nat)
    requires Held(s, t) && s.tasks[t].kind in WORK_PHASES && s.running[t].Working? && s.running[t].attempts == 0
    requires n < MaxRuns(cfg)
    ensures SysNext(cfg, AfterRuns(s, t, n), Action.RunAgent(t)) == AfterRuns(s, t, n + 1)
  {
    OneRun(cfg, AfterRuns(s, t, n), t);
  }

  lemma OneRun(cfg: Config, s: Sys, t: nat)
    requires Held(s, t) && s.tasks[t].kind in WORK_PHASES && s.running[t].Working? && s.running[t].attempts < MaxRuns(cfg)
    ensures var j, h := s.tasks[t].jobId, s.running[t];
            SysNext(cfg, s, Action.RunAgent(t))
            == s.(jobs := s.jobs[j := AddRun(s.jobs[j], s.tasks[t].kind, h)], running := s.running[t := h.(attempts := h.attempts + 1)])
  {
    assert MayRun(cfg, LaneAt(s, s.tasks[t].jobId, t));
  }
}
