/** The orchestrator's stage handlers and human actions, as methods over the shared database. */
module Orchestrator {
  import opened Common
  import opened Jobs
  import opened Stages
  import opened Services
  import Lanes
  import Q = Queue
  import Records
  import Reviews
  import Texts
  import System

  /** What one agent run of a work pass came to. */
  datatype Attempt = Attempt(succeeded: bool, committed: bool, branchHasWork: bool, judgedComplete: bool)

  /** The n-th run (1-based) fails the pass: a failed agent, or nothing done at all on the first run. */
  predicate AttemptThrows(a: Attempt, n: nat) {
    !a.succeeded || (!a.committed && n == 1 && !a.branchHasWork)
  }

  /** The n-th run is the last of its pass. */
  predicate AttemptEnds(a: Attempt, n: nat, maxRetries: int) {
    AttemptThrows(a, n) || maxRetries <= 0 || a.judgedComplete || n > maxRetries
  }

  /** Both tables after an outcome: the job row is written either way, the successor only on success. */
  predicate StageEnded(jobs0: map<nat, Job>, tasks0: seq<Q.Task>, jobs1: map<nat, Job>, tasks1: seq<Q.Task>,
                  cfg: Config, now: int, jobId: nat, outcome: Outcome, status: Status)
  {
    (status.Success? <==> outcome.Committed?)
    && jobs1 == jobs0[jobId := outcome.job]
    && tasks1 == if outcome.Committed? && outcome.next.Some?
                 then Q.Enqueue(tasks0, jobId, outcome.next.value, now, cfg.maxAttempts) else tasks0
  }

  /** Both tables after a human action that was refused or accepted. */
  predicate HumanAnswered(jobs0: map<nat, Job>, tasks0: seq<Q.Task>, jobs1: map<nat, Job>, tasks1: seq<Q.Task>,
                     cfg: Config, now: int, jobId: nat, answer: Answer, ok: bool)
  {
    match answer
    case Refused => !ok && jobs1 == jobs0 && tasks1 == tasks0
    case Accepted(job, next) =>
      ok && jobs1 == jobs0[jobId := job]
      && tasks1 == if next.Some? then Q.Enqueue(tasks0, jobId, next.value, now, cfg.maxAttempts) else tasks0
  }

  class OrchestratorService {
    const prisma: Database
    const config: Config
    const jobs: JobService
    const queue: QueueService
    const verify: VerifyService

    predicate Wired() {
      jobs.prisma == prisma && queue.prisma == prisma && queue.config == config && verify.prisma == prisma
    }

    constructor (prisma: Database, config: Config)
      ensures Wired() && this.prisma == prisma && this.config == config
    {
      this.prisma, this.config := prisma, config;
      this.jobs := new JobService(prisma);
      this.queue := new QueueService(prisma, config);
      this.verify := new VerifyService(prisma);
    }

    /** The final transition of a stage, and its successor's task. */
    method MoveOn(jobId: nat, to: JobState, next: Option<TaskKind>) returns (status: Status)
      requires Wired() && jobId in prisma.jobs
      modifies prisma`jobs, prisma`tasks
      ensures StageEnded(old(prisma.jobs), old(prisma.tasks), prisma.jobs, prisma.tasks, config, prisma.now, jobId,
                    MoveOrThrow(old(prisma.jobs)[jobId], to, next), status)
    {
      ghost var before := prisma.jobs;
      assert before[jobId := before[jobId]] == before;
      :- jobs.Transition(jobId, to, Agent, false);
      if next.Some? {
        queue.Enqueue(jobId, next.value);
      }
      return Success;
    }

    // ── Stage handlers, first halves ─────────────────────────────────────────

    /**
     * processTask up to the stage's first wait. `proceeding` says whether the stage
     * goes on to wait; if not, it has already ended with `status`.
     */
    method BeginStage(jobId: nat, kind: TaskKind, discovered: Option<string>)
      returns (status: Status, proceeding: bool, handler: Handler)
      requires Wired()
      modifies prisma`jobs, prisma`tasks
      ensures jobId !in old(prisma.jobs) ==>
                status.Success? && !proceeding && prisma.jobs == old(prisma.jobs) && prisma.tasks == old(prisma.tasks)
      ensures jobId in old(prisma.jobs) ==>
              match Stages.Begin(old(prisma.jobs)[jobId], kind, discovered)
              case Proceed(job, h) =>
                proceeding && handler == h && prisma.jobs == old(prisma.jobs)[jobId := job] && prisma.tasks == old(prisma.tasks)
              case Ended(outcome) =>
                !proceeding && StageEnded(old(prisma.jobs), old(prisma.tasks), prisma.jobs, prisma.tasks, config, prisma.now, jobId,
                                     outcome, status)
    {
      status, proceeding, handler := Success, false, Claimed;
      if jobId !in prisma.jobs {
        return;
      }
      var job := prisma.jobs[jobId];
      ghost var before := prisma.jobs;
      assert before[jobId := job] == before;
      if Terminal(job.state) {
        return;
      }
      var read: set<nat> := {};
      match kind {
        case Plan =>
          status := jobs.Transition(jobId, Planning, Agent, false);
        case Implement =>
          status := jobs.Transition(jobId, Implementing, Agent, false);
          if job.hasPr || job.dashboard {
            read := FeedbackAfter(job, LastRunStamp(job.runs, {Implement}));
          }
        case Verify =>
          status := jobs.Transition(jobId, Verifying, Agent, false);
          if status.Success? && job.command == "" && discovered.Some? {
            prisma.jobs := prisma.jobs[jobId := prisma.jobs[jobId].(command := Texts.Trim(discovered.value))];
          }
        case Review =>
          status := jobs.Transition(jobId, SelfReviewing, Agent, false);
        case Revise =>
          read := Unaddressed(job);
        case OpenPr =>
          if Unaddressed(job) != {} {
            status := MoveOn(jobId, Revising, Some(Revise));
            return;
          }
      }
      if status.Success? {
        proceeding := true;
        handler := Working(job.stamp, read, |job.feedback|, 0);
      }
    }

    // ── The completion loop ──────────────────────────────────────────────────

    /**
     * One IMPLEMENT or REVISE pass under the completion judge: run the agent, judge
     * what it committed, run it again with the critique, until it is judged
     * complete, fails, or the retries are used up. `script` is what the runs come to.
     */
    method RunWithCompletionLoop(jobId: nat, kind: TaskKind, h: Handler, script: seq<Attempt>)
      returns (status: Status, runs: nat)
      requires jobId in prisma.jobs && h.Working? && h.attempts == 0 && |script| >= MaxRuns(config)
      modifies prisma`jobs
      ensures 1 <= runs <= MaxRuns(config)
      ensures forall i :: 0 <= i < runs - 1 ==> !AttemptEnds(script[i], i + 1, config.maxCompletionRetries)
      ensures AttemptEnds(script[runs - 1], runs, config.maxCompletionRetries)
      ensures status.Threw? <==> AttemptThrows(script[runs - 1], runs)
      ensures forall i :: 0 <= i < runs - 1 ==>
                script[i].succeeded && !script[i].judgedComplete && (i == 0 ==> script[0].committed || script[0].branchHasWork)
      ensures status.Threw? <==> !script[runs - 1].succeeded
                                 || (runs == 1 && !script[0].committed && !script[0].branchHasWork)
      ensures runs <= Max(config.maxCompletionRetries, 0) + 1
      ensures status.Success? ==> script[runs - 1].judgedComplete || runs == Max(config.maxCompletionRetries, 0) + 1
      ensures prisma.jobs == old(prisma.jobs)[jobId := AddRuns(old(prisma.jobs)[jobId], kind, h, runs)]
    {
      var maxRetries := config.maxCompletionRetries;
      ghost var before := prisma.jobs;
      assert before[jobId := before[jobId]] == before;
      var attempt := 1;
      var critique := false;
      while true
        invariant 1 <= attempt <= MaxRuns(config)
        invariant critique <==> attempt > 1
        invariant forall i :: 0 <= i < attempt - 1 ==> !AttemptEnds(script[i], i + 1, maxRetries)
        invariant prisma.jobs == before[jobId := AddRuns(before[jobId], kind, h, attempt - 1)]
        decreases MaxRuns(config) - attempt
      {
        var job := prisma.jobs[jobId];
        var prompt := if kind == Implement && critique then {} else h.read;
        prisma.jobs := prisma.jobs[jobId := job.(runs := job.runs + [WorkRun(kind, job.stamp, h.snapshot, prompt)],
                                                 stamp := job.stamp + 1)];
        var res := script[attempt - 1];
        if !res.succeeded {
          return Threw, attempt;
        }
        if !res.committed {
          if attempt == 1 && !res.branchHasWork {
            return Threw, attempt;
          }
        }
        if maxRetries <= 0 || res.judgedComplete || attempt > maxRetries {
          return Success, attempt;
        }
        critique := true;
        attempt := attempt + 1;
      }
    }

    // ── Stage handlers, second halves ────────────────────────────────────────

    method FinishPlan(jobId: nat, content: string) returns (status: Status)
      requires Wired() && jobId in prisma.jobs
      modifies prisma`jobs, prisma`tasks
      ensures StageEnded(old(prisma.jobs), old(prisma.tasks), prisma.jobs, prisma.tasks, config, prisma.now, jobId,
                    Stages.FinishPlan(old(prisma.jobs)[jobId], content), status)
    {
      var job := prisma.jobs[jobId];
      var last := NewestRevision(job.plans, AnyRevision);
      var nextRevision := (if last.Some? then last.value.number else 0) + 1;
      prisma.jobs := prisma.jobs[jobId := job.(plans := job.plans + [PlanRevision(nextRevision, Proposed, Texts.Trim(content))])];
      status := MoveOn(jobId, AwaitingPlanApproval, None);
    }

    method FinishWork(jobId: nat) returns (status: Status)
      requires Wired() && jobId in prisma.jobs
      modifies prisma`jobs, prisma`tasks
      ensures StageEnded(old(prisma.jobs), old(prisma.tasks), prisma.jobs, prisma.tasks, config, prisma.now, jobId,
                    MoveOrThrow(old(prisma.jobs)[jobId], Verifying, Some(Verify)), status)
    {
      status := MoveOn(jobId, Verifying, Some(Verify));
    }

    /** Run the command (once more if it fails), record the result, and route on it. */
    method FinishVerify(jobId: nat, first: CheckRun, second: CheckRun) returns (status: Status)
      requires Wired() && jobId in prisma.jobs
      modifies prisma`jobs, prisma`tasks
      ensures StageEnded(old(prisma.jobs), old(prisma.tasks), prisma.jobs, prisma.tasks, config, prisma.now, jobId,
                    Stages.FinishVerify(old(prisma.jobs)[jobId], config, first, second), status)
    {
      var job := prisma.jobs[jobId];
      var cycle := job.cycle;
      if job.command == "" {
        status := MoveOn(jobId, SelfReviewing, Some(Review));
        return;
      }
      var result := first;
      if result == Red {
        result := second;
      }
      var ok := result != Red;
      var attempt := verify.CountForCycle(jobId, cycle);
      verify.Record(jobId, cycle, attempt + 1, ok);
      assert prisma.jobs[jobId] == RecordVerify(job, ok);
      status := RouteVerify(jobId, ok);
    }

    /** Where a recorded result leads: review, another revision, or out with a red draft. */
    method RouteVerify(jobId: nat, ok: bool) returns (status: Status)
      requires Wired() && jobId in prisma.jobs
      modifies prisma`jobs, prisma`tasks
      ensures var job := old(prisma.jobs)[jobId];
              var to := if ok then (SelfReviewing, Review)
                        else if FailuresIn(job.verifyRuns, job.cycle) < config.maxVerifyAttempts then (Revising, Revise)
                        else (OpeningPr, OpenPr);
              StageEnded(old(prisma.jobs), old(prisma.tasks), prisma.jobs, prisma.tasks, config, prisma.now, jobId,
                         MoveOrThrow(job, to.0, Some(to.1)), status)
    {
      if ok {
        status := MoveOn(jobId, SelfReviewing, Some(Review));
        return;
      }
      var failures := verify.CountFailedForCycle(jobId, prisma.jobs[jobId].cycle);
      if failures < config.maxVerifyAttempts {
        status := MoveOn(jobId, Revising, Some(Revise));
      } else {
        status := MoveOn(jobId, OpeningPr, Some(OpenPr));
      }
    }

    /** The cycle's pass count, and how many of its newest passes in a row were unparseable. */
    method ReadPasses(jobId: nat, cycle: nat) returns (count: nat, unparseable: nat)
      requires jobId in prisma.jobs
      ensures count == PassesIn(prisma.jobs[jobId].passes, cycle)
      ensures unparseable == TrailingUnparseable(prisma.jobs[jobId].passes, cycle)
      ensures var own := Records.OwnPasses(prisma.jobs[jobId].passes, cycle);
              count == |own| && Records.EndInSentinels(own, unparseable) && !Records.EndInSentinels(own, unparseable + 1)
    {
      var passes := prisma.jobs[jobId].passes;
      count, unparseable := 0, 0;
      for i := 0 to |passes|
        invariant count == PassesIn(passes[..i], cycle)
        invariant unparseable == TrailingUnparseable(passes[..i], cycle)
      {
        assert passes[..i + 1][..i] == passes[..i];
        if passes[i].cycle == cycle {
          count := count + 1;
          unparseable := if passes[i].sentinel then unparseable + 1 else 0;
        }
      }
      Records.PassesAreCounted(passes, cycle);
      Records.TrailingIsARow(passes, cycle, unparseable);
      assert passes[..|passes|] == passes;
    }

    method FinishReview(jobId: nat, review: Option<Reviews.RawReview>, quotesSentinel: bool) returns (status: Status)
      requires Wired() && jobId in prisma.jobs
      modifies prisma`jobs, prisma`tasks
      ensures StageEnded(old(prisma.jobs), old(prisma.tasks), prisma.jobs, prisma.tasks, config, prisma.now, jobId,
                    Stages.FinishReview(old(prisma.jobs)[jobId], config, review, quotesSentinel), status)
    {
      var job := prisma.jobs[jobId];
      var cycle := job.cycle;
      var count, priorUnparseable := ReadPasses(jobId, cycle);
      var pass := count + 1;
      var verifyOk := LastVerify(job.verifyRuns, cycle);
      var result := if review.Some? then Reviews.FromRaw(review.value).(verifyOk := verifyOk) else Reviews.Unparseable(verifyOk);
      prisma.jobs := prisma.jobs[jobId := job.(passes := job.passes + [ReviewPass(cycle, pass, result, review.None? || quotesSentinel)])];
      assert prisma.jobs[jobId] == RecordReview(job, review, quotesSentinel);
      var unparseable := if review.None? then priorUnparseable + 1 else priorUnparseable;
      status := RouteReview(jobId, Reviews.MeetsThreshold(result), pass, review.Some?, unparseable);
    }

    /** Where a recorded review leads. */
    method RouteReview(jobId: nat, passed: bool, pass: nat, parsed: bool, unparseable: nat) returns (status: Status)
      requires Wired() && jobId in prisma.jobs
      modifies prisma`jobs, prisma`tasks
      ensures var job := old(prisma.jobs)[jobId];
              var retry := pass < config.maxReviewPasses && (parsed || unparseable < config.maxReviewRetries);
              StageEnded(old(prisma.jobs), old(prisma.tasks), prisma.jobs, prisma.tasks, config, prisma.now, jobId,
                         if passed || !retry then MoveOrThrow(job, OpeningPr, Some(OpenPr))
                         else if parsed then MoveOrThrow(job, Revising, Some(Revise))
                         else Committed(job, Some(Review)), status)
    {
      if passed {
        status := MoveOn(jobId, OpeningPr, Some(OpenPr));
        return;
      }
      if pass < config.maxReviewPasses && (parsed || unparseable < config.maxReviewRetries) {
        if parsed {
          status := MoveOn(jobId, Revising, Some(Revise));
        } else {
          assert prisma.jobs[jobId := prisma.jobs[jobId]] == prisma.jobs;
          queue.Enqueue(jobId, Review);
          status := Success;
        }
        return;
      }
      status := MoveOn(jobId, OpeningPr, Some(OpenPr));
    }

    method FinishOpenPr(jobId: nat) returns (status: Status)
      requires Wired() && jobId in prisma.jobs
      modifies prisma`jobs, prisma`tasks
      ensures StageEnded(old(prisma.jobs), old(prisma.tasks), prisma.jobs, prisma.tasks, config, prisma.now, jobId,
                    Stages.FinishOpenPr(old(prisma.jobs)[jobId]), status)
    {
      var job := prisma.jobs[jobId];
      if !job.dashboard && !job.hasPr {
        prisma.jobs := prisma.jobs[jobId := job.(hasPr := true)];
      } else {
        assert prisma.jobs[jobId := job] == prisma.jobs;
      }
      status := MoveOn(jobId, AwaitingPrApproval, None);
    }

    method FinishStage(jobId: nat, kind: TaskKind, reply: Reply) returns (status: Status)
      requires Wired() && jobId in prisma.jobs
      modifies prisma`jobs, prisma`tasks
      ensures StageEnded(old(prisma.jobs), old(prisma.tasks), prisma.jobs, prisma.tasks, config, prisma.now, jobId,
                    Stages.Finish(old(prisma.jobs)[jobId], kind, config, reply), status)
    {
      match kind {
        case Plan => status := FinishPlan(jobId, reply.plan);
        case Implement => status := FinishWork(jobId);
        case Revise => status := FinishWork(jobId);
        case Verify => status := FinishVerify(jobId, reply.first, reply.second);
        case Review => status := FinishReview(jobId, reply.review, reply.quotesSentinel);
        case OpenPr => status := FinishOpenPr(jobId);
      }
    }

    // ── Exhaustion and human actions ─────────────────────────────────────────

    /** Cancel what is outstanding and fail the job; a terminal job stays as it is. */
    method OnTaskExhausted(jobId: nat)
      requires Wired()
      modifies prisma`jobs, prisma`tasks
      ensures prisma.tasks == if jobId in old(prisma.jobs) then Q.CancelForJob(old(prisma.tasks), jobId) else old(prisma.tasks)
      ensures prisma.jobs == if jobId in old(prisma.jobs) then old(prisma.jobs)[jobId := Exhaust(old(prisma.jobs)[jobId])]
                             else old(prisma.jobs)
    {
      if jobId !in prisma.jobs {
        return;
      }
      ghost var before := prisma.jobs;
      assert before[jobId := before[jobId]] == before;
      queue.CancelForJob(jobId);
      var status := jobs.Transition(jobId, Failed, Actor.System, false);
    }

    /** createDashboardJob, and what a labelled issue does once its job is known to be new. */
    method CreateJob(jobId: nat, dashboard: bool)
      requires Wired() && jobId !in prisma.jobs
      modifies prisma`jobs, prisma`tasks
      ensures prisma.jobs == old(prisma.jobs)[jobId := NewJob(dashboard)]
      ensures prisma.tasks == Q.Enqueue(old(prisma.tasks), jobId, Plan, prisma.now, config.maxAttempts)
    {
      jobs.Create(jobId, dashboard);
      queue.Enqueue(jobId, Plan);
    }

    method ApprovePlan(jobId: nat) returns (approved: bool)
      requires Wired()
      modifies prisma`jobs, prisma`tasks
      ensures if jobId !in old(prisma.jobs) then !approved && prisma.jobs == old(prisma.jobs) && prisma.tasks == old(prisma.tasks)
              else HumanAnswered(old(prisma.jobs), old(prisma.tasks), prisma.jobs, prisma.tasks, config, prisma.now, jobId,
                                 Approve(old(prisma.jobs)[jobId]), approved)
    {
      if jobId !in prisma.jobs {
        return false;
      }
      var job := prisma.jobs[jobId];
      if job.state != AwaitingPlanApproval {
        return false;
      }
      prisma.jobs := prisma.jobs[jobId := job.(plans := Restatus(job.plans, Approved))];
      prisma.jobs := prisma.jobs[jobId := prisma.jobs[jobId].(cycle := job.cycle + 1)];
      var status := jobs.Transition(jobId, Implementing, Human, false);
      queue.Enqueue(jobId, Implement);
      return true;
    }

    method SubmitPlanFeedback(jobId: nat) returns (ok: bool)
      requires Wired()
      modifies prisma`jobs, prisma`tasks
      ensures if jobId !in old(prisma.jobs) then !ok && prisma.jobs == old(prisma.jobs) && prisma.tasks == old(prisma.tasks)
              else HumanAnswered(old(prisma.jobs), old(prisma.tasks), prisma.jobs, prisma.tasks, config, prisma.now, jobId,
                                 PlanFeedback(old(prisma.jobs)[jobId]), ok)
    {
      if jobId !in prisma.jobs {
        return false;
      }
      var job := prisma.jobs[jobId];
      if job.state != AwaitingPlanApproval {
        return false;
      }
      prisma.jobs := prisma.jobs[jobId := job.(plans := Restatus(job.plans, Superseded))];
      var status := jobs.Transition(jobId, Planning, Human, false);
      queue.Enqueue(jobId, Plan);
      return true;
    }

    method AcceptResult(jobId: nat) returns (ok: bool)
      requires Wired()
      modifies prisma`jobs
      ensures if jobId !in old(prisma.jobs) then !ok && prisma.jobs == old(prisma.jobs) && prisma.tasks == old(prisma.tasks)
              else HumanAnswered(old(prisma.jobs), old(prisma.tasks), prisma.jobs, prisma.tasks, config, prisma.now, jobId,
                                 Accept(old(prisma.jobs)[jobId]), ok)
    {
      if jobId !in prisma.jobs {
        return false;
      }
      if prisma.jobs[jobId].state != AwaitingPrApproval {
        return false;
      }
      var status := jobs.Transition(jobId, Done, Human, false);
      return true;
    }

    method RequestChanges(jobId: nat) returns (ok: bool)
      requires Wired()
      modifies prisma`jobs, prisma`tasks
      ensures if jobId !in old(prisma.jobs) then !ok && prisma.jobs == old(prisma.jobs) && prisma.tasks == old(prisma.tasks)
              else HumanAnswered(old(prisma.jobs), old(prisma.tasks), prisma.jobs, prisma.tasks, config, prisma.now, jobId,
                                 Stages.RequestChanges(old(prisma.jobs)[jobId]), ok)
    {
      if jobId !in prisma.jobs {
        return false;
      }
      var job := prisma.jobs[jobId];
      if job.state != AwaitingPrApproval {
        return false;
      }
      prisma.jobs := prisma.jobs[jobId := job.(feedback := job.feedback + [job.stamp], stamp := job.stamp + 1)];
      prisma.jobs := prisma.jobs[jobId := prisma.jobs[jobId].(cycle := job.cycle + 1)];
      var status := jobs.Transition(jobId, Revising, Human, false);
      queue.Enqueue(jobId, Revise);
      return true;
    }

    method CancelJob(jobId: nat) returns (cancelled: bool)
      requires Wired()
      modifies prisma`jobs, prisma`tasks
      ensures cancelled <==> jobId in old(prisma.jobs) && Cancel(old(prisma.jobs)[jobId]).Accepted?
      ensures !cancelled ==> prisma.jobs == old(prisma.jobs) && prisma.tasks == old(prisma.tasks)
      ensures cancelled ==> prisma.jobs == old(prisma.jobs)[jobId := Cancel(old(prisma.jobs)[jobId]).job]
                            && prisma.tasks == Q.CancelForJob(old(prisma.tasks), jobId)
    {
      if jobId !in prisma.jobs || Terminal(prisma.jobs[jobId].state) {
        return false;
      }
      queue.CancelForJob(jobId);
      var status := jobs.Transition(jobId, Cancelled, Human, false);
      return true;
    }

    /** A human's comment on a proposed plan: iteration feedback, until the revision limit stops the job. */
    method OnPlanComment(jobId: nat) returns (act: Lanes.HumanAct, ok: bool)
      requires Wired()
      modifies prisma`jobs, prisma`tasks
      ensures jobId in old(prisma.jobs) ==>
                (act == Lanes.HumanAct.PlanLimit <==> PlanLimit(old(prisma.jobs)[jobId], config).Accepted?)
      ensures act in {Lanes.HumanAct.PlanLimit, Lanes.HumanAct.PlanFeedback}
      ensures if jobId !in old(prisma.jobs) then !ok && prisma.jobs == old(prisma.jobs) && prisma.tasks == old(prisma.tasks)
              else HumanAnswered(old(prisma.jobs), old(prisma.tasks), prisma.jobs, prisma.tasks, config, prisma.now, jobId,
                                 if act == Lanes.HumanAct.PlanLimit then PlanLimit(old(prisma.jobs)[jobId], config)
                                 else PlanFeedback(old(prisma.jobs)[jobId]), ok)
      ensures ok <==> jobId in old(prisma.jobs) && old(prisma.jobs)[jobId].state == AwaitingPlanApproval
      ensures ok ==> jobId in prisma.jobs
                     && prisma.jobs[jobId].state == if |old(prisma.jobs)[jobId].plans| >= config.maxPlanRevisions then Failed else Planning
    {
      act := Lanes.HumanAct.PlanFeedback;
      if jobId !in prisma.jobs || prisma.jobs[jobId].state != AwaitingPlanApproval {
        return act, false;
      }
      if |prisma.jobs[jobId].plans| >= config.maxPlanRevisions {
        var status := jobs.Transition(jobId, Failed, Actor.System, false);
        return Lanes.HumanAct.PlanLimit, true;
      }
      ok := SubmitPlanFeedback(jobId);
    }

    /** A revise command or a review on a pull request: recorded, and a new round if the job is parked. */
    method OnPrFeedback(jobId: nat) returns (act: Lanes.HumanAct, ok: bool)
      requires Wired()
      modifies prisma`jobs, prisma`tasks
      ensures jobId in old(prisma.jobs) ==>
                (act == Lanes.HumanAct.RequestChanges <==>
                   old(prisma.jobs)[jobId].hasPr && old(prisma.jobs)[jobId].state == AwaitingPrApproval)
      ensures act in {Lanes.HumanAct.RequestChanges, Lanes.HumanAct.RecordFeedback}
      ensures if jobId !in old(prisma.jobs) then !ok && prisma.jobs == old(prisma.jobs) && prisma.tasks == old(prisma.tasks)
              else HumanAnswered(old(prisma.jobs), old(prisma.tasks), prisma.jobs, prisma.tasks, config, prisma.now, jobId,
                                 if act == Lanes.HumanAct.RequestChanges then Stages.RequestChanges(old(prisma.jobs)[jobId])
                                 else RecordFeedback(old(prisma.jobs)[jobId]), ok)
    {
      act := Lanes.HumanAct.RecordFeedback;
      if jobId !in prisma.jobs || !prisma.jobs[jobId].hasPr {
        return act, false;
      }
      if prisma.jobs[jobId].state == AwaitingPrApproval {
        ok := RequestChanges(jobId);
        return Lanes.HumanAct.RequestChanges, ok;
      }
      var job := prisma.jobs[jobId];
      prisma.jobs := prisma.jobs[jobId := job.(feedback := job.feedback + [job.stamp], stamp := job.stamp + 1)];
      return act, true;
    }

    /** findFirst orderBy createdAt desc. */
    method LastTask(jobId: nat) returns (row: Option<nat>)
      ensures row == System.Newest(prisma.tasks, jobId)
    {
      row := None;
      for i := 0 to |prisma.tasks|
        invariant row == System.Newest(prisma.tasks[..i], jobId)
        invariant row.Some? ==> row.value < i
      {
        assert prisma.tasks[..i + 1][..i] == prisma.tasks[..i];
        if prisma.tasks[i].jobId == jobId {
          row := Some(i);
        }
      }
      assert prisma.tasks[..|prisma.tasks|] == prisma.tasks;
    }

    /** Re-run a FAILED job from the phase it died in. */
    method RetryJob(jobId: nat) returns (retried: bool, kind: TaskKind)
      requires Wired()
      modifies prisma`jobs, prisma`tasks
      ensures var newest := System.Newest(old(prisma.tasks), jobId);
              kind == if newest.Some? && newest.value < |old(prisma.tasks)| then old(prisma.tasks)[newest.value].kind else Review
      ensures if jobId !in old(prisma.jobs) then !retried && prisma.jobs == old(prisma.jobs) && prisma.tasks == old(prisma.tasks)
              else HumanAnswered(old(prisma.jobs), old(prisma.tasks), prisma.jobs, prisma.tasks, config, prisma.now, jobId,
                                 Retry(old(prisma.jobs)[jobId], kind), retried)
    {
      var last := LastTask(jobId);
      kind := if last.Some? && last.value < |prisma.tasks| then prisma.tasks[last.value].kind else Review;
      if jobId !in prisma.jobs || prisma.jobs[jobId].state != Failed {
        return false, kind;
      }
      var status := jobs.Transition(jobId, StateFor(kind), Human, true);
      queue.Enqueue(jobId, kind);
      return true, kind;
    }
  }
}
