/**
 * What people do to jobs while the worker runs: each action, as the orchestrator's
 * method performs it, is a step of the system, so everything proved of runs holds of
 * any mixture of these calls and the worker's.
 */
module Operators {
  import opened Jobs
  import opened Stages
  import opened Lanes
  import opened System
  import Q = Queue
  import O = Orchestrator
  import Worker

  /** What an action's method may leave in the tables, for a job that need not exist. */
  predicate Acted(cfg: Config, s: Sys, j: nat, act: HumanAct, jobs: map<nat, Job>, tasks: seq<Q.Task>, ok: bool) {
    if j !in s.jobs then !ok && jobs == s.jobs && tasks == s.tasks
    else if act != Cancel then O.HumanAnswered(s.jobs, s.tasks, jobs, tasks, cfg, s.now, j, System.Answer(cfg, s, j, act), ok)
    else
      (ok <==> Stages.Cancel(s.jobs[j]).Accepted?)
      && (!ok ==> jobs == s.jobs && tasks == s.tasks)
      && (ok ==> jobs == s.jobs[j := Stages.Cancel(s.jobs[j]).job] && tasks == Q.CancelForJob(s.tasks, j))
  }

  /** It is the system's step for the action, and a refused one changes nothing. */
  lemma ActIsStep(cfg: Config, s: Sys, j: nat, act: HumanAct, jobs: map<nat, Job>, tasks: seq<Q.Task>, ok: bool)
    requires Acted(cfg, s, j, act, jobs, tasks, ok)
    ensures s.(jobs := jobs, tasks := tasks) == SysNext(cfg, s, Action.Ask(j, act))
    ensures !ok ==> jobs == s.jobs && tasks == s.tasks
  {
  }

  class Desk {
    const worker: Worker.WorkerService

    constructor (worker: Worker.WorkerService)
      ensures this.worker == worker
    {
      this.worker := worker;
    }

    method CreateJob(jobId: nat, dashboard: bool)
      requires worker.Valid() && jobId !in worker.prisma.jobs
      modifies worker.prisma`jobs, worker.prisma`tasks
      ensures worker.Valid()
      ensures worker.State() == SysNext(worker.config, old(worker.State()), Create(jobId, dashboard))
    {
      Worker.Keeps(worker.config, worker.State(), Create(jobId, dashboard));
      worker.orchestrator.CreateJob(jobId, dashboard);
    }

    method ApprovePlan(jobId: nat) returns (ok: bool)
      requires worker.Valid()
      modifies worker.prisma`jobs, worker.prisma`tasks
      ensures worker.Valid() && worker.State() == SysNext(worker.config, old(worker.State()), Action.Ask(jobId, HumanAct.Approve))
    {
      ghost var before := worker.State();
      Worker.Keeps(worker.config, before, Action.Ask(jobId, HumanAct.Approve));
      ok := worker.orchestrator.ApprovePlan(jobId);
      ActIsStep(worker.config, before, jobId, HumanAct.Approve, worker.prisma.jobs, worker.prisma.tasks, ok);
    }

    method AcceptResult(jobId: nat) returns (ok: bool)
      requires worker.Valid()
      modifies worker.prisma`jobs, worker.prisma`tasks
      ensures worker.Valid() && worker.State() == SysNext(worker.config, old(worker.State()), Action.Ask(jobId, HumanAct.Accept))
    {
      ghost var before := worker.State();
      Worker.Keeps(worker.config, before, Action.Ask(jobId, HumanAct.Accept));
      ok := worker.orchestrator.AcceptResult(jobId);
      ActIsStep(worker.config, before, jobId, HumanAct.Accept, worker.prisma.jobs, worker.prisma.tasks, ok);
    }

    method RequestChanges(jobId: nat) returns (ok: bool)
      requires worker.Valid()
      modifies worker.prisma`jobs, worker.prisma`tasks
      ensures worker.Valid() && worker.State() == SysNext(worker.config, old(worker.State()), Action.Ask(jobId, HumanAct.RequestChanges))
    {
      ghost var before := worker.State();
      Worker.Keeps(worker.config, before, Action.Ask(jobId, HumanAct.RequestChanges));
      ok := worker.orchestrator.RequestChanges(jobId);
      ActIsStep(worker.config, before, jobId, HumanAct.RequestChanges, worker.prisma.jobs, worker.prisma.tasks, ok);
    }

    method SubmitPlanFeedback(jobId: nat) returns (ok: bool)
      requires worker.Valid()
      modifies worker.prisma`jobs, worker.prisma`tasks
      ensures worker.Valid() && worker.State() == SysNext(worker.config, old(worker.State()), Action.Ask(jobId, HumanAct.PlanFeedback))
    {
      ghost var before := worker.State();
      Worker.Keeps(worker.config, before, Action.Ask(jobId, HumanAct.PlanFeedback));
      ok := worker.orchestrator.SubmitPlanFeedback(jobId);
      ActIsStep(worker.config, before, jobId, HumanAct.PlanFeedback, worker.prisma.jobs, worker.prisma.tasks, ok);
    }

    method CancelJob(jobId: nat) returns (ok: bool)
      requires worker.Valid()
      modifies worker.prisma`jobs, worker.prisma`tasks
      ensures worker.Valid() && worker.State() == SysNext(worker.config, old(worker.State()), Action.Ask(jobId, HumanAct.Cancel))
    {
      ghost var before := worker.State();
      Worker.Keeps(worker.config, before, Action.Ask(jobId, HumanAct.Cancel));
      ok := worker.orchestrator.CancelJob(jobId);
      ActIsStep(worker.config, before, jobId, HumanAct.Cancel, worker.prisma.jobs, worker.prisma.tasks, ok);
    }

    method RetryJob(jobId: nat) returns (ok: bool)
      requires worker.Valid()
      modifies worker.prisma`jobs, worker.prisma`tasks
      ensures worker.Valid() && worker.State() == SysNext(worker.config, old(worker.State()), Action.Ask(jobId, HumanAct.Retry))
    {
      ghost var before := worker.State();
      Worker.Keeps(worker.config, before, Action.Ask(jobId, HumanAct.Retry));
      var kind;
      ok, kind := worker.orchestrator.RetryJob(jobId);
      ActIsStep(worker.config, before, jobId, HumanAct.Retry, worker.prisma.jobs, worker.prisma.tasks, ok);
    }

    method OnPlanComment(jobId: nat) returns (act: HumanAct, ok: bool)
      requires worker.Valid()
      modifies worker.prisma`jobs, worker.prisma`tasks
      ensures worker.Valid() && worker.State() == SysNext(worker.config, old(worker.State()), Action.Ask(jobId, act))
    {
      ghost var before := worker.State();
      act, ok := worker.orchestrator.OnPlanComment(jobId);
      Worker.Keeps(worker.config, before, Action.Ask(jobId, act));
      ActIsStep(worker.config, before, jobId, act, worker.prisma.jobs, worker.prisma.tasks, ok);
    }

    method OnPrFeedback(jobId: nat) returns (act: HumanAct, ok: bool)
      requires worker.Valid()
      modifies worker.prisma`jobs, worker.prisma`tasks
      ensures worker.Valid() && worker.State() == SysNext(worker.config, old(worker.State()), Action.Ask(jobId, act))
    {
      ghost var before := worker.State();
      act, ok := worker.orchestrator.OnPrFeedback(jobId);
      Worker.Keeps(worker.config, before, Action.Ask(jobId, act));
      ActIsStep(worker.config, before, jobId, act, worker.prisma.jobs, worker.prisma.tasks, ok);
    }
  }
}
