/** A task that failed with attempts left waits out its backoff, whatever else happens meanwhile. */
module Backoff {
  import opened Common
  import opened Jobs
  import opened Stages
  import opened Lanes
  import opened System
  import opened Tables
  import opened Pipeline
  import Theorems
  import Q = Queue

  /** The moment before which a task that failed now is not to run again. */
  function NotBefore(cfg: Config, s: Sys, t: nat): int
    requires t < |s.tasks| && s.tasks[t].attempts >= 1
  {
    s.now + cfg.backoffBase * Q.Pow2(s.tasks[t].attempts - 1)
  }

  /** The step took a held task back to waiting: it failed, and attempts were left. */
  predicate FailsForNow(s: Sys, next: Sys, t: nat) {
    Held(s, t) && t < |next.tasks| && next.tasks[t].status == Q.Pending
  }

  lemma EndedRow(cfg: Config, s: Sys, u: nat, outcome: Outcome, t: nat)
    requires Held(s, u) && t < |s.tasks|
    requires s.tasks[t].status == Q.Running && s.tasks[t].attempts >= 1
    ensures var next := EndTask(cfg, s, u, outcome);
            t < |next.tasks|
            && (next.tasks[t].status == Q.Pending ==> u == t && outcome.Thrown? && s.tasks[t].attempts < s.tasks[t].maxAttempts
                                                       && next.tasks[t].runAt == NotBefore(cfg, s, t) && t !in next.running)
  {
  }

  /** Failing for now costs an attempt that was left, and sets the row back by its backoff. */
  lemma FailureSetsBack(cfg: Config, s: Sys, a: Action, t: nat)
    requires SysInv(cfg, s) && Q.TableAttemptsOk(s.tasks, s.restarts) && a != Action.Restart && FailsForNow(s, SysNext(cfg, s, a), t)
    requires s.tasks[t].status == Q.Running
    ensures s.tasks[t].attempts >= 1 && s.tasks[t].attempts < s.tasks[t].maxAttempts
    ensures var next := SysNext(cfg, s, a);
            next.now == s.now && t !in next.running && next.tasks[t].runAt == NotBefore(cfg, s, t)
  {
    assert Q.AttemptsOk(s.tasks[t], s.restarts);
    match a
    case Begin(u, discovered) =>
      if Held(s, u) && s.running[u] == Claimed && Stages.Begin(s.jobs[s.tasks[u].jobId], s.tasks[u].kind, discovered).Ended? {
        EndedRow(cfg, s, u, Stages.Begin(s.jobs[s.tasks[u].jobId], s.tasks[u].kind, discovered).outcome, t);
      }
    case Finish(u, reply) =>
      if Held(s, u) {
        EndedRow(cfg, s, u, Stages.Finish(s.jobs[s.tasks[u].jobId], s.tasks[u].kind, cfg, reply), t);
      }
    case Throw(u) =>
      if Held(s, u) {
        ThrowIsEnd(cfg, s, u);
        EndedRow(cfg, s, u, Thrown(s.jobs[s.tasks[u].jobId]), t);
      }
    case Ask(j, act) => if j in s.jobs { AskIsAnswer(cfg, s, j, act); }
    case Create(_, _) => case ClaimBatch(_) => case Heartbeat(_) => case Tick(_) => case RunAgent(_) => case ExpireStale =>
  }

  /** The row rests until then: in nobody's hands, not running, due no earlier. */
  predicate Resting(s: Sys, t: nat, until: int) {
    t < |s.tasks| && (s.now >= until || (t !in s.running && s.tasks[t].status != Q.Running && s.tasks[t].runAt == until))
  }

  lemma OtherEndKeepsRest(cfg: Config, s: Sys, u: nat, outcome: Outcome, t: nat, until: int)
    requires Held(s, u) && u != t && Resting(s, t, until)
    ensures Resting(EndTask(cfg, s, u, outcome), t, until)
  {
  }

  lemma ClaimKeepsRest(cfg: Config, s: Sys, rows: set<nat>, t: nat, until: int)
    requires SysInv(cfg, s) && Resting(s, t, until)
    ensures Resting(SysNext(cfg, s, ClaimBatch(rows)), t, until)
  {
    if rows <= Q.EligibleRows(s.tasks, s.now, cfg.lockTtl) && t in rows {
      Theorems.ClaimedAlone(cfg, s, rows, t);
    }
  }

  lemma BeginKeepsRest(cfg: Config, s: Sys, u: nat, discovered: Option<string>, t: nat, until: int)
    requires Resting(s, t, until) && s.now < until
    ensures Resting(SysNext(cfg, s, Action.Begin(u, discovered)), t, until)
  {
    if Held(s, u) && s.running[u] == Claimed && Stages.Begin(s.jobs[s.tasks[u].jobId], s.tasks[u].kind, discovered).Ended? {
      OtherEndKeepsRest(cfg, s, u, Stages.Begin(s.jobs[s.tasks[u].jobId], s.tasks[u].kind, discovered).outcome, t, until);
    }
  }

  lemma EndKeepsRest(cfg: Config, s: Sys, a: Action, t: nat, until: int)
    requires Resting(s, t, until) && s.now < until && (a.Finish? || a.Throw?)
    ensures Resting(SysNext(cfg, s, a), t, until)
  {
    if a.Finish? {
      if Held(s, a.task) && MayFinish(LaneAt(s, s.tasks[a.task].jobId, a.task)) {
        Theorems.FinishIsEnd(cfg, s, a.task, a.reply);
        OtherEndKeepsRest(cfg, s, a.task, Stages.Finish(s.jobs[s.tasks[a.task].jobId], s.tasks[a.task].kind, cfg, a.reply), t, until);
      }
    } else if Held(s, a.task) {
      ThrowIsEnd(cfg, s, a.task);
      OtherEndKeepsRest(cfg, s, a.task, Thrown(s.jobs[s.tasks[a.task].jobId]), t, until);
    }
  }

  lemma StepKeepsRest(cfg: Config, s: Sys, a: Action, t: nat, until: int)
    requires SysInv(cfg, s) && Resting(s, t, until) && s.now < until && a != Action.Restart
    ensures Resting(SysNext(cfg, s, a), t, until) && SysNext(cfg, s, a).now >= s.now
  {
    match a
    case ClaimBatch(rows) => ClaimKeepsRest(cfg, s, rows, t, until);
    case Begin(u, discovered) => BeginKeepsRest(cfg, s, u, discovered, t, until);
    case Finish(_, _) => EndKeepsRest(cfg, s, a, t, until);
    case Throw(_) => EndKeepsRest(cfg, s, a, t, until);
    case Ask(j, act) => AskKeepsRest(cfg, s, j, act, t, until);
    case Create(_, _) => case Heartbeat(_) => case Tick(_) => case RunAgent(_) => case ExpireStale =>
  }

  lemma AskKeepsRest(cfg: Config, s: Sys, j: nat, act: HumanAct, t: nat, until: int)
    requires Resting(s, t, until) && s.now < until
    ensures Resting(SysNext(cfg, s, Action.Ask(j, act)), t, until) && SysNext(cfg, s, Action.Ask(j, act)).now == s.now
  {
    if j in s.jobs {
      AskIsAnswer(cfg, s, j, act);
    }
  }

  lemma TimePasses(cfg: Config, s: Sys, a: Action)
    ensures SysNext(cfg, s, a).now >= s.now
  {
    match a
    case Begin(_, _) => case Finish(_, _) => case Throw(_) => case Ask(_, _) => case ClaimBatch(_) => case Restart =>
    case Create(_, _) => case Heartbeat(_) => case Tick(_) => case RunAgent(_) => case ExpireStale =>
  }

  lemma {:induction false} RestLasts(cfg: Config, actions: seq<Action>, more: seq<Action>, t: nat, until: int)
    requires Resting(Run(cfg, actions), t, until) && Action.Restart !in more
    ensures Resting(Run(cfg, actions + more), t, until)
    decreases |more|
  {
    if |more| == 0 {
      assert actions + more == actions;
    } else {
      var earlier, last := more[..|more| - 1], more[|more| - 1];
      RestLasts(cfg, actions, earlier, t, until);
      Theorems.RunOn(cfg, actions, more);
      Reachable(cfg, actions + earlier);
      NextKeepsRest(cfg, Run(cfg, actions + earlier), last, t, until);
    }
  }

  lemma NextKeepsRest(cfg: Config, s: Sys, a: Action, t: nat, until: int)
    requires SysInv(cfg, s) && Resting(s, t, until) && a != Action.Restart
    ensures Resting(SysNext(cfg, s, a), t, until)
  {
    if s.now < until {
      StepKeepsRest(cfg, s, a, t, until);
    } else {
      TimePasses(cfg, s, a);
      RowsStay(cfg, s, a);
    }
  }

  lemma RowsStay(cfg: Config, s: Sys, a: Action)
    ensures |SysNext(cfg, s, a).tasks| >= |s.tasks|
  {
    match a
    case Begin(_, _) => case Finish(_, _) => case Throw(_) => case Ask(_, _) => case ClaimBatch(_) => case Restart =>
    case Create(_, _) => case Heartbeat(_) => case Tick(_) => case RunAgent(_) => case ExpireStale =>
  }

  /**
   * A task that fails at some point of a run with attempts left does not run again before
   * its backoff, doubled with every attempt, is over, unless a restart comes between.
   */
  lemma BackoffIsWaitedOut(cfg: Config, actions: seq<Action>, a: Action, more: seq<Action>, t: nat, s: Sys, next: Sys, later: Sys)
    requires s == Run(cfg, actions) && next == Run(cfg, actions + [a]) && later == Run(cfg, actions + [a] + more)
    requires FailsForNow(s, next, t) && s.tasks[t].status == Q.Running
    requires a != Action.Restart && Action.Restart !in more
    ensures t < |later.tasks| && 1 <= s.tasks[t].attempts < s.tasks[t].maxAttempts
    ensures later.tasks[t].status == Q.Running || t in later.running ==> later.now >= NotBefore(cfg, s, t)
  {
    FailureRests(cfg, actions, a, t, s, next);
    RestLastsUntil(cfg, actions + [a], more, t, NotBefore(cfg, s, t), next, later);
  }

  lemma RestLastsUntil(cfg: Config, actions: seq<Action>, more: seq<Action>, t: nat, until: int, next: Sys, later: Sys)
    requires next == Run(cfg, actions) && later == Run(cfg, actions + more)
    requires Resting(next, t, until) && Action.Restart !in more
    ensures t < |later.tasks| && (later.tasks[t].status == Q.Running || t in later.running ==> later.now >= until)
  {
    RestLasts(cfg, actions, more, t, until);
  }

  lemma FailureRests(cfg: Config, actions: seq<Action>, a: Action, t: nat, s: Sys, next: Sys)
    requires s == Run(cfg, actions) && next == Run(cfg, actions + [a])
    requires FailsForNow(s, next, t) && s.tasks[t].status == Q.Running && a != Action.Restart
    ensures 1 <= s.tasks[t].attempts < s.tasks[t].maxAttempts
    ensures Resting(next, t, NotBefore(cfg, s, t))
  {
    Reachable(cfg, actions);
    Theorems.AttemptsStayBounded(cfg, actions);
    assert (actions + [a])[..|actions|] == actions;
    FailureSetsBack(cfg, s, a, t);
  }
}
