/**
 * The work queue (queue.service.ts, queue.utility.ts): what each statement does
 * to the task table, row by row, and what holds of the table after any sequence
 * of them. A row's index is its identity and its creation order.
 */
module Queue {
  import opened Common
  import opened Jobs

  datatype TaskStatus = Pending | Running | TaskDone | TaskFailed

  datatype Task = Task(
    jobId: nat, kind: TaskKind, status: TaskStatus, attempts: nat, maxAttempts: nat,
    runAt: int, priority: int, lockedAt: Option<int>, lockedBy: Option<nat>)

  predicate Outstanding(t: Task) {
    t.status in {Pending, Running}
  }

  predicate IsPending(t: Task, jobId: nat, kind: TaskKind) {
    t.jobId == jobId && t.kind == kind && t.status == Pending
  }

  // ── What each statement does ───────────────────────────────────────────────

  function Enqueue(tasks: seq<Task>, jobId: nat, kind: TaskKind, now: int, maxAttempts: nat): seq<Task> {
    if exists i :: 0 <= i < |tasks| && IsPending(tasks[i], jobId, kind) then tasks
    else tasks + [Task(jobId, kind, Pending, 0, maxAttempts, now, 0, None, None)]
  }

  /** A lock older than the TTL, held by a RUNNING row. */
  predicate Stale(t: Task, now: int, ttl: nat) {
    t.status == Running && t.lockedAt.Some? && t.lockedAt.value < now - ttl
  }

  predicate Healthy(t: Task, now: int, ttl: nat) {
    t.status == Running && !Stale(t, now, ttl)
  }

  predicate Busy(tasks: seq<Task>, jobId: nat, now: int, ttl: nat) {
    exists k :: 0 <= k < |tasks| && tasks[k].jobId == jobId && Healthy(tasks[k], now, ttl)
  }

  /** The WHERE clause of the claim, evaluated on the table before the update. */
  predicate Eligible(tasks: seq<Task>, i: nat, now: int, ttl: nat) {
    i < |tasks|
    && ((tasks[i].status == Pending && tasks[i].runAt <= now) || Stale(tasks[i], now, ttl))
    && !Busy(tasks, tasks[i].jobId, now, ttl)
    && !(tasks[i].status == Running && tasks[i].attempts >= tasks[i].maxAttempts)
  }

  function EligibleRows(tasks: seq<Task>, now: int, ttl: nat): set<nat> {
    set i: nat | i < |tasks| && Eligible(tasks, i, now, ttl)
  }

  /** ORDER BY priority DESC, runAt ASC. */
  predicate NoLater(a: Task, b: Task) {
    a.priority > b.priority || (a.priority == b.priority && a.runAt <= b.runAt)
  }

  /** `rows` is what ORDER BY … LIMIT may return: as many as allowed, none of them after a row left out. */
  ghost predicate IsTop(tasks: seq<Task>, eligible: set<nat>, limit: int, rows: set<nat>)
    requires forall i :: i in eligible ==> i < |tasks|
  {
    rows <= eligible
    && |rows| == Min(Max(limit, 0), |eligible|)
    && forall a, b :: a in rows && b in eligible - rows ==> NoLater(tasks[a], tasks[b])
  }

  function Claimed(t: Task, worker: nat, now: int): Task {
    t.(status := Running, lockedAt := Some(now), lockedBy := Some(worker), attempts := t.attempts + 1)
  }

  function ClaimRows(tasks: seq<Task>, rows: set<nat>, worker: nat, now: int): seq<Task> {
    seq(|tasks|, i requires 0 <= i < |tasks| => if i in rows then Claimed(tasks[i], worker, now) else tasks[i])
  }

  function Complete(tasks: seq<Task>, i: nat): seq<Task>
    requires i < |tasks|
  {
    tasks[i := tasks[i].(status := TaskDone, lockedAt := None, lockedBy := None)]
  }

  function RefreshLock(tasks: seq<Task>, i: nat, worker: nat, now: int): seq<Task>
    requires i < |tasks|
  {
    if tasks[i].lockedBy == Some(worker) && tasks[i].status == Running
    then tasks[i := tasks[i].(lockedAt := Some(now))] else tasks
  }

  function Pow2(n: nat): nat {
    if n == 0 then 1 else 2 * Pow2(n - 1)
  }

  /** Exponential backoff for a 1-based attempt number. */
  function BackoffMs(attempt: nat, base: nat): nat {
    base * Pow2(Max(1, attempt) - 1)
  }

  predicate WillRetry(t: Task) {
    t.attempts < t.maxAttempts
  }

  function FailRow(t: Task, now: int, base: nat): Task {
    if WillRetry(t)
    then t.(status := Pending, runAt := now + BackoffMs(t.attempts, base), lockedAt := None, lockedBy := None)
    else t.(status := TaskFailed, lockedAt := None, lockedBy := None)
  }

  function Fail(tasks: seq<Task>, i: nat, now: int, base: nat): seq<Task>
    requires i < |tasks|
  {
    tasks[i := FailRow(tasks[i], now, base)]
  }

  predicate Expired(t: Task, now: int, ttl: nat) {
    Stale(t, now, ttl) && t.attempts >= t.maxAttempts
  }

  function ExpireExhaustedStale(tasks: seq<Task>, now: int, ttl: nat): seq<Task> {
    seq(|tasks|, i requires 0 <= i < |tasks| =>
      if Expired(tasks[i], now, ttl) then tasks[i].(status := TaskFailed, lockedAt := None, lockedBy := None) else tasks[i])
  }

  function CancelForJob(tasks: seq<Task>, jobId: nat): seq<Task> {
    seq(|tasks|, i requires 0 <= i < |tasks| =>
      if tasks[i].jobId == jobId && Outstanding(tasks[i]) then tasks[i].(status := TaskFailed) else tasks[i])
  }

  function ReclaimOrphaned(tasks: seq<Task>, now: int): seq<Task> {
    seq(|tasks|, i requires 0 <= i < |tasks| =>
      if tasks[i].status == Running then tasks[i].(status := Pending, runAt := now, lockedAt := None, lockedBy := None)
      else tasks[i])
  }

  /** What becomes of a row that settles or fails: no lock stays; while attempts are left it waits, each time twice as long. */
  lemma RowsSettle(tasks: seq<Task>, i: nat, now: int, base: nat)
    requires i < |tasks|
    ensures Complete(tasks, i) == tasks[i := tasks[i].(status := TaskDone, lockedAt := None, lockedBy := None)]
    ensures var t := tasks[i].(lockedAt := None, lockedBy := None);
            Fail(tasks, i, now, base)
            == tasks[i := if t.attempts < t.maxAttempts
                          then t.(status := Pending, runAt := now + base * Pow2(Max(1, t.attempts) - 1))
                          else t.(status := TaskFailed)]
  {
  }

  // ── Claiming ───────────────────────────────────────────────────────────────

  lemma BestExists(tasks: seq<Task>, eligible: set<nat>) returns (best: nat)
    requires eligible != {} && forall i :: i in eligible ==> i < |tasks|
    ensures best in eligible && forall b :: b in eligible ==> NoLater(tasks[best], tasks[b])
    decreases |eligible|
  {
    var i :| i in eligible;
    var others := eligible - {i};
    assert eligible == others + {i};
    if others == {} {
      best := i;
    } else {
      var rest := BestExists(tasks, others);
      best := if NoLater(tasks[i], tasks[rest]) then i else rest;
    }
  }

  lemma Smaller(a: set<nat>, b: set<nat>, u: nat)
    requires a <= b && u in b - a
    ensures |a| < |b|
  {
    assert b == (b - {u}) + {u};
    SubsetSize(a, b - {u});
  }

  lemma {:induction false} SubsetSize(a: set<nat>, b: set<nat>)
    requires a <= b
    ensures |a| <= |b|
  {
    if a != {} {
      var x :| x in a;
      SubsetSize(a - {x}, b - {x});
    }
  }

  /** ORDER BY … LIMIT always has an answer. */
  lemma {:induction false} TopExists(tasks: seq<Task>, eligible: set<nat>, limit: int) returns (rows: set<nat>)
    requires forall i :: i in eligible ==> i < |tasks|
    ensures IsTop(tasks, eligible, limit, rows)
    decreases Max(limit, 0)
  {
    if limit <= 0 || eligible == {} {
      rows := {};
    } else {
      var best := BestExists(tasks, eligible);
      var rest := TopExists(tasks, eligible - {best}, limit - 1);
      rows := rest + {best};
      assert |eligible - {best}| == |eligible| - 1;
      assert eligible - rows == (eligible - {best}) - rest;
    }
  }

  /**
   * A claim never touches a job that a fresh lock already owns, and a row it
   * takes was either due or abandoned with attempts to spare.
   */
  lemma ClaimRespectsLocks(tasks: seq<Task>, rows: set<nat>, limit: int, now: int, ttl: nat, worker: nat, i: nat)
    requires IsTop(tasks, EligibleRows(tasks, now, ttl), limit, rows) && i in rows
    ensures i < |tasks| && |rows| <= Max(limit, 0)
    ensures forall k :: 0 <= k < |tasks| && tasks[k].jobId == tasks[i].jobId && tasks[k].status == Running
                        ==> tasks[k].lockedAt.Some? && tasks[k].lockedAt.value < now - ttl
    ensures ClaimRows(tasks, rows, worker, now)[i]
            == tasks[i].(status := Running, lockedAt := Some(now), lockedBy := Some(worker), attempts := tasks[i].attempts + 1)
    ensures (tasks[i].status == Pending && tasks[i].runAt <= now)
            || (tasks[i].status == Running && tasks[i].attempts < tasks[i].maxAttempts)
  {
    assert Eligible(tasks, i, now, ttl);
    forall k | 0 <= k < |tasks| && tasks[k].jobId == tasks[i].jobId && tasks[k].status == Running
      ensures Stale(tasks[k], now, ttl)
    {
      assert !Healthy(tasks[k], now, ttl);
    }
  }

  /** No other row of the job is RUNNING. */
  predicate OnlyRunning(tasks: seq<Task>, i: nat)
    requires i < |tasks|
  {
    forall k :: 0 <= k < |tasks| && k != i && tasks[k].jobId == tasks[i].jobId ==> tasks[k].status != Running
  }

  /**
   * What a heartbeat is worth. The owner's keeps every row of the job from being
   * claimed for one time to live; after that the row itself may be taken over exactly
   * if it has attempts left. Anybody else's, or one on a settled row, does nothing.
   */
  lemma HeartbeatHoldsTheJob(tasks: seq<Task>, i: nat, worker: nat, now: int, later: int, ttl: nat)
    requires i < |tasks| && now <= later
    ensures var owned := tasks[i].lockedBy == Some(worker) && tasks[i].status == Running;
            var after := RefreshLock(tasks, i, worker, now);
            if !owned then after == tasks
            else
              (later <= now + ttl ==> forall k: nat :: k < |after| && after[k].jobId == tasks[i].jobId ==> !Eligible(after, k, later, ttl))
              && (OnlyRunning(tasks, i) ==> (Eligible(after, i, later, ttl) <==> later > now + ttl && tasks[i].attempts < tasks[i].maxAttempts))
  {
    var after := RefreshLock(tasks, i, worker, now);
    if tasks[i].lockedBy == Some(worker) && tasks[i].status == Running {
      assert after[i] == tasks[i].(lockedAt := Some(now));
      if later <= now + ttl {
        assert Healthy(after[i], later, ttl);
      }
    }
  }

  /** A completed row is never opened again: of all statements only one that fails this very row touches it. */
  lemma CompletedRowsRest(tasks: seq<Task>, st: Statement, now: int, ttl: nat, base: nat, i: nat)
    requires i < |tasks| && tasks[i].status == TaskDone && tasks[i].lockedAt == tasks[i].lockedBy == None && st != FailStmt(i)
    ensures i < |Execute(tasks, st, now, ttl, base)| && Execute(tasks, st, now, ttl, base)[i] == tasks[i]
  {
    assert !Eligible(tasks, i, now, ttl);
  }

  // ── Attempts over any sequence of statements ───────────────────────────────

  datatype Statement =
    | EnqueueStmt(jobId: nat, kind: TaskKind, maxAttempts: nat)
    | ClaimStmt(limit: int, rows: set<nat>, worker: nat)
    | CompleteStmt(i: nat)
    | RefreshStmt(i: nat, worker: nat)
    | FailStmt(i: nat)
    | ExpireStmt
    | CancelStmt(jobId: nat)
    | ReclaimStmt

  /** One statement at one moment; a statement that does not apply changes nothing. */
  ghost function Execute(tasks: seq<Task>, st: Statement, now: int, ttl: nat, base: nat): seq<Task> {
    match st
    case EnqueueStmt(j, k, m) => Enqueue(tasks, j, k, now, m)
    case ClaimStmt(limit, rows, w) =>
      if IsTop(tasks, EligibleRows(tasks, now, ttl), limit, rows) then ClaimRows(tasks, rows, w, now) else tasks
    case CompleteStmt(i) => if i < |tasks| then Complete(tasks, i) else tasks
    case RefreshStmt(i, w) => if i < |tasks| then RefreshLock(tasks, i, w, now) else tasks
    case FailStmt(i) => if i < |tasks| then Fail(tasks, i, now, base) else tasks
    case ExpireStmt => ExpireExhaustedStale(tasks, now, ttl)
    case CancelStmt(j) => CancelForJob(tasks, j)
    case ReclaimStmt => ReclaimOrphaned(tasks, now)
  }

  /** A list of statements, each with the moment it runs at. */
  ghost function ExecuteAll(stmts: seq<(Statement, int)>, ttl: nat, base: nat): seq<Task> {
    if |stmts| == 0 then []
    else
      var last := stmts[|stmts| - 1];
      Execute(ExecuteAll(stmts[..|stmts| - 1], ttl, base), last.0, last.1, ttl, base)
  }

  predicate IsReclaim(s: (Statement, int)) {
    s.0.ReclaimStmt?
  }

  predicate AttemptsOk(t: Task, restarts: nat) {
    t.attempts <= Max(t.maxAttempts, 1) + restarts
    && (t.status == Pending ==> t.attempts < Max(t.maxAttempts, 1) + restarts)
    && (t.status == Running ==> t.attempts >= 1)
  }

  ghost predicate TableAttemptsOk(tasks: seq<Task>, restarts: nat) {
    forall i :: 0 <= i < |tasks| ==> AttemptsOk(tasks[i], restarts)
  }

  lemma ExecuteKeepsAttempts(tasks: seq<Task>, st: Statement, now: int, ttl: nat, base: nat, restarts: nat)
    requires TableAttemptsOk(tasks, restarts)
    ensures TableAttemptsOk(Execute(tasks, st, now, ttl, base), restarts + if st.ReclaimStmt? then 1 else 0)
  {
    if st.ClaimStmt? && IsTop(tasks, EligibleRows(tasks, now, ttl), st.limit, st.rows) {
      forall i | 0 <= i < |tasks| ensures AttemptsOk(ClaimRows(tasks, st.rows, st.worker, now)[i], restarts) {
        if i in st.rows {
          assert Eligible(tasks, i, now, ttl);
        }
      }
    }
  }

  /** Retry arithmetic: only a restart can push a task past its budget, and by one attempt each. */
  lemma {:induction false} AttemptsBounded(stmts: seq<(Statement, int)>, ttl: nat, base: nat)
    ensures TableAttemptsOk(ExecuteAll(stmts, ttl, base), Count(stmts, IsReclaim))
  {
    if |stmts| > 0 {
      var last := stmts[|stmts| - 1];
      var before := stmts[..|stmts| - 1];
      AttemptsBounded(before, ttl, base);
      ExecuteKeepsAttempts(ExecuteAll(before, ttl, base), last.0, last.1, ttl, base, Count(before, IsReclaim));
    }
  }

  // ── Total backoff ──────────────────────────────────────────────────────────

  /**
   * The delays a RUNNING row accumulates when every attempt from here on fails at
   * the given moments (one per attempt) and is claimed again when it is due.
   */
  function DelayUntilExhausted(t: Task, moments: seq<int>, base: nat): int
    requires t.attempts <= t.maxAttempts && |moments| == t.maxAttempts - t.attempts
    decreases |moments|
  {
    if !WillRetry(t) then 0
    else
      var failed := FailRow(t, moments[0], base);
      (failed.runAt - moments[0]) + DelayUntilExhausted(Claimed(failed, 0, failed.runAt), moments[1..], base)
  }

  lemma {:induction false} DelayFrom(t: Task, moments: seq<int>, base: nat)
    requires 1 <= t.attempts <= t.maxAttempts && |moments| == t.maxAttempts - t.attempts
    ensures DelayUntilExhausted(t, moments, base) == base * Pow2(t.maxAttempts - 1) - base * Pow2(t.attempts - 1)
    decreases |moments|
  {
    if WillRetry(t) {
      var failed := FailRow(t, moments[0], base);
      DelayFrom(Claimed(failed, 0, failed.runAt), moments[1..], base);
      assert Pow2(t.attempts) == 2 * Pow2(t.attempts - 1);
      assert base * Pow2(t.attempts) == base * Pow2(t.attempts - 1) + base * Pow2(t.attempts - 1);
    }
  }

  /** A task that is exhausted by failures alone was held back base · (2^(maxAttempts-1) - 1) ms in all. */
  lemma TotalBackoff(t: Task, moments: seq<int>, base: nat)
    requires t.attempts == 1 <= t.maxAttempts && |moments| == t.maxAttempts - 1
    ensures DelayUntilExhausted(t, moments, base) == base * (Pow2(t.maxAttempts - 1) - 1)
  {
    DelayFrom(t, moments, base);
  }
}
