/**
 * The tables seen from one job: each job has a newest task, and no older task of
 * it is outstanding or in flight. Every write the system makes moves the lane of
 * the job it is about and leaves every other lane where it was.
 */
module Tables {
  import opened Common
  import opened Jobs
  import opened Stages
  import opened Lanes
  import opened System
  import Q = Queue

  predicate Idle(s: Sys, k: nat)
    requires k < |s.tasks|
  {
    !Q.Outstanding(s.tasks[k]) && k !in s.running
  }

  predicate PlacedAt(s: Sys, j: nat, c: nat) {
    IsNewest(s.tasks, j, c)
    && forall k :: 0 <= k < |s.tasks| && s.tasks[k].jobId == j && k != c ==> Idle(s, k)
  }

  predicate Placed(s: Sys, j: nat) {
    Newest(s.tasks, j).Some? && Newest(s.tasks, j).value < |s.tasks| && PlacedAt(s, j, Newest(s.tasks, j).value)
  }

  /** A RUNNING row holds a lock that is not stale. */
  predicate LockFresh(cfg: Config, now: int, t: Q.Task) {
    t.status == Q.Running ==> t.lockedAt.Some? && t.lockedAt.value >= now - cfg.lockTtl
  }

  ghost predicate TablesOk(cfg: Config, s: Sys) {
    (forall k :: 0 <= k < |s.tasks| ==> s.tasks[k].jobId in s.jobs)
    && (forall t :: t in s.running ==> t < |s.tasks|)
    && (forall j :: j in s.jobs ==> Placed(s, j))
    && (forall k :: 0 <= k < |s.tasks| ==> LockFresh(cfg, s.now, s.tasks[k]))
    && |s.running| <= Max(cfg.concurrency, 0)
  }

  /** The step moved job j's lane to `lane` and nobody else's. */
  ghost predicate OneMoves(cfg: Config, s: Sys, next: Sys, j: nat, lane: Lane)
    requires TablesOk(cfg, s)
  {
    TablesOk(cfg, next) && next.jobs.Keys == s.jobs.Keys
    && forall i :: i in s.jobs ==> View(next, i) == if i == j then lane else View(s, i)
  }

  predicate SameRow(s: Sys, next: Sys, k: nat)
    requires k < |s.tasks| && k < |next.tasks|
  {
    next.tasks[k].jobId == s.tasks[k].jobId
    && next.tasks[k].kind == s.tasks[k].kind && next.tasks[k].status == s.tasks[k].status
    && (k in next.running <==> k in s.running)
    && (k in s.running ==> next.running[k] == s.running[k])
  }

  lemma PlacedHere(s: Sys, j: nat, c: nat)
    requires PlacedAt(s, j, c)
    ensures Placed(s, j) && Newest(s.tasks, j) == Some(c)
  {
    NewestIs(s.tasks, j, c);
  }

  /** Rows of job i kept their place. */
  lemma StaysPlaced(s: Sys, next: Sys, i: nat)
    requires Placed(s, i) && |next.tasks| >= |s.tasks|
    requires forall k :: 0 <= k < |s.tasks| ==> next.tasks[k].jobId == s.tasks[k].jobId
    requires forall k :: 0 <= k < |s.tasks| && s.tasks[k].jobId == i ==> SameRow(s, next, k)
    requires forall k :: |s.tasks| <= k < |next.tasks| ==> next.tasks[k].jobId != i
    requires i in s.jobs && i in next.jobs && next.jobs[i] == s.jobs[i]
    ensures Placed(next, i) && View(next, i) == View(s, i)
  {
    var c := Newest(s.tasks, i).value;
    assert SameRow(s, next, c);
    forall k | 0 <= k < |next.tasks| && next.tasks[k].jobId == i && k != c ensures Idle(next, k) {
      assert Idle(s, k) && SameRow(s, next, k);
    }
    assert IsNewest(next.tasks, i, c);
    PlacedHere(next, i, c);
  }

  lemma OutstandingIsNewest(cfg: Config, s: Sys, t: nat)
    requires TablesOk(cfg, s) && t < |s.tasks| && (t in s.running || Q.Outstanding(s.tasks[t]))
    ensures PlacedAt(s, s.tasks[t].jobId, t) && Newest(s.tasks, s.tasks[t].jobId) == Some(t)
  {
    var j := s.tasks[t].jobId;
    assert Placed(s, j);
    assert !Idle(s, t);
  }

  /** Apart from job j and its row t, the step touched nothing. */
  predicate OnlyTouched(s: Sys, next: Sys, j: nat, t: nat) {
    t < |s.tasks| <= |next.tasks| && next.now == s.now && next.jobs.Keys == s.jobs.Keys
    && (forall i :: i in s.jobs && i != j ==> next.jobs[i] == s.jobs[i])
    && (forall k :: 0 <= k < |s.tasks| ==> next.tasks[k].jobId == s.tasks[k].jobId)
    && (forall k :: 0 <= k < |s.tasks| && k != t ==> SameRow(s, next, k) && next.tasks[k].lockedAt == s.tasks[k].lockedAt)
    && (forall k :: |s.tasks| <= k < |next.tasks| ==> next.tasks[k].jobId == j && next.tasks[k].status == Q.Pending)
  }

  lemma OthersStay(cfg: Config, s: Sys, next: Sys, j: nat, t: nat, i: nat)
    requires TablesOk(cfg, s) && OnlyTouched(s, next, j, t) && s.tasks[t].jobId == j && i in s.jobs && i != j
    ensures Placed(next, i) && View(next, i) == View(s, i)
  {
    StaysPlaced(s, next, i);
  }

  lemma LocksStayFresh(cfg: Config, s: Sys, next: Sys, j: nat, t: nat)
    requires TablesOk(cfg, s) && OnlyTouched(s, next, j, t) && j in s.jobs && LockFresh(cfg, next.now, next.tasks[t])
    ensures forall k :: 0 <= k < |next.tasks| ==> LockFresh(cfg, next.now, next.tasks[k]) && next.tasks[k].jobId in next.jobs
  {
    forall k | 0 <= k < |next.tasks| ensures LockFresh(cfg, next.now, next.tasks[k]) && next.tasks[k].jobId in next.jobs {
      if k < |s.tasks| && k != t {
        assert LockFresh(cfg, s.now, s.tasks[k]) && SameRow(s, next, k);
      }
    }
  }

  /** Row t of job j, its newest, was rewritten in place; nothing else moved but perhaps the job's row. */
  lemma RowMoves(cfg: Config, s: Sys, next: Sys, j: nat, t: nat)
    requires TablesOk(cfg, s) && j in s.jobs && PlacedAt(s, j, t) && OnlyTouched(s, next, j, t) && |next.tasks| == |s.tasks|
    requires LockFresh(cfg, s.now, next.tasks[t])
    requires next.running.Keys <= s.running.Keys + {t} && |next.running| <= Max(cfg.concurrency, 0)
    ensures OneMoves(cfg, s, next, j, LaneAt(next, j, t))
  {
    forall k | 0 <= k < |next.tasks| && next.tasks[k].jobId == j && k != t ensures Idle(next, k) {
      assert Idle(s, k) && SameRow(s, next, k);
    }
    assert IsNewest(next.tasks, j, t);
    PlacedHere(next, j, t);
    LocksStayFresh(cfg, s, next, j, t);
    forall i | i in s.jobs ensures Placed(next, i) && View(next, i) == if i == j then LaneAt(next, j, t) else View(s, i) {
      if i != j {
        OthersStay(cfg, s, next, j, t, i);
      }
    }
  }

  /** Job j got a new newest row, and its former newest row t came to rest. */
  lemma RowAppended(cfg: Config, s: Sys, next: Sys, j: nat, t: nat)
    requires TablesOk(cfg, s) && j in s.jobs && PlacedAt(s, j, t) && OnlyTouched(s, next, j, t) && |next.tasks| == |s.tasks| + 1
    requires Idle(next, t)
    requires next.running.Keys <= s.running.Keys && |next.running| <= Max(cfg.concurrency, 0)
    ensures OneMoves(cfg, s, next, j, LaneAt(next, j, |s.tasks|))
  {
    var n := |s.tasks|;
    forall k | 0 <= k < |next.tasks| && next.tasks[k].jobId == j && k != n ensures Idle(next, k) {
      if k != t {
        assert Idle(s, k) && SameRow(s, next, k);
      }
    }
    assert IsNewest(next.tasks, j, n);
    PlacedHere(next, j, n);
    LocksStayFresh(cfg, s, next, j, t);
    forall i | i in s.jobs ensures Placed(next, i) && View(next, i) == if i == j then LaneAt(next, j, n) else View(s, i) {
      if i != j {
        OthersStay(cfg, s, next, j, t, i);
      }
    }
  }

  lemma Released(cfg: Config, s: Sys, t: nat)
    requires TablesOk(cfg, s)
    ensures (s.running - {t}).Keys == s.running.Keys - {t} && |s.running - {t}| <= |s.running|
  {
    var rest := s.running - {t};
    assert rest.Keys == s.running.Keys - {t};
    assert |rest| == |rest.Keys| && |s.running| == |s.running.Keys|;
  }

  // ── The composite writes ───────────────────────────────────────────────────

  lemma FailTaskMoves(cfg: Config, s: Sys, job: Job, t: nat)
    requires TablesOk(cfg, s) && t in s.running && s.tasks[t].status != Q.Pending
    ensures var j := s.tasks[t].jobId;
            OneMoves(cfg, s, FailTask(cfg, s.(jobs := s.jobs[j := job]), t), j,
                     Failing(job, s.tasks[t].kind, Q.WillRetry(s.tasks[t])))
  {
    var j := s.tasks[t].jobId;
    var mid := s.(jobs := s.jobs[j := job]);
    var next := FailTask(cfg, mid, t);
    OutstandingIsNewest(cfg, s, t);
    Released(cfg, s, t);
    forall k | 0 <= k < |s.tasks| && k != t ensures SameRow(s, next, k) && next.tasks[k].lockedAt == s.tasks[k].lockedAt {
      if s.tasks[k].jobId == j {
        assert Idle(s, k);
      }
    }
    RowMoves(cfg, s, next, j, t);
  }

  lemma NoPendingRow(cfg: Config, s: Sys, j: nat, t: nat)
    requires TablesOk(cfg, s) && PlacedAt(s, j, t) && s.tasks[t].status != Q.Pending
    ensures forall k :: 0 <= k < |s.tasks| && s.tasks[k].jobId == j ==> s.tasks[k].status != Q.Pending
  {
    forall k | 0 <= k < |s.tasks| && s.tasks[k].jobId == j ensures s.tasks[k].status != Q.Pending {
      if k != t {
        assert Idle(s, k);
      }
    }
  }

  lemma EnqueueAppends(s: Sys, j: nat, kind: TaskKind, maxAttempts: nat)
    requires forall k :: 0 <= k < |s.tasks| && s.tasks[k].jobId == j ==> s.tasks[k].status != Q.Pending
    ensures Q.Enqueue(s.tasks, j, kind, s.now, maxAttempts)
            == s.tasks + [Q.Task(j, kind, Q.Pending, 0, maxAttempts, s.now, 0, None, None)]
  {
  }

  lemma CommitMoves(cfg: Config, s: Sys, t: nat, job: Job)
    requires TablesOk(cfg, s) && t in s.running && s.tasks[t].status != Q.Pending
    ensures OneMoves(cfg, s, EndTask(cfg, s, t, Committed(job, None)), s.tasks[t].jobId,
                     Lane(job, s.tasks[t].kind, Q.TaskDone, None))
  {
    OutstandingIsNewest(cfg, s, t);
    Released(cfg, s, t);
    RowMoves(cfg, s, EndTask(cfg, s, t, Committed(job, None)), s.tasks[t].jobId, t);
  }

  lemma SuccessorAppended(cfg: Config, s: Sys, next: Sys, t: nat, row: Q.Task)
    requires TablesOk(cfg, s) && t in s.running && s.tasks[t].jobId in next.jobs
    requires row.jobId == s.tasks[t].jobId && row.status == Q.Pending
    requires next == s.(jobs := s.jobs[row.jobId := next.jobs[row.jobId]],
                        tasks := s.tasks[t := s.tasks[t].(status := Q.TaskDone, lockedAt := None, lockedBy := None)] + [row],
                        running := s.running - {t})
    ensures OneMoves(cfg, s, next, row.jobId, Lane(next.jobs[row.jobId], row.kind, Q.Pending, None))
  {
    OutstandingIsNewest(cfg, s, t);
    Released(cfg, s, t);
    forall k | 0 <= k < |s.tasks| && k != t ensures next.tasks[k] == s.tasks[k] && SameRow(s, next, k) {
    }
    assert |s.tasks| !in next.running;
    assert OnlyTouched(s, next, row.jobId, t);
    assert LaneAt(next, row.jobId, |s.tasks|) == Lane(next.jobs[row.jobId], row.kind, Q.Pending, None);
    RowAppended(cfg, s, next, row.jobId, t);
  }

  lemma CommitMovesOn(cfg: Config, s: Sys, t: nat, job: Job, kind: TaskKind)
    requires TablesOk(cfg, s) && t in s.running && s.tasks[t].status != Q.Pending
    ensures OneMoves(cfg, s, EndTask(cfg, s, t, Committed(job, Some(kind))), s.tasks[t].jobId,
                     Lane(job, kind, Q.Pending, None))
  {
    var j := s.tasks[t].jobId;
    var row := Q.Task(j, kind, Q.Pending, 0, cfg.maxAttempts, s.now, 0, None, None);
    OutstandingIsNewest(cfg, s, t);
    NoPendingRow(cfg, s, j, t);
    EnqueueAppends(s, j, kind, cfg.maxAttempts);
    var done := s.tasks[t].(status := Q.TaskDone, lockedAt := None, lockedBy := None);
    assert Q.Complete(s.tasks + [row], t) == s.tasks[t := done] + [row];
    SuccessorAppended(cfg, s, s.(jobs := s.jobs[j := job], tasks := s.tasks[t := done] + [row], running := s.running - {t}), t, row);
  }

  lemma EndTaskMoves(cfg: Config, s: Sys, t: nat, outcome: Outcome)
    requires TablesOk(cfg, s) && t in s.running && s.tasks[t].status != Q.Pending
    ensures OneMoves(cfg, s, EndTask(cfg, s, t, outcome), s.tasks[t].jobId,
                     Ending(outcome, s.tasks[t].kind, Q.WillRetry(s.tasks[t])))
  {
    match outcome
    case Thrown(job) => FailTaskMoves(cfg, s, job, t);
    case Committed(job, None) => CommitMoves(cfg, s, t, job);
    case Committed(job, Some(next)) => CommitMovesOn(cfg, s, t, job, next);
  }

  /** The handler of row t took a note: the job row and the handler changed, the task row did not. */
  lemma HandlerMoves(cfg: Config, s: Sys, t: nat, job: Job, h: Handler)
    requires TablesOk(cfg, s) && t in s.running
    ensures var j := s.tasks[t].jobId;
            OneMoves(cfg, s, s.(jobs := s.jobs[j := job], running := s.running[t := h]), j,
                     Lane(job, s.tasks[t].kind, s.tasks[t].status, Some(h)))
  {
    var j := s.tasks[t].jobId;
    var next := s.(jobs := s.jobs[j := job], running := s.running[t := h]);
    OutstandingIsNewest(cfg, s, t);
    assert next.running.Keys == s.running.Keys;
    assert |next.running| == |next.running.Keys| && |s.running| == |s.running.Keys|;
    RowMoves(cfg, s, next, j, t);
  }

  lemma HeartbeatMoves(cfg: Config, s: Sys, t: nat)
    requires TablesOk(cfg, s) && t in s.running
    ensures var j := s.tasks[t].jobId;
            OneMoves(cfg, s, s.(tasks := Q.RefreshLock(s.tasks, t, s.restarts, s.now)), j, View(s, j))
  {
    var j := s.tasks[t].jobId;
    OutstandingIsNewest(cfg, s, t);
    RowMoves(cfg, s, s.(tasks := Q.RefreshLock(s.tasks, t, s.restarts, s.now)), j, t);
  }

  /** A human's action that enqueued nothing. */
  lemma AnswerMoves(cfg: Config, s: Sys, j: nat, job: Job, cancel: bool)
    requires TablesOk(cfg, s) && j in s.jobs
    ensures var lane := View(s, j);
            OneMoves(cfg, s, s.(jobs := s.jobs[j := job], tasks := if cancel then Q.CancelForJob(s.tasks, j) else s.tasks), j,
                     lane.(job := job, status := if cancel && lane.status in {Q.Pending, Q.Running} then Q.TaskFailed else lane.status))
  {
    var next := s.(jobs := s.jobs[j := job], tasks := if cancel then Q.CancelForJob(s.tasks, j) else s.tasks);
    assert Placed(s, j);
    var t := Newest(s.tasks, j).value;
    forall k | 0 <= k < |s.tasks| && k != t ensures SameRow(s, next, k) && next.tasks[k].lockedAt == s.tasks[k].lockedAt {
      if s.tasks[k].jobId == j {
        assert Idle(s, k);
      }
    }
    assert LockFresh(cfg, s.now, s.tasks[t]);
    RowMoves(cfg, s, next, j, t);
  }

  /** A human's action that enqueued a task; the newest one was at rest. */
  lemma AnswerMovesOn(cfg: Config, s: Sys, j: nat, job: Job, kind: TaskKind)
    requires TablesOk(cfg, s) && j in s.jobs && Settled(View(s, j))
    ensures OneMoves(cfg, s, s.(jobs := s.jobs[j := job], tasks := Q.Enqueue(s.tasks, j, kind, s.now, cfg.maxAttempts)), j,
                     Lane(job, kind, Q.Pending, None))
  {
    assert Placed(s, j);
    var t := Newest(s.tasks, j).value;
    var row := Q.Task(j, kind, Q.Pending, 0, cfg.maxAttempts, s.now, 0, None, None);
    NoPendingRow(cfg, s, j, t);
    EnqueueAppends(s, j, kind, cfg.maxAttempts);
    HumanRowAppended(cfg, s, s.(jobs := s.jobs[j := job], tasks := s.tasks + [row]), t, row);
  }

  lemma HumanRowAppended(cfg: Config, s: Sys, next: Sys, t: nat, row: Q.Task)
    requires TablesOk(cfg, s) && row.jobId in s.jobs && row.jobId in next.jobs && row.status == Q.Pending
    requires PlacedAt(s, row.jobId, t) && Idle(s, t)
    requires next == s.(jobs := s.jobs[row.jobId := next.jobs[row.jobId]], tasks := s.tasks + [row])
    ensures OneMoves(cfg, s, next, row.jobId, Lane(next.jobs[row.jobId], row.kind, Q.Pending, None))
  {
    forall k | 0 <= k < |s.tasks| && k != t ensures next.tasks[k] == s.tasks[k] && SameRow(s, next, k) {
    }
    assert |s.tasks| !in next.running;
    assert OnlyTouched(s, next, row.jobId, t);
    assert LaneAt(next, row.jobId, |s.tasks|) == Lane(next.jobs[row.jobId], row.kind, Q.Pending, None);
    RowAppended(cfg, s, next, row.jobId, t);
  }

  // ── Steps that concern more than one job ───────────────────────────────────

  /** A step that keeps every row's job: each job's newest row stays the newest, and its lane is read off the new tables. */
  lemma AllStayPlaced(cfg: Config, s: Sys, next: Sys, i: nat)
    requires TablesOk(cfg, s) && i in s.jobs && |next.tasks| == |s.tasks|
    requires forall k :: 0 <= k < |s.tasks| ==> next.tasks[k].jobId == s.tasks[k].jobId
    requires forall k :: 0 <= k < |s.tasks| && Idle(s, k) ==> Idle(next, k)
    ensures Placed(next, i) && Newest(next.tasks, i) == Newest(s.tasks, i)
  {
    assert Placed(s, i);
    var c := Newest(s.tasks, i).value;
    NewestIs(s.tasks, i, c);
    assert PlacedAt(next, i, c) by {
      forall k | 0 <= k < |next.tasks| && next.tasks[k].jobId == i && k != c ensures Idle(next, k) {
        assert Idle(s, k);
      }
    }
    PlacedHere(next, i, c);
  }

  lemma FirstRowAppended(cfg: Config, s: Sys, next: Sys, row: Q.Task)
    requires TablesOk(cfg, s) && row.jobId !in s.jobs && row.jobId in next.jobs && row.status == Q.Pending
    requires next == s.(jobs := s.jobs[row.jobId := next.jobs[row.jobId]], tasks := s.tasks + [row])
    ensures TablesOk(cfg, next)
    ensures View(next, row.jobId) == Lane(next.jobs[row.jobId], row.kind, Q.Pending, None)
    ensures forall i :: i in s.jobs ==> View(next, i) == View(s, i)
  {
    var j := row.jobId;
    forall k | 0 <= k < |s.tasks| ensures next.tasks[k] == s.tasks[k] && SameRow(s, next, k) {
    }
    assert |s.tasks| !in next.running;
    PlacedHere(next, j, |s.tasks|);
    forall i | i in s.jobs ensures Placed(next, i) && View(next, i) == View(s, i) {
      StaysPlaced(s, next, i);
    }
    forall k | 0 <= k < |next.tasks| ensures LockFresh(cfg, next.now, next.tasks[k]) && next.tasks[k].jobId in next.jobs {
      if k < |s.tasks| {
        assert LockFresh(cfg, s.now, s.tasks[k]);
      }
    }
    forall i | i in next.jobs ensures Placed(next, i) {
    }
  }

  /** A new job with its first task. */
  lemma JobCreated(cfg: Config, s: Sys, j: nat, job: Job)
    requires TablesOk(cfg, s) && j !in s.jobs
    ensures var next := s.(jobs := s.jobs[j := job], tasks := Q.Enqueue(s.tasks, j, Plan, s.now, cfg.maxAttempts));
            TablesOk(cfg, next) && View(next, j) == Lane(job, Plan, Q.Pending, None)
            && forall i :: i in s.jobs ==> View(next, i) == View(s, i)
  {
    EnqueueAppends(s, j, Plan, cfg.maxAttempts);
    var row := Q.Task(j, Plan, Q.Pending, 0, cfg.maxAttempts, s.now, 0, None, None);
    FirstRowAppended(cfg, s, s.(jobs := s.jobs[j := job], tasks := s.tasks + [row]), row);
  }
}
