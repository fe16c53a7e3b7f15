# Olympian: a verified model

Olympian turns a labelled issue, or a dashboard request, into reviewed code. A job moves through PLAN, IMPLEMENT,
VERIFY, REVIEW, REVISE and OPEN_PR stages. A SQLite work queue and a polling worker drive it, an orchestrator decides
every move, and humans hold the gates: a plan is approved before anything is built, a result is accepted before a job is
done. This project models that pipeline and the parsers, plugins and views around it, and proves what they promise
together.

`dafny verify dfyconfig.toml` checks everything, with contradictory assumptions reported.

## How the model is built

**The pipeline**

- `Jobs`, `Reviews`, `Queue`, `Stages`: the job state machine with its audit log, the review gate, every statement of the
  work queue, and each stage handler cut in two at the point where it waits for an agent or a command.
- `Services`, `Orchestrator`, `Worker`: the services as classes over one shared `Database`. Their methods read rows,
  loop, write rows step by step and throw; each is proved to do what the functions above say. The worker's methods are
  proved to be steps of the system.
- `System`: the tables, the handlers in flight, the clock, and one function for every step anyone can take. `Run` is the
  state after any list of steps from an empty database.
- `Lanes`, `Gates`, `Rounds`, `Builds`, `Feedback`: one job seen on its own (its row, its newest task, the handler in
  flight), and the invariants of every step it can take. `Tables` and `Pipeline` prove that the whole system is, job by
  job, such lanes. `Theorems` states the results for every run.
- `Records`: what the verify and review rows say, read off the rows. `Outcomes`, `Histories`, `Backoff`: what each stage and
  decision leaves behind, what a job's history says of its pull request and its prompts, and how long a failed task waits.
- `Operators`: what people do, as steps of the same system. `Termination`: why every revision round ends. `Witnesses`: two
  runs that show where a promise ends.
- `CommitWindow`: what happens if a process dies between a stage's last writes and the completion of its task, and what
  becomes of the job then.

**Beside the pipeline**

- `JsonText`, `Verdicts`: RFC 8259 texts, and the brace scanner that recovers a verdict from model prose.
- `Protobuf`, `Otlp`, `OtlpRoundTrip`, `OtlpDecoder`, `OtlpEvents`, `OtlpMalformed`: the wire reader, what a trace request
  means, its encoding, the decoder's loops, what arrives of every span, and what becomes of broken bytes.
- `Findings`, `Sections`: budgeted trimming of a text, and a file of two sections written and read back. `PersistState`: the
  plugin's hooks over that file. `Resumption`, `Ownership`: what a resumed process goes on with, and who owns the working
  memory over every interleaving, late sub-agents included. `WorkerGuard`: the write guard's roles.
- `Events`: the persisted event history beside the bounded display buffer.
- `Texts`: JavaScript's trimming, first occurrences. `Relevel`, `Compression`: heading re-basing, and context drops per trace.

## What the code does not promise, or does differently from what is said of it

- Splitting a stage's last writes from the completion of its task can make the re-run throw.
  `CommitWindow.RerunThrowsExactly` says exactly when; `Witnesses.GreenVerifyCannotRerun` is a run that gets there. The
  throws use up the attempts and then fail the job together with its queued successor
  (`CommitWindow.RerunsUseUpTheAttempts`). Until then both tasks wait, and one claim may take them together
  (`CommitWindow.TornJobRunsTwice`).
- Feedback that arrives between two agent runs of one pass is quoted by no run, because the second run moves the mark that
  separates old feedback from new. `Theorems.FeedbackReachesAPrompt` gives the exact condition,
  `Witnesses.MidPassFeedbackIsLost` a run.
- A JSON verdict without a fence is found exactly if no opening brace stands before it (`Verdicts.RecoveredExactly`).
- A negative OTLP integer attribute is read as a large positive number, and one that a double cannot hold is rounded;
  every other one comes back exactly (`OtlpRoundTrip.IntegersReadExactly`).
- Trimming does not quite commute with a restart: the text read back has lost the white space after its last entry, so
  near the budget a resumed process can keep an entry that an uninterrupted one drops.
  `Findings.RestartKeepsTheSameEntries` says exactly when.
- The saved checklist is cut at the first occurrence of "## Findings", wherever it stands, and not at a line of its own. A
  todo list that mentions it loses that item's rest and every later item on the next resume; they turn up among the
  findings. A resumed process reads its list back if and only if the header does not occur in it
  (`PersistState.SeededExactly`); `Ownership.CutListIsLost` says what is left of every such list over a restart,
  `Ownership.CopyTheSurvey` is one.
- `persist_state` says it does not rely on call ordering. It does: a sub-agent that first calls when no delegation is in
  flight is not known as one, and its todo list replaces the primary's (`Ownership.ListsAreTakenExactly`).
- A file resumed before its first finding keeps the words "_(none yet)_" in front of the findings, and one resumed before
  its first list keeps "_(no checklist yet)_" as a list; the model keeps both (`PersistState.Seed`).
- Re-levelling twice is not always re-levelling once: a shallowest heading with a blank title stops being a heading
  (`Relevel.RelevelTwice` gives the exact condition).
- `worker_guard` says it does not rely on call ordering. It does: a sub-agent is recognised exactly if it once calls while
  a delegation is in flight and is not the first id ever to call (`WorkerGuard.JudgedExactly`); with a nameless primary, a
  late first sub-agent is taken for the primary for good (`WorkerGuard.FirstChildIsToldOnce`).

## Model

| member | source | states |
|---|---|---|
| Theorems.NoJobStranded | api/src/orchestrator/orchestrator.service.ts:482-540 | in every reachable state a job that is neither finished nor waiting for a human has exactly one outstanding task, of the kind that drives its state; an awaiting, done or failed job has none, a cancelled one at most one |
| Theorems.FinishedJobsTasksFizzle | api/src/orchestrator/orchestrator.service.ts:482-491 | a task still held for a done, failed or cancelled job is completed when it begins and changes nothing else |
| Theorems.WaitingTaskIsClaimable | api/src/queue/queue.service.ts:58-85 | in every reachable state a pending task that is due passes the claim's WHERE clause: no other task of its job can lock it out |
| Theorems.OneHandlerPerJob | api/src/worker/worker.service.ts:74-112 | no two handlers of one job are ever in flight together, and no more handlers than the configured concurrency |
| Theorems.ClaimsAreExclusive | api/src/queue/queue.service.ts:50-95 | whatever the next claim selects was pending and due (runAt not after now), of different jobs, of jobs with no handler in flight, within the free capacity; a due task is left out only if the capacity is full and everything taken has a higher priority, or the same and no later runAt |
| Backoff.BackoffIsWaitedOut | api/src/queue/queue.service.ts:116-146 | over every run: a task that fails at time t with attempts left is not running again before t + base * 2^(attempts-1), whatever else happens, unless a restart comes between |
| Theorems.HumanGatesHold | api/src/orchestrator/orchestrator.service.ts:575-725 | the log is a legal chain from TRIAGED to the current state; past planning it holds exactly one human plan approval, a DONE job exactly one human acceptance; revisionCycle equals approvals plus settled change requests; every row is signed by the one who made the move: the system a failure, the human a cancellation and whatever leaves a waiting or failed state, the agent the rest |
| Theorems.TerminalIsFinal | api/src/job/job.utility.ts:4-13 | no step moves a DONE or CANCELLED job, and FAILED is left only by a human's retry, which logs exactly that |
| Jobs.MovesComeFrom | api/src/job/job.model.ts:27-40 | the transition table read backwards: where a job can come from into each state |
| Theorems.RoundsAreBounded | api/src/orchestrator/orchestrator.service.ts:1262-1298 | in every reachable state a round has at most V+L failed verifies, R+L reviews and V+R-1+L work passes, and loop-backs and change requests together never exceed the feedback rows |
| Termination.RoundsEnd | api/src/orchestrator/orchestrator.service.ts:1199-1790 | over every run of the system and every continuation of it in which the job's round number stays, the stages of the job that end are paid for by the round's potential (unused budgets, place, unconsumed feedback), by four for every feedback row that comes in and by four for every retry of the failed job; so they are at most four times V+R+1, the feedback rows and the retries |
| Theorems.ReviewNeverSeesRed | api/src/orchestrator/orchestrator.service.ts:1212-1264 | whenever a REVIEW task is in flight the round's newest verify is green or there is none |
| Theorems.RedDraftsAreExhausted | api/src/orchestrator/orchestrator.service.ts:1271-1298 | a job on its way out, presented or done over a red build has used up its verify budget |
| Theorems.PlanInForceIsNewest | api/src/orchestrator/orchestrator.service.ts:1934-1950 | from the approval on, revisions are numbered 1..n and approvedPlan returns the newest |
| Theorems.ApprovedPlanStands | api/src/orchestrator/orchestrator.service.ts:586-599 | once a plan is approved, no continuation of the run adds, drops or re-labels a revision |
| Theorems.FeedbackReachesAPrompt | api/src/orchestrator/orchestrator.service.ts:1637-1669 | when OPEN_PR presents the work, every feedback row present at its guard is older than the newest work run, and was in some run's prompt exactly if it did not arrive inside a pass |
| Theorems.AttemptsStayBounded | api/src/queue/queue.service.ts:116-146 | in every reachable state a task's attempts are at most its maximum plus the number of restarts |
| Theorems.StoredCommandsAreTrimmed | api/src/orchestrator/orchestrator.service.ts:1907-1932 | in every reachable state the stored verify command is trimmed, so testing it for blanks and for emptiness are the same |
| Pipeline.StepKeeps | api/src/orchestrator/orchestrator.service.ts:482-509 | the inductive step: every step of the system keeps all table and per-job invariants, and moves each job by one of its own steps or not at all |
| Pipeline.HandlersMatchTasks | api/src/worker/worker.service.ts:98-112 | a RUNNING task has its handler and a PENDING one none; whatever is outstanding or in flight is its job's newest task |
| Pipeline.ExpireFindsNothing | api/src/queue/queue.service.ts:160-189 | while live handlers keep their locks fresh, the sweep for exhausted stale tasks changes nothing |
| Lanes.StageKept | api/src/orchestrator/orchestrator.service.ts:776-827 | every step of a job keeps its state, newest task and handler in agreement, through throws, restarts, exhaustion and forced retry |
| Lanes.FinishLeads | api/src/orchestrator/orchestrator.service.ts:1199-1635 | a stage of a live job always commits, and its successor's task is the one that drives the state it moved to; a stage of a job cancelled meanwhile leaves it cancelled |
| Gates.GatesKept | api/src/job/job.service.ts:97-128 | every logged step keeps the chain, the counts of approvals and acceptances and the round number in agreement |
| Rounds.StagesUseUpTheRound | api/src/orchestrator/orchestrator.service.ts:1602-1634 | every completed stage of a live round strictly decreases what is left of it (unused budgets, then the place in the pipeline) |
| Rounds.OnlyFeedbackReopens | api/src/orchestrator/orchestrator.service.ts:1649-1669 | inside a round only two things bring the measure back up: OPEN_PR's loop-back, which needs feedback no pass has addressed, and a human's retry of a failed job |
| Theorems.ReviewsGoOutExactly | api/src/orchestrator/orchestrator.service.ts:1446-1635 | over every run, told from the passes of the round themselves: the new pass is the newest, under the next number, with the reply as stored; the job goes out exactly if the reply meets the rubric, the round has its maximum of passes, or the newest MAX_REVIEW_RETRIES passes in a row were unparseable; else to REVISING after a parsed reply and to another review after an unparseable one; the newest verify is green or absent |
| Builds.ReviewGoesOut | api/src/orchestrator/orchestrator.service.ts:1585-1635 | the same of one job whose build is not red, with the task that follows |
| Records.TrailingIsARow | api/src/orchestrator/orchestrator.service.ts:1446-1466 | what is counted as unparseable is n exactly if the newest n passes of the round carry the sentinel and the one before them, if any, does not |
| Records.ParsedPassEndsTheRow | api/src/orchestrator/orchestrator.service.ts:1461-1466 | a parsed pass that does not quote the sentinel sets that count to zero |
| Records.LastVerifyIs | api/src/orchestrator/orchestrator.service.ts:1513-1518 | the newest verify passed, or failed, as the round's last row says, and there is none exactly if the round has no row |
| Reviews.RepliesAreStored | api/src/review/review.utility.ts:105-137 | a reply is stored with its issues and dimensions; a verdict left out is PASS exactly if nothing high or critical and no failed dimension stands against it |
| Outcomes.VerifiesLeadExactly | api/src/orchestrator/orchestrator.service.ts:1216-1298 | over every run, a finished VERIFY with a command records, under the round's next number, a failure exactly if both executions were red (one that could not be had counts as passed); it leads to SELF_REVIEWING exactly if it passed, else to REVISING exactly while the round's failed rows are fewer than the maximum, else out; without a command nothing is recorded |
| Outcomes.CommandIsDiscovered | api/src/orchestrator/orchestrator.service.ts:1907-1932 | a live VERIFY keeps a known command, and stores a discovered one without the white space around it |
| Outcomes.CommandsStay | api/src/orchestrator/orchestrator.service.ts:1907-1932 | no step sets a command but a VERIFY that has none |
| Outcomes.DraftsAreProposed | api/src/orchestrator/orchestrator.service.ts:902-943 | a finished PLAN puts the drafted text on the table: the newest revision, open, under the next number, its text trimmed |
| Outcomes.TheTableStays | api/src/orchestrator/orchestrator.service.ts:575-665 | while a plan waits for its approval no step changes any revision |
| Outcomes.ApprovalPutsTheDraftInForce | api/src/orchestrator/orchestrator.service.ts:575-599 | after an approval the plan in force is the draft that was on the table, text and number; every open revision is approved and no other touched |
| Outcomes.PlanFeedbackSupersedes | api/src/orchestrator/orchestrator.service.ts:636-665 | feedback on a plan supersedes every open revision, touches no other, and sends the job back to PLANNING |
| Outcomes.DecisionsDo | api/src/orchestrator/orchestrator.service.ts:543-827 | over every run, each of the eight decisions of a human: accepted exactly when the job's state (or its revisions, or its pull request) allows it; then the state it leads to, one signed log row, the round it opens, the feedback it notes, and nothing else of the job; a refused one changes nothing at all |
| Histories.HistoriesHold | api/src/orchestrator/orchestrator.service.ts:1319-1345 | in every reachable state: an IMPLEMENT run quoted no feedback, a REVISE run exactly what came in between the last run of an earlier pass and the beginning of its own; and a job has a pull request exactly if it is not a dashboard's and its work was presented, or it was cancelled meanwhile |
| Builds.ApprovalPicksTheProposal | api/src/orchestrator/orchestrator.service.ts:575-599 | what approvedPlan returns right after the approval is the revision that was on the table |
| Feedback.SingleRunPassesLoseNothing | api/src/orchestrator/orchestrator.service.ts:1319-1339 | if each run row is created together with the read of the feedback, every row older than the newest work run was in a prompt |
| Feedback.FeedbackPaysForWork | api/src/orchestrator/orchestrator.service.ts:1649-1669 | loop-backs and change requests over the whole log are paid for in feedback rows |
| Witnesses.MidPassFeedbackIsLost | api/src/orchestrator/orchestrator.service.ts:1097-1108 | the witness, as a run from an empty database: a presented issue's job, changes requested, one agent run, a comment, a second run; the comment is older than the last work run and in no prompt |
| CommitWindow.RerunThrowsExactly | api/src/job/job.model.ts:27-40 | for every stage and every answer the stage itself commits, and a re-run after its writes but before its completion throws exactly for IMPLEMENT, for VERIFY unless it led to REVISING, and for REVIEW unless it stayed |
| CommitWindow.RerunsUseUpTheAttempts | api/src/worker/worker.service.ts:118-134 | while such a re-run throws, the job and its queued successor stay as they are for as long as attempts remain; the re-run that uses up the last one fails the job, the task and the successor |
| CommitWindow.ThrowingRerun | api/src/queue/queue.service.ts:116-154 | the tables after one such re-run: with attempts left only the task changed, back to pending after its backoff; else the job is failed with a logged move and everything outstanding for it with it |
| CommitWindow.TornJobRunsTwice | api/src/queue/queue.service.ts:58-85 | after a crash in the window the interrupted task and its successor are both claimable, and a claim with room for all that is due puts two handlers of one job in flight |
| Witnesses.GreenVerifyCannotRerun | api/src/job/job.model.ts:34 | the witness, as a run: a VERIFY in flight whose green end moves its job to where VERIFYING is illegal |
| Reviews.GateIsTheRubric | api/src/review/review.utility.ts:113-137 | a parsed reply passes the gate exactly if it meets the rubric (no FAIL, no failed dimension, nothing high or critical) and the build is not red: a missing verdict neither helps nor hurts |
| Queue.ClaimRespectsLocks | api/src/queue/queue.service.ts:58-85 | a claimed row's job has no fresh RUNNING row, and a stale row is taken over only with attempts left |
| Queue.TopExists | api/src/queue/queue.service.ts:58-85 | for every table, every set of eligible rows and every limit the ordered and limited selection has an answer, so a claim is always defined |
| Queue.AttemptsBounded | api/src/queue/queue.service.ts:116-154 | over any list of queue statements at any times, attempts never exceed the maximum plus the number of reclaims |
| Queue.TotalBackoff | api/src/queue/queue.utility.ts:2-5 | a task exhausted by failures alone was held back base * (2^(max-1) - 1) ms in total |
| Queue.RowsSettle | api/src/queue/queue.service.ts:97-154 | no lock stays on a row that completes or fails; a failed one waits base * 2^(attempts-1) while attempts are left |
| Services.JobService.Transition | api/src/job/job.service.ts:97-128 | succeeds exactly if the move is legal or forced, then changes state and log together; otherwise throws and changes nothing |
| Services.QueueService.Enqueue | api/src/queue/queue.service.ts:24-44 | the table gains one pending row unless an equivalent pending row is there |
| Services.QueueService.ClaimBatch | api/src/queue/queue.service.ts:50-95 | as many eligible rows as the limit allows, best first, are RUNNING with a fresh lock and one attempt more; eligibility is judged on the table before the update |
| Services.QueueService.SelectDue | api/src/queue/queue.service.ts:64-85 | the sorted and limited selection: only rows that are due, or stale with attempts left, of jobs with no freshly locked row; a row that might be claimed too is left out only at the limit, behind everything taken by priority and then by runAt |
| Theorems.CompletedTasksRest | api/src/queue/queue.service.ts:97-102 | no step of any run touches the row of a completed task again |
| Queue.CompletedRowsRest | api/src/queue/queue.service.ts:97-102 | of all queue statements only one that fails this very row touches a completed row |
| Queue.HeartbeatHoldsTheJob | api/src/queue/queue.service.ts:105-110 | the owner's heartbeat keeps every row of the job unclaimable for one more time to live, after which the row may be taken over exactly if it has attempts left; anybody else's does nothing |
| Worker.WorkerService.Heartbeat | api/src/worker/worker.service.ts:112-116 | a heartbeat is the system's step for it |
| Services.QueueService.Fail | api/src/queue/queue.service.ts:116-154 | reports a retry exactly while attempts remain; the row is then pending after the backoff, else failed |
| Services.QueueService.ExpireExhaustedStale | api/src/queue/queue.service.ts:160-189 | exactly the stale rows without attempts fail, and exactly those are returned |
| Services.QueueService.CancelForJob | api/src/queue/queue.service.ts:191-196 | every outstanding row of the job fails; no other row changes |
| Services.QueueService.ReclaimOrphaned | api/src/queue/queue.service.ts:211-215 | every RUNNING row is pending and due at once, without a lock |
| Rounds.RecordedVerifyCounts | api/src/verify/verify.service.ts:15-41 | a recorded result counts for its own cycle and no other, raises the failures only if it failed, is its cycle's newest, and its attempt number is the cycle's count |
| Services.VerifyService.CountFailedForCycle | api/src/verify/verify.service.ts:39-41 | the failed rows of the cycle and no others are counted |
| Services.VerifyService.CountForCycle | api/src/verify/verify.service.ts:30-32 | all rows of the cycle are counted |
| Orchestrator.OrchestratorService.BeginStage | api/src/orchestrator/orchestrator.service.ts:482-509 | a missing or terminal job ends the task; otherwise the stage's first move, discovery and reads are made, or it throws having changed nothing |
| Orchestrator.OrchestratorService.RunWithCompletionLoop | api/src/orchestrator/orchestrator.service.ts:1078-1190 | between 1 and max(C,0)+1 runs, each recorded; the loop ends at the first run that fails, is judged complete or uses up the retries, and throws exactly if that run failed or did nothing on an empty branch |
| Orchestrator.OrchestratorService.FinishPlan | api/src/orchestrator/orchestrator.service.ts:902-943 | a revision with the next number is proposed and the job awaits approval |
| Orchestrator.OrchestratorService.FinishVerify | api/src/orchestrator/orchestrator.service.ts:1212-1298 | the result after one retry is recorded for the cycle; green goes to review, red to another revision while failures are below the budget, else out |
| Orchestrator.OrchestratorService.FinishReview | api/src/orchestrator/orchestrator.service.ts:1453-1635 | the pass is recorded; a passed gate goes out, a failed one to a revision while passes remain, an unparseable one to another review while its own retries remain |
| Orchestrator.OrchestratorService.FinishOpenPr | api/src/orchestrator/orchestrator.service.ts:1671-1790 | the job awaits its result approval, with a pull request unless it came from the dashboard |
| Orchestrator.OrchestratorService.OnTaskExhausted | api/src/orchestrator/orchestrator.service.ts:512-540 | every outstanding task of the job fails and so does the job, unless it was terminal; an unknown job changes nothing |
| Orchestrator.OrchestratorService.ApprovePlan | api/src/orchestrator/orchestrator.service.ts:575-613 | refused unless a plan awaits approval; else the open revision is approved, a round opened, the job moved and IMPLEMENT enqueued |
| Orchestrator.OrchestratorService.SubmitPlanFeedback | api/src/orchestrator/orchestrator.service.ts:630-667 | refused unless a plan awaits approval; else the open revision is superseded and PLAN enqueued |
| Orchestrator.OrchestratorService.AcceptResult | api/src/orchestrator/orchestrator.service.ts:674-689 | refused unless a result awaits approval; else DONE, no task |
| Orchestrator.OrchestratorService.RequestChanges | api/src/orchestrator/orchestrator.service.ts:696-725 | refused unless a result awaits approval; else the note is recorded, a round opened and REVISE enqueued |
| Orchestrator.OrchestratorService.CancelJob | api/src/orchestrator/orchestrator.service.ts:543-560 | refused for a missing or terminal job; else its outstanding tasks fail and it is CANCELLED |
| Orchestrator.OrchestratorService.RetryJob | api/src/orchestrator/orchestrator.service.ts:776-827 | refused unless FAILED; else forced to the state of its newest task's kind (REVIEW without one) with that task enqueued |
| Orchestrator.OrchestratorService.OnPlanComment | api/src/orchestrator/orchestrator.service.ts:339-356 | a comment on an open plan is feedback, or fails the job exactly when the revision limit is reached |
| Orchestrator.OrchestratorService.OnPrFeedback | api/src/orchestrator/orchestrator.service.ts:280-325 | feedback on a pull request is always recorded, and opens a round exactly if the job is parked there |
| Operators.Desk.CreateJob | api/src/orchestrator/orchestrator.service.ts:616-622 | creating a job and its PLAN task is the system's step |
| Operators.Desk.ApprovePlan | api/src/orchestrator/orchestrator.service.ts:575-613 | the action, for any job id, is the system's step for it and keeps every invariant |
| Operators.Desk.SubmitPlanFeedback | api/src/orchestrator/orchestrator.service.ts:630-667 | likewise |
| Operators.Desk.AcceptResult | api/src/orchestrator/orchestrator.service.ts:674-689 | likewise |
| Operators.Desk.RequestChanges | api/src/orchestrator/orchestrator.service.ts:696-725 | likewise |
| Operators.Desk.CancelJob | api/src/orchestrator/orchestrator.service.ts:543-560 | likewise, with the cancelled tasks |
| Operators.Desk.RetryJob | api/src/orchestrator/orchestrator.service.ts:776-827 | likewise, from the newest task's kind |
| Operators.Desk.OnPlanComment | api/src/orchestrator/orchestrator.service.ts:339-356 | likewise, as feedback or as the limit |
| Operators.Desk.OnPrFeedback | api/src/orchestrator/orchestrator.service.ts:280-325 | likewise, as a new round or as a recorded row |
| Worker.WorkerService.OnModuleInit | api/src/worker/worker.service.ts:34-50 | a start reclaims what the last process left RUNNING and has nothing in flight |
| Worker.WorkerService.ExpireAndEscalate | api/src/worker/worker.service.ts:77-86 | the sweep and its escalations one by one are the expiry step, however many tasks of however many jobs are hit |
| Worker.WorkerService.Poll | api/src/worker/worker.service.ts:74-105 | a poll is the expiry step and then a claim of min(free capacity, eligible) tasks; inflight always counts the handlers in flight and stays within the concurrency |
| Worker.WorkerService.BeginTask | api/src/worker/worker.service.ts:107-120 | a task's first half, with its settlement if it ends there, is the system's step |
| Worker.WorkerService.FinishTask | api/src/worker/worker.service.ts:118-134 | a stage's end with complete, or fail and escalation, is the system's one step |
| Worker.WorkerService.WorkPass | api/src/orchestrator/orchestrator.service.ts:1078-1190 | a whole work pass is that many agent-run steps followed by the stage's end, or by a throw |
| Verdicts.RecoveredExactly | api/src/agent/agent.utility.ts:598-646 | for every JSON object text (RFC 8259 sections 2 to 7), any prefix and any suffix, the scanner finds exactly that text if and only if the prefix has no opening brace |
| Verdicts.TruncatedIsNull | api/src/agent/agent.utility.ts:598-646 | a proper beginning of an object text, after prose without an opening brace, yields null |
| Verdicts.FencedVerdictRecovered | api/src/agent/agent.utility.ts:535-562 | the object after the first ```json fence is what is parsed, whatever stands before, inside its strings and after |
| Verdicts.PlainFenceRecovered | api/src/agent/agent.utility.ts:564-573 | with no ```json fence, the object after the first plain fence is |
| Verdicts.UnfencedVerdictRecovered | api/src/agent/agent.utility.ts:575-590 | with no fence, the first object is, if no brace stands before it |
| Verdicts.TruncatedFencedIsNull | api/src/agent/agent.utility.ts:535-590 | a verdict that breaks off behind its fence yields null from all three strategies, never a part of it |
| Verdicts.ExtractFirstJsonObject | api/src/agent/agent.utility.ts:598-646 | the scanning loop returns the shortest closed object text from the first brace, or null |
| Verdicts.ExtractJsonBlock | api/src/agent/agent.utility.ts:535-590 | the first of the three candidates that parses |
| Verdicts.BlockFallsThrough | api/src/agent/agent.utility.ts:535-590 | fenced, plainly fenced, bare: a candidate that is missing or does not parse leaves it to the next |
| Protobuf.VarintRoundTrip | api/src/langfuse/langfuse.utility.ts:17-33 | reading a base-128 varint undoes writing it and leaves the rest, for every number |
| Protobuf.VarintSeptets | api/src/langfuse/langfuse.utility.ts:17-33 | a varint holds its number in septets, lowest first, the top bit set on all but the last (Protocol Buffers Encoding, "Base 128 Varints") |
| Protobuf.LittleOctets | api/src/langfuse/langfuse.utility.ts:35-42 | a fixed-width number is read lowest byte first |
| Protobuf.TagIsVarint | api/src/langfuse/langfuse.utility.ts:58-62 | a tag is the varint of the field's number, three bits further up, and the wire type below it |
| OtlpMalformed.TagsAreShort | api/src/langfuse/langfuse.utility.ts:58-62 | of a tag only the low 32 bits count |
| Protobuf.ProtoReader.Varint | api/src/langfuse/langfuse.utility.ts:17-33 | the shifting loop yields the varint's value and position, also at the end of the buffer |
| Protobuf.ProtoReader.SkipField | api/src/langfuse/langfuse.utility.ts:61-85 | moves past wire types 0, 1, 2 and 5 and throws on any other |
| OtlpRoundTrip.RoundTrip | api/src/langfuse/langfuse.utility.ts:232-324 | decoding the encoding of any request yields, in order, exactly the spans with a session id, taken from the span first and then from its resource |
| OtlpRoundTrip.UnknownFieldsChangeNothing | api/src/langfuse/langfuse.utility.ts:61-85 | unknown fields of wire types 0, 1, 2 and 5, anywhere in the request, change nothing |
| OtlpRoundTrip.ResourceMayFollowItsScopes | api/src/langfuse/langfuse.utility.ts:246-276 | a resource may stand before or after the scope spans it is about |
| OtlpRoundTrip.IntegersReadExactly | api/src/langfuse/langfuse.utility.ts:130-134 | an int64 attribute comes back as itself exactly if it is not negative and a double holds it |
| OtlpRoundTrip.RepresentableIsScaled | api/src/langfuse/langfuse.utility.ts:130-134 | which integers those are: the ones below 2^53, doubled any number of times |
| OtlpRoundTrip.LastFieldWins | api/src/langfuse/langfuse.utility.ts:164-212 | of every field of a span the last occurrence is the one decoded, and every attribute entry stays |
| OtlpRoundTrip.LastKeyWins | api/src/langfuse/langfuse.utility.ts:148-160 | of every attribute key the last entry is the one that counts, and a key is lost exactly if it is `__proto__`, which an object literal does not take |
| OtlpRoundTrip.KeptShows | api/src/langfuse/langfuse.utility.ts:285-318 | a span is kept exactly if it or its resource has a session id, its own first; times are rounded down to milliseconds, an end of zero is none, and the body's own keys are never an attribute's |
| OtlpEvents.EventsAreDelivered | api/src/langfuse/langfuse.utility.ts:149-324 | from the bytes on: decoding any encoded request yields, in order, exactly one result for every span that names a session or whose resource does, with its session, the last occurrence of each field, the label of its kind, and under every key but the body's own the value of the last attribute entry with that key |
| OtlpMalformed.WireTypesOfSpansAreIgnored | api/src/langfuse/langfuse.utility.ts:164-212 | the known fields of a span are read whatever their wire type says |
| OtlpMalformed.UnfitValuesAreNotSkipped | api/src/langfuse/langfuse.utility.ts:108-140 | a value whose wire type does not fit is not skipped; the reader goes on in the middle of it |
| OtlpMalformed.SkipsExactly | api/src/langfuse/langfuse.utility.ts:61-85 | four wire types are skipped as far as there are bytes; any other throws |
| OtlpMalformed.ChunksStopAtTheEnd | api/src/langfuse/langfuse.utility.ts:44-51 | a chunk that claims more bytes than there are gets those there are |
| OtlpMalformed.UnknownWireTypesThrow | api/src/langfuse/langfuse.utility.ts:61-85 | an unknown field of an unknown wire type makes the decoder throw |
| OtlpMalformed.ShortTimesThrow | api/src/langfuse/langfuse.utility.ts:35-42 | so does a time with fewer than eight bytes left |
| OtlpRoundTrip.SessionIsFirstTruthy | api/src/langfuse/langfuse.utility.ts:279-289 | a session id is the value under the first of the keys that holds a truthy one |
| OtlpRoundTrip.SpanRoundTrip | api/src/langfuse/langfuse.utility.ts:164-212 | a span message yields its fields, the last occurrence winning, and its attributes, the last of a key winning |
| OtlpDecoder.DeserializeOtlpTraces | api/src/langfuse/langfuse.utility.ts:232-324 | the nested loops yield what the step functions say, or throw where they do |
| OtlpDecoder.CollectAttributes | api/src/langfuse/langfuse.utility.ts:149-161 | later entries of a key replace earlier ones, entries without a key are dropped, and one that throws makes all throw |
| Findings.TrimThenAppend | api/.hermes/plugins/persist_state/__init__.py:92-116 | trimming, appending and trimming again equals stripping, appending and trimming once: for every text that has an entry or fits, whatever its entries hold |
| Findings.CutThenAppend | api/.hermes/plugins/persist_state/__init__.py:104-116 | what is dropped now would be dropped after the next report anyway, whatever white space stands in between |
| Findings.RestartKeepsTheSameEntries | api/.hermes/plugins/persist_state/__init__.py:136-146 | an entry is kept with the white space at the text's end and without it alike, exactly if that white space does not push the whole text over the budget and the entry's tail over the room |
| Findings.SurvivesExactly | api/.hermes/plugins/persist_state/__init__.py:108-116 | of a text over the budget exactly the entries stay whose tail fits behind the marker, and the newest in any case |
| Findings.CutFitsTheBudget | api/.hermes/plugins/persist_state/__init__.py:97-116 | the result is within the budget whenever the newest entry fits behind the marker, or there is none and the text is cut at the front |
| Findings.StartsExactly | api/.hermes/plugins/persist_state/__init__.py:37-38 | an entry starts exactly where a line begins with "### ", digits and a dot |
| Findings.CutWithoutEntries | api/.hermes/plugins/persist_state/__init__.py:104-106 | a text without entries is cut to as much of its end as fits, less the white space it begins with |
| Findings.CutIsMarked | api/.hermes/plugins/persist_state/__init__.py:100-116 | whatever is cut stands behind the marker |
| Findings.TrimTwice | api/.hermes/plugins/persist_state/__init__.py:92-116 | trimming what is trimmed, or only stripped, changes nothing more |
| Findings.TrimFindings | api/.hermes/plugins/persist_state/__init__.py:92-116 | the search for entry headings and for the earliest one whose tail fits, with the hard slice of a text without any, computes the trimmed text |
| Sections.ReadGivesBackExactly | api/.hermes/plugins/persist_state/__init__.py:80-89 | for any two headers that cannot be confused and any two sections, splitting what was written gives the first section back, and both, if and only if the second header does not occur in the first section |
| Sections.ReadIs | api/.hermes/plugins/persist_state/__init__.py:80-89 | of any text: the second section is what stands behind the first second header, the first what stands behind the first first header before it, and both are empty where there is none |
| PersistState.SeededExactly | api/.hermes/plugins/persist_state/__init__.py:136-146 | a process seeded from what was written has the list, and both sections, if and only if "## Findings" does not occur in the list |
| PersistState.SeededCut | api/.hermes/plugins/persist_state/__init__.py:80-89 | when it does occur, the list is read up to it and all that follows is read as findings |
| PersistState.WorkingMemory.Highest | api/.hermes/plugins/persist_state/__init__.py:143-146 | the highest number of an entry heading in the text, zero if there is none |
| PersistState.WorkingMemory.Flush | api/.hermes/plugins/persist_state/__init__.py:119-130 | the file is composed from memory, placeholders for what is empty |
| PersistState.FileReads | api/.hermes/plugins/persist_state/__init__.py:119-130 | the file's text, header by header, with the placeholder for an empty section |
| PersistState.WorkingMemory.OnPostToolCall | api/.hermes/plugins/persist_state/__init__.py:364-404 | the post-hook seeds, records, flushes and heals as specified, on the plugin's state and the file |
| PersistState.WorkingMemory.OnPreToolCall | api/.hermes/plugins/persist_state/__init__.py:350-361 | a delegation notes the primary and counts itself in flight; any other call is observed |
| PersistState.WorkingMemory.SeedOnce | api/.hermes/plugins/persist_state/__init__.py:136-146 | memory is inherited once, from the file's text split at its headers, numbering from the highest entry |
| Ownership.FileIsThePrimarys | api/.hermes/plugins/persist_state/__init__.py:364-404 | over every interleaving of calls, deletions and restarts, late sub-agents included, the file's text is the two sections last written: a list and all reports, trimmed once; the list is the last one taken exactly if no process has since resumed the file with "## Findings" in it, and that one is the primary's unless an unknown sub-agent's came after |
| Ownership.HeaderFreeListsSurvive | api/.hermes/plugins/persist_state/__init__.py:80-146 | if no list handed in contains "## Findings", the list on file is the last one taken after every interleaving |
| Ownership.CutListIsLost | api/.hermes/plugins/persist_state/__init__.py:80-89 | for every list with the header: handed in, a restart, a report, and the file shows it up to the header only, its rest among the findings |
| Ownership.CopyTheSurvey | api/.hermes/plugins/persist_state/__init__.py:80-89 | the witness: a list with the single item "Copy the survey into ## Findings" |
| Ownership.ListsAreTakenExactly | api/.hermes/plugins/persist_state/__init__.py:392-398 | after every interleaving a list is taken exactly if its caller is not known as a sub-agent by this call or an earlier one; the primary's always is |
| Ownership.PromptCallersOwnNothing | api/.hermes/plugins/persist_state/__init__.py:330-333 | if every sub-agent calls while a delegation is in flight, all of them are known and no list but the primary's is ever taken |
| Ownership.RestartShowsTheSameEntries | api/.hermes/plugins/persist_state/__init__.py:136-146 | at any point of a run, a process that goes on and one that takes over its file show the same entries after the next report exactly if the white space at the findings' end does not decide at the budget's edge |
| Ownership.PostHookHeals | api/.hermes/plugins/persist_state/__init__.py:153-158 | after every post-hook the file is there, with the content composed from memory, as soon as there is anything to lose |
| Ownership.NumbersIncrease | api/.hermes/plugins/persist_state/__init__.py:379-391 | across restarts a report gets a number above every number given before while every report fits in the room or holds no line like an entry heading, and the next one exactly while none holds such a line and no list was cut |
| Ownership.SubAgentsAreKnown | api/.hermes/plugins/persist_state/__init__.py:325-333 | exactly the sub-agents that have called while a delegation was in flight are known as such; the primary never is |
| WorkerGuard.JudgedExactly | api/.hermes/plugins/worker_guard/__init__.py:195-267 | over every interleaving, late sub-agents included, a caller is judged a sub-agent exactly if by this call or an earlier one it called while a delegation was in flight and was not the first id ever to call |
| WorkerGuard.NamedPrimary | api/.hermes/plugins/worker_guard/__init__.py:195-211 | with a primary that has an id this is: seen once with a delegation in flight |
| WorkerGuard.NamelessPrimary | api/.hermes/plugins/worker_guard/__init__.py:195-211 | with a nameless primary it is the same for every sub-agent but the first to call |
| WorkerGuard.FirstChildIsToldOnce | api/.hermes/plugins/worker_guard/__init__.py:206-211 | with a nameless primary the first sub-agent to call is told by that one call: late, it holds the primary's place for good and every edit it ever tries is refused; else every one is allowed |
| WorkerGuard.VerdictsAreExact | api/.hermes/plugins/worker_guard/__init__.py:195-267 | if every sub-agent's call falls into a delegation in flight, each verdict depends only on who calls and with what tool, from the first call on |
| WorkerGuard.PrimaryNeverWrites | api/.hermes/plugins/worker_guard/__init__.py:230-261 | a primary's write, code or file-writing shell call is refused after every interleaving, late sub-agents included |
| WorkerGuard.ReadsAreCappedExactly | api/.hermes/plugins/worker_guard/__init__.py:103-109 | the read cap's exemption holds exactly for those judged sub-agents, never for the primary |
| WorkerGuard.LateChildIsRefused | api/.hermes/plugins/worker_guard/__init__.py:206-211 | the shortest run that goes wrong: a nameless primary's background delegation comes back before its sub-agent's first call |
| WorkerGuard.WorkerGuardPlugin.OnPreToolCall | api/.hermes/plugins/worker_guard/__init__.py:195-267 | the hook's state and verdict are the specified ones |
| Events.TableIsTheHistory | api/src/agent/agent.service.ts:297-336 | in any timing the table holds exactly the events whose write succeeded, in arrival order under their place in it; a failed batch leaves a gap and moves nothing |
| Events.SurvivorsInOrder | api/src/agent/agent.utility.ts:501-513 | rows keep arrival order and their number is their event's place in it, whatever batches fail; every event whose write succeeded is there |
| Events.StoppedRunsAreComplete | api/src/agent/agent.service.ts:297-336 | for any timing of flushes, a drained persister with successful writes holds everything heard, numbered 0..n-1, while the buffer shows the newest 1000 of all that arrived |
| Events.BufferIsAWindow | api/src/langfuse/langfuse.service.ts:86-130 | until completion the buffer is always the newest min(n,1000) events ingested since the run was first observed |
| Events.LangfuseService.Ingest | api/src/langfuse/langfuse.service.ts:86-112 | one session's buffer is shifted and pushed, its retirement withdrawn; other sessions do not change |
| Events.LangfuseService.SweepExpired | api/src/langfuse/langfuse.service.ts:42-51 | exactly the buffers retired longer than the retention are dropped |
| Events.EventPersistence.Stop | api/src/agent/agent.service.ts:329-334 | nothing pending and nothing queued remains; every queued write was landed in order |
| Relevel.RelevelIsStable | api/src/judge/judge.utility.ts:33-81 | with titled headings the shallowest lands on the base, deeper stays deeper (strictly below the clamp at 6), and every other line and the line count stay; a moved heading is its new hashes, a blank and its trimmed title |
| Relevel.RelevelTwice | api/src/judge/judge.utility.ts:33-81 | re-levelling twice is re-levelling once exactly if the first time settles the text; with titled headings it always does |
| Relevel.RelevelCritique | api/src/judge/judge.utility.ts:33-81 | the two passes with their fence toggle compute the re-based lines |
| Relevel.HeadingsAre | api/src/judge/judge.utility.ts:24-50 | a line is a heading of level n exactly if it is blanks, n hashes (1 to 6), a blank and at least one more character, on one line |
| Relevel.TitleIsShortest | api/src/judge/judge.utility.ts:24-50 | its title is the shortest beginning that leaves only blanks and then hashes |
| Relevel.FencesAre | api/src/judge/judge.utility.ts:33-81 | a fence is three backticks or tildes behind white space |
| Relevel.FencedIsOdd | api/src/judge/judge.utility.ts:33-81 | a line is inside a fence exactly if an odd number of fence lines stands before it |
| Compression.CompressionDrops | app/src/components/RunOutput/Compression.tsx:31-78 | an index is reported, with the pair (p, c), exactly if its event and the latest earlier one of its trace with an input have sums of input, cache read and cache creation c and p with 5c < 4p and p - c > 2000 |
| Compression.OnlySumsCount | app/src/components/RunOutput/Compression.tsx:31-47 | moving tokens between input and cache, with the sums unchanged, changes no report |
| Compression.TracesDoNotMix | app/src/components/RunOutput/Compression.tsx:61-78 | however traces interleave, the drop reported at an event is the one its own trace alone reports at that event's place |
| Compression.PlacesKeepOrder | app/src/components/RunOutput/Compression.tsx:61-78 | the mapping from stream indices to places in a trace keeps the order |
| Compression.EveryPlaceIsTaken | app/src/components/RunOutput/Compression.tsx:61-78 | and reaches every place of the trace |

## Left out

- A handler's last writes (final transition, successor, completion) are one step of `System`, and failing a task together with its escalation is one step; `CommitWindow` covers the split of the first.
- Human actions are atomic: what two requests interleaving inside one action would do is not modelled.
- One worker process at a time; `reclaimOrphaned` would take tasks from a second one.
- Heartbeats: the clock advances only as far as every live handler's lock stays fresh; a heartbeat that stalls longer than the lock's time to live is not modelled, so the expiry sweep is proved as a method but never fires in a run.
- Liveness: that the worker keeps polling and agents come back; the results say what is claimable and what is bounded.
- Re-labelling a FAILED or CANCELLED issue calls the transition without `force`, so it throws and is no step of the model.
- The texts of plan feedback and of change requests, and what PLAN and REVIEW prompts quote.
- Job fields that decide nothing here: error texts, reasons, confidence, pull request number, repository, the attempts counter, `setRepo`, comments and reactions.
- Row timestamps of one job are distinct and grow; ties of `createdAt` within a millisecond are not modelled.
- GitHub, git, Docker, processes, HTTP and SSE: agent runs, commands and verdicts are arbitrary inputs of steps.
- `JSON.parse` is a parameter that accepts object texts; zod's schema is the type `RawReview`.
- Characters of a string literal are code points, not UTF-16 units; strings on the wire are their UTF-8 bytes, and invalid UTF-8 is not modelled.
- An attribute integer that a double rounds is marked `Inexact`, not rounded; tags and lengths of 2^53 and more are read exactly in the model.
- Findings: the digits of entry headings are ASCII, white space is Python's, and `rest` in `Report` stands for the label, the goal and the summary as they are rendered from a result's JSON.
- Only the plugin writes PROGRESS.md, and the run is in a work phase; in other phases all hooks do nothing. Sub-agents never delegate and have ids of their own.
- `worker_guard`'s reading of shell commands and the clipping of a read's text: a call comes with what its command does.
- An event session is the run's own: nothing was ingested under its id before it is observed. Ingestion during a completed run, sweeping and late spans are modelled per session but the window result ends at completion.
- Relevel.RelevelCritique: a text is its lines, and each line is matched once instead of twice.
- Compression: token counts are integers, and `cur < prev * 0.8` is `5 * cur < 4 * prev`.
- `stripShutdownNoise`, `spawnProcess`, prompts, metrics, the chat semaphore, read-model DTOs: text or easy members only.
