# WiseOrder runtime: a verified model

WiseOrder turns git commits and demo requests into jobs, runs each job through a
pipeline of steps that write workflow, task, memory and approval rows, and asks a
human for approval at the end. Workers are coroutines that share one Redis, one
Postgres and one vector store; any of them can raise at any step, and any process can
be killed between two steps.

This project models that runtime and proves what it promises.

* `Dedup`, `Decimal`: the claim on a (repo, sha) pair, kept in Redis under a time to
  live, and the decimal text a claim holds. A server state, a command per request.
* `RedisQueue`, `RedisQueueProofs`: the HIGH, NORMAL and dead-letter lanes and the jobs
  in workers' hands. `QueueCode` has the `Job`, `Queue` and `Orchestrator` objects as
  the program writes them, proved against the lane functions.
* `Programs`, `ProgramProofs`: both pipelines as an automaton over program points, one
  per atomic step, the reading and the writing half of a log append being two; and the
  rows one workflow has at every point.
* `FailurePaths`, `Faults`: the path of a run in which everything goes through, where each
  failure leads, and over safe runs which endings the failures of a handler allow.
* `Tables`, `TablesProofs`: the shared tables, what each step does to them, and that a
  step is a step on its own workflow's rows and nothing on anyone else's.
* `Handlers`, `PipelineCode`, `Reaper`: the two job handlers, the approval gateway and
  the orphan reaper as imperative code (transactions, try and except, early returns, a
  loop over rows) with everything other coroutines may do in between. The handlers are
  proved equal to the automaton, so that its program points are this code's control
  flow; the reaper's loop is proved equal to one transaction.
* `Runtime` and the `Runtime...` proofs: the whole system as one transition system. Any
  number of processes and workers, arrivals, BLPOP, SET NX and the separate GET, inserts,
  attaches, every pipeline step, exceptions at each of them, lost replies, clock ticks,
  operator actions, graceful stops, kills, starts (the reaper first, then the workers).
* `ClaimTheorems`, `JobTheorems`: what holds in every run, with any number of processes.
* `RowTheorems`: what holds in every run whose starts are safe, that is, never reap a row
  some live handler still works on. Every run of one process at a time, as the
  integration guide assumes, is such a run. `UnsafeStarts` shows that unsafe starts do
  happen otherwise, and that a start keeps final statuses final exactly if it is safe.
* `Orphans`, `TaskTheorems`: in safe runs, exactly which running rows have no live handler,
  and exactly when a completed task is failed after all. `Witnesses` has runs from the
  empty system that show what can happen.
* `Origins`, `Decisions`: over every run, the insert of each row and what the reaper may
  conclude from its age, and what an approval's decision and delivery columns hold.
* `Provenance`, `Openings`: from the job that arrived to the row it makes, and from a job
  in a worker's hands to the code run on its payload.
* `Interference` ties the code to the runtime: cut out of a safe run, what one handler
  does is a run of its code, with everything else that happens as what its code meets.
* `LlmCall`, `Timing`, `ClaimTiming`: the bounded retry loop, the length of a handler, and
  mutual exclusion from bounds on how long its parts take.
* `ParseJson`: the extraction of an object's text from an LLM reply.
* `HeadWatcher`, `DailySummary`, `SummaryRuns`, `Watchers`: commit detection, the daily
  summary and its scheduler, its overlapping runs, flaky-run detection, the integrity
  watcher's history.

Ghost or history fields (`touches`, `released`, `where`, `ledgers`, `answers`, `indexed`,
`seen`, a memory row's `owner`) record what happened and are read by no step.

Time is in whole seconds in the claims, in microseconds in the scheduler and in reals in
the retry loop. Primary keys come from sequences: an insert gets a key above every key
in its table. A transaction either takes effect whole or raises without effect.

## Where the code and its documentation differ

The model follows the code.

* `core/queues/dedup.py:87-88` says attaching does not extend a claim. It restarts the
  time to live: `Dedup.AttachKeepsLifetime` gives the one case in which it does not.
* `docs/RUNTIME_INVARIANTS.md:15` says a second call for a pair makes no row and returns
  the first workflow's id. Over runs, a call is skipped exactly while some win or attach
  of the pair since its last release is less than a ttl old (`ClaimTheorems.CallIsSkipped`), and its answer
  names a workflow exactly if the newest of those is that workflow's attach
  (`ClaimTheorems.SkipNamesNewestAttach`); otherwise it names none, or runs afresh.
* `docs/RECOVERY_MODEL.md:67` says a failed workflow does not block a new run. By the same
  theorem it does, until a ttl after the last win or attach of its pair, for no pipeline
  step releases a claim. `docs/FAILURE_MODEL.md:39` describes an older check.
* `docs/RECOVERY_MODEL.md:39` says workflows in flight at SIGTERM stay running. A
  graceful stop waits for the workers (`core/orchestrator/main.py:177-178`), so without a
  kill no row is left running but by a handler that raised outside its guarded steps:
  `Orphans.StopsLeaveNothing`; with kills, those whose handlers were killed as well:
  `Orphans.RunningOrphans`.
* The demo's declared task chain (`workflows/demo_forge.py:97`) is not the chain of tasks
  it creates: `ProgramProofs.DemoLeavesItsChain`.
* `peek_failed(0)` returns the whole dead-letter lane (`core/queues/redis_queue.py:108`),
  because the end of the range becomes -1: `QueueCode.Queue.PeekFailed`.
* `docs/RUNTIME_INVARIANTS.md:11` knows no transition out of a final status. With two
  processes on one database there is one: `UnsafeStarts.UnsafeStartIsReachable`. The
  documentation asks for one process (`docs/INTEGRATION.md:66`), and then there is none.
* `workflows/daily_summary.py:81` says later runs of a day do nothing. Runs that overlap
  can write a second row for a date, and so can a run that looks before midnight and
  writes after another one's row of the next day: `SummaryRuns.OneRowPerDateWhen`.
* The scheduler sleeps by a clock of its own; should the wall clock still be short of the
  target hour when it wakes, it fires again the same day: `DailySummary.FiresOnDifferentDates`.
* `docs/FAILURE_MODEL.md:31` says a task stays done when its workflow fails after the
  completion. Not when it is the log append after it that raises
  (`workflows/commit_pipeline.py:95-99`): then, and only then, the completed task can be
  failed (`TaskTheorems.CompletedIsUndoneWhen`), and is if the next step goes through
  (`TaskTheorems.RaiseUndoes`); `Witnesses.CompletedTaskFails` is such a run.

## Model

| member | source | states |
|---|---|---|
| `Dedup.ClaimSpacing` | core/queues/dedup.py:62-93 | in every sequence of claims, attaches, releases, expiries and waits by any clients, two wins of a pair since its last release are a full ttl apart, late attaches included |
| `Dedup.WindowBound` | core/queues/dedup.py:62-76 | a closed window of length W holds at most floor(W/ttl)+1 wins of a pair since its last release, and one at most when W is below the ttl |
| `Dedup.WindowBoundIsTight` | core/queues/dedup.py:62-76 | that bound is reached, for every ttl and every W |
| `Dedup.AttachKeepsLifetime` | core/queues/dedup.py:79-93 | an attach leaves the claim's end where it was if and only if no time passed since the claim, and makes an expired claim live again |
| `Dedup.KeyTextIsInjective` | core/queues/dedup.py:57-59 | the hashed text tells pairs apart whenever no sha holds a NUL, and need not otherwise |
| `Dedup.Guard.Acquire` | core/queues/dedup.py:62-76 | a claim is won exactly when none is live; a lost one reports what the key holds at the later GET, nothing if it has expired by then |
| `Dedup.Guard.AttachWorkflowId` | core/queues/dedup.py:79-93 | the value is written unconditionally with a new lifetime |
| `Dedup.Guard.Release` | core/queues/dedup.py:96-105 | the pair is free at once |
| `Dedup.GetIsNewestWrite` | core/queues/dedup.py:75-112 | what a GET returns, told by the writes since the last release alone: something exactly while some win or attach is less than a ttl old, and then what the newest one wrote |
| `Decimal.RoundTrip` | workflows/commit_pipeline.py:41-44 | a workflow id written as decimal text is all digits and reads back as itself |
| `ClaimTheorems.RowsPerWindow` | workflows/commit_pipeline.py:39-68 | with any number of processes, crashes, expiries and late attaches, the claims won in a window of length W since the pair's last release give it at most floor(W/ttl)+1 workflow rows, and at most one when W is below the ttl, however often the watcher reports its sha |
| `ClaimTheorems.MutualExclusion` | workflows/commit_pipeline.py:39-76 | while acquire to attach and attach to now are each below the ttl on the server's clock, no two handlers that won a pair since its last release are in flight together |
| `Witnesses.LateHandlersMeet` | workflows/commit_pipeline.py:39-68 | that hypothesis is needed: for every ttl a run of one process has two handlers of a pair in flight, the first a ttl past its claim |
| `ClaimTiming.PromptHandlersExclude` | workflows/commit_pipeline.py:39-113 | the same from durations: in any run, with any number of processes, two workers on one pair are the same if each took less than the ttl from acquire to attach, no more than a call of the retry loop at each of its two LLM steps, and at the rest less than two worst-case calls leave of the ttl |
| `ClaimTiming.TwoStays` | workflows/commit_pipeline.py:91-107 | a commit handler is at an LLM step twice at most, once at each, without a step of its own in between: so the two durations above are those of single calls |
| `ClaimTiming.DefaultsAllow` | configs/settings.py:26-46 | at the default settings less than 3228 seconds outside the LLM suffice |
| `ClaimTheorems.CallIsSkipped` | workflows/commit_pipeline.py:39-55 | in every run, a call for a pair is skipped if and only if some win or attach of the pair since its last release is less than a ttl old; otherwise it wins the claim, however its earlier workflows ended |
| `ClaimTheorems.EndedStillBlocks` | workflows/commit_pipeline.py:39-55 | so a workflow of any status blocks its pair for a ttl from its own claim at least |
| `ClaimTheorems.SkipNamesNewestAttach` | workflows/commit_pipeline.py:39-55 | in every run, the answer of a skipped call names workflow w if and only if, when the claim is read, the newest write of the pair since its last release is the attach of w and less than a ttl old, late attaches included; and says in flight if and only if it is such a win |
| `ClaimTheorems.AnswersAreSound` | workflows/commit_pipeline.py:39-55 | any integer id ever returned by a skipped run names an existing workflow row created for the same pair, even after expiry, a new claim and a stale attach |
| `RuntimeAnswers.SoundKept` | core/queues/dedup.py:62-93 | every step keeps it true that an all-digits claim value names a row of its own pair |
| `ClaimTheorems.VectorsAgree` | workflows/commit_pipeline.py:117-151 | in every run the index entry `commit:<sha>` holds the content of the memory row last upserted for it, a row for that sha, and every memory row with an embedding id is a commit's, names its own sha and has that entry |
| `RuntimeVectors.VectorsKept` | core/memory/vector.py:31-37 | the step form of that invariant, with the handlers between insert and stamp |
| `ClaimTheorems.JobsAreConserved` | core/orchestrator/main.py:54-88 | in every run every job is in exactly one place, and no two workflow rows come from one job |
| `ClaimTheorems.JobsOnlyMoveForward` | core/queues/redis_queue.py:74-97 | over any run no job leaves the dead-letter lane, the finished or the lost, and none goes back from a worker into a lane |
| `ClaimTheorems.LossHasACause` | core/orchestrator/main.py:54-88 | a job is lost only to a kill, a lost BLPOP reply or a failing dead-letter push |
| `RedisQueueProofs.ApplyKeepsInv` | core/queues/redis_queue.py:74-97 | every queue command keeps lanes, hands and places in agreement with attempt counting the notes (0 queued, 1 dead), and moves jobs only forward |
| `RedisQueueProofs.RunKeepsInv` | core/queues/redis_queue.py:74-97 | the same over whole runs |
| `JobTheorems.NormalWaits` | core/queues/redis_queue.py:78-89 | in every run, kills and lost replies included, the dequeue that takes a NORMAL job finds HIGH empty and comes after exactly k + h + a others: k ahead of it, h HIGH jobs then waiting, a HIGH arrivals since |
| `JobTheorems.HighWaits` | core/queues/redis_queue.py:78-89 | in every run a HIGH job at index k is taken after exactly k dequeues, whatever NORMAL holds |
| `RedisQueueProofs.NormalWait` | core/queues/redis_queue.py:78-89 | the same count for the queue on its own |
| `RedisQueueProofs.NormalProgress` | core/queues/redis_queue.py:78-89 | while it waits, dequeues served plus jobs still ahead stay equal to k + h + a |
| `RedisQueueProofs.HighWait` | core/queues/redis_queue.py:78-89 | a HIGH job at index k is taken after exactly k dequeues, whatever NORMAL holds |
| `QueueCode.Queue.Enqueue` | core/queues/redis_queue.py:74-76 | the job's text goes to the end of the named lane |
| `QueueCode.Queue.Dequeue` | core/queues/redis_queue.py:78-89 | the oldest HIGH job, else the oldest NORMAL one, leaves its lane; None exactly when both are empty; a lost reply takes the job along, a refused call takes nothing |
| `QueueCode.Queue.Fail` | core/queues/redis_queue.py:91-97 | one more attempt, the error as one more note, and the job at the end of the dead-letter lane, unless the push raises |
| `QueueCode.Queue.PeekFailed` | core/queues/redis_queue.py:106-109 | the first jobs of the dead-letter lane, all of them for a limit of 0 |
| `QueueCode.Orchestrator.RunJob` | core/orchestrator/main.py:69-88 | a job without handler or whose handler raises is dead-lettered with the reason, any other is done; a push that raises leaves the method |
| `QueueCode.Orchestrator.RunTurn` | core/orchestrator/main.py:54-88 | a served job is done exactly if its handler returned; otherwise its exception is noted on the dead-letter lane, or job and worker are lost with the push |
| `QueueCode.TurnsConserve` | core/orchestrator/main.py:54-88 | over any turns, the jobs done, those lost and those still in some lane are, with multiplicity, those there were |
| `QueueCode.LossesAreCounted` | core/orchestrator/main.py:54-88 | jobs are lost only to lost replies, one each, and to one push that raises, of which the worker dies |
| `QueueCode.Orchestrator.Worker` | core/orchestrator/main.py:54-67 | the loop does its turns in order until it is stopped or a push that raises ends it, and loses exactly the jobs so counted |
| `ProgramProofs.AdvanceFits` | workflows/commit_pipeline.py:80-195 | from every program point, whatever the step's outcome, the rows of the workflow have the shape of the next point |
| `ProgramProofs.LedgerIsLawful` | workflows/commit_pipeline.py:80-195 | at every point: tasks in plan order, all but the last done; log a prefix of the full one or such a prefix closed by one failed entry; status told by the log; completed only with all tasks, one memory and one approval |
| `ProgramProofs.ReapedIsLawful` | core/orchestrator/main.py:254-263 | reaping any running workflow at any point keeps that, the log closed by one interrupted entry |
| `ProgramProofs.DemoLeavesItsChain` | workflows/demo_forge.py:94-104 | the demo's tasks follow the declared task chain if and only if there are at most two of them |
| `FailurePaths.OkPath` | workflows/commit_pipeline.py:89-195 | with every step going through, a handler of either pipeline takes exactly the listed steps, one by one, and returns |
| `FailurePaths.ReturnedMeansNoFault` | workflows/commit_pipeline.py:89-195 | a handler that came to its end returned if and only if each of its steps went through, but for the two indexing steps and a bad exit of the MP4 render |
| `FailurePaths.FaultFailsTheWorkflow` | workflows/commit_pipeline.py:91-100 | any failure in the try block of stage k of a commit (LLM call, memory row, approval, completion, log append), and a bad exit of a demo's make or manifest: with the except block going through, the stage's task is failed, the workflow failed, its log closed by the failed entry, nothing else changed, and the exception raised again |
| `FailurePaths.RenderFaultGoesOn` | workflows/demo_forge.py:155-175 | a bad exit of the MP4 render fails its task only, and the run goes on with the manifest |
| `FailurePaths.UncaughtStops` | workflows/commit_pipeline.py:157-186 | a failure that no except block catches ends the handler where it is, its rows as they are, the workflow running |
| `Faults.CompletedMeansNoFault` | workflows/commit_pipeline.py:89-195 | in every safe run a row is completed if and only if its handler came to its end and met no failure but the tolerated ones |
| `Faults.FailedHasItsFault` | workflows/commit_pipeline.py:234-249 | in every safe run a failed row has a failure that its handler caught in some stage, and that stage's task, the row's last, is failed with it |
| `Faults.FaultEndsFailed` | workflows/commit_pipeline.py:91-100 | in any state of a safe run, a caught failure of a live handler and its next three steps going through leave the row failed, its log closed by the failed entry, and the stage's task failed |
| `TablesProofs.OwnStep` | workflows/commit_pipeline.py:204-249 | a handler's step on the shared tables is its step on its own rows; the log it writes back is the current log with one more entry |
| `TablesProofs.OtherStep` | workflows/commit_pipeline.py:204-249 | the same step changes no row of any other workflow |
| `TablesProofs.ReapTasks` | core/orchestrator/main.py:247-263 | the reaper's effect on each workflow's rows, seen row set by row set |
| `Handlers.DriveHolds` | workflows/commit_pipeline.py:80-195 | a handler run to its end, with others acting between any two steps and any step raising, ends with exactly a lawful set of rows for its workflow in the tables |
| `Handlers.RunLeavesLawfulRows` | workflows/commit_pipeline.py:57-195 | from a fresh row it ends returned and completed, or raised and failed, or raised and still running, and the rows say which |
| `PipelineCode.Postgres.RunCommitPipeline` | workflows/commit_pipeline.py:21-77 | a payload without repo or sha and a lost claim write no row; a lost claim is answered from what the key then holds; a won one runs a new workflow to the end of the automaton, returns its approval exactly when that end is the return, and leaves the claim with the workflow's id unless the attach raised before it took effect |
| `PipelineCode.Postgres.RunPipelineSteps` | workflows/commit_pipeline.py:80-195 | the four stages with their try and except blocks are the automaton's run, and return exactly when it does |
| `PipelineCode.Postgres.InsertWorkflowRow` | workflows/commit_pipeline.py:57-66 | one new row, running, its log the started entry, created now; nothing else changes |
| `PipelineCode.Postgres.LlmStage` | workflows/commit_pipeline.py:89-113 | a stage either reaches the next stage or ends the handler with an exception, through the automaton's points |
| `PipelineCode.Postgres.SaveStage` | workflows/commit_pipeline.py:115-155 | the same for the save stage, whose indexing errors are swallowed |
| `PipelineCode.Postgres.ApprovalStage` | workflows/commit_pipeline.py:157-178 | the same for the approval stage, with the id of the row it inserted |
| `PipelineCode.Postgres.FailOut` | workflows/commit_pipeline.py:97-100 | the except block fails the task, then the workflow, and always ends the handler without returning |
| `PipelineCode.Postgres.AppendLog` | workflows/commit_pipeline.py:204-209 | a log append is a read and a later write of what was read plus one entry, others running in between |
| `PipelineCode.Postgres.CreateTask` | workflows/commit_pipeline.py:212-223 | the automaton's insert of a running task, its fresh key handed back |
| `PipelineCode.Postgres.CompleteTask` | workflows/commit_pipeline.py:226-231 | the automaton's completion of the handler's own task, raising when the row is missing |
| `PipelineCode.Postgres.FailTask` | workflows/commit_pipeline.py:234-239 | the automaton's failing of the handler's own task, raising when the row is missing |
| `PipelineCode.Postgres.Attach` | workflows/commit_pipeline.py:68 | the claim gets the workflow's id even if its reply is lost, over whatever claim is there by then |
| `PipelineCode.Postgres.Send` | core/approvals/gateway.py:45-128 | the approval row is committed before delivery and updated after it, as two steps of the automaton |
| `PipelineCode.Postgres.Decide` | core/approvals/gateway.py:130-140 | an unknown decision is refused and an unknown row reported, with the tables untouched; any other row gets exactly that decision, again and again, and nothing else changes |
| `PipelineCode.Postgres.StampDelivered` | core/approvals/gateway.py:122-125 | the row gets the channels that took it, NULL when none did |
| `Decisions.DecisionIsTheLast` | core/approvals/gateway.py:130-140 | in every run an approval is undecided until an operator decides it, and then holds the decision of whoever decided it last |
| `Decisions.DecisionHolds` | core/approvals/gateway.py:130-140 | what is decided about a known approval is what its row holds through any run without another decision about it |
| `Decisions.DeliveryIsTheLast` | core/approvals/gateway.py:122-125 | in every run its channels are those of the gateway's update after the delivery, none before |
| `PipelineCode.Postgres.RunDemoForgeRequest` | workflows/demo_forge.py:68-120 | an unknown scenario or a missing Makefile writes nothing; otherwise the demo's automaton is run to its end and returned from exactly there |
| `PipelineCode.Postgres.RunSteps` | workflows/demo_forge.py:123-236 | the demo's stages, memory row and approval are the automaton's run |
| `PipelineCode.Postgres.MakeStage` | workflows/demo_forge.py:131-183 | a bad exit fails task and workflow, except that of the MP4 render, which fails its task only |
| `Interference.FinishedHandlerIsADrive` | workflows/commit_pipeline.py:80-195 | a handler that comes to its end in a safe run is, cut out of it, a fair run of its code: the tables after its last step are that run's, and its job is finished exactly if that run returns |
| `Interference.HandlerIsAWalk` | workflows/commit_pipeline.py:80-195 | and while it is at work its program point, its locals and its rows are the code's |
| `Interference.WorkIsTheCodesStep` | workflows/commit_pipeline.py:80-195 | a worker's step in the runtime changes tables and locals exactly as the code's next step does |
| `Interference.OthersAreFair` | core/orchestrator/main.py:125-132 | in a safe run no kill, start, operator or other worker touches the rows of a live handler's workflow, but for an operator's decision |
| `Openings.DemoOpening` | workflows/demo_forge.py:76-107 | a worker with a demo job refuses it, tables untouched, for an unknown scenario, a missing Makefile or an insert that raises; otherwise it goes on as the code does from the new row, for the scenario and skip_render of the payload |
| `Openings.CommitOpening` | workflows/commit_pipeline.py:32-40 | a worker with a commit job refuses it without its keys or when SET NX raises; otherwise SET NX is done for the pair of the payload, and its answer decides between the GET and the insert |
| `Openings.LostOpening` | workflows/commit_pipeline.py:40-55 | the skipped call answers for the pair of its payload, and writes nothing |
| `Openings.WonOpening` | workflows/commit_pipeline.py:57-68 | the won call goes on as the code does from the new row, for the pair of its payload |
| `Openings.JobRunsTheCode` | core/orchestrator/main.py:76-78 | in every safe run, a job whose handler inserts a row and comes to its end was, cut out of everything around it, a fair run of the code on its own payload |
| `Provenance.RowIsAsked` | core/orchestrator/main.py:69-78 | in every run each workflow row comes from one job that arrived, and its first log entry names the pair of that job's payload, or its scenario and skip_render |
| `Origins.InsertStep` | core/memory/models.py:43-47 | every row that comes into the table is a worker's insert: running, its log the started entry alone, created at that moment |
| `Origins.CreatedIsInsertion` | core/memory/models.py:45-47 | over every run the creation time of a row is the time of its insert, for good |
| `Origins.YoungRowStays` | core/orchestrator/main.py:240-253 | a start no later than max_age after the insert of a row leaves it and its tasks as they are, whatever happened in between |
| `Origins.InterruptedIsOld` | core/orchestrator/main.py:240-264 | in every run, safe or not, an interrupted row was inserted more than max_age before some process started |
| `RuntimeOwners.OwnersKept` | core/orchestrator/main.py:54-88 | every step keeps it true that each workflow row has one job, one owner at most, and a claim of its own pair |
| `RuntimeRows.RowsKept` | workflows/commit_pipeline.py:80-249 | every safe step keeps every workflow's rows equal to what its owner wrote, with the reaper's entry on top if it took the workflow |
| `UnsafeStarts.SafeStartsKeepEndings` | core/orchestrator/main.py:125-132 | in every state a safe run reaches, a start leaves completed, failed and interrupted rows as they are in every safe continuation, if and only if no live handler works on a row it reaps |
| `RowTheorems.OneProcessIsSafe` | core/orchestrator/main.py:125-132 | every run in which a process starts only when no worker is left is safe |
| `RowTheorems.OneProcessRows` | workflows/commit_pipeline.py:89-249 | so with one process at a time, killed and started any number of times, every workflow's rows are lawful and its log is its owner's entries with the reaper's at most |
| `RowTheorems.OneProcessTerminal` | core/orchestrator/main.py:231-264 | and its final status is final |
| `UnsafeStarts.UnsafeStartOverwrites` | core/orchestrator/main.py:231-264 | a start that reaps the row of a live handler, at any program point, interrupts it, and the handler going on without exceptions gives it another final status |
| `UnsafeStarts.UnsafeStartLosesEntry` | core/orchestrator/main.py:241-264 | if the handler had read its log before the start, the reaper's entry is overwritten too |
| `UnsafeStarts.UnsafeStartIsReachable` | core/orchestrator/main.py:125-132 | for every configuration the empty system reaches such a start by a safe run, and the overwriting after it |
| `RowTheorems.JointRows` | workflows/commit_pipeline.py:89-186 | at every moment of every safe run, crashes included, the tables hold for each workflow exactly one lawful set of rows |
| `RowTheorems.LogsLoseNothing` | workflows/commit_pipeline.py:204-209 | each log is its owner's entries in order, closed by the reaper's at most, although reads and writes interleave with everything |
| `RowTheorems.CompletedCommit` | workflows/commit_pipeline.py:89-186 | completed means exactly the tasks summarize, draft_social, save and request_approval, completed, in that order; exactly one memory row, named by the third; exactly one approval, of the workflow and its fourth task; and exactly the five log entries |
| `RowTheorems.CompletedDemo` | workflows/demo_forge.py:131-227 | a completed demo has exactly the tasks of its stages in order, `render_mp4` among them unless skip_render is set, all completed but possibly that one; one memory row; one approval, of its last task |
| `RowTheorems.CrossTable` | core/orchestrator/main.py:254-263 | for both pipelines a running task belongs to a running workflow, an interrupted one to an interrupted one, and a completed workflow has every task completed except possibly the MP4 render |
| `RowTheorems.ApprovalImpliesTasks` | core/approvals/gateway.py:45-59 | any approval row implies all tasks of its workflow's plan, pointing at the last, the others before it and done, a commit's first three completed; and the memory row |
| `RowTheorems.StatusStep` | workflows/commit_pipeline.py:180-186 | a step changes a status only from running, and a log only at its end |
| `RowTheorems.TerminalForever` | core/orchestrator/main.py:231-264 | a completed, failed or interrupted workflow row never changes again, through crashes and restarts |
| `RowTheorems.ReapIsExact` | core/orchestrator/main.py:247-264 | exactly the running rows older than the cutoff and their running tasks change, in exactly one way |
| `RowTheorems.ReapIsIdempotent` | core/orchestrator/main.py:247-264 | a second pass changes nothing, and after a pass every running workflow is younger than max_age |
| `RowTheorems.OrphanIsReaped` | core/orchestrator/main.py:125-132 | an ownerless running row stays as it is through any run until the first start past its age, which interrupts it |
| `Orphans.RunningOrphans` | core/orchestrator/main.py:231-239 | in every safe run a workflow row is running without a live handler if and only if no reaper took it and its handler raised outside its guarded steps or was killed |
| `Orphans.StopsLeaveNothing` | core/orchestrator/main.py:155-188 | without a kill, graceful stops included, only such a raise leaves a row running |
| `TaskTheorems.CompletedStep` | workflows/commit_pipeline.py:95-99 | a completed task is completed after any safe step but the Ok step of its handler's except block that fails it |
| `TaskTheorems.DoomStep` | workflows/commit_pipeline.py:95-99 | a handler comes to fail a completed task by a raise of the log append after the completion, by every such raise, and by nothing else |
| `TaskTheorems.CompletedIsUndoneWhen` | workflows/commit_pipeline.py:95-99 | over runs, a completed task ends completed or failed, failed if and only if that step was taken, which takes such a raise |
| `TaskTheorems.RaiseUndoes` | workflows/commit_pipeline.py:95-99 | and after such a raise, in any state of a safe run, the next step going through fails the task |
| `Witnesses.CompletedTaskFails` | workflows/commit_pipeline.py:89-100 | for every configuration the empty system reaches a completed task that is then failed |
| `Reaper.ReapOrphanWorkflows` | core/orchestrator/main.py:231-264 | the loop, in whatever order, does what one transaction over all orphans does, and returns how many there were |
| `LlmCall.Call` | agents/engineering/summarizer.py:72-104 | it replies if and only if some attempt within max_retries + 1 replies and every earlier one is a timeout or a transient error; such an error within the retries is followed by another attempt, any other ends the call at once; it sleeps only for transient errors, and takes exactly its attempts and sleeps, never more than the worst case |
| `LlmCall.SleepsForTransientOnly` | agents/engineering/summarizer.py:96-104 | timeouts alone cost no sleep, transient errors alone the whole backoff |
| `LlmCall.CallIsBounded` | agents/engineering/summarizer.py:82-104 | no part of any call lasts longer than the worst case |
| `LlmCall.BackoffClosedForm` | agents/engineering/summarizer.py:104 | the total sleep is 2^(n+1)-2 up to n = 4 and 30(n-3) from there |
| `LlmCall.WorstCaseFormula` | agents/engineering/summarizer.py:82-104 | the worst case is (n+1) timeouts and the total sleep |
| `LlmCall.DefaultsBound` | configs/settings.py:26-27 | 372 seconds for the two calls at the default settings |
| `Timing.HandlerEnds` | workflows/commit_pipeline.py:80-195 | every handler of either pipeline ends, within 70 steps |
| `ClaimTiming.LlmTimeBound` | workflows/commit_pipeline.py:91-107 | in any run and wherever it is, a commit handler has spent at most two worst cases in LLM calls, and its spell adds up to the time since its claim on the server's clock |
| `ParseJson.SearchIsLeftmostLazy` | agents/engineering/summarizer.py:109 | the fenced search finds the leftmost match of the pattern with its shortest body, and nothing only when nothing matches |
| `ParseJson.ExtractIsIdempotent` | agents/engineering/summarizer.py:107-115 | extracting from an extraction changes nothing |
| `ParseJson.ProseRecovery` | agents/engineering/summarizer.py:107-115 | an object text in brace-free prose is recovered exactly if nothing matches the fenced pattern, or the prose fences the object and nothing closes inside it |
| `ParseJson.FenceRecovery` | agents/engineering/summarizer.py:107-115 | a fenced object is recovered exactly if none of its earlier `}` is followed by whitespace and three backticks, unless the pattern opens before the fence |
| `ParseJson.PlainFenceRecovery` | agents/engineering/summarizer.py:107-115 | in particular for every reply without `{` before the fence |
| `ParseJson.FenceOnItsLines` | agents/engineering/summarizer.py:107-115 | and for an object on its own lines between two fences, with or without `json` |
| `ParseJson.EarlierOpeningWins` | agents/engineering/summarizer.py:107-115 | if it does, the text from the first opening's brace to the first closing one is taken instead |
| `HeadWatcher.WatcherIsComplete` | core/events/watcher.py:45-71 | the scheduled events are an unbroken chain from the first head through every distinct head observed, if and only if no head moved while the loop was closed; then events are missing |
| `HeadWatcher.GitHeadHandler.OnAnyEvent` | core/events/watcher.py:45-71 | a relevant event is one look at HEAD, any other changes nothing |
| `HeadWatcher.EventWatcher.ReconcileAfterStart` | core/events/watcher.py:154-179 | every handler looks exactly once more at its own HEAD, or none when there is no loop |
| `DailySummary.LatestIsEnough` | workflows/daily_summary.py:85-101 | under a clock that does not go back, looking at the summary row with the highest id answers for all of them |
| `DailySummary.OneRowPerDate` | workflows/daily_summary.py:79-120 | runs one after another give at most one row per UTC date if and only if no date comes back after another one |
| `SummaryRuns.LookIsHarmlessWhen` | workflows/daily_summary.py:85-120 | with one row per date so far and the runs under way of different dates without rows, a look keeps one row per date in every continuation of writes if and only if the newest summary is of its date, or the date has no row and no other run under way is of it |
| `SummaryRuns.OneRowPerDateWhen` | workflows/daily_summary.py:85-120 | from the empty table, over every interleaving of any number of runs, one row per date is assured at every moment if and only if every look was of that kind |
| `SummaryRuns.TwoRowsHaveACause` | workflows/daily_summary.py:85-120 | a second row of a date is written by a run overtaken between its look and its write, or by one that saw a newer summary of another date |
| `SummaryRuns.AloneIsOneStep` | workflows/daily_summary.py:85-120 | a run nobody interleaves with is the atomic one of `DailySummary.OneRowPerDate` |
| `SummaryRuns.OverlapGivesTwo` | api/server.py:189-197 | a scheduled and a manual run that both look before either writes leave two rows |
| `SummaryRuns.LateWriteGivesTwo` | workflows/daily_summary.py:85-120 | so can three runs under a forward clock none of which was overtaken |
| `DailySummary.NextFireIsNext` | workflows/daily_summary.py:418-424 | the firing is the first moment strictly after now at the target hour of a day of 24 hours, at most a day away |
| `DailySummary.FiresOnDifferentDates` | workflows/daily_summary.py:418-438 | after a firing, the next falls on the same date if and only if the wall clock is then less than a day short of it; once it has been reached, a day later at least |
| `DailySummary.MemoryTable.RunDailySummary` | workflows/daily_summary.py:79-120 | it skips exactly when the latest summary row is of today, and otherwise adds one row after whatever others inserted since it looked |
| `Watchers.DetectFlaky` | core/watchers/ci_watcher.py:212-229 | the list is strictly ascending and holds a name exactly if some commit has both a completed failure and a completed success under it |
| `Watchers.LessIsLexicographic` | core/watchers/ci_watcher.py:229 | the order of that list: a proper prefix, or smaller at the first difference |
| `Watchers.FlakyIgnoresOrder` | core/watchers/ci_watcher.py:212-229 | any permutation of the runs gives the same list |
| `Watchers.IntegrityWatcher.CheckOnce` | core/watchers/integrity_watcher.py:112-142 | the ring stays the last 100 of all checks ever made, and the last head that of the latest valid check with a head, however far back |
| `Watchers.LatestHeadIs` | core/watchers/integrity_watcher.py:122-125 | the last head is that of the newest check that found the chain valid and had one, and missing exactly if there is none |

## Left out

* SHA-256: taken to be collision-free; only the text it hashes is modelled.
* The JSON round trip of a job, its `created_at`, `workflow_id` and `parent_job_id`, and
  `json.loads` after the extraction (it may return something that is not an object).
* The LLM, git, `gh`, `make`, the vector store's search, webhooks and the approvals file:
  each is an atomic step with an arbitrary outcome; texts they produce are arbitrary.
* Redis losing data; a Postgres commit, or an upsert into the vector store, that takes
  effect and still raises.
* Row ownership across processes beyond `UnsafeStarts`: what else two processes on one database may do to each other's rows.
* Two threads inside the HEAD handler at once: each handler step is atomic.
* `str.strip` around the demo's scenario, digits outside ASCII in `isdigit`, and the
  manifest of the demo's output files.
* Risk normalization, trimming, colours, message wording, the 280-character cut, error
  classification, the summary's statistics, the CI history's bound: single expressions.
* FastAPI routes, the dashboard, authentication, bind safety, settings, logging,
  migrations, containers and scripts.
- PipelineCode.Postgres.RunCommitPipeline: a `repo` or `sha` that is present but null counts as missing; the program checks presence only, claims the text of the null and goes on.
- Runtime.Step: a worker of a stopped process may still take a job while idle, which the program's loop does at most once; an over-approximation.
- PipelineCode.Postgres.Send: the channels that accept an approval are one text given by the step's outcome, not the three attempts one by one.
- ClaimTheorems.MutualExclusion: says nothing about a handler whose claim was released while it ran, since that lets a second handler in at once.
- QueueCode.Orchestrator.Worker: the turns are a finite list, since the loop runs until the stop event or its death; waits and timeouts are not timed.
- ClaimTiming.PromptHandlersExclude: the time outside the LLM is a hypothesis, for the database and the webhooks have no bound of their own in the program.
