# Verified model of the printer controller

This project models the parts of the repository that decide what reaches a 3D printer, and proves what they keep.
`dafny verify dfyconfig.toml` checks all of it.

**Print jobs** (`src/jobs/`). A manager holds one active job and a FIFO queue; an executor thread per job streams
G-code lines; pause, resume, cancel and fail arrive from other threads; every change is saved so that a restart goes on
from the stored line. `Executor` is the thread as a program counter: each `engine.send` is a call and a return, each
event test, status mark, save and callback is a step of its own, and the control methods are further steps that may
come in between. `ManagerSteps` holds the manager's operations, `JobStore` the directory with saves that can stop
anywhere, and `JobSystem` puts them together with a crash event: events of a run are submissions, control calls, steps
of the active and of finished threads, failing saves and restarts. `JobInvariant`, `JobWorld` and `JobEvents` prove one
invariant over all of them. `ExecutorTheorems` and `JobTheorems` state the results about one run and about the whole
layer; `CleanRuns` is the run that nobody disturbs, `ExecutorPauses` is about pause and resume, `ExecutorFails` about
a fail and the reason of a failed job, and `ExecutorEnds` and `JobOutcomes` follow a cancel to the end of its run.
`ExecutorTexts` writes out the texts that reach `engine.send`, and `Recoveries` what a restart makes of each stored
job.
`ExecutorThread` is the executor as the source writes it, nested loops over a shared mutable job, under a schedule of
control calls, replies and saves between its atomic operations; `StreamLoop` is proved to end where the machine does
(`ExecutorDeeds`). `JobManagement` is the manager as an object.

**Serial link** (`src/hardware/`). `DropQueue` is the bounded drop-oldest queue at the grain of single queue calls,
`SerialLink` the protocol of printer, reader thread and communicator with timeouts, retries, write failures,
disconnects, reconnects and flushes. `AckSync` numbers the printer's oks and says which command an ok answers;
`AckBlocks` cuts the line stream into replies, and `AckKinds` says on the characters of a line whether it is an answer.
`SerialRouter` and `PrinterCommunicator` are the loops themselves.
`CommandPath` puts the command queue on this link, and `LinePath` the executor of a job on the queue: its sends submit
commands, its waits read their statuses, and the results follow each line to its writes and to the printer's answer.
`LateOks` and `LineRuns` are runs of the two, and `Attempts` bounds the retries.

**Command engine** (`src/engine/`). `CommandQueue` interleaves callers between the shutdown test and the put, the
worker thread through send, recovery, reconnect and drain, and a stopping thread. `CommandQueueInvariant` and
`CommandQueueTheorems` prove ownership, statuses and order over every interleaving, `CommandStops` the condition for
`stop` to keep its promise. `QueueProcessor`, `Command` and
`Validator` are the objects and functions; `CommandTurns` proves that the object's operations are uninterrupted runs of
the interleaved queue. `CommandEngine` is the caller's side: its methods make their own steps of that queue
(`CommandWorld` adds what the entries hold, `CommandNotes` says where it comes from) while any other callers, the worker and a stop make theirs in between.

**Files and vision** (`src/jobs/gcode_pipeline.py`, `src/vision/failure_guard.py`). `Gcode` is the text filter,
`GcodeRows` says on the text itself what it keeps, and `PipelineJobs` ties it to completed jobs; `FailureGuard` proves
the counter machine equal to a statement about the whole history of results, and `GuardHistory` spells that statement
out on positions of the history.

## Where the code differs from what it says

- A cancel while the last line is in flight, or a fail after a cancel, ends the thread without `_fire_finished`
  (`src/jobs/job_executor.py:162-167`, `192-194`). The manager then keeps the finished job active until a restart,
  though `src/jobs/job_manager.py:253-254` expects the callback whenever a job reaches a final state.
  `CancelHeardIff` and `CancelSurelyHeardIff` say at which moments a cancel has this effect, `CancelFreesSlotIff` what
  it means for the slot, and `LostSlotIsReachable` and `SlotLostByFail` are runs that lose it.
- A cancel does not always end in a safe stop: `CancelStopsIff` has the moments at which it surely does.
- A cancel that falls inside a pause or resume, or just before the first status write, is overwritten by PAUSED or
  PRINTING (`src/jobs/job_executor.py:119-120`, `174-190`), and that status is what a restart acts on.
  `CancelLastsIff` and, for the job file over all restarts, `SavedCancelLastsIff` have the exact moments;
  `CancelInPauseComesBack` is a run.
- `stop` says that no new command is accepted after it (`src/engine/queue_processor.py:100`). The worker can replace
  SHUTDOWN with IDLE (`:188`), and a caller already past the test can still put: `AcceptedAfterStop` and `PutAfterStop`
  are runs. `NothingAcceptedIff` is the exact condition.
- A resume is said to take back a pause (`src/jobs/job_manager.py:123-132`). It is lost on one that the thread has
  overwritten with PRINTING, though the pause stands: `ResumeIsLostIff`, and the run of `ResumeIsLost`.
- `send` says that it blocks until a final status (`src/engine/command_engine.py:90-95`). Its wait has a timeout, and
  drained commands never get their done event (`src/engine/queue_processor.py:285-313`). `FinalIff` and `WaitEnds` say
  exactly when the status it returns is final, and `WaitCanEndEarly` is a run in which it is not.
- The listed transitions of a command (`src/engine/command.py:46-50`) have TIMEOUT, which is never reached (`FinalIff`),
  and lack PENDING to FAILED, which the drain makes; `StatusAdvances` has the ones there are.
- A timeout leaves the answers to all later writes one write behind (`src/hardware/printer_communicator.py:105-134`),
  until an ok is lost (`AckShift`). The retry that follows still ends on an answer to its own command, but its own ok
  then ends the next command (`LateOkEndsNext`). `OkIsAcknowledged` has the exact condition for a command of the queue.
- `validate_command` is said to return upper case (`src/engine/validator.py:48`); it returns the stripped text in its
  own case. `AcceptedIsUpperIff` says when the two agree, `LowerCaseIsKept` gives an input for which they do not.
- The pipeline is said to upper-case the command token (`src/jobs/gcode_pipeline.py:15`); it does not:
  `WordsAreUpperIff` and `LowerCaseWordIsKept`.
- `recover` is said never to fetch again (`src/jobs/job_manager.py:179`); it does for jobs stored without G-code:
  `FetchesNothingIff` and `EmptyJobIsFetched`.

## Model

| member | source | states |
|---|---|---|
| `JobTheorems.ExclusiveUse` | src/jobs/job_manager.py:238-263 | in every run the commands sent since the last restart are one block per started job, in start order, and a thread that has been let go never sends again |
| `JobTheorems.NoInterleaving` | src/jobs/job_executor.py:109-172 | between two commands of one job no other job sends anything |
| `JobTheorems.Scheduling` | src/jobs/job_manager.py:102-108 | every accepted job is in exactly one of started, waiting, dropped; started plus waiting is the acceptance order without the dropped; nobody waits unless a job is active; a saved cancellation of a waiting job keeps it from ever starting, also after restarts |
| `JobTheorems.NoLineSkipped` | src/jobs/job_executor.py:143-159 | over any number of restarts and failing saves, each line sent is line 0, a repeat, or the next one; the stored index is at most one past the highest line sent and every line below it has succeeded |
| `JobTheorems.DiskFollowsThread` | src/jobs/job_executor.py:157-159 | the stored index never exceeds the index in memory, the stored lines are those of the thread unless none are stored yet, and without failed saves the index is at most one behind |
| `JobTheorems.DiskIsLevel` | src/jobs/job_executor.py:217-220 | without failed saves the stored record of every job started since the last restart is the job as its thread has left it, status, index and reason, except before the thread first saves and between a write of the thread and the save that follows; a thread that has ended and called back is stored with its final status |
| `JobTheorems.OneRepeatPerCrash` | src/jobs/job_manager.py:177-223 | without failed saves the line commands of a job exceed its distinct lines by at most the number of restarts |
| `JobTheorems.StoredCompletionIsSound` | src/jobs/job_executor.py:162-167 | a job stored as COMPLETED with no empty line has had every stored line sent with its text and acknowledged, over all restarts |
| `JobOutcomes.CancelFreesSlotIff` | src/jobs/job_executor.py:162-199 | after a cancel the active job gives up its slot within 23 of its own steps, however its sends and saves come back, if and only if the cancel did not come at one of the points of EndsUnheard: the last line in flight or just before or after it, the completion decision, failing a job already CANCELLED, an end already silent; the same condition decides whether the slot can be lost |
| `JobOutcomes.SlotLostByFail` | src/jobs/job_executor.py:192-199 | from every idle system a run of submit, cancel and then fail, before the thread looks at the fail event, loses the slot |
| `JobOutcomes.FailFreesSlot` | src/jobs/job_manager.py:165-175 | after a fail the active job, unless it was cancelled, gives up its slot within 23 of its own steps, wherever its thread was and however its sends and saves come back |
| `JobOutcomes.StopHoldsIffWaiting` | src/jobs/job_manager.py:144-150 | the whole stop after a cancel of the active job starts with M25 if and only if a job was waiting when the cancel came, unless the stop had begun or the job is cancelled again; it goes on with M104 S0, M140 S0, M84 |
| `JobOutcomes.SavedCancelLastsIff` | src/jobs/job_executor.py:72-98 | a saved cancel of the active job stays final on disk through every further run, restarts and failing saves included, if and only if it did not fall between the thread deciding to start, pause or resume and writing the status for it |
| `JobTheorems.SlotLostIff` | src/jobs/job_executor.py:162-167 | event by event: the next one leaves the manager holding a job whose thread has ended exactly when the active thread takes a step that ends silently |
| `JobTheorems.SlotStaysLost` | src/jobs/job_manager.py:253-263 | once the slot is lost no event short of a restart gives it back, starts a thread or moves the queue on |
| `JobTheorems.SlotLostForGood` | src/jobs/job_manager.py:253-263 | the same over every further run without a restart |
| `JobTheorems.CancelInLastLineLosesSlot` | src/jobs/job_executor.py:162-167 | from every state with the last line in flight, cancelling and then a succeeding send lose the slot, with the queue still in place |
| `JobTheorems.LostSlotIsReachable` | src/jobs/job_executor.py:162-167 | from every idle system a run of submit, cancel and succeeding line reaches such a state |
| `JobTheorems.RestartTakesUpIff` | src/jobs/job_manager.py:177-217 | after a restart a job is active or waiting if and only if its stored status was resumable, its G-code is stored or can be fetched, and no job before it in order of creation ended the recovery by a failing save; without such a failure if and only if the first two hold |
| `Recoveries.RecoverAllIs` | src/jobs/job_manager.py:177-217 | recovery from any directory: the stored jobs that are PRINTING, PAUSED, QUEUED or LOADING, oldest first up to a save that raises, come back in that order, the first one active, each QUEUED where it was, with its stored lines or else those fetched; they are counted; a job that cannot be fetched is stored as FAILED with the reason, and no other record changes |
| `JobOutcomes.LoadedApart` | src/jobs/job_store.py:73-82 | the jobs of a directory listing meet the condition of that: safe ids, all different |
| `JobTheorems.CancelInPauseComesBack` | src/jobs/job_executor.py:174-186 | one such overwritten cancel played to the end: between the pause command and its status, and every restart from there takes the job up again, unless a failing save ends the recovery |
| `JobEvents.NextKeepsInv` | src/jobs/job_manager.py:102-263 | every event of the job layer keeps the global invariant: one block per thread on the wire, jobs in one place in acceptance order, stored records behind their threads, let-go threads silent |
| `JobEvents.PlayKeepsInv` | src/jobs/job_manager.py:102-263 | so does every run |
| `JobEvents.CrashKeeps` | src/jobs/job_manager.py:177-223 | a crash at any point, then recovery from whatever the directory holds, with jobs requeued, fetched again, or failed and saved, re-establishes it |
| `JobEvents.RevivedIsStored` | src/jobs/job_manager.py:180-185 | recovery admits exactly the stored jobs with a resumable status, each once, oldest first, whatever corrupt files lie among them |
| `JobEvents.FinishKeeps` | src/jobs/job_manager.py:253-263 | the hand-over to the next job keeps it |
| `JobEvents.ActiveStepKeeps` | src/jobs/job_executor.py:109-172 | each own step of the running thread keeps it |
| `JobEvents.RetiredStepKeeps` | src/jobs/job_executor.py:165-167 | a finished thread may still take its last steps, and these keep it |
| `JobEvents.RetiredIsSilent` | src/jobs/job_executor.py:165-167 | a thread that has called on_finished sends nothing and calls it no more |
| `JobEvents.ControlKeeps` | src/jobs/job_manager.py:112-175 | pause, resume, cancel and fail of the active job keep it at every point of its thread |
| `JobEvents.CancelQueuedKeeps` | src/jobs/job_manager.py:152-160 | cancelling a waiting job keeps it, saved or not |
| `JobEvents.SubmitKeeps` | src/jobs/job_manager.py:102-108 | submitting keeps it |
| `JobEvents.SubmitFaultKeeps` | src/jobs/job_manager.py:102-103 | a submit whose save fails leaves the schedule and the job files as they were |
| `JobWorld.OwnStepKeeps` | src/jobs/job_executor.py:143-159 | a thread step keeps the tie between wire, acknowledgements, thread and stored record |
| `JobWorld.SaveKeepsWorld` | src/jobs/job_store.py:49-59 | a save that works or fails keeps it for every job |
| `ExecutorTheorems.TraceGrammar` | src/jobs/job_executor.py:122-215 | whatever controls arrive, the tagged commands of a run form (Line or Pause Resume)*, then perhaps Pause, then perhaps a safe stop; an ended run holds the stop whole or not at all |
| `ExecutorTheorems.NoLineInPause` | src/jobs/job_executor.py:174-190 | a Resume lies between every Pause and any later Line |
| `ExecutorTheorems.SoundCompletion` | src/jobs/job_executor.py:143-167 | a run that ends COMPLETED has sent and had acknowledged, once and in order, the lines from its start index to where it stopped, which is the end unless an empty line is there |
| `ExecutorTheorems.EmptyLineCompletesEarly` | src/jobs/job_executor.py:143-145 | an empty line does end a job as COMPLETED with lines unsent |
| `CleanRuns.CleanRunCompletes` | src/jobs/job_executor.py:109-167 | a job without an empty line that nobody touches and whose sends all succeed ends COMPLETED after eight steps for each line and eight more, with one callback and exactly the texts of its lines sent, in order |
| `ExecutorTheorems.StopStepProgress` | src/jobs/job_executor.py:123-141 | once a stop is requested every own step lowers a rank or ends the run |
| `ExecutorTheorems.BoundedStop` | src/jobs/job_executor.py:174-215 | after a stop request at most one command already decided on goes out, then at most the four of the safe stop, and after 23 own steps the run has ended, whatever other controls come in between |
| `ExecutorTheorems.CancelIsBounded` | src/jobs/job_executor.py:84-98 | the same from any point at which cancel is called |
| `ExecutorTheorems.FinishDiscipline` | src/jobs/job_executor.py:162-172 | on_finished is called at most once, and exactly once by a run that ends without ever being cancelled |
| `ExecutorTheorems.CallbackOrder` | src/jobs/job_executor.py:126-172 | a completed run calls back before its last save, a failed or cancelled one saves before it calls back |
| `ExecutorTheorems.StopBeatsCompletion` | src/jobs/job_executor.py:162-165 | a cancel or fail in effect before the completion decision keeps the run from ending COMPLETED |
| `ExecutorPauses.PauseTakesHold` | src/jobs/job_executor.py:72-76 | after an accepted pause, until a resume, cancel or fail, at most the one line already decided on goes out, and after 15 own steps the thread waits, shown as PAUSED, or has ended |
| `ExecutorPauses.ResumeTakesHold` | src/jobs/job_executor.py:78-82 | after an accepted resume, if nothing else is asked for, nine own steps later the thread is out of the pause, the job is not shown as PAUSED, and every pause sent to the printer has been followed by its resume or by a stop |
| `ExecutorPauses.ResumeIsLostIff` | src/jobs/job_executor.py:78-82 | while a pause is asked for, a resume does nothing if and only if the job is over, or the pause came while the thread was on its way to write PRINTING and has written it since, and not yet PAUSED again |
| `ExecutorPauses.ResumeIsLost` | src/jobs/job_executor.py:78-82 | such a run from every waiting thread: resume, pause, resume, and the thread waits again |
| `ExecutorEnds.CancelHeardIff` | src/jobs/job_executor.py:162-199 | every run of the thread after a cancel has called on_finished when it ends if and only if the cancel did not come at a point of EndsUnheard |
| `ExecutorEnds.CancelSurelyHeardIff` | src/jobs/job_executor.py:84-103 | the same whatever controls come after the cancel, a fail among them: if and only if the thread was already past its last look at the events |
| `ExecutorEnds.CancelStopsIff` | src/jobs/job_executor.py:123-141 | every run of the thread after a cancel ends with the whole safe stop sent if and only if the thread was on its way to the next look at the cancel event, in the stop, or past it; a line in flight is no such point, as its failure closes the run without a stop |
| `ExecutorEnds.StopSends` | src/jobs/job_executor.py:201-215 | a run that holds a whole safe stop ends on the texts M25 or M24, M104 S0, M140 S0, M84, and nothing follows |
| `ExecutorFails.FailIsBounded` | src/jobs/job_executor.py:100-103 | a fail at any point writes nothing itself, and whatever comes after it at most five commands go out and after 23 own steps the run has ended |
| `ExecutorFails.FailEndsIff` | src/jobs/job_executor.py:100-199 | every run of the thread of an uncancelled job after a fail ends FAILED for that reason, Job failed when it is empty, with one callback and the whole safe stop sent, if and only if the fail did not come with a line in flight or about to go out, past the completion decision, in the close of a run that ends for another reason, or after the end |
| `ExecutorFails.FailedHasReason` | src/jobs/job_executor.py:146-199 | in every run a FAILED job has as its reason that of a call of fail in the run, or what the line then in flight was answered: Rejected with the line as repr shows it and the name of the status, or the message of what was raised |
| `ExecutorTexts.TextGrammar` | src/jobs/job_executor.py:174-215 | the texts given to send in any run: the lines of the job in order from where it starts, once each, with pairs of M25 and M24 between them, then at most one M25 left open, then the beginning of the stop, M25 or M24, M104 S0, M140 S0, M84; an ended run has the stop whole or not at all |
| `ExecutorTexts.PauseTexts` | src/jobs/job_executor.py:174-190 | in any run a pause is the text M25, a line is the text the job has, and between a pause and a line sent after it there is the text M24 |
| `ExecutorTexts.StopStartsAsAsked` | src/jobs/job_executor.py:201-211 | a cancel that comes before the stop has begun decides how it starts: M25 if the pause is to be preserved, M24 if not, unless the job is cancelled again |
| `ExecutorTexts.FailedStopHolds` | src/jobs/job_executor.py:192-211 | a job that is never cancelled is stopped with M25 first |
| `ExecutorTheorems.SilentEndIff` | src/jobs/job_executor.py:162-199 | step by step: a run ends without on_finished exactly in two places, the completion decision under a cancel and failing a job already CANCELLED |
| `ExecutorTheorems.CancelInLastLineEndsSilently` | src/jobs/job_executor.py:162-167 | a cancel while the last line is in flight leads to the first of them |
| `ExecutorTheorems.CancelLastsIff` | src/jobs/job_executor.py:84-98 | a cancelled job keeps a final status through everything that can follow in its run if and only if the cancel did not fall between the thread deciding to start, pause or resume and writing the status for it |
| `ExecutorProofs.NewExecInv` | src/jobs/job_executor.py:58-70 | a fresh executor satisfies the run invariant |
| `ExecutorProofs.StepKeepsInv` | src/jobs/job_executor.py:109-215 | every own step keeps it: phase of the trace, order of the lines, acknowledgements, one callback |
| `ExecutorProofs.ApplyKeepsInv` | src/jobs/job_executor.py:72-103 | so does every control call |
| `ExecutorProofs.RunKeepsInv` | src/jobs/job_executor.py:72-215 | so does every interleaving |
| `ExecutorProofs.PhaseIsGrammar` | src/jobs/job_executor.py:174-215 | the automaton the invariant uses accepts only traces of the declared grammar |
| `ExecutorProofs.NoLineWhileHeld` | src/jobs/job_executor.py:174-190 | in that grammar no Line comes between a Pause and the next Resume |
| `ExecutorThread.JobExecutor.Pause` | src/jobs/job_executor.py:72-76 | acts only on a PRINTING job: event, status and save; the new state is the control step of the machine |
| `ExecutorThread.JobExecutor.Resume` | src/jobs/job_executor.py:78-82 | acts only on a PAUSED job, likewise |
| `ExecutorThread.JobExecutor.Cancel` | src/jobs/job_executor.py:84-98 | sets and clears the events, keeps a final status, saves otherwise |
| `ExecutorThread.JobExecutor.Fail` | src/jobs/job_executor.py:100-103 | records the reason, sets the fail event and clears the pause event, whatever else is set |
| `ExecutorThread.JobExecutor.PersistAndPublish` | src/jobs/job_executor.py:217-220 | the job file changes as the save goes; the job and the run do not |
| `ExecutorThread.JobExecutor.StreamLoop` | src/jobs/job_executor.py:109-172 | the thread as the source nests it, under any schedule of control calls, replies and saves between its atomic operations: it ends, or waits in a pause with the schedule used up; object, job and job file are then what the machine of Executor makes of the same deeds, and the texts given to send are those of its commands |
| `ExecutorThread.JobExecutor.PrintLines` | src/jobs/job_executor.py:122-172 | the loop: rounds until the lines end, the run is over, or it waits; ends as the machine does |
| `ExecutorThread.JobExecutor.AwaitEvents` | src/jobs/job_executor.py:181-186 | the wait in a pause, left when an event other than pause is set or the pause is taken back |
| `ExecutorThread.JobExecutor.DoPause` | src/jobs/job_executor.py:174-190 | pause command, status and save, the wait, and the resume command only if neither cancel nor fail came; the texts are those of TextGrammar and PauseTexts |
| `ExecutorThread.JobExecutor.SafeStop` | src/jobs/job_executor.py:201-215 | the loop over the four commands, the first chosen by the preserve field when the stop begins |
| `ExecutorDeeds.DoAllIsRun` | src/jobs/job_executor.py:72-220 | deeds with their saves make exactly the run of the machine on their acts, so the theorems about runs are theorems about the thread |
| `JobManagement.JobManager.StartJob` | src/jobs/job_manager.py:238-251 | the job becomes active with a fresh executor |
| `JobManagement.JobManager.Submit` | src/jobs/job_manager.py:102-110 | saved first, then started if the slot is free, else last in the queue; a failed save accepts nothing |
| `JobManagement.JobManager.Pause` | src/jobs/job_manager.py:112-121 | true exactly for the active job, and then its pause |
| `JobManagement.JobManager.Resume` | src/jobs/job_manager.py:123-132 | true exactly for the active job, and then its resume |
| `JobManagement.JobManager.Fail` | src/jobs/job_manager.py:165-175 | true exactly for the active job, whose fail event is then set, with the reason |
| `JobManagement.JobManager.Cancel` | src/jobs/job_manager.py:134-163 | the active job is asked to stop, with the pause preserved exactly when jobs wait; a waiting one leaves the queue and is stored as cancelled, and if that save fails the call raises; true exactly when the job is one of these and nothing was raised |
| `JobManagement.JobManager.CancelAt` | src/jobs/job_manager.py:155-157 | one job leaves the queue, the others keep their order, and only its record changes; false where the save raises |
| `JobManagement.JobManager.OnJobFinished` | src/jobs/job_manager.py:253-263 | the slot is freed and the head of the queue takes it |
| `JobManagement.JobManager.Recover` | src/jobs/job_manager.py:177-223 | the resumable stored jobs, oldest first: requeued with their G-code, fetched again without, or failed and saved when fetching fails; a save that raises ends the loop; the count is of those admitted |
| `ManagerSteps.FetchesNothingIff` | src/jobs/job_manager.py:188-209 | recovery fetches nothing if and only if every resumable stored job has its G-code; then all of them are admitted in order of creation |
| `ManagerSteps.EmptyJobIsFetched` | src/jobs/job_manager.py:190-201 | a stored job for which it does |
| `ManagerSteps.SortIsSorted` | src/jobs/job_manager.py:185-185 | the recovery order is sorted by creation time and holds the same jobs |
| `ManagerSteps.SortIsStable` | src/jobs/job_manager.py:185-185 | jobs of the same creation time keep their order |
| `ManagerSteps.RecoverShape` | src/jobs/job_manager.py:188-217 | recovery into an empty manager makes the oldest job active and queues the rest, all QUEUED |
| `JobStore.FileNames` | src/jobs/job_store.py:99-102 | a job file is named by the characters of the id that are ASCII letters, digits, hyphens and underscores, in order, and .json; its temporary file by the same and .tmp |
| `JobStore.NamesSeparate` | src/jobs/job_store.py:99-102 | distinct safe ids have distinct file names, and no job file is a temporary file |
| `JobStore.UnsafeIdsCollide` | src/jobs/job_store.py:99-102 | ids with other characters can share a file |
| `JobStore.SaveIsCrashAtomic` | src/jobs/job_store.py:49-59 | stopped at any micro-step, a save leaves all job files as before or as after |
| `JobStore.StoredAfterSave` | src/jobs/job_store.py:49-59 | a save changes the stored record of its job and no other; a failing one changes none |
| `JobStore.LoadAllIsStored` | src/jobs/job_store.py:73-82 | load_all gives exactly the jobs a load would find, each once, whatever corrupt files lie among them |
| `JobStore.JobStore.Save` | src/jobs/job_store.py:49-59 | the directory becomes that of a whole save, or of one that failed writing or renaming, and says which |
| `JobStore.JobStore.Load` | src/jobs/job_store.py:61-71 | the stored record, or nothing for a missing or torn file |
| `JobStore.JobStore.LoadAll` | src/jobs/job_store.py:73-82 | whole records in listing order |
| `JobModel.TerminalXorResumable` | src/jobs/job_model.py:198-201 | COMPLETED, FAILED and CANCELLED are the final statuses, PRINTING, PAUSED, QUEUED and LOADING the resumable ones |
| `JobModel.Job.Create` | src/jobs/job_model.py:64-81 | a QUEUED job at line 0 with as many lines as given |
| `JobModel.Job.MarkPrinting` | src/jobs/job_model.py:87-92 | status only |
| `JobModel.Job.MarkPaused` | src/jobs/job_model.py:94-97 | status only |
| `JobModel.Job.MarkCompleted` | src/jobs/job_model.py:99-103 | status only |
| `JobModel.Job.MarkFailed` | src/jobs/job_model.py:105-109 | status and reason |
| `JobModel.Job.MarkCancelled` | src/jobs/job_model.py:111-114 | status only |
| `Gcode.LoadFromString` | src/jobs/gcode_pipeline.py:46-62 | the loop computes the specification function Parse, which ParseGivesCommands describes on the text |
| `Gcode.KeepExecutable` | src/jobs/gcode_pipeline.py:56-60 | the loop over the lines: what each row contributes, in order |
| `Text.StripIff` | src/jobs/gcode_pipeline.py:31-33 | the stripped text is the one part of the text that has no space at its ends and only space around it, by the codes of the characters |
| `GcodeRows.KeptIff` | src/jobs/gcode_pipeline.py:31-43 | a row gives a line if and only if the line is what stands before the first semicolon, without outer space, and starts with one of G, M, T and N in either case |
| `GcodeRows.SplitGivesRows` | src/jobs/gcode_pipeline.py:57-57 | the rows have no break in them and, each followed by a line break, make up the text; a carriage return is never parted from its newline |
| `GcodeRows.ParseGivesCommands` | src/jobs/gcode_pipeline.py:46-62 | there are such rows of the text so that the k-th line is the command of the k-th row that has one, in order, and no other row has one |
| `GcodeRows.CommentedMoveIsKept` | src/jobs/gcode_pipeline.py:31-33 | G1 X10 with a comment behind it gives G1 X10 |
| `Gcode.StripComment` | src/jobs/gcode_pipeline.py:31-33 | the longest beginning of the line without a semicolon |
| `Gcode.ParsedLinesAreGood` | src/jobs/gcode_pipeline.py:31-62 | every output line is non-empty, trimmed, free of comments and line breaks, and starts with G, M, T or N |
| `Gcode.ParseJoined` | src/jobs/gcode_pipeline.py:46-62 | parsing a text, a newline and another text is parsing each and joining the lists, for all texts |
| `Gcode.ReparseIsIdentity` | src/jobs/gcode_pipeline.py:46-62 | the output joined by newlines parses to itself |
| `Gcode.GoodLinesRoundTrip` | src/jobs/gcode_pipeline.py:46-62 | so does every list of good lines |
| `Gcode.WordsAreUpperIff` | src/jobs/gcode_pipeline.py:11-43 | every output line has its command word in upper case if and only if no raw line whose first word, read up to a space or the comment, starts with a command letter has a lower-case letter in it |
| `Gcode.LowerCaseWordIsKept` | src/jobs/gcode_pipeline.py:11-43 | g28 parses to g28 |
| `PipelineJobs.ParsedHasNoEmptyLine` | src/jobs/gcode_pipeline.py:36-43 | the pipeline produces no empty line |
| `PipelineJobs.PipelineJobCompletes` | src/jobs/job_executor.py:143-167 | a job made of any parsed text that ends COMPLETED has sent every line once, in order, each with a succeeded result |
| `SerialRouter.AckLineIsNotEmpty` | src/hardware/serial_router.py:72-116 | no empty line is routed to the ack queue |
| `AckKinds.AckLineIff` | src/hardware/serial_router.py:72-116 | a line is routed to the ack queue if and only if, without outer space, it is ok in either case alone or before a blank, an error, !! or echo:busy line, a temperature line, a position line with Y and Z, or starts with FIRMWARE_NAME: or Cap: |
| `AckKinds.HasOkIff` | src/hardware/printer_communicator.py:196-198 | a reply ends with the first line that has an o and a k after it, in either case |
| `AckKinds.OkIsRouted` | src/hardware/serial_router.py:85-89 | every line that says ok is routed and ends a reply |
| `SerialRouter.AckLinesAre` | src/hardware/serial_router.py:192-214 | of any list of lines the routed ones are the answers among them, in order |
| `SerialRouter.PutNowait` | src/hardware/serial_router.py:217-235 | without interference the queue becomes the last lines of old queue and new line |
| `SerialRouter.PutNowaitIsMachine` | src/hardware/serial_router.py:217-235 | and that is a run of the interleaved machine |
| `SerialRouter.SerialRouter.Route` | src/hardware/serial_router.py:205-212 | every line goes to the telemetry queue, exactly the answers in the sense of AckLineIff to the ack queue |
| `SerialRouter.SerialRouter.ReadLoop` | src/hardware/serial_router.py:192-214 | after any list of lines the queues hold the last of all lines and the last of the answers among them |
| `SerialRouter.SerialRouter.ResetQueues` | src/hardware/serial_router.py:174-182 | both queues end empty |
| `DropQueue.ApplyKeepsInv` | src/hardware/serial_router.py:217-235 | every micro-step of put, get and flush keeps the queue a suffix of what was put, and a completed put has the newest line at the end |
| `DropQueue.DropOldest` | src/hardware/serial_router.py:217-235 | over every interleaving with positive capacity: within capacity, nothing given up, what left is a prefix of the puts, each line once |
| `DropQueue.ZeroCapacityGivesUp` | src/hardware/serial_router.py:229-232 | with capacity zero the newest line is lost |
| `SerialLink.NextKeepsLinkInv` | src/hardware/printer_communicator.py:89-200 | every event of printer, reader and communicator keeps the account of ok-bearing lines |
| `SerialLink.OkConservation` | src/hardware/printer_communicator.py:161-200 | in every run: ok-bearing lines put on the ack queue are successful sends plus those queued plus those evicted or flushed |
| `AckSync.NextKeepsSync` | src/hardware/printer_communicator.py:105-134 | with a printer that answers each command with one ok, every event keeps the numbering of oks in step with the stream |
| `AckSync.AckShift` | src/hardware/printer_communicator.py:89-134 | the ok that ends a send answers the write made as many writes earlier as attempts have timed out, less the oks lost; it is the answer to the last write if and only if the two numbers agree |
| `AckSync.DeployedAckShift` | src/hardware/printer_communicator.py:89-134 | the same with the sizes and line tests the repository is deployed with |
| `CommandPath.OkIsAcknowledged` | src/engine/queue_processor.py:201-252 | over every interleaving of callers, worker, reader and printer: a command with status OK was written, its send was ended by a line with ok, and its entry holds the lines of that reply; that line answers a write of this very command, first attempt or retry, if and only if at least as many oks had been lost as attempts had timed out before its send began |
| `CommandPath.WritesFollowAcceptance` | src/engine/queue_processor.py:172-252 | of two commands the one accepted first is written first, with all its retries |
| `Attempts.WrittenAtMost` | src/hardware/printer_communicator.py:105-134 | in every run each command is written at most as often as there are attempts, with the deployed setting at most twice |
| `LateOks.LateOkEndsNext` | src/hardware/printer_communicator.py:105-134 | a run in which a first attempt times out, its late ok ends the retry, and the ok of the retry then ends the next command |
| `LinePath.LineIsAcknowledged` | src/jobs/job_executor.py:143-159 | in every run of a job on the queue, with other callers, controls and the printer in between: each line the job counts was submitted under an id of its own with the validated text of that line, written, and acknowledged in that sense |
| `LinePath.LinesReachPrinterInOrder` | src/jobs/job_executor.py:143-159 | of two lines of a job, every write of the one with the smaller number comes before every write of the other |
| `LinePath.WritesInLineOrder` | src/jobs/job_executor.py:143-215 | the same for any two sends of the thread: lines, pauses, resumes and stop commands |
| `LinePath.RefusedLineSays` | src/jobs/job_executor.py:152-156 | when the send of a line comes back refused the run is closed as failed for Rejected, the line as repr shows it, and the name of the status its command has then, or REJECTED when the validator did not let it through |
| `Text.PlainRepr` | src/jobs/job_executor.py:152-154 | a line of printable ASCII without quotes and backslashes is shown as it is between single quotes |
| `LineRuns.LineCanSucceed` | src/jobs/job_executor.py:143-159 | such runs exist: from the start, with an answering printer, a line is submitted, written, answered and counted |
| `LineRuns.DeployedLineSucceeds` | src/hardware/serial_router.py:85-89 | the same with the sizes and tests of the repository, any line that is a command and any answer that says ok |
| `LineRuns.MoveSucceeds` | src/hardware/serial_router.py:85-89 | such as G1 X10, answered by ok or by ok T:200 |
| `AckBlocks.NthReplyIsNthBlock` | src/hardware/printer_communicator.py:161-200 | without timeouts, evictions and flushes the k-th successful command returns the k-th ok-terminated block of the ack lines, whatever the printer sends |
| `AckBlocks.InSyncWithoutTimeouts` | src/hardware/printer_communicator.py:89-134 | before any timeout the k-th successful command is ended by the answer to the k-th command written |
| `AckBlocks.SlowAnswerShifts` | src/hardware/printer_communicator.py:105-134 | one answer later than the timeout makes the retry end on the first answer |
| `PrinterCommunicator.ReadUntilOk` | src/hardware/printer_communicator.py:161-200 | the reply is the non-empty lines up to the first with an ok; none means every poll passed without one |
| `PrinterCommunicator.FirstReply` | src/hardware/printer_communicator.py:105-130 | the first attempt that was written and answered, or the limit |
| `PrinterCommunicator.PrinterCommunicator.SendCommand` | src/hardware/printer_communicator.py:89-134 | the first answered attempt within the limit decides the reply; the command is written once per attempt that can write; not connected and unresponsive exactly otherwise |
| `PrinterCommunicator.PollAllGathers` | src/hardware/printer_communicator.py:174-198 | polling in the machine gathers what the loop gathers and ends in the same case |
| `CommandQueueTheorems.EntryOwnership` | src/engine/queue_processor.py:117-313 | over every interleaving an accepted command is in exactly one of queue, worker hand, stopping hand, record, and nothing else is; a submitted one that is not accepted is with its caller or REJECTED |
| `CommandQueueTheorems.StatusTellsPlace` | src/engine/queue_processor.py:195-313 | queued means PENDING, recorded means final, the history is the end of the record, the queue is within its size |
| `CommandQueueTheorems.FinalStatusStays` | src/engine/command.py:80-110 | a final status is never replaced in any continuation |
| `CommandQueueTheorems.StatusAdvances` | src/engine/command.py:46-110 | over every continuation a status only goes forward: PENDING to SENT to OK or FAILED, or PENDING to FAILED or REJECTED |
| `CommandQueueTheorems.FinalIff` | src/engine/command.py:103-110 | in every run a submitted command has a final status if and only if it is not with its caller, in the queue, at the worker before or in its send, or in the hand of a drain; and no status is ever TIMEOUT |
| `CommandQueueTheorems.WaitEnds` | src/engine/command_engine.py:245-257 | a wait of send ended by the done event finds a final status; one ended by the timeout does if and only if the command is not waiting, being sent or in the hand of a drain |
| `CommandQueueTheorems.WaitCanEndEarly` | src/engine/command_engine.py:90-95 | a run from the start in which the wait can time out while the command is being sent |
| `CommandNotes.EntriesTell` | src/engine/queue_processor.py:195-313 | in every run each entry has the text it was submitted with, and when its command is final it says what settled it: with OK the lines its send was acknowledged with, with FAILED the reason its send ended for or that the connection was lost, with REJECTED which of the three rejections it was; before that it says nothing |
| `CommandNotes.NotSettledAgain` | src/engine/queue_processor.py:195-313 | one event of a run at most settles a command |
| `CommandQueueTheorems.DoneEventMeans` | src/engine/queue_processor.py:255-264 | a done event is set exactly for what went to the wire and was recorded, save the one being signalled; it implies a final status; a drained command never gets one |
| `CommandQueueTheorems.WireOrder` | src/engine/queue_processor.py:172-264 | what has reached send_command, with the one about to, is the acceptance order without exactly the drained and the waiting |
| `CommandQueueTheorems.AcceptedOrderOnWire` | src/engine/queue_processor.py:172-264 | two commands that reach the wire do so in the order they were accepted |
| `CommandQueueTheorems.DrainClears` | src/engine/queue_processor.py:299-313 | an uninterrupted error drain fails and records everything that waited, in order, and empties the queue |
| `CommandQueueTheorems.StopLeavesOnlyLatecomers` | src/engine/queue_processor.py:96-115 | after stop whatever still waits was put after its drain ended |
| `CommandQueueTheorems.ShutdownSurvivesIff` | src/engine/queue_processor.py:96-115 | the state SHUTDOWN stays in every continuation without start if and only if the worker was between entries or in its final bookkeeping when stop set it |
| `CommandQueueTheorems.QuietStaysShutdown` | src/engine/queue_processor.py:131-134 | from then on only callers already past the test can be accepted |
| `CommandQueueTheorems.AcceptedAfterStop` | src/engine/queue_processor.py:180-189 | a run in which a command is accepted after stop returned and stays PENDING with no worker |
| `CommandStops.NothingAcceptedIff` | src/engine/queue_processor.py:96-134 | once stop has been called, no command is accepted in any continuation without start if and only if the state is SHUTDOWN, the worker is between entries or in its final bookkeeping, and no caller is between the test and the put |
| `CommandStops.PutAfterStop` | src/engine/queue_processor.py:131-136 | a run with a quiet worker in which a caller past the test is accepted after stop returned |
| `CommandQueueInvariant.NextKeepsInv` | src/engine/queue_processor.py:81-313 | every step of callers, worker and stopping thread keeps the invariant |
| `CommandQueueInvariant.PlayKeepsInv` | src/engine/queue_processor.py:81-313 | so does every interleaving |
| `CommandQueueInvariant.MarkIsLegal` | src/engine/command.py:80-101 | a status is only written to a command outside queue and record, and only along the life cycle |
| `CommandQueueInvariant.OwnershipKept` | src/engine/queue_processor.py:172-313 | no step loses or doubles a command |
| `CommandQueueInvariant.WireKept` | src/engine/queue_processor.py:195-313 | every step keeps the order on the wire |
| `Command.CommandEntry.MarkSent` | src/engine/command.py:80-83 | SENT and one more attempt |
| `Command.CommandEntry.MarkOk` | src/engine/command.py:85-88 | OK with the responses |
| `Command.CommandEntry.MarkFailed` | src/engine/command.py:93-96 | FAILED with the reason |
| `Command.CommandEntry.MarkRejected` | src/engine/command.py:98-101 | REJECTED with the reason |
| `QueueProcessor.QueueProcessor.Enqueue` | src/engine/queue_processor.py:117-144 | accepts exactly when not SHUTDOWN and not full; then last in the queue and untouched, else REJECTED with the reason and nowhere |
| `QueueProcessor.QueueProcessor.RecordHistory` | src/engine/queue_processor.py:279-283 | the history stays the last entries of everything recorded |
| `QueueProcessor.QueueProcessor.DrainOne` | src/engine/queue_processor.py:303-306 | the oldest entry leaves, ends and is recorded |
| `QueueProcessor.QueueProcessor.Drain` | src/engine/queue_processor.py:285-313 | the queue ends empty, its entries final with the reason and recorded in order, their done events untouched |
| `QueueProcessor.QueueProcessor.Stop` | src/engine/queue_processor.py:96-115 | SHUTDOWN, and everything that waited REJECTED and recorded in order |
| `QueueProcessor.QueueProcessor.SendEntry` | src/engine/queue_processor.py:201-252 | one entry on the wire and the status, the lines or the reason each outcome earns |
| `QueueProcessor.QueueProcessor.ExecuteEntry` | src/engine/queue_processor.py:195-264 | the whole life of one entry; after a failed reconnect the waiting ones are failed and recorded before it, otherwise they are untouched |
| `QueueProcessor.QueueProcessor.Round` | src/engine/queue_processor.py:180-191 | the oldest waiting command goes to the wire, and what leaves the queue is final |
| `QueueProcessor.QueueProcessor.RunLoop` | src/engine/queue_processor.py:172-193 | a prefix of the queue goes to the wire in order, the rest waits or has been drained |
| `CommandTurns.EnqueueIsMachine` | src/engine/queue_processor.py:117-144 | an uninterrupted enqueue of the interleaved queue changes queue, state and record as the object does |
| `CommandTurns.TurnIsMachine` | src/engine/queue_processor.py:195-264 | so does an uninterrupted turn of the worker, for every outcome, with recovery, reconnect and drain |
| `CommandTurns.StopIsMachine` | src/engine/queue_processor.py:96-115 | so does an uninterrupted stop, which leaves everything that waited REJECTED |
| `CommandEngine.CommandEngine.SendBatch` | src/engine/command_engine.py:117-177 | with any other callers, the worker and stop acting in between: the entries of this batch that the queue took are, in input order, exactly those of the acceptance order that are its own, with the validated texts; each result is a refusal in these words, or the entry as it stands when its wait returns, and then says what settled the command: the lines of its acknowledgement, or why it failed or was rejected |
| `CommandEngine.CommandEngine.OfferAll` | src/engine/command_engine.py:148-158 | each valid command is built and put in turn while others act |
| `CommandEngine.CommandEngine.Offer` | src/engine/command_engine.py:134-158 | an invalid command touches nothing; a refused entry is REJECTED and never accepted; an accepted one joins this caller's part of the acceptance order |
| `CommandEngine.CommandEngine.Answer` | src/engine/command_engine.py:160-175 | a refused command and an entry that was not taken are answered at once, else the entry is read when the wait returns |
| `CommandEngine.CommandEngine.AnswerAll` | src/engine/command_engine.py:160-177 | the results in input order |
| `CommandEngine.CommandEngine.Send` | src/engine/command_engine.py:90-115 | a single command: refused without touching the queue, rejected with the caller's own words, or the entry as it stands when the wait returns, which says what settled the command |
| `CommandEngine.CommandEngine.SendFireAndForget` | src/engine/command_engine.py:179-193 | true exactly when the command is valid and the queue took it |
| `CommandEngine.AnswerMeans` | src/engine/command_engine.py:160-175 | a result carries the text, the status the command has at that moment of the run, and the lines or the reason of the event that settled it; final exactly when the command is nowhere open, and final whenever the done event ended the wait |
| `CommandEngine.BatchAnswer` | src/engine/command_engine.py:160-175 | a final result of a batch is still the status of the command however long afterwards |
| `CommandEngine.BatchOnWire` | src/engine/command_engine.py:117-130 | two commands of a batch that reach the printer do so in the order of the batch, whoever else puts in between |
| `CommandEngine.TakenAllIsTexts` | src/engine/command_engine.py:131-132 | when all are accepted they are the texts validate_batch lists |
| `Validator.AcceptedIff` | src/engine/validator.py:28-82 | a text is accepted for an input if and only if it is the input without outer space, has 1 to 256 characters, starts with one of G, M, T and the semicolon in either case, goes on with digits, and then ends or has a space and no newline after it |
| `Validator.RefusedIff` | src/engine/validator.py:53-82 | which refusal an input gets: nothing left, more than 256 characters, another first letter, or another shape, in this order |
| `Validator.AcceptedMeans` | src/engine/validator.py:53-82 | accepted exactly when the stripped text is non-empty, at most 256 long and matches the pattern in upper case; the result is the stripped text in its own case |
| `Validator.WellFormedIsMatch` | src/engine/validator.py:28-31 | scanning all digits decides the pattern, with some choice of digits, exactly |
| `Validator.ValidationIsIdempotent` | src/engine/validator.py:53-82 | an accepted text is accepted again unchanged |
| `Validator.AcceptedIsUpperIff` | src/engine/validator.py:43-82 | an accepted text is the upper-cased stripped input if and only if the stripped input has no lower-case letter |
| `Validator.LowerCaseIsKept` | src/engine/validator.py:43-82 | g28 is accepted as g28 |
| `Validator.ValidateBatch` | src/engine/validator.py:85-108 | accepted texts and refusals, each in input order, together as many as the inputs |
| `Validator.BatchIs` | src/engine/validator.py:85-108 | the accepted texts are those of the inputs that are commands, in order, and the refusals those of the others, in order, each with what is wrong with its input |
| `FailureGuard.Guard.Evaluate` | src/vision/failure_guard.py:71-152 | PAUSE exactly when the history calls for it; the count and the cooldown flag it reports are those of the history |
| `FailureGuard.Guard.Clear` | src/vision/failure_guard.py:154-157 | a reset ends the streak and forgets the last intervention |
| `FailureGuard.StreakStart` | src/vision/failure_guard.py:78-96 | the streak begins right after the last OK, UNCERTAIN, reset or PAUSE |
| `FailureGuard.ExplainsAt` | src/vision/failure_guard.py:98-152 | at every position PAUSE was answered if and only if it was due there |
| `GuardHistory.PausedIff` | src/vision/failure_guard.py:71-152 | at every position, on the calls themselves: PAUSE if and only if the call is a FAILURE with at least the least confidence, with it at least the threshold of such calls have come since the streak began, and at least the cooldown has passed since the last PAUSE, or since zero when there was none after the last reset |
| `GuardHistory.StreakBegins` | src/vision/failure_guard.py:78-96 | there is always such a beginning |
| `FailureGuard.AnswersAreUnique` | src/vision/failure_guard.py:71-152 | the history leaves no choice of answers |
| `FailureGuard.LowConfidenceIsNoise` | src/vision/failure_guard.py:99-111 | without the low-confidence FAILUREs the same calls get PAUSE, with the same streak and clock |
| `FailureGuard.PausesNeedFailures` | src/vision/failure_guard.py:98-141 | n PAUSEs need n times the threshold of confident FAILUREs, and the running streak comes on top |
| `FailureGuard.PausesAreSpaced` | src/vision/failure_guard.py:126-141 | without a reset the n-th PAUSE is at least n cooldowns after zero and n - 1 after the first |

## Left out

- `JobManagement.JobManager.Recover`: what fetching a job's G-code gives is an input. In the runs of `JobSystem` the
  whole of it is one event; threads it has started take their first steps after it.
- `JobManagement.JobManager.Submit`: takes the parsed job; downloading and reading files is I/O.
- `ExecutorThread.JobExecutor.PersistAndPublish`: the save only; the state message and the listener are formatting and
  callbacks.
- `ExecutorThread.JobExecutor.StreamLoop`: control methods come in between the thread's atomic operations, whole; the
  source holds the manager's lock, which the thread does not take, so their single assignments could interleave more
  finely. The completion decision is also one operation. A schedule is finite, so a wait that nobody ends is left when
  the schedule is used up.
- `JobModel.Job.Create`: timestamps other than the creation key, progress, estimates and the display texts.
- `JobStore.LoadAllIsStored`: JSON encoding and unreadable directories; a file is a whole record or corrupt.
- `JobStore.NamesSeparate`: `isalnum` accepts more than ASCII letters and digits; job ids are assumed to be made of
  ASCII letters, digits, `-` and `_`.
- `AckSync.AckShift`: for runs without a reconnect, from a link at rest; a reconnect flushes the queue and the port, and
  which answers survive is up to the hardware. The same holds for `CommandPath` and `LinePath`.
- `LinePath.LineIsAcknowledged`: one job; jobs that follow it are other callers of the queue.
- `PrinterCommunicator.PrinterCommunicator.SendCommand`: time is an input, one entry per poll; temperature and position
  side data are not kept. The direct-read fallback without an ack queue is not modelled.
- `SerialRouter.SerialRouter.ReadLoop`: the stop event and the wait while disconnected.
- `CommandQueueTheorems.EntryOwnership`: start and stop are called by one thread at a time, and each entry is submitted
  once.
- `CommandEngine.CommandEngine.SendBatch`: what other threads do is an input, a list of events of which those that are
  possible and not this caller's own take place. Building an entry and putting it are done per command rather than in
  two passes, which no other thread can tell apart. The completion callback of `send` is not modelled.
- `QueueProcessor.QueueProcessor.ExecuteEntry`: the object's methods run uninterrupted; what can come in between is in
  `CommandQueue`, whose uninterrupted runs they are.
- `Command.CommandEntry.MarkSent`: timestamps and elapsed times, and `mark_timeout`, which has no caller.
- `Validator.AcceptedIff`: digits and case mapping are ASCII; the source also takes other Unicode digits. The same holds
  for case in `AckKinds.AckLineIff`.
- `ExecutorFails.FailedHasReason`: `repr` shows characters beyond ASCII as they are; those that cannot be printed it
  escapes, which the model does not.
- `FailureGuard.Guard.Evaluate`: confidence and time are real numbers instead of floating point; the reason text is
  reduced to whether the cooldown was the reason.
- Telemetry parsing and state, MQTT topics, messages and routing, vision frame capture and inference: message
  formatting, foreign libraries and timing.
- `SerialConnection`, port discovery: only write success or failure, connection state and a stream of lines.
- `JobStore.delete` and `exists`, queue length and other plain reads: they would only add easy members.
- Settings are parameters with their sign assumptions; 256, 500, 128 and 2 appear as in `config/settings.py`.
