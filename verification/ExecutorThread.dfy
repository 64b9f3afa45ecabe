/** The executor object, with its thread's code written as the source has it (src/jobs/job_executor.py). A schedule says
    which control calls come in before each step of the thread and how its sends and saves go; the program counter is
    ghost, and the code is proved to take exactly the steps of the machine in Executor. */
module ExecutorThread {
  import opened Basics
  import opened JobModel
  import opened JobStore
  import opened Executor
  import opened JobSystem
  import opened ExecutorDeeds

  ghost predicate AllControls(moments: seq<Moment>) {
    forall k, i :: 0 <= k < |moments| && 0 <= i < |moments[k].controls| ==> !moments[k].controls[i].act.Own?
  }

  class JobExecutor {
    const job: Job
    const store: JobStore
    var pauseEvent: bool
    var cancelEvent: bool
    var failEvent: bool
    var failReason: Option<string>
    var preservePause: bool
    var schedule: seq<Moment>

    ghost var pc: Pc
    ghost const start: nat
    ghost var sent: seq<Cmd>
    ghost var oks: seq<nat>
    ghost var fired: nat
    ghost var texts: seq<string>      // what engine.send was given

    ghost var origin: Stage
    ghost var deeds: seq<Deed>
    ghost var used: seq<Moment>
    ghost var whole: seq<Moment>      // the schedule at the start

    ghost function View(): Exec
      reads this, job
    {
      Exec(job.View(), pc, Flags(pauseEvent, cancelEvent, failEvent, failReason, preservePause),
           Log(start, sent, oks, fired))
    }

    ghost function Now(): Stage
      reads this, job, store
    {
      Stage(View(), store.files)
    }

    /** Everything so far is what the machine does on the deeds so far, and what was sent are its commands' texts. */
    ghost predicate Tracks()
      reads this, job, store
    {
      Now() == DoAll(origin, deeds) && texts == CmdTexts(sent)
    }

    /** Between two steps: the deeds are those of the moments used, which follow the schedule. */
    ghost predicate Between()
      reads this, job, store
    {
      Tracks() && AllControls(schedule) && deeds == DeedsOf(used) && Following(used, schedule, whole)
    }

    /** Before a step, when the control calls of its moment have come in. */
    ghost predicate Ready(now: Moment)
      reads this, job, store
    {
      && Tracks() && AllControls(schedule)
      && deeds == DeedsOf(used) + now.controls && Following(used + [now], schedule, whole)
    }

    constructor (job: Job, store: JobStore)
      ensures View() == NewExec(job.View())
      ensures this.job == job && this.store == store
    {
      this.job, this.store := job, store;
      pauseEvent, cancelEvent, failEvent, failReason, preservePause := false, false, false, None, true;
      pc := Starting(BeginFail);
      start, sent, oks, fired := job.currentLineIndex, [], [], 0;
      schedule, texts := [], [];
    }

    /** Publishing and the state listener are left out; a failed save is swallowed. */
    method PersistAndPublish(fault: Fault)
      modifies store
      ensures store.files == SaveFiles(old(store.files), job.View(), fault)
    {
      var _ := store.Save(job, fault);
    }

    method Pause(fault: Fault)
      modifies `pauseEvent, job, store
      ensures Now() == Do(old(Now()), Deed(ReqPause, fault))
    {
      if job.status == PRINTING {
        pauseEvent := true;
        job.MarkPaused();
        PersistAndPublish(fault);
      }
    }

    method Resume(fault: Fault)
      modifies `pauseEvent, job, store
      ensures Now() == Do(old(Now()), Deed(ReqResume, fault))
    {
      if job.status == PAUSED {
        pauseEvent := false;
        job.MarkPrinting();
        PersistAndPublish(fault);
      }
    }

    method Cancel(preserve: bool, fault: Fault)
      modifies `preservePause, `cancelEvent, `pauseEvent, `failEvent, job, store
      ensures Now() == Do(old(Now()), Deed(ReqCancel(preserve), fault))
    {
      preservePause := preserve;
      cancelEvent := true;
      pauseEvent := false;
      failEvent := false;
      if !job.View().IsTerminal() {
        job.MarkCancelled();
        PersistAndPublish(fault);
      }
    }

    method Fail(reason: string)
      modifies `failReason, `failEvent, `pauseEvent
      ensures View() == FailReq(old(View()), reason)
      ensures failEvent && failReason == Some(reason) && !pauseEvent
    {
      failReason := Some(reason);
      failEvent := true;
      pauseEvent := false;
    }

    ghost predicate SameRun(from: Stage, all: seq<Moment>)
      reads this
    {
      origin == from && whole == all
    }

    // ---- One step ----

    method Control(d: Deed)
      requires Tracks() && !d.act.Own?
      modifies `pauseEvent, `cancelEvent, `failEvent, `failReason, `preservePause, `deeds, job, store
      ensures Tracks() && deeds == old(deeds) + [d] && job.currentLineIndex == old(job.currentLineIndex)
    {
      match d.act {
        case ReqPause => Pause(d.fault);
        case ReqResume => Resume(d.fault);
        case ReqCancel(preserve) => Cancel(preserve, d.fault);
        case ReqFail(reason) => Fail(reason);
      }
      DoOneMore(origin, deeds, d);
      deeds := deeds + [d];
    }

    method Controls(calls: seq<Deed>)
      requires Tracks() && forall i :: 0 <= i < |calls| ==> !calls[i].act.Own?
      modifies `pauseEvent, `cancelEvent, `failEvent, `failReason, `preservePause, `deeds, job, store
      ensures Tracks() && deeds == old(deeds) + calls && job.currentLineIndex == old(job.currentLineIndex)
    {
      for i := 0 to |calls|
        invariant Tracks() && deeds == old(deeds) + calls[..i] && job.currentLineIndex == old(job.currentLineIndex)
      {
        Control(calls[i]);
        assert old(deeds) + calls[..i] + [calls[i]] == old(deeds) + calls[..i + 1];
      }
      assert calls[..|calls|] == calls;
    }

    /** The control calls that come in before the next step; what is left of the moment is for that step. */
    method Interrupt() returns (now: Moment)
      requires Between()
      modifies `pauseEvent, `cancelEvent, `failEvent, `failReason, `preservePause, `deeds, `schedule, job, store
      ensures Ready(now) && job.currentLineIndex == old(job.currentLineIndex)
      ensures |schedule| < |old(schedule)| || (schedule == [] && old(schedule) == [] && now == Quiet())
    {
      now := Quiet();
      FollowingOn(used, schedule, whole);
      if schedule != [] {
        now := schedule[0];
        schedule := schedule[1..];
      }
      Controls(now.controls);
    }

    ghost method Did(now: Moment, next: Pc)
      requires AllControls(schedule) && deeds == DeedsOf(used) + now.controls
      requires Following(used + [now], schedule, whole)
      requires Do(DoAll(origin, deeds), Deed(Own(now.reply), now.fault)) == Stage(View().(pc := next), store.files)
      requires texts == CmdTexts(sent)
      modifies `pc, `deeds, `used
      ensures Between() && pc == next
    {
      DoOneMore(origin, deeds, Deed(Own(now.reply), now.fault));
      DeedsOneMore(used, now);
      pc, deeds, used := next, deeds + [Deed(Own(now.reply), now.fault)], used + [now];
    }

    /** A step that only moves on: a test, a return of a send whose result is dropped. */
    ghost method Tick(now: Moment, next: Pc)
      requires Ready(now) && Step(View(), now.reply) == View().(pc := next) && !Saves(pc)
      modifies `pc, `deeds, `used
      ensures Between() && pc == next
    {
      Did(now, next);
    }

    /** `_persist_and_publish` in the thread. */
    method Persist(now: Moment, ghost next: Pc)
      requires Ready(now) && Step(View(), now.reply) == View().(pc := next) && Saves(pc)
      modifies `pc, `deeds, `used, store
      ensures Between() && pc == next
    {
      PersistAndPublish(now.fault);
      Did(now, next);
    }

    /** `engine.send` is called with this text. */
    method SendText(text: string, now: Moment, ghost c: Cmd, ghost next: Pc)
      requires Ready(now) && text == CmdText(c)
      requires Step(View(), now.reply) == Executor.Send(View(), c, next) && !Saves(pc)
      modifies `pc, `sent, `texts, `deeds, `used
      ensures Between() && pc == next && texts == old(texts) + [text]
    {
      CmdTextsGrow(sent, c, text);
      sent, texts := sent + [c], texts + [text];
      Did(now, next);
    }

    /** The line has succeeded. */
    ghost method Succeeded(now: Moment)
      requires Ready(now) && pc == Printing(LineWait) && now.reply.Ok?
      modifies `pc, `oks, `deeds, `used
      ensures Between() && pc == Printing(Advance)
    {
      oks := oks + [job.currentLineIndex];
      Did(now, Printing(Advance));
    }

    /** A step in which the thread writes to the job. */
    ghost method Wrote(now: Moment, before: Stage, marked: JobRec, next: Pc)
      requires AllControls(schedule) && deeds == DeedsOf(used) + now.controls
      requires Following(used + [now], schedule, whole)
      requires before == DoAll(origin, deeds) && texts == CmdTexts(sent) && !Saves(before.exec.pc)
      requires Now() == before.(exec := before.exec.(job := marked))
      requires Step(before.exec, now.reply) == before.exec.(job := marked, pc := next)
      modifies `pc, `deeds, `used
      ensures Between() && pc == next
    {
      Did(now, next);
    }

    /** `_fire_finished`. */
    ghost method FireFinished(now: Moment, next: Pc)
      requires Ready(now) && Fires(pc)
      requires Step(View(), now.reply) == View().(log := View().log.(fired := fired + 1), pc := next)
      modifies `pc, `fired, `deeds, `used
      ensures Between() && pc == next
    {
      fired := fired + 1;
      Did(now, next);
    }

    ghost predicate LineKept(index: nat)
      reads job
    {
      job.currentLineIndex == index
    }

    // ---- Atomic operations, each after the control calls that come in before it ----

    /** A return of a send whose result is dropped, or the end of the list of stop commands. */
    method Pass()
      requires Between() && PassesTo(pc).Some?
      modifies this, job, store
      ensures Between() && SameRun(old(origin), old(whole)) && |schedule| <= |old(schedule)|
      ensures pc == PassesTo(old(pc)).value
    {
      var now := Interrupt();
      Tick(now, PassesTo(pc).value);
    }

    method EngineSend(text: string, ghost c: Cmd)
      requires Between() && SendsTo(pc, c).Some? && text == CmdText(c)
      modifies this, job, store
      ensures Between() && SameRun(old(origin), old(whole)) && |schedule| <= |old(schedule)|
      ensures pc == SendsTo(old(pc), c).value
    {
      var now := Interrupt();
      SendText(text, now, c, SendsTo(pc, c).value);
    }

    /** A send whose result is dropped. */
    method SendAndWait(text: string, ghost c: Cmd)
      requires Between() && SendsTo(pc, c).Some? && text == CmdText(c)
      modifies this, job, store
      ensures Between() && SameRun(old(origin), old(whole)) && |schedule| <= |old(schedule)|
      ensures Some(pc) == PassesTo(SendsTo(old(pc), c).value)
    {
      EngineSend(text, c);
      Pass();
    }

    method SaveJob()
      requires Between() && Saves(pc)
      modifies this, job, store
      ensures Between() && SameRun(old(origin), old(whole)) && |schedule| <= |old(schedule)|
      ensures pc == SavesTo(old(pc))
    {
      var now := Interrupt();
      SavingStep(View(), now.reply);
      Persist(now, SavesTo(pc));
    }

    method CallBack()
      requires Between() && Fires(pc)
      modifies this, job, store
      ensures Between() && SameRun(old(origin), old(whole)) && |schedule| <= |old(schedule)|
      ensures pc == if old(pc).Closing? then Ended else Completing(PersistDone)
    {
      var now := Interrupt();
      FireFinished(now, if pc.Closing? then Ended else Completing(PersistDone));
    }

    method MarkPrinting()
      requires Between() && (pc == Starting(MarkStart) || pc == Resuming(MarkResume))
      modifies this, job, store
      ensures Between() && SameRun(old(origin), old(whole)) && |schedule| <= |old(schedule)|
      ensures pc == if old(pc).Starting? then Starting(PersistStart) else Resuming(PersistResume)
    {
      var now := Interrupt();
      ghost var b := Now();
      job.MarkPrinting();
      ghost var next := if pc.Starting? then Starting(PersistStart) else Resuming(PersistResume);
      Wrote(now, b, b.exec.job.MarkPrinting(), next);
    }

    method MarkPaused()
      requires Between() && pc == Pausing(MarkPause)
      modifies this, job, store
      ensures Between() && SameRun(old(origin), old(whole)) && |schedule| <= |old(schedule)|
      ensures pc == Pausing(PersistPause)
    {
      var now := Interrupt();
      ghost var b := Now();
      job.MarkPaused();
      Wrote(now, b, b.exec.job.MarkPaused(), Pausing(PersistPause));
    }

    method MarkFailed(reason: string)
      requires Between() && pc == Closing(MarkFinal(ByLine(reason)))
      modifies this, job, store
      ensures Between() && SameRun(old(origin), old(whole)) && |schedule| <= |old(schedule)|
      ensures pc == Closing(PersistFinal)
    {
      var now := Interrupt();
      ghost var b := Now();
      job.MarkFailed(reason);
      Wrote(now, b, b.exec.job.MarkFailed(reason), Closing(PersistFinal));
    }

    /** With the reason as it is when it is read. */
    method MarkFailedForCall()
      requires Between() && pc == Closing(MarkFinal(ByFail))
      modifies this, job, store
      ensures Between() && SameRun(old(origin), old(whole)) && |schedule| <= |old(schedule)|
      ensures pc == Closing(PersistFinal)
    {
      var now := Interrupt();
      ghost var b := Now();
      job.MarkFailed(FailText(failReason));
      Wrote(now, b, b.exec.job.MarkFailed(FailText(failReason)), Closing(PersistFinal));
    }

    method MarkCancelled()
      requires Between() && pc == Closing(MarkFinal(ByCancel))
      modifies this, job, store
      ensures Between() && SameRun(old(origin), old(whole)) && |schedule| <= |old(schedule)|
      ensures pc == Closing(PersistFinal)
    {
      var now := Interrupt();
      ghost var b := Now();
      job.MarkCancelled();
      Wrote(now, b, b.exec.job.MarkCancelled(), Closing(PersistFinal));
    }

    method AdvanceIndex()
      requires Between() && pc == Printing(Advance)
      modifies this, job, store
      ensures Between() && SameRun(old(origin), old(whole)) && |schedule| <= |old(schedule)|
      ensures pc == Printing(PersistLine) && job.currentLineIndex == old(job.currentLineIndex) + 1
    {
      var now := Interrupt();
      ghost var b := Now();
      job.Advance();
      Wrote(now, b, b.exec.job.Advanced(), Printing(PersistLine));
    }

    method FailIsSet() returns (yes: bool)
      requires Between() && FailTest(pc).Some?
      modifies this, job, store
      ensures Between() && SameRun(old(origin), old(whole)) && |schedule| <= |old(schedule)|
      ensures pc == if yes then Pc.FailJob else FailTest(old(pc)).value
      ensures LineKept(old(job.currentLineIndex))
    {
      var now := Interrupt();
      yes := failEvent;
      Tick(now, if yes then Pc.FailJob else FailTest(pc).value);
    }

    method CancelIsSet() returns (yes: bool)
      requires Between() && CancelTest(pc).Some?
      modifies this, job, store
      ensures Between() && SameRun(old(origin), old(whole)) && |schedule| <= |old(schedule)|
      ensures pc == if yes then Stopping(StopDecide, ByCancel) else CancelTest(old(pc)).value
      ensures LineKept(old(job.currentLineIndex))
    {
      var now := Interrupt();
      yes := cancelEvent;
      Tick(now, if yes then Stopping(StopDecide, ByCancel) else CancelTest(pc).value);
    }

    method PauseIsSet() returns (yes: bool)
      requires Between() && pc == Testing(TestPause)
      modifies this, job, store
      ensures Between() && SameRun(old(origin), old(whole)) && |schedule| <= |old(schedule)|
      ensures pc == if yes then Pausing(PauseCall) else Testing(Fetch)
      ensures LineKept(old(job.currentLineIndex))
    {
      var now := Interrupt();
      yes := pauseEvent;
      Tick(now, if yes then Pausing(PauseCall) else Testing(Fetch));
    }

    method StillPaused() returns (yes: bool)
      requires Between() && pc == Pausing(Poll)
      modifies this, job, store
      ensures Between() && SameRun(old(origin), old(whole))
      ensures |schedule| < |old(schedule)| || (schedule == [] && old(schedule) == [])
      ensures pc == Pausing(if yes then Poll else PollExit)
    {
      var now := Interrupt();
      yes := pauseEvent && !cancelEvent && !failEvent;
      Tick(now, Pausing(if yes then Poll else PollExit));
    }

    method MayResume() returns (yes: bool)
      requires Between() && pc == Pausing(PollExit)
      modifies this, job, store
      ensures Between() && SameRun(old(origin), old(whole)) && |schedule| <= |old(schedule)|
      ensures pc == if yes then Resuming(ResumeCall) else AfterFail
    {
      var now := Interrupt();
      yes := !cancelEvent && !failEvent;
      Tick(now, if yes then Resuming(ResumeCall) else AfterFail);
    }

    // ---- The thread ----

    method SafeStop(ghost cause: Cause)
      requires Between() && pc == Stopping(StopDecide, cause)
      modifies this, job, store
      ensures Between() && SameRun(old(origin), old(whole)) && |schedule| <= |old(schedule)|
      ensures pc == Closing(MarkFinal(cause))
    {
      var hold := PreserveIsSet(cause);
      var cmds := StopTexts(hold);
      for n := 0 to |cmds|
        invariant Between() && SameRun(old(origin), old(whole)) && |schedule| <= |old(schedule)|
        invariant pc == Stopping(StopCall(hold, n), cause)
      {
        SendStop(cmds[n], hold, n, cause);
      }
      Pass();
    }

    method SendStop(text: string, ghost hold: bool, ghost n: nat, ghost cause: Cause)
      requires Between() && pc == Stopping(StopCall(hold, n), cause) && n < STOP_COUNT
      requires text == CmdText(Stop(hold, n))
      modifies this, job, store
      ensures Between() && SameRun(old(origin), old(whole)) && |schedule| <= |old(schedule)|
      ensures pc == Stopping(StopCall(hold, n + 1), cause)
    {
      SendAndWait(text, Stop(hold, n));
    }

    method PreserveIsSet(ghost cause: Cause) returns (hold: bool)
      requires Between() && pc == Stopping(StopDecide, cause)
      modifies this, job, store
      ensures Between() && SameRun(old(origin), old(whole)) && |schedule| <= |old(schedule)|
      ensures pc == Stopping(StopCall(hold, 0), cause)
    {
      var now := Interrupt();
      hold := preservePause;
      Tick(now, Stopping(StopCall(hold, 0), cause));
    }

    method FailJob()
      requires Between() && pc == Pc.FailJob
      modifies this, job, store
      ensures Between() && pc == Ended && SameRun(old(origin), old(whole)) && |schedule| <= |old(schedule)|
    {
      var over := IsTerminal();
      if over {
        return;
      }
      SafeStop(ByFail);
      MarkFailedForCall();
      SaveJob();
      CallBack();
    }

    method IsTerminal() returns (yes: bool)
      requires Between() && pc == Pc.FailJob
      modifies this, job, store
      ensures Between() && SameRun(old(origin), old(whole)) && |schedule| <= |old(schedule)|
      ensures pc == if yes then Ended else Stopping(StopDecide, ByFail)
    {
      var now := Interrupt();
      yes := job.View().IsTerminal();
      Tick(now, if yes then Ended else Stopping(StopDecide, ByFail));
    }

    /** The wait for an event; `waiting`: the schedule is used up and nobody has ended the pause. */
    method AwaitEvents() returns (waiting: bool)
      requires Between() && pc == Pausing(Poll)
      modifies this, job, store
      ensures Between() && SameRun(old(origin), old(whole))
      ensures if waiting then pc == Pausing(Poll) && schedule == []
              else pc == Pausing(PollExit) && |schedule| < |old(schedule)|
    {
      waiting := schedule == [];
      var paused := true;
      while paused && !waiting
        invariant Between() && SameRun(old(origin), old(whole)) && |schedule| <= |old(schedule)|
        invariant pc == Pausing(if paused then Poll else PollExit)
        invariant if paused then waiting <==> schedule == [] else !waiting && |schedule| < |old(schedule)|
        decreases |schedule|, paused
      {
        paused := StillPaused();
        waiting := paused && schedule == [];
      }
    }

    method PausePrinter()
      requires Between() && pc == Pausing(PauseCall)
      modifies this, job, store
      ensures Between() && SameRun(old(origin), old(whole)) && |schedule| <= |old(schedule)|
      ensures pc == Pausing(Poll)
    {
      SendAndWait("M25", Cmd.Pause);
      MarkPaused();
      SaveJob();
    }

    method ResumePrinter()
      requires Between() && pc == Resuming(ResumeCall)
      modifies this, job, store
      ensures Between() && SameRun(old(origin), old(whole)) && |schedule| <= |old(schedule)|
      ensures pc == AfterFail
    {
      SendAndWait("M24", Cmd.Resume);
      MarkPrinting();
      SaveJob();
    }

    method DoPause() returns (waiting: bool)
      requires Between() && pc == Pausing(PauseCall)
      modifies this, job, store
      ensures Between() && SameRun(old(origin), old(whole))
      ensures if waiting then pc == Pausing(Poll) && schedule == []
              else pc == AfterFail && |schedule| < |old(schedule)|
    {
      PausePrinter();
      waiting := AwaitEvents();
      if !waiting {
        var resume := MayResume();
        if resume {
          ResumePrinter();
        }
      }
    }

    /** Safe stop, mark, save and callback of a cancelled run. */
    method EndCancelled()
      requires Between() && pc == Stopping(StopDecide, ByCancel)
      modifies this, job, store
      ensures Between() && pc == Ended && SameRun(old(origin), old(whole)) && |schedule| <= |old(schedule)|
    {
      SafeStop(ByCancel);
      MarkCancelled();
      SaveJob();
      CallBack();
    }

    /** The cancel event or the job's status, at the start. */
    method CancelledAtStart() returns (yes: bool)
      requires Between() && pc == Starting(BeginCancel)
      modifies this, job, store
      ensures Between() && SameRun(old(origin), old(whole)) && |schedule| <= |old(schedule)|
      ensures pc == if yes then Closing(MarkFinal(ByCancel)) else Starting(MarkStart)
    {
      var now := Interrupt();
      yes := cancelEvent || job.status == CANCELLED;
      Tick(now, if yes then Closing(MarkFinal(ByCancel)) else Starting(MarkStart));
    }

    /** The loop test. */
    method MoreLines() returns (yes: bool)
      requires Between() && pc == Testing(Loop)
      modifies this, job, store
      ensures Between() && SameRun(old(origin), old(whole)) && |schedule| <= |old(schedule)|
      ensures pc == (if yes then Testing(TestFail) else Completing(Decide)) && LineKept(old(job.currentLineIndex))
      ensures yes <==> job.currentLineIndex < job.total
    {
      var now := Interrupt();
      yes := job.currentLineIndex < job.total;
      Tick(now, if yes then Testing(TestFail) else Completing(Decide));
    }

    /** The schedule has got shorter, or it is used up and the index is one further. */
    ghost predicate Onward(length: nat, index: nat)
      reads this, job
    {
      |schedule| < length || (schedule == [] && length == 0 && job.currentLineIndex == index + 1)
    }

    /** `next_line`, and the call of `engine.send` when there is one that is not empty. */
    method NextLine() returns (line: NextLine)
      requires Between() && pc == Testing(Fetch)
      modifies this, job, store
      ensures Between() && SameRun(old(origin), old(whole)) && |schedule| <= |old(schedule)|
      ensures line == job.View().Next() && LineKept(old(job.currentLineIndex))
      ensures pc == match line
                    case NextText(text) => if text == "" then Completing(Decide) else Printing(LineWait)
                    case NoLine => Completing(Decide)
                    case IndexError => Closing(MarkFinal(OutOfRange()))
    {
      var now := Interrupt();
      line := job.View().Next();
      if line.NextText? && line.text != "" {
        SendFetched(line.text, now);
      } else {
        NothingToSend(now, line);
      }
    }

    /** `engine.send` is called with the line. */
    method SendFetched(text: string, now: Moment)
      requires Ready(now) && pc == Testing(Fetch) && job.View().Next() == NextText(text) && text != ""
      modifies `pc, `sent, `texts, `deeds, `used
      ensures Between() && pc == Printing(LineWait) && texts == old(texts) + [text]
    {
      SendText(text, now, Line(job.currentLineIndex, text), Printing(LineWait));
    }

    ghost method NothingToSend(now: Moment, line: NextLine)
      requires Ready(now) && pc == Testing(Fetch) && line == job.View().Next()
      requires line.NextText? ==> line.text == ""
      modifies `pc, `deeds, `used
      ensures Between() && pc == if line.IndexError? then Closing(MarkFinal(OutOfRange())) else Completing(Decide)
    {
      Tick(now, if line.IndexError? then Closing(MarkFinal(OutOfRange())) else Completing(Decide));
    }

    /** What `engine.send` comes back with: nothing when it succeeded, else the reason the job fails for. */
    method AwaitReply(gcode: string) returns (failure: Option<string>)
      requires Between() && pc == Printing(LineWait) && job.View().Next() == NextText(gcode)
      modifies this, job, store
      ensures Between() && SameRun(old(origin), old(whole)) && LineKept(old(job.currentLineIndex))
      ensures |schedule| < |old(schedule)| || (schedule == [] && old(schedule) == [] && failure.None?)
      ensures pc == if failure.Some? then Closing(MarkFinal(ByLine(failure.value))) else Printing(Advance)
    {
      var now := Interrupt();
      if now.reply.Ok? {
        Succeeded(now);
        return None;
      }
      failure := Some(if now.reply.Refused? then RejectionReason(gcode, now.reply.statusName) else now.reply.message);
      Tick(now, Closing(MarkFinal(ByLine(failure.value))));
    }

    method EndFailed(reason: string)
      requires Between() && pc == Closing(MarkFinal(ByLine(reason)))
      modifies this, job, store
      ensures Between() && pc == Ended && SameRun(old(origin), old(whole)) && |schedule| <= |old(schedule)|
    {
      MarkFailed(reason);
      SaveJob();
      CallBack();
    }

    /** One line: fetched, sent, answered, counted and saved. */
    method SendLine() returns (o: Outcome)
      requires Between() && pc == Testing(Fetch)
      modifies this, job, store
      ensures Between() && SameRun(old(origin), old(whole)) && At(pc, schedule, o) && !o.Waiting?
      ensures o.Again? ==> Onward(|old(schedule)|, old(job.currentLineIndex))
    {
      var line := NextLine();
      match line {
        case NoLine => o := Leave;
        case IndexError =>
          EndFailed("list index out of range");
          o := Over;
        case NextText(gcode) =>
          o := Leave;
          if gcode != "" {
            o := AnswerLine(gcode);
          }
      }
    }

    method AnswerLine(gcode: string) returns (o: Outcome)
      requires Between() && pc == Printing(LineWait) && job.View().Next() == NextText(gcode)
      modifies this, job, store
      ensures Between() && SameRun(old(origin), old(whole)) && At(pc, schedule, o) && (o.Again? || o.Over?)
      ensures o.Again? ==> Onward(|old(schedule)|, old(job.currentLineIndex))
    {
      var failure := AwaitReply(gcode);
      if failure.Some? {
        EndFailed(failure.value);
        return Over;
      }
      AdvanceIndex();
      SaveJobKeepingLine();
      o := Again;
    }

    method SaveJobKeepingLine()
      requires Between() && pc == Printing(PersistLine)
      modifies this, job, store
      ensures Between() && SameRun(old(origin), old(whole)) && |schedule| <= |old(schedule)|
      ensures pc == Testing(Loop) && LineKept(old(job.currentLineIndex))
    {
      var now := Interrupt();
      Persist(now, Testing(Loop));
    }

    /** The fail and cancel tests, at the head of a round and after a pause. */
    method StopAsked() returns (over: bool)
      requires Between() && (pc == Testing(TestFail) || pc == AfterFail)
      modifies this, job, store
      ensures Between() && SameRun(old(origin), old(whole)) && |schedule| <= |old(schedule)|
      ensures pc == if over then Ended else if old(pc) == AfterFail then Testing(Loop) else Testing(TestPause)
      ensures !over ==> LineKept(old(job.currentLineIndex))
    {
      var failed := FailIsSet();
      if failed {
        FailJob();
        return true;
      }
      over := CancelIsSet();
      if over {
        EndCancelled();
      }
    }

    /** One round of the loop. */
    method Round() returns (o: Outcome)
      requires Between() && pc == Testing(TestFail)
      modifies this, job, store
      ensures Between() && SameRun(old(origin), old(whole)) && At(pc, schedule, o)
      ensures o.Again? ==> Onward(|old(schedule)|, old(job.currentLineIndex))
    {
      var over := StopAsked();
      if over {
        return Over;
      }
      var paused := PauseIsSet();
      if paused {
        o := PauseRound();
      } else {
        o := SendLine();
      }
    }

    method PauseRound() returns (o: Outcome)
      requires Between() && pc == Pausing(PauseCall)
      modifies this, job, store
      ensures Between() && SameRun(old(origin), old(whole)) && At(pc, schedule, o)
      ensures o.Again? ==> |schedule| < |old(schedule)|
    {
      var waiting := DoPause();
      if waiting {
        return Waiting;
      }
      var over := StopAsked();
      o := if over then Over else Again;
    }

    /** After the loop; the decision is one step. */
    method EndOfLines()
      requires Between() && pc == Completing(Decide)
      modifies this, job, store
      ensures Between() && pc == Ended && SameRun(old(origin), old(whole))
    {
      var end := Decision();
      if end == Pc.FailJob {
        FailJob();
      } else if end == Completing(FireDone) {
        CallBack();
        SaveJob();
      }
    }

    method Decision() returns (end: Pc)
      requires Between() && pc == Completing(Decide)
      modifies this, job, store
      ensures Between() && SameRun(old(origin), old(whole)) && pc == end
      ensures end in {Pc.FailJob, Completing(FireDone), Ended}
    {
      var now := Interrupt();
      if failEvent {
        end := Pc.FailJob;
        Tick(now, end);
      } else if !cancelEvent {
        end := Completing(FireDone);
        MarkCompleted(now);
      } else {
        end := Ended;
        Tick(now, end);
      }
    }

    method MarkCompleted(now: Moment)
      requires Ready(now) && pc == Completing(Decide) && !failEvent && !cancelEvent
      modifies `pc, `deeds, `used, job
      ensures Between() && pc == Completing(FireDone)
    {
      ghost var b := Now();
      job.MarkCompleted();
      Wrote(now, b, b.exec.job.MarkCompleted(), Completing(FireDone));
    }

    /** The lines before the loop; false when the run has ended there. */
    method Begin() returns (go: bool)
      requires Between() && pc == Starting(BeginFail)
      modifies this, job, store
      ensures Between() && SameRun(old(origin), old(whole))
      ensures pc == if go then Testing(Loop) else Ended
    {
      var failed := FailIsSet();
      if failed {
        FailJob();
        return false;
      }
      var cancelled := CancelledAtStart();
      if cancelled {
        MarkCancelled();
        SaveJob();
        CallBack();
        return false;
      }
      MarkPrinting();
      SaveJob();
      go := true;
    }

    /** A round, and the loop test if another may follow. */
    method RoundAndTest() returns (o: Outcome)
      requires Between() && pc == Testing(TestFail)
      modifies this, job, store
      ensures Between() && SameRun(old(origin), old(whole))
      ensures if o.Again? then pc == Testing(TestFail) && job.currentLineIndex < job.total else At(pc, schedule, o)
      ensures o.Again? ==> Onward(|old(schedule)|, old(job.currentLineIndex))
    {
      o := Round();
      if o.Again? {
        var more := MoreLines();
        if !more {
          o := Leave;
        }
      }
    }

    /** The loop, from its test on; false when it is left waiting in a pause. */
    method PrintLines() returns (ended: bool)
      requires Between() && pc == Testing(Loop)
      modifies this, job, store
      ensures Between() && SameRun(old(origin), old(whole)) && AtEnd(pc, schedule, ended)
    {
      var more := MoreLines();
      var o := if more then Again else Leave;
      while o.Again?
        invariant Between() && SameRun(old(origin), old(whole))
        invariant if o.Again? then pc == Testing(TestFail) && job.currentLineIndex < job.total else At(pc, schedule, o)
        decreases o.Again?, |schedule|, job.total - job.currentLineIndex
      {
        o := RoundAndTest();
      }
      ended := !o.Waiting?;
      if o.Leave? {
        EndOfLines();
      }
    }

    /** The thread. Whatever calls come in and however its sends and saves go, what it does is the run of the machine on
        the deeds of the schedule, job files included, and the texts it sends are those of the machine's commands. It
        reaches its end, or the schedule is used up and it waits in a pause. */
    method StreamLoop() returns (ended: bool)
      requires pc == Starting(BeginFail) && AllControls(schedule) && texts == CmdTexts(sent)
      modifies this, job, store
      ensures Now() == DoAll(old(Now()), deeds) && View() == Run(old(View()), ActsOf(deeds)) && texts == CmdTexts(sent)
      ensures deeds == DeedsOf(used) && Following(used, schedule, old(schedule))
      ensures AtEnd(pc, schedule, ended)
    {
      origin, deeds, used, whole := Now(), [], [], schedule;
      ended := true;
      var go := Begin();
      if go {
        ended := PrintLines();
      }
      DoAllIsRun(origin, deeds);
    }
  }

  predicate AtEnd(pc: Pc, schedule: seq<Moment>, ended: bool) {
    if ended then pc == Ended else pc == Pausing(Poll) && schedule == []
  }

  /** How a round of the loop ends. */
  datatype Outcome = Again | Leave | Over | Waiting

  predicate At(pc: Pc, schedule: seq<Moment>, o: Outcome) {
    match o
    case Again => pc == Testing(Loop)
    case Leave => pc == Completing(Decide)
    case Over => pc == Ended
    case Waiting => pc == Pausing(Poll) && schedule == []
  }

  /** A line index beyond the list of lines. */
  function OutOfRange(): Cause { ByLine("list index out of range") }

  /** Where a step leads that looks at nothing. */
  function PassesTo(pc: Pc): Option<Pc> {
    match pc
    case Pausing(PauseWait) => Some(Pausing(MarkPause))
    case Resuming(ResumeWait) => Some(Resuming(MarkResume))
    case Stopping(StopWait(hold, n), cause) => Some(Stopping(StopCall(hold, n), cause))
    case Stopping(StopCall(_, n), cause) => if n >= STOP_COUNT then Some(Closing(MarkFinal(cause))) else None
    case _ => None
  }

  function SendsTo(pc: Pc, c: Cmd): Option<Pc> {
    match pc
    case Pausing(PauseCall) => if c.Pause? then Some(Pausing(PauseWait)) else None
    case Resuming(ResumeCall) => if c.Resume? then Some(Resuming(ResumeWait)) else None
    case Stopping(StopCall(hold, n), cause) =>
      if n < STOP_COUNT && c == Stop(hold, n) then Some(Stopping(StopWait(hold, n + 1), cause)) else None
    case _ => None
  }

  function SavesTo(pc: Pc): Pc
    requires Saves(pc)
  {
    if pc.Starting? || pc.Printing? then Testing(Loop)
    else if pc.Pausing? then Pausing(Poll)
    else if pc.Resuming? then AfterFail
    else if pc.Closing? then Closing(ClosePt.Fire) else Ended
  }

  lemma SavingStep(e: Exec, reply: Reply)
    requires Saves(e.pc)
    ensures Step(e, reply) == e.(pc := SavesTo(e.pc))
  {
  }

  function FailTest(pc: Pc): Option<Pc> {
    match pc
    case Starting(BeginFail) => Some(Starting(BeginCancel))
    case Testing(TestFail) => Some(Testing(TestCancel))
    case AfterFail => Some(AfterCancel)
    case _ => None
  }

  function CancelTest(pc: Pc): Option<Pc> {
    match pc
    case Testing(TestCancel) => Some(Testing(TestPause))
    case AfterCancel => Some(Testing(Loop))
    case _ => None
  }

  ghost predicate Following(used: seq<Moment>, schedule: seq<Moment>, whole: seq<Moment>) {
    if schedule != [] then used + schedule == whole else |whole| <= |used| && Follows(used, whole)
  }

  lemma FollowingOn(used: seq<Moment>, schedule: seq<Moment>, whole: seq<Moment>)
    requires Following(used, schedule, whole)
    ensures schedule != [] ==> Following(used + [schedule[0]], schedule[1..], whole)
    ensures schedule == [] ==> Following(used + [Quiet()], [], whole)
  {
    if schedule != [] {
      assert used + [schedule[0]] + schedule[1..] == whole;
    }
  }

  lemma DeedsOneMore(used: seq<Moment>, now: Moment)
    ensures DeedsOf(used + [now]) == DeedsOf(used) + now.controls + [Deed(Own(now.reply), now.fault)]
  {
    assert Front(used + [now]) == used;
  }
}
