/** The main results about one executor: for every job, every schedule of its own steps and of control
    calls, and every way the sends can return. */
module ExecutorTheorems {
  import opened Basics
  import opened JobModel
  import opened Executor
  import opened ExecutorProofs

  /** Every trace is (Line | Pause Resume)* Pause? Stop?, and a run that has ended holds a whole stop or none. */
  lemma TraceGrammar(j: JobRec, acts: seq<Act>) returns (body: seq<Cmd>, open: bool, hold: bool, stops: nat)
    requires Fresh(j)
    ensures InGrammar(Run(NewExec(j), acts).log.sent, body, open, hold, stops)
    ensures Run(NewExec(j), acts).pc.Ended? ==> stops == 0 || stops == STOP_COUNT
  {
    NewExecInv(j);
    RunKeepsInv(NewExec(j), acts);
    body, open, hold, stops := PhaseIsGrammar(Run(NewExec(j), acts).log.sent);
  }

  /** No print line goes out between a pause command and the resume command after it. */
  lemma NoLineInPause(j: JobRec, acts: seq<Act>, a: nat, b: nat) returns (k: nat)
    requires Fresh(j)
    requires a < b < |Run(NewExec(j), acts).log.sent|
    requires Run(NewExec(j), acts).log.sent[a].Pause? && Run(NewExec(j), acts).log.sent[b].Line?
    ensures a < k < b && Run(NewExec(j), acts).log.sent[k].Resume?
  {
    NewExecInv(j);
    RunKeepsInv(NewExec(j), acts);
    k := NoLineWhileHeld(Run(NewExec(j), acts).log.sent, a, b);
  }

  // ---- Sound completion ----

  /** A completed run has sent and had acknowledged, once each and in order, the lines from its start index up
      to where nothing was left; if no line is empty that is the whole rest of the job. */
  lemma SoundCompletion(j: JobRec, acts: seq<Act>)
    requires Fresh(j) && Run(NewExec(j), acts).job.status.COMPLETED?
    ensures var e := Run(NewExec(j), acts);
            && e.job.lines == j.lines
            && j.index <= e.job.index <= j.total
            && LineNos(e.log.sent) == e.log.oks == Range(j.index, e.job.index - j.index)
            && LineTexts(e.log.sent, j.lines)
            && (NoEmptyLine(j.lines) ==> e.job.index == j.total)
            && (e.job.index < j.total ==> j.lines[e.job.index] == "")
  {
    NewExecInv(j);
    RunKeepsInv(NewExec(j), acts);
    RunKeepsJob(NewExec(j), acts);
    var e := Run(NewExec(j), acts);
    assert e.pc != Printing(Advance) && |e.log.oks| == e.job.index - j.index;
    assert forall k :: 0 <= k < |e.log.oks| ==> e.log.oks[k] == Range(j.index, e.job.index - j.index)[k];
    assert forall k :: 0 <= k < |e.log.oks| ==> LineNos(e.log.sent)[k] == Range(j.index, e.job.index - j.index)[k];
  }

  lemma {:induction false} RunKeepsJob(e: Exec, acts: seq<Act>)
    requires ExecInv(e)
    ensures Run(e, acts).job.lines == e.job.lines && Run(e, acts).job.total == e.job.total
    ensures Run(e, acts).log.start == e.log.start
    decreases |acts|
  {
    if acts != [] {
      ApplyKeepsInv(e, acts[0]);
      ApplyKeepsJob(e, acts[0]);
      RunKeepsJob(Apply(e, acts[0]), acts[1..]);
    }
  }

  lemma ApplyKeepsJob(e: Exec, a: Act)
    requires ExecInv(e)
    ensures Apply(e, a).job.lines == e.job.lines && Apply(e, a).job.total == e.job.total
    ensures Apply(e, a).log.start == e.log.start
  {
    if a.Own? {
      StepKeepsInv(e, a.reply);
    } else {
      ControlEffect(e, a, PhaseOf(e.log.sent), |LineNos(e.log.sent)|);
    }
  }

  /** The hypothesis on empty lines is needed: an empty line ends the job early, reported as COMPLETED. */
  lemma EmptyLineCompletesEarly(e: Exec, reply: Reply)
    requires e.pc == Testing(Fetch) && e.job.WellFormed() && e.job.index < e.job.total
    requires e.job.lines[e.job.index] == "" && !e.flags.fail && !e.flags.cancel
    ensures Run(e, [Own(reply), Own(reply)]).job.status.COMPLETED?
    ensures Run(e, [Own(reply), Own(reply)]).log.sent == e.log.sent
  {
    var e1 := Step(e, reply);
    assert e1.pc == Completing(Decide);
    assert Run(e, [Own(reply), Own(reply)]) == Run(e1, [Own(reply)]) == Step(e1, reply);
  }

  // ---- Cancelling and failing ----

  predicate StopRequested(e: Exec) { e.flags.cancel || e.flags.fail }

  /** An upper bound on the thread's remaining steps once a stop has been requested. */
  function Rank(e: Exec): nat {
    match e.pc
    case Starting(at) =>
      (match at case BeginFail => 20 case BeginCancel => 19 case MarkStart => 18 case PersistStart => 17)
    case Testing(at) =>
      (match at
       case Loop => 16
       case TestFail => 15
       case TestCancel => if e.flags.cancel then 14 else 23
       case TestPause => 22
       case Fetch => 20)
    case Printing(at) => (match at case LineWait => 19 case Advance => 18 case PersistLine => 17)
    case Pausing(at) =>
      (match at
       case PauseCall => 21 case PauseWait => 20 case MarkPause => 19 case PersistPause => 18
       case Poll => 17 case PollExit => 16)
    case Resuming(at) =>
      (match at case ResumeCall => 19 case ResumeWait => 18 case MarkResume => 17 case PersistResume => 16)
    case AfterFail => 15
    case AfterCancel => if e.flags.cancel then 14 else 17
    case FailJob => 14
    case Stopping(at, _) =>
      (match at
       case StopDecide => 13
       case StopCall(_, n) => if n < STOP_COUNT then 4 + 2 * (STOP_COUNT - n) else 4
       case StopWait(_, n) => if n < STOP_COUNT then 5 + 2 * (STOP_COUNT - n) else 5)
    case Closing(at) => (match at case MarkFinal(_) => 3 case PersistFinal => 2 case Fire => 1)
    case Completing(at) => (match at case Decide => 15 case FireDone => 2 case PersistDone => 1)
    case Ended => 0
  }

  const MAX_RANK: nat := 23

  /** The line, pause or resume command already decided on when the stop was requested. */
  function OthersLeft(e: Exec): nat {
    if e.pc == Testing(Fetch) || e.pc == Testing(TestPause) || e.pc == Pausing(PauseCall) || e.pc
        == Resuming(ResumeCall)
       || (e.pc == Testing(TestCancel) && !e.flags.cancel)
    then 1 else 0
  }

  /** The safe-stop commands still to come. */
  function StopsLeft(e: Exec): nat {
    match e.pc
    case Stopping(StopCall(_, n), _) => if n < STOP_COUNT then STOP_COUNT - n else 0
    case Stopping(StopWait(_, n), _) => if n < STOP_COUNT then STOP_COUNT - n else 0
    case Closing(_) => 0
    case Ended => 0
    case Completing(at) => if at.Decide? then STOP_COUNT else 0
    case _ => STOP_COUNT
  }

  /** After a stop request an own step comes strictly closer to the end and spends from its budget of commands. */
  ghost predicate Progress(e: Exec, e': Exec) {
    var c := Emits(e);
    && StopRequested(e') && Rank(e') < Rank(e) <= MAX_RANK
    && (c.None? ==> OthersLeft(e') <= OthersLeft(e) && StopsLeft(e') <= StopsLeft(e))
    && (c.Some? && c.value.Stop? ==> OthersLeft(e') == 0 && StopsLeft(e') < StopsLeft(e))
    && (c.Some? && !c.value.Stop? ==> OthersLeft(e') < OthersLeft(e) && StopsLeft(e') <= StopsLeft(e))
  }

  lemma PrintingProgress(e: Exec, reply: Reply)
    requires StopRequested(e) && (e.pc.Starting? || e.pc.Testing? || e.pc.Printing?)
    ensures Progress(e, Step(e, reply))
  {
  }

  lemma PausingProgress(e: Exec, reply: Reply)
    requires StopRequested(e) && (e.pc.Pausing? || e.pc.Resuming? || e.pc.AfterFail? || e.pc.AfterCancel?)
    ensures Progress(e, Step(e, reply))
  {
  }

  lemma ClosingProgress(e: Exec, reply: Reply)
    requires StopRequested(e) && (e.pc.FailJob? || e.pc.Stopping? || e.pc.Closing? || e.pc.Completing?)
    ensures Progress(e, Step(e, reply))
  {
  }

  lemma StopStepProgress(e: Exec, reply: Reply)
    requires StopRequested(e) && !e.pc.Ended?
    ensures Progress(e, Step(e, reply))
  {
    match e.pc
    case Starting(_) => PrintingProgress(e, reply);
    case Testing(_) => PrintingProgress(e, reply);
    case Printing(_) => PrintingProgress(e, reply);
    case Pausing(_) => PausingProgress(e, reply);
    case Resuming(_) => PausingProgress(e, reply);
    case AfterFail => PausingProgress(e, reply);
    case AfterCancel => PausingProgress(e, reply);
    case _ => ClosingProgress(e, reply);
  }

  /** Control calls neither withdraw a stop request nor give steps or commands back. */
  lemma StopControlProgress(e: Exec, a: Act)
    requires StopRequested(e) && !a.Own?
    ensures StopRequested(Apply(e, a)) && Rank(Apply(e, a)) <= Rank(e)
    ensures OthersLeft(Apply(e, a)) <= OthersLeft(e) && StopsLeft(Apply(e, a)) <= StopsLeft(e)
    ensures Apply(e, a).log == e.log && Apply(e, a).pc == e.pc
  {
  }

  function OwnSteps(acts: seq<Act>): nat {
    if acts == [] then 0 else (if acts[0].Own? then 1 else 0) + OwnSteps(acts[1..])
  }

  /** `now` extends e's trace by commands decided before the stop request, then safe-stop commands, within budget. */
  ghost predicate Extends(e: Exec, now: seq<Cmd>, decided: seq<Cmd>, stops: seq<Cmd>) {
    && now == e.log.sent + decided + stops
    && |decided| <= OthersLeft(e) && |stops| <= StopsLeft(e)
    && (forall k :: 0 <= k < |decided| ==> !decided[k].Stop?)
    && (forall k :: 0 <= k < |stops| ==> stops[k].Stop?)
  }

  /** A first own step put in front of an extension. */
  lemma ExtendsBack(e: Exec, e1: Exec, now: seq<Cmd>, rest: seq<Cmd>, stops: seq<Cmd>)
      returns (decided: seq<Cmd>, allStops: seq<Cmd>)
    requires Progress(e, e1) && Extends(e1, now, rest, stops)
    requires e1.log.sent == if Emits(e).Some? then e.log.sent + [Emits(e).value] else e.log.sent
    ensures Extends(e, now, decided, allStops)
  {
    var c := Emits(e);
    if c.None? {
      return rest, stops;
    }
    assert rest == [];
    if c.value.Stop? {
      decided, allStops := [], [c.value] + stops;
    } else {
      decided, allStops := [c.value], stops;
    }
  }

  /** Once a stop is requested, the rest of the run sends at most one command already decided on, then at most
      the four safe-stop commands; and after 23 own steps, whatever else happens in between, it has ended. */
  lemma {:induction false} BoundedStop(e: Exec, acts: seq<Act>) returns (decided: seq<Cmd>, stops: seq<Cmd>)
    requires ExecInv(e) && StopRequested(e)
    ensures Extends(e, Run(e, acts).log.sent, decided, stops)
    ensures StopRequested(Run(e, acts))
    ensures Run(e, acts).pc.Ended? || Rank(Run(e, acts)) + OwnSteps(acts) <= Rank(e) <= MAX_RANK
    ensures OwnSteps(acts) >= Rank(e) ==> Run(e, acts).pc.Ended?
    decreases |acts|
  {
    RankBound(e);
    if acts == [] {
      return [], [];
    }
    if e.pc.Ended? {
      EndedStays(e, acts);
      StopFlagStays(e, acts);
      return [], [];
    }
    var e1 := Apply(e, acts[0]);
    ApplyKeepsInv(e, acts[0]);
    if acts[0].Own? {
      StepKeepsInv(e, acts[0].reply);
      StopStepProgress(e, acts[0].reply);
      decided, stops := BoundedStop(e1, acts[1..]);
      decided, stops := ExtendsBack(e, e1, Run(e, acts).log.sent, decided, stops);
    } else {
      StopControlProgress(e, acts[0]);
      decided, stops := BoundedStop(e1, acts[1..]);
    }
  }

  lemma {:induction false} StopFlagStays(e: Exec, acts: seq<Act>)
    requires StopRequested(e) && e.pc.Ended?
    ensures StopRequested(Run(e, acts))
    decreases |acts|
  {
    if acts != [] {
      if !acts[0].Own? {
        StopControlProgress(e, acts[0]);
      }
      StopFlagStays(Apply(e, acts[0]), acts[1..]);
    }
  }

  lemma {:induction false} EndedStays(e: Exec, acts: seq<Act>)
    requires e.pc.Ended?
    ensures Run(e, acts).pc.Ended? && Run(e, acts).log == e.log
    decreases |acts|
  {
    if acts != [] {
      EndedStays(Apply(e, acts[0]), acts[1..]);
    }
  }

  /** In particular a cancel, at any point, bounds the rest of the run by five commands and 23 own steps. */
  lemma CancelIsBounded(e: Exec, preserve: bool, acts: seq<Act>)
    requires ExecInv(e)
    ensures |Run(CancelReq(e, preserve), acts).log.sent| <= |e.log.sent| + 1 + STOP_COUNT
    ensures OwnSteps(acts) >= MAX_RANK ==> Run(CancelReq(e, preserve), acts).pc.Ended?
  {
    var c := CancelReq(e, preserve);
    ApplyKeepsInv(e, ReqCancel(preserve));
    var decided, stops := BoundedStop(c, acts);
    RankBound(c);
  }

  lemma RankBound(e: Exec)
    ensures Rank(e) <= MAX_RANK && OthersLeft(e) <= 1 && StopsLeft(e) <= STOP_COUNT
  {
  }

  // ---- Finishing ----

  ghost predicate NeverCancelled(acts: seq<Act>) {
    forall k :: 0 <= k < |acts| ==> !acts[k].ReqCancel?
  }

  /** on_finished is called at most once; a run that ends without a cancel calls it exactly once,
      on a job whose status is final by then. */
  lemma FinishDiscipline(j: JobRec, acts: seq<Act>)
    requires Fresh(j)
    ensures Run(NewExec(j), acts).log.fired <= 1
    ensures Run(NewExec(j), acts).log.fired == 1 ==> Run(NewExec(j), acts).job.IsTerminal()
    ensures Run(NewExec(j), acts).pc.Ended? && NeverCancelled(acts) ==> Run(NewExec(j), acts).log.fired == 1
  {
    NewExecInv(j);
    RunKeepsInv(NewExec(j), acts);
    CancelFlagHistory(NewExec(j), acts);
  }

  /** A completed run calls back before its last save, any other close saves before it calls back. */
  lemma CallbackOrder(j: JobRec, acts: seq<Act>)
    requires Fresh(j)
    ensures var e := Run(NewExec(j), acts);
      && (e.pc == Completing(PersistDone) ==> e.log.fired == 1 && e.job.status.COMPLETED?)
      && (e.pc == Closing(PersistFinal) ==> e.log.fired == 0 && e.job.status in {FAILED, CANCELLED})
  {
    NewExecInv(j);
    RunKeepsInv(NewExec(j), acts);
  }

  lemma {:induction false} CancelFlagHistory(e: Exec, acts: seq<Act>)
    ensures NeverCancelled(acts) && !e.flags.cancel ==> !Run(e, acts).flags.cancel
    decreases |acts|
  {
    if acts != [] {
      StepKeepsFlags(e, acts[0]);
      CancelFlagHistory(Apply(e, acts[0]), acts[1..]);
    }
  }

  lemma StepKeepsFlags(e: Exec, a: Act)
    ensures a.Own? ==> Apply(e, a).flags == e.flags
    ensures !a.ReqCancel? && !e.flags.cancel ==> !Apply(e, a).flags.cancel
  {
  }

  /** A cancel or fail in effect before the completion decision keeps the job out of COMPLETED for good. */
  lemma {:induction false} StopBeatsCompletion(e: Exec, acts: seq<Act>)
    requires ExecInv(e) && StopRequested(e) && !e.job.status.COMPLETED?
    ensures !Run(e, acts).job.status.COMPLETED?
    decreases |acts|
  {
    if acts != [] {
      ApplyKeepsInv(e, acts[0]);
      StopBlocksCompletion(e, acts[0]);
      StopBeatsCompletion(Apply(e, acts[0]), acts[1..]);
    }
  }

  lemma StopBlocksCompletion(e: Exec, a: Act)
    requires StopRequested(e) && !e.job.status.COMPLETED?
    ensures StopRequested(Apply(e, a)) && !Apply(e, a).job.status.COMPLETED?
  {
  }

  /** The only steps that end a run without calling on_finished: deciding on completion under a cancel,
      and failing a job that a cancel has already marked. */
  predicate EndsSilently(e: Exec) {
    || (e.pc == Completing(Decide) && e.flags.cancel && !e.flags.fail)
    || (e.pc.FailJob? && e.job.status.CANCELLED?)
  }

  lemma SilentEndIff(e: Exec, reply: Reply)
    requires ExecInv(e) && !e.pc.Ended?
    ensures Step(e, reply).pc.Ended? && Step(e, reply).log.fired == 0 <==> EndsSilently(e)
    ensures EndsSilently(e) ==> e.flags.cancel
  {
  }

  /** So "every run calls on_finished" is false: a cancel while the last line is in flight ends the run silently. */
  lemma CancelInLastLineEndsSilently(e: Exec, preserve: bool, r: Reply)
    requires ExecInv(e) && e.pc == Printing(LineWait) && e.job.index + 1 == e.job.total && !e.flags.fail
    ensures var acts := [ReqCancel(preserve), Own(Ok), Own(r), Own(r), Own(r), Own(r)];
            && Run(e, acts).pc.Ended? && Run(e, acts).log.fired == 0
            && Run(e, acts).job.index == e.job.total
  {
    var e1 := CancelReq(e, preserve);
    var e2 := Step(e1, Ok);
    var e3 := Step(e2, r);
    var e4 := Step(e3, r);
    var e5 := Step(e4, r);
    var e6 := Step(e5, r);
    assert e5.pc == Completing(Decide) && e6.pc == Ended;
    RunSix(e, ReqCancel(preserve), Own(Ok), Own(r), Own(r), Own(r), Own(r));
  }

  lemma RunSix(e: Exec, a: Act, b: Act, c: Act, d: Act, f: Act, g: Act)
    ensures Run(e, [a, b, c, d, f, g]) == Apply(Apply(Apply(Apply(Apply(Apply(e, a), b), c), d), f), g)
  {
    var acts := [a, b, c, d, f, g];
    RunFirst(e, a, acts[1..]);
    RunFirst(Apply(e, a), b, acts[2..]);
    RunFirst(Apply(Apply(e, a), b), c, acts[3..]);
    RunFirst(Apply(Apply(Apply(e, a), b), c), d, acts[4..]);
    RunFirst(Apply(Apply(Apply(Apply(e, a), b), c), d), f, acts[5..]);
    RunFirst(Apply(Apply(Apply(Apply(Apply(e, a), b), c), d), f), g, []);
  }

  lemma RunFirst(e: Exec, a: Act, rest: seq<Act>)
    ensures Run(e, [a] + rest) == Run(Apply(e, a), rest)
  {
    assert ([a] + rest)[1..] == rest;
  }

  // ---- Whether a cancel lasts ----

  /** The thread is past its last look at the cancel event and about to mark the job PRINTING or PAUSED. */
  predicate WillOverwrite(pc: Pc) {
    || pc == Starting(MarkStart)
    || pc == Pausing(PauseCall) || pc == Pausing(PauseWait) || pc == Pausing(MarkPause)
    || pc == Resuming(ResumeCall) || pc == Resuming(ResumeWait) || pc == Resuming(MarkResume)
  }

  predicate Settled(e: Exec) {
    e.flags.cancel && !e.flags.pause && e.job.IsTerminal() && !WillOverwrite(e.pc)
  }

  lemma SettledStays(e: Exec, a: Act)
    requires Settled(e)
    ensures Settled(Apply(e, a))
  {
  }

  lemma {:induction false} SettledRuns(e: Exec, acts: seq<Act>)
    requires Settled(e)
    ensures Run(e, acts).job.IsTerminal()
    decreases |acts|
  {
    if acts != [] {
      SettledStays(e, acts[0]);
      SettledRuns(Apply(e, acts[0]), acts[1..]);
    }
  }

  /** Steps of the thread that undo the mark. */
  lemma {:induction false} Overwrites(e: Exec) returns (acts: seq<Act>)
    requires WillOverwrite(e.pc)
    ensures !Run(e, acts).job.IsTerminal()
    decreases match e.pc case Pausing(PauseCall) => 2 case Resuming(ResumeCall) => 2
                         case Pausing(PauseWait) => 1 case Resuming(ResumeWait) => 1 case _ => 0
  {
    var e1 := Step(e, Ok);
    if WillOverwrite(e1.pc) {
      var rest := Overwrites(e1);
      acts := [Own(Ok)] + rest;
      assert acts[1..] == rest;
    } else {
      acts := [Own(Ok)];
      assert acts[1..] == [];
      assert Run(Apply(e, acts[0]), acts[1..]) == e1;
    }
  }

  /** A cancelled job keeps a final status through everything that can follow, in this run, exactly when the cancel
      did not arrive between the thread's decision to pause, resume or start and the status that goes with it. */
  lemma CancelLastsIff(e: Exec, preserve: bool)
    ensures (forall acts :: Run(CancelReq(e, preserve), acts).job.IsTerminal()) <==> !WillOverwrite(e.pc)
  {
    var e1 := CancelReq(e, preserve);
    if WillOverwrite(e.pc) {
      var acts := Overwrites(e1);
      assert !Run(e1, acts).job.IsTerminal();
    } else {
      forall acts
        ensures Run(e1, acts).job.IsTerminal()
      {
        SettledRuns(e1, acts);
      }
    }
  }
}
