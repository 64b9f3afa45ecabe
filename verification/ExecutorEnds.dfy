/** What a cancel can rely on: at which points of the thread a cancelled run is certain to call back and to send the
    whole safe stop (src/jobs/job_executor.py). */
module ExecutorEnds {
  import opened Basics
  import opened JobModel
  import opened Executor
  import opened ExecutorProofs
  import opened ExecutorTheorems

  ghost predicate OwnOnly(acts: seq<Act>) {
    forall k :: 0 <= k < |acts| ==> acts[k].Own?
  }

  /** Cancelled, with nothing else asked for. */
  predicate JustCancelled(e: Exec) { e.flags.cancel && !e.flags.fail && !e.flags.pause && e.job.total == |e.job.lines| }

  /** At most one line is left, or the next one is empty. */
  predicate LastOrEmpty(j: JobRec) {
    j.index + 1 >= j.total || (j.index < |j.lines| && j.lines[j.index] == "")
  }

  /** From here the cancelled thread passes its last look at the cancel event before the completion decision, or has
      already ended unheard. */
  predicate EndsUnheard(e: Exec) {
    match e.pc
    case Printing(at) => if at.PersistLine? then e.job.index >= e.job.total else e.job.index + 1 >= e.job.total
    case Testing(at) =>
      (match at
       case Loop => e.job.index >= e.job.total
       case TestPause => LastOrEmpty(e.job)
       case Fetch => LastOrEmpty(e.job)
       case _ => false)
    case Starting(at) => (at.MarkStart? || at.PersistStart?) && e.job.index >= e.job.total
    case Completing(at) => at.Decide?
    case FailJob => e.job.status.CANCELLED?
    case Ended => e.log.fired == 0
    case _ => false
  }

  lemma CancelledKept(e: Exec, reply: Reply)
    requires ExecInv(e) && JustCancelled(e)
    ensures JustCancelled(Step(e, reply)) && ExecInv(Step(e, reply))
  {
    StepKeepsInv(e, reply);
    StepKeepsFlags(e, Own(reply));
  }

  lemma UnheardStep(e: Exec)
    requires ExecInv(e) && JustCancelled(e) && EndsUnheard(e) && !e.pc.Ended?
    ensures EndsUnheard(Step(e, Ok)) && Rank(Step(e, Ok)) < Rank(e) && !Fires(e.pc)
  {
  }

  lemma HeardStep(e: Exec, reply: Reply)
    requires ExecInv(e) && JustCancelled(e) && !EndsUnheard(e)
    ensures !EndsUnheard(Step(e, reply))
  {
  }

  lemma {:induction false} HeardRun(e: Exec, acts: seq<Act>)
    requires ExecInv(e) && JustCancelled(e) && !EndsUnheard(e) && OwnOnly(acts)
    ensures !EndsUnheard(Run(e, acts)) && ExecInv(Run(e, acts))
    decreases |acts|
  {
    if acts != [] {
      assert acts[0].Own?;
      CancelledKept(e, acts[0].reply);
      HeardStep(e, acts[0].reply);
      HeardRun(Step(e, acts[0].reply), acts[1..]);
    }
  }

  lemma {:induction false} UnheardRun(e: Exec) returns (acts: seq<Act>)
    requires ExecInv(e) && JustCancelled(e) && EndsUnheard(e)
    ensures OwnOnly(acts) && Run(e, acts).pc.Ended? && Run(e, acts).log.fired == 0
    decreases Rank(e)
  {
    if e.pc.Ended? {
      return [];
    }
    UnheardStep(e);
    CancelledKept(e, Ok);
    var rest := UnheardRun(Step(e, Ok));
    acts := [Own(Ok)] + rest;
    RunFirst(e, Own(Ok), rest);
  }

  lemma CancelIsJust(e: Exec, preserve: bool)
    requires ExecInv(e)
    ensures ExecInv(CancelReq(e, preserve)) && JustCancelled(CancelReq(e, preserve))
  {
    ApplyKeepsInv(e, ReqCancel(preserve));
  }

  /** Every run of the thread after a cancel calls back when it ends, if and only if the cancel did not come at one of
      the points of EndsUnheard. */
  lemma CancelHeardIff(e: Exec, preserve: bool)
    requires ExecInv(e)
    ensures var c := CancelReq(e, preserve);
      (forall acts :: OwnOnly(acts) && Run(c, acts).pc.Ended? ==> Run(c, acts).log.fired == 1) <==> !EndsUnheard(c)
  {
    var c := CancelReq(e, preserve);
    CancelIsJust(e, preserve);
    if EndsUnheard(c) {
      var acts := UnheardRun(c);
      assert OwnOnly(acts) && Run(c, acts).pc.Ended?;
    } else {
      forall acts | OwnOnly(acts) && Run(c, acts).pc.Ended?
        ensures Run(c, acts).log.fired == 1
      {
        HeardRun(c, acts);
      }
    }
  }

  // ---- Whatever else is called ----

  /** Past every look at the fail event and every completion decision, or ended with its call made. */
  predicate SurelyHeard(e: Exec) {
    match e.pc
    case Starting(at) => at.BeginCancel?
    case Testing(at) => at.TestCancel?
    case AfterCancel => true
    case Stopping(_, _) => true
    case Closing(_) => true
    case Completing(at) => !at.Decide?
    case Ended => e.log.fired == 1
    case _ => false
  }

  lemma SureStays(e: Exec, a: Act)
    requires ExecInv(e) && e.flags.cancel && SurelyHeard(e)
    ensures SurelyHeard(Apply(e, a)) && Apply(e, a).flags.cancel
  {
  }

  lemma {:induction false} SureRun(e: Exec, acts: seq<Act>)
    requires ExecInv(e) && e.flags.cancel && SurelyHeard(e)
    ensures SurelyHeard(Run(e, acts))
    decreases |acts|
  {
    if acts != [] {
      SureStays(e, acts[0]);
      ApplyKeepsInv(e, acts[0]);
      SureRun(Apply(e, acts[0]), acts[1..]);
    }
  }

  /** At a look at the fail event, a cancel and a fail together end the run unheard; at the completion decision or at
      the start of `_fail_job` a cancel does. */
  predicate AtTrap(pc: Pc) {
    pc == Starting(BeginFail) || pc == Testing(TestFail) || pc == AfterFail || pc == FailJob || pc == Completing(Decide)
  }

  lemma Trapped(e: Exec) returns (acts: seq<Act>)
    requires ExecInv(e) && e.flags.cancel && AtTrap(e.pc)
    ensures Run(e, acts).pc.Ended? && Run(e, acts).log.fired == 0
  {
    var e1 := CancelReq(e, true);
    if e.pc.FailJob? || e.pc.Completing? {
      acts := [ReqCancel(true), Own(Ok)];
      RunTwo(e, acts[0], acts[1]);
    } else {
      acts := [ReqCancel(true), ReqFail(""), Own(Ok), Own(Ok)];
      var e2 := FailReq(e1, "");
      RunTwo(e, acts[0], acts[1]);
      RunTwo(e2, acts[2], acts[3]);
      RunFour(e, acts[0], acts[1], acts[2], acts[3]);
    }
  }

  lemma RunTwo(e: Exec, a: Act, b: Act)
    ensures Run(e, [a, b]) == Apply(Apply(e, a), b)
  {
    RunFirst(e, a, [b]);
    RunFirst(Apply(e, a), b, []);
    assert [a] + [b] == [a, b] && [b] + [] == [b];
  }

  lemma RunFour(e: Exec, a: Act, b: Act, c: Act, d: Act)
    ensures Run(e, [a, b, c, d]) == Run(Run(e, [a, b]), [c, d])
  {
    RunTwo(e, a, b);
    RunFirst(e, a, [b, c, d]);
    RunFirst(Apply(e, a), b, [c, d]);
    assert [a] + [b, c, d] == [a, b, c, d] && [b] + [c, d] == [b, c, d];
  }

  lemma UnsureStep(e: Exec)
    requires ExecInv(e) && e.flags.cancel && !SurelyHeard(e) && !e.pc.Ended? && !AtTrap(e.pc)
    ensures !SurelyHeard(Step(e, Ok)) && Rank(Step(e, Ok)) < Rank(e)
    ensures Step(e, Ok).flags.cancel && ExecInv(Step(e, Ok))
  {
    StepKeepsInv(e, Ok);
    StopStepProgress(e, Ok);
  }

  lemma {:induction false} UnsureRun(e: Exec) returns (acts: seq<Act>)
    requires ExecInv(e) && e.flags.cancel && !SurelyHeard(e)
    ensures Run(e, acts).pc.Ended? && Run(e, acts).log.fired == 0
    decreases Rank(e)
  {
    if e.pc.Ended? {
      return [];
    }
    if AtTrap(e.pc) {
      acts := Trapped(e);
      return;
    }
    UnsureStep(e);
    var rest := UnsureRun(Step(e, Ok));
    acts := [Own(Ok)] + rest;
    RunFirst(e, Own(Ok), rest);
  }

  /** A cancelled run is certain to call back, whatever is called after the cancel, if and only if the cancel found the
      thread past all of that. */
  lemma CancelSurelyHeardIff(e: Exec, preserve: bool)
    requires ExecInv(e)
    ensures var c := CancelReq(e, preserve);
      (forall acts :: Run(c, acts).pc.Ended? ==> Run(c, acts).log.fired == 1) <==> SurelyHeard(c)
  {
    var c := CancelReq(e, preserve);
    CancelIsJust(e, preserve);
    if SurelyHeard(c) {
      forall acts | Run(c, acts).pc.Ended?
        ensures Run(c, acts).log.fired == 1
      {
        SureRun(c, acts);
      }
    } else {
      var acts := UnsureRun(c);
      assert Run(c, acts).pc.Ended?;
    }
  }

  // ---- The safe stop ----

  ghost predicate HasStop(e: Exec) { WholeStop(PhaseOf(e.log.sent)) }

  /** On the way to the next look at the cancel event, in the safe stop, or past it. */
  ghost predicate StopsSurely(e: Exec) {
    match e.pc
    case Starting(at) => (at.MarkStart? || at.PersistStart?) && e.job.index < e.job.total
    case Testing(at) => (at.Loop? && e.job.index < e.job.total) || at.TestFail? || at.TestCancel?
    case Printing(at) => if at.LineWait? then false
                         else if at.Advance? then e.job.index + 1 < e.job.total else e.job.index < e.job.total
    case Pausing(_) => true
    case Resuming(_) => true
    case AfterFail => true
    case AfterCancel => true
    case Stopping(_, _) => true
    case FailJob => !e.job.IsTerminal()
    case _ => HasStop(e)
  }

  lemma StopsStep(e: Exec, reply: Reply)
    requires ExecInv(e) && JustCancelled(e) && StopsSurely(e)
    ensures StopsSurely(Step(e, reply))
  {
  }

  lemma {:induction false} StopsRun(e: Exec, acts: seq<Act>)
    requires ExecInv(e) && JustCancelled(e) && StopsSurely(e) && OwnOnly(acts)
    ensures StopsSurely(Run(e, acts))
    decreases |acts|
  {
    if acts != [] {
      assert acts[0].Own?;
      CancelledKept(e, acts[0].reply);
      StopsStep(e, acts[0].reply);
      StopsRun(Step(e, acts[0].reply), acts[1..]);
    }
  }

  lemma NoStopStep(e: Exec)
    requires ExecInv(e) && JustCancelled(e) && !StopsSurely(e) && !e.pc.Ended?
    ensures !StopsSurely(Step(e, Refused(""))) && Rank(Step(e, Refused(""))) < Rank(e)
  {
  }

  lemma {:induction false} NoStopRun(e: Exec) returns (acts: seq<Act>)
    requires ExecInv(e) && JustCancelled(e) && !StopsSurely(e)
    ensures OwnOnly(acts) && Run(e, acts).pc.Ended? && !HasStop(Run(e, acts))
    decreases Rank(e)
  {
    if e.pc.Ended? {
      return [];
    }
    NoStopStep(e);
    CancelledKept(e, Refused(""));
    var rest := NoStopRun(Step(e, Refused("")));
    acts := [Own(Refused(""))] + rest;
    RunFirst(e, Own(Refused("")), rest);
  }

  /** Every run of the thread after a cancel ends with the whole safe stop sent, if and only if the cancel found the
      thread at a point of StopsSurely; a line in flight is none, as its failure closes the run without a stop. */
  lemma CancelStopsIff(e: Exec, preserve: bool)
    requires ExecInv(e)
    ensures var c := CancelReq(e, preserve);
      (forall acts :: OwnOnly(acts) && Run(c, acts).pc.Ended? ==> HasStop(Run(c, acts))) <==> StopsSurely(c)
  {
    var c := CancelReq(e, preserve);
    CancelIsJust(e, preserve);
    if StopsSurely(c) {
      forall acts | OwnOnly(acts) && Run(c, acts).pc.Ended?
        ensures HasStop(Run(c, acts))
      {
        StopsRun(c, acts);
      }
    } else {
      var acts := NoStopRun(c);
      assert OwnOnly(acts) && Run(c, acts).pc.Ended?;
    }
  }

  lemma {:induction false} StoppedTexts(t: seq<Cmd>, hold: bool, n: nat)
    requires n <= STOP_COUNT && PhaseOf(t) == Stopped(hold, n)
    ensures exists rest :: CmdTexts(t) == rest + StopTexts(hold)[..n]
  {
    assert t == Front(t) + [Last(t)];
    assert Last(t) == Stop(hold, n - 1);
    var rest := CmdTexts(Front(t));
    if n > 1 {
      StoppedTexts(Front(t), hold, n - 1);
      rest :| CmdTexts(Front(t)) == rest + StopTexts(hold)[..n - 1];
    }
    assert StopTexts(hold)[..n] == StopTexts(hold)[..n - 1] + [CmdText(Stop(hold, n - 1))];
    assert CmdTexts(t) == rest + StopTexts(hold)[..n];
  }

  /** In every run of a job that holds a whole safe stop, the last commands sent settle the pause, switch both heaters
      off and release the motors, and nothing follows them. */
  lemma StopSends(j: JobRec, acts: seq<Act>) returns (rest: seq<string>, hold: bool)
    requires Fresh(j) && HasStop(Run(NewExec(j), acts))
    ensures CmdTexts(Run(NewExec(j), acts).log.sent)
         == rest + [if hold then "M25" else "M24", "M104 S0", "M140 S0", "M84"]
  {
    var t := Run(NewExec(j), acts).log.sent;
    hold := PhaseOf(t).hold;
    StoppedTexts(t, hold, STOP_COUNT);
    rest :| CmdTexts(t) == rest + StopTexts(hold)[..STOP_COUNT];
  }
}
