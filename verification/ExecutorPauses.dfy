/** What a pause does to the rest of a run, and when a resume is lost on it (src/jobs/job_executor.py). */
module ExecutorPauses {
  import opened Basics
  import opened JobModel
  import opened Executor
  import opened ExecutorProofs
  import opened ExecutorTheorems
  import opened ExecutorEnds

  /** A pause is asked for, and no stop. */
  predicate PauseAsked(e: Exec) { e.flags.pause && !e.flags.cancel && !e.flags.fail }

  ghost predicate PauseOnly(acts: seq<Act>) {
    forall k :: 0 <= k < |acts| ==> acts[k].Own? || acts[k].ReqPause?
  }

  /** How many own steps there are at most until the thread waits in the pause or has ended. */
  function PauseRank(pc: Pc): nat {
    match pc
    case Starting(at) =>
      (match at case BeginFail => 15 case BeginCancel => 11 case MarkStart => 10 case PersistStart => 9)
    case Testing(at) =>
      (match at case Loop => 8 case TestFail => 7 case TestCancel => 6 case TestPause => 5 case Fetch => 12)
    case Printing(at) => (match at case LineWait => 11 case Advance => 10 case PersistLine => 9)
    case Pausing(at) =>
      (match at
       case PauseCall => 4 case PauseWait => 3 case MarkPause => 2 case PersistPause => 1
       case Poll => 0 case PollExit => 15)
    case Resuming(at) =>
      (match at case ResumeCall => 14 case ResumeWait => 13 case MarkResume => 12 case PersistResume => 11)
    case AfterFail => 10
    case AfterCancel => 9
    case FailJob => 14
    case Stopping(at, _) =>
      (match at
       case StopDecide => 13
       case StopCall(_, n) => if n < STOP_COUNT then 4 + 2 * (STOP_COUNT - n) else 4
       case StopWait(_, n) => if n < STOP_COUNT then 5 + 2 * (STOP_COUNT - n) else 5)
    case Closing(at) => (match at case MarkFinal(_) => 3 case PersistFinal => 2 case Fire => 1)
    case Completing(at) => (match at case Decide => 3 case FireDone => 2 case PersistDone => 1)
    case Ended => 0
  }

  const MAX_PAUSE_RANK: nat := 15

  /** The line the thread has already decided to send. */
  function LinesDecided(pc: Pc): nat { if pc == Testing(Fetch) then 1 else 0 }

  /** Where the thread has written PAUSED it says so. */
  predicate PauseShown(e: Exec) {
    e.pc == Pausing(PersistPause) || e.pc == Pausing(Poll) ==> e.job.status.PAUSED?
  }

  lemma PauseStep(e: Exec, reply: Reply)
    requires PauseAsked(e) && PauseShown(e)
    ensures PauseAsked(Step(e, reply)) && PauseShown(Step(e, reply))
  {
  }

  /** Closer to the wait, or there. */
  ghost predicate Closer(pc: Pc, next: Pc) {
    && PauseRank(pc) <= MAX_PAUSE_RANK
    && (if PauseRank(pc) > 0 then PauseRank(next) < PauseRank(pc) else PauseRank(next) == 0)
  }

  lemma PrintingCloser(e: Exec, reply: Reply)
    requires PauseAsked(e) && (e.pc.Starting? || e.pc.Testing? || e.pc.Printing?)
    ensures Closer(e.pc, Step(e, reply).pc)
  {
  }

  lemma PausingCloser(e: Exec, reply: Reply)
    requires PauseAsked(e) && (e.pc.Pausing? || e.pc.Resuming? || e.pc.AfterFail? || e.pc.AfterCancel?)
    ensures Closer(e.pc, Step(e, reply).pc)
  {
  }

  lemma ClosingCloser(e: Exec, reply: Reply)
    requires PauseAsked(e)
    requires e.pc.FailJob? || e.pc.Stopping? || e.pc.Closing? || e.pc.Completing? || e.pc.Ended?
    ensures Closer(e.pc, Step(e, reply).pc)
  {
  }

  lemma PauseProgress(e: Exec, reply: Reply)
    requires PauseAsked(e)
    ensures Closer(e.pc, Step(e, reply).pc)
  {
    match e.pc
    case Starting(_) => PrintingCloser(e, reply);
    case Testing(_) => PrintingCloser(e, reply);
    case Printing(_) => PrintingCloser(e, reply);
    case Pausing(_) => PausingCloser(e, reply);
    case Resuming(_) => PausingCloser(e, reply);
    case AfterFail => PausingCloser(e, reply);
    case AfterCancel => PausingCloser(e, reply);
    case _ => ClosingCloser(e, reply);
  }

  lemma PauseSends(e: Exec, reply: Reply)
    requires PauseAsked(e)
    ensures (Emits(e).Some? && Emits(e).value.Line?) || LinesDecided(Step(e, reply).pc) == 0
    ensures Emits(e).Some? && Emits(e).value.Line? ==> LinesDecided(e.pc) == 1 && LinesDecided(Step(e, reply).pc) == 0
    ensures Step(e, reply).log.sent == if Emits(e).Some? then e.log.sent + [Emits(e).value] else e.log.sent
  {
  }

  lemma {:induction false} PauseRun(e: Exec, acts: seq<Act>)
    requires PauseAsked(e) && PauseShown(e) && PauseOnly(acts)
    ensures var r := Run(e, acts);
      && PauseAsked(r) && PauseShown(r)
      && (PauseRank(r.pc) == 0 || PauseRank(r.pc) + OwnSteps(acts) <= PauseRank(e.pc))
      && |LineNos(r.log.sent)| + LinesDecided(r.pc) <= |LineNos(e.log.sent)| + LinesDecided(e.pc)
    decreases |acts|
  {
    if acts != [] {
      var e1 := Apply(e, acts[0]);
      if acts[0].Own? {
        PauseStep(e, acts[0].reply);
        PauseProgress(e, acts[0].reply);
        PauseSends(e, acts[0].reply);
        if Emits(e).Some? {
          LineNosAfter(e.log.sent, Emits(e).value);
        }
      }
      PauseRun(e1, acts[1..]);
    }
  }

  /** After an accepted pause, and until a resume, cancel or fail, at most the line already decided on goes out, and
      after 15 own steps of the thread it waits in the pause, shown as PAUSED, or has ended. */
  lemma PauseTakesHold(e: Exec, acts: seq<Act>)
    requires e.job.status.PRINTING? && !e.flags.cancel && !e.flags.fail && PauseOnly(acts)
    ensures var r := Run(PauseReq(e), acts);
      && |LineNos(r.log.sent)| <= |LineNos(e.log.sent)| + LinesDecided(e.pc)
      && (OwnSteps(acts) >= MAX_PAUSE_RANK ==>
            r.pc.Ended? || (r.pc == Pausing(Poll) && r.flags.pause && r.job.status.PAUSED?))
  {
    PauseRun(PauseReq(e), acts);
    RankZero(Run(PauseReq(e), acts).pc);
  }

  lemma RankZero(pc: Pc)
    ensures PauseRank(pc) <= MAX_PAUSE_RANK && (PauseRank(pc) == 0 ==> pc.Ended? || pc == Pausing(Poll))
  {
  }

  // ---- A resume that is lost ----

  /** The thread has yet to write PRINTING, for its start or for an earlier resume. */
  predicate BeforeMark(pc: Pc) {
    pc == Pausing(PollExit) || (pc.Resuming? && !pc.r.PersistResume?) || (pc.Starting? && !pc.s.PersistStart?)
  }

  /** It has written it, and has not written PAUSED since. */
  predicate AfterMark(pc: Pc) {
    || pc == Starting(PersistStart) || pc == Resuming(PersistResume) || pc.AfterFail? || pc.AfterCancel?
    || (pc.Testing? && !pc.t.Fetch?) || pc == Completing(Decide)
    || pc == Pausing(PauseCall) || pc == Pausing(PauseWait) || pc == Pausing(MarkPause)
  }

  /** The status of a paused job: as the pause left it, overwritten with PRINTING, PAUSED again, or final. */
  predicate Course(late: bool, e: Exec) {
    || (e.job.IsTerminal() && (e.pc.Closing? || e.pc.Completing? || e.pc.Ended?))
    || (late && e.job.status.PAUSED? && (BeforeMark(e.pc) || e.pc == Pausing(PersistPause) || e.pc == Pausing(Poll)))
    || (late && e.job.status.PRINTING? && AfterMark(e.pc))
    || (!late && e.job.status.PAUSED? && !BeforeMark(e.pc))
  }

  lemma CourseStep(late: bool, e: Exec, reply: Reply)
    requires PauseAsked(e) && Course(late, e)
    ensures PauseAsked(Step(e, reply)) && Course(late, Step(e, reply))
  {
  }

  lemma {:induction false} CourseRun(late: bool, e: Exec, acts: seq<Act>)
    requires PauseAsked(e) && Course(late, e) && OwnOnly(acts)
    ensures PauseAsked(Run(e, acts)) && Course(late, Run(e, acts))
    decreases |acts|
  {
    if acts != [] {
      assert acts[0].Own?;
      CourseStep(late, e, acts[0].reply);
      CourseRun(late, Step(e, acts[0].reply), acts[1..]);
    }
  }

  /** While a pause is asked for, a resume does nothing, and the pause stands, if and only if the job is over, or the
      pause came while the thread was on its way to write PRINTING, and it has written it and not yet PAUSED again. */
  lemma ResumeIsLostIff(e: Exec, acts: seq<Act>)
    requires e.job.status.PRINTING? && !e.flags.cancel && !e.flags.fail && OwnOnly(acts)
    ensures var r := Run(PauseReq(e), acts);
      && r.flags.pause
      && (ResumeReq(r) == r <==> r.job.IsTerminal() || (BeforeMark(e.pc) && AfterMark(r.pc)))
      && (ResumeReq(r) != r ==> !ResumeReq(r).flags.pause)
  {
    CourseRun(BeforeMark(e.pc), PauseReq(e), acts);
  }

  /** Such a run, from every waiting thread: a resume, a pause that comes when the thread has just left its wait, and
      once it has written PRINTING a second resume, which is lost: 15 own steps later it waits again, or has ended. */
  lemma ResumeIsLost(e: Exec, acts: seq<Act>)
    requires e.pc == Pausing(Poll) && e.job.status.PAUSED? && PauseAsked(e)
    requires OwnOnly(acts) && OwnSteps(acts) >= MAX_PAUSE_RANK
    ensures var e1 := PauseReq(Step(ResumeReq(e), Ok));
      var e2 := Step(Step(Step(Step(e1, Ok), Ok), Ok), Ok);
      && ResumeReq(e2) == e2
      && var r := Run(ResumeReq(e2), acts);
         r.pc.Ended? || (r.pc == Pausing(Poll) && r.flags.pause && r.job.status.PAUSED?)
  {
    var e0 := Step(ResumeReq(e), Ok);
    var e1 := PauseReq(e0);
    assert e0.pc == Pausing(PollExit) && e0.job.status.PRINTING?;
    var e2 := Step(Step(Step(Step(e1, Ok), Ok), Ok), Ok);
    assert e2.pc == Resuming(PersistResume) && e2.job.status.PRINTING? && PauseAsked(e2);
    PauseRun(e2, acts);
    RankZero(Run(e2, acts).pc);
    RankZero(e2.pc);
  }

  // ---- A resume that takes hold ----

  predicate NothingAsked(e: Exec) { !e.flags.pause && !e.flags.cancel && !e.flags.fail }

  /** How many own steps there are at most until the printer is moving again and the job shown so. */
  function ResumeRank(pc: Pc): nat {
    match pc
    case Pausing(at) =>
      (match at
       case PauseCall => 9 case PauseWait => 8 case MarkPause => 7 case PersistPause => 6
       case Poll => 5 case PollExit => 4)
    case Resuming(at) =>
      (match at case ResumeCall => 3 case ResumeWait => 2 case MarkResume => 1 case PersistResume => 0)
    case FailJob => 3
    case Stopping(at, _) => (match at case StopDecide => 2 case StopCall(_, n) => if n == 0 then 1 else 0 case _ => 0)
    case _ => 0
  }

  /** PAUSED is shown only on the way through the pause. */
  predicate ShownPaused(e: Exec) {
    e.job.status.PAUSED? ==> (e.pc.Pausing? || e.pc.Resuming?) && ResumeRank(e.pc) > 0
  }

  lemma ResumeStep(e: Exec, reply: Reply)
    requires ExecInv(e) && NothingAsked(e) && ShownPaused(e)
    ensures NothingAsked(Step(e, reply)) && ShownPaused(Step(e, reply))
    ensures ResumeRank(Step(e, reply).pc) <= if ResumeRank(e.pc) > 0 then ResumeRank(e.pc) - 1 else 0
  {
  }

  /** The run has not ended in a pause of the printer. */
  ghost predicate EndsMoving(e: Exec) { e.pc.Ended? ==> !PhaseOf(e.log.sent).Held? }

  lemma EndsMovingStep(e: Exec, reply: Reply)
    requires ExecInv(e) && NothingAsked(e) && EndsMoving(e)
    ensures EndsMoving(Step(e, reply))
  {
    assert Step(e, reply).pc.Ended? ==> Step(e, reply).log.sent == e.log.sent;
  }

  lemma {:induction false} ResumeRun(e: Exec, acts: seq<Act>)
    requires ExecInv(e) && NothingAsked(e) && ShownPaused(e) && EndsMoving(e) && OwnOnly(acts)
    ensures var t := Run(e, acts);
      && ExecInv(t) && NothingAsked(t) && ShownPaused(t) && EndsMoving(t)
      && (|acts| >= ResumeRank(e.pc) ==> ResumeRank(t.pc) == 0)
    decreases |acts|
  {
    if acts != [] {
      assert acts[0].Own?;
      StepKeepsInv(e, acts[0].reply);
      ResumeStep(e, acts[0].reply);
      EndsMovingStep(e, acts[0].reply);
      ResumeRun(Step(e, acts[0].reply), acts[1..]);
    }
  }

  lemma MovingAgain(e: Exec)
    requires ExecInv(e) && NothingAsked(e) && ShownPaused(e) && EndsMoving(e) && ResumeRank(e.pc) == 0
    ensures !e.pc.Pausing? && !e.job.status.PAUSED? && !PhaseOf(e.log.sent).Held?
  {
  }

  lemma ResumeBegins(e: Exec)
    requires ExecInv(e) && e.job.status.PAUSED? && !e.flags.cancel && !e.flags.fail
    ensures var r := ResumeReq(e);
      ExecInv(r) && NothingAsked(r) && ShownPaused(r) && EndsMoving(r) && ResumeRank(r.pc) <= 9
  {
    ApplyKeepsInv(e, ReqResume);
  }

  /** After an accepted resume, if nothing else is asked for, nine own steps later the thread is out of the pause, the
      job is not shown as PAUSED, and each pause sent to the printer has been followed by its resume or by a stop. */
  lemma ResumeTakesHold(e: Exec, acts: seq<Act>)
    requires ExecInv(e) && e.job.status.PAUSED? && !e.flags.cancel && !e.flags.fail && OwnOnly(acts) && |acts| >= 9
    ensures var t := Run(ResumeReq(e), acts);
      !t.pc.Pausing? && !t.job.status.PAUSED? && !PhaseOf(t.log.sent).Held?
  {
    ResumeBegins(e);
    ResumeRun(ResumeReq(e), acts);
    MovingAgain(Run(ResumeReq(e), acts));
  }
}
