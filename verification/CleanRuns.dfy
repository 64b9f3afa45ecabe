/** A run of a job that nobody interferes with and whose sends all succeed (src/jobs/job_executor.py). */
module CleanRuns {
  import opened Basics
  import opened JobModel
  import opened Executor
  import opened ExecutorProofs
  import opened ExecutorTheorems

  ghost predicate AllSucceed(acts: seq<Act>) {
    forall k :: 0 <= k < |acts| ==> acts[k] == Own(Ok)
  }

  /** How many steps are left: eight for each line, and four at either end. */
  function StepsLeft(e: Exec): int {
    var lines := 8 * (e.job.total - e.job.index);
    match e.pc
    case Starting(at) =>
      lines + (match at case BeginFail => 8 case BeginCancel => 7 case MarkStart => 6 case PersistStart => 5)
    case Testing(at) =>
      lines + (match at
               case Loop => 4 case TestFail => 3 case TestCancel => 2 case TestPause => 1 case Fetch => 0)
    case Printing(at) => lines + (match at case LineWait => -1 case Advance => -2 case PersistLine => 5)
    case Completing(at) => (match at case Decide => 3 case FireDone => 2 case PersistDone => 1)
    case _ => 0
  }

  /** Nothing asked for, and the thread on its straight way. */
  predicate OnCourse(e: Exec) {
    && !e.flags.pause && !e.flags.cancel && !e.flags.fail && !e.job.status.CANCELLED?
    && (e.pc.Starting? || e.pc.Testing? || e.pc.Printing? || e.pc.Completing? || e.pc.Ended?)
    && ((e.pc.Completing? && !e.pc.d.Decide?) || e.pc.Ended? ==> e.job.status.COMPLETED?)
    && (e.pc.Completing? || e.pc.Ended? ==> e.job.index == e.job.total)
  }

  /** The lines sent so far, as texts, with the one in flight. */
  ghost predicate SentUpTo(e: Exec) {
    var to := if InLine(e.pc) then e.job.index + 1 else e.job.index;
    e.log.start <= to <= |e.job.lines| && CmdTexts(e.log.sent) == e.job.lines[e.log.start..to]
  }

  lemma CourseStep(e: Exec)
    requires ExecInv(e) && OnCourse(e) && NoEmptyLine(e.job.lines)
    ensures OnCourse(Step(e, Ok)) && Step(e, Ok).job.lines == e.job.lines && Step(e, Ok).job.total == e.job.total
    ensures !e.pc.Ended? ==> StepsLeft(Step(e, Ok)) == StepsLeft(e) - 1
    ensures e.pc.Ended? ==> Step(e, Ok) == e
  {
  }

  lemma SentStep(e: Exec)
    requires ExecInv(e) && OnCourse(e) && SentUpTo(e) && NoEmptyLine(e.job.lines)
    ensures SentUpTo(Step(e, Ok))
  {
    StepKeepsInv(e, Ok);
    if e.pc == Testing(Fetch) {
      var text := e.job.lines[e.job.index];
      assert text != "";
      CmdTextsGrow(e.log.sent, Line(e.job.index, text), text);
      assert e.job.lines[e.log.start..e.job.index + 1] == e.job.lines[e.log.start..e.job.index] + [text];
    }
  }

  lemma {:induction false} CourseRun(e: Exec, acts: seq<Act>)
    requires ExecInv(e) && OnCourse(e) && SentUpTo(e) && NoEmptyLine(e.job.lines) && AllSucceed(acts)
    ensures var t := Run(e, acts);
      && ExecInv(t) && OnCourse(t) && SentUpTo(t) && t.job.lines == e.job.lines && t.log.start == e.log.start
      && (|acts| >= StepsLeft(e) ==> t.pc.Ended?)
    decreases |acts|
  {
    if acts != [] {
      assert acts[0] == Own(Ok);
      StepKeepsInv(e, Ok);
      CourseStep(e);
      SentStep(e);
      CourseRun(Step(e, Ok), acts[1..]);
    } else {
      LeftAtLeast(e);
    }
  }

  lemma LeftAtLeast(e: Exec)
    requires ExecInv(e) && OnCourse(e)
    ensures !e.pc.Ended? ==> StepsLeft(e) > 0
  {
  }

  /** A job without an empty line that nobody touches and whose sends all succeed ends COMPLETED after eight steps for
      each line and eight more, has called back once, and has sent the texts of its lines from where it started, in
      order, and nothing else. */
  lemma CleanRunCompletes(j: JobRec, acts: seq<Act>)
    requires Fresh(j) && NoEmptyLine(j.lines) && AllSucceed(acts) && |acts| >= 8 * (j.total - j.index) + 8
    ensures var e := Run(NewExec(j), acts);
      && e.pc.Ended? && e.job.status.COMPLETED? && e.log.fired == 1
      && CmdTexts(e.log.sent) == j.lines[j.index..]
  {
    NewExecInv(j);
    assert j.lines[j.index..j.index] == [];
    CourseRun(NewExec(j), acts);
    assert j.lines[j.index..|j.lines|] == j.lines[j.index..];
  }
}
