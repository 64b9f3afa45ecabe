/** The executor thread of one job as a program counter over `_stream_loop` and its helpers
    (src/jobs/job_executor.py). Each value of the counter is a point where another thread may act. */
module Executor {
  import opened Basics
  import opened JobModel
  import opened Text

  /** A command given to `engine.send`, tagged with the statement that sent it. */
  datatype Cmd = Line(index: nat, text: string) | Pause | Resume | Stop(hold: bool, n: nat)

  /** How `engine.send` comes back. */
  datatype Reply = Ok | Refused(statusName: string) | Raised(message: string)

  /** Why a run is being closed. */
  datatype Cause = ByCancel | ByFail | ByLine(why: string)

  datatype StartPt = BeginFail | BeginCancel | MarkStart | PersistStart
  datatype TestPt = Loop | TestFail | TestCancel | TestPause | Fetch
  datatype LinePt = LineWait | Advance | PersistLine
  datatype PausePt = PauseCall | PauseWait | MarkPause | PersistPause | Poll | PollExit
  datatype ResumePt = ResumeCall | ResumeWait | MarkResume | PersistResume
  datatype StopPt = StopDecide | StopCall(hold: bool, n: nat) | StopWait(hold: bool, n: nat)
  datatype ClosePt = MarkFinal(cause: Cause) | PersistFinal | Fire
  datatype DonePt = Decide | FireDone | PersistDone

  datatype Pc =
    | Starting(s: StartPt)
    | Testing(t: TestPt)
    | Printing(l: LinePt)
    | Pausing(p: PausePt)
    | Resuming(r: ResumePt)
    | AfterFail
    | AfterCancel
    | FailJob
    | Stopping(stop: StopPt, cause: Cause)
    | Closing(c: ClosePt)
    | Completing(d: DonePt)
    | Ended

  /** The three events and the two fields the control methods set. */
  datatype Flags = Flags(pause: bool, cancel: bool, fail: bool, failReason: Option<string>, preserve: bool)

  /** The history of a run: start index, commands sent, line indices that succeeded, number of `on_finished` calls. */
  datatype Log = Log(start: nat, sent: seq<Cmd>, oks: seq<nat>, fired: nat)

  /** An executor with the job it shares with the manager. */
  datatype Exec = Exec(job: JobRec, pc: Pc, flags: Flags, log: Log)

  function NewExec(job: JobRec): Exec {
    Exec(job, Starting(BeginFail), Flags(false, false, false, None, true), Log(job.index, [], [], 0))
  }

  function CmdText(c: Cmd): string {
    match c
    case Line(_, text) => text
    case Pause => "M25"
    case Resume => "M24"
    case Stop(hold, n) => StopText(hold, n)
  }

  /** The n-th command of `_safe_stop`; the first one depends on `_preserve_pause`. */
  function StopText(hold: bool, n: nat): string {
    if n == 0 then (if hold then "M25" else "M24")
    else if n == 1 then "M104 S0"
    else if n == 2 then "M140 S0"
    else "M84"
  }

  const STOP_COUNT: nat := 4

  /** The commands of the safe stop, in order. */
  function StopTexts(hold: bool): (cmds: seq<string>)
    ensures |cmds| == STOP_COUNT && forall n :: 0 <= n < STOP_COUNT ==> cmds[n] == CmdText(Stop(hold, n))
  {
    [if hold then "M25" else "M24", "M104 S0", "M140 S0", "M84"]
  }

  function CmdTexts(sent: seq<Cmd>): seq<string> {
    if sent == [] then [] else CmdTexts(Front(sent)) + [CmdText(Last(sent))]
  }

  lemma CmdTextsGrow(sent: seq<Cmd>, c: Cmd, text: string)
    requires text == CmdText(c)
    ensures CmdTexts(sent + [c]) == CmdTexts(sent) + [text]
  {
    assert Front(sent + [c]) == sent;
  }

  function RejectionReason(gcode: string, statusName: string): string {
    "Rejected " + Repr(gcode) + ": " + statusName
  }

  function FailText(reason: Option<string>): string {
    if reason.None? || reason.value == "" then "Job failed" else reason.value
  }

  function Send(e: Exec, c: Cmd, next: Pc): Exec {
    e.(log := e.log.(sent := e.log.sent + [c]), pc := next)
  }

  function Close(e: Exec, cause: Cause): Exec {
    e.(job := (match cause
               case ByCancel => e.job.MarkCancelled()
               case ByFail => e.job.MarkFailed(FailText(e.flags.failReason))
               case ByLine(why) => e.job.MarkFailed(why)),
       pc := Closing(PersistFinal))
  }

  /** One own step of the thread. `reply` matters only where a line is being waited for. */
  function Step(e: Exec, reply: Reply): Exec {
    match e.pc
    case Starting(at) => StartStep(e, at)
    case Testing(at) => if at.Fetch? then FetchStep(e) else TestStep(e, at)
    case Printing(at) => LineStep(e, at, reply)
    case Pausing(at) => PauseStep(e, at)
    case Resuming(at) => ResumeStep(e, at)
    case AfterFail => e.(pc := if e.flags.fail then FailJob else AfterCancel)
    case AfterCancel => e.(pc := if e.flags.cancel then Stopping(StopDecide, ByCancel) else Testing(Loop))
    case FailJob => e.(pc := if e.job.IsTerminal() then Ended else Stopping(StopDecide, ByFail))
    case Stopping(at, cause) => StopStep(e, at, cause)
    case Closing(at) => CloseStep(e, at)
    case Completing(at) => DoneStep(e, at)
    case Ended => e
  }

  /** Lines 111-120. */
  function StartStep(e: Exec, at: StartPt): Exec {
    match at
    case BeginFail => e.(pc := if e.flags.fail then FailJob else Starting(BeginCancel))
    case BeginCancel =>
      e.(pc := if e.flags.cancel || e.job.status.CANCELLED? then Closing(MarkFinal(ByCancel)) else Starting(MarkStart))
    case MarkStart => e.(job := e.job.MarkPrinting(), pc := Starting(PersistStart))
    case PersistStart => e.(pc := Testing(Loop))
  }

  /** Lines 123-132: the loop test and the three event tests. */
  function TestStep(e: Exec, at: TestPt): Exec {
    match at
    case Loop => e.(pc := if e.job.index < e.job.total then Testing(TestFail) else Completing(Decide))
    case TestFail => e.(pc := if e.flags.fail then FailJob else Testing(TestCancel))
    case TestCancel => e.(pc := if e.flags.cancel then Stopping(StopDecide, ByCancel) else Testing(TestPause))
    case TestPause => e.(pc := if e.flags.pause then Pausing(PauseCall) else Testing(Fetch))
    case Fetch => e
  }

  /** Lines 143-148: an absent or empty line leaves the loop, an index error reaches the outer handler. */
  function FetchStep(e: Exec): Exec {
    match e.job.Next()
    case NextText(text) =>
      if text == "" then e.(pc := Completing(Decide)) else Send(e, Line(e.job.index, text), Printing(LineWait))
    case NoLine => e.(pc := Completing(Decide))
    case IndexError => e.(pc := Closing(MarkFinal(ByLine("list index out of range"))))
  }

  /** Lines 148-159: the reply, the counter, the save. */
  function LineStep(e: Exec, at: LinePt, reply: Reply): Exec {
    match at
    case LineWait =>
      (match reply
       case Ok => e.(log := e.log.(oks := e.log.oks + [e.job.index]), pc := Printing(Advance))
       case Refused(statusName) =>
         var gcode := if e.job.Next().NextText? then e.job.Next().text else "";
         e.(pc := Closing(MarkFinal(ByLine(RejectionReason(gcode, statusName)))))
       case Raised(message) => e.(pc := Closing(MarkFinal(ByLine(message)))))
    case Advance => e.(job := e.job.Advanced(), pc := Printing(PersistLine))
    case PersistLine => e.(pc := Testing(Loop))
  }

  /** Lines 174-186: the pause, whatever its send returns. */
  function PauseStep(e: Exec, at: PausePt): Exec {
    match at
    case PauseCall => Send(e, Pause, Pausing(PauseWait))
    case PauseWait => e.(pc := Pausing(MarkPause))
    case MarkPause => e.(job := e.job.MarkPaused(), pc := Pausing(PersistPause))
    case PersistPause => e.(pc := Pausing(Poll))
    case Poll => e.(pc := Pausing(if e.flags.pause && !e.flags.cancel && !e.flags.fail then Poll else PollExit))
    case PollExit => e.(pc := if !e.flags.cancel && !e.flags.fail then Resuming(ResumeCall) else AfterFail)
  }

  /** Lines 187-190. */
  function ResumeStep(e: Exec, at: ResumePt): Exec {
    match at
    case ResumeCall => Send(e, Resume, Resuming(ResumeWait))
    case ResumeWait => e.(pc := Resuming(MarkResume))
    case MarkResume => e.(job := e.job.MarkPrinting(), pc := Resuming(PersistResume))
    case PersistResume => e.(pc := AfterFail)
  }

  /** Lines 201-215: the safe stop. */
  function StopStep(e: Exec, at: StopPt, cause: Cause): Exec {
    match at
    case StopDecide => e.(pc := Stopping(StopCall(e.flags.preserve, 0), cause))
    case StopCall(hold, n) =>
      if n >= STOP_COUNT then e.(pc := Closing(MarkFinal(cause)))
      else Send(e, Stop(hold, n), Stopping(StopWait(hold, n + 1), cause))
    case StopWait(hold, n) => e.(pc := Stopping(StopCall(hold, n), cause))
  }

  /** The closing mark, save and callback of a cancelled or failed run. */
  function CloseStep(e: Exec, at: ClosePt): Exec {
    match at
    case MarkFinal(cause) => Close(e, cause)
    case PersistFinal => e.(pc := Closing(Fire))
    case Fire => e.(log := e.log.(fired := e.log.fired + 1), pc := Ended)
  }

  /** Lines 162-167; the completion decision is one step. */
  function DoneStep(e: Exec, at: DonePt): Exec {
    match at
    case Decide =>
      if e.flags.fail then e.(pc := FailJob)
      else if !e.flags.cancel then e.(job := e.job.MarkCompleted(), pc := Completing(FireDone))
      else e.(pc := Ended)
    case FireDone => e.(log := e.log.(fired := e.log.fired + 1), pc := Completing(PersistDone))
    case PersistDone => e.(pc := Ended)
  }

  /** Own steps that write the job file. */
  predicate Saves(pc: Pc) {
    || pc == Starting(PersistStart) || pc == Printing(PersistLine) || pc == Pausing(PersistPause)
    || pc == Resuming(PersistResume) || pc == Closing(PersistFinal) || pc == Completing(PersistDone)
  }

  /** Own steps that call `on_finished`. */
  predicate Fires(pc: Pc) { pc == Closing(Fire) || pc == Completing(FireDone) }

  /** The command the next own step sends, if any. */
  function Emits(e: Exec): Option<Cmd> {
    match e.pc
    case Testing(Fetch) =>
      if e.job.Next().NextText? && e.job.Next().text != "" then Some(Line(e.job.index, e.job.Next().text)) else None
    case Pausing(PauseCall) => Some(Pause)
    case Resuming(ResumeCall) => Some(Resume)
    case Stopping(StopCall(hold, n), _) => if n < STOP_COUNT then Some(Stop(hold, n)) else None
    case _ => None
  }

  // Control methods, run by the manager under its lock.

  predicate PauseSaves(e: Exec) { e.job.status.PRINTING? }

  function PauseReq(e: Exec): Exec {
    if e.job.status.PRINTING? then e.(flags := e.flags.(pause := true), job := e.job.MarkPaused()) else e
  }

  predicate ResumeSaves(e: Exec) { e.job.status.PAUSED? }

  function ResumeReq(e: Exec): Exec {
    if e.job.status.PAUSED? then e.(flags := e.flags.(pause := false), job := e.job.MarkPrinting()) else e
  }

  predicate CancelSaves(e: Exec) { !e.job.IsTerminal() }

  function CancelReq(e: Exec, preserve: bool): Exec {
    e.(flags := e.flags.(preserve := preserve, cancel := true, pause := false, fail := false),
       job := if e.job.IsTerminal() then e.job else e.job.MarkCancelled())
  }

  function FailReq(e: Exec, reason: string): Exec {
    e.(flags := e.flags.(failReason := Some(reason), fail := true, pause := false))
  }

  /** What can happen to an executor: its own step, or a control call. */
  datatype Act = Own(reply: Reply) | ReqPause | ReqResume | ReqCancel(preserve: bool) | ReqFail(reason: string)

  function Apply(e: Exec, a: Act): Exec {
    match a
    case Own(reply) => Step(e, reply)
    case ReqPause => PauseReq(e)
    case ReqResume => ResumeReq(e)
    case ReqCancel(preserve) => CancelReq(e, preserve)
    case ReqFail(reason) => FailReq(e, reason)
  }

  function Run(e: Exec, acts: seq<Act>): Exec
    decreases |acts|
  {
    if acts == [] then e else Run(Apply(e, acts[0]), acts[1..])
  }
}
