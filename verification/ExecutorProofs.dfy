/** What every run of an executor keeps, whatever control calls arrive and whatever the sends return. */
module ExecutorProofs {
  import opened Basics
  import opened JobModel
  import opened Executor

  // ---- The shape of a command trace ----

  /** (Line | Pause Resume)* */
  ghost predicate IsBody(t: seq<Cmd>) {
    t == [] || (Last(t).Line? && IsBody(Front(t)))
    || (Last(t).Resume? && |t| >= 2 && t[|t| - 2].Pause? && IsBody(t[..|t| - 2]))
  }

  /** The first n commands of a safe stop. */
  function StopCmds(hold: bool, n: nat): seq<Cmd> {
    seq(n, k requires 0 <= k => Stop(hold, k))
  }

  /** body, then possibly a Pause left open, then the first `stops` commands of a safe stop. */
  ghost predicate InGrammar(t: seq<Cmd>, body: seq<Cmd>, open: bool, hold: bool, stops: nat) {
    stops <= STOP_COUNT && IsBody(body) && t == body + (if open then [Pause] else []) + StopCmds(hold, stops)
  }

  /** The same language as an automaton reading left to right. */
  datatype Phase = Streaming | Held | Stopped(hold: bool, n: nat) | Bad

  function Delta(p: Phase, c: Cmd): Phase {
    match c
    case Line(_, _) => if p.Streaming? then Streaming else Bad
    case Pause => if p.Streaming? then Held else Bad
    case Resume => if p.Held? then Streaming else Bad
    case Stop(hold, n) =>
      if n == 0 && (p.Streaming? || p.Held?) then Stopped(hold, 1)
      else if n < STOP_COUNT && p == Stopped(hold, n) then Stopped(hold, n + 1)
      else Bad
  }

  function PhaseOf(t: seq<Cmd>): Phase {
    if t == [] then Streaming else Delta(PhaseOf(Front(t)), Last(t))
  }

  lemma PhaseAfter(t: seq<Cmd>, c: Cmd)
    ensures PhaseOf(t + [c]) == Delta(PhaseOf(t), c)
  {
    assert Front(t + [c]) == t;
  }

  /** A decomposition of a trace that agrees with the phase the automaton is in. */
  ghost predicate Fits(p: Phase, t: seq<Cmd>, body: seq<Cmd>, open: bool, hold: bool, stops: nat) {
    && InGrammar(t, body, open, hold, stops)
    && (match p
        case Streaming => body == t && !open && stops == 0
        case Held => open && stops == 0
        case Stopped(h, n) => stops == n && hold == h && 1 <= n
        case Bad => false)
  }

  lemma StopExtends(t: seq<Cmd>, body: seq<Cmd>, open: bool, before: bool, hold: bool, n: nat)
    requires InGrammar(t, body, open, before, n) && n < STOP_COUNT && (n > 0 ==> before == hold)
    ensures InGrammar(t + [Stop(hold, n)], body, open, hold, n + 1)
  {
    assert StopCmds(hold, n + 1) == StopCmds(hold, n) + [Stop(hold, n)];
    assert StopCmds(before, n) == StopCmds(hold, n);
  }

  lemma BodyThenResume(t: seq<Cmd>, body: seq<Cmd>, hold: bool)
    requires InGrammar(t, body, true, hold, 0)
    ensures InGrammar(t + [Resume], t + [Resume], false, hold, 0)
  {
    var t' := t + [Resume];
    assert t == body + [Pause];
    assert t'[..|t'| - 2] == body && t'[|t'| - 2] == Pause && Last(t') == Resume;
  }

  lemma BodyThenLine(t: seq<Cmd>, c: Cmd, hold: bool)
    requires IsBody(t) && c.Line?
    ensures InGrammar(t + [c], t + [c], false, hold, 0)
  {
    assert Front(t + [c]) == t;
  }

  lemma BodyThenPause(t: seq<Cmd>, hold: bool)
    requires IsBody(t)
    ensures InGrammar(t + [Pause], t, true, hold, 0)
  {
  }

  /** One more accepted command extends the decomposition. */
  lemma FitsExtends(p: Phase, t: seq<Cmd>, c: Cmd, body: seq<Cmd>, open: bool, hold: bool, stops: nat)
      returns (body': seq<Cmd>, open': bool, hold': bool, stops': nat)
    requires Fits(p, t, body, open, hold, stops) && !Delta(p, c).Bad?
    ensures Fits(Delta(p, c), t + [c], body', open', hold', stops')
  {
    match c
    case Line(_, _) =>
      BodyThenLine(t, c, hold);
      return t + [c], false, hold, 0;
    case Pause =>
      BodyThenPause(t, hold);
      return t, true, hold, 0;
    case Resume =>
      BodyThenResume(t, body, hold);
      return t + [Resume], false, hold, 0;
    case Stop(h, n) =>
      StopExtends(t, body, open, hold, h, n);
      return body, open, h, n + 1;
  }

  /** An accepted trace has the declared shape. */
  lemma {:induction false} PhaseIsGrammar(t: seq<Cmd>) returns (body: seq<Cmd>, open: bool, hold: bool, stops: nat)
    requires !PhaseOf(t).Bad?
    ensures Fits(PhaseOf(t), t, body, open, hold, stops)
  {
    if t == [] {
      return [], false, true, 0;
    }
    assert t == Front(t) + [Last(t)];
    body, open, hold, stops := PhaseIsGrammar(Front(t));
    body, open, hold, stops := FitsExtends(PhaseOf(Front(t)), Front(t), Last(t), body, open, hold, stops);
  }

  /** In the language no print line comes between a Pause and the Resume that follows it. */
  lemma {:induction false} NoLineWhileHeld(t: seq<Cmd>, i: nat, j: nat) returns (k: nat)
    requires !PhaseOf(t).Bad?
    requires i < j < |t| && t[i].Pause? && t[j].Line?
    ensures i < k < j && t[k].Resume?
  {
    var front := Front(t);
    if j < |front| {
      k := NoLineWhileHeld(front, i, j);
    } else {
      k := ResumedSince(front, i);
    }
  }

  lemma {:induction false} ResumedSince(t: seq<Cmd>, i: nat) returns (k: nat)
    requires PhaseOf(t).Streaming? && i < |t| && t[i].Pause?
    ensures i < k < |t| && t[k].Resume?
  {
    if Last(t).Resume? {
      k := |t| - 1;
    } else {
      k := ResumedSince(Front(t), i);
    }
  }

  // ---- The line indices of a trace ----

  function LineNos(t: seq<Cmd>): seq<nat> {
    if t == [] then [] else if Last(t).Line? then LineNos(Front(t)) + [Last(t).index] else LineNos(Front(t))
  }

  lemma LineNosAfter(t: seq<Cmd>, c: Cmd)
    ensures LineNos(t + [c]) == if c.Line? then LineNos(t) + [c.index] else LineNos(t)
  {
    assert Front(t + [c]) == t;
  }

  // ---- The invariant ----

  /** Where the trace automaton may be at each program point. */
  predicate PhaseInv(p: Phase, pc: Pc, f: Flags) {
    match pc
    case Starting(_) => p.Streaming?
    case Testing(_) => p.Streaming?
    case Printing(_) => p.Streaming?
    case Pausing(at) => if at.PauseCall? then p.Streaming? else p.Held?
    case Resuming(at) => if at.ResumeCall? then p.Held? else p.Streaming?
    case AfterFail => p.Streaming? || (p.Held? && (f.cancel || f.fail))
    case AfterCancel => p.Streaming? || (p.Held? && f.cancel)
    case FailJob => p.Streaming? || p.Held?
    case Stopping(at, cause) => !cause.ByLine? && StopPhase(p, at)
    case Closing(at) =>
      if at.MarkFinal? && at.cause.ByLine? then p.Streaming?
      else if at.MarkFinal? && at.cause.ByFail? then WholeStop(p)
      else p.Streaming? || WholeStop(p)
    case Completing(_) => p.Streaming?
    case Ended => p.Streaming? || p.Held? || WholeStop(p)
  }

  predicate WholeStop(p: Phase) { p.Stopped? && p.n == STOP_COUNT }

  predicate StopPhase(p: Phase, at: StopPt) {
    match at
    case StopDecide => p.Streaming? || p.Held?
    case StopCall(hold, n) => if n == 0 then p.Streaming? || p.Held? else n <= STOP_COUNT && p == Stopped(hold, n)
    case StopWait(hold, n) => 1 <= n <= STOP_COUNT && p == Stopped(hold, n)
  }

  predicate InLine(pc: Pc) { pc.Printing? && !pc.l.PersistLine? }

  predicate MayHaveFailedLine(pc: Pc) { pc.Closing? || pc.Ended? }

  /** All but possibly the last of the n lines sent have succeeded and are counted. */
  predicate CountInv(n: nat, pc: Pc, j: JobRec, log: Log) {
    var done := j.index - log.start;
    && j.WellFormed() && log.start <= j.index
    && (if InLine(pc) then n == done + 1 else if MayHaveFailedLine(pc) then done <= n <= done + 1 else n == done)
    && |log.oks| == (if pc == Printing(Advance) then done + 1 else done)
    && (InLine(pc) || (pc.Testing? && !pc.t.Loop?) || pc.Pausing? || pc.Resuming? ==> j.index < j.total)
  }

  /** Nothing more to print: the list is used up, or the next line is empty. */
  predicate NothingLeft(j: JobRec) {
    j.index == j.total || (j.index < |j.lines| && j.lines[j.index] == "")
  }

  /** No final status has been written by the thread yet. */
  predicate Live(pc: Pc) {
    !pc.Ended? && (pc.Closing? ==> pc.c.MarkFinal?) && (pc.Completing? ==> pc.d.Decide?)
  }

  predicate StatusInv(n: nat, pc: Pc, j: JobRec, f: Flags, log: Log) {
    var s := j.status;
    && (Live(pc) ==> log.fired == 0 && !s.COMPLETED? && !s.FAILED? && (s.CANCELLED? ==> f.cancel))
    && (pc.Closing? && !Live(pc) ==> log.fired == 0 && (s.FAILED? || s.CANCELLED?))
    && (pc.Completing? && !Live(pc) ==> s.COMPLETED? && log.fired == if pc.d.FireDone? then 0 else 1)
    && (pc.Ended? && log.fired == 0 ==> f.cancel && !s.COMPLETED? && !s.FAILED?)
    && (pc.Ended? ==> log.fired <= 1) && (log.fired == 1 ==> j.IsTerminal())
    && (pc.Completing? || s.COMPLETED? ==> NothingLeft(j) && n == j.index - log.start)
  }

  /** The invariant at a program point, for a trace in phase p holding n lines. */
  predicate PointInv(p: Phase, n: nat, e: Exec) {
    PhaseInv(p, e.pc, e.flags) && CountInv(n, e.pc, e.job, e.log) && StatusInv(n, e.pc, e.job, e.flags, e.log)
  }

  ghost predicate Consecutive(s: seq<nat>, from: nat) {
    forall k :: 0 <= k < |s| ==> s[k] == from + k
  }

  /** The line has the text it has in the job. */
  predicate LineTextAt(c: Cmd, lines: seq<string>)
    requires c.Line?
  {
    c.index < |lines| && c.text == lines[c.index] && c.text != ""
  }

  ghost predicate LineTexts(t: seq<Cmd>, lines: seq<string>) {
    forall k :: 0 <= k < |t| && t[k].Line? ==> LineTextAt(t[k], lines)
  }

  /** Lines go out in order from the start index, with the job's text, and succeed in the same order. */
  ghost predicate OrderInv(lines: seq<string>, log: Log) {
    Consecutive(LineNos(log.sent), log.start) && Consecutive(log.oks, log.start) && LineTexts(log.sent, lines)
  }

  ghost predicate ExecInv(e: Exec) {
    OrderInv(e.job.lines, e.log) && PointInv(PhaseOf(e.log.sent), |LineNos(e.log.sent)|, e)
  }

  predicate Fresh(j: JobRec) {
    j.WellFormed() && j.status.QUEUED?
  }

  lemma NewExecInv(j: JobRec)
    requires Fresh(j)
    ensures ExecInv(NewExec(j))
  {
  }

  // ---- One own step ----

  /** How sending a command moves the phase and the line count. */
  function PhaseNext(p: Phase, c: Option<Cmd>): Phase {
    if c.Some? then Delta(p, c.value) else p
  }

  function LinesNext(n: nat, c: Option<Cmd>): nat {
    if c.Some? && c.value.Line? then n + 1 else n
  }

  /** What one own step does to the history and to the job's fixed fields. */
  ghost predicate HistoryStep(e: Exec, c: Option<Cmd>, ok: bool, e': Exec) {
    && e'.log.sent == (if c.Some? then e.log.sent + [c.value] else e.log.sent)
    && e'.log.oks == (if ok then e.log.oks + [e.job.index] else e.log.oks)
    && e'.job.index == (if e.pc == Printing(Advance) then e.job.index + 1 else e.job.index)
    && e'.log.start == e.log.start
    && e'.job.(status := e.job.status, reason := e.job.reason, index := e.job.index) == e.job
  }

  predicate LineOk(e: Exec, reply: Reply) { e.pc == Printing(LineWait) && reply.Ok? }

  /** The effect of one own step: history, and the invariant at the next point. */
  ghost predicate Effect(e: Exec, reply: Reply, p: Phase, n: nat, e': Exec) {
    HistoryStep(e, Emits(e), LineOk(e, reply), e') && PointInv(PhaseNext(p, Emits(e)), LinesNext(n, Emits(e)), e')
  }

  lemma StartEffect(e: Exec, at: StartPt, reply: Reply, p: Phase, n: nat)
    requires PointInv(p, n, e) && e.pc == Starting(at)
    ensures Effect(e, reply, p, n, StartStep(e, at))
  {
  }

  lemma TestEffect(e: Exec, at: TestPt, reply: Reply, p: Phase, n: nat)
    requires PointInv(p, n, e) && e.pc == Testing(at) && !at.Fetch?
    ensures Effect(e, reply, p, n, TestStep(e, at))
  {
  }

  lemma FetchEffect(e: Exec, reply: Reply, p: Phase, n: nat)
    requires PointInv(p, n, e) && e.pc == Testing(Fetch)
    ensures Effect(e, reply, p, n, FetchStep(e))
  {
  }

  lemma LineEffect(e: Exec, at: LinePt, reply: Reply, p: Phase, n: nat)
    requires PointInv(p, n, e) && e.pc == Printing(at)
    ensures Effect(e, reply, p, n, LineStep(e, at, reply))
  {
  }

  lemma PauseEffect(e: Exec, at: PausePt, reply: Reply, p: Phase, n: nat)
    requires PointInv(p, n, e) && e.pc == Pausing(at)
    ensures Effect(e, reply, p, n, PauseStep(e, at))
  {
  }

  lemma ResumeEffect(e: Exec, at: ResumePt, reply: Reply, p: Phase, n: nat)
    requires PointInv(p, n, e) && e.pc == Resuming(at)
    ensures Effect(e, reply, p, n, ResumeStep(e, at))
  {
  }

  lemma JumpEffect(e: Exec, reply: Reply, p: Phase, n: nat)
    requires PointInv(p, n, e) && (e.pc.AfterFail? || e.pc.AfterCancel? || e.pc.FailJob? || e.pc.Ended?)
    ensures Effect(e, reply, p, n, Step(e, reply))
  {
  }

  lemma StopEffect(e: Exec, at: StopPt, cause: Cause, reply: Reply, p: Phase, n: nat)
    requires PointInv(p, n, e) && e.pc == Stopping(at, cause)
    ensures Effect(e, reply, p, n, StopStep(e, at, cause))
  {
  }

  lemma CloseEffect(e: Exec, at: ClosePt, reply: Reply, p: Phase, n: nat)
    requires PointInv(p, n, e) && e.pc == Closing(at)
    ensures Effect(e, reply, p, n, CloseStep(e, at))
  {
  }

  lemma DoneEffect(e: Exec, at: DonePt, reply: Reply, p: Phase, n: nat)
    requires PointInv(p, n, e) && e.pc == Completing(at)
    ensures Effect(e, reply, p, n, DoneStep(e, at))
  {
  }

  lemma StepEffect(e: Exec, reply: Reply, p: Phase, n: nat)
    requires PointInv(p, n, e)
    ensures Effect(e, reply, p, n, Step(e, reply))
  {
    match e.pc
    case Starting(at) => StartEffect(e, at, reply, p, n);
    case Testing(at) =>
      if at.Fetch? {
        FetchEffect(e, reply, p, n);
      } else {
        TestEffect(e, at, reply, p, n);
      }
    case Printing(at) => LineEffect(e, at, reply, p, n);
    case Pausing(at) => PauseEffect(e, at, reply, p, n);
    case Resuming(at) => ResumeEffect(e, at, reply, p, n);
    case Stopping(at, cause) => StopEffect(e, at, cause, reply, p, n);
    case Closing(at) => CloseEffect(e, at, reply, p, n);
    case Completing(at) => DoneEffect(e, at, reply, p, n);
    case _ => JumpEffect(e, reply, p, n);
  }

  /** Appending the next line, or the next success, keeps the order facts. */
  lemma OrderExtends(lines: seq<string>, log: Log, log': Log, c: Option<Cmd>, ok: bool)
    requires OrderInv(lines, log)
    requires c.Some? && c.value.Line? ==>
               && c.value.index == log.start + |LineNos(log.sent)| && c.value.index < |lines|
               && c.value.text == lines[c.value.index] && c.value.text != ""
    requires log'.sent == if c.Some? then log.sent + [c.value] else log.sent
    requires log'.oks == if ok then log.oks + [log.start + |log.oks|] else log.oks
    requires log'.start == log.start
    ensures OrderInv(lines, log')
    ensures PhaseOf(log'.sent) == PhaseNext(PhaseOf(log.sent), c)
    ensures |LineNos(log'.sent)| == LinesNext(|LineNos(log.sent)|, c)
  {
    if ok {
      ConsecutiveMore(log.oks, log.start);
    }
    if c.Some? {
      SentExtends(lines, log.start, log.sent, c.value);
    }
  }

  lemma SentExtends(lines: seq<string>, start: nat, sent: seq<Cmd>, c: Cmd)
    requires Consecutive(LineNos(sent), start) && LineTexts(sent, lines)
    requires c.Line? ==>
               && c.index == start + |LineNos(sent)| && c.index < |lines|
               && c.text == lines[c.index] && c.text != ""
    ensures Consecutive(LineNos(sent + [c]), start) && LineTexts(sent + [c], lines)
    ensures PhaseOf(sent + [c]) == Delta(PhaseOf(sent), c)
    ensures |LineNos(sent + [c])| == if c.Line? then |LineNos(sent)| + 1 else |LineNos(sent)|
  {
    PhaseAfter(sent, c);
    LineNosAfter(sent, c);
    LineTextsMore(sent, c, lines);
    if c.Line? {
      ConsecutiveMore(LineNos(sent), start);
    }
  }

  lemma ConsecutiveMore(s: seq<nat>, from: nat)
    requires Consecutive(s, from)
    ensures Consecutive(s + [from + |s|], from)
  {
  }

  lemma LineTextsMore(t: seq<Cmd>, c: Cmd, lines: seq<string>)
    requires LineTexts(t, lines)
    requires c.Line? ==> c.index < |lines| && c.text == lines[c.index] && c.text != ""
    ensures LineTexts(t + [c], lines)
  {
    AppendedAt(t, c);
    forall k | 0 <= k < |t + [c]| && (t + [c])[k].Line?
      ensures LineTextAt((t + [c])[k], lines)
    {
      assert k < |t| ==> (t + [c])[k] == t[k];
    }
  }

  lemma StepKeepsInv(e: Exec, reply: Reply)
    requires ExecInv(e)
    ensures ExecInv(Step(e, reply))
    ensures HistoryStep(e, Emits(e), LineOk(e, reply), Step(e, reply))
  {
    StepEffect(e, reply, PhaseOf(e.log.sent), |LineNos(e.log.sent)|);
    OrderExtends(e.job.lines, e.log, Step(e, reply).log, Emits(e), LineOk(e, reply));
  }

  /** How the program counter moves around the sending and counting of a line, and around a save. */
  lemma StepPoints(e: Exec, reply: Reply)
    ensures Emits(e).Some? && Emits(e).value.Line? <==> Step(e, reply).pc == Printing(LineWait)
    ensures Step(e, reply).pc == Printing(Advance) <==> LineOk(e, reply)
    ensures Step(e, reply).pc == Printing(PersistLine) <==> e.pc == Printing(Advance)
    ensures Saves(e.pc) ==> Step(e, reply).job == e.job && Emits(e).None?
    ensures Emits(e).Some? && Emits(e).value.Line? ==>
              e.job.index < |e.job.lines| && Emits(e).value == Line(e.job.index, e.job.lines[e.job.index])
  {
  }

  // ---- Control calls ----

  lemma ControlEffect(e: Exec, a: Act, p: Phase, n: nat)
    requires PointInv(p, n, e) && !a.Own?
    ensures PointInv(p, n, Apply(e, a))
    ensures Apply(e, a).log == e.log && Apply(e, a).pc == e.pc
    ensures Apply(e, a).job.(status := e.job.status) == e.job
  {
  }

  lemma ApplyKeepsInv(e: Exec, a: Act)
    requires ExecInv(e)
    ensures ExecInv(Apply(e, a))
  {
    if a.Own? {
      StepKeepsInv(e, a.reply);
    } else {
      ControlEffect(e, a, PhaseOf(e.log.sent), |LineNos(e.log.sent)|);
    }
  }

  lemma {:induction false} RunKeepsInv(e: Exec, acts: seq<Act>)
    requires ExecInv(e)
    ensures ExecInv(Run(e, acts))
    decreases |acts|
  {
    if acts != [] {
      ApplyKeepsInv(e, acts[0]);
      RunKeepsInv(Apply(e, acts[0]), acts[1..]);
    }
  }
}
