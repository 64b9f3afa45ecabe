/** The texts a run hands to `engine.send`, written out (src/jobs/job_executor.py). */
module ExecutorTexts {
  import opened Basics
  import opened JobModel
  import opened Executor
  import opened ExecutorProofs
  import opened ExecutorTheorems
  import opened ExecutorEnds

  // ---- The texts of a run ----

  /** The lines from..to of the job in order, once each, with any number of pauses that were resumed in between. */
  ghost predicate IsStream(t: seq<string>, lines: seq<string>, from: nat, to: nat) {
    && from <= to <= |lines|
    && (|| (t == [] && from == to)
        || (t != [] && from < to && Last(t) == lines[to - 1] && IsStream(Front(t), lines, from, to - 1))
        || (|t| >= 2 && t[|t| - 2] == "M25" && t[|t| - 1] == "M24" && IsStream(t[..|t| - 2], lines, from, to)))
  }

  /** What the safe stop sends first: it holds the printer in its pause, or takes it out of it. */
  function StopStart(hold: bool): string { if hold then "M25" else "M24" }

  /** The first n texts of a safe stop. */
  function StopBegin(hold: bool, n: nat): seq<string>
    requires n <= 4
  {
    [StopStart(hold), "M104 S0", "M140 S0", "M84"][..n]
  }

  lemma StreamLine(t: seq<string>, lines: seq<string>, from: nat, to: nat)
    requires IsStream(t, lines, from, to) && to < |lines|
    ensures IsStream(t + [lines[to]], lines, from, to + 1)
  {
    assert Front(t + [lines[to]]) == t;
  }

  lemma StreamPause(t: seq<string>, lines: seq<string>, from: nat, to: nat)
    requires IsStream(t, lines, from, to)
    ensures IsStream(t + ["M25"] + ["M24"], lines, from, to)
  {
    var more := t + ["M25"] + ["M24"];
    assert more[..|more| - 2] == t;
  }

  lemma ConsecutiveFront(s: seq<nat>, x: nat, from: nat)
    requires Consecutive(s + [x], from)
    ensures Consecutive(s, from) && x == from + |s|
  {
    AppendedAt(s, x);
    assert (s + [x])[|s|] == from + |s|;
    forall k | 0 <= k < |s|
      ensures s[k] == from + k
    {
      assert (s + [x])[k] == from + k;
    }
  }

  /** A trace that ends with a line, or with a pause and its resume, without that end. */
  lemma WithoutLine(t: seq<Cmd>, lines: seq<string>, from: nat)
    requires t != [] && Last(t).Line? && Consecutive(LineNos(t), from) && LineTexts(t, lines)
    ensures Consecutive(LineNos(Front(t)), from) && LineTexts(Front(t), lines)
    ensures |LineNos(t)| == |LineNos(Front(t))| + 1 && from + |LineNos(Front(t))| < |lines|
    ensures CmdTexts(t) == CmdTexts(Front(t)) + [lines[from + |LineNos(Front(t))|]]
  {
    FrontAndLast(t);
    LineTextsFront(Front(t), [Last(t)], lines);
    ConsecutiveFront(LineNos(Front(t)), Last(t).index, from);
    assert t[|t| - 1].Line?;
  }

  lemma WithoutPause(t: seq<Cmd>, lines: seq<string>)
    requires |t| >= 2 && Last(t).Resume? && t[|t| - 2].Pause? && LineTexts(t, lines)
    ensures var less := t[..|t| - 2];
      && LineTexts(less, lines) && LineNos(t) == LineNos(less) && CmdTexts(t) == CmdTexts(less) + ["M25"] + ["M24"]
  {
    var less := t[..|t| - 2];
    assert t == less + [Pause] + [Resume] == less + [Pause, Resume];
    LineTextsFront(less, [Pause, Resume], lines);
    LineNosAfter(less, Pause);
    LineNosAfter(less + [Pause], Resume);
    CmdTextsGrow(less, Pause, "M25");
    CmdTextsGrow(less + [Pause], Resume, "M24");
  }

  /** The texts of the trace are a stream of its lines. */
  ghost predicate Streams(t: seq<Cmd>, lines: seq<string>, from: nat) {
    IsStream(CmdTexts(t), lines, from, from + |LineNos(t)|)
  }

  lemma StreamsByLine(t: seq<Cmd>, less: seq<Cmd>, lines: seq<string>, from: nat)
    requires |LineNos(t)| == |LineNos(less)| + 1 && from + |LineNos(less)| < |lines|
    requires CmdTexts(t) == CmdTexts(less) + [lines[from + |LineNos(less)|]]
    requires Streams(less, lines, from)
    ensures Streams(t, lines, from)
  {
    StreamLine(CmdTexts(less), lines, from, from + |LineNos(less)|);
  }

  lemma StreamsByPause(t: seq<Cmd>, less: seq<Cmd>, lines: seq<string>, from: nat)
    requires LineNos(t) == LineNos(less) && CmdTexts(t) == CmdTexts(less) + ["M25"] + ["M24"]
    requires Streams(less, lines, from)
    ensures Streams(t, lines, from)
  {
    StreamPause(CmdTexts(less), lines, from, from + |LineNos(t)|);
  }

  /** The body of a trace of tags, as texts. */
  lemma {:induction false} BodyIsStream(t: seq<Cmd>, lines: seq<string>, from: nat)
    requires IsBody(t) && Consecutive(LineNos(t), from) && LineTexts(t, lines) && from <= |lines|
    ensures Streams(t, lines, from)
  {
    if t == [] {
    } else if Last(t).Line? {
      WithoutLine(t, lines, from);
      BodyIsStream(Front(t), lines, from);
      StreamsByLine(t, Front(t), lines, from);
    } else {
      WithoutPause(t, lines);
      BodyIsStream(t[..|t| - 2], lines, from);
      StreamsByPause(t, t[..|t| - 2], lines, from);
    }
  }

  /** One more text for each command. */
  lemma {:induction false} TextsAppend(a: seq<Cmd>, b: seq<Cmd>)
    ensures CmdTexts(a + b) == CmdTexts(a) + CmdTexts(b) && |CmdTexts(b)| == |b|
  {
    if b == [] {
      assert a + b == a;
    } else {
      TextsAppend(a, Front(b));
      assert Front(a + b) == a + Front(b);
    }
  }

  lemma {:induction false} StopTextsOf(hold: bool, n: nat)
    requires n <= 4
    ensures CmdTexts(StopCmds(hold, n)) == StopBegin(hold, n)
  {
    if n > 0 {
      StopTextsOf(hold, n - 1);
      assert Front(StopCmds(hold, n)) == StopCmds(hold, n - 1) && Last(StopCmds(hold, n)) == Stop(hold, n - 1);
      assert StopBegin(hold, n) == StopBegin(hold, n - 1) + [CmdText(Stop(hold, n - 1))];
    }
  }

  lemma {:induction false} LineNosAppend(a: seq<Cmd>, b: seq<Cmd>)
    requires forall k :: 0 <= k < |b| ==> !b[k].Line?
    ensures LineNos(a + b) == LineNos(a)
  {
    if b == [] {
      assert a + b == a;
    } else {
      assert Last(b) == b[|b| - 1];
      LineNosAppend(a, Front(b));
      assert Front(a + b) == a + Front(b);
    }
  }

  lemma LineTextsFront(a: seq<Cmd>, b: seq<Cmd>, lines: seq<string>)
    requires LineTexts(a + b, lines)
    ensures LineTexts(a, lines)
  {
    forall k | 0 <= k < |a| && a[k].Line?
      ensures LineTextAt(a[k], lines)
    {
      assert (a + b)[k] == a[k];
    }
  }

  lemma OpenText(open: bool)
    ensures CmdTexts(OpenPause(open)) == if open then ["M25"] else []
  {
    assert Front([Pause]) == [];
  }

  /** The lines from..to with their pauses, then possibly an M25 left open, then the beginning of a stop. */
  ghost predicate Spelled(texts: seq<string>, lines: seq<string>, from: nat, to: nat, stream: seq<string>,
      open: bool, hold: bool, stops: nat)
  {
    && stops <= 4 && IsStream(stream, lines, from, to)
    && texts == stream + (if open then ["M25"] else []) + StopBegin(hold, stops)
  }

  function OpenPause(open: bool): seq<Cmd> { if open then [Pause] else [] }

  lemma TailTexts(body: seq<Cmd>, open: bool, hold: bool, stops: nat)
    requires stops <= 4
    ensures CmdTexts(body + OpenPause(open) + StopCmds(hold, stops))
         == CmdTexts(body) + (if open then ["M25"] else []) + StopBegin(hold, stops)
  {
    TextsAppend(body + OpenPause(open), StopCmds(hold, stops));
    TextsAppend(body, OpenPause(open));
    OpenText(open);
    StopTextsOf(hold, stops);
  }

  lemma TailHasNoLine(body: seq<Cmd>, open: bool, hold: bool, stops: nat, lines: seq<string>)
    requires LineTexts(body + OpenPause(open) + StopCmds(hold, stops), lines)
    ensures LineNos(body + OpenPause(open) + StopCmds(hold, stops)) == LineNos(body) && LineTexts(body, lines)
  {
    LineNosAppend(body + OpenPause(open), StopCmds(hold, stops));
    LineNosAppend(body, OpenPause(open));
    LineTextsFront(body + OpenPause(open), StopCmds(hold, stops), lines);
    LineTextsFront(body, OpenPause(open), lines);
  }

  lemma GrammarTexts(lines: seq<string>, log: Log, body: seq<Cmd>, open: bool, hold: bool, stops: nat)
    requires OrderInv(lines, log) && log.start <= |lines| && InGrammar(log.sent, body, open, hold, stops)
    ensures Spelled(CmdTexts(log.sent), lines, log.start, log.start + |LineNos(log.sent)|, CmdTexts(body),
                    open, hold, stops)
  {
    TailTexts(body, open, hold, stops);
    TailHasNoLine(body, open, hold, stops, lines);
    BodyIsStream(body, lines, log.start);
  }

  /** The texts of every run of a job: its lines in order from where it starts, once each, with pairs of M25 and M24
      between them, then at most one M25 that is left open, then the beginning of the safe stop, which is whole or
      absent when the run has ended. */
  lemma TextGrammar(j: JobRec, acts: seq<Act>)
      returns (stream: seq<string>, to: nat, open: bool, hold: bool, stops: nat)
    requires Fresh(j)
    ensures var e := Run(NewExec(j), acts);
      && Spelled(CmdTexts(e.log.sent), j.lines, j.index, to, stream, open, hold, stops)
      && e.job.index <= to <= e.job.index + 1
      && (e.pc.Ended? ==> stops == 0 || stops == 4)
  {
    var e := Run(NewExec(j), acts);
    RunIs(j, acts);
    var body;
    body, open, hold, stops := TraceGrammar(j, acts);
    GrammarTexts(j.lines, e.log, body, open, hold, stops);
    stream, to := CmdTexts(body), j.index + |LineNos(e.log.sent)|;
  }

  lemma RunIs(j: JobRec, acts: seq<Act>)
    requires Fresh(j)
    ensures var e := Run(NewExec(j), acts);
      && OrderInv(j.lines, e.log) && e.log.start == j.index <= |j.lines|
      && e.job.index <= j.index + |LineNos(e.log.sent)| <= e.job.index + 1
  {
    NewExecInv(j);
    RunKeepsInv(NewExec(j), acts);
    RunKeepsJob(NewExec(j), acts);
  }

  lemma TextAt(t: seq<Cmd>, k: nat)
    requires k < |t|
    ensures |CmdTexts(t)| == |t| && CmdTexts(t)[k] == CmdText(t[k])
  {
    var before, after := t[..k], t[k + 1..];
    assert t == before + ([t[k]] + after);
    TextsAppend(before, [t[k]] + after);
    TextsAppend([t[k]], after);
    TextsAppend([], before);
    OneText(t[k]);
    assert [] + before == before;
  }

  lemma OneText(c: Cmd)
    ensures CmdTexts([c]) == [CmdText(c)]
  {
    assert Front([c]) == [];
  }

  /** What each command of a run is to the printer: a line of the job as it stands in the job, M25 for a pause, M24 for
      a resume; and between a pause and a line sent after it there is an M24. */
  lemma PauseTexts(j: JobRec, acts: seq<Act>, a: nat, b: nat) returns (k: nat)
    requires Fresh(j)
    requires a < b < |Run(NewExec(j), acts).log.sent|
    requires Run(NewExec(j), acts).log.sent[a].Pause? && Run(NewExec(j), acts).log.sent[b].Line?
    ensures var e := Run(NewExec(j), acts);
      var texts := CmdTexts(e.log.sent);
      && a < k < b && |texts| == |e.log.sent|
      && texts[a] == "M25" && texts[k] == "M24"
      && e.log.sent[b].index < |j.lines| && texts[b] == j.lines[e.log.sent[b].index]
  {
    var t := Run(NewExec(j), acts).log.sent;
    RunIs(j, acts);
    k := NoLineInPause(j, acts, a, b);
    TextAt(t, a);
    TextAt(t, k);
    TextAt(t, b);
  }

  // ---- Which way a stop leaves the printer ----

  /** In this phase of the trace and at this point: the stop under way, or over, started as `preserve` asks for. */
  predicate StartedAs(p: Phase, pc: Pc, preserve: bool) {
    && (p.Stopped? ==> p.hold == preserve)
    && (pc.Stopping? ==> match pc.stop
                         case StopDecide => true
                         case StopCall(hold, _) => hold == preserve
                         case StopWait(hold, _) => hold == preserve)
  }

  /** And one still to come will. */
  ghost predicate Preserves(e: Exec, preserve: bool) {
    e.flags.preserve == preserve && StartedAs(PhaseOf(e.log.sent), e.pc, preserve)
  }

  lemma StepStartsAs(e: Exec, reply: Reply, p: Phase)
    requires StartedAs(p, e.pc, e.flags.preserve)
    ensures StartedAs(PhaseNext(p, Emits(e)), Step(e, reply).pc, e.flags.preserve)
    ensures Step(e, reply).flags == e.flags
  {
  }

  lemma StepSends(e: Exec, reply: Reply)
    ensures Step(e, reply).log.sent == if Emits(e).Some? then e.log.sent + [Emits(e).value] else e.log.sent
  {
  }

  lemma ControlStartsAs(e: Exec, a: Act)
    requires !a.Own? && !a.ReqCancel?
    ensures Apply(e, a).log == e.log && Apply(e, a).pc == e.pc && Apply(e, a).flags.preserve == e.flags.preserve
  {
  }

  lemma PreservesStays(e: Exec, a: Act, preserve: bool)
    requires Preserves(e, preserve) && !a.ReqCancel?
    ensures Preserves(Apply(e, a), preserve)
  {
    if a.Own? {
      StepSends(e, a.reply);
      StepStartsAs(e, a.reply, PhaseOf(e.log.sent));
      if Emits(e).Some? {
        PhaseAfter(e.log.sent, Emits(e).value);
      }
    } else {
      ControlStartsAs(e, a);
    }
  }

  lemma {:induction false} PreservesRun(e: Exec, acts: seq<Act>, preserve: bool)
    requires Preserves(e, preserve) && NeverCancelled(acts)
    ensures Preserves(Run(e, acts), preserve)
    decreases |acts|
  {
    if acts != [] {
      assert !acts[0].ReqCancel?;
      PreservesStays(e, acts[0], preserve);
      PreservesRun(Apply(e, acts[0]), acts[1..], preserve);
    }
  }

  /** The stop has not begun to send. */
  ghost predicate StopAhead(e: Exec) {
    !PhaseOf(e.log.sent).Stopped? && (e.pc.Stopping? ==> e.pc.stop.StopDecide?)
  }

  lemma StopTextsAre(t: seq<Cmd>)
    requires WholeStop(PhaseOf(t))
    ensures exists rest :: CmdTexts(t) == rest + [StopStart(PhaseOf(t).hold), "M104 S0", "M140 S0", "M84"]
  {
    StoppedTexts(t, PhaseOf(t).hold, STOP_COUNT);
    var rest :| CmdTexts(t) == rest + StopTexts(PhaseOf(t).hold)[..STOP_COUNT];
    assert StopTexts(PhaseOf(t).hold)[..STOP_COUNT] == [StopStart(PhaseOf(t).hold), "M104 S0", "M140 S0", "M84"];
  }

  /** A cancel that comes before the stop has begun decides how it starts: if the run then sends a whole stop and is not
      cancelled again, the stop starts with M25 if the pause is to be preserved, with M24 if not. */
  lemma StopStartsAsAsked(e: Exec, preserve: bool, acts: seq<Act>) returns (rest: seq<string>)
    requires StopAhead(e) && NeverCancelled(acts)
    requires HasStop(Run(CancelReq(e, preserve), acts))
    ensures CmdTexts(Run(CancelReq(e, preserve), acts).log.sent)
         == rest + [if preserve then "M25" else "M24", "M104 S0", "M140 S0", "M84"]
  {
    var c := CancelReq(e, preserve);
    PreservesRun(c, acts, preserve);
    StopTextsAre(Run(c, acts).log.sent);
    rest :| CmdTexts(Run(c, acts).log.sent)
         == rest + [StopStart(PhaseOf(Run(c, acts).log.sent).hold), "M104 S0", "M140 S0", "M84"];
  }

  /** A job that is never cancelled, but fails, is stopped with M25. */
  lemma FailedStopHolds(j: JobRec, acts: seq<Act>) returns (rest: seq<string>)
    requires NeverCancelled(acts) && HasStop(Run(NewExec(j), acts))
    ensures CmdTexts(Run(NewExec(j), acts).log.sent) == rest + ["M25", "M104 S0", "M140 S0", "M84"]
  {
    PreservesRun(NewExec(j), acts, true);
    StopTextsAre(Run(NewExec(j), acts).log.sent);
    rest :| CmdTexts(Run(NewExec(j), acts).log.sent)
         == rest + [StopStart(PhaseOf(Run(NewExec(j), acts).log.sent).hold), "M104 S0", "M140 S0", "M84"];
  }
}
