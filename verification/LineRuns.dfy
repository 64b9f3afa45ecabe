/** A run of a job on the queue in which its line succeeds: the runs of LinePath do reach the printer. */
module LineRuns {
  import opened Basics
  import opened JobModel
  import opened Executor
  import opened LinePath
  import opened Text
  import AckKinds
  import Validator
  import LateOks
  import CP = CommandPath
  import CQ = CommandQueue
  import QI = CommandQueueInvariant
  import SL = SerialLink

  /** These turns lead from j to t. */
  ghost predicate Leads(j: Joint, turns: seq<Turn>, t: Joint, cfg: SL.Config, lim: CQ.Limits) {
    AllCan(j, turns, cfg, lim) && Play(j, turns, cfg, lim) == t
  }

  lemma LeadsOne(j: Joint, t: Turn, cfg: SL.Config, lim: CQ.Limits)
    requires Can(j, t, cfg)
    ensures Leads(j, [t], After(j, t, cfg, lim), cfg, lim)
  {
    assert [t][1..] == [];
    assert AllCan(After(j, t, cfg, lim), [t][1..], cfg, lim);
  }

  lemma LeadsFirst(j: Joint, turns: seq<Turn>, t: Joint, cfg: SL.Config, lim: CQ.Limits)
    requires turns != [] && Can(j, turns[0], cfg) && Leads(After(j, turns[0], cfg, lim), turns[1..], t, cfg, lim)
    ensures Leads(j, turns, t, cfg, lim)
  {
  }

  lemma {:induction false} LeadsOn(j: Joint, a: seq<Turn>, s: Joint, b: seq<Turn>, t: Joint, cfg: SL.Config,
                                   lim: CQ.Limits)
    requires Leads(j, a, s, cfg, lim) && Leads(s, b, t, cfg, lim)
    ensures Leads(j, a + b, t, cfg, lim)
    decreases |a|
  {
    if a == [] {
      assert a + b == b;
    } else {
      LeadsOn(After(j, a[0], cfg, lim), a[1..], s, b, t, cfg, lim);
      RestOfSum(a, b);
      LeadsFirst(j, a + b, t, cfg, lim);
    }
  }

  lemma OneTurn(j: Joint, a: seq<Turn>, s: Joint, m: Turn, cfg: SL.Config, lim: CQ.Limits)
    returns (b: seq<Turn>, t: Joint)
    requires Leads(j, a, s, cfg, lim) && Can(s, m, cfg)
    ensures t == After(s, m, cfg, lim) && Leads(j, b, t, cfg, lim)
  {
    b, t := a + [m], After(s, m, cfg, lim);
    LeadsOne(s, m, cfg, lim);
    LeadsOn(j, a, s, [m], t, cfg, lim);
  }

  /** What happens on the path happens to the job's world. */
  lemma {:induction false} SideRun(j: Joint, moves: seq<CP.Move>, t: CP.Path, cfg: SL.Config, lim: CQ.Limits)
    returns (turns: seq<Turn>)
    requires LateOks.Leads(j.p, moves, t, cfg, lim)
    ensures Leads(j, turns, j.(p := t), cfg, lim)
    decreases |moves|
  {
    if moves == [] {
      return [];
    }
    var s := After(j, Side(moves[0]), cfg, lim);
    var rest := SideRun(s, moves[1..], t, cfg, lim);
    LeadsOne(j, Side(moves[0]), cfg, lim);
    LeadsOn(j, [Side(moves[0])], s, rest, s.(p := t), cfg, lim);
    turns := [Side(moves[0])] + rest;
  }

  /** An own step in which the thread is not at a send. */
  lemma OwnStep(j: Joint, a: seq<Turn>, s: Joint, cfg: SL.Config, lim: CQ.Limits) returns (b: seq<Turn>, t: Joint)
    requires Leads(j, a, s, cfg, lim) && Emits(s.e).None? && !Waits(s.e.pc)
    ensures t == s.(e := Step(s.e, Ok)) && Leads(j, b, t, cfg, lim)
  {
    b, t := OneTurn(j, a, s, Thread(Ok, 0), cfg, lim);
  }

  function OneLine(id: string, line: string): JobRec { NewJob(id, 0, [line]) }

  function AtFetch(id: string, line: string): Exec {
    NewExec(OneLine(id, line)).(job := OneLine(id, line).MarkPrinting(), pc := Testing(Fetch))
  }

  /** The thread gets to its first line. */
  lemma ToFetch(id: string, line: string, p: CP.Path, cfg: SL.Config, lim: CQ.Limits)
    returns (turns: seq<Turn>, t: Joint)
    ensures Leads(Begun(OneLine(id, line), p), turns, t, cfg, lim)
    ensures t == Begun(OneLine(id, line), p).(e := AtFetch(id, line))
  {
    var j := Begun(OneLine(id, line), p);
    turns, t := [], j;
    turns, t := OwnStep(j, turns, t, cfg, lim);
    turns, t := OwnStep(j, turns, t, cfg, lim);
    turns, t := OwnStep(j, turns, t, cfg, lim);
    turns, t := OwnStep(j, turns, t, cfg, lim);
    turns, t := OwnStep(j, turns, t, cfg, lim);
    turns, t := OwnStep(j, turns, t, cfg, lim);
    turns, t := OwnStep(j, turns, t, cfg, lim);
    turns, t := OwnStep(j, turns, t, cfg, lim);
  }

  /** The command of the line on its way through an idle queue to an answering printer. */
  lemma CommandSucceeds(p: CP.Path, x: CQ.Id, ok: string, cfg: SL.Config, lim: CQ.Limits)
    returns (moves: seq<CP.Move>, t: CP.Path)
    requires SL.Proper(cfg) && cfg.maxRetries > 0 && cfg.isAck(ok) && cfg.hasOk(ok) && lim.queueSize > 0
    requires p.(q := CQ.Init(), notes := map[]) == CP.Start()
    requires p.q.queue == [] && p.q.worker.Dead? && p.q.stopper.NotStopping? && x in p.q.log.checked
    ensures LateOks.Leads(p, moves, t, cfg, lim)
    ensures t.q.worker == CQ.Recording(x) && t.done == [x] && t.writer == [x]
  {
    moves, t := [], p;
    moves, t := LateOks.OneMove(p, moves, t, CP.Queue(CQ.Put(x)), cfg, lim);
    moves, t := LateOks.OneMove(p, moves, t, CP.Queue(CQ.StartThread), cfg, lim);
    var b, s1 := LateOks.Sends(t, cfg, lim);
    LateOks.LeadsOn(p, moves, t, b, s1, cfg, lim);
    var c, s2 := LateOks.Writes(s1, cfg, lim);
    LateOks.LeadsOn(p, moves + b, s1, c, s2, cfg, lim);
    var d, s3 := LateOks.Succeeds(s2, SL.SerialLine(ok, 1), cfg, lim);
    LateOks.LeadsOn(p, moves + b + c, s2, d, s3, cfg, lim);
    moves, t := moves + b + c + d, s3;
  }

  lemma AtFetchEmits(id: string, line: string)
    requires line != ""
    ensures Emits(AtFetch(id, line)) == Some(Line(0, line))
    ensures Step(AtFetch(id, line), Ok).pc == Printing(LineWait)
    ensures Step(AtFetch(id, line), Ok).log.oks == [] && Step(AtFetch(id, line), Ok).job.index == 0
  {
  }

  lemma SubmittedFirst(text: string, cfg: SL.Config, lim: CQ.Limits)
    ensures var t := CP.After(CP.Start(), CP.Queue(CQ.Submit(0, text)), cfg, lim);
      && t.(q := CQ.Init(), notes := map[]) == CP.Start()
      && t.q.queue == [] && t.q.worker.Dead? && t.q.stopper.NotStopping? && 0 in t.q.log.checked
  {
  }

  /** A call with a valid text submits it. */
  lemma CallTurn(j: Joint, c: Cmd, text: string, id: CQ.Id, cfg: SL.Config, lim: CQ.Limits)
    requires Emits(j.e) == Some(c) && !Waits(j.e.pc)
    requires Judge(c) == Validator.Accepted(text) && id !in j.p.q.log.status
    ensures Can(j, Thread(Ok, id), cfg)
    ensures After(j, Thread(Ok, id), cfg, lim)
         == Joint(Step(j.e, Ok), CP.After(j.p, CP.Queue(CQ.Submit(id, text)), cfg, lim), j.ids + [Some(id)])
  {
  }

  lemma OnlyOne<T>(x: T)
    ensures [] + [x] == [x]
  {
  }

  ghost predicate IsCalled(t: Joint, text: string, cfg: SL.Config, lim: CQ.Limits) {
    && t.e.pc == Printing(LineWait) && t.e.log.oks == [] && t.e.job.index == 0 && t.ids == [Some(0)]
    && t.p == CP.After(CP.Start(), CP.Queue(CQ.Submit(0, text)), cfg, lim)
  }

  /** The send of the line: a fresh command for the queue, past the test. */
  lemma LineIsCalled(id: string, line: string, text: string, cfg: SL.Config, lim: CQ.Limits)
    returns (turns: seq<Turn>, t: Joint)
    requires Judge(Line(0, line)) == Validator.Accepted(text) && line != ""
    ensures Leads(Begun(OneLine(id, line), CP.Start()), turns, t, cfg, lim) && IsCalled(t, text, cfg, lim)
  {
    var s: Joint;
    turns, s := ToFetch(id, line, CP.Start(), cfg, lim);
    AtFetchEmits(id, line);
    CallTurn(s, Line(0, line), text, 0, cfg, lim);
    OnlyOne<Option<CQ.Id>>(Some(0));
    turns, t := OneTurn(Begun(OneLine(id, line), CP.Start()), turns, s, Thread(Ok, 0), cfg, lim);
  }

  /** The line's command is done, and its send may return. */
  lemma CommandReturns(j: Joint, a: seq<Turn>, s: Joint, b: seq<Turn>, p: CP.Path, cfg: SL.Config, lim: CQ.Limits)
    requires SL.Proper(cfg) && lim.history > 0 && JointInv(j, cfg, lim)
    requires Leads(j, a, s, cfg, lim) && Leads(s, b, s.(p := p), cfg, lim) && 0 in p.done
    ensures Leads(j, a + b, s.(p := p), cfg, lim) && Returns(Some(0), Ok, p.q.log)
  {
    LeadsOn(j, a, s, b, s.(p := p), cfg, lim);
    PlayKeeps(j, a + b, cfg, lim);
    DoneMayReturn(p, 0, cfg, lim);
  }

  lemma CountsLine(j: Joint, a: seq<Turn>, s: Joint, cfg: SL.Config, lim: CQ.Limits)
    returns (turns: seq<Turn>, t: Joint)
    requires Leads(j, a, s, cfg, lim) && s.e.pc == Printing(LineWait) && s.ids == [Some(0)]
    requires Returns(Some(0), Ok, s.p.q.log)
    ensures Leads(j, turns, t, cfg, lim)
    ensures t.e.log.oks == s.e.log.oks + [s.e.job.index] && t.p == s.p && t.ids == s.ids
  {
    turns, t := OneTurn(j, a, s, Thread(Ok, 0), cfg, lim);
  }

  /** What is done is OK, and its put is over. */
  lemma DoneMayReturn(p: CP.Path, x: CQ.Id, cfg: SL.Config, lim: CQ.Limits)
    requires CP.PathInv(p, cfg, lim) && x in p.done
    ensures Returns(Some(x), Ok, p.q.log)
  {
    assert QI.CheckedInv(p.q.log);
  }

  /** From the start, with a printer that answers: any line the validator accepts is sent, written, answered and
      counted. */
  lemma LineCanSucceed(id: string, line: string, text: string, ok: string, cfg: SL.Config, lim: CQ.Limits)
    returns (turns: seq<Turn>)
    requires Judge(Line(0, line)) == Validator.Accepted(text) && line != ""
    requires SL.Proper(cfg) && cfg.maxRetries > 0 && cfg.isAck(ok) && cfg.hasOk(ok)
    requires lim.queueSize > 0 && lim.history > 0
    ensures AllCan(Begun(OneLine(id, line), CP.Start()), turns, cfg, lim)
    ensures var t := Play(Begun(OneLine(id, line), CP.Start()), turns, cfg, lim);
      t.e.log.oks == [0] && |t.p.writer| == 1 && t.ids == [Some(t.p.writer[0])]
  {
    var j := Begun(OneLine(id, line), CP.Start());
    var a, s := LineIsCalled(id, line, text, cfg, lim);
    SubmittedFirst(text, cfg, lim);
    var moves, p := CommandSucceeds(s.p, 0, ok, cfg, lim);
    var b := SideRun(s, moves, p, cfg, lim);
    CP.StartInv(cfg, lim);
    BegunInv(OneLine(id, line), CP.Start(), cfg, lim);
    CommandReturns(j, a, s, b, p, cfg, lim);
    var t;
    turns, t := CountsLine(j, a + b, s.(p := p), cfg, lim);
  }

  /** With the tests of the repository and a printer that answers with any line that is an ok: a line that is a command
      when its outer space is taken off is sent, written, answered and counted. */
  lemma DeployedLineSucceeds(id: string, line: string, text: string, ok: string, lim: CQ.Limits)
    returns (turns: seq<Turn>)
    requires CoreIs(line, text) && Validator.IsCommand(text)
    requires exists i: nat, j: nat :: IsCore(ok, i, j) && AckKinds.SaysOk(ok[i..j])
    requires lim.queueSize > 0 && lim.history > 0
    ensures AllCan(Begun(OneLine(id, line), CP.Start()), turns, SL.Deployed(), lim)
    ensures var t := Play(Begun(OneLine(id, line), CP.Start()), turns, SL.Deployed(), lim);
      t.e.log.oks == [0] && |t.p.writer| == 1 && t.ids == [Some(t.p.writer[0])]
  {
    var i: nat, j: nat :| IsCore(ok, i, j) && AckKinds.SaysOk(ok[i..j]);
    AckKinds.OkIsRouted(ok, i, j);
    SL.DeployedIsProper();
    CommandIsAccepted(line, text);
    turns := LineCanSucceed(id, line, text, ok, SL.Deployed(), lim);
  }

  lemma CommandIsAccepted(line: string, text: string)
    requires CoreIs(line, text) && Validator.IsCommand(text)
    ensures Judge(Line(0, line)) == Validator.Accepted(text) && line != ""
  {
    Validator.AcceptedIff(line, text);
  }

  /** Such as G1 X10, answered by ok or by ok T:200. */
  lemma MoveSucceeds(id: string, ok: string, lim: CQ.Limits) returns (turns: seq<Turn>)
    requires (ok == "ok" || ok == "ok T:200") && lim.queueSize > 0 && lim.history > 0
    ensures AllCan(Begun(OneLine(id, "G1 X10"), CP.Start()), turns, SL.Deployed(), lim)
    ensures Play(Begun(OneLine(id, "G1 X10"), CP.Start()), turns, SL.Deployed(), lim).e.log.oks == [0]
  {
    var line := "G1 X10";
    assert IsCore(line, 0, 6) && line[0..6] == line;
    assert Validator.WordEndsAt(line, 2);
    assert IsCore(ok, 0, |ok|) && ok[0..|ok|] == ok && AckKinds.SaysOk(ok[0..|ok|]);
    turns := DeployedLineSucceeds(id, line, line, ok, lim);
  }
}
