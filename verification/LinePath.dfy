/** A print job on the command queue: the executor's sends are commands of the queue, the queue's sends are those of the
    communicator, and the printer answers (src/jobs/job_executor.py, src/engine/command_engine.py). */
module LinePath {
  import opened Basics
  import opened JobModel
  import opened Executor
  import opened ExecutorProofs
  import opened Validator
  import Text
  import Command
  import CP = CommandPath
  import CQ = CommandQueue
  import QI = CommandQueueInvariant
  import QT = CommandQueueTheorems
  import CW = CommandWorld
  import SL = SerialLink

  type Id = CQ.Id

  /** `ids`: the command each thing the thread has sent became, or none where the validator refused it. */
  datatype Joint = Joint(e: Exec, p: CP.Path, ids: seq<Option<Id>>)

  /** A control call, an own step of the thread, with the id its send draws or the reply its send returns, or anything
      else that happens on the queue and on the line. */
  datatype Turn = Control(act: Act) | Thread(reply: Reply, id: Id) | Side(move: CP.Move)

  /** The thread is inside `engine.send`. */
  predicate Waits(pc: Pc) {
    || pc == Printing(LineWait) || pc == Pausing(PauseWait) || pc == Resuming(ResumeWait)
    || (pc.Stopping? && pc.stop.StopWait?)
  }

  /** How `send` may return: rejected at once, or, when its put is over, with success exactly if the status is OK and
      else with the name of the status. */
  predicate Returns(id: Option<Id>, reply: Reply, log: CQ.Log) {
    match id
    case None => !reply.Ok? && (reply.Refused? ==> reply.statusName == "REJECTED")
    case Some(x) =>
      && x !in log.checked && (reply.Ok? ==> QI.Has(log.status, x, Command.OK))
      && (reply.Refused? ==> x in log.status && log.status[x] != Command.OK
                             && reply.statusName == Command.StatusName(log.status[x]))
  }

  ghost predicate Can(j: Joint, t: Turn, cfg: SL.Config) {
    match t
    case Control(a) => !a.Own?
    case Side(m) => CP.Allowed(j.p, m, cfg)
    case Thread(reply, id) =>
      && (Emits(j.e).Some? ==> id !in j.p.q.log.status)
      && (Waits(j.e.pc) && j.ids != [] ==> Returns(Last(j.ids), reply, j.p.q.log))
  }

  /** `send` is called with a text the validator judges so: a valid one is submitted to the queue. */
  function Called(j: Joint, v: Verdict, id: Id, cfg: SL.Config, lim: CQ.Limits): Joint
    requires id !in j.p.q.log.status
  {
    match v
    case Accepted(text) =>
      j.(p := CP.After(j.p, CP.Queue(CQ.Submit(id, text)), cfg, lim), ids := j.ids + [Some(id)])
    case Refused(_) => j.(ids := j.ids + [None])
  }

  function After(j: Joint, t: Turn, cfg: SL.Config, lim: CQ.Limits): Joint
    requires Can(j, t, cfg)
  {
    match t
    case Control(a) => j.(e := Apply(j.e, a))
    case Side(m) => j.(p := CP.After(j.p, m, cfg, lim))
    case Thread(reply, id) =>
      var j1 := if Emits(j.e).Some? then Called(j, Judge(Emits(j.e).value), id, cfg, lim) else j;
      j1.(e := Step(j.e, reply))
  }

  ghost predicate AllCan(j: Joint, turns: seq<Turn>, cfg: SL.Config, lim: CQ.Limits)
    decreases |turns|
  {
    turns == [] || (Can(j, turns[0], cfg) && AllCan(After(j, turns[0], cfg, lim), turns[1..], cfg, lim))
  }

  function Play(j: Joint, turns: seq<Turn>, cfg: SL.Config, lim: CQ.Limits): Joint
    requires AllCan(j, turns, cfg, lim)
    decreases |turns|
  {
    if turns == [] then j else Play(After(j, turns[0], cfg, lim), turns[1..], cfg, lim)
  }

  /** A thread that begins while the queue and the line are in this state. */
  function Begun(job: JobRec, p: CP.Path): Joint { Joint(NewExec(job), p, []) }

  // ---- The invariant ----

  /** A text the validator judged so is known to the queue under this id, as validated. */
  predicate SentAs(v: Verdict, id: Option<Id>, p: CP.Path) {
    match v
    case Accepted(text) =>
      id.Some? && id.value in p.q.log.status && id.value in p.notes && p.notes[id.value].gcode == text
    case Refused(_) => id.None?
  }

  ghost predicate AllSentAs(verdicts: seq<Verdict>, ids: seq<Option<Id>>, p: CP.Path) {
    |ids| == |verdicts| && forall i :: 0 <= i < |ids| ==> SentAs(verdicts[i], ids[i], p)
  }

  /** What the validator says of a command. */
  function Judge(c: Cmd): Verdict { ValidateCommand(CmdText(c)) }

  function Judged(sent: seq<Cmd>): seq<Verdict> { Mapped(sent, Judge) }

  /** No two sends became the same command. */
  ghost predicate Apart(ids: seq<Option<Id>>) {
    forall i, k :: 0 <= i < k < |ids| && ids[i].Some? ==> ids[i] != ids[k]
  }

  ghost predicate PutsOver(ids: seq<Option<Id>>, upTo: int, checked: set<Id>) {
    forall i :: 0 <= i < upTo && i < |ids| && ids[i].Some? ==> ids[i].value !in checked
  }

  /** Those accepted were accepted in the order of the sends. */
  ghost predicate InPutOrder(ids: seq<Option<Id>>, accepted: seq<Id>) {
    forall i, k :: 0 <= i < k < |ids| && WasAccepted(ids[i], accepted) && WasAccepted(ids[k], accepted) ==>
      QT.Precedes(ids[i].value, ids[k].value, accepted)
  }

  predicate WasAccepted(id: Option<Id>, accepted: seq<Id>) { id.Some? && id.value in accepted }

  /** The i-th send was line n, and its command has succeeded. */
  predicate LineOkAt(sent: seq<Cmd>, ids: seq<Option<Id>>, log: CQ.Log, n: nat, i: nat) {
    && i < |sent| == |ids| && sent[i].Line? && sent[i].index == n
    && ids[i].Some? && QI.Has(log.status, ids[i].value, Command.OK)
  }

  ghost predicate Counted(oks: seq<nat>, sent: seq<Cmd>, ids: seq<Option<Id>>, log: CQ.Log) {
    forall n :: n in oks ==> exists i :: LineOkAt(sent, ids, log, n, i)
  }

  /** The line being waited for is the last thing sent. */
  predicate LineAwaited(e: Exec) {
    e.pc == Printing(LineWait) ==> e.log.sent != [] && Last(e.log.sent).Line? && Last(e.log.sent).index == e.job.index
  }

  /** How many sends have their put behind them. */
  function Over(j: Joint): nat { if Waits(j.e.pc) && j.ids != [] then |j.ids| - 1 else |j.ids| }

  ghost predicate JointInv(j: Joint, cfg: SL.Config, lim: CQ.Limits) {
    && CP.PathInv(j.p, cfg, lim) && ExecInv(j.e) && LineAwaited(j.e)
    && (Waits(j.e.pc) ==> j.ids != [])
    && AllSentAs(Judged(j.e.log.sent), j.ids, j.p) && Apart(j.ids)
    && PutsOver(j.ids, Over(j), j.p.q.log.checked) && InPutOrder(j.ids, j.p.q.log.accepted)
    && Counted(j.e.log.oks, j.e.log.sent, j.ids, j.p.q.log)
  }

  // ---- What a move on the path does to commands that are known ----

  /** Known commands keep their text, a success is kept, and of the commands whose put is over none comes back. */
  ghost predicate Keeps(p: CP.Path, t: CP.Path) {
    && (forall x :: x in p.q.log.status ==> x in t.q.log.status)
    && (forall x :: QI.Has(p.q.log.status, x, Command.OK) ==> QI.Has(t.q.log.status, x, Command.OK))
    && (forall x :: x in p.q.log.status && x in p.notes ==> x in t.notes && t.notes[x].gcode == p.notes[x].gcode)
    && (forall x :: x in p.q.log.status && x !in p.q.log.checked ==> x !in t.q.log.checked)
  }

  /** At most one command has been accepted more, one whose caller was past the test. */
  ghost predicate AcceptsOne(log: CQ.Log, log': CQ.Log) {
    || log'.accepted == log.accepted
    || (|log'.accepted| == |log.accepted| + 1 && log'.accepted == log.accepted + [Last(log'.accepted)]
        && Last(log'.accepted) in log.checked && Last(log'.accepted) !in log.accepted)
  }

  lemma EventKeeps(p: CP.Path, ev: CQ.Event, lim: CQ.Limits)
    requires CQ.Enabled(p.q, ev) && QI.Inv(p.q, lim)
    ensures var t := CP.OnQueue(p, ev, lim); Keeps(p, t) && AcceptsOne(p.q.log, t.q.log)
  {
    StepKeeps(p.q, ev, lim);
    StepAccepts(p.q, ev, lim);
    forall x | x in p.q.log.status && x in p.notes
      ensures var t := CP.OnQueue(p, ev, lim); x in t.notes && t.notes[x].gcode == p.notes[x].gcode
    {
      CW.GcodeLater(CP.WorldOf(p), ev, lim, x);
    }
  }

  lemma StepKeeps(q: CQ.State, ev: CQ.Event, lim: CQ.Limits)
    requires CQ.Enabled(q, ev) && QI.Inv(q, lim)
    ensures var t := CQ.Next(q, ev, lim);
      && (forall x :: x in q.log.status ==> x in t.log.status)
      && (forall x :: QI.Has(q.log.status, x, Command.OK) ==> QI.Has(t.log.status, x, Command.OK))
      && (forall x :: x in q.log.status && x !in q.log.checked ==> x !in t.log.checked)
  {
    QI.StatusEffect(q, ev, lim);
    QI.MarkIsLegal(q, ev, lim);
    QI.CheckedEffect(q, ev, lim);
  }

  lemma StepAccepts(q: CQ.State, ev: CQ.Event, lim: CQ.Limits)
    requires CQ.Enabled(q, ev) && QI.CheckedInv(q.log)
    ensures AcceptsOne(q.log, CQ.Next(q, ev, lim).log)
  {
    QI.QueueEffect(q, ev, lim);
  }

  lemma MoveKeeps(p: CP.Path, m: CP.Move, cfg: SL.Config, lim: CQ.Limits)
    requires CP.Allowed(p, m, cfg) && QI.Inv(p.q, lim)
    ensures Keeps(p, CP.After(p, m, cfg, lim)) && AcceptsOne(p.q.log, CP.After(p, m, cfg, lim).q.log)
  {
    match m
    case Queue(ev) => EventKeeps(p, ev, lim);
    case Line(_) =>
    case Begin => EventKeeps(p, CQ.BeginSend, lim);
    case End(failure) => EventKeeps(p, CQ.EndSend(CP.Outcome(p, failure)), lim);
  }

  // ---- Each turn keeps the invariant ----

  lemma SentAsStays(verdicts: seq<Verdict>, ids: seq<Option<Id>>, p: CP.Path, t: CP.Path)
    requires AllSentAs(verdicts, ids, p) && Keeps(p, t)
    ensures AllSentAs(verdicts, ids, t)
  {
    forall i | 0 <= i < |ids|
      ensures SentAs(verdicts[i], ids[i], t)
    {
      assert SentAs(verdicts[i], ids[i], p);
    }
  }

  /** Commands whose put is over stay so. */
  lemma PutsStayOver(verdicts: seq<Verdict>, ids: seq<Option<Id>>, upTo: int, p: CP.Path, t: CP.Path)
    requires AllSentAs(verdicts, ids, p) && Keeps(p, t) && PutsOver(ids, upTo, p.q.log.checked)
    ensures PutsOver(ids, upTo, t.q.log.checked)
  {
    forall i | 0 <= i < upTo && i < |ids| && ids[i].Some?
      ensures ids[i].value !in t.q.log.checked
    {
      assert SentAs(verdicts[i], ids[i], p);
    }
  }

  /** If one of the sends is accepted now, it is the last one. */
  lemma OrderStays(ids: seq<Option<Id>>, log: CQ.Log, log': CQ.Log)
    requires Apart(ids) && InPutOrder(ids, log.accepted) && AcceptsOne(log, log')
    requires PutsOver(ids, |ids| - 1, log.checked)
    ensures InPutOrder(ids, log'.accepted)
  {
    forall i, k | 0 <= i < k < |ids| && WasAccepted(ids[i], log'.accepted) && WasAccepted(ids[k], log'.accepted)
      ensures QT.Precedes(ids[i].value, ids[k].value, log'.accepted)
    {
      PairStays(ids, log, log', i, k);
    }
  }

  lemma PairStays(ids: seq<Option<Id>>, log: CQ.Log, log': CQ.Log, i: nat, k: nat)
    requires Apart(ids) && InPutOrder(ids, log.accepted) && AcceptsOne(log, log')
    requires PutsOver(ids, |ids| - 1, log.checked)
    requires i < k < |ids| && WasAccepted(ids[i], log'.accepted) && WasAccepted(ids[k], log'.accepted)
    ensures QT.Precedes(ids[i].value, ids[k].value, log'.accepted)
  {
    var x, y := ids[i].value, ids[k].value;
    if log'.accepted != log.accepted {
      var z := Last(log'.accepted);
      assert x != z && x in log.accepted;
      if y == z {
        CP.PrecedesLast(x, y, log'.accepted);
      } else {
        CP.PrecedesMore(x, y, log.accepted, [z]);
      }
    }
  }

  lemma CountedStays(oks: seq<nat>, sent: seq<Cmd>, ids: seq<Option<Id>>, p: CP.Path, t: CP.Path)
    requires Counted(oks, sent, ids, p.q.log) && Keeps(p, t)
    ensures Counted(oks, sent, ids, t.q.log)
  {
    forall n | n in oks
      ensures exists i :: LineOkAt(sent, ids, t.q.log, n, i)
    {
      var i :| LineOkAt(sent, ids, p.q.log, n, i);
      assert LineOkAt(sent, ids, t.q.log, n, i);
    }
  }

  lemma SideKeeps(j: Joint, m: CP.Move, cfg: SL.Config, lim: CQ.Limits)
    requires SL.Proper(cfg) && lim.history > 0 && JointInv(j, cfg, lim) && Can(j, Side(m), cfg)
    ensures JointInv(After(j, Side(m), cfg, lim), cfg, lim)
  {
    var t := CP.After(j.p, m, cfg, lim);
    CP.MoveKeeps(j.p, m, cfg, lim);
    MoveKeeps(j.p, m, cfg, lim);
    SentAsStays(Judged(j.e.log.sent), j.ids, j.p, t);
    PutsStayOver(Judged(j.e.log.sent), j.ids, Over(j), j.p, t);
    OrderStays(j.ids, j.p.q.log, t.q.log);
    CountedStays(j.e.log.oks, j.e.log.sent, j.ids, j.p, t);
  }

  lemma ControlIsQuiet(e: Exec, a: Act)
    requires !a.Own?
    ensures Apply(e, a).log == e.log && Apply(e, a).pc == e.pc && Apply(e, a).job.index == e.job.index
  {
  }

  lemma ControlKeeps(j: Joint, a: Act, cfg: SL.Config, lim: CQ.Limits)
    requires JointInv(j, cfg, lim) && !a.Own?
    ensures JointInv(After(j, Control(a), cfg, lim), cfg, lim)
  {
    ControlIsQuiet(j.e, a);
    ApplyKeepsInv(j.e, a);
  }

  /** The thread is inside a send after it has called one, and only then. */
  lemma StepWaits(e: Exec, reply: Reply)
    ensures Waits(Step(e, reply).pc) <==> Emits(e).Some?
    ensures Emits(e).Some? ==> !Waits(e.pc)
    ensures Step(e, reply).log.sent == if Emits(e).Some? then e.log.sent + [Emits(e).value] else e.log.sent
    ensures Step(e, reply).log.oks == if LineOk(e, reply) then e.log.oks + [e.job.index] else e.log.oks
    ensures LineAwaited(Step(e, reply))
  {
  }

  lemma SubmitIsKnown(p: CP.Path, id: Id, text: string, cfg: SL.Config, lim: CQ.Limits)
    requires SL.Proper(cfg) && lim.history > 0 && CP.PathInv(p, cfg, lim) && id !in p.q.log.status
    ensures var t := CP.After(p, CP.Queue(CQ.Submit(id, text)), cfg, lim);
      && CP.PathInv(t, cfg, lim) && Keeps(p, t) && t.q.log.accepted == p.q.log.accepted
      && id in t.q.log.status && id in t.notes && t.notes[id].gcode == text
  {
    CP.MoveKeeps(p, CP.Queue(CQ.Submit(id, text)), cfg, lim);
    MoveKeeps(p, CP.Queue(CQ.Submit(id, text)), cfg, lim);
  }

  lemma CalledIsKnown(j: Joint, v: Verdict, id: Id, cfg: SL.Config, lim: CQ.Limits)
    requires SL.Proper(cfg) && lim.history > 0 && CP.PathInv(j.p, cfg, lim) && id !in j.p.q.log.status
    ensures var t := Called(j, v, id, cfg, lim);
      && CP.PathInv(t.p, cfg, lim) && Keeps(j.p, t.p) && t.p.q.log.accepted == j.p.q.log.accepted
      && (t.ids == j.ids + [Some(id)] || t.ids == j.ids + [None])
      && SentAs(v, Last(t.ids), t.p)
  {
    match v
    case Accepted(text) =>
      SubmitIsKnown(j.p, id, text, cfg, lim);
      AppendedAt(j.ids, Some(id));
    case Refused(_) => AppendedAt(j.ids, None);
  }

  /** A fresh id is none of those drawn before, and not accepted. */
  lemma FreshIsApart(verdicts: seq<Verdict>, ids: seq<Option<Id>>, p: CP.Path, id: Id, next: Option<Id>)
    requires AllSentAs(verdicts, ids, p) && Apart(ids) && id !in p.q.log.status && QI.CheckedInv(p.q.log)
    requires InPutOrder(ids, p.q.log.accepted) && (next.Some? ==> next.value == id)
    ensures Apart(ids + [next]) && InPutOrder(ids + [next], p.q.log.accepted)
  {
    AppendedAt(ids, next);
    forall i | 0 <= i < |ids| && ids[i].Some?
      ensures ids[i].value != id
    {
      assert SentAs(verdicts[i], ids[i], p);
    }
  }

  /** What the invariant says of the sends and the path, when one more send has been judged and called. */
  ghost predicate SendsOk(sent: seq<Cmd>, verdicts: seq<Verdict>, oks: seq<nat>, ids: seq<Option<Id>>, p: CP.Path,
                          over: nat) {
    && AllSentAs(verdicts, ids, p) && Apart(ids)
    && PutsOver(ids, over, p.q.log.checked) && InPutOrder(ids, p.q.log.accepted)
    && Counted(oks, sent, ids, p.q.log)
  }

  lemma CallSends(j: Joint, c: Cmd, v: Verdict, verdicts: seq<Verdict>, id: Id, cfg: SL.Config, lim: CQ.Limits)
    requires SL.Proper(cfg) && lim.history > 0 && CP.PathInv(j.p, cfg, lim) && id !in j.p.q.log.status
    requires SendsOk(j.e.log.sent, verdicts, j.e.log.oks, j.ids, j.p, |j.ids|)
    ensures var t := Called(j, v, id, cfg, lim);
      && CP.PathInv(t.p, cfg, lim) && |t.ids| == |j.ids| + 1
      && SendsOk(j.e.log.sent + [c], verdicts + [v], j.e.log.oks, t.ids, t.p, |j.ids|)
  {
    var t := Called(j, v, id, cfg, lim);
    CalledIsKnown(j, v, id, cfg, lim);
    FreshIsApart(verdicts, j.ids, j.p, id, Last(t.ids));
    SentAsStays(verdicts, j.ids, j.p, t.p);
    PutsStayOver(verdicts, j.ids, |j.ids|, j.p, t.p);
    CountedStays(j.e.log.oks, j.e.log.sent, j.ids, j.p, t.p);
    OneMoreSent(verdicts, v, j.ids, Last(t.ids), t.p);
    OneMoreCounted(j.e.log.oks, j.e.log.sent, c, j.ids, Last(t.ids), t.p.q.log);
    AppendedAt(j.ids, Last(t.ids));
  }

  lemma CallKeeps(j: Joint, reply: Reply, id: Id, cfg: SL.Config, lim: CQ.Limits)
    requires SL.Proper(cfg) && lim.history > 0 && JointInv(j, cfg, lim)
    requires Can(j, Thread(reply, id), cfg) && Emits(j.e).Some?
    ensures JointInv(After(j, Thread(reply, id), cfg, lim), cfg, lim)
  {
    var c := Emits(j.e).value;
    StepWaits(j.e, reply);
    StepKeepsInv(j.e, reply);
    CallSends(j, c, Judge(c), Judged(j.e.log.sent), id, cfg, lim);
    MappedMore(j.e.log.sent, c, Judge);
  }

  lemma OneMoreSent(verdicts: seq<Verdict>, v: Verdict, ids: seq<Option<Id>>, next: Option<Id>, p: CP.Path)
    requires AllSentAs(verdicts, ids, p) && SentAs(v, next, p)
    ensures AllSentAs(verdicts + [v], ids + [next], p)
  {
    AppendedAt(verdicts, v);
    AppendedAt(ids, next);
  }

  lemma OneMoreCounted(oks: seq<nat>, sent: seq<Cmd>, c: Cmd, ids: seq<Option<Id>>, next: Option<Id>, log: CQ.Log)
    requires Counted(oks, sent, ids, log)
    ensures Counted(oks, sent + [c], ids + [next], log)
  {
    AppendedAt(sent, c);
    AppendedAt(ids, next);
    forall n | n in oks
      ensures exists i :: LineOkAt(sent + [c], ids + [next], log, n, i)
    {
      var i: nat :| LineOkAt(sent, ids, log, n, i);
      assert LineOkAt(sent + [c], ids + [next], log, n, i);
    }
  }

  lemma OneMoreOk(oks: seq<nat>, sent: seq<Cmd>, ids: seq<Option<Id>>, log: CQ.Log, n: nat, i: nat)
    requires Counted(oks, sent, ids, log) && LineOkAt(sent, ids, log, n, i)
    ensures Counted(oks + [n], sent, ids, log)
  {
  }

  /** When a send has returned its put is over. */
  lemma ReturnedIsOver(j: Joint, reply: Reply)
    requires PutsOver(j.ids, Over(j), j.p.q.log.checked)
    requires Waits(j.e.pc) && j.ids != [] ==> Returns(Last(j.ids), reply, j.p.q.log)
    ensures PutsOver(j.ids, |j.ids|, j.p.q.log.checked)
  {
  }

  /** A line whose send has returned with success has its command. */
  lemma ReturnedIsCounted(j: Joint, reply: Reply)
    requires LineAwaited(j.e) && |j.ids| == |j.e.log.sent| && j.ids != [] && LineOk(j.e, reply)
    requires Returns(Last(j.ids), reply, j.p.q.log)
    requires Counted(j.e.log.oks, j.e.log.sent, j.ids, j.p.q.log)
    ensures Counted(j.e.log.oks + [j.e.job.index], j.e.log.sent, j.ids, j.p.q.log)
  {
    OneMoreOk(j.e.log.oks, j.e.log.sent, j.ids, j.p.q.log, j.e.job.index, |j.ids| - 1);
  }

  lemma ReturnKeeps(j: Joint, reply: Reply, id: Id, cfg: SL.Config, lim: CQ.Limits)
    requires JointInv(j, cfg, lim) && Can(j, Thread(reply, id), cfg) && Emits(j.e).None?
    ensures JointInv(After(j, Thread(reply, id), cfg, lim), cfg, lim)
  {
    StepWaits(j.e, reply);
    StepKeepsInv(j.e, reply);
    ReturnedIsOver(j, reply);
    if LineOk(j.e, reply) {
      ReturnedIsCounted(j, reply);
    }
  }

  lemma TurnKeeps(j: Joint, t: Turn, cfg: SL.Config, lim: CQ.Limits)
    requires SL.Proper(cfg) && lim.history > 0 && JointInv(j, cfg, lim) && Can(j, t, cfg)
    ensures JointInv(After(j, t, cfg, lim), cfg, lim)
  {
    match t
    case Control(a) => ControlKeeps(j, a, cfg, lim);
    case Side(m) => SideKeeps(j, m, cfg, lim);
    case Thread(reply, id) =>
      if Emits(j.e).Some? {
        CallKeeps(j, reply, id, cfg, lim);
      } else {
        ReturnKeeps(j, reply, id, cfg, lim);
      }
  }

  lemma {:induction false} PlayKeeps(j: Joint, turns: seq<Turn>, cfg: SL.Config, lim: CQ.Limits)
    requires SL.Proper(cfg) && lim.history > 0 && JointInv(j, cfg, lim) && AllCan(j, turns, cfg, lim)
    ensures JointInv(Play(j, turns, cfg, lim), cfg, lim)
    decreases |turns|
  {
    if turns != [] {
      TurnKeeps(j, turns[0], cfg, lim);
      PlayKeeps(After(j, turns[0], cfg, lim), turns[1..], cfg, lim);
    }
  }

  lemma BegunInv(job: JobRec, p: CP.Path, cfg: SL.Config, lim: CQ.Limits)
    requires Fresh(job) && CP.PathInv(p, cfg, lim)
    ensures JointInv(Begun(job, p), cfg, lim)
  {
    NewExecInv(job);
  }

  // ---- The results ----

  /** A job may begin at any moment in the life of queue and line. */
  ghost predicate Starts(job: JobRec, before: seq<CP.Move>, cfg: SL.Config, lim: CQ.Limits) {
    SL.Proper(cfg) && lim.history > 0 && Fresh(job) && CP.AllAllowed(CP.Start(), before, cfg, lim)
  }

  lemma RunInv(job: JobRec, before: seq<CP.Move>, turns: seq<Turn>, cfg: SL.Config, lim: CQ.Limits)
    requires Starts(job, before, cfg, lim)
    requires AllCan(Begun(job, CP.Play(CP.Start(), before, cfg, lim)), turns, cfg, lim)
    ensures JointInv(Play(Begun(job, CP.Play(CP.Start(), before, cfg, lim)), turns, cfg, lim), cfg, lim)
  {
    CP.StartInv(cfg, lim);
    CP.PlayKeeps(CP.Start(), before, cfg, lim);
    BegunInv(job, CP.Play(CP.Start(), before, cfg, lim), cfg, lim);
    PlayKeeps(Begun(job, CP.Play(CP.Start(), before, cfg, lim)), turns, cfg, lim);
  }

  /** Line n went out as the i-th send of the thread: as command x with the validated text of that very line, written to
      the printer and acknowledged as CommandPath.AcknowledgedAt says. */
  ghost predicate LineAcknowledged(j: Joint, n: nat, i: nat, x: Id, k: nat, cfg: SL.Config) {
    && i < |j.ids| == |j.e.log.sent| && n < |j.e.job.lines|
    && j.e.log.sent[i] == Line(n, j.e.job.lines[n]) && j.ids[i] == Some(x)
    && x in j.p.notes && ValidateCommand(j.e.job.lines[n]) == Accepted(j.p.notes[x].gcode)
    && CP.AcknowledgedAt(j.p, k, x, cfg)
  }

  /** In every run of a job on the queue, whatever other callers, controls and the printer do, every line the job counts
      as succeeded has been acknowledged in this sense. */
  lemma LineIsAcknowledged(job: JobRec, before: seq<CP.Move>, turns: seq<Turn>, cfg: SL.Config, lim: CQ.Limits, n: nat)
    returns (i: nat, x: Id, k: nat)
    requires Starts(job, before, cfg, lim)
    requires AllCan(Begun(job, CP.Play(CP.Start(), before, cfg, lim)), turns, cfg, lim)
    requires n in Play(Begun(job, CP.Play(CP.Start(), before, cfg, lim)), turns, cfg, lim).e.log.oks
    ensures LineAcknowledged(Play(Begun(job, CP.Play(CP.Start(), before, cfg, lim)), turns, cfg, lim), n, i, x, k, cfg)
  {
    RunInv(job, before, turns, cfg, lim);
    var j := Play(Begun(job, CP.Play(CP.Start(), before, cfg, lim)), turns, cfg, lim);
    i, x, k := CountedIsAcknowledged(j, n, cfg, lim);
  }

  lemma CountedIsAcknowledged(j: Joint, n: nat, cfg: SL.Config, lim: CQ.Limits) returns (i: nat, x: Id, k: nat)
    requires JointInv(j, cfg, lim) && n in j.e.log.oks
    ensures LineAcknowledged(j, n, i, x, k, cfg)
  {
    i :| LineOkAt(j.e.log.sent, j.ids, j.p.q.log, n, i);
    x := j.ids[i].value;
    assert Judged(j.e.log.sent)[i] == Judge(j.e.log.sent[i]);
    assert SentAs(Judged(j.e.log.sent)[i], j.ids[i], j.p);
    k := CP.AcknowledgedHere(j.p, cfg, lim, x);
  }

  /** Of two sends of the thread, be they lines, pauses, resumes or stops, every write of the first comes before every
      write of the second. */
  lemma WritesInLineOrder(job: JobRec, before: seq<CP.Move>, turns: seq<Turn>, cfg: SL.Config, lim: CQ.Limits,
                          i: nat, k: nat, a: nat, b: nat)
    requires Starts(job, before, cfg, lim)
    requires AllCan(Begun(job, CP.Play(CP.Start(), before, cfg, lim)), turns, cfg, lim)
    requires var j := Play(Begun(job, CP.Play(CP.Start(), before, cfg, lim)), turns, cfg, lim);
      && i < k < |j.ids| && a < |j.p.writer| && b < |j.p.writer|
      && j.ids[i] == Some(j.p.writer[a]) && j.ids[k] == Some(j.p.writer[b])
    ensures a < b
  {
    RunInv(job, before, turns, cfg, lim);
    WritesInSendOrder(Play(Begun(job, CP.Play(CP.Start(), before, cfg, lim)), turns, cfg, lim), cfg, lim, i, k, a, b);
  }

  lemma WritesInSendOrder(j: Joint, cfg: SL.Config, lim: CQ.Limits, i: nat, k: nat, a: nat, b: nat)
    requires JointInv(j, cfg, lim) && i < k < |j.ids| && a < |j.p.writer| && b < |j.p.writer|
    requires j.ids[i] == Some(j.p.writer[a]) && j.ids[k] == Some(j.p.writer[b])
    ensures a < b && j.p.writer[a] != j.p.writer[b]
  {
    WrittenIsAccepted(j.p, cfg, lim, a);
    WrittenIsAccepted(j.p, cfg, lim, b);
    CP.WritesFollowAcceptance(j.p, cfg, lim, a, b);
  }

  /** The position of a line among the sends goes with its number. */
  lemma {:induction false} LineNoAt(t: seq<Cmd>, i: nat, from: nat)
    requires Consecutive(LineNos(t), from) && i < |t| && t[i].Line?
    ensures t[i].index == from + |LineNos(t[..i])|
  {
    var front := Front(t);
    assert t == front + [Last(t)];
    LineNosAfter(front, Last(t));
    if i < |front| {
      assert Consecutive(LineNos(front), from) by {
        assert forall m :: 0 <= m < |LineNos(front)| ==> LineNos(front)[m] == LineNos(t)[m];
      }
      LineNoAt(front, i, from);
      assert front[..i] == t[..i];
    } else {
      assert t[..i] == front;
      assert LineNos(t)[|LineNos(front)|] == t[i].index;
    }
  }

  lemma {:induction false} FewerBefore(t: seq<Cmd>, i: nat, k: nat)
    requires i <= k <= |t|
    ensures |LineNos(t[..i])| <= |LineNos(t[..k])|
    decreases k
  {
    if i < k {
      FewerBefore(t, i, k - 1);
      assert t[..k] == t[..k - 1] + [t[k - 1]];
      LineNosAfter(t[..k - 1], t[k - 1]);
    }
  }

  lemma LaterLineIsLater(e: Exec, i: nat, k: nat)
    requires ExecInv(e) && i < |e.log.sent| && k < |e.log.sent| && e.log.sent[i].Line? && e.log.sent[k].Line?
    requires e.log.sent[i].index < e.log.sent[k].index
    ensures i < k
  {
    LineNoAt(e.log.sent, i, e.log.start);
    LineNoAt(e.log.sent, k, e.log.start);
    if k <= i {
      FewerBefore(e.log.sent, k, i);
    }
  }

  /** So the lines of a job reach the printer in the order of their numbers, with all their retries. */
  lemma LinesReachPrinterInOrder(job: JobRec, before: seq<CP.Move>, turns: seq<Turn>, cfg: SL.Config, lim: CQ.Limits,
                                 i: nat, k: nat, a: nat, b: nat)
    requires Starts(job, before, cfg, lim)
    requires AllCan(Begun(job, CP.Play(CP.Start(), before, cfg, lim)), turns, cfg, lim)
    requires var j := Play(Begun(job, CP.Play(CP.Start(), before, cfg, lim)), turns, cfg, lim);
      WritesOfLines(j, i, k, a, b) && j.e.log.sent[i].index < j.e.log.sent[k].index
    ensures a < b
  {
    RunInv(job, before, turns, cfg, lim);
    var j := Play(Begun(job, CP.Play(CP.Start(), before, cfg, lim)), turns, cfg, lim);
    LaterLineIsLater(j.e, i, k);
    WritesInSendOrder(j, cfg, lim, i, k, a, b);
  }

  /** The i-th and the k-th sends are lines, and these two writes are writes of their commands. */
  predicate WritesOfLines(j: Joint, i: nat, k: nat, a: nat, b: nat) {
    && i < |j.ids| == |j.e.log.sent| && k < |j.ids| && j.e.log.sent[i].Line? && j.e.log.sent[k].Line?
    && a < |j.p.writer| && b < |j.p.writer|
    && j.ids[i] == Some(j.p.writer[a]) && j.ids[k] == Some(j.p.writer[b])
  }

  lemma WrittenIsAccepted(p: CP.Path, cfg: SL.Config, lim: CQ.Limits, a: nat)
    requires CP.PathInv(p, cfg, lim) && a < |p.writer|
    ensures p.writer[a] in p.q.log.accepted
  {
    QI.WireFromPopped(p.q);
    assert p.writer[a] in QI.Chosen(p.q);
  }

  // ---- A line that is refused ----

  /** The thread closes the run as failed for this reason. */
  predicate ClosesFor(e: Exec, why: string) { e.pc == Closing(MarkFinal(ByLine(why))) }

  lemma RefusedStep(e: Exec, name: string)
    requires ExecInv(e) && e.pc == Printing(LineWait)
    ensures e.job.index < |e.job.lines|
    ensures ClosesFor(Step(e, Reply.Refused(name)), "Rejected " + Text.Repr(e.job.lines[e.job.index]) + ": " + name)
  {
  }

  /** When the send of a line comes back refused, the job fails for the line as it stands in the job and the status its
      command has in the queue then, or REJECTED when the validator did not let it through. */
  lemma RefusedLineSays(j: Joint, name: string, id: Id, cfg: SL.Config, lim: CQ.Limits)
    requires JointInv(j, cfg, lim) && Can(j, Thread(Reply.Refused(name), id), cfg) && j.e.pc == Printing(LineWait)
    ensures j.ids != [] && j.e.job.index < |j.e.job.lines|
    ensures Last(j.ids).Some? ==> Last(j.ids).value in j.p.q.log.status
    ensures var t := After(j, Thread(Reply.Refused(name), id), cfg, lim);
      var status := if Last(j.ids).None? then "REJECTED"
                    else Command.StatusName(j.p.q.log.status[Last(j.ids).value]);
      ClosesFor(t.e, "Rejected " + Text.Repr(j.e.job.lines[j.e.job.index]) + ": " + status)
  {
    RefusedStep(j.e, name);
    StepWaits(j.e, Reply.Refused(name));
  }
}
