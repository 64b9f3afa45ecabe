/** The command queue and the serial line working together: the worker's send is the communicator's, and the printer
    answers as in AckSync (src/engine/queue_processor.py, src/hardware/printer_communicator.py). */
module CommandPath {
  import opened Basics
  import opened Command
  import CQ = CommandQueue
  import QI = CommandQueueInvariant
  import QT = CommandQueueTheorems
  import CW = CommandWorld
  import SL = SerialLink
  import AS = AckSync

  type Id = CQ.Id

  /** How many writes and timed-out attempts there had been when a send began. */
  datatype Mark = Mark(writes: nat, timeouts: nat)

  /** `notes`: what the entry of each command says. `writer`: whose write was the n-th one. `begun`: the mark of
      the send in progress. `done`: the commands whose send has succeeded, in order, and `marks` where they began. */
  datatype Path = Path(
    q: CQ.State,
    link: SL.Link,
    notes: map<Id, CW.Note>,
    writer: seq<Id>,
    begun: Mark,
    done: seq<Id>,
    marks: seq<Mark>)

  /** The queue with its entries. */
  function WorldOf(p: Path): CW.World { CW.World(p.q, p.notes) }

  /** An event of the queue changes the queue and what its entries say. */
  function OnQueue(p: Path, ev: CQ.Event, lim: CQ.Limits): Path
    requires CQ.Enabled(p.q, ev)
  {
    p.(q := CQ.Next(p.q, ev, lim), notes := CW.NotesAfter(WorldOf(p), ev, lim))
  }

  /** A step of the queue, a step on the line, the worker entering send_command, and its return; `failure` is how it
      fails when it does. */
  datatype Move = Queue(ev: CQ.Event) | Line(line: SL.Event) | Begin | End(failure: CQ.Sent)

  function Start(): Path { Path(CQ.Init(), SL.Start(), map[], [], Mark(0, 0), [], []) }

  /** Runs stop short of a reconnect, and the printer keeps its promise. */
  ghost predicate Allowed(p: Path, m: Move, cfg: SL.Config) {
    match m
    case Queue(ev) => CQ.Enabled(p.q, ev) && !ev.BeginSend? && !ev.EndSend? && !ev.Reconnect?
    case Line(ev) => SL.Enabled(p.link, ev) && AS.Faithful(p.link, ev, cfg) && !ev.Send?
    case Begin => p.q.worker.Picked? && p.link.comm.Idle?
    case End(failure) => p.q.worker.Sending? && p.link.comm.Idle? && !failure.Acknowledged?
  }

  function Texts(lines: seq<SL.SerialLine>): seq<string> {
    seq(|lines|, k requires 0 <= k < |lines| => lines[k].text)
  }

  predicate Succeeded(p: Path) { |p.link.results| > |p.done| }

  /** What send_command comes back with. */
  function Outcome(p: Path, failure: CQ.Sent): CQ.Sent {
    if Succeeded(p) then CQ.Acknowledged(Texts(Last(p.link.results).responses)) else failure
  }

  function After(p: Path, m: Move, cfg: SL.Config, lim: CQ.Limits): Path
    requires Allowed(p, m, cfg)
  {
    match m
    case Queue(ev) => OnQueue(p, ev, lim)
    case Line(ev) =>
      p.(link := SL.Next(p.link, ev, cfg),
         writer := if ev.Write? && ev.success && p.q.worker.Sending? then p.writer + [p.q.worker.entry] else p.writer)
    case Begin =>
      OnQueue(p, CQ.BeginSend, lim).(link := SL.Next(p.link, SL.Send, cfg),
                                     begun := Mark(p.link.writes, p.link.timeouts))
    case End(failure) =>
      var t := OnQueue(p, CQ.EndSend(Outcome(p, failure)), lim);
      if Succeeded(p) then t.(done := p.done + [p.q.worker.entry], marks := p.marks + [p.begun]) else t
  }

  ghost predicate AllAllowed(p: Path, moves: seq<Move>, cfg: SL.Config, lim: CQ.Limits)
    decreases |moves|
  {
    moves == [] || (Allowed(p, moves[0], cfg) && AllAllowed(After(p, moves[0], cfg, lim), moves[1..], cfg, lim))
  }

  function Play(p: Path, moves: seq<Move>, cfg: SL.Config, lim: CQ.Limits): Path
    requires AllAllowed(p, moves, cfg, lim)
    decreases |moves|
  {
    if moves == [] then p else Play(After(p, moves[0], cfg, lim), moves[1..], cfg, lim)
  }

  /** The writes for x are those from this one up to that one. */
  ghost predicate WrittenBetween(writer: seq<Id>, x: Id, from: nat, to: nat) {
    from <= to <= |writer| && forall i :: 0 <= i < |writer| ==> (writer[i] == x <==> from <= i < to)
  }

  /** The line works for the worker's send and for nothing else. */
  ghost predicate LineInv(p: Path) {
    && |p.writer| == p.link.writes && !p.link.comm.Flushing?
    && |p.done| <= |p.link.results|
    && (if p.q.worker.Sending? then
          && |p.link.results| <= |p.done| + 1
          && (!p.link.comm.Idle? ==> |p.link.results| == |p.done|)
          && p.begun.writes <= p.link.writes && (p.link.comm.Reading? ==> p.begun.writes < p.link.writes)
          && (Succeeded(p) ==> p.begun.writes < p.link.results[|p.done|].write == p.link.writes)
        else p.link.comm.Idle? && |p.link.results| == |p.done|)
  }

  /** Every write was for a command that reached the wire; those from the last Begin on are for the one being sent. */
  ghost predicate WriterInv(p: Path) {
    && (forall i :: 0 <= i < |p.writer| ==> p.writer[i] in p.q.log.wire)
    && (p.q.worker.Sending? ==>
          && WrittenBetween(p.writer, p.q.worker.entry, p.begun.writes, |p.writer|)
          && p.begun.writes == |p.done| + p.begun.timeouts)
  }

  /** The k-th success: its command, where its writes are, and what had happened before it. */
  ghost predicate DoneAt(writer: seq<Id>, x: Id, mark: Mark, r: SL.Result, k: nat) {
    WrittenBetween(writer, x, mark.writes, r.write) && mark.writes < r.write && mark.writes == k + mark.timeouts
  }

  ghost predicate Successes(writer: seq<Id>, done: seq<Id>, marks: seq<Mark>, results: seq<SL.Result>) {
    && |done| == |marks| && |done| <= |results|
    && forall k :: 0 <= k < |done| ==> DoneAt(writer, done[k], marks[k], results[k], k)
  }

  /** `done` holds exactly the commands whose status is OK. */
  ghost predicate DoneIsOk(done: seq<Id>, status: map<Id, CommandStatus>) {
    forall x :: x in done <==> x in status && status[x] == OK
  }

  ghost predicate DoneInv(p: Path) {
    Successes(p.writer, p.done, p.marks, p.link.results) && DoneIsOk(p.done, p.q.log.status)
  }

  /** The entry of each of them says what the communicator's reply to it was. */
  ghost predicate RepliesInv(p: Path) {
    && CW.Known(WorldOf(p)) && |p.done| <= |p.link.results|
    && (forall x :: x in p.done ==> x in p.q.log.status)
    && forall k :: 0 <= k < |p.done| ==> SaysReply(p.notes, p.done[k], p.link.results[k])
  }

  predicate SaysReply(notes: map<Id, CW.Note>, x: Id, r: SL.Result) {
    x in notes && notes[x].responses == Texts(r.responses)
  }

  /** The writes are in the order of this list of commands. */
  ghost predicate OrderedOn(writer: seq<Id>, wire: seq<Id>) {
    forall a, b :: 0 <= a < b < |writer| ==> writer[a] == writer[b] || QT.Precedes(writer[a], writer[b], wire)
  }

  ghost predicate OrderInv(p: Path) {
    && OrderedOn(p.writer, p.q.log.wire)
    && (p.q.worker.Sending? ==> p.q.log.wire != [] && Last(p.q.log.wire) == p.q.worker.entry)
  }

  ghost predicate PathInv(p: Path, cfg: SL.Config, lim: CQ.Limits) {
    QI.Inv(p.q, lim) && AS.SyncInv(p.link, cfg) && LineInv(p) && WriterInv(p) && DoneInv(p) && OrderInv(p)
    && RepliesInv(p)
  }

  lemma MarkKeepsDone(done: seq<Id>, status: map<Id, CommandStatus>, e: Id, c: CommandStatus)
    requires DoneIsOk(done, status) && e !in done
    ensures DoneIsOk(if c == OK then done + [e] else done, status[e := c])
  {
  }

  lemma QueueKeepsLine(p: Path, ev: CQ.Event, cfg: SL.Config, lim: CQ.Limits)
    requires Allowed(p, Queue(ev), cfg) && LineInv(p)
    ensures LineInv(After(p, Queue(ev), cfg, lim))
  {
    var w, w' := p.q.worker, CQ.Next(p.q, ev, lim).worker;
    assert w.Sending? <==> w'.Sending?;
    assert w.Sending? ==> w' == w;
  }

  lemma QueueKeepsDone(p: Path, ev: CQ.Event, cfg: SL.Config, lim: CQ.Limits)
    requires Allowed(p, Queue(ev), cfg) && DoneInv(p) && QI.Inv(p.q, lim)
    ensures DoneInv(After(p, Queue(ev), cfg, lim))
  {
    MarkedIsNotDone(p, ev, lim);
    QI.StatusEffect(p.q, ev, lim);
    var m := QI.Marked(p.q, ev, lim);
    if m.Some? {
      NotMarkedOk(p.q, ev, lim);
      MarkKeepsDone(p.done, p.q.log.status, m.value.0, m.value.1);
    }
  }

  lemma NotMarkedOk(q: CQ.State, ev: CQ.Event, lim: CQ.Limits)
    requires CQ.Enabled(q, ev) && !ev.EndSend? && QI.Marked(q, ev, lim).Some?
    ensures QI.Marked(q, ev, lim).value.1 != OK
  {
  }

  lemma LineKeepsLine(p: Path, ev: SL.Event, cfg: SL.Config, lim: CQ.Limits)
    requires Allowed(p, Line(ev), cfg) && LineInv(p)
    ensures LineInv(After(p, Line(ev), cfg, lim))
  {
  }

  /** A write of the command being sent is none of another command. */
  lemma WriteKeepsBetween(writer: seq<Id>, e: Id, x: Id, from: nat, to: nat)
    requires WrittenBetween(writer, x, from, to) && x != e
    ensures WrittenBetween(writer + [e], x, from, to)
  {
  }

  lemma WriteExtends(writer: seq<Id>, e: Id, from: nat)
    requires WrittenBetween(writer, e, from, |writer|)
    ensures WrittenBetween(writer + [e], e, from, |writer + [e]|)
  {
  }

  lemma LineKeepsDone(p: Path, ev: SL.Event, cfg: SL.Config, lim: CQ.Limits)
    requires Allowed(p, Line(ev), cfg) && LineInv(p) && DoneInv(p) && QI.WorkerStatus(p.q.worker, p.q.log.status)
    ensures DoneInv(After(p, Line(ev), cfg, lim))
  {
    var t := After(p, Line(ev), cfg, lim);
    assert p.link.results <= t.link.results;
    forall k | 0 <= k < |t.done|
      ensures DoneAt(t.writer, t.done[k], t.marks[k], t.link.results[k], k)
    {
      assert DoneAt(p.writer, p.done[k], p.marks[k], p.link.results[k], k);
      if t.writer != p.writer {
        assert p.done[k] in p.done;
        WriteKeepsBetween(p.writer, p.q.worker.entry, p.done[k], p.marks[k].writes, p.link.results[k].write);
      }
    }
  }

  lemma LineKeepsWriter(p: Path, ev: SL.Event, cfg: SL.Config, lim: CQ.Limits)
    requires Allowed(p, Line(ev), cfg) && LineInv(p) && WriterInv(p) && QI.Inv(p.q, lim)
    ensures WriterInv(After(p, Line(ev), cfg, lim))
  {
    if ev.Write? && ev.success && p.q.worker.Sending? {
      SentIsWired(p.q, lim);
      WriteExtends(p.writer, p.q.worker.entry, p.begun.writes);
    }
  }

  lemma SentIsWired(q: CQ.State, lim: CQ.Limits)
    requires QI.Inv(q, lim) && q.worker.Sending?
    ensures q.worker.entry in q.log.wire
  {
  }

  lemma QueueKeepsWriter(p: Path, ev: CQ.Event, cfg: SL.Config, lim: CQ.Limits)
    requires Allowed(p, Queue(ev), cfg) && WriterInv(p)
    ensures WriterInv(After(p, Queue(ev), cfg, lim))
  {
    var q, q' := p.q, CQ.Next(p.q, ev, lim);
    assert q'.log.wire == q.log.wire && (q.worker.Sending? <==> q'.worker.Sending?);
    assert q.worker.Sending? ==> q'.worker == q.worker;
  }

  lemma BeginKeepsWriter(p: Path, cfg: SL.Config, lim: CQ.Limits)
    requires Allowed(p, Begin, cfg) && LineInv(p) && WriterInv(p) && QI.Inv(p.q, lim) && AS.CountInv(p.link)
    ensures WriterInv(After(p, Begin, cfg, lim))
  {
    QT.WiredOnce(p.q, lim, p.q.worker.entry);
  }

  lemma EndKeepsWriter(p: Path, failure: CQ.Sent, cfg: SL.Config, lim: CQ.Limits)
    requires Allowed(p, End(failure), cfg) && WriterInv(p)
    ensures WriterInv(After(p, End(failure), cfg, lim))
  {
  }

  lemma BeginKeepsLine(p: Path, cfg: SL.Config, lim: CQ.Limits)
    requires Allowed(p, Begin, cfg) && LineInv(p)
    ensures LineInv(After(p, Begin, cfg, lim))
  {
  }

  lemma BeginKeepsDone(p: Path, cfg: SL.Config, lim: CQ.Limits)
    requires Allowed(p, Begin, cfg) && DoneInv(p) && QI.WorkerStatus(p.q.worker, p.q.log.status)
    ensures DoneInv(After(p, Begin, cfg, lim))
  {
    MarkKeepsDone(p.done, p.q.log.status, p.q.worker.entry, SENT);
  }

  lemma EndKeepsLine(p: Path, failure: CQ.Sent, cfg: SL.Config, lim: CQ.Limits)
    requires Allowed(p, End(failure), cfg) && LineInv(p)
    ensures LineInv(After(p, End(failure), cfg, lim))
  {
  }

  lemma EndKeepsDone(p: Path, failure: CQ.Sent, cfg: SL.Config, lim: CQ.Limits)
    requires Allowed(p, End(failure), cfg) && LineInv(p) && WriterInv(p) && DoneInv(p)
    requires QI.WorkerStatus(p.q.worker, p.q.log.status)
    ensures DoneInv(After(p, End(failure), cfg, lim))
  {
    var t := After(p, End(failure), cfg, lim);
    forall k | 0 <= k < |t.done|
      ensures DoneAt(t.writer, t.done[k], t.marks[k], t.link.results[k], k)
    {
      assert k < |p.done| ==> DoneAt(p.writer, p.done[k], p.marks[k], p.link.results[k], k);
    }
    MarkKeepsDone(p.done, p.q.log.status, p.q.worker.entry, if Succeeded(p) then OK else FAILED);
  }

  // ---- What the entries say ----

  /** An event that marks none of the commands that are done leaves their entries alone. */
  lemma EventKeepsReplies(p: Path, ev: CQ.Event, lim: CQ.Limits)
    requires CQ.Enabled(p.q, ev) && QI.Inv(p.q, lim) && RepliesInv(p)
    requires var m := QI.Marked(p.q, ev, lim); m.Some? ==> m.value.0 !in p.done
    ensures RepliesInv(OnQueue(p, ev, lim))
  {
    var t := OnQueue(p, ev, lim);
    assert WorldOf(t) == CW.Happen(WorldOf(p), ev, lim);
    CW.KnownKept(WorldOf(p), ev, lim);
    QI.StatusEffect(p.q, ev, lim);
    forall k | 0 <= k < |p.done|
      ensures SaysReply(t.notes, p.done[k], p.link.results[k])
    {
      assert p.done[k] in p.done && SaysReply(p.notes, p.done[k], p.link.results[k]);
      CW.NotesFollowMarks(WorldOf(p), ev, lim, p.done[k]);
    }
  }

  lemma MarkedIsNotDone(p: Path, ev: CQ.Event, lim: CQ.Limits)
    requires CQ.Enabled(p.q, ev) && QI.Inv(p.q, lim) && DoneInv(p)
    ensures var m := QI.Marked(p.q, ev, lim); m.Some? ==> m.value.0 !in p.done
  {
    CW.MarkedIsOpen(p.q, ev, lim);
  }

  lemma LineKeepsReplies(p: Path, ev: SL.Event, cfg: SL.Config, lim: CQ.Limits)
    requires Allowed(p, Line(ev), cfg) && RepliesInv(p)
    ensures RepliesInv(After(p, Line(ev), cfg, lim))
  {
    var t := After(p, Line(ev), cfg, lim);
    assert p.link.results <= t.link.results;
    forall k | 0 <= k < |p.done|
      ensures SaysReply(t.notes, p.done[k], t.link.results[k])
    {
      assert SaysReply(p.notes, p.done[k], p.link.results[k]);
    }
  }

  lemma QueueKeepsReplies(p: Path, ev: CQ.Event, cfg: SL.Config, lim: CQ.Limits)
    requires Allowed(p, Queue(ev), cfg) && QI.Inv(p.q, lim) && DoneInv(p) && RepliesInv(p)
    ensures RepliesInv(After(p, Queue(ev), cfg, lim))
  {
    MarkedIsNotDone(p, ev, lim);
    EventKeepsReplies(p, ev, lim);
  }

  lemma BeginKeepsReplies(p: Path, cfg: SL.Config, lim: CQ.Limits)
    requires Allowed(p, Begin, cfg) && QI.Inv(p.q, lim) && DoneInv(p) && RepliesInv(p)
    ensures RepliesInv(After(p, Begin, cfg, lim))
  {
    MarkedIsNotDone(p, CQ.BeginSend, lim);
    EventKeepsReplies(p, CQ.BeginSend, lim);
    assert SL.Next(p.link, SL.Send, cfg).results == p.link.results;
  }

  /** The entry of a command whose send has succeeded takes over the lines of the communicator's reply. */
  lemma EntryTakesReply(p: Path, failure: CQ.Sent, lim: CQ.Limits)
    requires p.q.worker.Sending? && p.q.worker.entry in p.notes && LineInv(p) && Succeeded(p)
    ensures var t := OnQueue(p, CQ.EndSend(Outcome(p, failure)), lim);
      SaysReply(t.notes, p.q.worker.entry, p.link.results[|p.done|])
  {
  }

  lemma OneMoreReply(p: Path, e: Id, mark: Mark)
    requires RepliesInv(p) && |p.done| < |p.link.results| && SaysReply(p.notes, e, p.link.results[|p.done|])
    ensures RepliesInv(p.(done := p.done + [e], marks := p.marks + [mark]))
  {
    assert e in WorldOf(p).notes.Keys;
    AppendedAt(p.done, e);
    forall k | 0 <= k < |p.done + [e]|
      ensures SaysReply(p.notes, (p.done + [e])[k], p.link.results[k])
    {
      assert k < |p.done| ==> SaysReply(p.notes, p.done[k], p.link.results[k]);
    }
  }

  lemma SentIsKnown(p: Path)
    requires CW.Known(WorldOf(p)) && p.q.worker.Sending? && QI.WorkerStatus(p.q.worker, p.q.log.status)
    ensures p.q.worker.entry in p.notes
  {
    assert p.q.worker.entry in WorldOf(p).notes.Keys;
  }

  lemma EndKeepsReplies(p: Path, failure: CQ.Sent, cfg: SL.Config, lim: CQ.Limits)
    requires Allowed(p, End(failure), cfg) && QI.Inv(p.q, lim) && LineInv(p) && DoneInv(p) && RepliesInv(p)
    ensures RepliesInv(After(p, End(failure), cfg, lim))
  {
    var ev := CQ.EndSend(Outcome(p, failure));
    MarkedIsNotDone(p, ev, lim);
    EventKeepsReplies(p, ev, lim);
    if Succeeded(p) {
      SentIsKnown(p);
      EntryTakesReply(p, failure, lim);
      OneMoreReply(OnQueue(p, ev, lim), p.q.worker.entry, p.begun);
    }
  }

  lemma MoveKeepsReplies(p: Path, m: Move, cfg: SL.Config, lim: CQ.Limits)
    requires Allowed(p, m, cfg) && QI.Inv(p.q, lim) && LineInv(p) && DoneInv(p) && RepliesInv(p)
    ensures RepliesInv(After(p, m, cfg, lim))
  {
    match m
    case Queue(ev) => QueueKeepsReplies(p, ev, cfg, lim);
    case Line(ev) => LineKeepsReplies(p, ev, cfg, lim);
    case Begin => BeginKeepsReplies(p, cfg, lim);
    case End(failure) => EndKeepsReplies(p, failure, cfg, lim);
  }

  lemma LinkOfBegin(p: Path, m: Move, cfg: SL.Config, lim: CQ.Limits)
    requires SL.Proper(cfg) && Allowed(p, m, cfg) && AS.SyncInv(p.link, cfg)
    ensures AS.SyncInv(After(p, m, cfg, lim).link, cfg)
  {
    if m.Line? {
      AS.NextKeepsSync(p.link, m.line, cfg);
    } else if m.Begin? {
      AS.NextKeepsSync(p.link, SL.Send, cfg);
    }
  }

  lemma QueueOf(p: Path, m: Move, cfg: SL.Config, lim: CQ.Limits)
    requires lim.history > 0 && Allowed(p, m, cfg) && QI.Inv(p.q, lim)
    ensures QI.Inv(After(p, m, cfg, lim).q, lim)
  {
    match m
    case Queue(ev) => QI.NextKeepsInv(p.q, ev, lim);
    case Line(_) =>
    case Begin => QI.NextKeepsInv(p.q, CQ.BeginSend, lim);
    case End(failure) => QI.NextKeepsInv(p.q, CQ.EndSend(Outcome(p, failure)), lim);
  }

  lemma PrecedesMore(x: Id, y: Id, whole: seq<Id>, more: seq<Id>)
    requires QT.Precedes(x, y, whole)
    ensures QT.Precedes(x, y, whole + more)
  {
    var i, j :| 0 <= i < j < |whole| && whole[i] == x && whole[j] == y;
    assert (whole + more)[i] == x && (whole + more)[j] == y;
  }

  lemma PrecedesLast(x: Id, y: Id, whole: seq<Id>)
    requires x in whole && whole != [] && Last(whole) == y && x != y
    ensures QT.Precedes(x, y, whole)
  {
    var i :| 0 <= i < |whole| && whole[i] == x;
    assert whole[i] == x && whole[|whole| - 1] == y;
  }

  lemma OrderedOnMore(writer: seq<Id>, wire: seq<Id>, x: Id)
    requires OrderedOn(writer, wire)
    ensures OrderedOn(writer, wire + [x])
  {
    forall a, b | 0 <= a < b < |writer| && writer[a] != writer[b]
      ensures QT.Precedes(writer[a], writer[b], wire + [x])
    {
      PrecedesMore(writer[a], writer[b], wire, [x]);
    }
  }

  lemma WriteKeepsOrder(writer: seq<Id>, wire: seq<Id>, e: Id)
    requires OrderedOn(writer, wire) && wire != [] && Last(wire) == e
    requires forall i :: 0 <= i < |writer| ==> writer[i] in wire
    ensures OrderedOn(writer + [e], wire)
  {
    forall a | 0 <= a < |writer| && writer[a] != e
      ensures QT.Precedes(writer[a], e, wire)
    {
      PrecedesLast(writer[a], e, wire);
    }
  }

  lemma MoveKeepsOrder(p: Path, m: Move, cfg: SL.Config, lim: CQ.Limits)
    requires Allowed(p, m, cfg) && WriterInv(p) && OrderInv(p)
    ensures OrderInv(After(p, m, cfg, lim))
  {
    match m
    case Queue(ev) => QueueKeepsWriter(p, ev, cfg, lim); SameWire(p.q, ev, lim);
    case Line(ev) =>
      if ev.Write? && ev.success && p.q.worker.Sending? {
        WriteKeepsOrder(p.writer, p.q.log.wire, p.q.worker.entry);
      }
    case Begin => OrderedOnMore(p.writer, p.q.log.wire, p.q.worker.entry);
    case End(_) =>
  }

  lemma SameWire(q: CQ.State, ev: CQ.Event, lim: CQ.Limits)
    requires CQ.Enabled(q, ev) && !ev.BeginSend? && !ev.EndSend?
    ensures var t := CQ.Next(q, ev, lim);
      t.log.wire == q.log.wire && (t.worker.Sending? ==> t.worker == q.worker)
  {
  }

  lemma MoveKeeps(p: Path, m: Move, cfg: SL.Config, lim: CQ.Limits)
    requires SL.Proper(cfg) && lim.history > 0 && Allowed(p, m, cfg) && PathInv(p, cfg, lim)
    ensures PathInv(After(p, m, cfg, lim), cfg, lim)
  {
    QueueOf(p, m, cfg, lim);
    LinkOfBegin(p, m, cfg, lim);
    MoveKeepsOrder(p, m, cfg, lim);
    MoveKeepsReplies(p, m, cfg, lim);
    match m
    case Queue(ev) =>
      QueueKeepsLine(p, ev, cfg, lim);
      QueueKeepsWriter(p, ev, cfg, lim);
      QueueKeepsDone(p, ev, cfg, lim);
    case Line(ev) =>
      LineKeepsLine(p, ev, cfg, lim);
      LineKeepsWriter(p, ev, cfg, lim);
      LineKeepsDone(p, ev, cfg, lim);
    case Begin =>
      BeginKeepsLine(p, cfg, lim);
      BeginKeepsWriter(p, cfg, lim);
      BeginKeepsDone(p, cfg, lim);
    case End(failure) =>
      EndKeepsLine(p, failure, cfg, lim);
      EndKeepsWriter(p, failure, cfg, lim);
      EndKeepsDone(p, failure, cfg, lim);
  }

  lemma {:induction false} PlayKeeps(p: Path, moves: seq<Move>, cfg: SL.Config, lim: CQ.Limits)
    requires SL.Proper(cfg) && lim.history > 0 && AllAllowed(p, moves, cfg, lim) && PathInv(p, cfg, lim)
    ensures PathInv(Play(p, moves, cfg, lim), cfg, lim)
    decreases |moves|
  {
    if moves != [] {
      MoveKeeps(p, moves[0], cfg, lim);
      PlayKeeps(After(p, moves[0], cfg, lim), moves[1..], cfg, lim);
    }
  }

  /** The k-th success is that of x: x was written and its send ended by a line with ok. That line answers a write of x,
      its first attempt or a retry, if and only if at least as many oks had been lost as attempts had timed out before
      the send began; it answers the last write if and only if as many had been lost as had timed out in all. */
  ghost predicate AcknowledgedAt(p: Path, k: nat, x: Id, cfg: SL.Config) {
    && k < |p.done| == |p.marks| <= |p.link.results| && p.done[k] == x
    && var r, before := p.link.results[k], p.marks[k].timeouts;
       && r.responses != [] && SL.Ok(Last(r.responses), cfg)
       && x in p.notes && p.notes[x].responses == Texts(r.responses)
       && 0 < Last(r.responses).ackOf <= r.write <= |p.writer| && p.writer[r.write - 1] == x
       && (p.writer[Last(r.responses).ackOf - 1] == x <==> r.lostOks >= before)
       && (Last(r.responses).ackOf == r.write <==> r.lostOks == r.timeouts)
  }

  /** In every such run a command whose status is OK, which is what a succeeded `send` reports, has been acknowledged in
      this sense. */
  lemma OkIsAcknowledged(moves: seq<Move>, cfg: SL.Config, lim: CQ.Limits, x: Id) returns (k: nat)
    requires SL.Proper(cfg) && lim.history > 0 && AllAllowed(Start(), moves, cfg, lim)
    requires QI.Has(Play(Start(), moves, cfg, lim).q.log.status, x, OK)
    ensures AcknowledgedAt(Play(Start(), moves, cfg, lim), k, x, cfg)
  {
    StartInv(cfg, lim);
    PlayKeeps(Start(), moves, cfg, lim);
    k := AcknowledgedHere(Play(Start(), moves, cfg, lim), cfg, lim, x);
  }

  lemma StartInv(cfg: SL.Config, lim: CQ.Limits)
    requires SL.Proper(cfg)
    ensures PathInv(Start(), cfg, lim)
  {
    QI.InitInv(lim);
    AS.StartSync(cfg);
  }

  lemma AcknowledgedHere(p: Path, cfg: SL.Config, lim: CQ.Limits, x: Id) returns (k: nat)
    requires PathInv(p, cfg, lim) && QI.Has(p.q.log.status, x, OK)
    ensures AcknowledgedAt(p, k, x, cfg)
  {
    assert x in p.done;
    k :| 0 <= k < |p.done| && p.done[k] == x;
    assert DoneAt(p.writer, p.done[k], p.marks[k], p.link.results[k], k);
    assert AS.ResultOk(p.link.results[k], k, cfg);
    assert SaysReply(p.notes, p.done[k], p.link.results[k]);
  }

  // ---- The order of the writes ----

  lemma CountedTwice(s: seq<Id>, i: nat, j: nat)
    requires i < j < |s| && s[i] == s[j]
    ensures QI.Copies(s, s[i]) >= 2
  {
    assert s == s[..j] + s[j..];
    assert s[..j][i] == s[i] && s[j..][0] == s[i];
  }

  lemma OneOrder(whole: seq<Id>, x: Id, y: Id)
    requires QI.Copies(whole, x) <= 1 && QI.Copies(whole, y) <= 1 && QT.Precedes(x, y, whole)
    ensures !QT.Precedes(y, x, whole)
  {
    var i, j :| 0 <= i < j < |whole| && whole[i] == x && whole[j] == y;
    if k, l :| 0 <= k < l < |whole| && whole[k] == y && whole[l] == x {
      if k < j {
        CountedTwice(whole, k, j);
      } else if j < k {
        CountedTwice(whole, j, k);
      } else {
        CountedTwice(whole, i, l);
      }
    }
  }

  /** Of two commands, the one accepted first is written first, whatever retries there are. */
  lemma WritesFollowAcceptance(p: Path, cfg: SL.Config, lim: CQ.Limits, a: nat, b: nat)
    requires PathInv(p, cfg, lim) && a < |p.writer| && b < |p.writer|
    requires QT.Precedes(p.writer[a], p.writer[b], p.q.log.accepted)
    ensures a < b
  {
    var x, y, log := p.writer[a], p.writer[b], p.q.log;
    assert QI.Places(p.q, x) == QI.Copies(log.accepted, x) && QI.Places(p.q, y) == QI.Copies(log.accepted, y);
    OneOrder(log.accepted, x, y);
    if b < a && x != y {
      WireInAcceptedOrder(p.q, lim, y, x);
    }
  }

  lemma WireInAcceptedOrder(q: CQ.State, lim: CQ.Limits, x: Id, y: Id)
    requires QI.Inv(q, lim) && QT.Precedes(x, y, q.log.wire)
    ensures QT.Precedes(x, y, q.log.accepted)
  {
    QT.KeptInOrder(QI.Popped(q), q.log.drained, q.log.wire, q.log.accepted);
    var i, j :| 0 <= i < j < |q.log.wire| && q.log.wire[i] == x && q.log.wire[j] == y;
  }
}
