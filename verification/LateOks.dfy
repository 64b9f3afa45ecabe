/** A run in which one command's late ok ends the next command (src/hardware/printer_communicator.py). */
module LateOks {
  import opened Basics
  import opened Command
  import opened CommandPath
  import CQ = CommandQueue
  import SL = SerialLink
  import DQ = DropQueue

  /** These moves lead from p to t. */
  ghost predicate Leads(p: Path, moves: seq<Move>, t: Path, cfg: SL.Config, lim: CQ.Limits) {
    AllAllowed(p, moves, cfg, lim) && Play(p, moves, cfg, lim) == t
  }

  lemma LeadsOne(p: Path, m: Move, cfg: SL.Config, lim: CQ.Limits)
    requires Allowed(p, m, cfg)
    ensures Leads(p, [m], After(p, m, cfg, lim), cfg, lim)
  {
    assert [m][1..] == [];
    assert AllAllowed(After(p, m, cfg, lim), [m][1..], cfg, lim);
  }

  lemma LeadsFirst(p: Path, moves: seq<Move>, t: Path, cfg: SL.Config, lim: CQ.Limits)
    requires moves != [] && Allowed(p, moves[0], cfg) && Leads(After(p, moves[0], cfg, lim), moves[1..], t, cfg, lim)
    ensures Leads(p, moves, t, cfg, lim)
  {
  }

  lemma {:induction false} LeadsOn(p: Path, a: seq<Move>, s: Path, b: seq<Move>, t: Path, cfg: SL.Config,
                                   lim: CQ.Limits)
    requires Leads(p, a, s, cfg, lim) && Leads(s, b, t, cfg, lim)
    ensures Leads(p, a + b, t, cfg, lim)
    decreases |a|
  {
    if a == [] {
      assert a + b == b;
    } else {
      LeadsOn(After(p, a[0], cfg, lim), a[1..], s, b, t, cfg, lim);
      RestOfSum(a, b);
      LeadsFirst(p, a + b, t, cfg, lim);
    }
  }

  lemma OneMove(p: Path, a: seq<Move>, s: Path, m: Move, cfg: SL.Config, lim: CQ.Limits) returns (b: seq<Move>, t: Path)
    requires Leads(p, a, s, cfg, lim) && Allowed(s, m, cfg)
    ensures t == After(s, m, cfg, lim) && Leads(p, b, t, cfg, lim)
  {
    b, t := a + [m], After(s, m, cfg, lim);
    LeadsOne(s, m, cfg, lim);
    LeadsOn(p, a, s, [m], t, cfg, lim);
  }

  /** Two commands wait in this order. */
  lemma TwoWait(x: Id, y: Id, cfg: SL.Config, lim: CQ.Limits) returns (moves: seq<Move>, t: Path)
    requires x != y && lim.queueSize >= 2
    ensures Leads(Start(), moves, t, cfg, lim)
    ensures t.q.queue == [x, y] && t.q.worker.Dead? && t.q.stopper.NotStopping?
    ensures t.(q := CQ.Init(), notes := map[]) == Start()
  {
    moves, t := [], Start();
    moves, t := OneMove(Start(), moves, t, Queue(CQ.Submit(x, "")), cfg, lim);
    moves, t := OneMove(Start(), moves, t, Queue(CQ.Put(x)), cfg, lim);
    moves, t := OneMove(Start(), moves, t, Queue(CQ.Submit(y, "")), cfg, lim);
    moves, t := OneMove(Start(), moves, t, Queue(CQ.Put(y)), cfg, lim);
  }

  /** The worker, started or going round, takes the next one and begins to send it. */
  lemma Sends(p: Path, cfg: SL.Config, lim: CQ.Limits) returns (moves: seq<Move>, t: Path)
    requires p.q.worker.AtTop? && !p.q.shutdown && p.q.queue != []
    requires p.link.comm.Idle? && p.link.connected && cfg.maxRetries > 0
    ensures Leads(p, moves, t, cfg, lim)
    ensures t.q.worker == CQ.Sending(p.q.queue[0]) && t.q.queue == p.q.queue[1..] && !t.q.shutdown
    ensures t.link == p.link.(comm := SL.Writing(1)) && t.begun == Mark(p.link.writes, p.link.timeouts)
    ensures t.writer == p.writer && t.done == p.done && t.marks == p.marks
  {
    moves, t := [], p;
    moves, t := OneMove(p, moves, t, Queue(CQ.TestShutdown), cfg, lim);
    moves, t := OneMove(p, moves, t, Queue(CQ.GetEntry), cfg, lim);
    moves, t := OneMove(p, moves, t, Begin, cfg, lim);
  }

  /** A write arrives. */
  lemma Writes(p: Path, cfg: SL.Config, lim: CQ.Limits) returns (moves: seq<Move>, t: Path)
    requires p.q.worker.Sending? && p.link.comm.Writing? && p.link.connected
    ensures Leads(p, moves, t, cfg, lim)
    ensures t == p.(link := p.link.(comm := SL.Reading(p.link.comm.attempt, []), writes := p.link.writes + 1),
                    writer := p.writer + [p.q.worker.entry])
  {
    moves, t := [], p;
    moves, t := OneMove(p, moves, t, Line(SL.Write(true, true)), cfg, lim);
  }

  /** The line arrives at the ack queue. */
  lemma Arrives(p: Path, l: SL.SerialLine, cfg: SL.Config, lim: CQ.Limits) returns (moves: seq<Move>, t: Path)
    requires cfg.isAck(l.text) && cfg.hasOk(l.text) && l.ackOf == p.link.acked + 1 <= p.link.writes
    requires p.link.connected && p.link.queue.items == [] && p.link.queue.producer.Free? && p.link.transit == []
    requires SL.Proper(cfg)
    ensures Leads(p, moves, t, cfg, lim)
    ensures t.link.queue.items == [l] && t.link.queue.producer.Free?
    ensures t == p.(link := p.link.(acked := l.ackOf, queue := t.link.queue))
  {
    moves, t := [], p;
    moves, t := OneMove(p, moves, t, Line(SL.Emit(l)), cfg, lim);
    moves, t := OneMove(p, moves, t, Line(SL.ReaderTake), cfg, lim);
  }

  /** An ok line comes in and ends the send. */
  lemma Succeeds(p: Path, l: SL.SerialLine, cfg: SL.Config, lim: CQ.Limits) returns (moves: seq<Move>, t: Path)
    requires SL.Proper(cfg) && cfg.isAck(l.text) && cfg.hasOk(l.text) && l.ackOf == p.link.acked + 1 <= p.link.writes
    requires p.q.worker.Sending? && p.link.comm.Reading? && p.link.comm.responses == [] && p.link.connected
    requires p.link.queue.items == [] && p.link.queue.producer.Free? && p.link.transit == []
    requires |p.done| == |p.link.results|
    ensures Leads(p, moves, t, cfg, lim)
    ensures t.q.worker == CQ.Recording(p.q.worker.entry) && t.q.queue == p.q.queue && t.q.shutdown == p.q.shutdown
    ensures t.done == p.done + [p.q.worker.entry] && t.marks == p.marks + [p.begun] && t.writer == p.writer
    ensures t.link.comm.Idle? && t.link.connected && t.link.acked == l.ackOf && t.link.transit == []
    ensures t.link.queue.items == [] && t.link.queue.producer.Free?
    ensures t.link.writes == p.link.writes && t.link.timeouts == p.link.timeouts
    ensures |t.link.results| == |p.link.results| + 1 && t.link.results[..|p.link.results|] == p.link.results
    ensures Last(t.link.results).responses == [l]
  {
    moves, t := Arrives(p, l, cfg, lim);
    moves, t := OneMove(p, moves, t, Line(SL.Poll), cfg, lim);
    moves, t := OneMove(p, moves, t, End(CQ.Unresponsive("")), cfg, lim);
  }

  /** The first attempt times out, and the retry is written. */
  lemma Retries(p: Path, cfg: SL.Config, lim: CQ.Limits) returns (moves: seq<Move>, t: Path)
    requires p.q.worker.Sending? && p.link.comm == SL.Writing(1) && p.link.connected && cfg.maxRetries >= 2
    ensures Leads(p, moves, t, cfg, lim)
    ensures t == p.(link := p.link.(comm := SL.Reading(2, []), writes := p.link.writes + 2,
                                    timeouts := p.link.timeouts + 1),
                    writer := p.writer + [p.q.worker.entry] + [p.q.worker.entry])
  {
    moves, t := Writes(p, cfg, lim);
    moves, t := OneMove(p, moves, t, Line(SL.Timeout), cfg, lim);
    var more, last := Writes(t, cfg, lim);
    LeadsOn(p, moves, t, more, last, cfg, lim);
    moves, t := moves + more, last;
  }

  /** A worker at the top of its loop, with this much behind it on a line at rest. */
  ghost predicate Resting(p: Path, queue: seq<Id>, writer: seq<Id>, done: seq<Id>) {
    && p.q.worker.AtTop? && !p.q.shutdown && p.q.queue == queue
    && p.writer == writer && p.link.writes == |writer| && p.done == done && |p.link.results| == |done|
    && p.link.comm.Idle? && p.link.connected && p.link.transit == []
    && p.link.queue.items == [] && p.link.queue.producer.Free?
  }

  lemma Started(x: Id, y: Id, cfg: SL.Config, lim: CQ.Limits) returns (moves: seq<Move>, t: Path)
    requires x != y && lim.queueSize >= 2
    ensures Leads(Start(), moves, t, cfg, lim) && Resting(t, [x, y], [], []) && t.link.acked == 0
  {
    moves, t := TwoWait(x, y, cfg, lim);
    moves, t := OneMove(Start(), moves, t, Queue(CQ.StartThread), cfg, lim);
  }

  /** The bookkeeping after a send. */
  lemma GoesRound(p: Path, cfg: SL.Config, lim: CQ.Limits) returns (moves: seq<Move>, t: Path)
    requires p.q.worker.Recording?
    ensures Leads(p, moves, t, cfg, lim)
    ensures t.q.worker.AtTop? && t.q.queue == p.q.queue && t.q.shutdown == p.q.shutdown && t.(q := p.q) == p
  {
    moves, t := [], p;
    moves, t := OneMove(p, moves, t, Queue(CQ.Record), cfg, lim);
    assert t == p.(q := CQ.Next(p.q, CQ.Record, lim));
    moves, t := OneMove(p, moves, t, Queue(CQ.Signal), cfg, lim);
    assert t == p.(q := CQ.Next(CQ.Next(p.q, CQ.Record, lim), CQ.Signal, lim));
  }

  /** The first command succeeds on the answer to its first attempt, which comes during its second. */
  lemma SlowOne(p: Path, x: Id, y: Id, l: SL.SerialLine, cfg: SL.Config, lim: CQ.Limits)
    returns (moves: seq<Move>, t: Path)
    requires SL.Proper(cfg) && cfg.maxRetries >= 2 && cfg.isAck(l.text) && cfg.hasOk(l.text) && l.ackOf == 1
    requires Resting(p, [x, y], [], []) && p.link.acked == 0
    ensures Leads(p, moves, t, cfg, lim) && Resting(t, [y], [x, x], [x]) && t.link.acked == 1
    ensures t.link.results[0].responses == [l]
  {
    var a, s1 := Sends(p, cfg, lim);
    var b, s2 := Retries(s1, cfg, lim);
    LeadsOn(p, a, s1, b, s2, cfg, lim);
    var c, s3 := Succeeds(s2, l, cfg, lim);
    LeadsOn(p, a + b, s2, c, s3, cfg, lim);
    var d, s4 := GoesRound(s3, cfg, lim);
    LeadsOn(p, a + b + c, s3, d, s4, cfg, lim);
    moves, t := a + b + c + d, s4;
  }

  /** The second is written once and ends on the answer to the retry of the first. */
  lemma NextOne(p: Path, x: Id, y: Id, l: SL.SerialLine, cfg: SL.Config, lim: CQ.Limits)
    returns (moves: seq<Move>, t: Path)
    requires SL.Proper(cfg) && cfg.maxRetries > 0 && cfg.isAck(l.text) && cfg.hasOk(l.text) && l.ackOf == 2
    requires Resting(p, [y], [x, x], [x]) && p.link.acked == 1
    ensures Leads(p, moves, t, cfg, lim) && t.writer == [x, x, y] && t.done == [x, y]
    ensures |t.link.results| == 2 && t.link.results[0] == p.link.results[0] && t.link.results[1].responses == [l]
  {
    var a, s1 := Sends(p, cfg, lim);
    var b, s2 := Writes(s1, cfg, lim);
    LeadsOn(p, a, s1, b, s2, cfg, lim);
    var c, s3 := Succeeds(s2, l, cfg, lim);
    LeadsOn(p, a + b, s2, c, s3, cfg, lim);
    assert s3.link.results[..1] == p.link.results;
    moves, t := a + b + c, s3;
  }

  /** A command's ok that comes after its timeout is still its own while the retry waits for it; but the retry's own ok
      then ends the next command, which has not been answered. */
  lemma LateOkEndsNext(x: Id, y: Id, ok: string, cfg: SL.Config, lim: CQ.Limits) returns (moves: seq<Move>)
    requires SL.Proper(cfg) && cfg.maxRetries >= 2 && cfg.isAck(ok) && cfg.hasOk(ok)
    requires x != y && lim.queueSize >= 2
    ensures AllAllowed(Start(), moves, cfg, lim)
    ensures var p := Play(Start(), moves, cfg, lim);
      && p.done == [x, y] && p.writer == [x, x, y] && |p.link.results| == 2
      && p.link.results[0].responses == [SL.SerialLine(ok, 1)] && p.writer[1 - 1] == x
      && p.link.results[1].responses == [SL.SerialLine(ok, 2)] && p.writer[2 - 1] != y
  {
    var a, s1 := Started(x, y, cfg, lim);
    var b, s2 := SlowOne(s1, x, y, SL.SerialLine(ok, 1), cfg, lim);
    LeadsOn(Start(), a, s1, b, s2, cfg, lim);
    var c, s3 := NextOne(s2, x, y, SL.SerialLine(ok, 2), cfg, lim);
    LeadsOn(Start(), a + b, s2, c, s3, cfg, lim);
    moves := a + b + c;
  }
}
