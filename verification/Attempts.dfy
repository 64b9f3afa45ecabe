/** How often a command is written to the printer (src/hardware/printer_communicator.py). */
module Attempts {
  import opened Basics
  import CQ = CommandQueue
  import QI = CommandQueueInvariant
  import QT = CommandQueueTheorems
  import SL = SerialLink
  import opened CommandPath

  /** How often this command has been written. */
  function Writes(writer: seq<Id>, x: Id): nat { QI.Copies(writer, x) }

  /** No command more often than there are attempts, and the one being sent once per attempt at most. */
  ghost predicate AttemptInv(p: Path, cfg: SL.Config) {
    && (forall x :: Writes(p.writer, x) <= cfg.maxRetries)
    && (p.q.worker.Sending? ==>
          match p.link.comm
          case Writing(attempt) => Writes(p.writer, p.q.worker.entry) < attempt <= cfg.maxRetries
          case Reading(attempt, _) => Writes(p.writer, p.q.worker.entry) <= attempt <= cfg.maxRetries
          case _ => true)
  }

  lemma QueueKeepsAttempts(p: Path, ev: CQ.Event, cfg: SL.Config, lim: CQ.Limits)
    requires Allowed(p, Queue(ev), cfg) && AttemptInv(p, cfg)
    ensures AttemptInv(After(p, Queue(ev), cfg, lim), cfg)
  {
    var w, w' := p.q.worker, CQ.Next(p.q, ev, lim).worker;
    assert w'.Sending? ==> w == w';
  }

  lemma WrittenOnceMore(writer: seq<Id>, e: Id)
    ensures forall x :: Writes(writer + [e], x) == Writes(writer, x) + (if x == e then 1 else 0)
  {
    forall x
      ensures Writes(writer + [e], x) == Writes(writer, x) + (if x == e then 1 else 0)
    {
      assert multiset(writer + [e]) == multiset(writer) + multiset{e};
    }
  }

  lemma LineKeepsAttempts(p: Path, ev: SL.Event, cfg: SL.Config, lim: CQ.Limits)
    requires Allowed(p, Line(ev), cfg) && LineInv(p) && AttemptInv(p, cfg)
    ensures AttemptInv(After(p, Line(ev), cfg, lim), cfg)
  {
    if ev.Write? && ev.success && p.q.worker.Sending? {
      WrittenOnceMore(p.writer, p.q.worker.entry);
    }
  }

  lemma NotWritten(writer: seq<Id>, x: Id)
    requires x !in writer
    ensures Writes(writer, x) == 0
  {
  }

  lemma BeginKeepsAttempts(p: Path, cfg: SL.Config, lim: CQ.Limits)
    requires Allowed(p, Begin, cfg) && WriterInv(p) && QI.Inv(p.q, lim) && AttemptInv(p, cfg)
    ensures AttemptInv(After(p, Begin, cfg, lim), cfg)
  {
    QT.WiredOnce(p.q, lim, p.q.worker.entry);
    NotWritten(p.writer, p.q.worker.entry);
  }

  lemma MoveKeepsAttempts(p: Path, m: Move, cfg: SL.Config, lim: CQ.Limits)
    requires Allowed(p, m, cfg) && PathInv(p, cfg, lim) && AttemptInv(p, cfg)
    ensures AttemptInv(After(p, m, cfg, lim), cfg)
  {
    match m
    case Queue(ev) => QueueKeepsAttempts(p, ev, cfg, lim);
    case Line(ev) => LineKeepsAttempts(p, ev, cfg, lim);
    case Begin => BeginKeepsAttempts(p, cfg, lim);
    case End(_) =>
  }

  lemma {:induction false} PlayKeepsAttempts(p: Path, moves: seq<Move>, cfg: SL.Config, lim: CQ.Limits)
    requires SL.Proper(cfg) && lim.history > 0 && AllAllowed(p, moves, cfg, lim)
    requires PathInv(p, cfg, lim) && AttemptInv(p, cfg)
    ensures AttemptInv(Play(p, moves, cfg, lim), cfg)
    decreases |moves|
  {
    if moves != [] {
      MoveKeeps(p, moves[0], cfg, lim);
      MoveKeepsAttempts(p, moves[0], cfg, lim);
      PlayKeepsAttempts(After(p, moves[0], cfg, lim), moves[1..], cfg, lim);
    }
  }

  /** In every run each command is written to the printer at most as often as there are attempts; as the repository is
      deployed, at most twice. */
  lemma WrittenAtMost(moves: seq<Move>, cfg: SL.Config, lim: CQ.Limits, x: Id)
    requires SL.Proper(cfg) && lim.history > 0 && AllAllowed(Start(), moves, cfg, lim)
    ensures QI.Copies(Play(Start(), moves, cfg, lim).writer, x) <= cfg.maxRetries
    ensures cfg == SL.Deployed() ==> QI.Copies(Play(Start(), moves, cfg, lim).writer, x) <= 2
  {
    StartInv(cfg, lim);
    PlayKeepsAttempts(Start(), moves, cfg, lim);
    assert Writes(Play(Start(), moves, cfg, lim).writer, x) <= cfg.maxRetries;
  }
}
