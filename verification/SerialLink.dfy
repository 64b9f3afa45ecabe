/** The command protocol over the serial line as a state machine: the printer, the lines on their way, the
    reader thread, the ack queue and the communicator
    (src/hardware/serial_router.py, src/hardware/printer_communicator.py, src/hardware/serial_connection.py). */
module SerialLink {
  import opened Basics
  import opened AckKinds
  import DQ = DropQueue

  /** A line from the printer. `ackOf` is k when the printer emitted it as its ok for the k-th command it received,
      and 0 otherwise; the program never looks at it. */
  datatype SerialLine = SerialLine(text: string, ackOf: nat)

  /** Where the communicator is: between commands, about to write, reading a reply, flushing after a reconnect. */
  datatype Comm = Idle | Writing(attempt: nat) | Reading(attempt: nat, responses: seq<SerialLine>) | Flushing

  /** A successful `send_command`: its response lines, the number of the last command written when it returned,
      and the timeouts and lost oks up to then. */
  datatype Result = Result(responses: seq<SerialLine>, write: nat, timeouts: nat, lostOks: nat)

  /** `transit` holds lines emitted and not yet read. `writes` counts commands the printer received, `acked` the
      oks it has emitted for them, `timeouts` the attempts that gave up waiting. */
  datatype Link = Link(
    connected: bool,
    comm: Comm,
    queue: DQ.Queue<SerialLine>,
    transit: seq<SerialLine>,
    writes: nat,
    acked: nat,
    timeouts: nat,
    results: seq<Result>)

  /** A link at rest. */
  function Start(): Link {
    Link(true, Idle, DQ.Empty(), [], 0, 0, 0, [])
  }

  /** The ack queue's size, the number of attempts, and the two tests on lines. */
  datatype Config = Config(queueSize: nat, maxRetries: nat, isAck: string -> bool, hasOk: string -> bool)

  /** The tests of the repository and the sizes of config/settings.py. */
  function Deployed(): Config { Config(128, 2, IsAckLine, HasOk) }

  ghost predicate Proper(cfg: Config) {
    0 < cfg.queueSize && !cfg.isAck("") && !cfg.hasOk("")
  }

  lemma DeployedIsProper()
    ensures Proper(Deployed())
  {
  }

  predicate Ok(l: SerialLine, cfg: Config) { cfg.hasOk(l.text) }

  datatype Event =
    | Emit(line: SerialLine)      // the printer sends a line
    | ReaderTake                  // the reader reads a line and, if it is an ack line, puts it
    | ReaderMakeRoom
    | ReaderPutAgain
    | Send                        // send_command is entered
    | Write(success: bool, stillConnected: bool)
    | Poll                        // ack_queue.get delivers a line
    | Timeout                     // the deadline passes without an ok
    | Disconnect                  // a read error marks the port closed
    | Reconnect(success: bool)
    | FlushOne
    | FlushDone

  predicate Enabled(s: Link, ev: Event) {
    match ev
    case Emit(_) => true
    case ReaderTake => s.connected && s.transit != [] && s.queue.producer.Free?
    case ReaderMakeRoom => s.queue.producer.SawFull?
    case ReaderPutAgain => s.queue.producer.MadeRoom?
    case Send => s.comm.Idle?
    case Write(success, _) => s.comm.Writing? && (success ==> s.connected)
    case Poll => s.comm.Reading? && s.queue.items != []
    case Timeout => s.comm.Reading?
    case Disconnect => true
    case Reconnect(_) => s.comm.Idle?
    case FlushOne => s.comm.Flushing? && s.queue.items != []
    case FlushDone => s.comm.Flushing? && s.queue.items == []
  }

  /** The next attempt, or giving up with PrinterUnresponsiveError. */
  function Retry(s: Link, attempt: nat, cfg: Config): Link {
    s.(comm := if attempt < cfg.maxRetries then Writing(attempt + 1) else Idle)
  }

  function Reader(s: Link, op: DQ.Op<SerialLine>, cfg: Config): Link
    requires DQ.Allowed(s.queue, op)
  {
    s.(queue := DQ.Apply(s.queue, op, cfg.queueSize))
  }

  /** The communicator takes one line: an empty one is skipped, an ok ends the reply. */
  function PollStep(s: Link, cfg: Config): Link
    requires s.comm.Reading? && s.queue.items != []
  {
    var line := s.queue.items[0];
    var s1 := s.(queue := DQ.Take(s.queue, DQ.Delivered));
    if line.text == "" then s1
    else
      var responses := s.comm.responses + [line];
      if Ok(line, cfg) then
        s1.(comm := Idle,
            results := s.results + [Result(responses, s.writes, s.timeouts, LostOks(s.queue.puts, s.queue.fates, cfg))])
      else s1.(comm := s.comm.(responses := responses))
  }

  /** The ok-bearing lines that were evicted or flushed. */
  function LostOks(puts: seq<SerialLine>, fates: seq<DQ.Fate>, cfg: Config): nat {
    if fates == [] || |fates| > |puts| then 0
    else
      LostOks(puts, Front(fates), cfg) + (if Ok(puts[|fates| - 1], cfg) && !Last(fates).Delivered? then 1 else 0)
  }

  function Next(s: Link, ev: Event, cfg: Config): Link
    requires Enabled(s, ev)
  {
    match ev
    case Emit(line) => s.(transit := s.transit + [line], acked := if line.ackOf > 0 then s.acked + 1 else s.acked)
    case ReaderTake =>
      var line := s.transit[0];
      var s1 := s.(transit := s.transit[1..]);
      if cfg.isAck(line.text) then Reader(s1, DQ.TryPut(line), cfg) else s1
    case ReaderMakeRoom => Reader(s, DQ.MakeRoom, cfg)
    case ReaderPutAgain => Reader(s, DQ.PutAgain, cfg)
    case Send => if s.connected && cfg.maxRetries > 0 then s.(comm := Writing(1)) else s
    case Write(success, stillConnected) =>
      if success then s.(writes := s.writes + 1, comm := Reading(s.comm.attempt, []))
      else Retry(s.(connected := s.connected && stillConnected), s.comm.attempt, cfg)
    case Poll => PollStep(s, cfg)
    case Timeout => Retry(s.(timeouts := s.timeouts + 1), s.comm.attempt, cfg)
    case Disconnect => s.(connected := false)
    case Reconnect(success) =>
      if success then s.(connected := true, transit := [], comm := Flushing) else s.(connected := false)
    case FlushOne => Reader(s, DQ.FlushOne, cfg)
    case FlushDone => s.(comm := Idle)
  }

  ghost predicate EnabledAll(s: Link, evs: seq<Event>, cfg: Config)
    decreases |evs|
  {
    evs == [] || (Enabled(s, evs[0]) && EnabledAll(Next(s, evs[0], cfg), evs[1..], cfg))
  }

  function Play(s: Link, evs: seq<Event>, cfg: Config): Link
    requires EnabledAll(s, evs, cfg)
    decreases |evs|
  {
    if evs == [] then s else Play(Next(s, evs[0], cfg), evs[1..], cfg)
  }

  // ---- Conservation of oks, for any printer ----

  function OkCount(lines: seq<SerialLine>, cfg: Config): nat {
    if lines == [] then 0 else OkCount(Front(lines), cfg) + (if Ok(Last(lines), cfg) then 1 else 0)
  }

  lemma {:induction false} OkCountAppend(a: seq<SerialLine>, b: seq<SerialLine>, cfg: Config)
    ensures OkCount(a + b, cfg) == OkCount(a, cfg) + OkCount(b, cfg)
  {
    if b == [] {
      assert a + b == a;
    } else {
      OkCountAppend(a, Front(b), cfg);
      assert Front(a + b) == a + Front(b);
    }
  }

  lemma {:induction false} LostOksGrow(puts: seq<SerialLine>, more: seq<SerialLine>, fates: seq<DQ.Fate>, cfg: Config)
    requires |fates| <= |puts| && puts <= more
    ensures LostOks(more, fates, cfg) == LostOks(puts, fates, cfg)
  {
    if fates != [] {
      LostOksGrow(puts, more, Front(fates), cfg);
    }
  }

  /** Oks that left the queue were either taken by a successful send or lost. */
  ghost predicate Accounted(s: Link, cfg: Config) {
    && |s.queue.fates| <= |s.queue.puts|
    && OkCount(s.queue.puts[..|s.queue.fates|], cfg) == |s.results| + LostOks(s.queue.puts, s.queue.fates, cfg)
    && (s.comm.Reading? ==> OkCount(s.comm.responses, cfg) == 0)
  }

  lemma AccountTake(s: Link, fate: DQ.Fate, cfg: Config)
    requires s.queue.items != [] && |s.queue.fates| <= |s.queue.puts|
              && s.queue.items == s.queue.puts[|s.queue.fates|..]
    ensures var q := DQ.Take(s.queue, fate);
      && OkCount(q.puts[..|q.fates|], cfg)
          == OkCount(s.queue.puts[..|s.queue.fates|], cfg) + (if Ok(s.queue.items[0], cfg) then 1 else 0)
      && LostOks(q.puts, q.fates, cfg)
      == LostOks(s.queue.puts, s.queue.fates, cfg) + (if Ok(s.queue.items[0], cfg) && !fate.Delivered? then 1 else 0)
  {
    var q, n := DQ.Take(s.queue, fate), |s.queue.fates|;
    assert Front(q.puts[..n + 1]) == s.queue.puts[..n] && Front(q.fates) == s.queue.fates;
    assert s.queue.puts[n] == s.queue.items[0];
  }

  ghost predicate LinkInv(s: Link, cfg: Config) {
    DQ.Inv(s.queue, cfg.queueSize) && Accounted(s, cfg)
  }

  lemma ReaderKeeps(s: Link, op: DQ.Op<SerialLine>, cfg: Config)
    requires Proper(cfg) && LinkInv(s, cfg) && DQ.Allowed(s.queue, op) && !op.Get?
    ensures LinkInv(Reader(s, op, cfg), cfg)
  {
    DQ.ApplyKeepsInv(s.queue, op, cfg.queueSize);
    var q := DQ.Apply(s.queue, op, cfg.queueSize);
    if op.MakeRoom? && s.queue.items != [] {
      AccountTake(s, DQ.Evicted, cfg);
    } else if op.FlushOne? {
      AccountTake(s, DQ.Flushed, cfg);
    } else {
      LostOksGrow(s.queue.puts, q.puts, s.queue.fates, cfg);
      assert q.puts[..|q.fates|] == s.queue.puts[..|s.queue.fates|];
    }
  }

  lemma PollKeeps(s: Link, cfg: Config)
    requires Proper(cfg) && LinkInv(s, cfg) && s.comm.Reading? && s.queue.items != []
    ensures LinkInv(PollStep(s, cfg), cfg)
  {
    DQ.ApplyKeepsInv(s.queue, DQ.Get, cfg.queueSize);
    AccountTake(s, DQ.Delivered, cfg);
    OneMore(s.comm.responses, s.queue.items[0], cfg);
    if s.queue.items[0].text == "" {
      assert s.queue.items[0].text == [];
    }
  }

  lemma OneMore(lines: seq<SerialLine>, l: SerialLine, cfg: Config)
    ensures OkCount(lines + [l], cfg) == OkCount(lines, cfg) + (if Ok(l, cfg) then 1 else 0)
  {
    assert Front(lines + [l]) == lines;
  }

  lemma NextKeepsLinkInv(s: Link, ev: Event, cfg: Config)
    requires Proper(cfg) && LinkInv(s, cfg) && Enabled(s, ev)
    ensures LinkInv(Next(s, ev, cfg), cfg)
  {
    match ev
    case ReaderTake =>
      var s1 := s.(transit := s.transit[1..]);
      if cfg.isAck(s.transit[0].text) {
        ReaderKeeps(s1, DQ.TryPut(s.transit[0]), cfg);
      }
    case ReaderMakeRoom => ReaderKeeps(s, DQ.MakeRoom, cfg);
    case ReaderPutAgain => ReaderKeeps(s, DQ.PutAgain, cfg);
    case FlushOne => ReaderKeeps(s, DQ.FlushOne, cfg);
    case Poll => PollKeeps(s, cfg);
    case _ =>
  }

  lemma {:induction false} PlayKeepsLinkInv(s: Link, evs: seq<Event>, cfg: Config)
    requires Proper(cfg) && LinkInv(s, cfg) && EnabledAll(s, evs, cfg)
    ensures LinkInv(Play(s, evs, cfg), cfg)
    decreases |evs|
  {
    if evs != [] {
      NextKeepsLinkInv(s, evs[0], cfg);
      PlayKeepsLinkInv(Next(s, evs[0], cfg), evs[1..], cfg);
    }
  }

  /** In every run, whatever the printer sends: ok-bearing lines put on the ack queue are the successful sends,
      plus those still queued, plus those evicted or flushed. */
  lemma OkConservation(evs: seq<Event>, cfg: Config)
    requires Proper(cfg) && EnabledAll(Start(), evs, cfg)
    ensures var s := Play(Start(), evs, cfg);
      OkCount(s.queue.puts, cfg)
          == |s.results| + OkCount(s.queue.items, cfg) + LostOks(s.queue.puts, s.queue.fates, cfg)
  {
    PlayKeepsLinkInv(Start(), evs, cfg);
    var s := Play(Start(), evs, cfg);
    var n := |s.queue.fates|;
    assert s.queue.puts == s.queue.puts[..n] + s.queue.puts[n..];
    OkCountAppend(s.queue.puts[..n], s.queue.puts[n..], cfg);
  }
}
