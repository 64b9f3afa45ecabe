/** Which printer ok ends which command, for a printer that answers every command it receives with exactly one
    ok and says "ok" in no other line that reaches the ack queue. */
module AckSync {
  import opened Basics
  import opened SerialLink
  import AckKinds
  import DQ = DropQueue

  /** The printer keeps its promise in this event; runs stop short of a reconnect. */
  ghost predicate Faithful(s: Link, ev: Event, cfg: Config) {
    match ev
    case Emit(l) =>
      if l.ackOf == 0 then !(cfg.isAck(l.text) && Ok(l, cfg))
      else l.ackOf == s.acked + 1 <= s.writes && cfg.isAck(l.text) && Ok(l, cfg)
    case Reconnect(_) => false
    case _ => true
  }

  ghost predicate FaithfulRun(s: Link, evs: seq<Event>, cfg: Config)
    decreases |evs|
  {
    evs == [] || (Enabled(s, evs[0]) && Faithful(s, evs[0], cfg) && FaithfulRun(Next(s, evs[0], cfg), evs[1..], cfg))
  }

  lemma {:induction false} FaithfulIsEnabled(s: Link, evs: seq<Event>, cfg: Config)
    requires FaithfulRun(s, evs, cfg)
    ensures EnabledAll(s, evs, cfg)
    decreases |evs|
  {
    if evs != [] {
      FaithfulIsEnabled(Next(s, evs[0], cfg), evs[1..], cfg);
    }
  }

  /** The line the reader has taken but not yet put. */
  function InHand(s: Link): seq<SerialLine> {
    if s.queue.producer.Free? then [] else [s.queue.producer.item]
  }

  /** The ack numbers in a list of lines, in order. */
  function Tags(lines: seq<SerialLine>): seq<nat> {
    if lines == [] then []
    else if Last(lines).ackOf > 0 then Tags(Front(lines)) + [Last(lines).ackOf]
    else Tags(Front(lines))
  }

  lemma {:induction false} TagsAppend(a: seq<SerialLine>, b: seq<SerialLine>)
    ensures Tags(a + b) == Tags(a) + Tags(b)
  {
    if b == [] {
      assert a + b == a;
    } else {
      TagsAppend(a, Front(b));
      assert Front(a + b) == a + Front(b);
    }
  }

  lemma TagsAround(a: seq<SerialLine>, l: SerialLine, b: seq<SerialLine>)
    ensures Tags(a + [l] + b) == Tags(a) + (if l.ackOf > 0 then [l.ackOf] else []) + Tags(b)
  {
    TagsAppend(a + [l], b);
    TagsAppend(a, [l]);
    TagsOne(l);
  }

  lemma TagsOne(l: SerialLine)
    ensures Tags([l]) == if l.ackOf > 0 then [l.ackOf] else []
  {
    assert Front([l]) == [];
  }

  /** Everything the reader has put, holds, or has still to read. */
  function Stream(s: Link): seq<SerialLine> {
    s.queue.puts + InHand(s) + s.transit
  }

  /** On the ack queue exactly the printer's answers bear an ok. */
  ghost predicate PutOk(l: SerialLine, cfg: Config) { l.text != "" && (Ok(l, cfg) <==> l.ackOf > 0) }

  ghost predicate LineOk(l: SerialLine, cfg: Config) {
    if l.ackOf > 0 then cfg.isAck(l.text) && Ok(l, cfg) else !(cfg.isAck(l.text) && Ok(l, cfg))
  }

  /** The oks reach the reader in the order of the commands they answer, none twice, none missing. */
  ghost predicate StreamInv(s: Link, cfg: Config) {
    && Tags(Stream(s)) == Range(1, s.acked) && s.acked <= s.writes
    && (forall k :: 0 <= k < |s.queue.puts| ==> PutOk(s.queue.puts[k], cfg))
    && (forall k :: 0 <= k < |InHand(s)| ==> PutOk(InHand(s)[k], cfg))
    && (forall k :: 0 <= k < |s.transit| ==> LineOk(s.transit[k], cfg))
  }

  /** Every attempt whose write arrived ends in a success or a timeout. */
  ghost predicate CountInv(s: Link) {
    s.writes == |s.results| + s.timeouts + (if s.comm.Reading? then 1 else 0)
  }

  ghost predicate ResultOk(r: Result, k: nat, cfg: Config) {
    && r.responses != [] && Ok(Last(r.responses), cfg)
    && Last(r.responses).ackOf == k + 1 + r.lostOks
    && r.write == k + 1 + r.timeouts
    && r.lostOks <= r.timeouts
  }

  ghost predicate ResultsOk(results: seq<Result>, cfg: Config) {
    forall k :: 0 <= k < |results| ==> ResultOk(results[k], k, cfg)
  }

  ghost predicate SyncInv(s: Link, cfg: Config) {
    LinkInv(s, cfg) && StreamInv(s, cfg) && CountInv(s) && ResultsOk(s.results, cfg)
  }

  lemma {:induction false} OksAreTags(lines: seq<SerialLine>, cfg: Config)
    requires forall k :: 0 <= k < |lines| ==> PutOk(lines[k], cfg)
    ensures OkCount(lines, cfg) == |Tags(lines)|
  {
    if lines != [] {
      OksAreTags(Front(lines), cfg);
      assert PutOk(lines[|lines| - 1], cfg);
    }
  }

  /** The ok at position n of the put stream carries the number of oks put before it, plus one. */
  lemma TagAt(s: Link, n: nat, cfg: Config)
    requires StreamInv(s, cfg) && n < |s.queue.puts| && Ok(s.queue.puts[n], cfg)
    ensures s.queue.puts[n].ackOf == OkCount(s.queue.puts[..n], cfg) + 1 <= s.acked
  {
    var before, l := s.queue.puts[..n], s.queue.puts[n];
    var after := s.queue.puts[n + 1..] + InHand(s) + s.transit;
    assert Stream(s) == before + [l] + after;
    TagsAround(before, l, after);
    OksAreTags(before, cfg);
    NumberAt(Tags(before), l.ackOf, Tags(after), s.acked);
  }

  lemma NumberAt(a: seq<nat>, x: nat, b: seq<nat>, n: nat)
    requires a + [x] + b == Range(1, n)
    ensures x == |a| + 1 <= n
  {
    assert (a + [x] + b)[|a|] == x;
  }

  lemma RangeGrows(n: nat)
    ensures Range(1, n) + [n + 1] == Range(1, n + 1)
  {
  }

  lemma EmitKeeps(s: Link, l: SerialLine, cfg: Config)
    requires StreamInv(s, cfg) && Faithful(s, Emit(l), cfg)
    ensures StreamInv(Next(s, Emit(l), cfg), cfg)
  {
    var s' := Next(s, Emit(l), cfg);
    AppendTo(s.queue.puts + InHand(s), s.transit, l);
    StreamGrows(Stream(s), s.acked, l);
    assert LineOk(l, cfg);
  }

  lemma AppendTo<T>(a: seq<T>, b: seq<T>, x: T)
    ensures a + (b + [x]) == a + b + [x]
  {
  }

  lemma StreamGrows(stream: seq<SerialLine>, acked: nat, l: SerialLine)
    requires Tags(stream) == Range(1, acked) && (l.ackOf == 0 || l.ackOf == acked + 1)
    ensures Tags(stream + [l]) == Range(1, if l.ackOf == 0 then acked else acked + 1)
  {
    TagsAppend(stream, [l]);
    TagsOne(l);
    RangeGrows(acked);
  }

  /** The reader moves lines along the stream; what it drops carries no ack number. */
  lemma TakeKeeps(s: Link, cfg: Config)
    requires Proper(cfg) && StreamInv(s, cfg) && Enabled(s, ReaderTake)
    ensures StreamInv(Next(s, ReaderTake, cfg), cfg)
  {
    var l, s' := s.transit[0], Next(s, ReaderTake, cfg);
    assert LineOk(l, cfg);
    if cfg.isAck(l.text) {
      assert s'.queue.puts + InHand(s') == s.queue.puts + [l];
      HeadMoves(s.queue.puts, l, s.transit);
      assert Stream(s') == Stream(s);
    } else {
      TakeDrops(s, s', cfg);
    }
  }

  lemma HeadMoves(puts: seq<SerialLine>, l: SerialLine, transit: seq<SerialLine>)
    requires transit != [] && transit[0] == l
    ensures puts + [l] + transit[1..] == puts + [] + transit
  {
  }

  lemma TakeDrops(s: Link, s': Link, cfg: Config)
    requires StreamInv(s, cfg) && s.queue.producer.Free? && s.transit != [] && s.transit[0].ackOf == 0
    requires s' == s.(transit := s.transit[1..])
    ensures StreamInv(s', cfg)
  {
    var l := s.transit[0];
    assert Stream(s) == s.queue.puts + [l] + s.transit[1..];
    assert Stream(s') == s.queue.puts + s.transit[1..];
    TagsAround(s.queue.puts, l, s.transit[1..]);
    TagsAppend(s.queue.puts, s.transit[1..]);
  }

  lemma ReaderMovesKeep(s: Link, op: DQ.Op<SerialLine>, cfg: Config)
    requires Proper(cfg) && LinkInv(s, cfg) && StreamInv(s, cfg) && DQ.Allowed(s.queue, op) && !op.TryPut?
    ensures StreamInv(Reader(s, op, cfg), cfg)
  {
    var s' := Reader(s, op, cfg);
    DQ.ApplyKeepsInv(s.queue, op, cfg.queueSize);
    assert s'.queue.puts + InHand(s') == s.queue.puts + InHand(s);
    assert Stream(s') == Stream(s);
  }

  lemma PollSync(s: Link, cfg: Config)
    requires Proper(cfg) && SyncInv(s, cfg) && s.comm.Reading? && s.queue.items != []
    ensures SyncInv(PollStep(s, cfg), cfg)
  {
    var line, n := s.queue.items[0], |s.queue.fates|;
    assert line == s.queue.puts[n];
    PollKeeps(s, cfg);
    assert Stream(PollStep(s, cfg)) == Stream(s);
    assert PutOk(line, cfg);
    if Ok(line, cfg) {
      TagAt(s, n, cfg);
      PollResult(s, line, cfg);
    }
  }

  lemma PollResult(s: Link, line: SerialLine, cfg: Config)
    requires ResultsOk(s.results, cfg) && CountInv(s) && s.comm.Reading? && s.queue.items != []
              && s.queue.items[0] == line
    requires Ok(line, cfg) && line.text != "" && s.acked <= s.writes
    requires line.ackOf == |s.results| + LostOks(s.queue.puts, s.queue.fates, cfg) + 1 <= s.acked
    ensures ResultsOk(PollStep(s, cfg).results, cfg)
  {
    var r := Result(s.comm.responses + [line], s.writes, s.timeouts, LostOks(s.queue.puts, s.queue.fates, cfg));
    assert PollStep(s, cfg).results == s.results + [r];
    assert ResultOk(r, |s.results|, cfg);
  }

  lemma OtherKeeps(s: Link, ev: Event, cfg: Config)
    requires StreamInv(s, cfg) && CountInv(s) && Enabled(s, ev)
    requires ev.Send? || ev.Write? || ev.Timeout? || ev.Disconnect? || ev.FlushDone?
    ensures StreamInv(Next(s, ev, cfg), cfg) && CountInv(Next(s, ev, cfg)) && Next(s, ev, cfg).results == s.results
  {
    assert Stream(Next(s, ev, cfg)) == Stream(s);
  }

  lemma NextKeepsSync(s: Link, ev: Event, cfg: Config)
    requires Proper(cfg) && SyncInv(s, cfg) && Enabled(s, ev) && Faithful(s, ev, cfg)
    ensures SyncInv(Next(s, ev, cfg), cfg)
  {
    NextKeepsLinkInv(s, ev, cfg);
    match ev
    case Emit(l) => EmitKeeps(s, l, cfg);
    case ReaderTake => TakeKeeps(s, cfg);
    case ReaderMakeRoom => ReaderMovesKeep(s, DQ.MakeRoom, cfg);
    case ReaderPutAgain => ReaderMovesKeep(s, DQ.PutAgain, cfg);
    case FlushOne => ReaderMovesKeep(s, DQ.FlushOne, cfg);
    case Poll => PollSync(s, cfg);
    case _ => OtherKeeps(s, ev, cfg);
  }

  lemma {:induction false} PlayKeepsSync(s: Link, evs: seq<Event>, cfg: Config)
    requires Proper(cfg) && SyncInv(s, cfg) && FaithfulRun(s, evs, cfg)
    ensures EnabledAll(s, evs, cfg) && SyncInv(Play(s, evs, cfg), cfg)
    decreases |evs|
  {
    FaithfulIsEnabled(s, evs, cfg);
    if evs != [] {
      NextKeepsSync(s, evs[0], cfg);
      PlayKeepsSync(Next(s, evs[0], cfg), evs[1..], cfg);
    }
  }

  lemma StartSync(cfg: Config)
    ensures SyncInv(Start(), cfg)
  {
    assert Stream(Start()) == [];
  }

  /** The ok that ends a successful send answers the write made as many writes earlier as attempts have timed out since
      the start, less the oks that were lost: each timeout shifts the answers to all later writes by one. So it answers
      the send's last write if and only if as many oks were lost as attempts have timed out. */
  lemma AckShift(evs: seq<Event>, cfg: Config, k: nat)
    requires Proper(cfg) && FaithfulRun(Start(), evs, cfg)
    ensures EnabledAll(Start(), evs, cfg)
    ensures k < |Play(Start(), evs, cfg).results| ==>
      var r := Play(Start(), evs, cfg).results[k];
      && r.responses != [] && Ok(Last(r.responses), cfg)
      && Last(r.responses).ackOf == r.write - r.timeouts + r.lostOks
      && (Last(r.responses).ackOf == r.write <==> r.timeouts == r.lostOks)
      && r.write == k + 1 + r.timeouts
  {
    StartSync(cfg);
    PlayKeepsSync(Start(), evs, cfg);
    assert ResultsOk(Play(Start(), evs, cfg).results, cfg);
  }

  /** An o with a k after it, in either case. */
  predicate HoldsOk(line: string) { exists i: nat :: i < |line| && AckKinds.OkAt(line, i) }

  /** With the sizes and the tests of the repository: each succeeded send to a faithful printer ends on a line that says
      "ok", and it is the answer to the send's last write if and only if as many oks were lost as attempts have timed
      out. */
  lemma DeployedAckShift(evs: seq<Event>, k: nat)
    requires FaithfulRun(Start(), evs, Deployed())
    ensures EnabledAll(Start(), evs, Deployed())
    ensures k < |Play(Start(), evs, Deployed()).results| ==>
      var r := Play(Start(), evs, Deployed()).results[k];
      && r.responses != [] && HoldsOk(Last(r.responses).text)
      && (Last(r.responses).ackOf == r.write <==> r.timeouts == r.lostOks)
  {
    DeployedIsProper();
    AckShift(evs, Deployed(), k);
    if k < |Play(Start(), evs, Deployed()).results| {
      AckKinds.HasOkIff(Last(Play(Start(), evs, Deployed()).results[k].responses).text);
    }
  }
}
