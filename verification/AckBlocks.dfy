/** Which lines a successful command returns, and two readings of the ack theorem. */
module AckBlocks {
  import opened Basics
  import opened SerialLink
  import opened AckSync
  import DQ = DropQueue

  /** The lines the communicator took, in order. */
  function Delivered(puts: seq<SerialLine>, fates: seq<DQ.Fate>): seq<SerialLine> {
    if fates == [] || |fates| > |puts| then []
    else if Last(fates).Delivered? then Delivered(puts, Front(fates)) + [puts[|fates| - 1]]
    else Delivered(puts, Front(fates))
  }

  /** A reply: lines without ok, then one with. */
  ghost predicate IsBlock(lines: seq<SerialLine>, cfg: Config) {
    lines != [] && Ok(Last(lines), cfg) && OkCount(Front(lines), cfg) == 0
  }

  function Responses(results: seq<Result>): seq<SerialLine> {
    if results == [] then [] else Responses(Front(results)) + Last(results).responses
  }

  function Current(s: Link): seq<SerialLine> {
    if s.comm.Reading? then s.comm.responses else []
  }

  /** Cut a stream behind every ok. */
  function Blocks(lines: seq<SerialLine>, cfg: Config): seq<seq<SerialLine>>
    decreases |lines|
  {
    var n := FirstOk(lines, cfg);
    if n >= |lines| then [] else [lines[..n + 1]] + Blocks(lines[n + 1..], cfg)
  }

  function FirstOk(lines: seq<SerialLine>, cfg: Config): (n: nat)
    ensures n <= |lines| && (n < |lines| ==> Ok(lines[n], cfg))
    ensures forall k :: 0 <= k < n ==> !Ok(lines[k], cfg)
  {
    if lines == [] || Ok(lines[0], cfg) then 0
    else
      var n := FirstOk(lines[1..], cfg);
      assert forall k :: 1 <= k < n + 1 ==> lines[k] == lines[1..][k - 1];
      n + 1
  }

  lemma {:induction false} NoOkInside(lines: seq<SerialLine>, cfg: Config)
    ensures OkCount(lines, cfg) == 0 <==> forall k :: 0 <= k < |lines| ==> !Ok(lines[k], cfg)
  {
    if lines != [] {
      NoOkInside(Front(lines), cfg);
      assert forall k :: 0 <= k < |lines| - 1 ==> lines[k] == Front(lines)[k];
      assert Last(lines) == lines[|lines| - 1];
    }
  }

  lemma BlockFirst(block: seq<SerialLine>, rest: seq<SerialLine>, cfg: Config)
    requires IsBlock(block, cfg)
    ensures Blocks(block + rest, cfg) == [block] + Blocks(rest, cfg)
  {
    NoOkInside(Front(block), cfg);
    var all, n := block + rest, FirstOk(block + rest, cfg);
    assert forall k :: 0 <= k < |block| - 1 ==> all[k] == Front(block)[k];
    assert all[|block| - 1] == Last(block);
    assert n == |block| - 1;
    assert all[..n + 1] == block && all[n + 1..] == rest;
  }

  /** Cutting a stream of replies gives the replies back. */
  lemma {:induction false} BlocksOfResponses(results: seq<Result>, rest: seq<SerialLine>, cfg: Config, k: nat)
    requires forall i :: 0 <= i < |results| ==> IsBlock(results[i].responses, cfg)
    requires k < |results|
    ensures k < |Blocks(Responses(results) + rest, cfg)|
    ensures Blocks(Responses(results) + rest, cfg)[k] == results[k].responses
    decreases |results|
  {
    ResponsesFirst(results);
    var first, tail := results[0].responses, results[1..];
    assert Responses(results) + rest == first + (Responses(tail) + rest);
    BlockFirst(first, Responses(tail) + rest, cfg);
    if k > 0 {
      BlocksOfResponses(tail, rest, cfg, k - 1);
    }
  }

  lemma {:induction false} ResponsesFirst(results: seq<Result>)
    requires results != []
    ensures Responses(results) == results[0].responses + Responses(results[1..])
  {
    if |results| == 1 {
      assert Responses(results[1..]) == [] && Front(results) == [];
    } else {
      ResponsesFirst(Front(results));
      FrontOfTail(results);
      Reassociate(results[0].responses, Responses(Front(results[1..])), Last(results).responses);
    }
  }

  lemma FrontOfTail<T>(s: seq<T>)
    requires |s| > 1
    ensures Front(s)[1..] == Front(s[1..]) && Last(s) == Last(s[1..]) && Front(s)[0] == s[0]
  {
  }

  // ---- What is delivered is what is returned ----

  /** While nothing has timed out, the delivered lines are the returned replies and the one being read. */
  ghost predicate ReplyInv(s: Link, cfg: Config) {
    && LinkInv(s, cfg)
    && (forall k :: 0 <= k < |s.queue.puts| ==> s.queue.puts[k].text != "")
    && (!s.queue.producer.Free? ==> s.queue.producer.item.text != "")
    && (forall k :: 0 <= k < |s.results| ==> IsBlock(s.results[k].responses, cfg))
    && (s.timeouts == 0 ==> Delivered(s.queue.puts, s.queue.fates) == Responses(s.results) + Current(s))
  }

  lemma {:induction false} DeliveredGrow(puts: seq<SerialLine>, more: seq<SerialLine>, fates: seq<DQ.Fate>)
    requires |fates| <= |puts| && puts <= more
    ensures Delivered(more, fates) == Delivered(puts, fates)
  {
    if fates != [] {
      DeliveredGrow(puts, more, Front(fates));
    }
  }

  lemma DeliveredNext(puts: seq<SerialLine>, fates: seq<DQ.Fate>, fate: DQ.Fate)
    requires |fates| < |puts|
    ensures Delivered(puts, fates + [fate])
         == if fate.Delivered? then Delivered(puts, fates) + [puts[|fates|]] else Delivered(puts, fates)
  {
    assert Front(fates + [fate]) == fates;
  }

  lemma ReaderReplies(s: Link, op: DQ.Op<SerialLine>, cfg: Config)
    requires Proper(cfg) && ReplyInv(s, cfg) && DQ.Allowed(s.queue, op) && !op.Get?
    requires op.TryPut? ==> op.item.text != ""
    ensures ReplyInv(Reader(s, op, cfg), cfg)
  {
    ReaderKeeps(s, op, cfg);
    var q := DQ.Apply(s.queue, op, cfg.queueSize);
    if |q.fates| > |s.queue.fates| {
      DeliveredNext(s.queue.puts, s.queue.fates, Last(q.fates));
    } else {
      DeliveredGrow(s.queue.puts, q.puts, s.queue.fates);
    }
  }

  lemma PollReplies(s: Link, cfg: Config)
    requires Proper(cfg) && ReplyInv(s, cfg) && s.comm.Reading? && s.queue.items != []
    ensures ReplyInv(PollStep(s, cfg), cfg)
  {
    PollKeeps(s, cfg);
    var line := s.queue.items[0];
    assert line == s.queue.puts[|s.queue.fates|];
    PollGathers(s, line, cfg);
    if s.timeouts == 0 {
      DeliveredNext(s.queue.puts, s.queue.fates, DQ.Delivered);
      Reassociate(Responses(s.results), s.comm.responses, [line]);
    }
  }

  /** The poll adds its line to the reply that is being read, and ends it at an ok. */
  lemma PollGathers(s: Link, line: SerialLine, cfg: Config)
    requires s.comm.Reading? && s.queue.items != [] && line == s.queue.items[0] && line.text != ""
    requires OkCount(s.comm.responses, cfg) == 0
    requires forall k :: 0 <= k < |s.results| ==> IsBlock(s.results[k].responses, cfg)
    ensures var s' := PollStep(s, cfg);
      && (forall k :: 0 <= k < |s'.results| ==> IsBlock(s'.results[k].responses, cfg))
      && Responses(s'.results) + Current(s') == Responses(s.results) + (s.comm.responses + [line])
  {
    if Ok(line, cfg) {
      var r := Result(s.comm.responses + [line], s.writes, s.timeouts, LostOks(s.queue.puts, s.queue.fates, cfg));
      ReplyEnds(s.results, s.comm.responses, line, r, cfg);
      assert PollStep(s, cfg).results == s.results + [r];
    }
  }

  lemma ReplyEnds(results: seq<Result>, responses: seq<SerialLine>, line: SerialLine, r: Result, cfg: Config)
    requires r.responses == responses + [line] && Ok(line, cfg) && OkCount(responses, cfg) == 0
    ensures IsBlock(r.responses, cfg)
    ensures Responses(results + [r]) == Responses(results) + (responses + [line])
  {
    assert Front(r.responses) == responses;
    assert Front(results + [r]) == results;
  }

  lemma AckIsNotEmpty(text: string, cfg: Config)
    requires Proper(cfg) && cfg.isAck(text)
    ensures text != ""
  {
  }

  lemma NextReplies(s: Link, ev: Event, cfg: Config)
    requires Proper(cfg) && ReplyInv(s, cfg) && Enabled(s, ev)
    ensures ReplyInv(Next(s, ev, cfg), cfg)
  {
    NextKeepsLinkInv(s, ev, cfg);
    match ev
    case ReaderTake =>
      var line := s.transit[0];
      if cfg.isAck(line.text) {
        AckIsNotEmpty(line.text, cfg);
        ReaderReplies(s.(transit := s.transit[1..]), DQ.TryPut(line), cfg);
      }
    case ReaderMakeRoom => ReaderReplies(s, DQ.MakeRoom, cfg);
    case ReaderPutAgain => ReaderReplies(s, DQ.PutAgain, cfg);
    case FlushOne => ReaderReplies(s, DQ.FlushOne, cfg);
    case Poll => PollReplies(s, cfg);
    case _ =>
  }

  lemma {:induction false} PlayReplies(s: Link, evs: seq<Event>, cfg: Config)
    requires Proper(cfg) && ReplyInv(s, cfg) && EnabledAll(s, evs, cfg)
    ensures ReplyInv(Play(s, evs, cfg), cfg)
    decreases |evs|
  {
    if evs != [] {
      NextReplies(s, evs[0], cfg);
      PlayReplies(Next(s, evs[0], cfg), evs[1..], cfg);
    }
  }

  lemma {:induction false} AllDelivered(puts: seq<SerialLine>, fates: seq<DQ.Fate>)
    requires |fates| <= |puts| && forall k :: 0 <= k < |fates| ==> fates[k].Delivered?
    ensures Delivered(puts, fates) == puts[..|fates|]
  {
    if fates != [] {
      AllDelivered(puts, Front(fates));
      assert fates[|fates| - 1].Delivered?;
    }
  }

  /** In any run without a timeout, an eviction or a flush, whatever the printer sends, the k-th successful
      command returns the k-th ok-terminated block of the lines put on the ack queue. */
  lemma NthReplyIsNthBlock(evs: seq<Event>, cfg: Config, k: nat)
    requires Proper(cfg) && EnabledAll(Start(), evs, cfg) && Play(Start(), evs, cfg).timeouts == 0
    requires forall fate :: fate in Play(Start(), evs, cfg).queue.fates ==> fate.Delivered?
    requires k < |Play(Start(), evs, cfg).results|
    ensures k < |Blocks(Play(Start(), evs, cfg).queue.puts, cfg)|
    ensures Blocks(Play(Start(), evs, cfg).queue.puts, cfg)[k] == Play(Start(), evs, cfg).results[k].responses
  {
    PlayReplies(Start(), evs, cfg);
    NthBlock(Play(Start(), evs, cfg), cfg, k);
  }

  lemma NthBlock(s: Link, cfg: Config, k: nat)
    requires ReplyInv(s, cfg) && s.timeouts == 0 && k < |s.results|
    requires forall fate :: fate in s.queue.fates ==> fate.Delivered?
    ensures k < |Blocks(s.queue.puts, cfg)| && Blocks(s.queue.puts, cfg)[k] == s.results[k].responses
  {
    AllDelivered(s.queue.puts, s.queue.fates);
    var n := |s.queue.fates|;
    assert s.queue.puts == s.queue.puts[..n] + s.queue.puts[n..];
    assert s.queue.puts == Responses(s.results) + (Current(s) + s.queue.puts[n..]);
    BlocksOfResponses(s.results, Current(s) + s.queue.puts[n..], cfg, k);
  }

  // ---- Two readings of the ack theorem ----

  /** Without timeouts the k-th successful command is ended by the printer's answer to the k-th command written,
      even if writes failed and unrelated lines were evicted. */
  lemma InSyncWithoutTimeouts(evs: seq<Event>, cfg: Config, k: nat)
    requires Proper(cfg) && FaithfulRun(Start(), evs, cfg)
    ensures EnabledAll(Start(), evs, cfg)
    ensures k < |Play(Start(), evs, cfg).results| && Play(Start(), evs, cfg).results[k].timeouts == 0 ==>
      var r := Play(Start(), evs, cfg).results[k];
      r.responses != [] && Last(r.responses).ackOf == r.write == k + 1
  {
    StartSync(cfg);
    PlayKeepsSync(Start(), evs, cfg);
    assert ResultsOk(Play(Start(), evs, cfg).results, cfg);
  }

  /** One slow answer is enough to get out of step: the first attempt times out, its answer comes during the
      retry and ends it. */
  function SlowAnswer(ok: string): seq<Event> {
    [Send] + ([Write(true, true)] + ([Timeout] + ([Write(true, true)]
    + ([Emit(SerialLine(ok, 1))] + ([ReaderTake] + ([Poll] + []))))))
  }

  lemma Prepend(s: Link, ev: Event, rest: seq<Event>, cfg: Config)
    requires Enabled(s, ev) && Faithful(s, ev, cfg) && FaithfulRun(Next(s, ev, cfg), rest, cfg)
    ensures FaithfulRun(s, [ev] + rest, cfg) && EnabledAll(s, [ev] + rest, cfg)
    ensures EnabledAll(Next(s, ev, cfg), rest, cfg)
    ensures Play(s, [ev] + rest, cfg) == Play(Next(s, ev, cfg), rest, cfg)
  {
    assert ([ev] + rest)[1..] == rest;
    FaithfulIsEnabled(s, [ev] + rest, cfg);
  }

  lemma SlowAnswerShifts(cfg: Config, ok: string)
    requires Proper(cfg) && cfg.maxRetries >= 2 && cfg.isAck(ok) && cfg.hasOk(ok)
    ensures FaithfulRun(Start(), SlowAnswer(ok), cfg) && EnabledAll(Start(), SlowAnswer(ok), cfg)
    ensures Play(Start(), SlowAnswer(ok), cfg).results == [Result([SerialLine(ok, 1)], 2, 1, 0)]
  {
    var l := SerialLine(ok, 1);
    var s4 := Start().(comm := Reading(2, []), writes := 2, timeouts := 1);
    LateAnswerEnds(cfg, l, s4);
    Prepend(Start().(comm := Writing(2), writes := 1, timeouts := 1), Write(true, true),
            [Emit(l)] + ([ReaderTake] + ([Poll] + [])), cfg);
    Prepend(Start().(comm := Reading(1, []), writes := 1), Timeout,
            [Write(true, true)] + ([Emit(l)] + ([ReaderTake] + ([Poll] + []))), cfg);
    Prepend(Start().(comm := Writing(1)), Write(true, true),
            [Timeout] + ([Write(true, true)] + ([Emit(l)] + ([ReaderTake] + ([Poll] + [])))), cfg);
    Prepend(Start(), Send,
            [Write(true, true)] + ([Timeout] + ([Write(true, true)] + ([Emit(l)] + ([ReaderTake]
                + ([Poll] + []))))), cfg);
  }

  lemma LateAnswerEnds(cfg: Config, l: SerialLine, s4: Link)
    requires Proper(cfg) && cfg.isAck(l.text) && cfg.hasOk(l.text) && l.ackOf == 1
    requires s4 == Start().(comm := Reading(2, []), writes := 2, timeouts := 1)
    ensures FaithfulRun(s4, [Emit(l)] + ([ReaderTake] + ([Poll] + [])), cfg)
    ensures EnabledAll(s4, [Emit(l)] + ([ReaderTake] + ([Poll] + [])), cfg)
    ensures Play(s4, [Emit(l)] + ([ReaderTake] + ([Poll] + [])), cfg).results == [Result([l], 2, 1, 0)]
  {
    AckIsNotEmpty(l.text, cfg);
    var s5 := Next(s4, Emit(l), cfg);
    assert s5 == s4.(transit := [l], acked := 1);
    var s6 := Next(s5, ReaderTake, cfg);
    assert s6.queue == DQ.Queue([l], DQ.Free, [l], [], 0) && s6.comm == s4.comm;
    var s7 := Next(s6, Poll, cfg);
    Prepend(s6, Poll, [], cfg);
    Prepend(s5, ReaderTake, [Poll] + [], cfg);
    Prepend(s4, Emit(l), [ReaderTake] + ([Poll] + []), cfg);
  }
}
