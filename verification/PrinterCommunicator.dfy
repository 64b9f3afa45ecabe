/** The request-reply loop (src/hardware/printer_communicator.py) with its timing as input: for each attempt,
    whether the write succeeds and what each `ack_queue.get` before the deadline returns. */
module PrinterCommunicator {
  import opened Basics
  import opened AckKinds
  import SerialLink
  import DQ = DropQueue

  /** One `ack_queue.get`: a line, or queue.Empty. */
  datatype Poll = Got(line: string) | Nothing

  datatype Attempt = WriteFails | Written(polls: seq<Poll>)

  datatype Outcome = Replied(responses: seq<string>) | Unresponsive | NotConnected

  predicate EndsReply(p: Poll) { p.Got? && p.line != "" && HasOk(p.line) }

  /** The non-empty lines among the polls. */
  function Lines(polls: seq<Poll>): seq<string> {
    if polls == [] then []
    else if Last(polls).Got? && Last(polls).line != "" then Lines(Front(polls)) + [Last(polls).line]
    else Lines(Front(polls))
  }

  predicate NoReply(polls: seq<Poll>) {
    forall k :: 0 <= k < |polls| ==> !EndsReply(polls[k])
  }

  datatype Gathered = Ended(lines: seq<string>) | Unended(lines: seq<string>)

  /** What a reply that already holds `lines` gathers from the polls, and whether it ends within them. */
  function Gather(lines: seq<string>, polls: seq<Poll>, hasOk: string -> bool): Gathered
    decreases |polls|
  {
    if polls == [] then Unended(lines)
    else if polls[0].Nothing? || polls[0].line == "" then Gather(lines, polls[1..], hasOk)
    else if hasOk(polls[0].line) then Ended(lines + [polls[0].line])
    else Gather(lines + [polls[0].line], polls[1..], hasOk)
  }

  lemma SliceStep<T>(s: seq<T>, k: nat)
    requires k < |s|
    ensures s[k..] != [] && s[k..][0] == s[k] && s[k..][1..] == s[k + 1..]
    ensures s[..k + 1] != [] && Front(s[..k + 1]) == s[..k] && Last(s[..k + 1]) == s[k]
  {
  }

  /** The reply is everything read up to the first ok; None means the deadline came first. */
  method ReadUntilOk(polls: seq<Poll>) returns (responses: Option<seq<string>>, used: nat)
    ensures used <= |polls|
    ensures responses.Some? ==>
              && used > 0 && EndsReply(polls[used - 1]) && NoReply(polls[..used - 1])
              && responses.value == Lines(polls[..used])
    ensures responses.None? ==> used == |polls| && NoReply(polls)
    ensures var g := Gather([], polls, HasOk); responses == if g.Ended? then Some(g.lines) else None
  {
    var collected: seq<string> := [];
    used := 0;
    while used < |polls|
      invariant used <= |polls|
      invariant collected == Lines(polls[..used])
      invariant NoReply(polls[..used])
      invariant Gather([], polls, HasOk) == Gather(collected, polls[used..], HasOk)
    {
      var p := polls[used];
      SliceStep(polls, used);
      used := used + 1;
      if p.Got? && p.line != "" {
        collected := collected + [p.line];
        if HasOk(p.line) {
          return Some(collected), used;
        }
      }
    }
    assert polls[..used] == polls;
    responses := None;
  }

  /** The attempt that brings a reply, or the number of attempts allowed. */
  function FirstReply(attempts: seq<Attempt>, limit: nat): (k: nat)
    requires limit <= |attempts|
    ensures k <= limit
    ensures k < limit ==> attempts[k].Written? && !NoReply(attempts[k].polls)
    ensures forall i :: 0 <= i < k ==> attempts[i].WriteFails? || NoReply(attempts[i].polls)
  {
    if limit == 0 then 0
    else if attempts[0].Written? && !NoReply(attempts[0].polls) then 0
    else
      var k := FirstReply(attempts[1..], limit - 1);
      assert forall i :: 1 <= i < k + 1 ==> attempts[i] == attempts[1..][i - 1];
      k + 1
  }

  function WritesIn(attempts: seq<Attempt>): nat {
    if attempts == [] then 0 else WritesIn(Front(attempts)) + (if Last(attempts).Written? then 1 else 0)
  }

  class PrinterCommunicator {
    const maxRetries: nat
    ghost var written: seq<string>

    constructor (maxRetries: nat)
      ensures this.maxRetries == maxRetries && written == []
    {
      this.maxRetries := maxRetries;
      written := [];
    }

    /** The command is written once per attempt until a reply comes; the reply of the first attempt that gets one
        is returned, and after the last attempt the printer is reported unresponsive. */
    method SendCommand(command: string, connected: bool, attempts: seq<Attempt>) returns (r: Outcome)
      requires maxRetries <= |attempts|
      modifies this
      ensures !connected ==> r.NotConnected? && written == old(written)
      ensures connected ==>
                var k := FirstReply(attempts, maxRetries);
                && (r.Replied? <==> k < maxRetries) && !r.NotConnected?
                && written == old(written) + Repeat(command, WritesIn(attempts[..if k < maxRetries then k + 1 else k]))
      ensures r.Replied? ==>
                var polls := attempts[FirstReply(attempts, maxRetries)].polls;
                exists n {:trigger polls[..n]} :: 0 < n <= |polls| && EndsReply(polls[n - 1]) && NoReply(polls[..n - 1])
                       && r.responses == Lines(polls[..n])
    {
      if !connected {
        return NotConnected;
      }
      var attempt := 0;
      while attempt < maxRetries
        invariant attempt <= maxRetries
        invariant forall i :: 0 <= i < attempt ==> attempts[i].WriteFails? || NoReply(attempts[i].polls)
        invariant written == old(written) + Repeat(command, WritesIn(attempts[..attempt]))
      {
        assert Front(attempts[..attempt + 1]) == attempts[..attempt];
        match attempts[attempt] {
          case WriteFails =>
          case Written(polls) =>
            written := written + [command];
            var responses, used := ReadUntilOk(polls);
            if responses.Some? {
              assert FirstReply(attempts, maxRetries) == attempt;
              assert 0 < used <= |polls| && responses.value == Lines(polls[..used]);
              return Replied(responses.value);
            }
        }
        attempt := attempt + 1;
      }
      r := Unresponsive;
    }
  }

  function Repeat(s: string, n: nat): seq<string> {
    seq(n, _ => s)
  }

  // ---- The loop is the machine of SerialLink ----

  /** Poll for as long as a reply is being read and lines are there. */
  function PollAll(s: SerialLink.Link, cfg: SerialLink.Config): SerialLink.Link
    decreases |s.queue.items|
  {
    if s.comm.Reading? && s.queue.items != [] then PollAll(SerialLink.PollStep(s, cfg), cfg) else s
  }

  function Texts(lines: seq<SerialLink.SerialLine>): seq<string> {
    seq(|lines|, k requires 0 <= k < |lines| => lines[k].text)
  }

  /** A queue's lines, as the gets that would return them. */
  function AsPolls(lines: seq<SerialLink.SerialLine>): seq<Poll> {
    seq(|lines|, k requires 0 <= k < |lines| => Got(lines[k].text))
  }

  /** Polling in the machine gathers the same lines and ends in the same case. */
  lemma {:induction false} PollAllGathers(s: SerialLink.Link, cfg: SerialLink.Config)
    requires s.comm.Reading?
    ensures var s' := PollAll(s, cfg);
      match Gather(Texts(s.comm.responses), AsPolls(s.queue.items), cfg.hasOk)
      case Ended(lines) =>
        && s'.comm.Idle? && |s'.results| == |s.results| + 1 && s'.results[..|s.results|] == s.results
        && Texts(Last(s'.results).responses) == lines
      case Unended(lines) =>
        s'.comm.Reading? && s'.results == s.results && Texts(s'.comm.responses) == lines
    decreases |s.queue.items|
  {
    if s.queue.items != [] {
      var line, s1 := s.queue.items[0], SerialLink.PollStep(s, cfg);
      assert AsPolls(s1.queue.items) == AsPolls(s.queue.items)[1..];
      TextsGrow(s.comm.responses, line);
      if s1.comm.Reading? {
        PollAllGathers(s1, cfg);
      }
    }
  }

  lemma TextsGrow(lines: seq<SerialLink.SerialLine>, l: SerialLink.SerialLine)
    ensures Texts(lines + [l]) == Texts(lines) + [l.text]
  {
  }
}
