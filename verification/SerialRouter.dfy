/** The single serial reader (src/hardware/serial_router.py): which lines reach the ack queue, and the reader
    loop, the put and the flush while no other thread interferes. Interference is in DropQueue and SerialLink. */
module SerialRouter {
  import opened Basics
  import opened AckKinds
  import DropQueue

  /** No empty line is routed to the ack queue. */
  lemma AckLineIsNotEmpty(line: string)
    requires IsAckLine(line)
    ensures line != ""
  {
  }

  function AckLines(lines: seq<string>): seq<string> {
    if lines == [] then []
    else if IsAckLine(Last(lines)) then AckLines(Front(lines)) + [Last(lines)]
    else AckLines(Front(lines))
  }

  function AckOf(line: string): Option<string> { if IsAckLine(line) then Some(line) else None }

  lemma {:induction false} AckLinesCollect(lines: seq<string>)
    ensures AckLines(lines) == Collect(lines, AckOf)
  {
    if lines != [] {
      AckLinesCollect(Front(lines));
    }
  }

  /** They are the answers among the lines, each as often as it comes, in order. */
  lemma AckLinesAre(lines: seq<string>) returns (at: seq<nat>)
    ensures Increasing(at, |lines|) && |at| == |AckLines(lines)|
    ensures forall k :: 0 <= k < |at| ==> lines[at[k]] == AckLines(lines)[k] && IsAnswer(lines[at[k]])
    ensures forall i :: 0 <= i < |lines| && IsAnswer(lines[i]) ==> i in at
  {
    AckLinesCollect(lines);
    at := CollectPicks(lines, AckOf);
    forall i | 0 <= i < |lines|
      ensures AckOf(lines[i]).Some? <==> IsAnswer(lines[i])
    {
      AckLineIff(lines[i]);
    }
  }

  /** Put with nobody interfering: make room if full, then append. */
  method PutNowait(q: seq<string>, line: string, cap: nat) returns (r: seq<string>)
    requires 0 < cap && |q| <= cap
    ensures r == LastN(q + [line], cap)
  {
    if |q| < cap {
      return q + [line];
    }
    r := q[1..] + [line];
  }

  /** The uninterrupted put is a run of the machine in DropQueue. */
  lemma PutNowaitIsMachine(q: DropQueue.Queue<string>, line: string, cap: nat)
    requires 0 < cap && DropQueue.Inv(q, cap) && q.producer.Free?
    ensures var q1 := DropQueue.Apply(q, DropQueue.TryPut(line), cap);
      if q1.producer.Free? then q1.items == LastN(q.items + [line], cap)
      else
        var q2 := DropQueue.Apply(q1, DropQueue.MakeRoom, cap);
        DropQueue.Apply(q2, DropQueue.PutAgain, cap).items == LastN(q.items + [line], cap)
  {
  }

  class SerialRouter {
    const ackSize: nat
    const telemetrySize: nat
    var ackQueue: seq<string>
    var telemetryQueue: seq<string>

    ghost predicate Valid()
      reads this
    {
      0 < ackSize && 0 < telemetrySize && |ackQueue| <= ackSize && |telemetryQueue| <= telemetrySize
    }

    constructor (ackSize: nat, telemetrySize: nat)
      requires 0 < ackSize && 0 < telemetrySize
      ensures Valid() && ackQueue == [] && telemetryQueue == []
      ensures this.ackSize == ackSize && this.telemetrySize == telemetrySize
    {
      this.ackSize, this.telemetrySize := ackSize, telemetrySize;
      ackQueue, telemetryQueue := [], [];
    }

    /** One line read: all lines go to the telemetry queue, ack lines also to the ack queue. */
    method Route(line: string)
      requires Valid()
      modifies this
      ensures Valid()
      ensures telemetryQueue == LastN(old(telemetryQueue) + [line], telemetrySize)
      ensures ackQueue == if IsAnswer(line) then LastN(old(ackQueue) + [line], ackSize) else old(ackQueue)
    {
      AckLineIff(line);
      telemetryQueue := PutNowait(telemetryQueue, line, telemetrySize);
      if IsAckLine(line) {
        ackQueue := PutNowait(ackQueue, line, ackSize);
      }
    }

    /** Over any number of lines each queue keeps the newest of what it was given. */
    method ReadLoop(lines: seq<string>)
      requires Valid()
      modifies this
      ensures Valid()
      ensures telemetryQueue == LastN(old(telemetryQueue) + lines, telemetrySize)
      ensures ackQueue == LastN(old(ackQueue) + AckLines(lines), ackSize)
    {
      ghost var t, a := telemetryQueue, ackQueue;
      assert t + [] == t && a + [] == a;
      for k := 0 to |lines|
        invariant Valid()
        invariant telemetryQueue == LastN(t + lines[..k], telemetrySize)
        invariant ackQueue == LastN(a + AckLines(lines[..k]), ackSize)
      {
        ghost var before, acks := lines[..k], AckLines(lines[..k]);
        AckLineIff(lines[k]);
        Route(lines[k]);
        PrefixStep(lines, k);
        AckStep(lines, k);
        RouteStep(t, before, a, acks, lines[k], telemetrySize, ackSize);
      }
      assert lines[..|lines|] == lines;
    }

    method ResetQueues()
      requires Valid()
      modifies this
      ensures Valid() && ackQueue == [] && telemetryQueue == []
    {
      while ackQueue != []
        invariant Valid()
        decreases |ackQueue|
      {
        ackQueue := ackQueue[1..];
      }
      while telemetryQueue != []
        invariant Valid() && ackQueue == []
        decreases |telemetryQueue|
      {
        telemetryQueue := telemetryQueue[1..];
      }
    }
  }

  /** Putting x after each queue has kept the newest of what it was given. */
  lemma RouteStep<T>(t: seq<T>, lines: seq<T>, a: seq<T>, acks: seq<T>, x: T, tn: nat, an: nat)
    requires 0 < tn && 0 < an
    ensures LastN(LastN(t + lines, tn) + [x], tn) == LastN(t + (lines + [x]), tn)
    ensures LastN(LastN(a + acks, an) + [x], an) == LastN(a + (acks + [x]), an)
  {
    assert t + (lines + [x]) == (t + lines) + [x];
    LastNAfter(t + lines, x, tn);
    assert a + (acks + [x]) == (a + acks) + [x];
    LastNAfter(a + acks, x, an);
  }

  lemma PrefixStep<T>(s: seq<T>, k: nat)
    requires k < |s|
    ensures s[..k + 1] == s[..k] + [s[k]]
  {
  }

  lemma AckStep(lines: seq<string>, k: nat)
    requires k < |lines|
    ensures AckLines(lines[..k + 1])
         == if IsAckLine(lines[k]) then AckLines(lines[..k]) + [lines[k]] else AckLines(lines[..k])
  {
    assert Front(lines[..k + 1]) == lines[..k];
  }
}
