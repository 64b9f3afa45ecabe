/** The queue processor's object (src/engine/queue_processor.py), each method running without interference. How
    other threads come in between is in CommandQueue. */
module QueueProcessor {
  import opened Basics
  import opened Command
  import CQ = CommandQueue
  import opened CommandTurns

  /** The numbers of these entries. */
  function Ids(entries: seq<CommandEntry>): (ids: seq<nat>)
    ensures |ids| == |entries|
    ensures forall k :: 0 <= k < |entries| ==> ids[k] == entries[k].commandId
  {
    seq(|entries|, k requires 0 <= k < |entries| => entries[k].commandId)
  }

  lemma IdsOfLast(entries: seq<CommandEntry>, n: nat)
    ensures Ids(LastN(entries, n)) == LastN(Ids(entries), n)
  {
  }

  lemma ExecutedIds(wire: seq<CommandEntry>, recorded: seq<CommandEntry>, given: seq<CommandEntry>, e: CommandEntry,
                    limit: nat)
    ensures Ids(wire + [e]) == Ids(wire) + [e.commandId]
    ensures Ids(recorded + given + [e]) == Ids(recorded) + Ids(given) + [e.commandId]
    ensures recorded + [] + [e] == recorded + [e] && Ids([]) == []
    ensures Ids(LastN(recorded + given + [e], limit)) == LastN(Ids(recorded + given + [e]), limit)
  {
    IdsOfLast(recorded + given + [e], limit);
  }

  lemma IdsAppend(a: seq<CommandEntry>, b: seq<CommandEntry>)
    ensures Ids(a + b) == Ids(a) + Ids(b)
  {
  }

  /** What a failed entry says for each way a send can fail. */
  function FailureOf(result: CQ.Sent): string
    requires !result.Acknowledged?
  {
    match result
    case Unresponsive(why) => why
    case SerialError(why) => "Serial disconnected: " + why
    case OtherError(why) => "Unexpected error: " + why
  }

  class QueueProcessor {
    const queueSize: nat
    const historyLimit: nat
    var queue: seq<CommandEntry>
    var state: CQ.Engine
    var current: Option<CommandEntry>
    var history: seq<CommandEntry>
    ghost var accepted: seq<CommandEntry>
    ghost var wire: seq<CommandEntry>
    ghost var recorded: seq<CommandEntry>

    /** The history is the end of everything ever recorded. */
    ghost predicate HistoryKept()
      reads this`history, `recorded, this`recorded
    {
      historyLimit > 0 && history == LastN(recorded, historyLimit)
    }

    /** What the machine's Shape is of. */
    ghost function ShapeNow(): Shape
      reads this
    {
      Shape(Ids(queue), Ids(wire), Ids(recorded), Ids(history), state)
    }

    constructor (queueSize: nat, historyLimit: nat)
      ensures this.queueSize == queueSize && this.historyLimit == historyLimit && (historyLimit > 0 ==> HistoryKept())
      ensures queue == recorded == accepted == wire == [] && state == CQ.Resting && current == None
    {
      this.queueSize, this.historyLimit := queueSize, historyLimit;
      queue, history, recorded, accepted, wire := [], [], [], [], [];
      state, current := CQ.Resting, None;
    }

    /** Accepts exactly when not SHUTDOWN and not full; a refused entry is REJECTED and never queued. */
    method Enqueue(entry: CommandEntry) returns (ok: bool)
      modifies `queue, `accepted, entry`status, entry`error
      ensures ok <==> old(state) != CQ.Shutdown && |old(queue)| < queueSize
      ensures queue == old(queue) + (if ok then [entry] else [])
      ensures accepted == old(accepted) + (if ok then [entry] else [])
      ensures ok ==> entry.Result() == old(entry.Result())
      ensures !ok ==> entry.status == REJECTED
      ensures !ok ==>
        entry.error == Some(if old(state) == CQ.Shutdown then "System is shutting down." else "Command queue is full.")
      ensures ShapeNow() == EnqueueShape(old(ShapeNow()), entry.commandId, queueSize)
    {
      IdsAppend(queue, [entry]);
      if state == CQ.Shutdown {
        entry.MarkRejected("System is shutting down.");
        return false;
      }
      if |queue| < queueSize {
        queue := queue + [entry];
        accepted := accepted + [entry];
        return true;
      }
      entry.MarkRejected("Command queue is full.");
      ok := false;
    }

    method RecordHistory(entry: CommandEntry)
      requires HistoryKept()
      modifies `history, `recorded, `recorded
      ensures HistoryKept() && recorded == old(recorded) + [entry]
    {
      LastNAfter(recorded, entry, historyLimit);
      recorded := recorded + [entry];
      history := history + [entry];
      if |history| > historyLimit {
        history := history[|history| - historyLimit..];
      }
    }

    /** One round of a drain: the oldest entry leaves the queue, gets its final status and is recorded. */
    method DrainOne(entry: CommandEntry, status: CommandStatus, reason: string)
      requires queue != [] && entry == queue[0] && status in {FAILED, REJECTED} && HistoryKept()
      modifies `queue, `history, `recorded, entry`status, entry`error
      ensures queue == old(queue)[1..] && HistoryKept() && recorded == old(recorded) + [entry]
      ensures entry.status == status && entry.error == Some(reason)
    {
      queue := queue[1..];
      if status == FAILED {
        entry.MarkFailed(reason);
      } else {
        entry.MarkRejected(reason);
      }
      RecordHistory(entry);
    }

    /** Every waiting entry gets the final status and is recorded, in order; the queue ends empty. With FAILED this is
        `_drain_queue_on_error`, with REJECTED `_drain_queue_on_shutdown`. */
    method Drain(status: CommandStatus, reason: string)
      requires status in {FAILED, REJECTED} && HistoryKept()
      modifies `queue, `history, `recorded, queue
      ensures queue == [] && HistoryKept() && recorded == old(recorded) + old(queue)
      ensures forall e :: e in old(queue) ==> e.status == status && e.error == Some(reason) && e.done == old(e.done)
    {
      ghost var h, q := recorded, queue;
      ghost var k := 0;
      while queue != []
        invariant k <= |q| && queue == q[k..]
        invariant HistoryKept() && recorded == h + q[..k]
        invariant forall i :: 0 <= i < |q| ==> q[i].done == old(q[i].done)
        invariant forall i :: 0 <= i < k ==> q[i].status == status && q[i].error == Some(reason)
        decreases |q| - k
      {
        var entry := queue[0];
        OneFurther(h, q, k);
        DrainOne(entry, status, reason);
        k := k + 1;
      }
      Whole(q);
    }

    /** Once the worker is out of the way: the state is SHUTDOWN and everything that waited is REJECTED. */
    method Stop()
      requires HistoryKept()
      modifies `queue, `history, `recorded, `state, queue
      ensures state == CQ.Shutdown && queue == [] && HistoryKept() && recorded == old(recorded) + old(queue)
      ensures forall e :: e in old(queue) ==> e.status == REJECTED && e.error == Some("System shutdown.")
      ensures ShapeNow() == StopShape(old(ShapeNow()), historyLimit)
    {
      IdsAppend(recorded, queue);
      state := CQ.Shutdown;
      Drain(REJECTED, "System shutdown.");
      IdsOfLast(recorded, historyLimit);
    }

    /** The entry goes to the wire and gets the status the send earns. */
    method SendEntry(entry: CommandEntry, result: CQ.Sent)
      modifies `state, `current, `wire, entry
      ensures wire == old(wire) + [entry] && entry.attempts == old(entry.attempts) + 1
      ensures if result.Acknowledged? then entry.status == OK && entry.responses == result.responses
              else entry.status == FAILED && entry.error == Some(FailureOf(result))
      ensures state == (if result.Acknowledged? then CQ.Resting else CQ.InError) && current == Some(entry)
    {
      current, state := Some(entry), CQ.Busy;
      state := CQ.WaitingForOk;
      entry.MarkSent();
      wire := wire + [entry];
      state := if result.Acknowledged? then CQ.Resting else CQ.InError;
      match result {
        case Acknowledged(responses) => entry.MarkOk(responses);
        case Unresponsive(why) => entry.MarkFailed(why);
        case SerialError(why) => entry.MarkFailed("Serial disconnected: " + why);
        case OtherError(why) => entry.MarkFailed("Unexpected error: " + why);
      }
    }

    /** One entry, taken from the queue, is driven through its whole life. A port error with a failed reconnect also
        fails and records everything that waits, before the entry itself is recorded. */
    method ExecuteEntry(entry: CommandEntry, result: CQ.Sent, reconnected: bool)
      requires HistoryKept() && entry !in queue
      modifies `queue, `history, `recorded, `state, `current, `wire, entry
      modifies queue
      ensures wire == old(wire) + [entry] && entry.attempts == old(entry.attempts) + 1 && entry.done
      ensures if result.Acknowledged? then entry.status == OK && entry.responses == result.responses
              else entry.status == FAILED && entry.error == Some(FailureOf(result))
      ensures state == CQ.Resting && current == None && HistoryKept()
      ensures var lost := result.SerialError? && !reconnected;
        if lost then
          && queue == [] && recorded == old(recorded) + old(queue) + [entry]
          && forall e :: e in old(queue) ==>
               e.status == FAILED && e.error == Some("Serial connection lost.") && e.done == old(e.done)
        else
          && queue == old(queue) && recorded == old(recorded) + [entry]
          && forall e :: e in old(queue) ==> e.status == old(e.status) && e.error == old(e.error)
      ensures ShapeNow() == ExecuteShape(old(ShapeNow()), entry.commandId, result, reconnected, historyLimit)
    {
      SendEntry(entry, result);
      if result.SerialError? && !reconnected {
        Drain(FAILED, "Serial connection lost.");
      }
      state := CQ.Resting;
      RecordHistory(entry);
      current := None;
      entry.done := true;
      ExecutedIds(old(wire), old(recorded), if Lost(result, reconnected) then old(queue) else [], entry, historyLimit);
    }

    /** One round with a command waiting: the oldest goes to the wire, and what leaves the queue ends final. */
    method Round(result: CQ.Sent, reconnected: bool)
      requires HistoryKept() && queue != [] && Distinct(queue)
      modifies `queue, `history, `recorded, `state, `current, `wire, queue
      ensures wire == old(wire) + [old(queue)[0]] && HistoryKept()
      ensures (queue == [] || queue == old(queue)[1..]) && Distinct(queue)
      ensures forall e :: e in old(queue) && e !in queue ==> IsTerminal(e.status)
    {
      var entry := queue[0];
      queue := queue[1..];
      ExecuteEntry(entry, result, reconnected);
    }

    /** The worker loop, leaving after as many rounds as it is given: a prefix of the queue goes to the wire in order,
        and whatever has left the queue has a final status. */
    method RunLoop(rounds: seq<(CQ.Sent, bool)>) returns (sent: nat)
      requires HistoryKept() && Distinct(queue)
      modifies `queue, `history, `recorded, `state, `current, `wire, queue
      ensures sent <= |old(queue)| && wire == old(wire) + old(queue)[..sent]
      ensures queue == [] || queue == old(queue)[sent..]
      ensures forall e :: e in old(queue) && e !in queue ==> IsTerminal(e.status)
    {
      sent := 0;
      ghost var q := queue;
      for i := 0 to |rounds|
        invariant sent <= |q| && wire == old(wire) + q[..sent]
        invariant (queue == [] || queue == q[sent..]) && Distinct(queue)
        invariant forall e :: e in queue ==> e in q
        invariant forall e :: e in q && e !in queue ==> IsTerminal(e.status)
        invariant HistoryKept()
      {
        if queue == [] {
          state := CQ.Resting;
        } else {
          OneFurther(old(wire), q, sent);
          Round(rounds[i].0, rounds[i].1);
          sent := sent + 1;
        }
      }
    }
  }

  lemma OneFurther<T>(before: seq<T>, q: seq<T>, k: nat)
    requires k < |q|
    ensures (before + q[..k]) + [q[k]] == before + q[..k + 1] && q[k..][1..] == q[k + 1..] && q[k..][0] == q[k]
  {
  }

  lemma Whole<T>(q: seq<T>)
    ensures q[..|q|] == q
  {
  }
}
