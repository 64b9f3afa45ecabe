/** Whole operations of the queue processor when nobody comes in between, as runs of the interleaved machine
    (src/engine/queue_processor.py). */
module CommandTurns {
  import opened Basics
  import opened Command
  import opened CommandQueue
  import opened CommandQueueInvariant
  import opened CommandQueueTheorems

  /** What an operation of the object changes, with commands as numbers. */
  datatype Shape = Shape(queue: seq<Id>, wire: seq<Id>, recorded: seq<Id>, history: seq<Id>, engine: Engine)

  function ShapeOf(s: State): Shape {
    Shape(s.queue, s.log.wire, s.log.recorded, s.log.history, s.engine)
  }

  function EnqueueShape(v: Shape, id: Id, queueSize: nat): Shape {
    if v.engine != Shutdown && |v.queue| < queueSize then v.(queue := v.queue + [id]) else v
  }

  predicate Lost(outcome: Sent, reconnected: bool) { outcome.SerialError? && !reconnected }

  /** The entry goes to the wire and is recorded, after everything that waits if that is given up. */
  function ExecuteShape(v: Shape, e: Id, outcome: Sent, reconnected: bool, limit: nat): Shape {
    var given := if Lost(outcome, reconnected) then v.queue else [];
    var recorded := v.recorded + given + [e];
    Shape(if Lost(outcome, reconnected) then [] else v.queue, v.wire + [e], recorded, LastN(recorded, limit), Resting)
  }

  function StopShape(v: Shape, limit: nat): Shape {
    Shape([], v.wire, v.recorded + v.queue, LastN(v.recorded + v.queue, limit), Shutdown)
  }

  // ---- Enqueue ----

  function EnqueueEvents(s: State, id: Id, gcode: string): seq<Event> {
    if s.engine.Shutdown? then [Submit(id, gcode)] else [Submit(id, gcode), Put(id)]
  }

  lemma EnqueueIsMachine(s: State, id: Id, gcode: string, lim: Limits)
    requires id !in s.log.status
    ensures EnabledAll(s, EnqueueEvents(s, id, gcode), lim)
    ensures ShapeOf(Play(s, EnqueueEvents(s, id, gcode), lim)) == EnqueueShape(ShapeOf(s), id, lim.queueSize)
  {
    var evs := EnqueueEvents(s, id, gcode);
    var s1 := Next(s, Submit(id, gcode), lim);
    if s.engine.Shutdown? {
      PlayOne(s, evs, lim);
    } else {
      PlayOne(s1, evs[1..], lim);
      PlayLonger(s, evs, s1, evs[1..], lim);
    }
  }

  // ---- One entry ----

  /** From the entry in hand to the top of the loop. */
  function TurnEvents(outcome: Sent, reconnected: bool, waiting: nat): seq<Event> {
    [BeginSend, EndSend(outcome)]
    + ((match outcome
        case Acknowledged(_) => []
        case SerialError(_) => [Reconnect(reconnected)] + (if reconnected then [] else DrainEvents(waiting))
        case _ => [Recovered])
       + [Record, Signal])
  }

  /** The end of a turn. */
  lemma RecordAndSignal(s: State, lim: Limits)
    requires s.worker.Recording? && lim.history > 0 && HistoryInv(s, lim)
    ensures EnabledAll(s, [Record, Signal], lim)
    ensures var t := Play(s, [Record, Signal], lim);
      && t.worker.AtTop? && t.queue == s.queue && t.log.wire == s.log.wire && t.engine == s.engine
      && t.log.recorded == s.log.recorded + [s.worker.entry]
      && t.log.history == LastN(s.log.recorded + [s.worker.entry], lim.history)
      && t.log.fired == s.log.fired + {s.worker.entry} && t.log.status == s.log.status
  {
    var evs := [Record, Signal];
    var s1 := Next(s, Record, lim);
    LastNAfter(s.log.recorded, s.worker.entry, lim.history);
    PlayOne(s1, evs[1..], lim);
    PlayLonger(s, evs, s1, evs[1..], lim);
  }

  /** Its middle: recovery, reconnect and drain, up to the finally block. */
  lemma Recovery(s: State, outcome: Sent, reconnected: bool, lim: Limits) returns (evs: seq<Event>, t: State)
    requires lim.history > 0 && HistoryInv(s, lim)
    requires match outcome
             case Acknowledged(_) => s.worker.Recording? && s.engine.Resting?
             case SerialError(_) => s.worker.Reconnecting?
             case _ => s.worker.Recovering?
    ensures evs == match outcome
                   case Acknowledged(_) => []
                   case SerialError(_) =>
                     [Reconnect(reconnected)] + (if reconnected then [] else DrainEvents(|s.queue|))
                   case _ => [Recovered]
    ensures EnabledAll(s, evs, lim) && t == Play(s, evs, lim) && HistoryInv(t, lim)
    ensures t.worker == Recording(s.worker.entry) && t.engine.Resting? && t.log.wire == s.log.wire
    ensures if Lost(outcome, reconnected) then t.queue == [] && t.log.recorded == s.log.recorded + s.queue
            else t.queue == s.queue && t.log.recorded == s.log.recorded
  {
    match outcome
    case Acknowledged(_) =>
      evs, t := [], s;
    case SerialError(_) =>
      var s1 := Next(s, Reconnect(reconnected), lim);
      var rest: seq<Event> := [];
      t := s1;
      if !reconnected {
        rest := DrainEvents(|s.queue|);
        DrainClears(s1, lim);
        t := Play(s1, rest, lim);
      }
      evs := [Reconnect(reconnected)] + rest;
      PlayStep(s, Reconnect(reconnected), rest, lim);
    case _ =>
      evs := [Recovered];
      PlayOne(s, evs, lim);
      t := Next(s, Recovered, lim);
  }

  lemma {:induction false} PlayTogether(s: State, a: seq<Event>, b: seq<Event>, lim: Limits)
    requires EnabledAll(s, a, lim) && EnabledAll(Play(s, a, lim), b, lim)
    ensures EnabledAll(s, a + b, lim) && Play(s, a + b, lim) == Play(Play(s, a, lim), b, lim)
    decreases |a|
  {
    if a == [] {
      assert a + b == b;
    } else {
      PlayTogether(Next(s, a[0], lim), a[1..], b, lim);
      assert (a + b)[1..] == a[1..] + b;
    }
  }

  lemma SendPart(s: State, outcome: Sent, lim: Limits) returns (t: State)
    requires s.worker.Picked?
    ensures EnabledAll(s, [BeginSend, EndSend(outcome)], lim) && t == Play(s, [BeginSend, EndSend(outcome)], lim)
    ensures ShapeOf(t) == ShapeOf(s).(wire := s.log.wire + [s.worker.entry], engine := t.engine)
    ensures t.worker == match outcome
                        case Acknowledged(_) => Recording(s.worker.entry)
                        case SerialError(_) => Reconnecting(s.worker.entry)
                        case _ => Recovering(s.worker.entry)
    ensures t.engine == if outcome.Acknowledged? then Resting else InError
    ensures t.log.fired == s.log.fired
  {
    var evs := [BeginSend, EndSend(outcome)];
    var s1 := Next(s, BeginSend, lim);
    t := Next(s1, EndSend(outcome), lim);
    PlayOne(s1, evs[1..], lim);
    PlayLonger(s, evs, s1, evs[1..], lim);
  }

  /** An uninterrupted turn of the worker changes the queue, the wire, the record, the history and the state as the
      object's `_execute_entry` does. */
  lemma TurnIsMachine(s: State, outcome: Sent, reconnected: bool, lim: Limits)
    requires s.worker.Picked? && lim.history > 0 && HistoryInv(s, lim)
    ensures var evs := TurnEvents(outcome, reconnected, |s.queue|);
      && EnabledAll(s, evs, lim) && Play(s, evs, lim).worker.AtTop?
      && ShapeOf(Play(s, evs, lim)) == ExecuteShape(ShapeOf(s), s.worker.entry, outcome, reconnected, lim.history)
  {
    var a := [BeginSend, EndSend(outcome)];
    var s1 := SendPart(s, outcome, lim);
    var b, s2 := Recovery(s1, outcome, reconnected, lim);
    RecordAndSignal(s2, lim);
    PlayTogether(s1, b, [Record, Signal], lim);
    PlayTogether(s, a, b + [Record, Signal], lim);
    assert s.log.recorded + [] == s.log.recorded;
  }

  // ---- Stop ----

  function StopDrainEvents(n: nat): seq<Event> {
    if n == 0 then [StopEnd] else [StopTake, StopMark, StopRecord] + StopDrainEvents(n - 1)
  }

  lemma StopRound(s: State, rest: seq<Event>, lim: Limits) returns (s': State)
    requires s.stopper.StopDrains? && s.queue != [] && lim.history > 0 && HistoryInv(s, lim)
    ensures s'.stopper == s.stopper && s'.queue == s.queue[1..] && HistoryInv(s', lim)
    ensures s'.log.recorded == s.log.recorded + [s.queue[0]] && s'.log.wire == s.log.wire && s'.engine == s.engine
    ensures s'.log.status == s.log.status[s.queue[0] := REJECTED]
    ensures EnabledAll(s', rest, lim) ==>
              var evs := [StopTake, StopMark, StopRecord] + rest;
              EnabledAll(s, evs, lim) && Play(s, evs, lim) == Play(s', rest, lim)
  {
    var s1 := Next(s, StopTake, lim);
    var s2 := Next(s1, StopMark, lim);
    s' := Next(s2, StopRecord, lim);
    LastNAfter(s.log.recorded, s.queue[0], lim.history);
    if EnabledAll(s', rest, lim) {
      var evs := [StopTake, StopMark, StopRecord] + rest;
      assert evs[3..] == rest;
      PlayLonger(s2, evs[2..], s', evs[3..], lim);
      PlayLonger(s1, evs[1..], s2, evs[2..], lim);
      PlayLonger(s, evs, s1, evs[1..], lim);
    }
  }

  lemma {:induction false} StopDrainClears(s: State, lim: Limits)
    requires s.stopper.StopDrains? && lim.history > 0 && HistoryInv(s, lim)
    ensures EnabledAll(s, StopDrainEvents(|s.queue|), lim)
    ensures var t := Play(s, StopDrainEvents(|s.queue|), lim);
      && t.stopper.Stopped? && t.log.status == MarkAll(s.log.status, s.queue, REJECTED)
      && ShapeOf(t) == StopShape(ShapeOf(s), lim.history).(engine := s.engine)
    decreases |s.queue|
  {
    if s.queue == [] {
      PlayOne(s, StopDrainEvents(0), lim);
      assert s.log.recorded + s.queue == s.log.recorded;
    } else {
      var s1 := StopRound(s, StopDrainEvents(|s.queue| - 1), lim);
      StopDrainClears(s1, lim);
      HeadOver(s.log.recorded, s.queue);
    }
  }

  /** So does an uninterrupted stop as the object's `stop`. */
  lemma StopIsMachine(s: State, lim: Limits)
    requires Enabled(s, StopFlag) && lim.history > 0 && HistoryInv(s, lim)
    ensures var evs := [StopFlag, StopState, StopJoined] + StopDrainEvents(|s.queue|);
      && EnabledAll(s, evs, lim) && Play(s, evs, lim).stopper.Stopped?
      && ShapeOf(Play(s, evs, lim)) == StopShape(ShapeOf(s), lim.history)
      && Play(s, evs, lim).log.status == MarkAll(s.log.status, s.queue, REJECTED)
  {
    var evs := [StopFlag, StopState, StopJoined] + StopDrainEvents(|s.queue|);
    var s1 := Next(s, StopFlag, lim);
    var s2 := Next(s1, StopState, lim);
    var s3 := Next(s2, StopJoined, lim);
    StopDrainClears(s3, lim);
    assert evs[3..] == StopDrainEvents(|s.queue|);
    PlayLonger(s2, evs[2..], s3, evs[3..], lim);
    PlayLonger(s1, evs[1..], s2, evs[2..], lim);
    PlayLonger(s, evs, s1, evs[1..], lim);
  }
}
