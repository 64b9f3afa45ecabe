/** The command queue as a state machine: callers, the worker thread and a stopping thread interleave
    (src/engine/queue_processor.py). Commands are named by numbers. */
module CommandQueue {
  import opened Basics
  import opened Command

  type Id = nat

  datatype Engine = Resting | Busy | WaitingForOk | InError | Shutdown

  /** Where the worker thread is. */
  datatype Worker =
    | Dead                                // no live thread
    | AtTop                               // about to test the shutdown event
    | Getting                             // in queue.get
    | Picked(entry: Id)                   // has an entry it has not marked
    | Sending(entry: Id)                  // in send_command
    | Recovering(entry: Id)               // failed; the state returns to IDLE next
    | Reconnecting(entry: Id)             // failed; in reconnect
    | Draining(entry: Id)                 // reconnect failed; emptying the queue
    | DrainHolds(entry: Id, taken: Id)    // took one, not marked yet
    | DrainMarked(entry: Id, taken: Id)   // marked it, not recorded yet
    | Recording(entry: Id)                // in the finally block
    | Signalling(entry: Id)               // recorded, about to set the done event

  /** Where the stopping thread is. `Stopped` keeps how many commands had been accepted when its drain ended. */
  datatype Stopper =
    | NotStopping | FlagSet | Joining | StopDrains | StopHolds(taken: Id) | StopMarked(taken: Id) | Stopped(mark: nat)

  /** How `send_command` ends. */
  datatype Sent =
    | Acknowledged(responses: seq<string>)
    | Unresponsive(why: string)       // PrinterUnresponsiveError
    | SerialError(why: string)        // SerialConnectionError
    | OtherError(why: string)

  /** `checked`: callers that have passed the SHUTDOWN test and not put yet. `accepted` and `wire` are in order of
      put and of entering send_command; `drained` were taken by a drain; `fired` had their done event set. */
  datatype Log = Log(
    status: map<Id, CommandStatus>,
    checked: set<Id>,
    accepted: seq<Id>,
    wire: seq<Id>,
    drained: set<Id>,
    recorded: seq<Id>,
    history: seq<Id>,
    fired: set<Id>)

  datatype State = State(queue: seq<Id>, engine: Engine, shutdown: bool, worker: Worker, stopper: Stopper, log: Log)

  function Init(): State {
    State([], Resting, false, Dead, NotStopping, Log(map[], {}, [], [], {}, [], [], {}))
  }

  datatype Limits = Limits(queueSize: nat, history: nat)

  datatype Event =
    | Submit(id: Id, gcode: string)   // enqueue: the SHUTDOWN test
    | Put(id: Id)                     // enqueue: put_nowait
    | StartThread
    | TestShutdown
    | GetEntry
    | GetEmpty
    | BeginSend
    | EndSend(outcome: Sent)
    | Recovered
    | Reconnect(success: bool)
    | DrainTake | DrainMark | DrainRecord | DrainEnd
    | Record
    | Signal
    | StopFlag                // stop: the event
    | StopState               // stop: the SHUTDOWN state
    | StopJoined              // the thread ended or the join timed out
    | StopTake | StopMark | StopRecord | StopEnd

  predicate Enabled(s: State, ev: Event) {
    match ev
    case Submit(id, _) => id !in s.log.status
    case Put(id) => id in s.log.checked
    case StartThread => s.stopper.NotStopping? || s.stopper.Stopped?
    case TestShutdown => s.worker.AtTop?
    case GetEntry => s.worker.Getting? && s.queue != []
    case GetEmpty => s.worker.Getting? && s.queue == []
    case BeginSend => s.worker.Picked?
    case EndSend(_) => s.worker.Sending?
    case Recovered => s.worker.Recovering?
    case Reconnect(_) => s.worker.Reconnecting?
    case DrainTake => s.worker.Draining? && s.queue != []
    case DrainMark => s.worker.DrainHolds?
    case DrainRecord => s.worker.DrainMarked?
    case DrainEnd => s.worker.Draining? && s.queue == []
    case Record => s.worker.Recording?
    case Signal => s.worker.Signalling?
    case StopFlag => s.stopper.NotStopping? || s.stopper.Stopped?
    case StopState => s.stopper.FlagSet?
    case StopJoined => s.stopper.Joining?
    case StopTake => s.stopper.StopDrains? && s.queue != []
    case StopMark => s.stopper.StopHolds?
    case StopRecord => s.stopper.StopMarked?
    case StopEnd => s.stopper.StopDrains? && s.queue == []
  }

  function Mark(s: State, id: Id, status: CommandStatus): State {
    s.(log := s.log.(status := s.log.status[id := status]))
  }

  /** `_record_history` on the log. */
  function Recorded(log: Log, id: Id, limit: nat): Log {
    log.(recorded := log.recorded + [id], history := LastN(log.history + [id], limit))
  }

  /** Either drain takes the oldest entry. */
  function Take(s: State): State
    requires s.queue != []
  {
    s.(queue := s.queue[1..], log := s.log.(drained := s.log.drained + {s.queue[0]}))
  }

  function SubmitStep(s: State, id: Id): State {
    if s.engine.Shutdown? then Mark(s, id, REJECTED)
    else s.(log := s.log.(status := s.log.status[id := PENDING], checked := s.log.checked + {id}))
  }

  function PutStep(s: State, id: Id, queueSize: nat): State {
    var log := s.log.(checked := s.log.checked - {id});
    if |s.queue| < queueSize then s.(queue := s.queue + [id], log := log.(accepted := log.accepted + [id]))
    else Mark(s.(log := log), id, REJECTED)
  }

  function BeginSendStep(s: State): State
    requires s.worker.Picked?
  {
    var e := s.worker.entry;
    var s1 := Mark(s, e, SENT);
    s1.(engine := WaitingForOk, worker := Sending(e), log := s1.log.(wire := s1.log.wire + [e]))
  }

  function EndSendStep(s: State, outcome: Sent): State
    requires s.worker.Sending?
  {
    var e := s.worker.entry;
    match outcome
    case Acknowledged(_) => Mark(s, e, OK).(engine := Resting, worker := Recording(e))
    case SerialError(_) => Mark(s, e, FAILED).(engine := InError, worker := Reconnecting(e))
    case _ => Mark(s, e, FAILED).(engine := InError, worker := Recovering(e))
  }

  function StopStep(s: State, ev: Event, lim: Limits): State
    requires Enabled(s, ev)
  {
    match ev
    case StopFlag => s.(shutdown := true, stopper := FlagSet)
    case StopState => s.(engine := Shutdown, stopper := Joining)
    case StopJoined => s.(stopper := StopDrains)
    case StopTake => Take(s).(stopper := StopHolds(s.queue[0]))
    case StopMark => Mark(s, s.stopper.taken, REJECTED).(stopper := StopMarked(s.stopper.taken))
    case StopRecord => s.(log := Recorded(s.log, s.stopper.taken, lim.history), stopper := StopDrains)
    case StopEnd => s.(stopper := Stopped(|s.log.accepted|))
    case _ => s
  }

  function DrainStep(s: State, ev: Event, lim: Limits): State
    requires Enabled(s, ev)
  {
    match ev
    case DrainTake => Take(s).(worker := DrainHolds(s.worker.entry, s.queue[0]))
    case DrainMark =>
      Mark(s, s.worker.taken, FAILED).(worker := DrainMarked(s.worker.entry, s.worker.taken))
    case DrainRecord => s.(log := Recorded(s.log, s.worker.taken, lim.history), worker := Draining(s.worker.entry))
    case DrainEnd => s.(engine := Resting, worker := Recording(s.worker.entry))
    case _ => s
  }

  function Next(s: State, ev: Event, lim: Limits): State
    requires Enabled(s, ev)
  {
    match ev
    case Submit(id, _) => SubmitStep(s, id)
    case Put(id) => PutStep(s, id, lim.queueSize)
    case StartThread => if s.worker.Dead? then s.(shutdown := false, worker := AtTop) else s
    case TestShutdown => s.(worker := if s.shutdown then Dead else Getting)
    case GetEntry => s.(queue := s.queue[1..], worker := Picked(s.queue[0]))
    case GetEmpty => s.(engine := Resting, worker := AtTop)
    case BeginSend => BeginSendStep(s)
    case EndSend(outcome) => EndSendStep(s, outcome)
    case Recovered => s.(engine := Resting, worker := Recording(s.worker.entry))
    case Reconnect(success) =>
      if success then s.(engine := Resting, worker := Recording(s.worker.entry))
      else s.(worker := Draining(s.worker.entry))
    case Record => s.(log := Recorded(s.log, s.worker.entry, lim.history), worker := Signalling(s.worker.entry))
    case Signal => s.(log := s.log.(fired := s.log.fired + {s.worker.entry}), worker := AtTop)
    case _ =>
      if ev.DrainTake? || ev.DrainMark? || ev.DrainRecord? || ev.DrainEnd? then DrainStep(s, ev, lim)
      else StopStep(s, ev, lim)
  }

  ghost predicate EnabledAll(s: State, evs: seq<Event>, lim: Limits)
    decreases |evs|
  {
    evs == [] || (Enabled(s, evs[0]) && EnabledAll(Next(s, evs[0], lim), evs[1..], lim))
  }

  function Play(s: State, evs: seq<Event>, lim: Limits): State
    requires EnabledAll(s, evs, lim)
    decreases |evs|
  {
    if evs == [] then s else Play(Next(s, evs[0], lim), evs[1..], lim)
  }
}
