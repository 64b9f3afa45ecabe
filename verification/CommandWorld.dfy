/** The command queue together with what its entries say, and how it moves on while one caller is between two steps of
    its own (src/engine/queue_processor.py, src/engine/command.py). */
module CommandWorld {
  import opened Basics
  import opened Command
  import opened CommandQueue
  import opened CommandQueueInvariant

  /** What an entry says besides its status. */
  datatype Note = Note(gcode: string, responses: seq<string>, error: Option<string>)

  datatype World = World(q: State, notes: map<Id, Note>)

  /** The reason that goes with a failure or rejection. */
  function Explained(notes: map<Id, Note>, id: Id, why: string): map<Id, Note> {
    if id in notes then notes[id := notes[id].(error := Some(why))] else notes
  }

  function NotesAfterSend(notes: map<Id, Note>, id: Id, outcome: Sent): map<Id, Note> {
    match outcome
    case Acknowledged(responses) => if id in notes then notes[id := notes[id].(responses := responses)] else notes
    case Unresponsive(why) => Explained(notes, id, why)
    case SerialError(why) => Explained(notes, id, "Serial disconnected: " + why)
    case OtherError(why) => Explained(notes, id, "Unexpected error: " + why)
  }

  function NotesAfter(w: World, ev: Event, lim: Limits): map<Id, Note>
    requires Enabled(w.q, ev)
  {
    match ev
    case Submit(id, gcode) =>
      w.notes[id := Note(gcode, [], if w.q.engine.Shutdown? then Some("System is shutting down.") else None)]
    case Put(id) =>
      if |w.q.queue| < lim.queueSize then w.notes else Explained(w.notes, id, "Command queue is full.")
    case EndSend(outcome) => NotesAfterSend(w.notes, w.q.worker.entry, outcome)
    case DrainMark => Explained(w.notes, w.q.worker.taken, "Serial connection lost.")
    case StopMark => Explained(w.notes, w.q.stopper.taken, "System shutdown.")
    case _ => w.notes
  }

  function Happen(w: World, ev: Event, lim: Limits): World
    requires Enabled(w.q, ev)
  {
    World(Next(w.q, ev, lim), NotesAfter(w, ev, lim))
  }

  /** The event is a caller's step for one of these commands. */
  predicate Touches(ev: Event, mine: set<Id>) { (ev.Submit? || ev.Put?) && ev.id in mine }

  // ---- Members of a set, in order ----

  function Only(ids: seq<Id>, mine: set<Id>): seq<Id> {
    if ids == [] then []
    else if Last(ids) in mine then Only(Front(ids), mine) + [Last(ids)]
    else Only(Front(ids), mine)
  }

  lemma OnlyOneMore(ids: seq<Id>, mine: set<Id>, x: Id)
    ensures Only(ids + [x], mine) == if x in mine then Only(ids, mine) + [x] else Only(ids, mine)
  {
    assert Front(ids + [x]) == ids;
  }

  lemma {:induction false} OnlyNone(ids: seq<Id>, mine: set<Id>)
    requires forall x :: x in ids ==> x !in mine
    ensures Only(ids, mine) == []
  {
    if ids != [] {
      OnlyNone(Front(ids), mine);
    }
  }

  // ---- What others leave alone ----

  /** Between w and t other callers, the worker and stop have acted: commands may have been accepted, none of these;
      these are where their caller left them unless accepted; and nobody changes what a command is. */
  ghost predicate Later(w: World, t: World, mine: set<Id>) {
    && w.q.log.accepted <= t.q.log.accepted
    && (forall x :: x in mine ==>
          && (x in t.q.log.accepted <==> x in w.q.log.accepted)
          && (x in t.q.log.status <==> x in w.q.log.status) && (x in t.q.log.checked <==> x in w.q.log.checked)
          && (x in w.q.log.status && x !in w.q.log.accepted ==> t.q.log.status[x] == w.q.log.status[x]))
    && (forall x :: x in w.notes ==> x in t.notes && t.notes[x].gcode == w.notes[x].gcode)
    && (forall x :: x in mine && x !in w.q.log.accepted ==>
          (x in t.notes <==> x in w.notes) && (x in w.notes ==> t.notes[x] == w.notes[x]))
  }

  lemma LaterTrans(a: World, b: World, c: World, mine: set<Id>)
    requires Later(a, b, mine) && Later(b, c, mine)
    ensures Later(a, c, mine)
  {
  }

  lemma LaterLess(a: World, b: World, mine: set<Id>, x: Id)
    requires Later(a, b, mine)
    ensures Later(a, b, mine - {x})
  {
  }

  lemma LaterSelf(a: World, mine: set<Id>)
    ensures Later(a, a, mine)
  {
  }

  lemma StatusLater(w: World, ev: Event, mine: set<Id>, lim: Limits, x: Id)
    requires Enabled(w.q, ev) && Inv(w.q, lim) && !Touches(ev, mine) && x in mine
    ensures var t := Happen(w, ev, lim);
      && (x in t.q.log.accepted <==> x in w.q.log.accepted)
      && (x in t.q.log.status <==> x in w.q.log.status) && (x in t.q.log.checked <==> x in w.q.log.checked)
      && (x in w.q.log.status && x !in w.q.log.accepted ==> t.q.log.status[x] == w.q.log.status[x])
  {
    QueueEffect(w.q, ev, lim);
    StatusEffect(w.q, ev, lim);
    CheckedEffect(w.q, ev, lim);
    MarkedIsAccepted(w.q, ev, lim);
  }

  lemma GcodeLater(w: World, ev: Event, lim: Limits, x: Id)
    requires Enabled(w.q, ev) && x in w.notes && !(ev.Submit? && ev.id == x)
    ensures var t := Happen(w, ev, lim); x in t.notes && t.notes[x].gcode == w.notes[x].gcode
  {
  }

  /** Only a command that is not final yet is marked. */
  lemma MarkedIsOpen(s: State, ev: Event, lim: Limits)
    requires Enabled(s, ev) && StatusInv(s)
    ensures var m := Marked(s, ev, lim);
      m.Some? && m.value.0 in s.log.status ==> s.log.status[m.value.0] in {PENDING, SENT}
  {
  }

  /** What a step writes into an entry goes to the command it marks. */
  lemma NotesFollowMarks(w: World, ev: Event, lim: Limits, x: Id)
    requires Enabled(w.q, ev) && (Marked(w.q, ev, lim).Some? ==> Marked(w.q, ev, lim).value.0 != x)
    ensures var t := Happen(w, ev, lim); (x in t.notes <==> x in w.notes) && (x in w.notes ==> t.notes[x] == w.notes[x])
  {
  }

  lemma NotesLater(w: World, ev: Event, mine: set<Id>, lim: Limits, x: Id)
    requires Enabled(w.q, ev) && Inv(w.q, lim) && !Touches(ev, mine) && x in mine && x !in w.q.log.accepted
    ensures var t := Happen(w, ev, lim); (x in t.notes <==> x in w.notes) && (x in w.notes ==> t.notes[x] == w.notes[x])
  {
    MarkedIsAccepted(w.q, ev, lim);
    NotesFollowMarks(w, ev, lim, x);
  }

  ghost predicate Known(w: World) { w.notes.Keys == w.q.log.status.Keys }

  lemma NotesKeys(w: World, ev: Event, lim: Limits)
    requires Enabled(w.q, ev)
    ensures Happen(w, ev, lim).notes.Keys == w.notes.Keys + (if ev.Submit? then {ev.id} else {})
  {
  }

  lemma StatusKeys(s: State, ev: Event, lim: Limits)
    requires Enabled(s, ev) && CheckedInv(s.log) && OwnershipInv(s)
    ensures Next(s, ev, lim).log.status.Keys == s.log.status.Keys + (if ev.Submit? then {ev.id} else {})
  {
    StatusEffect(s, ev, lim);
    MarkedIsAccepted(s, ev, lim);
    MarkedIsKnown(s, ev, lim);
  }

  lemma MarkedIsKnown(s: State, ev: Event, lim: Limits)
    requires Enabled(s, ev) && CheckedInv(s.log) && OwnershipInv(s)
    ensures var m := Marked(s, ev, lim);
      if ev.Submit? then m.Some? && m.value.0 == ev.id else m.Some? ==> m.value.0 in s.log.status
  {
    MarkedIsAccepted(s, ev, lim);
  }

  lemma KnownKept(w: World, ev: Event, lim: Limits)
    requires Enabled(w.q, ev) && Inv(w.q, lim) && Known(w)
    ensures Known(Happen(w, ev, lim))
  {
    NotesKeys(w, ev, lim);
    StatusKeys(w.q, ev, lim);
  }

  lemma StepIsLater(w: World, ev: Event, mine: set<Id>, lim: Limits)
    requires Enabled(w.q, ev) && Inv(w.q, lim) && Known(w) && !Touches(ev, mine)
    ensures Later(w, Happen(w, ev, lim), mine)
  {
    var t := Happen(w, ev, lim);
    QueueEffect(w.q, ev, lim);
    forall x | x in mine
      ensures && (x in t.q.log.accepted <==> x in w.q.log.accepted)
              && (x in t.q.log.status <==> x in w.q.log.status) && (x in t.q.log.checked <==> x in w.q.log.checked)
              && (x in w.q.log.status && x !in w.q.log.accepted ==> t.q.log.status[x] == w.q.log.status[x])
    {
      StatusLater(w, ev, mine, lim, x);
    }
    forall x | x in w.notes
      ensures x in t.notes && t.notes[x].gcode == w.notes[x].gcode
    {
      GcodeLater(w, ev, lim, x);
    }
    forall x | x in mine && x !in w.q.log.accepted
      ensures (x in t.notes <==> x in w.notes) && (x in w.notes ==> t.notes[x] == w.notes[x])
    {
      NotesLater(w, ev, mine, lim, x);
    }
  }

  /** A step by others adds none of these to the order of acceptance. */
  lemma OnlyKept(w: World, ev: Event, mine: set<Id>, lim: Limits)
    requires Enabled(w.q, ev) && !Touches(ev, mine)
    ensures Only(Happen(w, ev, lim).q.log.accepted, mine) == Only(w.q.log.accepted, mine)
  {
    QueueEffect(w.q, ev, lim);
    if Appends(w.q, ev, lim) {
      OnlyOneMore(w.q.log.accepted, mine, ev.id);
    }
  }
}
