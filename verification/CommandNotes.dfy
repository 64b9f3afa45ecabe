/** Where what an entry says comes from: the event of the run that settled its command
    (src/engine/queue_processor.py, src/engine/command.py). */
module CommandNotes {
  import opened Basics
  import opened Command
  import opened CommandQueue
  import opened CommandQueueInvariant
  import opened CommandQueueTheorems
  import opened CommandWorld

  function NewWorld(): World { World(Init(), map[]) }

  function PlayWorld(w: World, evs: seq<Event>, lim: Limits): World
    requires EnabledAll(w.q, evs, lim)
    decreases |evs|
  {
    if evs == [] then w else PlayWorld(Happen(w, evs[0], lim), evs[1..], lim)
  }

  lemma {:induction false} PlayWorldIsPlay(w: World, evs: seq<Event>, lim: Limits)
    requires EnabledAll(w.q, evs, lim)
    ensures PlayWorld(w, evs, lim).q == Play(w.q, evs, lim)
    decreases |evs|
  {
    if evs != [] {
      PlayWorldIsPlay(Happen(w, evs[0], lim), evs[1..], lim);
    }
  }

  lemma {:induction false} PlayWorldMore(w: World, evs: seq<Event>, ev: Event, lim: Limits)
    requires EnabledAll(w.q, evs, lim) && Enabled(Play(w.q, evs, lim), ev)
    ensures EnabledAll(w.q, evs + [ev], lim)
    ensures PlayWorld(w, evs, lim).q == Play(w.q, evs, lim)
    ensures PlayWorld(w, evs + [ev], lim) == Happen(PlayWorld(w, evs, lim), ev, lim)
    decreases |evs|
  {
    if evs == [] {
      assert evs + [ev] == [ev] && [ev][1..] == [];
      assert EnabledAll(Next(w.q, ev, lim), [ev][1..], lim);
    } else {
      PlayWorldMore(Happen(w, evs[0], lim), evs[1..], ev, lim);
      RestOfSum(evs, [ev]);
    }
  }

  // ---- What settles a command ----

  /** The event ev, coming in state s, settles the command id with this status, and its entry then says this: the lines
      the send was acknowledged with, or why it failed, or why it was rejected. */
  predicate SettledBy(s: State, ev: Event, id: Id, status: CommandStatus, note: Note, lim: Limits) {
    match ev
    case EndSend(Acknowledged(responses)) =>
      s.worker == Sending(id) && status == OK && note.responses == responses && note.error == None
    case EndSend(Unresponsive(why)) =>
      s.worker == Sending(id) && status == FAILED && note.responses == [] && note.error == Some(why)
    case EndSend(SerialError(why)) =>
      && s.worker == Sending(id) && status == FAILED && note.responses == []
      && note.error == Some("Serial disconnected: " + why)
    case EndSend(OtherError(why)) =>
      && s.worker == Sending(id) && status == FAILED && note.responses == []
      && note.error == Some("Unexpected error: " + why)
    case DrainMark =>
      && s.worker.DrainHolds? && s.worker.taken == id && status == FAILED && note.responses == []
      && note.error == Some("Serial connection lost.")
    case StopMark =>
      && s.stopper == StopHolds(id) && status == REJECTED && note.responses == []
      && note.error == Some("System shutdown.")
    case Submit(x, _) =>
      && x == id && s.engine.Shutdown? && status == REJECTED && note.responses == []
      && note.error == Some("System is shutting down.")
    case Put(x) =>
      && x == id && |s.queue| >= lim.queueSize && status == REJECTED && note.responses == []
      && note.error == Some("Command queue is full.")
    case _ => false
  }

  /** The k-th event of the run did. */
  ghost predicate SettledAt(evs: seq<Event>, k: nat, id: Id, status: CommandStatus, note: Note, lim: Limits) {
    && k < |evs| && EnabledAll(Init(), evs[..k], lim)
    && SettledBy(Play(Init(), evs[..k], lim), evs[k], id, status, note, lim)
  }

  ghost predicate Settled(evs: seq<Event>, id: Id, status: CommandStatus, note: Note, lim: Limits) {
    exists k: nat :: SettledAt(evs, k, id, status, note, lim)
  }

  /** The command was made with this text, and if it is final its entry says what settled it, else nothing. */
  ghost predicate Tells(evs: seq<Event>, status: CommandStatus, note: Note, id: Id, lim: Limits) {
    && Submit(id, note.gcode) in evs
    && if status in {OK, FAILED, REJECTED} then Settled(evs, id, status, note, lim)
       else note.responses == [] && note.error == None
  }

  ghost predicate AllTell(evs: seq<Event>, w: World, lim: Limits) {
    forall id :: id in w.q.log.status && id in w.notes ==> Tells(evs, w.q.log.status[id], w.notes[id], id, lim)
  }

  lemma TellsStays(evs: seq<Event>, ev: Event, status: CommandStatus, note: Note, id: Id, lim: Limits)
    requires Tells(evs, status, note, id, lim)
    ensures Tells(evs + [ev], status, note, id, lim)
  {
    if status in {OK, FAILED, REJECTED} {
      var k: nat :| SettledAt(evs, k, id, status, note, lim);
      assert (evs + [ev])[..k] == evs[..k];
      assert SettledAt(evs + [ev], k, id, status, note, lim);
    }
  }

  /** What the step has written into the entry goes with the status it has marked it with. */
  predicate WritesInto(s: State, ev: Event, id: Id, status: CommandStatus, note: Note, lim: Limits) {
    if status in {OK, FAILED, REJECTED} then SettledBy(s, ev, id, status, note, lim)
    else note.responses == [] && note.error == None
  }

  lemma SendWrites(w: World, outcome: Sent, lim: Limits, id: Id)
    requires w.q.worker == Sending(id)
    requires id in w.notes && w.notes[id].responses == [] && w.notes[id].error == None
    ensures var notes := NotesAfter(w, EndSend(outcome), lim);
      && id in notes && notes[id].gcode == w.notes[id].gcode
      && WritesInto(w.q, EndSend(outcome), id, if outcome.Acknowledged? then OK else FAILED, notes[id], lim)
  {
  }

  /** A step writes what settles the command it marks. */
  lemma MarkWrites(w: World, ev: Event, lim: Limits, id: Id)
    requires Enabled(w.q, ev) && Marked(w.q, ev, lim).Some? && id == Marked(w.q, ev, lim).value.0
    requires !ev.Submit? ==> id in w.notes && w.notes[id].responses == [] && w.notes[id].error == None
    ensures var notes := NotesAfter(w, ev, lim);
      && id in notes && notes[id].gcode == (if ev.Submit? then ev.gcode else w.notes[id].gcode)
      && WritesInto(w.q, ev, id, Marked(w.q, ev, lim).value.1, notes[id], lim)
  {
    if ev.EndSend? {
      SendWrites(w, ev.outcome, lim, id);
    }
  }

  lemma NewlySettled(evs: seq<Event>, ev: Event, id: Id, status: CommandStatus, note: Note, lim: Limits)
    requires EnabledAll(Init(), evs, lim) && SettledBy(Play(Init(), evs, lim), ev, id, status, note, lim)
    ensures Settled(evs + [ev], id, status, note, lim)
  {
    AppendedAt(evs, ev);
    assert (evs + [ev])[..|evs|] == evs;
    assert SettledAt(evs + [ev], |evs|, id, status, note, lim);
  }

  lemma SubmittedStays(evs: seq<Event>, ev: Event, x: Event)
    ensures x in evs ==> x in evs + [ev]
    ensures ev in evs + [ev]
  {
    AppendedAt(evs, ev);
  }

  lemma TellsNow(evs: seq<Event>, ev: Event, id: Id, status: CommandStatus, note: Note, lim: Limits)
    requires EnabledAll(Init(), evs, lim) && WritesInto(Play(Init(), evs, lim), ev, id, status, note, lim)
    requires Submit(id, note.gcode) in evs || Submit(id, note.gcode) == ev
    ensures Tells(evs + [ev], status, note, id, lim)
  {
    SubmittedStays(evs, ev, Submit(id, note.gcode));
    if status in {OK, FAILED, REJECTED} {
      NewlySettled(evs, ev, id, status, note, lim);
    }
  }

  /** Before a step marks a command its entry says nothing. */
  lemma NothingSaidBefore(evs: seq<Event>, w: World, ev: Event, lim: Limits, id: Id)
    requires Enabled(w.q, ev) && Inv(w.q, lim) && Known(w) && AllTell(evs, w, lim) && !ev.Submit?
    requires Marked(w.q, ev, lim).Some? && id == Marked(w.q, ev, lim).value.0
    ensures id in w.notes && w.notes[id].responses == [] && w.notes[id].error == None
    ensures Submit(id, w.notes[id].gcode) in evs
  {
    MarkedIsOpen(w.q, ev, lim);
    MarkedIsKnown(w.q, ev, lim);
    assert id in w.notes.Keys;
    assert Tells(evs, w.q.log.status[id], w.notes[id], id, lim);
  }

  /** The command a step marks. */
  lemma MarkedTells(evs: seq<Event>, w: World, ev: Event, lim: Limits, id: Id)
    requires EnabledAll(Init(), evs, lim) && w.q == Play(Init(), evs, lim) && Enabled(w.q, ev)
    requires Inv(w.q, lim) && Known(w) && AllTell(evs, w, lim)
    requires Marked(w.q, ev, lim).Some? && id == Marked(w.q, ev, lim).value.0
    ensures var t := Happen(w, ev, lim);
      && id in t.q.log.status && id in t.notes
      && Tells(evs + [ev], t.q.log.status[id], t.notes[id], id, lim)
  {
    if !ev.Submit? {
      NothingSaidBefore(evs, w, ev, lim, id);
    }
    MarkWrites(w, ev, lim, id);
    StatusEffect(w.q, ev, lim);
    TellsNow(evs, ev, id, Marked(w.q, ev, lim).value.1, NotesAfter(w, ev, lim)[id], lim);
  }

  /** Any other command. */
  lemma OtherTells(evs: seq<Event>, w: World, ev: Event, lim: Limits, id: Id)
    requires Enabled(w.q, ev) && AllTell(evs, w, lim)
    requires Marked(w.q, ev, lim).Some? ==> id != Marked(w.q, ev, lim).value.0
    ensures var t := Happen(w, ev, lim);
      id in t.q.log.status && id in t.notes ==> Tells(evs + [ev], t.q.log.status[id], t.notes[id], id, lim)
  {
    var t := Happen(w, ev, lim);
    if id in t.q.log.status && id in t.notes {
      StatusEffect(w.q, ev, lim);
      NotesFollowMarks(w, ev, lim, id);
      TellsStays(evs, ev, w.q.log.status[id], w.notes[id], id, lim);
    }
  }

  lemma StepTells(evs: seq<Event>, w: World, ev: Event, lim: Limits)
    requires EnabledAll(Init(), evs, lim) && w.q == Play(Init(), evs, lim) && Enabled(w.q, ev)
    requires Inv(w.q, lim) && Known(w) && AllTell(evs, w, lim)
    ensures AllTell(evs + [ev], Happen(w, ev, lim), lim)
  {
    var t := Happen(w, ev, lim);
    forall id | id in t.q.log.status && id in t.notes
      ensures Tells(evs + [ev], t.q.log.status[id], t.notes[id], id, lim)
    {
      if Marked(w.q, ev, lim).Some? && id == Marked(w.q, ev, lim).value.0 {
        MarkedTells(evs, w, ev, lim, id);
      } else {
        OtherTells(evs, w, ev, lim, id);
      }
    }
  }

  lemma LastIsEnabled(s: State, evs: seq<Event>, ev: Event, lim: Limits)
    requires EnabledAll(s, evs + [ev], lim)
    ensures EnabledAll(s, evs, lim) && Enabled(Play(s, evs, lim), ev)
    decreases |evs|
  {
    if evs == [] {
      assert (evs + [ev])[0] == ev;
    } else {
      RestOfSum(evs, [ev]);
      LastIsEnabled(Next(s, evs[0], lim), evs[1..], ev, lim);
    }
  }

  /** In every run each command was made with the text its entry has, and when it is final its entry says what settled
      it: the lines of the acknowledgement that ended its send, or the reason it ended for. */
  lemma {:induction false} EntriesTell(evs: seq<Event>, lim: Limits)
    requires lim.history > 0 && EnabledAll(Init(), evs, lim)
    ensures var w := PlayWorld(NewWorld(), evs, lim);
      && w.q == Play(Init(), evs, lim) && Inv(w.q, lim) && Known(w) && AllTell(evs, w, lim)
    decreases |evs|
  {
    if evs == [] {
      InitInv(lim);
    } else {
      var before, ev := Front(evs), Last(evs);
      FrontAndLast(evs);
      LastIsEnabled(Init(), before, ev, lim);
      EntriesTell(before, lim);
      var w := PlayWorld(NewWorld(), before, lim);
      PlayWorldMore(NewWorld(), before, ev, lim);
      PlayMore(Init(), before, ev, lim);
      NextKeepsInv(w.q, ev, lim);
      KnownKept(w, ev, lim);
      StepTells(before, w, ev, lim);
    }
  }

  // ---- Settled once ----

  /** What settles a command is a step that marks it with its final status. */
  lemma SettlingMarks(s: State, ev: Event, id: Id, status: CommandStatus, note: Note, lim: Limits)
    requires Enabled(s, ev) && SettledBy(s, ev, id, status, note, lim)
    ensures Marked(s, ev, lim) == Some((id, status)) && IsTerminal(status)
  {
  }

  lemma {:induction false} PlayApart(s: State, a: seq<Event>, b: seq<Event>, lim: Limits)
    requires EnabledAll(s, a + b, lim)
    ensures EnabledAll(s, a, lim) && EnabledAll(Play(s, a, lim), b, lim)
    ensures Play(s, a + b, lim) == Play(Play(s, a, lim), b, lim)
    decreases |a|
  {
    if a == [] {
      assert a + b == b;
    } else {
      assert (a + b)[1..] == a[1..] + b;
      PlayApart(Next(s, a[0], lim), a[1..], b, lim);
    }
  }

  lemma FirstOnly(s: State, ev: Event, rest: seq<Event>, lim: Limits)
    requires EnabledAll(s, [ev] + rest, lim)
    ensures Enabled(s, ev) && EnabledAll(Next(s, ev, lim), rest, lim)
    ensures Play(s, [ev] + rest, lim) == Play(Next(s, ev, lim), rest, lim)
  {
    assert ([ev] + rest)[1..] == rest;
  }

  /** Once an event has settled a command, its status is final before every later event. */
  lemma FinalBefore(evs: seq<Event>, a: nat, b: nat, id: Id, status: CommandStatus, note: Note, lim: Limits)
    requires lim.history > 0 && a < b <= |evs| && EnabledAll(Init(), evs[..b], lim)
    requires SettledAt(evs, a, id, status, note, lim)
    ensures Final(Play(Init(), evs[..b], lim).log.status, id)
  {
    var before, ev, rest := evs[..a], evs[a], evs[a + 1..b];
    assert evs[..b] == before + ([ev] + rest);
    PlayApart(Init(), before, [ev] + rest, lim);
    FirstOnly(Play(Init(), before, lim), ev, rest, lim);
    StaysSettled(before, ev, rest, lim, id, status, note);
  }

  lemma EnabledAt(evs: seq<Event>, b: nat, lim: Limits)
    requires b < |evs| && EnabledAll(Init(), evs, lim)
    ensures EnabledAll(Init(), evs[..b], lim) && Enabled(Play(Init(), evs[..b], lim), evs[b])
  {
    assert evs == evs[..b] + ([evs[b]] + evs[b + 1..]);
    PlayApart(Init(), evs[..b], [evs[b]] + evs[b + 1..], lim);
    FirstOnly(Play(Init(), evs[..b], lim), evs[b], evs[b + 1..], lim);
  }

  /** A command that an event has settled is not settled again. */
  lemma NotSettledAgain(evs: seq<Event>, a: nat, b: nat, id: Id, status: CommandStatus, note: Note,
                        status': CommandStatus, note': Note, lim: Limits)
    requires lim.history > 0 && EnabledAll(Init(), evs, lim) && a < b
    requires SettledAt(evs, a, id, status, note, lim)
    ensures !SettledAt(evs, b, id, status', note', lim)
  {
    if SettledAt(evs, b, id, status', note', lim) {
      FinalBefore(evs, a, b, id, status, note, lim);
      EnabledAt(evs, b, lim);
      FinalIsNotMarked(evs[..b], evs[b], lim, id);
      SettlingMarks(Play(Init(), evs[..b], lim), evs[b], id, status', note', lim);
    }
  }

  lemma StaysSettled(before: seq<Event>, ev: Event, rest: seq<Event>, lim: Limits, id: Id, status: CommandStatus,
                     note: Note)
    requires lim.history > 0 && EnabledAll(Init(), before, lim) && Enabled(Play(Init(), before, lim), ev)
    requires EnabledAll(Next(Play(Init(), before, lim), ev, lim), rest, lim)
    requires SettledBy(Play(Init(), before, lim), ev, id, status, note, lim)
    ensures Final(Play(Next(Play(Init(), before, lim), ev, lim), rest, lim).log.status, id)
  {
    var s := Play(Init(), before, lim);
    InitInv(lim);
    PlayKeepsInv(Init(), before, lim);
    NextKeepsInv(s, ev, lim);
    SettlingMarks(s, ev, id, status, note, lim);
    StatusEffect(s, ev, lim);
    FinalStatusStays(Next(s, ev, lim), rest, lim, id);
  }

  lemma FinalIsNotMarked(evs: seq<Event>, ev: Event, lim: Limits, id: Id)
    requires lim.history > 0 && EnabledAll(Init(), evs, lim) && Enabled(Play(Init(), evs, lim), ev)
    requires Final(Play(Init(), evs, lim).log.status, id)
    ensures var m := Marked(Play(Init(), evs, lim), ev, lim); m.Some? ==> m.value.0 != id
  {
    InitInv(lim);
    PlayKeepsInv(Init(), evs, lim);
    MarkedIsOpen(Play(Init(), evs, lim), ev, lim);
    MarkedIsKnown(Play(Init(), evs, lim), ev, lim);
  }
}
