/** The public send calls (src/engine/command_engine.py) of one caller, among other callers, the worker and stop: what
    those do between two steps of this caller is a list of events of the command queue, whichever are possible. */
module CommandEngine {
  import opened Basics
  import opened Command
  import opened CommandQueue
  import opened CommandQueueInvariant
  import opened CommandQueueTheorems
  import opened CommandWorld
  import opened CommandNotes
  import opened Validator
  import Text

  function RejectedResult(gcode: string): CommandResult {
    CommandResult(None, gcode, REJECTED, [], Some("Validation failed."))
  }

  /** `CommandResult.from_entry`. */
  function EntryResult(w: World, id: Id): CommandResult
    requires id in w.notes && id in w.q.log.status
  {
    CommandResult(Some(id), w.notes[id].gcode, w.q.log.status[id], w.notes[id].responses, w.notes[id].error)
  }

  /** The validated texts of the inputs the queue accepted, in input order. */
  function TextsTaken(verdicts: seq<Verdict>, took: seq<bool>): seq<string>
    requires |took| == |verdicts|
  {
    if verdicts == [] then []
    else
      var rest := TextsTaken(Front(verdicts), Front(took));
      if Last(took) && Last(verdicts).Accepted? then rest + [Last(verdicts).text] else rest
  }

  /** And their entries. */
  function IdsTaken(ids: seq<Id>, took: seq<bool>): seq<Id>
    requires |took| == |ids|
  {
    if ids == [] then []
    else
      var rest := IdsTaken(Front(ids), Front(took));
      if Last(took) then rest + [Last(ids)] else rest
  }

  /** When the queue accepts all it is offered, they are the texts validate_batch lists. */
  lemma {:induction false} TakenAllIsTexts(verdicts: seq<Verdict>, took: seq<bool>)
    requires |took| == |verdicts|
    requires forall i :: 0 <= i < |verdicts| ==> (took[i] <==> verdicts[i].Accepted?)
    ensures TextsTaken(verdicts, took) == Texts(verdicts)
  {
    if verdicts != [] {
      TakenAllIsTexts(Front(verdicts), Front(took));
    }
  }

  function Gcodes(notes: map<Id, Note>, ids: seq<Id>): seq<string> {
    if ids == [] then []
    else Gcodes(notes, Front(ids)) + (if Last(ids) in notes then [notes[Last(ids)].gcode] else [])
  }

  /** A command that has been offered: refused ones touch nothing, rejected ones say why, accepted ones are in the
      order of acceptance; an entry carries the validated text. */
  ghost predicate Offered(w: World, id: Id, v: Verdict, took: bool) {
    if v.Refused? then !took && id !in w.q.log.status
    else
      && id in w.notes && w.notes[id].gcode == v.text && id in w.q.log.status
      && (took <==> id in w.q.log.accepted)
      && (!took ==> w.q.log.status[id] == REJECTED && w.notes[id].error.Some? && w.notes[id].responses == [])
  }

  lemma OfferedLater(w: World, t: World, mine: set<Id>, id: Id, v: Verdict, took: bool)
    requires Later(w, t, mine) && id in mine && Offered(w, id, v, took)
    ensures Offered(t, id, v, took)
  {
  }

  /** What `send` answers to a text the validator refuses. */
  function RefusedSend(gcode: string): CommandResult {
    CommandResult(None, gcode, REJECTED, [], Some("Validation failed: " + Text.Repr(gcode)))
  }

  /** The state of affairs when a wait returned, and how it came about. */
  datatype Moment = Moment(world: World, trace: seq<Event>)

  ghost predicate Reached(m: Moment, lim: Limits) {
    && EnabledAll(Init(), m.trace, lim)
    && m.world.q == Play(Init(), m.trace, lim) && m.world == PlayWorld(NewWorld(), m.trace, lim)
  }

  /** The result of this command says what settled it in the run up to then: with OK the very lines its send was
      acknowledged with, with FAILED or REJECTED the reason; and nothing while it is not final. */
  ghost predicate SaysWhy(r: CommandResult, id: Id, m: Moment, lim: Limits) {
    Tells(m.trace, r.status, Note(r.gcode, r.responses, r.error), id, lim)
  }

  /** What others may do around one command: before the test, between test and put, and during the wait. */
  datatype Gap = Gap(before: seq<Event>, between: seq<Event>, wait: seq<Event>)

  class CommandEngine {
    const lim: Limits
    var world: World
    ghost var trace: seq<Event>

    ghost predicate Valid()
      reads this
    {
      lim.history > 0 && Reached(Moment(world, trace), lim) && Inv(world.q, lim) && Known(world)
    }

    constructor (lim: Limits)
      requires lim.history > 0
      ensures Valid() && this.lim == lim && world.q == Init()
    {
      this.lim, world, trace := lim, World(Init(), map[]), [];
      InitInv(lim);
    }

    method Happens(ev: Event)
      requires Valid() && Enabled(world.q, ev)
      modifies this
      ensures Valid() && world == Happen(old(world), ev, lim) && trace == old(trace) + [ev]
    {
      PlayMore(Init(), trace, ev, lim);
      PlayWorldMore(NewWorld(), trace, ev, lim);
      NextKeepsInv(world.q, ev, lim);
      KnownKept(world, ev, lim);
      world := Happen(world, ev, lim);
      trace := trace + [ev];
    }

    /** Other callers, the worker and stop move on; `mine` are this caller's commands. */
    method Others(evs: seq<Event>, mine: set<Id>)
      requires Valid()
      modifies this
      ensures Valid() && old(trace) <= trace && Later(old(world), world, mine)
      ensures Only(world.q.log.accepted, mine) == Only(old(world).q.log.accepted, mine)
    {
      for i := 0 to |evs|
        invariant Valid() && old(trace) <= trace && Later(old(world), world, mine)
        invariant Only(world.q.log.accepted, mine) == Only(old(world).q.log.accepted, mine)
      {
        if Enabled(world.q, evs[i]) && !Touches(evs[i], mine) {
          OtherStep(evs[i], mine, old(world));
        }
      }
    }

    method OtherStep(ev: Event, mine: set<Id>, ghost start: World)
      requires Valid() && Enabled(world.q, ev) && !Touches(ev, mine) && Later(start, world, mine)
      modifies this
      ensures Valid() && trace == old(trace) + [ev] && Later(start, world, mine)
      ensures Only(world.q.log.accepted, mine) == Only(old(world).q.log.accepted, mine)
    {
      StepIsLater(world, ev, mine, lim);
      OnlyKept(world, ev, mine, lim);
      LaterTrans(start, world, Happen(world, ev, lim), mine);
      Happens(ev);
    }

    /** `enqueue`, first half: the entry comes to be and the state is tested. */
    method Ask(id: Id, text: string, mine: set<Id>) returns (passed: bool)
      requires Valid() && id !in world.q.log.status
      modifies this
      ensures Valid() && old(trace) <= trace && Later(old(world), world, mine - {id})
      ensures world.q.log.accepted == old(world).q.log.accepted && id in world.notes && id in world.q.log.status
      ensures world.notes[id] == Note(text, [], if passed then None else Some("System is shutting down."))
      ensures passed <==> id in world.q.log.checked
      ensures !passed ==> world.q.log.status[id] == REJECTED
    {
      passed := world.q.engine != Shutdown;
      StepIsLater(world, Submit(id, text), mine - {id}, lim);
      Happens(Submit(id, text));
    }

    /** Second half: the put. */
    method PutEntry(id: Id, mine: set<Id>) returns (took: bool)
      requires Valid() && id in mine && id in world.q.log.checked
      requires id in world.notes && world.notes[id].responses == []
      modifies this
      ensures Valid() && old(trace) <= trace && Later(old(world), world, mine - {id})
      ensures Only(world.q.log.accepted, mine) == Only(old(world).q.log.accepted, mine) + (if took then [id] else [])
      ensures Offered(world, id, Accepted(old(world).notes[id].gcode), took)
    {
      took := |world.q.queue| < lim.queueSize;
      PutIs(world, id, mine, lim);
      StepIsLater(world, Put(id), mine - {id}, lim);
      Happens(Put(id));
    }

    /** A valid command is built and put; an invalid one touches nothing. */
    method Offer(v: Verdict, id: Id, gap: Gap, mine: set<Id>) returns (took: bool)
      requires Valid() && id in mine && id !in world.q.log.status
      modifies this
      ensures Valid() && old(trace) <= trace && Later(old(world), world, mine - {id})
      ensures Offered(world, id, v, took) && (v.Refused? ==> world == old(world))
      ensures Only(world.q.log.accepted, mine) == Only(old(world).q.log.accepted, mine) + (if took then [id] else [])
    {
      if v.Refused? {
        LaterSelf(world, mine - {id});
        return false;
      }
      took := OfferText(v.text, id, gap, mine);
    }

    method OfferText(text: string, id: Id, gap: Gap, mine: set<Id>) returns (took: bool)
      requires Valid() && id in mine && id !in world.q.log.status
      modifies this
      ensures Valid() && old(trace) <= trace && Later(old(world), world, mine - {id})
      ensures Offered(world, id, Accepted(text), took)
      ensures Only(world.q.log.accepted, mine) == Only(old(world).q.log.accepted, mine) + (if took then [id] else [])
    {
      took := OthersThenAsk(id, text, gap.before, mine);
      if took {
        ghost var w := world;
        took := OthersThenPut(id, gap.between, mine);
        LaterTrans(old(world), w, world, mine - {id});
      }
    }

    method OthersThenAsk(id: Id, text: string, before: seq<Event>, mine: set<Id>) returns (passed: bool)
      requires Valid() && id in mine && id !in world.q.log.status
      modifies this
      ensures Valid() && old(trace) <= trace && Later(old(world), world, mine - {id})
      ensures Only(world.q.log.accepted, mine) == Only(old(world).q.log.accepted, mine)
      ensures id in world.notes && id in world.q.log.status && id !in world.q.log.accepted
      ensures if passed then id in world.q.log.checked && world.notes[id] == Note(text, [], None)
              else Offered(world, id, Accepted(text), false)
    {
      Others(before, mine);
      LaterLess(old(world), world, mine, id);
      ghost var w := world;
      passed := Ask(id, text, mine);
      LaterTrans(old(world), w, world, mine - {id});
      assert id !in world.q.log.accepted;
    }

    method OthersThenPut(id: Id, between: seq<Event>, mine: set<Id>) returns (took: bool)
      requires Valid() && id in mine && id in world.q.log.checked && id in world.notes
      requires world.notes[id].responses == []
      modifies this
      ensures Valid() && old(trace) <= trace && Later(old(world), world, mine - {id})
      ensures Offered(world, id, Accepted(old(world).notes[id].gcode), took)
      ensures Only(world.q.log.accepted, mine) == Only(old(world).q.log.accepted, mine) + (if took then [id] else [])
    {
      Others(between, mine);
      ghost var w := world;
      WaitingToPut(old(world), w, mine, id);
      LaterLess(old(world), w, mine, id);
      took := PutEntry(id, mine);
      LaterTrans(old(world), w, world, mine - {id});
    }

    /** The enqueue loop of `send_batch`, each entry built where it is put. */
    method OfferAll(verdicts: seq<Verdict>, ids: seq<Id>, gaps: seq<Gap>, mine: set<Id>) returns (took: seq<bool>)
      requires Valid() && |ids| == |verdicts| == |gaps| && Distinct(ids) && NoneKnown(world, ids, 0)
      requires forall x :: x in mine <==> x in ids
      modifies this
      ensures Valid() && old(trace) <= trace && |took| == |ids|
      ensures AllOffered(world, ids, verdicts, took) && Only(world.q.log.accepted, mine) == IdsTaken(ids, took)
    {
      took := [];
      NoneAccepted(world, ids, mine);
      for i := 0 to |ids|
        invariant Valid() && old(trace) <= trace && |took| == i && NoneKnown(world, ids, i)
        invariant AllOffered(world, ids[..i], verdicts[..i], took)
        invariant Only(world.q.log.accepted, mine) == IdsTaken(ids[..i], took)
      {
        ghost var w := world;
        var ok := Offer(verdicts[i], ids[i], gaps[i], mine);
        OneMoreOffered(w, world, ids, verdicts, took, ok, i, mine);
        took := took + [ok];
      }
      Whole(ids);
      Whole(verdicts);
    }

    /** The wait and the result of one command; a refused entry is answered at once. */
    method Answer(item: Item, wait: seq<Event>, mine: set<Id>) returns (r: CommandResult, ghost m: Moment)
      requires Valid() && item.id in mine && Offered(world, item.id, item.v, item.took)
      modifies this
      ensures Valid() && old(trace) <= trace && Later(old(world), world, mine)
      ensures Only(world.q.log.accepted, mine) == Only(old(world).q.log.accepted, mine)
      ensures Answered(r, item, m, lim) && m == Moment(world, trace)
    {
      LaterSelf(world, mine);
      if item.took {
        Others(wait, mine);
        OfferedLater(old(world), world, mine, item.id, item.v, item.took);
      }
      r := if item.v.Refused? then RejectedResult(item.gcode) else EntryResult(world, item.id);
      m := Moment(world, trace);
    }

    /** One round of the result loop. */
    method AnswerNext(results: seq<CommandResult>, items: seq<Item>, i: nat, wait: seq<Event>, mine: set<Id>,
                      ghost moments: seq<Moment>)
      returns (more: seq<CommandResult>, ghost moreMoments: seq<Moment>)
      requires Valid() && i < |items| && AllStand(world, items) && forall item :: item in items ==> item.id in mine
      requires AllAnswered(results, items[..i], moments, lim) && AllBefore(moments, trace)
      modifies this
      ensures Valid() && old(trace) <= trace && AllStand(world, items)
      ensures Only(world.q.log.accepted, mine) == Only(old(world).q.log.accepted, mine)
      ensures AllAnswered(more, items[..i + 1], moreMoments, lim) && AllBefore(moreMoments, trace)
    {
      ghost var w := world;
      var r, m := Answer(items[i], wait, mine);
      AllStandLater(w, world, items, mine);
      OneMoreAnswered(results, r, items, moments, m, i, lim);
      BeforeLater(moments, old(trace), trace);
      assert Front(moments + [m]) == moments;
      more, moreMoments := results + [r], moments + [m];
    }

    /** The result loop. */
    method AnswerAll(items: seq<Item>, gaps: seq<Gap>, mine: set<Id>)
      returns (results: seq<CommandResult>, ghost moments: seq<Moment>)
      requires Valid() && |gaps| == |items| && AllStand(world, items)
      requires forall item :: item in items ==> item.id in mine
      modifies this
      ensures Valid() && old(trace) <= trace && AllStand(world, items)
      ensures Only(world.q.log.accepted, mine) == Only(old(world).q.log.accepted, mine)
      ensures AllAnswered(results, items, moments, lim)
      ensures AllBefore(moments, trace)
    {
      results, moments := [], [];
      for i := 0 to |items|
        invariant Valid() && old(trace) <= trace && AllStand(world, items)
        invariant Only(world.q.log.accepted, mine) == Only(old(world).q.log.accepted, mine)
        invariant AllAnswered(results, items[..i], moments, lim) && AllBefore(moments, trace)
      {
        results, moments := AnswerNext(results, items, i, gaps[i].wait, mine, moments);
      }
      Whole(items);
    }

    /** One result per input, at its position. What the queue has taken of this batch is, in the order of acceptance,
        the inputs it took in input order, with their validated texts, whoever else puts in between. A result is the
        entry as it stands when its wait returns, and says what settled the command. */
    method SendBatch(commands: seq<string>, ids: seq<Id>, gaps: seq<Gap>)
      returns (results: seq<CommandResult>, ghost took: seq<bool>, ghost moments: seq<Moment>)
      requires Valid() && |ids| == |commands| == |gaps| && Distinct(ids) && NoneKnown(world, ids, 0)
      modifies this
      ensures Valid() && old(trace) <= trace && |results| == |took| == |commands|
      ensures AllAnswered(results, Items(commands, Verdicts(commands), ids, took), moments, lim)
      ensures AllBefore(moments, trace)
      ensures AllExplained(commands, Verdicts(commands), ids, results, moments, lim)
      ensures var order := Only(world.q.log.accepted, set x | x in ids);
        order == IdsTaken(ids, took) && Gcodes(world.notes, order) == TextsTaken(Verdicts(commands), took)
    {
      var verdicts, mine := Verdicts(commands), set x | x in ids;
      var ok := OfferAll(verdicts, ids, gaps, mine);
      took := ok;
      var items := Items(commands, verdicts, ids, ok);
      StandIffOffered(world, commands, verdicts, ids, took);
      results, moments := AnswerAll(items, gaps, mine);
      StandIffOffered(world, commands, verdicts, ids, took);
      TakenTexts(world, ids, verdicts, took);
      AnsweredSize(results, items, moments, lim);
      BatchExplained(commands, verdicts, ids, took, results, moments, lim);
    }

    /** A single command. A refused one is answered without touching the queue; one the queue does not take is rejected
        with the caller's own words; else the entry is read when the wait returns. */
    method Send(gcode: string, id: Id, gap: Gap) returns (r: CommandResult, ghost took: bool, ghost m: Moment)
      requires Valid() && id !in world.q.log.status
      modifies this
      ensures Valid() && old(trace) <= trace
      ensures var v := ValidateCommand(gcode);
        if v.Refused? then !took && world == old(world) && r == RefusedSend(gcode)
        else if took then SendTaken(r, Item(gcode, v, id, took), m, lim) && m == Moment(world, trace)
        else r == CommandResult(Some(id), v.text, REJECTED, [], Some("Queue full or system shutting down."))
      ensures Only(world.q.log.accepted, {id}) == if took then [id] else []
    {
      NoneAccepted(world, [id], {id});
      var v := ValidateCommand(gcode);
      if v.Refused? {
        r, took, m := RefusedSend(gcode), false, Moment(world, trace);
      } else {
        r, took, m := SendValid(gcode, v, id, gap);
      }
    }

    /** `_enqueue_and_wait`. */
    method SendValid(gcode: string, v: Verdict, id: Id, gap: Gap)
      returns (r: CommandResult, ghost took: bool, ghost m: Moment)
      requires Valid() && id !in world.q.log.status && v.Accepted? && Only(world.q.log.accepted, {id}) == []
      modifies this
      ensures Valid() && old(trace) <= trace
      ensures if took then SendTaken(r, Item(gcode, v, id, took), m, lim) && m == Moment(world, trace)
              else r == CommandResult(Some(id), v.text, REJECTED, [], Some("Queue full or system shutting down."))
      ensures Only(world.q.log.accepted, {id}) == if took then [id] else []
    {
      var ok := Offer(v, id, gap, {id});
      took, m := ok, Moment(world, trace);
      if ok {
        r, m := Answer(Item(gcode, v, id, ok), gap.wait, {id});
        TakenIs(r, Item(gcode, v, id, ok), m, lim);
      } else {
        r := EntryResult(world, id).(error := Some("Queue full or system shutting down."));
      }
    }

    /** Queue a command without waiting: true exactly when it is valid and taken. */
    method SendFireAndForget(gcode: string, id: Id, gap: Gap) returns (took: bool)
      requires Valid() && id !in world.q.log.status
      modifies this
      ensures Valid() && old(trace) <= trace && Offered(world, id, ValidateCommand(gcode), took)
    {
      took := Offer(ValidateCommand(gcode), id, gap, {id});
    }
  }

  ghost predicate NoneKnown(w: World, ids: seq<Id>, from: nat) {
    forall k :: from <= k < |ids| ==> ids[k] !in w.q.log.status
  }

  ghost predicate AllOffered(w: World, ids: seq<Id>, verdicts: seq<Verdict>, took: seq<bool>) {
    |ids| == |verdicts| == |took| && forall k :: 0 <= k < |ids| ==> Offered(w, ids[k], verdicts[k], took[k])
  }

  /** The same for a list of items. */
  ghost predicate AllStand(w: World, items: seq<Item>) {
    forall k :: 0 <= k < |items| ==> Offered(w, items[k].id, items[k].v, items[k].took)
  }

  /** One input of a batch, its verdict, its entry and whether the queue took it. */
  datatype Item = Item(gcode: string, v: Verdict, id: Id, took: bool)

  function Items(commands: seq<string>, verdicts: seq<Verdict>, ids: seq<Id>, took: seq<bool>): seq<Item>
    requires |commands| == |verdicts| == |ids| == |took|
  {
    seq(|ids|, k requires 0 <= k < |ids| => Item(commands[k], verdicts[k], ids[k], took[k]))
  }

  lemma StandIffOffered(w: World, commands: seq<string>, verdicts: seq<Verdict>, ids: seq<Id>, took: seq<bool>)
    requires |commands| == |verdicts| == |ids| == |took|
    ensures AllStand(w, Items(commands, verdicts, ids, took)) <==> AllOffered(w, ids, verdicts, took)
    ensures forall item :: item in Items(commands, verdicts, ids, took) ==> item.id in ids
  {
    var items := Items(commands, verdicts, ids, took);
    assert forall k :: 0 <= k < |ids| ==>
      items[k].id == ids[k] && items[k].v == verdicts[k] && items[k].took == took[k];
  }

  lemma AllStandLater(w: World, t: World, items: seq<Item>, mine: set<Id>)
    requires Later(w, t, mine) && AllStand(w, items) && forall item :: item in items ==> item.id in mine
    ensures AllStand(t, items)
  {
    forall k | 0 <= k < |items|
      ensures Offered(t, items[k].id, items[k].v, items[k].took)
    {
      OfferedLater(w, t, mine, items[k].id, items[k].v, items[k].took);
    }
  }

  /** The result a caller is owed: the refusal for an invalid text, else the entry as it stood at that moment, in a
      state reached with this command offered. */
  ghost predicate Answered(r: CommandResult, item: Item, m: Moment, lim: Limits) {
    if item.v.Refused? then r == RejectedResult(item.gcode) && !item.took
    else Reached(m, lim) && Offered(m.world, item.id, item.v, item.took) && r == EntryResult(m.world, item.id)
  }

  /** One such result for each input. */
  ghost predicate AllAnswered(results: seq<CommandResult>, items: seq<Item>, moments: seq<Moment>, lim: Limits) {
    && |results| == |items| == |moments|
    && (results != [] ==>
          && AllAnswered(Front(results), Front(items), Front(moments), lim)
          && Answered(Last(results), Last(items), Last(moments), lim))
  }

  ghost predicate AllBefore(moments: seq<Moment>, trace: seq<Event>) {
    moments == [] || (AllBefore(Front(moments), trace) && Last(moments).trace <= trace)
  }

  lemma {:induction false} BeforeLater(moments: seq<Moment>, trace: seq<Event>, more: seq<Event>)
    requires AllBefore(moments, trace) && trace <= more
    ensures AllBefore(moments, more)
  {
    if moments != [] {
      BeforeLater(Front(moments), trace, more);
    }
  }

  lemma {:induction false} BeforeAt(moments: seq<Moment>, trace: seq<Event>, i: nat)
    requires AllBefore(moments, trace) && i < |moments|
    ensures moments[i].trace <= trace
  {
    if i < |moments| - 1 {
      BeforeAt(Front(moments), trace, i);
    }
  }

  lemma AnsweredSize(results: seq<CommandResult>, items: seq<Item>, moments: seq<Moment>, lim: Limits)
    requires AllAnswered(results, items, moments, lim)
    ensures |results| == |items| == |moments|
  {
  }

  lemma AnswerTells(r: CommandResult, item: Item, m: Moment, lim: Limits)
    requires lim.history > 0 && Answered(r, item, m, lim) && item.v.Accepted?
    ensures SaysWhy(r, item.id, m, lim)
  {
    EntriesTell(m.trace, lim);
  }

  /** What it answers to one the queue has taken. */
  ghost predicate SendTaken(r: CommandResult, item: Item, m: Moment, lim: Limits)
    requires item.v.Accepted?
  {
    Answered(r, item, m, lim) && SaysWhy(r, item.id, m, lim) && r.commandId == Some(item.id) && r.gcode == item.v.text
  }

  lemma TakenIs(r: CommandResult, item: Item, m: Moment, lim: Limits)
    requires lim.history > 0 && Answered(r, item, m, lim) && item.v.Accepted?
    ensures SendTaken(r, item, m, lim)
  {
    AnswerTells(r, item, m, lim);
  }

  lemma AllSayWhy(results: seq<CommandResult>, items: seq<Item>, moments: seq<Moment>, lim: Limits)
    requires lim.history > 0 && AllAnswered(results, items, moments, lim)
    ensures |results| == |items| == |moments|
    ensures forall i :: 0 <= i < |items| ==>
      if items[i].v.Accepted? then SaysWhy(results[i], items[i].id, moments[i], lim)
      else results[i] == RejectedResult(items[i].gcode)
  {
    forall i | 0 <= i < |items|
      ensures if items[i].v.Accepted? then SaysWhy(results[i], items[i].id, moments[i], lim)
              else results[i] == RejectedResult(items[i].gcode)
    {
      AnswerAt(results, items, moments, lim, i);
      if items[i].v.Accepted? {
        AnswerTells(results[i], items[i], moments[i], lim);
      }
    }
  }

  /** The refused inputs are rejected with these words, the results of the others say what settled their commands. */
  ghost predicate AllExplained(commands: seq<string>, verdicts: seq<Verdict>, ids: seq<Id>, results: seq<CommandResult>,
                               moments: seq<Moment>, lim: Limits)
  {
    && |commands| == |verdicts| == |ids| == |results| == |moments|
    && forall i :: 0 <= i < |commands| ==>
         if verdicts[i].Accepted? then SaysWhy(results[i], ids[i], moments[i], lim)
         else results[i] == CommandResult(None, commands[i], REJECTED, [], Some("Validation failed."))
  }

  lemma BatchExplained(commands: seq<string>, verdicts: seq<Verdict>, ids: seq<Id>, took: seq<bool>,
                       results: seq<CommandResult>, moments: seq<Moment>, lim: Limits)
    requires |commands| == |verdicts| == |ids| == |took| && lim.history > 0
    requires AllAnswered(results, Items(commands, verdicts, ids, took), moments, lim)
    ensures AllExplained(commands, verdicts, ids, results, moments, lim)
  {
    AllSayWhy(results, Items(commands, verdicts, ids, took), moments, lim);
  }

  lemma {:induction false} AnswerAt(results: seq<CommandResult>, items: seq<Item>, moments: seq<Moment>, lim: Limits,
                                    i: nat)
    requires AllAnswered(results, items, moments, lim) && i < |results|
    ensures Answered(results[i], items[i], moments[i], lim)
  {
    if i < |results| - 1 {
      AnswerAt(Front(results), Front(items), Front(moments), lim, i);
    }
  }

  lemma OneMoreAnswered(results: seq<CommandResult>, r: CommandResult, items: seq<Item>, moments: seq<Moment>,
                        m: Moment, i: nat, lim: Limits)
    requires i < |items| && AllAnswered(results, items[..i], moments, lim) && Answered(r, items[i], m, lim)
    ensures AllAnswered(results + [r], items[..i + 1], moments + [m], lim)
  {
    FrontOfMore(items, i);
    FrontOfOneMore(results, r);
    FrontOfOneMore(moments, m);
  }

  lemma FrontOfOneMore<T>(s: seq<T>, x: T)
    ensures Front(s + [x]) == s && Last(s + [x]) == x && s + [x] != [] && |s + [x]| == |s| + 1
  {
  }

  lemma FrontOfMore<T>(s: seq<T>, i: nat)
    requires i < |s|
    ensures Front(s[..i + 1]) == s[..i] && Last(s[..i + 1]) == s[i]
  {
  }

  lemma NoneAccepted(w: World, ids: seq<Id>, mine: set<Id>)
    requires CheckedInv(w.q.log) && NoneKnown(w, ids, 0) && forall x :: x in mine <==> x in ids
    ensures Only(w.q.log.accepted, mine) == []
  {
    assert forall x :: x in ids ==> x !in w.q.log.status;
    OnlyNone(w.q.log.accepted, mine);
  }

  lemma AllOfferedLater(w: World, t: World, ids: seq<Id>, verdicts: seq<Verdict>, took: seq<bool>, mine: set<Id>)
    requires Later(w, t, mine) && AllOffered(w, ids, verdicts, took) && forall x :: x in ids ==> x in mine
    ensures AllOffered(t, ids, verdicts, took)
  {
    forall k | 0 <= k < |ids|
      ensures Offered(t, ids[k], verdicts[k], took[k])
    {
      OfferedLater(w, t, mine, ids[k], verdicts[k], took[k]);
    }
  }

  lemma OneMoreOffered(w: World, t: World, ids: seq<Id>, verdicts: seq<Verdict>, took: seq<bool>, ok: bool, i: nat,
                       mine: set<Id>)
    requires |ids| == |verdicts| && |took| == i < |ids| && Distinct(ids) && forall x :: x in mine <==> x in ids
    requires Later(w, t, mine - {ids[i]}) && AllOffered(w, ids[..i], verdicts[..i], took) && NoneKnown(w, ids, i)
    requires Offered(t, ids[i], verdicts[i], ok)
    ensures AllOffered(t, ids[..i + 1], verdicts[..i + 1], took + [ok]) && NoneKnown(t, ids, i + 1)
    ensures IdsTaken(ids[..i + 1], took + [ok]) == IdsTaken(ids[..i], took) + (if ok then [ids[i]] else [])
  {
    var rest := mine - {ids[i]};
    OthersAreDistinct(ids, i, rest);
    AllOfferedLater(w, t, ids[..i], verdicts[..i], took, rest);
    FrontOfMore(ids, i);
    assert Front(took + [ok]) == took;
  }

  lemma OthersAreDistinct(ids: seq<Id>, i: nat, rest: set<Id>)
    requires Distinct(ids) && i < |ids| && forall x :: x in rest <==> x in ids && x != ids[i]
    ensures forall x :: x in ids[..i] ==> x in rest
    ensures forall k :: i + 1 <= k < |ids| ==> ids[k] in rest
  {
    forall x | x in ids[..i]
      ensures x in rest
    {
      var k :| 0 <= k < i && ids[..i][k] == x;
      assert ids[k] != ids[i];
    }
    forall k | i + 1 <= k < |ids|
      ensures ids[k] in rest
    {
      assert ids[k] != ids[i];
    }
  }

  lemma Whole<T>(s: seq<T>)
    ensures s[..|s|] == s
  {
  }

  lemma {:induction false} TakenTexts(w: World, ids: seq<Id>, verdicts: seq<Verdict>, took: seq<bool>)
    requires AllOffered(w, ids, verdicts, took)
    ensures Gcodes(w.notes, IdsTaken(ids, took)) == TextsTaken(verdicts, took)
  {
    if ids != [] {
      assert Offered(w, ids[|ids| - 1], verdicts[|ids| - 1], took[|ids| - 1]);
      TakenTexts(w, Front(ids), Front(verdicts), Front(took));
      var rest := IdsTaken(Front(ids), Front(took));
      assert Front(rest + [Last(ids)]) == rest;
    }
  }

  lemma PutIs(w: World, id: Id, mine: set<Id>, lim: Limits)
    requires Inv(w.q, lim) && id in mine && id in w.q.log.checked && id in w.notes && w.notes[id].responses == []
    ensures var t, took := Happen(w, Put(id), lim), |w.q.queue| < lim.queueSize;
      && Only(t.q.log.accepted, mine) == Only(w.q.log.accepted, mine) + (if took then [id] else [])
      && Offered(t, id, Accepted(w.notes[id].gcode), took)
  {
    OnlyOneMore(w.q.log.accepted, mine, id);
  }

  /** While others act between the test and the put, the entry waits with its caller as it is. */
  lemma WaitingToPut(w: World, t: World, mine: set<Id>, id: Id)
    requires Later(w, t, mine) && id in mine && id in w.q.log.checked && id in w.notes && CheckedInv(w.q.log)
    ensures id in t.q.log.checked && id in t.notes && t.notes[id] == w.notes[id]
  {
  }

  // ---- What a batch comes to ----

  /** An answer to a valid input carries its validated text. One the queue did not take is REJECTED. One it took is
      final if and only if the command was then neither waiting, being sent nor in the hand of a drain, and always when
      the wait was ended by the done event. And it says what settled the command. */
  lemma AnswerMeans(r: CommandResult, item: Item, m: Moment, lim: Limits)
    requires lim.history > 0 && Answered(r, item, m, lim) && item.v.Accepted?
    ensures r.gcode == item.v.text && r.commandId == Some(item.id) && item.id in m.world.q.log.status
    ensures r.status == m.world.q.log.status[item.id]
    ensures if item.took then
              && (IsTerminal(r.status) <==> !Open(m.world.q, item.id))
              && (item.id in m.world.q.log.fired ==> IsTerminal(r.status))
            else r.status == REJECTED
    ensures SaysWhy(r, item.id, m, lim)
  {
    AnswerTells(r, item, m, lim);
    FinalIff(m.trace, lim, item.id);
    DoneEventMeans(m.trace, lim, item.id);
  }

  /** And a final answer of a batch is still the command's status however long afterwards. */
  lemma BatchAnswer(results: seq<CommandResult>, items: seq<Item>, moments: seq<Moment>, trace: seq<Event>, lim: Limits,
                    i: nat)
    requires lim.history > 0 && EnabledAll(Init(), trace, lim) && AllBefore(moments, trace)
    requires AllAnswered(results, items, moments, lim) && i < |results| && items[i].v.Accepted?
    ensures Answered(results[i], items[i], moments[i], lim)
    ensures IsTerminal(results[i].status) ==> Has(Play(Init(), trace, lim).log.status, items[i].id, results[i].status)
  {
    AnswerAt(results, items, moments, lim, i);
    BeforeAt(moments, trace, i);
    AnswerMeans(results[i], items[i], moments[i], lim);
    if IsTerminal(results[i].status) {
      AnswerStands(moments[i], trace, lim, items[i].id);
    }
  }

  lemma AnswerStands(m: Moment, trace: seq<Event>, lim: Limits, id: Id)
    requires lim.history > 0 && EnabledAll(Init(), trace, lim) && m.trace <= trace && Reached(m, lim)
    requires id in m.world.q.log.status && IsTerminal(m.world.q.log.status[id])
    ensures Has(Play(Init(), trace, lim).log.status, id, m.world.q.log.status[id])
  {
    var rest := trace[|m.trace|..];
    assert trace == m.trace + rest;
    PlayApart(Init(), m.trace, rest, lim);
    InitInv(lim);
    PlayKeepsInv(Init(), m.trace, lim);
    FinalStatusStays(m.world.q, rest, lim, id);
  }

  lemma {:induction false} AcceptedGrows(s: State, evs: seq<Event>, lim: Limits)
    requires EnabledAll(s, evs, lim)
    ensures s.log.accepted <= Play(s, evs, lim).log.accepted
    decreases |evs|
  {
    if evs != [] {
      QueueEffect(s, evs[0], lim);
      AcceptedGrows(Next(s, evs[0], lim), evs[1..], lim);
    }
  }

  lemma {:induction false} OnlyInOrder(ids: seq<Id>, mine: set<Id>, a: nat, b: nat) returns (i: nat, j: nat)
    requires a < b < |Only(ids, mine)|
    ensures i < j < |ids| && ids[i] == Only(ids, mine)[a] && ids[j] == Only(ids, mine)[b]
  {
    var front := Only(Front(ids), mine);
    if b < |front| {
      i, j := OnlyInOrder(Front(ids), mine, a, b);
    } else {
      OnlyMembers(Front(ids), mine);
      assert front[a] in Front(ids);
      i :| 0 <= i < |Front(ids)| && Front(ids)[i] == front[a];
      j := |ids| - 1;
    }
  }

  lemma {:induction false} OnlyMembers(ids: seq<Id>, mine: set<Id>)
    ensures forall x :: x in Only(ids, mine) ==> x in ids
  {
    if ids != [] {
      OnlyMembers(Front(ids), mine);
    }
  }

  /** Two commands of a batch that reach the printer, whenever that is, do so in the order of the batch. */
  lemma BatchOnWire(trace: seq<Event>, later: seq<Event>, lim: Limits, mine: set<Id>, a: nat, b: nat)
    requires lim.history > 0 && EnabledAll(Init(), trace + later, lim) && EnabledAll(Init(), trace, lim)
    requires var order := Only(Play(Init(), trace, lim).log.accepted, mine);
      && a < b < |order| && order[a] in Play(Init(), trace + later, lim).log.wire
      && order[b] in Play(Init(), trace + later, lim).log.wire
    ensures var order := Only(Play(Init(), trace, lim).log.accepted, mine);
      Precedes(order[a], order[b], Play(Init(), trace + later, lim).log.wire)
  {
    var s := Play(Init(), trace, lim);
    var i, j := OnlyInOrder(s.log.accepted, mine, a, b);
    PlayApart(Init(), trace, later, lim);
    AcceptedGrows(s, later, lim);
    assert Play(Init(), trace + later, lim).log.accepted[i] == s.log.accepted[i];
    AcceptedOrderOnWire(trace + later, lim, i, j);
  }
}
