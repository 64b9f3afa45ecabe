/** What holds of the command queue over every interleaving. */
module CommandQueueTheorems {
  import opened Basics
  import opened Command
  import opened CommandQueue
  import opened CommandQueueInvariant

  // ---- Ownership ----

  /** After every run, each accepted command is in exactly one of queue, worker's hand, stopping thread's hand and
      record, once; nothing else is in any of them; and a submitted command that was not accepted is either still
      with its caller or REJECTED. */
  lemma EntryOwnership(evs: seq<Event>, lim: Limits, x: Id)
    requires lim.history > 0 && EnabledAll(Init(), evs, lim)
    ensures var s := Play(Init(), evs, lim);
      && (x in s.log.accepted <==> Places(s, x) == 1) && (x !in s.log.accepted <==> Places(s, x) == 0)
      && Copies(s.log.accepted, x) <= 1
      && (x in s.log.status && x !in s.log.accepted && s.log.status[x] != REJECTED ==> x in s.log.checked)
  {
    InitInv(lim);
    PlayKeepsInv(Init(), evs, lim);
    var s := Play(Init(), evs, lim);
    assert Places(s, x) == Copies(s.log.accepted, x) <= 1;
  }

  /** A queued command is PENDING, a recorded one is final, and the history is the end of the record. */
  lemma StatusTellsPlace(evs: seq<Event>, lim: Limits)
    requires lim.history > 0 && EnabledAll(Init(), evs, lim)
    ensures var s := Play(Init(), evs, lim);
      && (forall x :: x in s.queue ==> Has(s.log.status, x, PENDING))
      && (forall x :: x in s.log.recorded ==> Final(s.log.status, x))
      && s.log.history == LastN(s.log.recorded, lim.history) && |s.queue| <= lim.queueSize
  {
    InitInv(lim);
    PlayKeepsInv(Init(), evs, lim);
  }

  /** A final status is never replaced, whatever happens later. */
  lemma {:induction false} FinalStatusStays(s: State, evs: seq<Event>, lim: Limits, x: Id)
    requires lim.history > 0 && Inv(s, lim) && EnabledAll(s, evs, lim) && Final(s.log.status, x)
    ensures Has(Play(s, evs, lim).log.status, x, s.log.status[x])
    decreases |evs|
  {
    if evs != [] {
      StatusEffect(s, evs[0], lim);
      MarkIsLegal(s, evs[0], lim);
      NextKeepsInv(s, evs[0], lim);
      FinalStatusStays(Next(s, evs[0], lim), evs[1..], lim, x);
    }
  }

  /** Over every continuation a status only goes forward, PENDING to SENT to OK or FAILED, or from PENDING straight to
      FAILED or REJECTED. */
  lemma {:induction false} StatusAdvances(s: State, evs: seq<Event>, lim: Limits, x: Id)
    requires lim.history > 0 && Inv(s, lim) && EnabledAll(s, evs, lim) && x in s.log.status
    ensures x in Play(s, evs, lim).log.status && Advances(s.log.status[x], Play(s, evs, lim).log.status[x])
    decreases |evs|
  {
    if evs != [] {
      StatusEffect(s, evs[0], lim);
      MarkIsLegal(s, evs[0], lim);
      NextKeepsInv(s, evs[0], lim);
      StatusAdvances(Next(s, evs[0], lim), evs[1..], lim, x);
    }
  }

  // ---- Which statuses are final ----

  /** The command is with its caller, waiting, about to be sent, being sent, or taken by a drain and not yet marked. */
  predicate Open(s: State, x: Id) {
    || x in s.log.checked || x in s.queue
    || s.worker == Picked(x) || s.worker == Sending(x) || (s.worker.DrainHolds? && s.worker.taken == x)
    || s.stopper == StopHolds(x)
  }

  predicate OpenStatus(c: CommandStatus) { c in {PENDING, SENT} }

  lemma OpenIsOpen(s: State, lim: Limits, x: Id)
    requires Inv(s, lim) && Open(s, x)
    ensures x in s.log.status && OpenStatus(s.log.status[x])
  {
  }

  lemma HeldIsKnown(s: State, lim: Limits, x: Id)
    requires Inv(s, lim) && Held(s, x) > 0 && !Open(s, x)
    ensures Final(s.log.status, x)
  {
  }

  lemma ClosedIsFinal(s: State, lim: Limits, x: Id)
    requires Inv(s, lim) && x in s.log.status && !Open(s, x)
    ensures Final(s.log.status, x)
  {
    if x in s.log.accepted {
      assert Places(s, x) == Copies(s.log.accepted, x) <= 1;
      if Held(s, x) > 0 {
        HeldIsKnown(s, lim, x);
      } else {
        assert Copies(s.queue, x) == 0 && Copies(s.log.recorded, x) == 1;
      }
    }
  }

  /** In every run the status of a submitted command is final if and only if the command is nowhere open; and no status
      is ever TIMEOUT. */
  lemma FinalIff(evs: seq<Event>, lim: Limits, x: Id)
    requires lim.history > 0 && EnabledAll(Init(), evs, lim) && x in Play(Init(), evs, lim).log.status
    ensures var s := Play(Init(), evs, lim);
      (IsTerminal(s.log.status[x]) <==> !Open(s, x)) && s.log.status[x] != TIMEOUT
  {
    InitInv(lim);
    PlayKeepsInv(Init(), evs, lim);
    FinalHere(Play(Init(), evs, lim), lim, x);
  }

  lemma FinalHere(s: State, lim: Limits, x: Id)
    requires Inv(s, lim) && x in s.log.status
    ensures (IsTerminal(s.log.status[x]) <==> !Open(s, x)) && s.log.status[x] != TIMEOUT
  {
    if Open(s, x) {
      OpenIsOpen(s, lim, x);
    } else {
      ClosedIsFinal(s, lim, x);
    }
  }

  /** What a caller of `send` finds when its wait ends: ended by the done event it finds a final status; ended by the
      timeout, a final one if and only if the command is not waiting, being sent or in the hand of a drain. */
  lemma WaitEnds(evs: seq<Event>, lim: Limits, x: Id)
    requires lim.history > 0 && EnabledAll(Init(), evs, lim) && x in Play(Init(), evs, lim).log.accepted
    ensures var s := Play(Init(), evs, lim);
      && x in s.log.status && (x in s.log.fired ==> IsTerminal(s.log.status[x]))
      && (IsTerminal(s.log.status[x])
          <==> (x !in s.queue && s.worker != Picked(x) && s.worker != Sending(x)
                && !(s.worker.DrainHolds? && s.worker.taken == x) && s.stopper != StopHolds(x)))
  {
    InitInv(lim);
    PlayKeepsInv(Init(), evs, lim);
    FinalIff(evs, lim, x);
    DoneEventMeans(evs, lim, x);
  }

  /** So `send` does not always block until a final status: from the start, with the thread started and one command
      given to it, the wait can time out while that command is being sent. */
  lemma WaitCanEndEarly(id: Id, gcode: string)
    ensures var lim := Limits(256, 500);
      var evs := [StartThread, TestShutdown, Submit(id, gcode), Put(id), GetEntry, BeginSend];
      && EnabledAll(Init(), evs, lim)
      && var s := Play(Init(), evs, lim);
         && id in s.log.accepted && s.worker == Sending(id) && Has(s.log.status, id, SENT) && id !in s.log.fired
  {
    var lim := Limits(256, 500);
    var evs := [StartThread, TestShutdown, Submit(id, gcode), Put(id), GetEntry, BeginSend];
    var s1 := Next(Init(), StartThread, lim);
    var s2 := Next(s1, TestShutdown, lim);
    var s3 := Next(s2, Submit(id, gcode), lim);
    var s4 := Next(s3, Put(id), lim);
    var s5 := Next(s4, GetEntry, lim);
    PlayOne(s5, evs[5..], lim);
    PlayLonger(s4, evs[4..], s5, evs[5..], lim);
    PlayLonger(s3, evs[3..], s4, evs[4..], lim);
    PlayLonger(s2, evs[2..], s3, evs[3..], lim);
    PlayLonger(s1, evs[1..], s2, evs[2..], lim);
    PlayLonger(Init(), evs, s1, evs[1..], lim);
  }

  // ---- Done events ----

  /** A done event is set exactly for the commands that went to the wire and were recorded, save the one the worker
      is about to signal. So it implies a final status, and a drained command never gets one. */
  lemma DoneEventMeans(evs: seq<Event>, lim: Limits, x: Id)
    requires lim.history > 0 && EnabledAll(Init(), evs, lim)
    ensures var s := Play(Init(), evs, lim);
      && (x in s.log.fired <==>
            x in s.log.wire && x in s.log.recorded && !(s.worker.Signalling? && s.worker.entry == x))
      && (x in s.log.fired ==> Final(s.log.status, x))
      && (x in s.log.drained ==> x !in s.log.fired && x !in s.log.wire)
  {
    InitInv(lim);
    PlayKeepsInv(Init(), evs, lim);
    WireOrRecord(Play(Init(), evs, lim), lim, x);
  }

  /** What went to the wire is in the worker's hand or recorded. */
  lemma WireOrRecord(s: State, lim: Limits, x: Id)
    requires Inv(s, lim)
    ensures x in s.log.wire ==> x !in s.log.drained
    ensures x in s.log.fired <==>
            x in s.log.wire && x in s.log.recorded && !(s.worker.Signalling? && s.worker.entry == x)
  {
    WireFromPopped(s);
    assert Places(s, x) == Copies(s.log.accepted, x) <= 1;
    if x in s.log.wire {
      assert x in Chosen(s);
      assert Copies(s.log.accepted, x) == Copies(Popped(s), x) + Copies(s.queue, x);
    }
  }

  // ---- Order on the wire ----

  lemma {:induction false} MinusCopies(ids: seq<Id>, gone: set<Id>, x: Id)
    ensures Copies(Minus(ids, gone), x) <= Copies(ids, x)
  {
    if ids != [] {
      MinusCopies(Front(ids), gone, x);
      AppendCopies(Front(ids), Last(ids), x);
      AppendCopies(Minus(Front(ids), gone), Last(ids), x);
      assert ids == Front(ids) + [Last(ids)];
    }
  }

  /** No command goes to the wire twice, and the one the worker has picked has not been there. */
  lemma WiredOnce(s: State, lim: Limits, x: Id)
    requires Inv(s, lim)
    ensures Copies(s.log.wire, x) <= 1 && (s.worker == Picked(x) ==> x !in s.log.wire)
  {
    assert Places(s, x) == Copies(s.log.accepted, x) <= 1;
    MinusCopies(Popped(s), s.log.drained, x);
    assert Copies(s.log.accepted, x) == Copies(Popped(s), x) + Copies(s.queue, x);
    assert Copies(Chosen(s), x) <= 1;
    if s.worker == Picked(x) {
      AppendCopies(s.log.wire, x, x);
    }
  }

  lemma {:induction false} MinusKeepsOrder(ids: seq<Id>, gone: set<Id>, a: nat, b: nat) returns (i: nat, j: nat)
    requires a < b < |Minus(ids, gone)|
    ensures i < j < |ids| && ids[i] == Minus(ids, gone)[a] && ids[j] == Minus(ids, gone)[b]
  {
    var kept := Minus(Front(ids), gone);
    if b < |kept| {
      i, j := MinusKeepsOrder(Front(ids), gone, a, b);
    } else {
      MinusMembers(Front(ids), gone);
      assert kept[a] in Front(ids);
      i :| 0 <= i < |Front(ids)| && Front(ids)[i] == kept[a];
      j := |ids| - 1;
    }
  }

  /** The members of `part` occur in `whole` in the same order. */
  ghost predicate InOrderOf(part: seq<Id>, whole: seq<Id>) {
    forall a, b :: 0 <= a < b < |part| ==> Precedes(part[a], part[b], whole)
  }

  ghost predicate Precedes(x: Id, y: Id, whole: seq<Id>) {
    exists i, j :: 0 <= i < j < |whole| && whole[i] == x && whole[j] == y
  }

  lemma KeptInOrder(ids: seq<Id>, gone: set<Id>, part: seq<Id>, whole: seq<Id>)
    requires part <= Minus(ids, gone) && ids <= whole
    ensures InOrderOf(part, whole)
  {
    forall a, b | 0 <= a < b < |part|
      ensures Precedes(part[a], part[b], whole)
    {
      var i, j := MinusKeepsOrder(ids, gone, a, b);
      assert whole[i] == part[a] && whole[j] == part[b];
    }
  }

  /** The commands that have reached send_command, with the one about to, are the acceptance order without exactly
      the drained and the waiting ones; so they go out in the order they were accepted. */
  lemma WireOrder(evs: seq<Event>, lim: Limits)
    requires lim.history > 0 && EnabledAll(Init(), evs, lim)
    ensures var s := Play(Init(), evs, lim);
      && Chosen(s) == Minus(s.log.accepted, s.log.drained + set x | x in s.queue)
      && InOrderOf(s.log.wire, s.log.accepted)
  {
    InitInv(lim);
    PlayKeepsInv(Init(), evs, lim);
    var s := Play(Init(), evs, lim);
    WaitingAreLast(s, lim);
    KeptInOrder(Popped(s), s.log.drained, s.log.wire, s.log.accepted);
  }

  lemma OnceEach(q: seq<Id>, i: nat, j: nat)
    requires i < j < |q| && Copies(q, q[i]) <= 1
    ensures q[i] != q[j]
  {
    assert q == q[..i] + [q[i]] + q[i + 1..j] + [q[j]] + q[j + 1..];
  }

  /** The commands a caller had accepted one after the other, a batch say, go out in that order. */
  lemma AcceptedOrderOnWire(evs: seq<Event>, lim: Limits, i: nat, j: nat)
    requires lim.history > 0 && EnabledAll(Init(), evs, lim)
    requires var log := Play(Init(), evs, lim).log;
      i < j < |log.accepted| && log.accepted[i] in log.wire && log.accepted[j] in log.wire
    ensures var log := Play(Init(), evs, lim).log; Precedes(log.accepted[i], log.accepted[j], log.wire)
  {
    var log := Play(Init(), evs, lim).log;
    var x, y := log.accepted[i], log.accepted[j];
    WireOrder(evs, lim);
    var a :| 0 <= a < |log.wire| && log.wire[a] == x;
    var b :| 0 <= b < |log.wire| && log.wire[b] == y;
    EntryOwnership(evs, lim, x);
    EntryOwnership(evs, lim, y);
    OnceEach(log.accepted, i, j);
    if b < a {
      assert Precedes(y, x, log.accepted);
      var k, l :| 0 <= k < l < |log.accepted| && log.accepted[k] == y && log.accepted[l] == x;
      if i < l {
        OnceEach(log.accepted, i, l);
      } else {
        OnceEach(log.accepted, k, j);
      }
    }
  }

  lemma WaitingAreLast(s: State, lim: Limits)
    requires Inv(s, lim)
    ensures Minus(Popped(s), s.log.drained) == Minus(s.log.accepted, s.log.drained + set x | x in s.queue)
  {
    var waiting := set x | x in s.queue;
    MinusAppend(Popped(s), s.queue, s.log.drained + waiting);
    MinusAll(s.queue, s.log.drained + waiting);
    forall x | x in Popped(s)
      ensures x !in s.queue
    {
      assert Copies(s.log.accepted, x) == Copies(Popped(s), x) + Copies(s.queue, x);
      assert Places(s, x) == Copies(s.log.accepted, x) <= 1;
    }
    MinusSame(Popped(s), s.log.drained, s.log.drained + waiting);
  }

  lemma {:induction false} MinusAll(ids: seq<Id>, gone: set<Id>)
    requires forall x :: x in ids ==> x in gone
    ensures Minus(ids, gone) == []
  {
    if ids != [] {
      MinusAll(Front(ids), gone);
    }
  }

  lemma {:induction false} MinusSame(ids: seq<Id>, a: set<Id>, b: set<Id>)
    requires forall x :: x in ids ==> (x in a <==> x in b)
    ensures Minus(ids, a) == Minus(ids, b)
  {
    if ids != [] {
      MinusSame(Front(ids), a, b);
    }
  }

  // ---- Draining ----

  function DrainEvents(n: nat): seq<Event> {
    if n == 0 then [DrainEnd] else [DrainTake, DrainMark, DrainRecord] + DrainEvents(n - 1)
  }

  function MarkAll(st: map<Id, CommandStatus>, q: seq<Id>, value: CommandStatus): map<Id, CommandStatus>
    decreases |q|
  {
    if q == [] then st else MarkAll(st[q[0] := value], q[1..], value)
  }

  /** An uninterrupted error drain fails and records everything that waited, in order, and leaves the queue empty. */
  lemma {:induction false} DrainClears(s: State, lim: Limits)
    requires s.worker.Draining? && lim.history > 0 && HistoryInv(s, lim)
    ensures EnabledAll(s, DrainEvents(|s.queue|), lim)
    ensures var s' := Play(s, DrainEvents(|s.queue|), lim);
      && s'.queue == [] && s'.worker == Recording(s.worker.entry) && s'.engine == Resting
      && s'.log.recorded == s.log.recorded + s.queue
      && s'.log.history == LastN(s.log.recorded + s.queue, lim.history)
      && s'.log.status == MarkAll(s.log.status, s.queue, FAILED)
      && s'.log.wire == s.log.wire && s'.log.accepted == s.log.accepted
    decreases |s.queue|
  {
    var evs := DrainEvents(|s.queue|);
    if s.queue == [] {
      PlayOne(s, evs, lim);
      assert s.log.recorded + s.queue == s.log.recorded;
    } else {
      var s1 := DrainRound(s, DrainEvents(|s.queue| - 1), lim);
      DrainClears(s1, lim);
      HeadOver(s.log.recorded, s.queue);
    }
  }

  lemma PlayOne(s: State, evs: seq<Event>, lim: Limits)
    requires |evs| == 1 && Enabled(s, evs[0])
    ensures EnabledAll(s, evs, lim) && Play(s, evs, lim) == Next(s, evs[0], lim)
  {
    assert evs[1..] == [];
    assert EnabledAll(Next(s, evs[0], lim), evs[1..], lim);
  }

  lemma PlayLonger(s: State, evs: seq<Event>, s': State, rest: seq<Event>, lim: Limits)
    requires evs != [] && Enabled(s, evs[0]) && s' == Next(s, evs[0], lim) && rest == evs[1..]
    requires EnabledAll(s', rest, lim)
    ensures EnabledAll(s, evs, lim) && Play(s, evs, lim) == Play(s', rest, lim)
  {
  }

  lemma PlayStep(s: State, ev: Event, rest: seq<Event>, lim: Limits)
    requires Enabled(s, ev) && EnabledAll(Next(s, ev, lim), rest, lim)
    ensures EnabledAll(s, [ev] + rest, lim) && Play(s, [ev] + rest, lim) == Play(Next(s, ev, lim), rest, lim)
  {
    assert ([ev] + rest)[1..] == rest;
  }

  lemma {:induction false} PlayMore(s: State, evs: seq<Event>, ev: Event, lim: Limits)
    requires EnabledAll(s, evs, lim) && Enabled(Play(s, evs, lim), ev)
    ensures EnabledAll(s, evs + [ev], lim) && Play(s, evs + [ev], lim) == Next(Play(s, evs, lim), ev, lim)
    decreases |evs|
  {
    if evs == [] {
      PlayOne(s, [ev], lim);
      assert evs + [ev] == [ev];
    } else {
      PlayMore(Next(s, evs[0], lim), evs[1..], ev, lim);
      assert (evs + [ev])[1..] == evs[1..] + [ev];
    }
  }

  /** One round of the drain, uninterrupted. */
  lemma DrainRound(s: State, rest: seq<Event>, lim: Limits) returns (s': State)
    requires s.worker.Draining? && s.queue != [] && lim.history > 0 && HistoryInv(s, lim)
    ensures s'.worker == s.worker && s'.queue == s.queue[1..] && HistoryInv(s', lim)
    ensures s'.log.recorded == s.log.recorded + [s.queue[0]] && s'.log.status == s.log.status[s.queue[0] := FAILED]
    ensures s'.log.wire == s.log.wire && s'.log.accepted == s.log.accepted
    ensures EnabledAll(s', rest, lim) ==>
              var evs := [DrainTake, DrainMark, DrainRecord] + rest;
              EnabledAll(s, evs, lim) && Play(s, evs, lim) == Play(s', rest, lim)
  {
    var s1 := Next(s, DrainTake, lim);
    var s2 := Next(s1, DrainMark, lim);
    s' := Next(s2, DrainRecord, lim);
    LastNAfter(s.log.recorded, s.queue[0], lim.history);
    if EnabledAll(s', rest, lim) {
      var evs := [DrainTake, DrainMark, DrainRecord] + rest;
      assert evs[3..] == rest;
      PlayLonger(s2, evs[2..], s', evs[3..], lim);
      PlayLonger(s1, evs[1..], s2, evs[2..], lim);
      PlayLonger(s, evs, s1, evs[1..], lim);
    }
  }

  // ---- Stopping ----

  lemma TailHolds(whole: seq<Id>, before: seq<Id>, rest: seq<Id>, mark: nat)
    requires whole == before + rest && mark <= |before|
    ensures forall x :: x in rest ==> x in whole[mark..]
  {
    assert whole[mark..] == before[mark..] + rest;
  }

  /** When stop has returned, whatever still waits was put after its drain ended. */
  lemma StopLeavesOnlyLatecomers(evs: seq<Event>, lim: Limits)
    requires lim.history > 0 && EnabledAll(Init(), evs, lim)
    ensures var s := Play(Init(), evs, lim);
      s.stopper.Stopped? ==>
        && s.stopper.mark <= |s.log.accepted|
        && forall x :: x in s.queue ==> x in s.log.accepted[s.stopper.mark..]
  {
    InitInv(lim);
    PlayKeepsInv(Init(), evs, lim);
    var s := Play(Init(), evs, lim);
    if s.stopper.Stopped? {
      TailHolds(s.log.accepted, Popped(s), s.queue, s.stopper.mark);
    }
  }

  /** The worker will not write the engine state again before it sees the shutdown event. */
  predicate Quiet(w: Worker) { w.AtTop? || w.Recording? || w.Signalling? || w.Dead? }

  predicate NoStart(evs: seq<Event>) { StartThread !in evs }

  /** From a quiet worker on, the engine stays SHUTDOWN and only callers already past the test can still put. */
  lemma {:induction false} QuietStaysShutdown(s: State, evs: seq<Event>, lim: Limits)
    requires s.shutdown && s.engine.Shutdown? && Quiet(s.worker) && EnabledAll(s, evs, lim) && NoStart(evs)
    ensures Play(s, evs, lim).engine.Shutdown?
    ensures forall x :: x in Play(s, evs, lim).log.accepted ==> x in s.log.accepted || x in s.log.checked
    decreases |evs|
  {
    if evs != [] {
      var s' := Next(s, evs[0], lim);
      assert evs[0] in evs;
      assert s'.shutdown && s'.engine.Shutdown? && Quiet(s'.worker);
      QueueEffect(s, evs[0], lim);
      CheckedEffect(s, evs[0], lim);
      assert forall x :: x in evs[1..] ==> x in evs;
      QuietStaysShutdown(s', evs[1..], lim);
    }
  }

  /** From any other worker state a few of its own steps replace SHUTDOWN. */
  lemma {:induction false} BusyOverwrites(s: State, lim: Limits) returns (evs: seq<Event>)
    requires !Quiet(s.worker)
    ensures EnabledAll(s, evs, lim) && NoStart(evs) && !Play(s, evs, lim).engine.Shutdown?
    ensures Play(s, evs, lim).log.accepted == s.log.accepted
    decreases |s.queue|, if s.worker.DrainHolds? then 2 else if s.worker.DrainMarked? then 1 else 0
  {
    var ev := match s.worker
      case Getting => if s.queue == [] then GetEmpty else GetEntry
      case Picked(_) => BeginSend
      case Sending(_) => EndSend(Acknowledged([]))
      case Recovering(_) => Recovered
      case Reconnecting(_) => Reconnect(true)
      case Draining(_) => if s.queue == [] then DrainEnd else DrainTake
      case DrainHolds(_, _) => DrainMark
      case _ => DrainRecord;
    var s' := Next(s, ev, lim);
    if s'.engine.Shutdown? {
      evs := BusyOverwrites(s', lim);
      PlayStep(s, ev, evs, lim);
      evs := [ev] + evs;
    } else {
      evs := [ev];
      PlayOne(s, evs, lim);
    }
  }

  /** The state SHUTDOWN that stop sets lasts in every continuation exactly when the worker was quiet at that moment;
      otherwise the worker can replace it. */
  lemma ShutdownSurvivesIff(s: State, lim: Limits)
    requires s.shutdown && s.engine.Shutdown?
    ensures (forall evs :: EnabledAll(s, evs, lim) && NoStart(evs) ==> Play(s, evs, lim).engine.Shutdown?)
            <==> Quiet(s.worker)
  {
    if Quiet(s.worker) {
      forall evs | EnabledAll(s, evs, lim) && NoStart(evs)
        ensures Play(s, evs, lim).engine.Shutdown?
      {
        QuietStaysShutdown(s, evs, lim);
      }
    } else {
      var evs := BusyOverwrites(s, lim);
      assert EnabledAll(s, evs, lim) && NoStart(evs);
    }
  }

  /** The end of such a run: the event is seen, the drain finds nothing, and then a caller puts. */
  lemma LateCaller(s: State, id: Id, gcode: string, lim: Limits)
    requires s.worker.AtTop? && s.shutdown && s.stopper.Joining? && s.engine.Resting? && s.queue == []
    requires id !in s.log.status && lim.queueSize > 0
    ensures var evs := [TestShutdown, StopJoined, StopEnd, Submit(id, gcode), Put(id)];
      && EnabledAll(s, evs, lim)
      && var t := Play(s, evs, lim);
         && t.stopper.Stopped? && t.worker.Dead? && t.queue == [id] && Has(t.log.status, id, PENDING)
         && t.log.fired == s.log.fired
  {
    var evs := [TestShutdown, StopJoined, StopEnd, Submit(id, gcode), Put(id)];
    var s1 := Next(s, TestShutdown, lim);
    var s2 := Next(s1, StopJoined, lim);
    var s3 := Next(s2, StopEnd, lim);
    var s4 := Next(s3, Submit(id, gcode), lim);
    PlayOne(s4, evs[4..], lim);
    PlayLonger(s3, evs[3..], s4, evs[4..], lim);
    PlayLonger(s2, evs[2..], s3, evs[3..], lim);
    PlayLonger(s1, evs[1..], s2, evs[2..], lim);
    PlayLonger(s, evs, s1, evs[1..], lim);
  }

  /** The beginning of such a run: stop sets the state while the worker polls, and the worker replaces it. */
  lemma StopWhilePolling(late: seq<Event>, lim: Limits) returns (s: State)
    ensures s.worker.AtTop? && s.shutdown && s.stopper.Joining? && s.engine.Resting? && s.queue == []
    ensures s.log == Init().log
    ensures EnabledAll(s, late, lim) ==>
              var evs := [StartThread, TestShutdown, StopFlag, StopState, GetEmpty] + late;
              EnabledAll(Init(), evs, lim) && Play(Init(), evs, lim) == Play(s, late, lim)
  {
    var evs := [StartThread, TestShutdown, StopFlag, StopState, GetEmpty] + late;
    var s1 := Next(Init(), StartThread, lim);
    var s2 := Next(s1, TestShutdown, lim);
    var s3 := Next(s2, StopFlag, lim);
    var s4 := Next(s3, StopState, lim);
    s := Next(s4, GetEmpty, lim);
    if EnabledAll(s, late, lim) {
      assert evs[5..] == late;
      PlayLonger(s4, evs[4..], s, evs[5..], lim);
      PlayLonger(s3, evs[3..], s4, evs[4..], lim);
      PlayLonger(s2, evs[2..], s3, evs[3..], lim);
      PlayLonger(s1, evs[1..], s2, evs[2..], lim);
      PlayLonger(Init(), evs, s1, evs[1..], lim);
    }
  }

  /** Such a run: the worker, polling while stop sets the state, replaces it; a command is accepted after stop has
      returned, and with the thread gone it stays PENDING and its done event is never set. */
  lemma AcceptedAfterStop(id: Id, gcode: string)
    ensures var lim := Limits(256, 500);
      var evs := [StartThread, TestShutdown, StopFlag, StopState, GetEmpty]
                 + [TestShutdown, StopJoined, StopEnd, Submit(id, gcode), Put(id)];
      && EnabledAll(Init(), evs, lim)
      && var s := Play(Init(), evs, lim);
         && s.stopper.Stopped? && s.worker.Dead? && s.queue == [id] && Has(s.log.status, id, PENDING)
         && id !in s.log.fired
  {
    var lim := Limits(256, 500);
    var late := [TestShutdown, StopJoined, StopEnd, Submit(id, gcode), Put(id)];
    var s := StopWhilePolling(late, lim);
    LateCaller(s, id, gcode, lim);
  }
}
