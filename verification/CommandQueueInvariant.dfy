/** What every step of the command queue keeps. */
module CommandQueueInvariant {
  import opened Basics
  import opened Command
  import opened CommandQueue

  // ---- Who holds what ----

  /** The entry the worker is executing. */
  function Executing(w: Worker): Option<Id> {
    if w.Dead? || w.AtTop? || w.Getting? then None else Some(w.entry)
  }

  function IsIt(a: Id, x: Id): nat { if a == x then 1 else 0 }

  /** How often the worker has x in hand: executing it and not recorded yet, or draining it. */
  function HeldByWorker(w: Worker, x: Id): nat {
    if w.Signalling? || Executing(w).None? then 0
    else if w.DrainHolds? || w.DrainMarked? then IsIt(w.entry, x) + IsIt(w.taken, x)
    else IsIt(w.entry, x)
  }

  function HeldByStopper(p: Stopper, x: Id): nat {
    if p.StopHolds? || p.StopMarked? then IsIt(p.taken, x) else 0
  }

  function Copies(q: seq<Id>, x: Id): nat { multiset(q)[x] }

  /** In how many places x is. */
  function Places(s: State, x: Id): nat {
    Copies(s.queue, x) + HeldByWorker(s.worker, x) + HeldByStopper(s.stopper, x) + Copies(s.log.recorded, x)
  }

  /** What has left the queue, in order. */
  function Popped(s: State): seq<Id> {
    if |s.queue| <= |s.log.accepted| then s.log.accepted[..|s.log.accepted| - |s.queue|] else []
  }

  // ---- The invariant ----

  /** Each accepted command is in exactly one place, once. */
  ghost predicate OwnershipInv(s: State) {
    forall x :: Places(s, x) == Copies(s.log.accepted, x) <= 1
  }

  ghost predicate QueueInv(s: State, lim: Limits) {
    && |s.queue| <= lim.queueSize
    && |s.queue| <= |s.log.accepted|
    && s.log.accepted == Popped(s) + s.queue
    && (s.stopper.Stopped? ==> s.stopper.mark + |s.queue| <= |s.log.accepted|)
  }

  /** The entries that left the queue for the wire. */
  function Chosen(s: State): seq<Id> {
    s.log.wire + (if s.worker.Picked? then [s.worker.entry] else [])
  }

  /** They are what left the queue without the drained entries, in order. */
  ghost predicate WireInv(s: State) {
    && Chosen(s) == Minus(Popped(s), s.log.drained)
    && forall x :: x in s.log.drained ==> x in Popped(s)
  }

  predicate TakenInv(s: State) {
    && (s.worker.DrainHolds? || s.worker.DrainMarked? ==> s.worker.taken in s.log.drained)
    && (s.stopper.StopHolds? || s.stopper.StopMarked? ==> s.stopper.taken in s.log.drained)
  }

  ghost predicate CheckedInv(log: Log) {
    && (forall x :: x in log.checked ==> x in log.status && log.status[x] == PENDING && x !in log.accepted)
    && (forall x :: x in log.accepted ==> x in log.status)
    && (forall x :: x in log.status && x !in log.checked && x !in log.accepted ==> log.status[x] == REJECTED)
  }

  ghost predicate AllHave(q: seq<Id>, st: map<Id, CommandStatus>, good: CommandStatus -> bool) {
    forall x :: x in q ==> x in st && good(st[x])
  }

  predicate Has(st: map<Id, CommandStatus>, x: Id, want: CommandStatus) { x in st && st[x] == want }

  predicate Final(st: map<Id, CommandStatus>, x: Id) { x in st && IsTerminal(st[x]) }

  predicate WorkerStatus(w: Worker, st: map<Id, CommandStatus>) {
    match w
    case Picked(e) => Has(st, e, PENDING)
    case Sending(e) => Has(st, e, SENT)
    case DrainHolds(e, d) => Has(st, e, FAILED) && Has(st, d, PENDING)
    case DrainMarked(e, d) => Has(st, e, FAILED) && Has(st, d, FAILED)
    case Reconnecting(e) => Has(st, e, FAILED)
    case Draining(e) => Has(st, e, FAILED)
    case Recovering(e) => Final(st, e)
    case Recording(e) => Final(st, e)
    case _ => true
  }

  predicate StopperStatus(p: Stopper, st: map<Id, CommandStatus>) {
    match p
    case StopHolds(d) => Has(st, d, PENDING)
    case StopMarked(d) => Has(st, d, REJECTED)
    case _ => true
  }

  /** What the status says in each place. */
  ghost predicate StatusInv(s: State) {
    && CheckedInv(s.log)
    && AllHave(s.queue, s.log.status, c => c == PENDING)
    && AllHave(s.log.recorded, s.log.status, IsTerminal)
    && WorkerStatus(s.worker, s.log.status)
    && StopperStatus(s.stopper, s.log.status)
  }

  ghost predicate HistoryInv(s: State, lim: Limits) {
    s.log.history == LastN(s.log.recorded, lim.history)
  }

  /** The done event has been set for what went to the wire, except what the worker still executes. */
  ghost predicate FiredInv(s: State) {
    && (forall x :: x in s.log.fired <==> x in s.log.wire && Executing(s.worker) != Some(x))
    && (Executing(s.worker).Some? && !s.worker.Picked? ==> s.worker.entry in s.log.wire)
    && (s.worker.Signalling? ==> s.worker.entry in s.log.recorded)
  }

  ghost predicate Inv(s: State, lim: Limits) {
    && OwnershipInv(s)
    && QueueInv(s, lim)
    && WireInv(s)
    && TakenInv(s)
    && StatusInv(s)
    && HistoryInv(s, lim)
    && FiredInv(s)
  }

  lemma InitInv(lim: Limits)
    ensures Inv(Init(), lim)
  {
  }

  // ---- What a step does to the queue and the hands ----

  predicate Pops(ev: Event) { ev.GetEntry? || ev.DrainTake? || ev.StopTake? }

  predicate Appends(s: State, ev: Event, lim: Limits) { ev.Put? && |s.queue| < lim.queueSize }

  /** The entry a recording step records. */
  function Records(s: State, ev: Event): Option<Id>
    requires Enabled(s, ev)
  {
    match ev
    case Record => Some(s.worker.entry)
    case DrainRecord => Some(s.worker.taken)
    case StopRecord => Some(s.stopper.taken)
    case _ => None
  }

  lemma QueueEffect(s: State, ev: Event, lim: Limits)
    requires Enabled(s, ev)
    ensures var s' := Next(s, ev, lim);
      && (Pops(ev) ==> s.queue != [] && s'.queue == s.queue[1..])
      && (Appends(s, ev, lim) ==> s'.queue == s.queue + [ev.id] && s'.log.accepted == s.log.accepted + [ev.id])
      && (!Pops(ev) && !Appends(s, ev, lim) ==> s'.queue == s.queue)
      && (!Appends(s, ev, lim) ==> s'.log.accepted == s.log.accepted)
      && (s'.stopper.Stopped? ==> s'.stopper == s.stopper || (s.queue == [] && s'.stopper.mark == |s.log.accepted|))
  {
  }

  lemma RecordEffect(s: State, ev: Event, lim: Limits)
    requires Enabled(s, ev)
    ensures var s', x := Next(s, ev, lim), Records(s, ev);
      && s'.log.recorded == s.log.recorded + (if x.Some? then [x.value] else [])
      && s'.log.history == if x.Some? then LastN(s.log.history + [x.value], lim.history) else s.log.history
  {
  }

  function Held(s: State, x: Id): nat { HeldByWorker(s.worker, x) + HeldByStopper(s.stopper, x) }

  predicate ByStopper(ev: Event) { ev.StopTake? || ev.StopMark? || ev.StopRecord? }

  lemma WorkerHandEffect(s: State, ev: Event, lim: Limits, x: Id)
    requires Enabled(s, ev)
    ensures var h, h' := HeldByWorker(s.worker, x), HeldByWorker(Next(s, ev, lim).worker, x);
      && (Pops(ev) && !ByStopper(ev) ==> s.queue != [] && h' == h + IsIt(s.queue[0], x))
      && (Records(s, ev).Some? && !ByStopper(ev) ==> h == h' + IsIt(Records(s, ev).value, x))
      && (ByStopper(ev) || (!Pops(ev) && Records(s, ev).None?) ==> h' == h)
  {
  }

  lemma StopperHandEffect(s: State, ev: Event, lim: Limits, x: Id)
    requires Enabled(s, ev)
    ensures var h, h' := HeldByStopper(s.stopper, x), HeldByStopper(Next(s, ev, lim).stopper, x);
      && (ev.StopTake? ==> s.queue != [] && h' == h + IsIt(s.queue[0], x))
      && (ev.StopRecord? ==> h == h' + IsIt(s.stopper.taken, x))
      && (!ev.StopTake? && !ev.StopRecord? ==> h' == h)
  {
  }

  lemma HandEffect(s: State, ev: Event, lim: Limits, x: Id)
    requires Enabled(s, ev)
    ensures var s' := Next(s, ev, lim);
      && (Pops(ev) ==> s.queue != [] && Held(s', x) == Held(s, x) + IsIt(s.queue[0], x))
      && (Records(s, ev).Some? ==> Held(s, x) == Held(s', x) + IsIt(Records(s, ev).value, x))
      && (!Pops(ev) && Records(s, ev).None? ==> Held(s', x) == Held(s, x))
  {
    WorkerHandEffect(s, ev, lim, x);
    StopperHandEffect(s, ev, lim, x);
  }

  // ---- Queue ----

  lemma PoppedGrows(s: State, s': State)
    requires s.log.accepted == s'.log.accepted == Popped(s) + s.queue && s.queue != [] && s'.queue == s.queue[1..]
    ensures Popped(s') == Popped(s) + [s.queue[0]] && s'.log.accepted == Popped(s') + s'.queue
  {
    HeadOver(Popped(s), s.queue);
    assert s.log.accepted[|s.log.accepted| - |s.queue|] == s.queue[0];
  }

  lemma PoppedStays(s: State, s': State, x: Id)
    requires s.log.accepted == Popped(s) + s.queue
    requires s'.queue == s.queue + [x] && s'.log.accepted == s.log.accepted + [x]
    ensures Popped(s') == Popped(s) && s'.log.accepted == Popped(s') + s'.queue
  {
    Regroup(Popped(s), s.queue, x, []);
    assert s.queue + [x] + [] == s.queue + [x];
  }

  lemma QueueKept(s: State, ev: Event, lim: Limits)
    requires Enabled(s, ev) && QueueInv(s, lim)
    ensures QueueInv(Next(s, ev, lim), lim)
    ensures Popped(Next(s, ev, lim)) == if Pops(ev) then Popped(s) + [s.queue[0]] else Popped(s)
  {
    var s' := Next(s, ev, lim);
    QueueEffect(s, ev, lim);
    if Pops(ev) {
      PoppedGrows(s, s');
    } else if Appends(s, ev, lim) {
      PoppedStays(s, s', ev.id);
    }
  }

  // ---- Ownership ----

  lemma HeadCopies(q: seq<Id>, x: Id)
    requires q != []
    ensures Copies(q, x) == Copies(q[1..], x) + IsIt(q[0], x)
  {
    assert q == [q[0]] + q[1..];
  }

  lemma AppendCopies(q: seq<Id>, a: Id, x: Id)
    ensures Copies(q + [a], x) == Copies(q, x) + IsIt(a, x)
  {
  }

  lemma PlacesEffect(s: State, ev: Event, lim: Limits, x: Id)
    requires Enabled(s, ev)
    ensures var s' := Next(s, ev, lim);
      Places(s', x) - Copies(s'.log.accepted, x) == Places(s, x) - Copies(s.log.accepted, x)
      && Copies(s'.log.accepted, x) == Copies(s.log.accepted, x) + if Appends(s, ev, lim) then IsIt(ev.id, x) else 0
  {
    QueueEffect(s, ev, lim);
    RecordEffect(s, ev, lim);
    HandEffect(s, ev, lim, x);
    if s.queue != [] {
      HeadCopies(s.queue, x);
    }
    if Appends(s, ev, lim) {
      AppendCopies(s.queue, ev.id, x);
      AppendCopies(s.log.accepted, ev.id, x);
    }
    if Records(s, ev).Some? {
      AppendCopies(s.log.recorded, Records(s, ev).value, x);
    }
  }

  lemma OwnershipKept(s: State, ev: Event, lim: Limits)
    requires Enabled(s, ev) && OwnershipInv(s)
    requires ev.Put? ==> ev.id !in s.log.accepted
    ensures OwnershipInv(Next(s, ev, lim))
  {
    forall x
      ensures Places(Next(s, ev, lim), x) == Copies(Next(s, ev, lim).log.accepted, x) <= 1
    {
      PlacesEffect(s, ev, lim, x);
      assert Places(s, x) == Copies(s.log.accepted, x);
    }
  }

  // ---- The wire ----

  lemma HeadIsNew(s: State, lim: Limits)
    requires OwnershipInv(s) && QueueInv(s, lim) && s.queue != []
    ensures s.queue[0] !in Popped(s)
  {
    var x := s.queue[0];
    assert Copies(s.log.accepted, x) == Copies(Popped(s), x) + Copies(s.queue, x);
    assert Places(s, x) <= 1;
    HeadCopies(s.queue, x);
  }

  lemma ChosenEffect(s: State, ev: Event, lim: Limits)
    requires Enabled(s, ev)
    ensures Chosen(Next(s, ev, lim)) == if ev.GetEntry? then Chosen(s) + [s.queue[0]] else Chosen(s)
  {
  }

  lemma DrainedEffect(s: State, ev: Event, lim: Limits)
    requires Enabled(s, ev)
    ensures Next(s, ev, lim).log.drained
         == s.log.drained + (if ev.DrainTake? || ev.StopTake? then {s.queue[0]} else {})
  {
  }

  lemma MinusSkip(ids: seq<Id>, gone: set<Id>, x: Id)
    requires x !in ids
    ensures Minus(ids + [x], gone + {x}) == Minus(ids, gone)
  {
    assert Front(ids + [x]) == ids;
    MinusOneMore(ids, gone, x);
    MinusMembers(ids, gone);
    MinusNothing(Minus(ids, gone), {x});
  }

  lemma MinusKeep(ids: seq<Id>, gone: set<Id>, x: Id)
    requires x !in gone
    ensures Minus(ids + [x], gone) == Minus(ids, gone) + [x]
  {
    assert Front(ids + [x]) == ids;
  }

  lemma WireKept(s: State, ev: Event, lim: Limits)
    requires Enabled(s, ev) && OwnershipInv(s) && QueueInv(s, lim) && WireInv(s)
    ensures WireInv(Next(s, ev, lim))
  {
    QueueKept(s, ev, lim);
    ChosenEffect(s, ev, lim);
    DrainedEffect(s, ev, lim);
    if Pops(ev) {
      HeadIsNew(s, lim);
      if ev.GetEntry? {
        MinusKeep(Popped(s), s.log.drained, s.queue[0]);
      } else {
        MinusSkip(Popped(s), s.log.drained, s.queue[0]);
      }
    }
  }

  lemma TakenKept(s: State, ev: Event, lim: Limits)
    requires Enabled(s, ev) && TakenInv(s)
    ensures TakenInv(Next(s, ev, lim))
  {
    DrainedEffect(s, ev, lim);
  }

  lemma WireFromPopped(s: State)
    requires WireInv(s)
    ensures forall x :: x in Chosen(s) ==> x in Popped(s) && x !in s.log.drained
  {
    MinusMembers(Popped(s), s.log.drained);
  }

  // ---- Statuses ----

  /** The status a step writes. */
  function Marked(s: State, ev: Event, lim: Limits): Option<(Id, CommandStatus)>
    requires Enabled(s, ev)
  {
    match ev
    case Submit(id, _) => Some((id, if s.engine.Shutdown? then REJECTED else PENDING))
    case Put(id) => if |s.queue| < lim.queueSize then None else Some((id, REJECTED))
    case BeginSend => Some((s.worker.entry, SENT))
    case EndSend(outcome) => Some((s.worker.entry, if outcome.Acknowledged? then OK else FAILED))
    case DrainMark => Some((s.worker.taken, FAILED))
    case StopMark => Some((s.stopper.taken, REJECTED))
    case _ => None
  }

  lemma StatusEffect(s: State, ev: Event, lim: Limits)
    requires Enabled(s, ev)
    ensures var m := Marked(s, ev, lim);
      Next(s, ev, lim).log.status == if m.Some? then s.log.status[m.value.0 := m.value.1] else s.log.status
  {
  }

  /** It is written to a command outside the queue and the record, and the change is a legal move. */
  lemma MarkIsLegal(s: State, ev: Event, lim: Limits)
    requires Enabled(s, ev) && OwnershipInv(s) && QueueInv(s, lim) && StatusInv(s)
    ensures var m := Marked(s, ev, lim);
      m.Some? ==>
        var (x, st) := m.value;
        && x !in s.queue && x !in s.log.recorded
        && (x in s.log.status ==> Moves(s.log.status[x], st))
  {
    var m := Marked(s, ev, lim);
    if m.Some? {
      var x := m.value.0;
      assert Places(s, x) == Copies(s.log.accepted, x) <= 1;
      if ev.Submit? || ev.Put? {
        assert x !in s.log.accepted;
      } else {
        assert Held(s, x) >= 1;
      }
    }
  }

  lemma CheckedEffect(s: State, ev: Event, lim: Limits)
    requires Enabled(s, ev)
    ensures Next(s, ev, lim).log.checked
         == if ev.Submit? && !s.engine.Shutdown? then s.log.checked + {ev.id}
            else if ev.Put? then s.log.checked - {ev.id} else s.log.checked
  {
  }

  /** Apart from enqueue, steps mark accepted commands only. */
  lemma MarkedIsAccepted(s: State, ev: Event, lim: Limits)
    requires Enabled(s, ev) && OwnershipInv(s)
    ensures var m := Marked(s, ev, lim);
      m.Some? && !ev.Submit? && !ev.Put? ==> m.value.0 in s.log.accepted
  {
    var m := Marked(s, ev, lim);
    if m.Some? && !ev.Submit? && !ev.Put? {
      assert Held(s, m.value.0) >= 1;
      assert Places(s, m.value.0) == Copies(s.log.accepted, m.value.0);
    }
  }

  lemma CheckedKept(s: State, ev: Event, lim: Limits)
    requires Enabled(s, ev) && CheckedInv(s.log) && OwnershipInv(s)
    ensures CheckedInv(Next(s, ev, lim).log)
  {
    QueueEffect(s, ev, lim);
    StatusEffect(s, ev, lim);
    CheckedEffect(s, ev, lim);
    MarkedIsAccepted(s, ev, lim);
  }

  lemma AllHaveAfter(q: seq<Id>, st: map<Id, CommandStatus>, good: CommandStatus -> bool, x: Id, new_: CommandStatus)
    requires AllHave(q, st, good) && x !in q
    ensures AllHave(q, st[x := new_], good)
  {
  }

  /** The statuses of queued and recorded commands are not touched. */
  lemma QueueAndRecordUntouched(s: State, ev: Event, lim: Limits)
    requires Enabled(s, ev) && OwnershipInv(s) && QueueInv(s, lim) && StatusInv(s)
    ensures var st' := Next(s, ev, lim).log.status;
      AllHave(s.queue, st', c => c == PENDING) && AllHave(s.log.recorded, st', IsTerminal)
  {
    StatusEffect(s, ev, lim);
    MarkIsLegal(s, ev, lim);
    var m := Marked(s, ev, lim);
    if m.Some? {
      AllHaveAfter(s.queue, s.log.status, c => c == PENDING, m.value.0, m.value.1);
      AllHaveAfter(s.log.recorded, s.log.status, IsTerminal, m.value.0, m.value.1);
    }
  }

  /** A step by somebody else leaves the status of what a thread holds alone. */
  lemma OthersLeaveHandsAlone(s: State, ev: Event, lim: Limits, x: Id)
    requires Enabled(s, ev) && OwnershipInv(s) && CheckedInv(s.log) && x in s.log.status
    requires || (HeldByWorker(s.worker, x) > 0 && (ev.Submit? || ev.Put? || ev.StopMark?))
             || (HeldByStopper(s.stopper, x) > 0 && !ev.StopMark?)
    ensures var st' := Next(s, ev, lim).log.status; x in st' && st'[x] == s.log.status[x]
  {
    StatusEffect(s, ev, lim);
    MarkMissesHand(s, ev, lim, x);
  }

  lemma MarkMissesHand(s: State, ev: Event, lim: Limits, x: Id)
    requires Enabled(s, ev) && OwnershipInv(s) && CheckedInv(s.log) && x in s.log.status
    requires || (HeldByWorker(s.worker, x) > 0 && (ev.Submit? || ev.Put? || ev.StopMark?))
             || (HeldByStopper(s.stopper, x) > 0 && !ev.StopMark?)
    ensures var m := Marked(s, ev, lim); m.Some? ==> m.value.0 != x
  {
    assert Places(s, x) == Copies(s.log.accepted, x) <= 1;
    assert x in s.log.accepted;
  }

  predicate ByWorker(ev: Event) {
    !ev.Submit? && !ev.Put? && !ev.StopFlag? && !ev.StopState? && !ev.StopJoined? && !ev.StopTake? && !ev.StopMark?
    && !ev.StopRecord? && !ev.StopEnd? && !ev.StartThread?
  }

  lemma WorkerStatusKept(s: State, ev: Event, lim: Limits)
    requires Enabled(s, ev) && OwnershipInv(s) && QueueInv(s, lim) && StatusInv(s)
    ensures WorkerStatus(Next(s, ev, lim).worker, Next(s, ev, lim).log.status)
  {
    var s' := Next(s, ev, lim);
    if ByWorker(ev) {
      WorkerMoves(s, ev, lim);
    } else {
      WorkerStays(s, ev, lim);
    }
  }

  lemma WorkerMoves(s: State, ev: Event, lim: Limits)
    requires Enabled(s, ev) && ByWorker(ev) && WorkerStatus(s.worker, s.log.status) && OwnershipInv(s)
    requires AllHave(s.queue, s.log.status, c => c == PENDING)
    ensures WorkerStatus(Next(s, ev, lim).worker, Next(s, ev, lim).log.status)
  {
    if ev.DrainMark? {
      assert Places(s, s.worker.taken) <= 1;
    }
  }

  lemma WorkerStays(s: State, ev: Event, lim: Limits)
    requires Enabled(s, ev) && !ByWorker(ev) && OwnershipInv(s) && QueueInv(s, lim) && StatusInv(s)
    ensures WorkerStatus(Next(s, ev, lim).worker, Next(s, ev, lim).log.status)
  {
    var s', w := Next(s, ev, lim), s.worker;
    assert s'.worker == w || s'.worker.AtTop?;
    StatusEffect(s, ev, lim);
    if Marked(s, ev, lim).Some? && Executing(w).Some? && !w.Signalling? {
      OthersLeaveHandsAlone(s, ev, lim, w.entry);
      if w.DrainHolds? || w.DrainMarked? {
        OthersLeaveHandsAlone(s, ev, lim, w.taken);
      }
    }
  }

  lemma StopperStatusKept(s: State, ev: Event, lim: Limits)
    requires Enabled(s, ev) && OwnershipInv(s) && QueueInv(s, lim) && StatusInv(s)
    ensures StopperStatus(Next(s, ev, lim).stopper, Next(s, ev, lim).log.status)
  {
    var s', p := Next(s, ev, lim), s.stopper;
    StatusEffect(s, ev, lim);
    assert ByWorker(ev) || ev.Submit? || ev.Put? || ev.StartThread? ==> s'.stopper == p;
    if (p.StopHolds? || p.StopMarked?) && !ev.StopMark? {
      OthersLeaveHandsAlone(s, ev, lim, p.taken);
    }
  }

  lemma StatusKept(s: State, ev: Event, lim: Limits)
    requires Enabled(s, ev) && OwnershipInv(s) && QueueInv(s, lim) && StatusInv(s)
    ensures StatusInv(Next(s, ev, lim))
  {
    var s' := Next(s, ev, lim);
    CheckedKept(s, ev, lim);
    WorkerStatusKept(s, ev, lim);
    StopperStatusKept(s, ev, lim);
    QueueAndRecordUntouched(s, ev, lim);
    NewInQueueAndRecord(s, ev, lim);
  }

  /** What joins the queue is PENDING, what joins the record is final. */
  lemma NewInQueueAndRecord(s: State, ev: Event, lim: Limits)
    requires Enabled(s, ev) && StatusInv(s)
    requires AllHave(s.queue, Next(s, ev, lim).log.status, c => c == PENDING)
    requires AllHave(s.log.recorded, Next(s, ev, lim).log.status, IsTerminal)
    ensures AllHave(Next(s, ev, lim).queue, Next(s, ev, lim).log.status, c => c == PENDING)
    ensures AllHave(Next(s, ev, lim).log.recorded, Next(s, ev, lim).log.status, IsTerminal)
  {
    NewInQueue(s, ev, lim);
    NewInRecord(s, ev, lim);
  }

  lemma NewInQueue(s: State, ev: Event, lim: Limits)
    requires Enabled(s, ev) && CheckedInv(s.log)
    requires AllHave(s.queue, Next(s, ev, lim).log.status, c => c == PENDING)
    ensures AllHave(Next(s, ev, lim).queue, Next(s, ev, lim).log.status, c => c == PENDING)
  {
    QueueEffect(s, ev, lim);
    StatusEffect(s, ev, lim);
  }

  lemma NewInRecord(s: State, ev: Event, lim: Limits)
    requires Enabled(s, ev) && StopperStatus(s.stopper, s.log.status) && WorkerStatus(s.worker, s.log.status)
    requires AllHave(s.log.recorded, Next(s, ev, lim).log.status, IsTerminal)
    ensures AllHave(Next(s, ev, lim).log.recorded, Next(s, ev, lim).log.status, IsTerminal)
  {
    RecordEffect(s, ev, lim);
    StatusEffect(s, ev, lim);
  }

  // ---- History and done events ----

  lemma HistoryKept(s: State, ev: Event, lim: Limits)
    requires Enabled(s, ev) && HistoryInv(s, lim) && lim.history > 0
    ensures HistoryInv(Next(s, ev, lim), lim)
  {
    RecordEffect(s, ev, lim);
    if Records(s, ev).Some? {
      LastNAfter(s.log.recorded, Records(s, ev).value, lim.history);
    }
  }

  lemma FiredKept(s: State, ev: Event, lim: Limits)
    requires Enabled(s, ev) && OwnershipInv(s) && QueueInv(s, lim) && WireInv(s) && FiredInv(s)
    ensures FiredInv(Next(s, ev, lim))
  {
    WiredAndFired(s, ev, lim);
    RecordEffect(s, ev, lim);
    ExecutingEffect(s, ev, lim);
    if ev.GetEntry? {
      HeadIsNew(s, lim);
      WireFromPopped(s);
      assert s.log.wire == Chosen(s);
    }
  }

  lemma WiredAndFired(s: State, ev: Event, lim: Limits)
    requires Enabled(s, ev)
    ensures var s' := Next(s, ev, lim);
      && s'.log.wire == (if ev.BeginSend? then s.log.wire + [s.worker.entry] else s.log.wire)
      && s'.log.fired == (if ev.Signal? then s.log.fired + {s.worker.entry} else s.log.fired)
  {
  }

  lemma ExecutingEffect(s: State, ev: Event, lim: Limits)
    requires Enabled(s, ev)
    ensures var s' := Next(s, ev, lim);
      || ev.GetEntry? || ev.Signal? || ev.StartThread? || ev.TestShutdown? || ev.GetEmpty?
      || Executing(s'.worker) == Executing(s.worker)
  {
  }

  lemma NextKeepsInv(s: State, ev: Event, lim: Limits)
    requires Enabled(s, ev) && Inv(s, lim) && lim.history > 0
    ensures Inv(Next(s, ev, lim), lim)
  {
    QueueKept(s, ev, lim);
    OwnershipKept(s, ev, lim);
    WireKept(s, ev, lim);
    TakenKept(s, ev, lim);
    StatusKept(s, ev, lim);
    HistoryKept(s, ev, lim);
    FiredKept(s, ev, lim);
  }

  /** The invariant holds after every interleaving. */
  lemma {:induction false} PlayKeepsInv(s: State, evs: seq<Event>, lim: Limits)
    requires Inv(s, lim) && lim.history > 0 && EnabledAll(s, evs, lim)
    ensures Inv(Play(s, evs, lim), lim)
    decreases |evs|
  {
    if evs != [] {
      NextKeepsInv(s, evs[0], lim);
      PlayKeepsInv(Next(s, evs[0], lim), evs[1..], lim);
    }
  }
}
