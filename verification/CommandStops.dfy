/** The promise of `stop` that no command is accepted after it (src/engine/queue_processor.py). */
module CommandStops {
  import opened Basics
  import opened Command
  import opened CommandQueue
  import opened CommandQueueInvariant
  import opened CommandQueueTheorems

  lemma {:induction false} JoinRuns(s: State, a: seq<Event>, b: seq<Event>, lim: Limits)
    requires EnabledAll(s, a, lim) && EnabledAll(Play(s, a, lim), b, lim)
    ensures EnabledAll(s, a + b, lim) && Play(s, a + b, lim) == Play(Play(s, a, lim), b, lim)
    decreases |a|
  {
    if a == [] {
      assert a + b == b;
    } else {
      JoinRuns(Next(s, a[0], lim), a[1..], b, lim);
      RestOfSum(a, b);
      PlayLonger(s, a + b, Next(s, a[0], lim), a[1..] + b, lim);
    }
  }

  // ---- When the promise holds ----

  lemma QuietStep(s: State, ev: Event, lim: Limits)
    requires s.shutdown && s.engine.Shutdown? && Quiet(s.worker) && s.log.checked == {}
    requires Enabled(s, ev) && !ev.StartThread?
    ensures var t := Next(s, ev, lim);
      && t.shutdown && t.engine.Shutdown? && Quiet(t.worker) && t.log.checked == {}
      && t.log.accepted == s.log.accepted
  {
    QueueEffect(s, ev, lim);
    CheckedEffect(s, ev, lim);
  }

  lemma {:induction false} QuietAcceptsNothing(s: State, evs: seq<Event>, lim: Limits)
    requires s.shutdown && s.engine.Shutdown? && Quiet(s.worker) && s.log.checked == {}
    requires EnabledAll(s, evs, lim) && NoStart(evs)
    ensures Play(s, evs, lim).log.accepted == s.log.accepted
    decreases |evs|
  {
    if evs != [] {
      assert evs[0] in evs && forall x :: x in evs[1..] ==> x in evs;
      QuietStep(s, evs[0], lim);
      QuietAcceptsNothing(Next(s, evs[0], lim), evs[1..], lim);
    }
  }

  // ---- When it does not ----

  /** How far a stopping thread is from taking an entry. */
  function ToTake(p: Stopper): nat {
    match p
    case StopDrains => 0
    case StopMarked(_) => 1
    case StopHolds(_) => 2
    case Joining => 1
    case FlagSet => 2
    case _ => 3
  }

  /** A stop makes room in a full queue without disturbing a caller that is past the test. */
  lemma {:induction false} MakeRoom(s: State, x: Id, lim: Limits) returns (evs: seq<Event>)
    requires lim.queueSize > 0 && |s.queue| <= lim.queueSize && x in s.log.checked
    ensures EnabledAll(s, evs, lim) && NoStart(evs)
    ensures var t := Play(s, evs, lim);
      |t.queue| < lim.queueSize && x in t.log.checked && t.log.accepted == s.log.accepted
    decreases |s.queue|, ToTake(s.stopper)
  {
    if |s.queue| < lim.queueSize {
      return [];
    }
    var ev := match s.stopper
      case StopDrains => StopTake
      case StopMarked(_) => StopRecord
      case StopHolds(_) => StopMark
      case Joining => StopJoined
      case FlagSet => StopState
      case _ => StopFlag;
    var rest := MakeRoom(Next(s, ev, lim), x, lim);
    PlayStep(s, ev, rest, lim);
    evs := [ev] + rest;
  }

  /** The run accepts something and starts no thread. */
  ghost predicate LetsIn(s: State, evs: seq<Event>, lim: Limits) {
    EnabledAll(s, evs, lim) && NoStart(evs) && Play(s, evs, lim).log.accepted != s.log.accepted
  }

  /** A caller past the test gets its command in. */
  lemma CheckedGetsIn(s: State, x: Id, lim: Limits) returns (evs: seq<Event>)
    requires lim.queueSize > 0 && |s.queue| <= lim.queueSize && x in s.log.checked
    ensures LetsIn(s, evs, lim) && Play(s, evs, lim).log.accepted == s.log.accepted + [x]
  {
    var room := MakeRoom(s, x, lim);
    QueueEffect(Play(s, room, lim), Put(x), lim);
    PlayMore(s, room, Put(x), lim);
    evs := room + [Put(x)];
    assert |Play(s, evs, lim).log.accepted| > |s.log.accepted|;
  }

  lemma {:induction false} SomeAbove(ids: set<Id>) returns (n: Id)
    ensures forall x :: x in ids ==> x < n
    decreases |ids|
  {
    n := 0;
    if ids != {} {
      var x :| x in ids;
      var m := SomeAbove(ids - {x});
      n := if m > x then m else x + 1;
      assert forall y :: y in ids ==> y == x || y in ids - {x};
    }
  }

  /** While the state is not SHUTDOWN, so does a new one. */
  lemma NewGetsIn(s: State, lim: Limits) returns (evs: seq<Event>)
    requires lim.queueSize > 0 && |s.queue| <= lim.queueSize && !s.engine.Shutdown?
    ensures LetsIn(s, evs, lim)
  {
    var x := SomeAbove(s.log.status.Keys);
    var t := Next(s, Submit(x, ""), lim);
    var rest := CheckedGetsIn(t, x, lim);
    PlayStep(s, Submit(x, ""), rest, lim);
    evs := [Submit(x, "")] + rest;
    assert |Play(s, evs, lim).log.accepted| > |s.log.accepted|;
  }

  /** A worker that is not quiet first takes the state away. */
  lemma BusyLetsIn(s: State, lim: Limits) returns (evs: seq<Event>)
    requires Inv(s, lim) && lim.queueSize > 0 && lim.history > 0 && !Quiet(s.worker)
    ensures LetsIn(s, evs, lim)
  {
    var before := BusyOverwrites(s, lim);
    PlayKeepsInv(s, before, lim);
    var rest := NewGetsIn(Play(s, before, lim), lim);
    JoinRuns(s, before, rest, lim);
    evs := before + rest;
  }

  /** Once stop has been called, no command is accepted in any continuation without a start if and only if the state is
      SHUTDOWN, the worker is between entries or in its final bookkeeping, and no caller is between the test and the
      put. */
  lemma NothingAcceptedIff(s: State, lim: Limits)
    requires Inv(s, lim) && lim.queueSize > 0 && lim.history > 0 && s.shutdown
    ensures (forall evs :: EnabledAll(s, evs, lim) && NoStart(evs) ==>
               Play(s, evs, lim).log.accepted == s.log.accepted)
            <==> s.engine.Shutdown? && Quiet(s.worker) && s.log.checked == {}
  {
    if s.engine.Shutdown? && Quiet(s.worker) && s.log.checked == {} {
      forall evs | EnabledAll(s, evs, lim) && NoStart(evs)
        ensures Play(s, evs, lim).log.accepted == s.log.accepted
      {
        QuietAcceptsNothing(s, evs, lim);
      }
    } else {
      var evs := SomeoneGetsIn(s, lim);
      assert LetsIn(s, evs, lim);
    }
  }

  lemma SomeoneGetsIn(s: State, lim: Limits) returns (evs: seq<Event>)
    requires Inv(s, lim) && lim.queueSize > 0 && lim.history > 0
    requires !s.engine.Shutdown? || !Quiet(s.worker) || s.log.checked != {}
    ensures LetsIn(s, evs, lim)
  {
    if !s.engine.Shutdown? {
      evs := NewGetsIn(s, lim);
    } else if !Quiet(s.worker) {
      evs := BusyLetsIn(s, lim);
    } else {
      var x :| x in s.log.checked;
      evs := CheckedGetsIn(s, x, lim);
    }
  }

  lemma ReturnThenPut(s: State, id: Id, lim: Limits)
    requires s.stopper.Joining? && s.queue == [] && id in s.log.checked && lim.queueSize > 0
    ensures var evs := [StopJoined, StopEnd, Put(id)];
      && EnabledAll(s, evs, lim)
      && Play(s, evs, lim) == Next(s.(stopper := Stopped(|s.log.accepted|)), Put(id), lim)
  {
    var evs := [StopJoined, StopEnd, Put(id)];
    var s1 := Next(s, StopJoined, lim);
    var s2 := Next(s1, StopEnd, lim);
    PlayOne(s2, evs[2..], lim);
    PlayLonger(s1, evs[1..], s2, evs[2..], lim);
    PlayLonger(s, evs, s1, evs[1..], lim);
  }

  /** A run in which the worker is quiet throughout: a caller passes the test, stop is called and returns, and the
      command is accepted. */
  lemma PutAfterStop(id: Id, gcode: string)
    ensures var lim := Limits(256, 500);
      var evs := [Submit(id, gcode), StopFlag, StopState] + [StopJoined, StopEnd, Put(id)];
      && EnabledAll(Init(), evs, lim)
      && var s := Play(Init(), evs, lim);
         && s.stopper.Stopped? && s.stopper.mark == 0 && s.engine.Shutdown? && Quiet(s.worker)
         && s.log.accepted == s.queue == [id]
  {
    var lim := Limits(256, 500);
    var first := [Submit(id, gcode), StopFlag, StopState];
    var s1 := Next(Init(), Submit(id, gcode), lim);
    var s2 := Next(s1, StopFlag, lim);
    PlayOne(s2, first[2..], lim);
    PlayLonger(s1, first[1..], s2, first[2..], lim);
    PlayLonger(Init(), first, s1, first[1..], lim);
    ReturnThenPut(Play(Init(), first, lim), id, lim);
    JoinRuns(Init(), first, [StopJoined, StopEnd, Put(id)], lim);
  }
}
