/** What becomes of a cancelled job: whether its slot is freed, and whether the cancel survives restarts
    (src/jobs/job_manager.py, src/jobs/job_executor.py). */
module JobOutcomes {
  import opened Basics
  import opened JobModel
  import opened JobStore
  import opened Executor
  import opened ExecutorProofs
  import opened ExecutorTheorems
  import opened ExecutorEnds
  import opened ExecutorTexts
  import opened ManagerSteps
  import opened JobSystem
  import opened JobWorld
  import opened JobInvariant
  import opened JobEvents
  import opened JobTheorems
  import Recoveries

  // ---- The slot ----

  /** Own steps of the thread of this job, for as long as it is the active one. */
  function Drive(s: Sys, id: string, steps: seq<(Reply, Fault)>): Sys
    decreases |steps|
  {
    if steps == [] || !IsActive(s.mgr, id) then s
    else Drive(StepActive(s, steps[0].0, steps[0].1), id, steps[1..])
  }

  /** Those steps leave the manager holding a job whose thread has ended. */
  predicate Loses(s: Sys, id: string, steps: seq<(Reply, Fault)>) { SlotLost(Drive(s, id, steps)) }

  lemma ActiveInv(s: Sys)
    requires SysInv(s) && s.mgr.active.Some?
    ensures ExecInv(s.mgr.active.value) && s.mgr.active.value.log.fired == 0
  {
    assert ThreadOk(s.hist, s.mgr.files, ActiveThread(s.mgr)[0]);
  }

  /** When the thread calls back, another job has the slot, or none. */
  lemma FiredIsReplaced(s: Sys, reply: Reply, fault: Fault)
    requires SysInv(s) && s.mgr.active.Some? && Fires(s.mgr.active.value.pc)
    ensures !IsActive(StepActive(s, reply, fault).mgr, s.mgr.active.value.job.id)
    ensures !SlotLost(StepActive(s, reply, fault))
  {
    ActiveStays(s, reply, fault);
    if s.mgr.queue != [] {
      ActiveApart(s);
    }
  }

  lemma {:induction false} HeardFreesSlot(s: Sys, id: string, steps: seq<(Reply, Fault)>)
    requires SysInv(s) && IsActive(s.mgr, id)
    requires JustCancelled(s.mgr.active.value) && !EndsUnheard(s.mgr.active.value)
    ensures !SlotLost(Drive(s, id, steps))
    decreases |steps|
  {
    ActiveInv(s);
    if steps != [] {
      var e, s1 := s.mgr.active.value, StepActive(s, steps[0].0, steps[0].1);
      NextKeepsInv(s, ActiveStep(steps[0].0, steps[0].1));
      if Fires(e.pc) {
        FiredIsReplaced(s, steps[0].0, steps[0].1);
      } else {
        ActiveStays(s, steps[0].0, steps[0].1);
        CancelledKept(e, steps[0].0);
        HeardStep(e, steps[0].0);
        StepKeepsId(e, steps[0].0);
        HeardFreesSlot(s1, id, steps[1..]);
      }
    }
  }

  lemma StepKeepsId(e: Exec, reply: Reply)
    ensures Step(e, reply).job.id == e.job.id
  {
  }

  lemma UnheardSysStep(s: Sys, id: string)
    requires SysInv(s) && IsActive(s.mgr, id) && !s.mgr.active.value.pc.Ended?
    requires JustCancelled(s.mgr.active.value) && EndsUnheard(s.mgr.active.value)
    ensures var t := StepActive(s, Ok, NoFault);
      && IsActive(t.mgr, id) && JustCancelled(t.mgr.active.value) && EndsUnheard(t.mgr.active.value)
      && Rank(t.mgr.active.value) < Rank(s.mgr.active.value)
  {
    var e := s.mgr.active.value;
    ActiveInv(s);
    UnheardStep(e);
    ActiveStays(s, Ok, NoFault);
    CancelledKept(e, Ok);
    StepKeepsId(e, Ok);
  }

  lemma {:induction false} UnheardLosesSlot(s: Sys, id: string) returns (steps: seq<(Reply, Fault)>)
    requires SysInv(s) && IsActive(s.mgr, id)
    requires JustCancelled(s.mgr.active.value) && EndsUnheard(s.mgr.active.value)
    ensures SlotLost(Drive(s, id, steps))
    decreases Rank(s.mgr.active.value)
  {
    if s.mgr.active.value.pc.Ended? {
      return [];
    }
    NextKeepsInv(s, ActiveStep(Ok, NoFault));
    UnheardSysStep(s, id);
    var rest := UnheardLosesSlot(StepActive(s, Ok, NoFault), id);
    steps := [(Ok, NoFault)] + rest;
    assert steps[1..] == rest;
  }

  lemma CancelledFreesSlotIff(s: Sys, id: string)
    requires SysInv(s) && IsActive(s.mgr, id) && JustCancelled(s.mgr.active.value)
    ensures (forall steps :: !Loses(s, id, steps)) <==> !EndsUnheard(s.mgr.active.value)
  {
    if EndsUnheard(s.mgr.active.value) {
      var steps := UnheardLosesSlot(s, id);
      assert Loses(s, id, steps);
    } else {
      forall steps
        ensures !Loses(s, id, steps)
      {
        HeardFreesSlot(s, id, steps);
      }
    }
  }

  /** After these steps the job has the slot no more. */
  predicate Leaves(s: Sys, id: string, steps: seq<(Reply, Fault)>) { !IsActive(Drive(s, id, steps).mgr, id) }

  /** As many steps as its rank are enough. */
  lemma {:induction false} HeardLeaves(s: Sys, id: string, steps: seq<(Reply, Fault)>)
    requires SysInv(s) && IsActive(s.mgr, id)
    requires JustCancelled(s.mgr.active.value) && !EndsUnheard(s.mgr.active.value)
    requires |steps| >= Rank(s.mgr.active.value)
    ensures Leaves(s, id, steps)
    decreases |steps|
  {
    HeardIsNotOver(s);
    var (reply, fault) := steps[0];
    var t := ActiveStepInv(s, reply, fault);
    DriveFirst(s, id, steps);
    if Fires(s.mgr.active.value.pc) {
      FiredIsReplaced(s, reply, fault);
    } else {
      HeardStays(s, id, reply, fault);
      HeardLeaves(t, id, steps[1..]);
    }
  }

  lemma HeardIsNotOver(s: Sys)
    requires SysInv(s) && s.mgr.active.Some?
    requires JustCancelled(s.mgr.active.value) && !EndsUnheard(s.mgr.active.value)
    ensures Rank(s.mgr.active.value) > 0
  {
    ActiveInv(s);
    StopStepProgress(s.mgr.active.value, Ok);
  }

  lemma HeardStays(s: Sys, id: string, reply: Reply, fault: Fault)
    requires SysInv(s) && IsActive(s.mgr, id) && !Fires(s.mgr.active.value.pc)
    requires JustCancelled(s.mgr.active.value) && !EndsUnheard(s.mgr.active.value)
    ensures var t := StepActive(s, reply, fault);
      && IsActive(t.mgr, id) && JustCancelled(t.mgr.active.value) && !EndsUnheard(t.mgr.active.value)
      && Rank(t.mgr.active.value) < Rank(s.mgr.active.value)
  {
    var e := s.mgr.active.value;
    ActiveInv(s);
    ActiveStays(s, reply, fault);
    CancelledKept(e, reply);
    HeardStep(e, reply);
    StepKeepsId(e, reply);
    StopStepProgress(e, reply);
  }

  function AllWell(n: nat): (steps: seq<(Reply, Fault)>)
    ensures |steps| == n && forall k :: 0 <= k < n ==> steps[k] == (Ok, NoFault)
  {
    seq(n, k => (Ok, NoFault))
  }

  lemma AllWellRest(n: nat)
    requires n > 0
    ensures AllWell(n)[1..] == AllWell(n - 1)
  {
  }

  /** The steps of an unheard thread never give the slot back. */
  lemma {:induction false} UnheardRemains(s: Sys, id: string, n: nat)
    requires SysInv(s) && IsActive(s.mgr, id)
    requires JustCancelled(s.mgr.active.value) && EndsUnheard(s.mgr.active.value)
    ensures !Leaves(s, id, AllWell(n))
    decreases n
  {
    if n > 0 {
      var t := ActiveStepInv(s, Ok, NoFault);
      UnheardStaysActive(s, id);
      UnheardRemains(t, id, n - 1);
      WellDriven(s, t, id, n);
    }
  }

  lemma WellDriven(s: Sys, t: Sys, id: string, n: nat)
    requires n > 0 && IsActive(s.mgr, id) && t == StepActive(s, Ok, NoFault)
    ensures Leaves(s, id, AllWell(n)) <==> Leaves(t, id, AllWell(n - 1))
  {
    DriveFirst(s, id, AllWell(n));
    AllWellRest(n);
  }

  lemma DriveFirst(s: Sys, id: string, steps: seq<(Reply, Fault)>)
    requires IsActive(s.mgr, id) && steps != []
    ensures Drive(s, id, steps) == Drive(StepActive(s, steps[0].0, steps[0].1), id, steps[1..])
  {
  }

  lemma ActiveStepInv(s: Sys, reply: Reply, fault: Fault) returns (t: Sys)
    requires SysInv(s) && s.mgr.active.Some?
    ensures t == StepActive(s, reply, fault) && SysInv(t)
  {
    t := StepActive(s, reply, fault);
    NextKeepsInv(s, ActiveStep(reply, fault));
  }

  lemma UnheardStaysActive(s: Sys, id: string)
    requires SysInv(s) && IsActive(s.mgr, id)
    requires JustCancelled(s.mgr.active.value) && EndsUnheard(s.mgr.active.value)
    ensures var t := StepActive(s, Ok, NoFault);
      IsActive(t.mgr, id) && JustCancelled(t.mgr.active.value) && EndsUnheard(t.mgr.active.value)
  {
    if s.mgr.active.value.pc.Ended? {
      ActiveStays(s, Ok, NoFault);
    } else {
      UnheardSysStep(s, id);
    }
  }

  lemma CancelledLeavesIff(s: Sys, id: string)
    requires SysInv(s) && IsActive(s.mgr, id) && JustCancelled(s.mgr.active.value)
    ensures (forall steps :: |steps| >= MAX_RANK ==> Leaves(s, id, steps)) <==> !EndsUnheard(s.mgr.active.value)
  {
    if EndsUnheard(s.mgr.active.value) {
      UnheardRemains(s, id, MAX_RANK);
      assert !Leaves(s, id, AllWell(MAX_RANK));
    } else {
      RankBound(s.mgr.active.value);
      forall steps | |steps| >= MAX_RANK
        ensures Leaves(s, id, steps)
      {
        HeardLeaves(s, id, steps);
      }
    }
  }

  lemma CancelledIs(s: Sys, fault: Fault)
    requires SysInv(s) && s.mgr.active.Some?
    ensures var e := s.mgr.active.value;
      var s1, c := Next(s, AskCancel(e.job.id, fault)), CancelReq(e, s.mgr.queue != []);
      s1.mgr.active == Some(c) && IsActive(s1.mgr, e.job.id) && JustCancelled(c)
  {
    var e := s.mgr.active.value;
    ActiveInv(s);
    CancelIsJust(e, s.mgr.queue != []);
    ControlIs(s, e.job.id, "", fault);
  }

  /** After a cancel the active job gives up its slot within MAX_RANK of its own steps, and its slot is never lost,
      however its sends and saves come back, if and only if the cancel did not come at a point where the thread ends
      unheard. */
  lemma CancelFreesSlotIff(s: Sys, fault: Fault)
    requires SysInv(s) && s.mgr.active.Some?
    ensures var e := s.mgr.active.value;
      var s1 := Next(s, AskCancel(e.job.id, fault));
      && ((forall steps :: |steps| >= MAX_RANK ==> Leaves(s1, e.job.id, steps))
          <==> !EndsUnheard(CancelReq(e, s.mgr.queue != [])))
      && ((forall steps :: !Loses(s1, e.job.id, steps)) <==> !EndsUnheard(CancelReq(e, s.mgr.queue != [])))
  {
    var id := s.mgr.active.value.job.id;
    CancelledIs(s, fault);
    NextKeepsInv(s, AskCancel(id, fault));
    CancelledFreesSlotIff(Next(s, AskCancel(id, fault)), id);
    CancelledLeavesIff(Next(s, AskCancel(id, fault)), id);
  }

  /** The last four texts are those of a stop that starts with M25 if and only if somebody waits. */
  predicate StopsAsWaiting(texts: seq<string>, waiting: bool) {
    var at := |texts| - 4;
    && at >= 0 && texts[at] in {"M25", "M24"} && (texts[at] == "M25" <==> waiting)
    && texts[at + 1..] == ["M104 S0", "M140 S0", "M84"]
  }

  lemma StopAtEnd(rest: seq<string>, waiting: bool)
    ensures StopsAsWaiting(rest + [if waiting then "M25" else "M24", "M104 S0", "M140 S0", "M84"], waiting)
  {
    var texts := rest + [if waiting then "M25" else "M24", "M104 S0", "M140 S0", "M84"];
    assert texts[|rest|] == if waiting then "M25" else "M24";
  }

  /** The whole stop after a cancel of the active job starts with M25 if and only if a job was waiting when the cancel
      came, unless the stop had begun before or the job is cancelled again; whoever joins or leaves the queue later. */
  lemma StopHoldsIffWaiting(s: Sys, fault: Fault, acts: seq<Act>) returns (c: Exec)
    requires SysInv(s) && s.mgr.active.Some? && StopAhead(s.mgr.active.value) && NeverCancelled(acts)
    ensures Next(s, AskCancel(s.mgr.active.value.job.id, fault)).mgr.active == Some(c)
    ensures HasStop(Run(c, acts)) ==> StopsAsWaiting(CmdTexts(Run(c, acts).log.sent), s.mgr.queue != [])
  {
    var e, waiting := s.mgr.active.value, s.mgr.queue != [];
    CancelledIs(s, fault);
    c := CancelReq(e, waiting);
    if HasStop(Run(c, acts)) {
      var rest := StopStartsAsAsked(e, waiting, acts);
      StopAtEnd(rest, waiting);
    }
  }

  // ---- A fail ----

  /** Asked to fail and never cancelled. */
  predicate FailAsked(e: Exec) { e.flags.fail && !e.flags.cancel }

  lemma FailStays(s: Sys, id: string, reply: Reply, fault: Fault)
    requires SysInv(s) && IsActive(s.mgr, id) && FailAsked(s.mgr.active.value) && !Fires(s.mgr.active.value.pc)
    ensures var t := StepActive(s, reply, fault);
      && IsActive(t.mgr, id) && FailAsked(t.mgr.active.value)
      && Rank(t.mgr.active.value) < Rank(s.mgr.active.value)
  {
    var e := s.mgr.active.value;
    ActiveInv(s);
    ActiveStays(s, reply, fault);
    StepKeepsFlags(e, Own(reply));
    StepKeepsId(e, reply);
    StopStepProgress(e, reply);
  }

  lemma {:induction false} FailLeaves(s: Sys, id: string, steps: seq<(Reply, Fault)>)
    requires SysInv(s) && IsActive(s.mgr, id) && FailAsked(s.mgr.active.value)
    requires |steps| >= Rank(s.mgr.active.value)
    ensures Leaves(s, id, steps)
    decreases |steps|
  {
    ActiveInv(s);
    StopStepProgress(s.mgr.active.value, Ok);
    var (reply, fault) := steps[0];
    var t := ActiveStepInv(s, reply, fault);
    DriveFirst(s, id, steps);
    if Fires(s.mgr.active.value.pc) {
      FiredIsReplaced(s, reply, fault);
    } else {
      FailStays(s, id, reply, fault);
      FailLeaves(t, id, steps[1..]);
    }
  }

  /** After a fail the active job, if it was not cancelled, gives up its slot within 23 of its own steps, wherever its
      thread was and however its sends and saves come back. */
  lemma FailFreesSlot(s: Sys, reason: string, steps: seq<(Reply, Fault)>)
    requires SysInv(s) && s.mgr.active.Some? && !s.mgr.active.value.flags.cancel && |steps| >= 23
    ensures var id := s.mgr.active.value.job.id; Leaves(Next(s, AskFail(id, reason)), id, steps)
  {
    var id := s.mgr.active.value.job.id;
    ControlIs(s, id, reason, NoFault);
    NextKeepsInv(s, AskFail(id, reason));
    RankBound(FailReq(s.mgr.active.value, reason));
    FailLeaves(Next(s, AskFail(id, reason)), id, steps);
  }

  // ---- The other way to lose it ----

  lemma FailOn(s: Sys, evs: seq<Event>, e: Exec) returns (longer: seq<Event>)
    requires Reaches(s, evs, e)
    ensures Reaches(s, longer, FailReq(e, ""))
  {
    var ev := AskFail(e.job.id, "");
    longer := evs + [ev];
    OneMoreEvent(s, evs, ev);
    ControlIs(Play(s, evs), e.job.id, "", NoFault);
  }

  lemma CancelThenFailPoints(e: Exec)
    requires e.pc == Testing(Loop) && e.job.index < e.job.total && !e.job.IsTerminal()
    ensures var e1 := FailReq(CancelReq(e, false), "");
      var e2 := Step(e1, Ok);
      var e3 := Step(e2, Ok);
      && !Fires(e1.pc) && !Fires(e2.pc) && !Fires(e3.pc) && e3.pc.FailJob? && Step(e3, Ok).pc.Ended?
  {
  }

  /** From every idle system: submitting a job with a line, and cancelling and then failing it before the thread tests
      the fail event, loses the slot too. */
  lemma SlotLostByFail(s: Sys, j: JobRec) returns (evs: seq<Event>)
    requires SysInv(s) && s.mgr.active.None? && Enabled(s, SubmitJob(j, NoFault)) && j.total > 0
    ensures EnabledAll(s, evs) && NoCrash(evs) && SlotLost(Play(s, evs))
  {
    var e := NewExec(j).(job := j.MarkPrinting(), pc := Testing(Loop));
    evs := FirstSubmit(s, j);
    evs := StartedThread(s, evs, NewExec(j));
    CancelThenFailPoints(e);
    evs := CancelOn(s, evs, e);
    evs := FailOn(s, evs, CancelReq(e, false));
    var e1 := FailReq(CancelReq(e, false), "");
    evs := StepOn(s, evs, e1);
    evs := StepOn(s, evs, Step(e1, Ok));
    evs := StepOn(s, evs, Step(Step(e1, Ok), Ok));
  }

  // ---- Whether the cancel lasts ----

  ghost predicate DiskHolds(files: Files, id: string) {
    SafeId(id) && Stored(files, id).Some? && Stored(files, id).value.IsTerminal()
  }

  ghost predicate ThreadsHold(threads: seq<Exec>, id: string) {
    forall k :: 0 <= k < |threads| && threads[k].job.id == id ==> Settled(threads[k])
  }

  /** The cancel holds: the stored status is final, no thread of the job will change it, and the job does not wait. */
  ghost predicate CancelHolds(s: Sys, id: string) {
    && DiskHolds(s.mgr.files, id) && QueueApart(s.mgr.queue, id)
    && ThreadsHold(s.retired, id) && ThreadsHold(ActiveThread(s.mgr), id)
  }

  lemma SaveHolds(files: Files, j: JobRec, fault: Fault, id: string)
    requires DiskHolds(files, id) && SafeId(j.id) && (j.id == id ==> j.IsTerminal())
    ensures DiskHolds(SaveFiles(files, j, fault), id)
  {
    StoredAfterSave(files, j, fault, id);
  }

  lemma OwnStepHolds(files: Files, e: Exec, reply: Reply, fault: Fault, id: string)
    requires DiskHolds(files, id) && SafeId(e.job.id) && (e.job.id == id ==> Settled(e))
    ensures DiskHolds(FilesAfter(files, e, fault), id)
    ensures Step(e, reply).job.id == id ==> Settled(Step(e, reply))
  {
    if Saves(e.pc) {
      SaveHolds(files, e.job, fault, id);
    }
    StepKeepsId(e, reply);
    if e.job.id == id {
      SettledStays(e, Own(reply));
    }
  }

  lemma ActiveStepHolds(s: Sys, reply: Reply, fault: Fault, id: string)
    requires SysInv(s) && CancelHolds(s, id) && s.mgr.active.Some?
    ensures CancelHolds(StepActive(s, reply, fault), id)
  {
    var e, t := s.mgr.active.value, StepActive(s, reply, fault);
    assert ActiveThread(s.mgr)[0] == e;
    assert ThreadOk(s.hist, s.mgr.files, ActiveThread(s.mgr)[0]);
    OwnStepHolds(s.mgr.files, e, reply, fault, id);
    if Fires(e.pc) {
      assert t.retired == s.retired + [Step(e, reply)];
    }
  }

  lemma RetiredStepHolds(s: Sys, k: nat, reply: Reply, fault: Fault, id: string)
    requires SysInv(s) && CancelHolds(s, id) && k < |s.retired|
    ensures CancelHolds(StepRetired(s, k, reply, fault), id)
  {
    RetiredIsSilent(s.retired[k], reply);
    RetiredStepIs(s, k, reply, fault);
    assert ThreadOk(s.hist, s.mgr.files, s.retired[k]);
    OwnStepHolds(s.mgr.files, s.retired[k], reply, fault, id);
  }

  lemma ControlHolds(s: Sys, a: Act, saves: bool, fault: Fault, id: string)
    requires SysInv(s) && CancelHolds(s, id) && s.mgr.active.Some? && !a.Own?
    ensures CancelHolds(Controlled(s, a, saves, fault), id)
  {
    var e := s.mgr.active.value;
    assert ActiveThread(s.mgr)[0] == e;
    assert ThreadOk(s.hist, s.mgr.files, ActiveThread(s.mgr)[0]);
    ControlKeepsId(e, a);
    if e.job.id == id {
      SettledStays(e, a);
    }
    if saves {
      SaveHolds(s.mgr.files, Apply(e, a).job, fault, id);
    }
  }

  lemma ControlKeepsId(e: Exec, a: Act)
    requires !a.Own?
    ensures Apply(e, a).job.id == e.job.id
  {
  }

  lemma CancelQueuedHolds(s: Sys, other: string, fault: Fault, id: string)
    requires SysInv(s) && CancelHolds(s, id) && CancelsQueued(s.mgr, other)
    ensures CancelHolds(Next(s, AskCancel(other, fault)), id)
  {
    CancelQueuedShape(s, other, fault);
    var k := QueuePos(s.mgr.queue, other);
    assert QueuedOk(s.hist, s.mgr.files, s.mgr.queue[k]);
    SaveHolds(s.mgr.files, s.mgr.queue[k].MarkCancelled(), fault, id);
  }

  lemma AskActiveHolds(s: Sys, ev: Event, id: string)
    requires SysInv(s) && CancelHolds(s, id)
    requires (ev.AskPause? || ev.AskResume? || ev.AskFail? || ev.AskCancel?) && IsActive(s.mgr, ev.id)
    ensures CancelHolds(Next(s, ev), id)
  {
    var e := s.mgr.active.value;
    ControlIs(s, ev.id, if ev.AskFail? then ev.reason else "", if ev.AskFail? then NoFault else ev.fault);
    match ev
    case AskPause(_, fault) => ControlHolds(s, ReqPause, PauseSaves(e), fault, id);
    case AskResume(_, fault) => ControlHolds(s, ReqResume, ResumeSaves(e), fault, id);
    case AskCancel(_, fault) => ControlHolds(s, ReqCancel(s.mgr.queue != []), CancelSaves(e), fault, id);
    case AskFail(_, reason) => ControlHolds(s, ReqFail(reason), false, NoFault, id);
  }

  lemma AskHolds(s: Sys, ev: Event, id: string)
    requires SysInv(s) && CancelHolds(s, id)
    requires ev.AskPause? || ev.AskResume? || ev.AskFail? || ev.AskCancel?
    ensures CancelHolds(Next(s, ev), id)
  {
    if IsActive(s.mgr, ev.id) {
      AskActiveHolds(s, ev, id);
    } else if ev.AskCancel? && CancelsQueued(s.mgr, ev.id) {
      CancelQueuedHolds(s, ev.id, ev.fault, id);
    } else {
      IdleCallKeeps(s, ev);
    }
  }

  lemma SubmitHolds(s: Sys, j: JobRec, fault: Fault, id: string)
    requires CancelHolds(s, id) && Enabled(s, SubmitJob(j, fault))
    ensures CancelHolds(Next(s, SubmitJob(j, fault)), id)
  {
    SaveHolds(s.mgr.files, j, fault, id);
  }

  lemma RestartHolds(s: Sys, files: Files, names: seq<string>, fetch: JobRec -> Fetched, id: string)
    requires SysInv(s) && CancelHolds(s, id) && SameJobs(s.mgr.files, files) && IsListing(files, names)
    ensures CancelHolds(Restart(s, files, names, fetch), id)
  {
    SameJobsSameStored(s.mgr.files, files, id);
    RestartTakesUpIff(s, files, names, fetch, id);
    NotLiveIsApart(Restart(s, files, names, fetch), id);
    RestartIs(s, files, names, fetch);
    SameStoredKeepsWorld(s.hist, s.mgr.files, files);
    FinalIsNotRevived(files, names, id);
    RecoveryHolds(Blank(files), Revived(files, names), fetch, id);
  }

  lemma FinalIsNotRevived(files: Files, names: seq<string>, id: string)
    requires FilesOk(files) && IsListing(files, names) && DiskHolds(files, id)
    ensures forall k :: 0 <= k < |Revived(files, names)| ==>
              SafeId(Revived(files, names)[k].id) && Revived(files, names)[k].id != id
  {
    RevivedIsStored(files, names);
    assert forall k :: 0 <= k < |Revived(files, names)| ==> Revived(files, names)[k] in Revived(files, names);
  }

  /** Recovery saves only jobs that were not final. */
  lemma {:induction false} RecoveryHolds(r: Recovery, jobs: seq<JobRec>, fetch: JobRec -> Fetched, id: string)
    requires DiskHolds(r.mgr.files, id)
    requires forall k :: 0 <= k < |jobs| ==> SafeId(jobs[k].id) && jobs[k].id != id
    ensures DiskHolds(RecoverEach(r, jobs, fetch).mgr.files, id)
    decreases |jobs|
  {
    if jobs != [] && !r.raised {
      if !Obtains(jobs[0], fetch) {
        var j := jobs[0].MarkFailed(REFETCH_FAILED + fetch(jobs[0]).why);
        SaveHolds(r.mgr.files, j, fetch(jobs[0]).fault, id);
      }
      assert forall k :: 0 <= k < |jobs[1..]| ==> jobs[1..][k] == jobs[k + 1];
      RecoveryHolds(RecoverOne(r, jobs[0], fetch), jobs[1..], fetch, id);
    }
  }

  lemma NotInParts<T>(a: seq<T>, b: seq<T>, x: T)
    requires x !in a + b
    ensures forall k :: 0 <= k < |a| ==> a[k] != x
    ensures forall k :: 0 <= k < |b| ==> b[k] != x
  {
    assert forall k :: 0 <= k < |a| ==> (a + b)[k] == a[k];
    assert forall k :: 0 <= k < |b| ==> (a + b)[|a| + k] == b[k];
  }

  lemma NotLiveIsApart(s: Sys, id: string)
    requires id !in LiveIds(s)
    ensures QueueApart(s.mgr.queue, id) && ThreadsHold(s.retired, id) && ThreadsHold(ActiveThread(s.mgr), id)
  {
    var t, q := ThreadIds(Threads(s)), JobIds(s.mgr.queue);
    NotInParts(t, q, id);
    forall k | 0 <= k < |s.mgr.queue|
      ensures s.mgr.queue[k].id != id
    {
      assert q[k] == s.mgr.queue[k].id;
    }
    forall k | 0 <= k < |Threads(s)|
      ensures Threads(s)[k].job.id != id
    {
      assert t[k] == Threads(s)[k].job.id;
    }
    assert forall k :: 0 <= k < |s.retired| ==> Threads(s)[k] == s.retired[k];
    assert forall k :: 0 <= k < |ActiveThread(s.mgr)| ==> Threads(s)[|s.retired| + k] == ActiveThread(s.mgr)[k];
  }

  lemma NextHolds(s: Sys, ev: Event, id: string)
    requires SysInv(s) && CancelHolds(s, id) && Enabled(s, ev)
    ensures CancelHolds(Next(s, ev), id)
  {
    match ev
    case SubmitJob(j, fault) => SubmitHolds(s, j, fault, id);
    case ActiveStep(reply, fault) => ActiveStepHolds(s, reply, fault, id);
    case RetiredStep(k, reply, fault) => RetiredStepHolds(s, k, reply, fault, id);
    case Crash(files, names, fetch) => RestartHolds(s, files, names, fetch, id);
    case _ => AskHolds(s, ev, id);
  }

  lemma {:induction false} PlayHolds(s: Sys, evs: seq<Event>, id: string)
    requires SysInv(s) && CancelHolds(s, id) && EnabledAll(s, evs)
    ensures CancelHolds(Play(s, evs), id)
    decreases |evs|
  {
    if evs != [] {
      NextKeepsInv(s, evs[0]);
      NextHolds(s, evs[0], id);
      PlayHolds(Next(s, evs[0]), evs[1..], id);
    }
  }

  /** The cancel of a running job, once saved, is in force unless the thread is about to overwrite it. */
  lemma SavedCancelHolds(s: Sys)
    requires SysInv(s) && s.mgr.active.Some? && !s.mgr.active.value.job.IsTerminal()
    requires !WillOverwrite(s.mgr.active.value.pc)
    ensures CancelHolds(Next(s, AskCancel(s.mgr.active.value.job.id, NoFault)), s.mgr.active.value.job.id)
  {
    var e := s.mgr.active.value;
    assert ThreadOk(s.hist, s.mgr.files, ActiveThread(s.mgr)[0]);
    ControlIs(s, e.job.id, "", NoFault);
    ActiveApart(s);
    StoredAfterSave(s.mgr.files, e.job.MarkCancelled(), NoFault, e.job.id);
  }

  lemma SysPlayFirst(s: Sys, ev: Event, rest: seq<Event>)
    requires Enabled(s, ev) && EnabledAll(Next(s, ev), rest)
    ensures EnabledAll(s, [ev] + rest) && Play(s, [ev] + rest) == Play(Next(s, ev), rest)
  {
    assert ([ev] + rest)[1..] == rest;
  }

  /** About to save a status that is not final. */
  predicate SavesOpen(e: Exec) {
    (e.pc == Starting(PersistStart) || e.pc == Pausing(PersistPause) || e.pc == Resuming(PersistResume))
    && !e.job.IsTerminal()
  }

  function StepsToMark(pc: Pc): nat {
    if pc == Pausing(PauseCall) || pc == Resuming(ResumeCall) then 2
    else if pc == Pausing(PauseWait) || pc == Resuming(ResumeWait) then 1 else 0
  }

  lemma OverwritePoints(e: Exec)
    requires WillOverwrite(e.pc)
    ensures var e' := Step(e, Ok);
      && !Fires(e.pc) && e'.job.id == e.job.id
      && ((WillOverwrite(e'.pc) && StepsToMark(e'.pc) < StepsToMark(e.pc)) || SavesOpen(e'))
  {
  }

  lemma OpenIsStored(s: Sys)
    requires SysInv(s) && s.mgr.active.Some? && SavesOpen(s.mgr.active.value)
    ensures !DiskHolds(StepActive(s, Ok, NoFault).mgr.files, s.mgr.active.value.job.id)
  {
    var e := s.mgr.active.value;
    assert ThreadOk(s.hist, s.mgr.files, ActiveThread(s.mgr)[0]);
    StoredAfterSave(s.mgr.files, e.job, NoFault, e.job.id);
  }

  lemma {:induction false} OverwriteIsStored(s: Sys, id: string) returns (evs: seq<Event>)
    requires SysInv(s) && IsActive(s.mgr, id)
    requires WillOverwrite(s.mgr.active.value.pc) || SavesOpen(s.mgr.active.value)
    ensures EnabledAll(s, evs) && !DiskHolds(Play(s, evs).mgr.files, id)
    decreases if SavesOpen(s.mgr.active.value) then 0 else 1, StepsToMark(s.mgr.active.value.pc)
  {
    var e, ev := s.mgr.active.value, ActiveStep(Ok, NoFault);
    if SavesOpen(e) {
      OpenIsStored(s);
      evs := [ev] + [];
      SysPlayFirst(s, ev, []);
    } else {
      OverwritePoints(e);
      ActiveStays(s, Ok, NoFault);
      NextKeepsInv(s, ev);
      var rest := OverwriteIsStored(Next(s, ev), id);
      evs := [ev] + rest;
      SysPlayFirst(s, ev, rest);
    }
  }

  /** Once the cancel of the running job is saved, its stored status is final over every further run with any number of
      restarts, so that by RestartTakesUpIff no restart takes it up, if and only if the cancel did not come between the
      thread deciding to start, pause or resume and writing the status for it. */
  lemma SavedCancelLastsIff(s: Sys)
    requires SysInv(s) && s.mgr.active.Some? && !s.mgr.active.value.job.IsTerminal()
    ensures var id := s.mgr.active.value.job.id;
      var t := Next(s, AskCancel(id, NoFault));
      (forall evs :: EnabledAll(t, evs) ==> DiskHolds(Play(t, evs).mgr.files, id))
      <==> !WillOverwrite(s.mgr.active.value.pc)
  {
    var id := s.mgr.active.value.job.id;
    var t := Next(s, AskCancel(id, NoFault));
    NextKeepsInv(s, AskCancel(id, NoFault));
    if WillOverwrite(s.mgr.active.value.pc) {
      CancelledIs(s, NoFault);
      var evs := OverwriteIsStored(t, id);
      assert EnabledAll(t, evs) && !DiskHolds(Play(t, evs).mgr.files, id);
    } else {
      SavedCancelHolds(s);
      forall evs | EnabledAll(t, evs)
        ensures DiskHolds(Play(t, evs).mgr.files, id)
      {
        PlayHolds(t, evs, id);
      }
    }
  }

  // ---- What a restart finds ----

  /** The resumable jobs of a listing of the directory have safe ids, all different. */
  lemma LoadedApart(files: Files, names: seq<string>)
    requires WellNamed(files) && IsListing(files, names)
    ensures Recoveries.SafeApart(SortByCreation(Resumable(LoadAllJobs(files, names))))
  {
    var jobs := SortByCreation(Resumable(LoadAllJobs(files, names)));
    RevivedIsStored(files, names);
    assert jobs == Revived(files, names);
    forall k | 0 <= k < |jobs|
      ensures SafeId(jobs[k].id)
    {
      assert jobs[k] in jobs;
    }
    forall a, b | 0 <= a < b < |jobs|
      ensures jobs[a].id != jobs[b].id
    {
      assert JobIds(jobs)[a] != JobIds(jobs)[b];
    }
  }
}
