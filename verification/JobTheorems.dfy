/** The main results about the print-job layer: for every run from an empty system, with any interleaving of
    submissions, control calls, thread steps, save faults and restarts. */
module JobTheorems {
  import opened Basics
  import opened JobModel
  import opened JobStore
  import opened Executor
  import opened ExecutorProofs
  import opened ExecutorTheorems
  import opened ManagerSteps
  import opened JobSystem
  import opened JobWorld
  import opened JobInvariant
  import opened JobEvents

  // ---- Exclusive use of the printer ----

  /** Since the last restart the commands on the wire are one block per thread, in the order the jobs were
      started; only the newest thread can still send. */
  lemma ExclusiveUse(evs: seq<Event>)
    requires EnabledAll(Init(), evs)
    ensures var s := Play(Init(), evs);
      && s.since.epoch <= |s.hist.wire|
      && s.hist.wire[s.since.epoch..] == Blocks(Threads(s))
      && (forall k :: 0 <= k < |s.retired| ==> Emits(s.retired[k]).None?)
  {
    InitInv();
    PlayKeepsInv(Init(), evs);
    var s := Play(Init(), evs);
    forall k | 0 <= k < |s.retired|
      ensures Emits(s.retired[k]).None?
    {
      RetiredIsSilent(s.retired[k], Ok);
    }
  }

  /** Put without blocks: between two commands of one job there is never a command of another. */
  lemma NoInterleaving(evs: seq<Event>, i: nat, j: nat, k: nat)
    requires EnabledAll(Init(), evs)
    requires Play(Init(), evs).since.epoch <= i < j < k < |Play(Init(), evs).hist.wire|
    requires Play(Init(), evs).hist.wire[i].id == Play(Init(), evs).hist.wire[k].id
    ensures Play(Init(), evs).hist.wire[j].id == Play(Init(), evs).hist.wire[i].id
  {
    InitInv();
    PlayKeepsInv(Init(), evs);
    WireContiguous(Play(Init(), evs), i, j, k);
  }

  lemma WireContiguous(s: Sys, i: nat, j: nat, k: nat)
    requires Sched(s) && WireBlocks(s) && s.since.epoch <= i < j < k < |s.hist.wire|
    requires s.hist.wire[i].id == s.hist.wire[k].id
    ensures s.hist.wire[j].id == s.hist.wire[i].id
  {
    var n := s.since.epoch;
    Suffix(s.hist.wire, n, i);
    Suffix(s.hist.wire, n, j);
    Suffix(s.hist.wire, n, k);
    LiveIdsDistinct(s);
    DistinctParts(ThreadIds(Threads(s)), JobIds(s.mgr.queue));
    BlocksContiguous(Threads(s), i - n, j - n, k - n);
  }

  lemma Suffix(wire: seq<Sent>, n: nat, i: nat)
    requires n <= i < |wire|
    ensures wire[n..][i - n] == wire[i]
  {
  }

  lemma {:induction false} BlocksContiguous(threads: seq<Exec>, i: nat, j: nat, k: nat)
    requires Distinct(ThreadIds(threads)) && i < j < k < |Blocks(threads)|
    requires Blocks(threads)[i].id == Blocks(threads)[k].id
    ensures Blocks(threads)[j].id == Blocks(threads)[i].id
  {
    var front := Front(threads);
    var n := |Blocks(front)|;
    FrontDistinct(threads);
    if k < n {
      BlocksContiguous(front, i, j, k);
    } else if i < n {
      var t := BlockOwner(front, i);
    }
  }

  lemma FrontDistinct(threads: seq<Exec>)
    requires threads != [] && Distinct(ThreadIds(threads))
    ensures Distinct(ThreadIds(Front(threads)))
    ensures forall t :: 0 <= t < |Front(threads)| ==> Front(threads)[t].job.id != Last(threads).job.id
  {
    var ids := ThreadIds(threads);
    assert forall t :: 0 <= t < |Front(threads)| ==> ids[t] == Front(threads)[t].job.id;
    assert ids[|threads| - 1] == Last(threads).job.id;
  }

  lemma {:induction false} BlockOwner(threads: seq<Exec>, i: nat) returns (t: nat)
    requires i < |Blocks(threads)|
    ensures t < |threads| && Blocks(threads)[i].id == threads[t].job.id
  {
    if i < |Blocks(Front(threads))| {
      t := BlockOwner(Front(threads), i);
    } else {
      t := |threads| - 1;
    }
  }

  // ---- Scheduling ----

  /** Every job accepted since the last restart is started, waiting, or was cancelled while waiting, and exactly
      one of these; jobs start in order of acceptance; nobody waits unless a job is active; and a job whose
      cancellation while waiting was saved is never started, in this or any later process. */
  lemma Scheduling(evs: seq<Event>, id: string)
    requires EnabledAll(Init(), evs)
    ensures var s := Play(Init(), evs);
      var started, waiting, dropped := ThreadIds(Threads(s)), JobIds(s.mgr.queue), s.since.dropped;
      && started + waiting == Minus(s.since.accepted, dropped)
      && (id in s.since.accepted ==> id in started || id in waiting || id in dropped)
      && (id in started || id in waiting ==> id in s.since.accepted && id !in dropped)
      && !(id in started && id in waiting)
      && (s.mgr.active.None? ==> waiting == [])
      && (id in s.hist.dead ==> id !in started && id !in waiting)
  {
    InitInv();
    PlayKeepsInv(Init(), evs);
    SchedulingAt(Play(Init(), evs), id);
  }

  lemma SchedulingAt(s: Sys, id: string)
    requires SysInv(s)
    ensures var started, waiting, dropped := ThreadIds(Threads(s)), JobIds(s.mgr.queue), s.since.dropped;
      && (id in s.since.accepted ==> id in started || id in waiting || id in dropped)
      && (id in started || id in waiting ==> id in s.since.accepted && id !in dropped)
      && !(id in started && id in waiting)
      && (id in s.hist.dead ==> id !in started && id !in waiting)
  {
    var started, waiting := ThreadIds(Threads(s)), JobIds(s.mgr.queue);
    MinusMembers(s.since.accepted, s.since.dropped);
    assert id in started + waiting <==> id in started || id in waiting;
    LiveIdsDistinct(s);
    DistinctParts(started, waiting);
    if id in s.hist.dead {
      DeadIsNotLive(s, id);
    }
  }

  lemma DeadIsNotLive(s: Sys, id: string)
    requires Jobs(s) && id in s.hist.dead
    ensures id !in ThreadIds(Threads(s)) && id !in JobIds(s.mgr.queue)
  {
    forall k | 0 <= k < |Threads(s)|
      ensures ThreadIds(Threads(s))[k] != id
    {
      if k < |s.retired| {
        assert ThreadOk(s.hist, s.mgr.files, s.retired[k]);
      } else {
        assert ThreadOk(s.hist, s.mgr.files, ActiveThread(s.mgr)[k - |s.retired|]);
      }
    }
    forall k | 0 <= k < |s.mgr.queue|
      ensures JobIds(s.mgr.queue)[k] != id
    {
      assert QueuedOk(s.hist, s.mgr.files, s.mgr.queue[k]);
    }
  }

  // ---- Crash recovery ----

  /** No print line of any job is ever skipped, whatever saves fail and however often the process dies:
      the stored index is at most one past the last line sent, everything below it has succeeded, and every
      line sent is line 0, a repeat, or the successor of the one before. */
  lemma NoLineSkipped(evs: seq<Event>, id: string)
    requires EnabledAll(Init(), evs)
    ensures var s := Play(Init(), evs);
      var lines := LinesOf(s.hist.wire, id);
      && NoSkip(lines)
      && (forall n: nat :: n < NextNo(lines) ==> n in lines)
      && (SafeId(id) && Stored(s.mgr.files, id).Some? ==>
            && Stored(s.mgr.files, id).value.index <= NextNo(lines)
            && forall n: nat :: n < Stored(s.mgr.files, id).value.index ==> Ack(id, n) in s.hist.oks)
  {
    InitInv();
    PlayKeepsInv(Init(), evs);
    var s := Play(Init(), evs);
    var lines := LinesOf(s.hist.wire, id);
    assert NoSkip(lines);
    forall n: nat | n < NextNo(lines)
      ensures n in lines
    {
      NoSkipCovers(lines, n);
    }
    if SafeId(id) && Stored(s.mgr.files, id).Some? {
      assert RecordOk(s.hist, id, Stored(s.mgr.files, id).value);
    }
  }

  lemma {:induction false} NoSkipCovers(lines: seq<nat>, n: nat)
    requires NoSkip(lines) && n < NextNo(lines)
    ensures n in lines
  {
    var front := Front(lines);
    assert lines[|lines| - 1] <= NextNo(lines[..|lines| - 1]);
    forall k | 0 <= k < |front|
      ensures front[k] <= NextNo(front[..k])
    {
      assert front[..k] == lines[..k] && front[k] == lines[k];
    }
    if n != Last(lines) {
      NoSkipCovers(front, n);
      assert lines == front + [Last(lines)];
    }
  }

  /** The disk never gets ahead of a running thread, and if no save has failed it is at most the line in
      progress behind: a restart repeats at most that one line. */
  lemma DiskFollowsThread(evs: seq<Event>)
    requires EnabledAll(Init(), evs) && Play(Init(), evs).mgr.active.Some?
    ensures var s := Play(Init(), evs);
      var e := s.mgr.active.value;
      && Stored(s.mgr.files, e.job.id).Some?
      && Stored(s.mgr.files, e.job.id).value.lines in {e.job.lines, []}
      && Stored(s.mgr.files, e.job.id).value.index <= e.job.index
      && (s.hist.saveFaults == 0 ==>
            && e.job.index <= Stored(s.mgr.files, e.job.id).value.index + 1
            && AtMost(LinesOf(s.hist.wire, e.job.id), Stored(s.mgr.files, e.job.id).value.index))
  {
    InitInv();
    PlayKeepsInv(Init(), evs);
    var s := Play(Init(), evs);
    var e := s.mgr.active.value;
    assert ThreadOk(s.hist, s.mgr.files, ActiveThread(s.mgr)[0]);
    assert RecordOk(s.hist, e.job.id, Stored(s.mgr.files, e.job.id).value);
  }

  /** The disk has the job as its thread has left it; if the thread has ended and called back, with its final status. */
  ghost predicate LevelWithDisk(files: Files, e: Exec) {
    && (Level(e) ==> Stored(files, e.job.id) == Some(e.job))
    && (e.pc.Ended? && e.log.fired == 1 ==>
          Stored(files, e.job.id) == Some(e.job) && e.job.status in {COMPLETED, FAILED, CANCELLED})
  }

  /** If no save has failed, the stored record of every job started since the last restart, whatever becomes of its
      thread, is the job as it is in memory, its status, its index and its reason, except before the thread first saves
      and between a write of the thread and the save that follows it. */
  lemma DiskIsLevel(evs: seq<Event>, k: nat)
    requires EnabledAll(Init(), evs) && Play(Init(), evs).hist.saveFaults == 0 && k < |Threads(Play(Init(), evs))|
    ensures LevelWithDisk(Play(Init(), evs).mgr.files, Threads(Play(Init(), evs))[k])
  {
    InitInv();
    PlayKeepsInv(Init(), evs);
    ThreadIsLevel(Play(Init(), evs), k);
  }

  lemma ThreadIsLevel(s: Sys, k: nat)
    requires SysInv(s) && s.hist.saveFaults == 0 && k < |Threads(s)|
    ensures LevelWithDisk(s.mgr.files, Threads(s)[k])
  {
    if k < |s.retired| {
      assert ThreadOk(s.hist, s.mgr.files, s.retired[k]);
    } else {
      assert ThreadOk(s.hist, s.mgr.files, ActiveThread(s.mgr)[k - |s.retired|]);
    }
  }

  function ToSet(lines: seq<nat>): set<nat> {
    set x | x in lines
  }

  /** If no save has failed, the line commands of a job exceed its distinct lines by at most the number of restarts. */
  lemma OneRepeatPerCrash(evs: seq<Event>, id: string)
    requires EnabledAll(Init(), evs) && Play(Init(), evs).hist.saveFaults == 0
    requires SafeId(id) && Stored(Play(Init(), evs).mgr.files, id).Some?
    ensures var s := Play(Init(), evs);
      var lines := LinesOf(s.hist.wire, id);
      |lines| <= |ToSet(lines)| + s.hist.crashes
  {
    InitInv();
    PlayKeepsInv(Init(), evs);
    NoLineSkipped(evs, id);
    var s := Play(Init(), evs);
    var lines := LinesOf(s.hist.wire, id);
    assert RecordOk(s.hist, id, Stored(s.mgr.files, id).value);
    SetAtLeast(ToSet(lines), NextNo(lines));
  }

  lemma {:induction false} SetAtLeast(s: set<nat>, n: nat)
    requires forall k: nat :: k < n ==> k in s
    ensures |s| >= n
  {
    if n > 0 {
      SetAtLeast(s - {n - 1}, n - 1);
    }
  }

  /** A job stored as COMPLETED whose G-code has no empty line has had every line sent, with the stored text,
      and acknowledged, over however many restarts it took. */
  lemma StoredCompletionIsSound(evs: seq<Event>, id: string, n: nat) returns (k: nat)
    requires EnabledAll(Init(), evs) && SafeId(id) && Stored(Play(Init(), evs).mgr.files, id).Some?
    requires Stored(Play(Init(), evs).mgr.files, id).value.status.COMPLETED?
    requires NoEmptyLine(Stored(Play(Init(), evs).mgr.files, id).value.lines)
    requires n < |Stored(Play(Init(), evs).mgr.files, id).value.lines|
    ensures var s := Play(Init(), evs);
      && Ack(id, n) in s.hist.oks
      && k < |s.hist.wire| && s.hist.wire[k] == Sent(id, Line(n, Stored(s.mgr.files, id).value.lines[n]))
  {
    InitInv();
    PlayKeepsInv(Init(), evs);
    var s := Play(Init(), evs);
    NoLineSkipped(evs, id);
    assert RecordOk(s.hist, id, Stored(s.mgr.files, id).value);
    assert Sent(id, Line(n, Stored(s.mgr.files, id).value.lines[n])) in s.hist.wire;
    k :| 0 <= k < |s.hist.wire| && s.hist.wire[k] == Sent(id, Line(n, Stored(s.mgr.files, id).value.lines[n]));
  }

  // ---- What a restart takes up ----

  lemma ManagedAfterRound(r: Recovery, j: JobRec, fetch: JobRec -> Fetched, id: string)
    requires !r.raised && (r.mgr.active.None? ==> r.mgr.queue == [])
    ensures var r' := RecoverOne(r, j, fetch);
      && (id in ManagedIds(r'.mgr) <==> id in ManagedIds(r.mgr) || (Obtains(j, fetch) && j.id == id))
      && (r'.raised <==> RaisesOn(j, fetch)) && (r'.mgr.active.None? ==> r'.mgr.queue == [])
  {
    if Obtains(j, fetch) {
      var j' := WithLines(j, fetch);
      assert RecoverOne(r, j, fetch).mgr == Admit(r.mgr, j');
      assert ManagedIds(Admit(r.mgr, j')) == ManagedIds(r.mgr) + [j.id];
    }
  }

  ghost predicate SomeTakenUp(jobs: seq<JobRec>, fetch: JobRec -> Fetched, id: string) {
    exists k :: 0 <= k < |jobs| && jobs[k].id == id && TakenUp(jobs, k, fetch)
  }

  /** Taken up from a list: the first job, or, if that one does not end the recovery, from the rest. */
  lemma TakenUpFirst(jobs: seq<JobRec>, fetch: JobRec -> Fetched, id: string)
    requires jobs != []
    ensures SomeTakenUp(jobs, fetch, id)
            <==> (Obtains(jobs[0], fetch) && jobs[0].id == id)
                 || (!RaisesOn(jobs[0], fetch) && SomeTakenUp(jobs[1..], fetch, id))
  {
    var rest := jobs[1..];
    assert forall k :: 0 <= k < |rest| ==> rest[k] == jobs[k + 1];
    if !RaisesOn(jobs[0], fetch) && SomeTakenUp(rest, fetch, id) {
      var k :| 0 <= k < |rest| && rest[k].id == id && TakenUp(rest, k, fetch);
      assert forall i :: 1 <= i < k + 1 ==> jobs[i] == rest[i - 1];
      assert TakenUp(jobs, k + 1, fetch);
    }
    if Obtains(jobs[0], fetch) && jobs[0].id == id {
      assert TakenUp(jobs, 0, fetch);
    }
    if k :| 0 < k < |jobs| && jobs[k].id == id && TakenUp(jobs, k, fetch) {
      assert rest[k - 1].id == id && TakenUp(rest, k - 1, fetch);
    }
  }

  lemma {:induction false} ManagedAfterAll(r: Recovery, jobs: seq<JobRec>, fetch: JobRec -> Fetched, id: string)
    requires !r.raised && (r.mgr.active.None? ==> r.mgr.queue == [])
    ensures id in ManagedIds(RecoverEach(r, jobs, fetch).mgr)
            <==> id in ManagedIds(r.mgr) || SomeTakenUp(jobs, fetch, id)
    decreases |jobs|
  {
    if jobs != [] {
      ManagedAfterRound(r, jobs[0], fetch, id);
      TakenUpFirst(jobs, fetch, id);
      if !RaisesOn(jobs[0], fetch) {
        ManagedAfterAll(RecoverOne(r, jobs[0], fetch), jobs[1..], fetch, id);
      }
    }
  }

  lemma RestartLive(s: Sys, files: Files, names: seq<string>, fetch: JobRec -> Fetched)
    ensures LiveIds(Restart(s, files, names, fetch)) == ManagedIds(Restart(s, files, names, fetch).mgr)
  {
  }

  /** No job's failed fetch is followed by a failed save. */
  ghost predicate NoneRaises(jobs: seq<JobRec>, fetch: JobRec -> Fetched) {
    forall k :: 0 <= k < |jobs| ==> !RaisesOn(jobs[k], fetch)
  }

  /** After a restart a job is active or waiting if and only if its stored status was resumable, its G-code is stored or
      can be fetched, and no job before it in order of creation ended the recovery by an error. */
  lemma RestartTakesUpIff(s: Sys, files: Files, names: seq<string>, fetch: JobRec -> Fetched, id: string)
    requires SysInv(s) && SameJobs(s.mgr.files, files) && IsListing(files, names) && SafeId(id)
    ensures id in LiveIds(Restart(s, files, names, fetch)) <==> SomeTakenUp(Revived(files, names), fetch, id)
    ensures id in LiveIds(Restart(s, files, names, fetch)) ==>
              Stored(s.mgr.files, id).Some? && Stored(s.mgr.files, id).value.IsResumable()
    ensures NoneRaises(Revived(files, names), fetch) ==>
              (id in LiveIds(Restart(s, files, names, fetch))
               <==> Stored(s.mgr.files, id).Some? && Stored(s.mgr.files, id).value.IsResumable()
                    && Obtains(Stored(s.mgr.files, id).value, fetch))
  {
    var jobs := Revived(files, names);
    SameStoredKeepsWorld(s.hist, s.mgr.files, files);
    RevivedIsStored(files, names);
    RestartIs(s, files, names, fetch);
    RestartLive(s, files, names, fetch);
    ManagedAfterAll(Blank(files), jobs, fetch, id);
    TakenUpIsStored(files, jobs, fetch, id);
  }

  lemma TakenUpIsStored(files: Files, jobs: seq<JobRec>, fetch: JobRec -> Fetched, id: string)
    requires SafeId(id) && FilesOk(files)
    requires forall j :: j in jobs <==> SafeId(j.id) && Stored(files, j.id) == Some(j) && j.IsResumable()
    ensures SomeTakenUp(jobs, fetch, id) ==> Stored(files, id).Some? && Stored(files, id).value.IsResumable()
    ensures NoneRaises(jobs, fetch) ==>
              (SomeTakenUp(jobs, fetch, id)
               <==> Stored(files, id).Some? && Stored(files, id).value.IsResumable()
                    && Obtains(Stored(files, id).value, fetch))
  {
    if k :| 0 <= k < |jobs| && jobs[k].id == id && TakenUp(jobs, k, fetch) {
      assert jobs[k] in jobs;
    }
    if Stored(files, id).Some? && Stored(files, id).value.IsResumable() {
      var j := Stored(files, id).value;
      StoredHasItsId(files, id);
      assert j in jobs;
      var k :| 0 <= k < |jobs| && jobs[k] == j;
      if NoneRaises(jobs, fetch) && Obtains(j, fetch) {
        assert TakenUp(jobs, k, fetch);
      }
    }
  }

  lemma StoredHasItsId(files: Files, id: string)
    requires SafeId(id) && FilesOk(files) && Stored(files, id).Some?
    ensures Stored(files, id).value.id == id
  {
    NamesSeparate(id, id);
    NamesSeparate(id, Stored(files, id).value.id);
  }

  lemma TryStepKeeps(s: Sys)
    requires SysInv(s)
    ensures SysInv(TryStep(s))
  {
    if s.mgr.active.Some? {
      NextKeepsInv(s, ActiveStep(Ok, NoFault));
    }
  }

  lemma CancelThenStepKeeps(s: Sys, id: string)
    requires SysInv(s)
    ensures SysInv(TryStep(Next(s, AskCancel(id, NoFault))))
  {
    NextKeepsInv(s, AskCancel(id, NoFault));
    TryStepKeeps(Next(s, AskCancel(id, NoFault)));
  }

  lemma CancelThenStepIs(s: Sys)
    requires s.mgr.active.Some? && !Fires(s.mgr.active.value.pc)
    ensures var e := s.mgr.active.value;
      TryStep(Next(s, AskCancel(e.job.id, NoFault))).mgr.active == Some(Step(CancelReq(e, s.mgr.queue != []), Ok))
  {
    var e := s.mgr.active.value;
    ControlIs(s, e.job.id, "", NoFault);
    QuietStep(Next(s, AskCancel(e.job.id, NoFault)), CancelReq(e, s.mgr.queue != []));
  }

  /** The thread writes PAUSED over the cancel. */
  lemma PauseOverCancel(e: Exec, preserve: bool)
    requires e.pc == Pausing(MarkPause)
    ensures var e' := Step(CancelReq(e, preserve), Ok);
      && e'.pc == Pausing(PersistPause) && e'.job.status.PAUSED? && e'.flags.cancel
      && e'.job.id == e.job.id && e'.job.lines == e.job.lines
  {
  }

  /** And stores it, so that every restart from there takes the job up. */
  lemma StoredPauseComesBack(s: Sys, files: Files, names: seq<string>, fetch: JobRec -> Fetched)
    requires SysInv(s) && s.mgr.active.Some? && s.mgr.active.value.pc == Pausing(PersistPause)
    requires s.mgr.active.value.job.status.PAUSED? && s.mgr.active.value.job.lines != []
    requires SameJobs(TryStep(s).mgr.files, files) && IsListing(files, names)
    requires NoneRaises(Revived(files, names), fetch)
    ensures s.mgr.active.value.job.id in LiveIds(Restart(TryStep(s), files, names, fetch))
  {
    TryStepKeeps(s);
    PauseIsStored(s);
    RestartTakesUpIff(TryStep(s), files, names, fetch, s.mgr.active.value.job.id);
  }

  /** A cancel that falls inside a pause does not reach the next process: two steps of the thread later every restart
      takes the job up again, unless a failing save stops the recovery of another job before that. */
  lemma CancelInPauseComesBack(s: Sys, files: Files, names: seq<string>, fetch: JobRec -> Fetched)
    requires SysInv(s) && s.mgr.active.Some? && s.mgr.active.value.pc == Pausing(MarkPause)
    requires var t := TryStep(TryStep(Next(s, AskCancel(s.mgr.active.value.job.id, NoFault))));
      SameJobs(t.mgr.files, files) && IsListing(files, names)
    requires NoneRaises(Revived(files, names), fetch)
    ensures var id := s.mgr.active.value.job.id;
      id in LiveIds(Restart(TryStep(TryStep(Next(s, AskCancel(id, NoFault)))), files, names, fetch))
  {
    assert ThreadOk(s.hist, s.mgr.files, ActiveThread(s.mgr)[0]);
    PauseOverCancel(s.mgr.active.value, s.mgr.queue != []);
    CancelThenStepIs(s);
    CancelThenStepKeeps(s, s.mgr.active.value.job.id);
    StoredPauseComesBack(TryStep(Next(s, AskCancel(s.mgr.active.value.job.id, NoFault))), files, names, fetch);
  }

  lemma PauseIsStored(s: Sys)
    requires SysInv(s) && s.mgr.active.Some? && s.mgr.active.value.pc == Pausing(PersistPause)
    requires s.mgr.active.value.job.status.PAUSED?
    ensures var id := s.mgr.active.value.job.id;
      SafeId(id) && Stored(TryStep(s).mgr.files, id) == Some(s.mgr.active.value.job)
  {
    var e := s.mgr.active.value;
    assert ThreadOk(s.hist, s.mgr.files, ActiveThread(s.mgr)[0]);
    StoredAfterSave(s.mgr.files, e.job, NoFault, e.job.id);
  }

  // ---- The slot that is never freed ----

  /** The manager still holds a job whose thread has ended. */
  predicate SlotLost(s: Sys) {
    s.mgr.active.Some? && s.mgr.active.value.pc.Ended?
  }

  /** An own step of the active thread either calls back, which frees the slot, or stays in it. */
  lemma ActiveStays(s: Sys, reply: Reply, fault: Fault)
    requires s.mgr.active.Some?
    ensures Fires(s.mgr.active.value.pc) ==> !SlotLost(StepActive(s, reply, fault))
    ensures !Fires(s.mgr.active.value.pc) ==>
              && StepActive(s, reply, fault).mgr.active == Some(Step(s.mgr.active.value, reply))
              && StepActive(s, reply, fault).mgr.queue == s.mgr.queue
              && StepActive(s, reply, fault).retired == s.retired
  {
  }

  /** A control call neither moves the active thread nor starts one. */
  lemma AskStays(s: Sys, ev: Event)
    requires ev.AskPause? || ev.AskResume? || ev.AskCancel? || ev.AskFail?
    ensures Next(s, ev).retired == s.retired
    ensures Next(s, ev).mgr.active.Some? <==> s.mgr.active.Some?
    ensures s.mgr.active.Some? ==>
              && Next(s, ev).mgr.active.value.pc == s.mgr.active.value.pc
              && Next(s, ev).mgr.active.value.job.id == s.mgr.active.value.job.id
  {
  }

  /** A step of a thread already let go does not touch the manager's slot. */
  lemma RetiredStays(s: Sys, k: nat, reply: Reply, fault: Fault)
    requires SysInv(s) && k < |s.retired|
    ensures StepRetired(s, k, reply, fault).mgr.active == s.mgr.active
    ensures |StepRetired(s, k, reply, fault).retired| == |s.retired|
  {
    RetiredIsSilent(s.retired[k], reply);
  }

  lemma SubmitStays(s: Sys, j: JobRec, fault: Fault)
    requires Enabled(s, SubmitJob(j, fault))
    ensures s.mgr.active.Some? ==> Next(s, SubmitJob(j, fault)).mgr.active == s.mgr.active
    ensures s.mgr.active.None? ==> !SlotLost(Next(s, SubmitJob(j, fault)))
    ensures Next(s, SubmitJob(j, fault)).retired == s.retired
  {
  }

  lemma OwnStepLoses(s: Sys, reply: Reply, fault: Fault)
    requires SysInv(s) && s.mgr.active.Some? && !SlotLost(s)
    ensures SlotLost(StepActive(s, reply, fault)) <==> EndsSilently(s.mgr.active.value)
  {
    assert ThreadOk(s.hist, s.mgr.files, ActiveThread(s.mgr)[0]);
    SilentEndIff(s.mgr.active.value, reply);
    StepFires(s.mgr.active.value, reply);
    ActiveStays(s, reply, fault);
  }

  /** A thread that recovery starts is at its beginning. */
  lemma {:induction false} RecoveredThread(r: Recovery, jobs: seq<JobRec>, fetch: JobRec -> Fetched)
    requires r.mgr.active.Some? ==> r.mgr.active.value.pc == Starting(BeginFail)
    ensures var m := RecoverEach(r, jobs, fetch).mgr; m.active.Some? ==> m.active.value.pc == Starting(BeginFail)
    decreases |jobs|
  {
    if jobs != [] && !r.raised {
      RecoveredThread(RecoverOne(r, jobs[0], fetch), jobs[1..], fetch);
    }
  }

  lemma RestartHasThread(s: Sys, files: Files, names: seq<string>, fetch: JobRec -> Fetched)
    ensures !SlotLost(Restart(s, files, names, fetch))
  {
    RestartIs(s, files, names, fetch);
    RecoveredThread(Blank(files), Revived(files, names), fetch);
  }

  /** "Every run frees the printer for the next job" fails exactly when a run ends silently. */
  lemma SlotLostIff(s: Sys, ev: Event)
    requires SysInv(s) && Enabled(s, ev) && !SlotLost(s)
    ensures SlotLost(Next(s, ev)) <==> ev.ActiveStep? && EndsSilently(s.mgr.active.value)
  {
    match ev
    case ActiveStep(reply, fault) => OwnStepLoses(s, reply, fault);
    case RetiredStep(k, reply, fault) => RetiredStays(s, k, reply, fault);
    case Crash(files, names, fetch) => RestartHasThread(s, files, names, fetch);
    case SubmitJob(j, fault) => SubmitStays(s, j, fault);
    case _ => AskStays(s, ev);
  }

  lemma SlotStaysLost(s: Sys, ev: Event)
    requires SysInv(s) && Enabled(s, ev) && SlotLost(s) && !ev.Crash?
    ensures SlotLost(Next(s, ev)) && |Threads(Next(s, ev))| == |Threads(s)|
    ensures Next(s, ev).mgr.active.value.job.id == s.mgr.active.value.job.id
  {
    match ev
    case ActiveStep(reply, fault) => ActiveStays(s, reply, fault);
    case RetiredStep(k, reply, fault) => RetiredStays(s, k, reply, fault);
    case SubmitJob(j, fault) => SubmitStays(s, j, fault);
    case _ => AskStays(s, ev);
  }

  ghost predicate NoCrash(evs: seq<Event>) {
    forall k :: 0 <= k < |evs| ==> !evs[k].Crash?
  }

  /** Once lost, the slot stays lost whatever happens: no thread is ever started again until a restart. */
  lemma {:induction false} SlotLostForGood(s: Sys, evs: seq<Event>)
    requires SysInv(s) && EnabledAll(s, evs) && SlotLost(s) && NoCrash(evs)
    ensures SlotLost(Play(s, evs)) && |Threads(Play(s, evs))| == |Threads(s)|
    decreases |evs|
  {
    if evs != [] {
      SlotStaysLost(s, evs[0]);
      NextKeepsInv(s, evs[0]);
      SlotLostForGood(Next(s, evs[0]), evs[1..]);
    }
  }

  /** And it does get lost: cancelling the active job while its last line is in flight, with the line then
      succeeding, leaves the slot taken in front of whatever is waiting. */
  lemma CancelInLastLineLosesSlot(s: Sys, fault: Fault)
    requires SysInv(s) && s.mgr.active.Some? && !s.mgr.active.value.flags.fail
    requires s.mgr.active.value.pc == Printing(LineWait)
    requires s.mgr.active.value.job.index + 1 == s.mgr.active.value.job.total
    ensures var s1 := Next(s, AskCancel(s.mgr.active.value.job.id, fault));
      var s2 := FiveSteps(s1);
      SlotLost(s2) && s2.mgr.queue == s.mgr.queue && s2.retired == s.retired
  {
    var e := s.mgr.active.value;
    var s1 := Next(s, AskCancel(e.job.id, fault));
    var e1 := CancelReq(e, s.mgr.queue != []);
    assert ThreadOk(s.hist, s.mgr.files, ActiveThread(s.mgr)[0]);
    ControlIs(s, e.job.id, "", fault);
    LastLineQuiet(e, s.mgr.queue != []);
    QuietSteps(s1, e1);
  }

  lemma QuietStep(s: Sys, e: Exec)
    requires s.mgr.active == Some(e) && !Fires(e.pc)
    ensures TryStep(s).mgr.active == Some(Step(e, Ok))
    ensures TryStep(s).mgr.queue == s.mgr.queue && TryStep(s).retired == s.retired
  {
    ActiveStays(s, Ok, NoFault);
  }

  lemma QuietSteps(s: Sys, e1: Exec)
    requires s.mgr.active == Some(e1) && !Fires(e1.pc) && !Fires(Step(e1, Ok).pc) && !Fires(Step(Step(e1, Ok), Ok).pc)
    requires !Fires(Step(Step(Step(e1, Ok), Ok), Ok).pc) && !Fires(Step(Step(Step(Step(e1, Ok), Ok), Ok), Ok).pc)
    ensures FiveSteps(s).mgr.active == Some(Step(Step(Step(Step(Step(e1, Ok), Ok), Ok), Ok), Ok))
    ensures FiveSteps(s).mgr.queue == s.mgr.queue && FiveSteps(s).retired == s.retired
  {
    var e2 := Step(e1, Ok);
    var e3 := Step(e2, Ok);
    var e4 := Step(e3, Ok);
    var e5 := Step(e4, Ok);
    var t1 := TryStep(s);
    var t2 := TryStep(t1);
    var t3 := TryStep(t2);
    var t4 := TryStep(t3);
    QuietStep(s, e1);
    QuietStep(t1, e2);
    QuietStep(t2, e3);
    QuietStep(t3, e4);
    QuietStep(t4, e5);
  }

  lemma LastLinePoints(e: Exec, preserve: bool)
    requires ExecInv(e) && e.pc == Printing(LineWait) && e.job.index + 1 == e.job.total && !e.flags.fail
    ensures var e1 := CancelReq(e, preserve);
      var e2 := Step(e1, Ok);
      var e3 := Step(e2, Ok);
      var e4 := Step(e3, Ok);
      var e5 := Step(e4, Ok);
      e1.pc == Printing(LineWait) && e2.pc == Printing(Advance) && e3.pc == Printing(PersistLine)
      && e4.pc == Testing(Loop) && e5.pc == Completing(Decide) && Step(e5, Ok).pc == Ended
  {
  }

  lemma LastLineQuiet(e: Exec, preserve: bool)
    requires ExecInv(e) && e.pc == Printing(LineWait) && e.job.index + 1 == e.job.total && !e.flags.fail
    ensures var e1 := CancelReq(e, preserve);
      var e2 := Step(e1, Ok);
      var e3 := Step(e2, Ok);
      var e4 := Step(e3, Ok);
      var e5 := Step(e4, Ok);
      !Fires(e1.pc) && !Fires(e2.pc) && !Fires(e3.pc) && !Fires(e4.pc) && !Fires(e5.pc) && Step(e5, Ok).pc == Ended
  {
    LastLinePoints(e, preserve);
  }

  /** Five own steps of the active thread with successful replies and saves. */
  function FiveSteps(s: Sys): Sys {
    TryStep(TryStep(TryStep(TryStep(TryStep(s)))))
  }

  function TryStep(s: Sys): Sys {
    if s.mgr.active.Some? then StepActive(s, Ok, NoFault) else s
  }

  // ---- Such a run, from any idle system ----

  lemma {:induction false} OneMoreEvent(s: Sys, evs: seq<Event>, ev: Event)
    requires EnabledAll(s, evs) && Enabled(Play(s, evs), ev)
    ensures EnabledAll(s, evs + [ev]) && Play(s, evs + [ev]) == Next(Play(s, evs), ev)
    decreases |evs|
  {
    if evs == [] {
      assert evs + [ev] == [ev];
      PlayFirst(s, ev, [ev]);
    } else {
      var t, rest := Next(s, evs[0]), evs[1..];
      OneMoreEvent(t, rest, ev);
      RestOfMore(evs, ev);
      PlayLonger(s, evs + [ev], rest + [ev]);
    }
  }

  lemma RestOfMore<T>(s: seq<T>, x: T)
    requires s != []
    ensures (s + [x])[0] == s[0] && (s + [x])[1..] == s[1..] + [x]
  {
  }

  lemma PlayLonger(s: Sys, evs: seq<Event>, rest: seq<Event>)
    requires evs != [] && evs[1..] == rest && Enabled(s, evs[0]) && EnabledAll(Next(s, evs[0]), rest)
    ensures EnabledAll(s, evs) && Play(s, evs) == Play(Next(s, evs[0]), rest)
  {
  }

  /** The run ends with this thread active and nobody waiting. */
  ghost predicate Reaches(s: Sys, evs: seq<Event>, e: Exec) {
    EnabledAll(s, evs) && NoCrash(evs) && Play(s, evs).mgr.active == Some(e) && Play(s, evs).mgr.queue == []
  }

  lemma StepOn(s: Sys, evs: seq<Event>, e: Exec) returns (longer: seq<Event>)
    requires Reaches(s, evs, e) && !Fires(e.pc)
    ensures Reaches(s, longer, Step(e, Ok))
  {
    longer := evs + [ActiveStep(Ok, NoFault)];
    OneMoreEvent(s, evs, ActiveStep(Ok, NoFault));
    ActiveStays(Play(s, evs), Ok, NoFault);
  }

  lemma CancelOn(s: Sys, evs: seq<Event>, e: Exec) returns (longer: seq<Event>)
    requires Reaches(s, evs, e)
    ensures Reaches(s, longer, CancelReq(e, false))
  {
    var ev := AskCancel(e.job.id, NoFault);
    longer := evs + [ev];
    OneMoreEvent(s, evs, ev);
    ControlIs(Play(s, evs), e.job.id, "", NoFault);
  }

  lemma SubmitToIdle(s: Sys, j: JobRec)
    requires Enabled(s, SubmitJob(j, NoFault)) && s.mgr.active.None? && s.mgr.queue == []
    ensures Next(s, SubmitJob(j, NoFault)).mgr.active == Some(NewExec(j))
    ensures Next(s, SubmitJob(j, NoFault)).mgr.queue == []
  {
  }

  lemma PlayFirst(s: Sys, ev: Event, evs: seq<Event>)
    requires Enabled(s, ev) && evs == [ev]
    ensures EnabledAll(s, evs) && Play(s, evs) == Next(s, ev)
  {
    assert evs[1..] == [];
    assert EnabledAll(Next(s, ev), evs[1..]);
  }

  lemma FirstSubmit(s: Sys, j: JobRec) returns (evs: seq<Event>)
    requires Enabled(s, SubmitJob(j, NoFault)) && s.mgr.active.None? && s.mgr.queue == []
    ensures Reaches(s, evs, NewExec(j))
  {
    evs := [SubmitJob(j, NoFault)];
    SubmitToIdle(s, j);
    PlayFirst(s, SubmitJob(j, NoFault), evs);
  }

  lemma ReachesInv(s: Sys, evs: seq<Event>, e: Exec)
    requires SysInv(s) && Reaches(s, evs, e)
    ensures ExecInv(e) && SysInv(Play(s, evs))
  {
    PlayKeepsInv(s, evs);
    var t := Play(s, evs);
    assert ThreadOk(t.hist, t.mgr.files, ActiveThread(t.mgr)[0]);
  }

  predicate NoFlag(e: Exec) { !e.flags.fail && !e.flags.cancel && !e.flags.pause }

  lemma StartPoints(e: Exec)
    requires e.pc == Starting(BeginFail) && NoFlag(e) && e.job.status.QUEUED?
    ensures var e1 := Step(e, Ok);
      var e2 := Step(e1, Ok);
      var e3 := Step(e2, Ok);
      var e4 := Step(e3, Ok);
      && !Fires(e.pc) && !Fires(e1.pc) && !Fires(e2.pc) && !Fires(e3.pc)
      && e4 == e.(job := e.job.MarkPrinting(), pc := Testing(Loop))
  {
  }

  lemma StartedThread(s: Sys, before: seq<Event>, e: Exec) returns (evs: seq<Event>)
    requires Reaches(s, before, e) && e.pc == Starting(BeginFail) && NoFlag(e) && e.job.status.QUEUED?
    ensures Reaches(s, evs, e.(job := e.job.MarkPrinting(), pc := Testing(Loop)))
  {
    StartPoints(e);
    var e1 := Step(e, Ok);
    var e2 := Step(e1, Ok);
    evs := StepOn(s, before, e);
    evs := StepOn(s, evs, e1);
    evs := StepOn(s, evs, e2);
    evs := StepOn(s, evs, Step(e2, Ok));
  }

  lemma FetchPoints(e: Exec)
    requires e.pc == Testing(Loop) && NoFlag(e) && e.job.Next().NextText? && e.job.Next().text != ""
    ensures var e1 := Step(e, Ok);
      var e2 := Step(e1, Ok);
      var e3 := Step(e2, Ok);
      var e4 := Step(e3, Ok);
      && !Fires(e.pc) && !Fires(e1.pc) && !Fires(e2.pc) && !Fires(e3.pc) && !Fires(e4.pc)
      && Step(e4, Ok) == Send(e, Line(e.job.index, e.job.Next().text), Printing(LineWait))
  {
  }

  lemma FetchedLine(s: Sys, before: seq<Event>, e: Exec) returns (evs: seq<Event>)
    requires Reaches(s, before, e) && e.pc == Testing(Loop) && NoFlag(e)
    requires e.job.Next().NextText? && e.job.Next().text != ""
    ensures Reaches(s, evs, Send(e, Line(e.job.index, e.job.Next().text), Printing(LineWait)))
  {
    FetchPoints(e);
    var e1 := Step(e, Ok);
    var e2 := Step(e1, Ok);
    var e3 := Step(e2, Ok);
    evs := StepOn(s, before, e);
    evs := StepOn(s, evs, e1);
    evs := StepOn(s, evs, e2);
    evs := StepOn(s, evs, e3);
    evs := StepOn(s, evs, Step(e3, Ok));
  }

  /** A one-line job up to the moment its line is in flight. */
  lemma LineInFlight(s: Sys, j: JobRec) returns (evs: seq<Event>, e: Exec)
    requires SysInv(s) && s.mgr.active.None? && Enabled(s, SubmitJob(j, NoFault))
    requires |j.lines| == 1 && j.lines[0] != ""
    ensures Reaches(s, evs, e) && e.pc == Printing(LineWait) && e.job.index == 0 && e.job.total == 1
    ensures ExecInv(e) && !e.flags.fail
  {
    evs := FirstSubmit(s, j);
    evs := StartedThread(s, evs, NewExec(j));
    e := NewExec(j).(job := j.MarkPrinting(), pc := Testing(Loop));
    evs := FetchedLine(s, evs, e);
    e := Send(e, Line(0, j.lines[0]), Printing(LineWait));
    ReachesInv(s, evs, e);
  }

  /** From every idle system: submitting a one-line job, cancelling it while its line is in flight and letting the line
      succeed loses the slot, and by SlotLostForGood nothing submitted afterwards is started before a restart. */
  lemma LostSlotIsReachable(s: Sys, j: JobRec) returns (evs: seq<Event>)
    requires SysInv(s) && s.mgr.active.None? && Enabled(s, SubmitJob(j, NoFault))
    requires |j.lines| == 1 && j.lines[0] != ""
    ensures EnabledAll(s, evs) && NoCrash(evs) && SlotLost(Play(s, evs)) && SysInv(Play(s, evs))
  {
    var e: Exec;
    evs, e := LineInFlight(s, j);
    evs := CancelOn(s, evs, e);
    LastLineQuiet(e, false);
    var e1 := CancelReq(e, false);
    var e2 := Step(e1, Ok);
    var e3 := Step(e2, Ok);
    var e4 := Step(e3, Ok);
    var e5 := Step(e4, Ok);
    evs := StepOn(s, evs, e1);
    evs := StepOn(s, evs, e2);
    evs := StepOn(s, evs, e3);
    evs := StepOn(s, evs, e4);
    evs := StepOn(s, evs, e5);
    ReachesInv(s, evs, Step(e5, Ok));
  }
}
