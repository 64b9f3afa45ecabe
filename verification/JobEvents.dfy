/** Every event of the print-job layer keeps its invariant. */
module JobEvents {
  import opened Basics
  import opened JobModel
  import opened JobStore
  import opened Executor
  import opened ExecutorProofs
  import opened ManagerSteps
  import opened JobSystem
  import opened JobWorld
  import opened JobInvariant

  /** Stored jobs stay stored. */
  ghost predicate StillStored(files: Files, files': Files) {
    forall id :: SafeId(id) && Stored(files, id).Some? ==> Stored(files', id).Some?
  }

  // ---- Replacing one thread by its next state ----

  /** The step turns thread e of the given state into e', adding `extra` to the wire. */
  ghost predicate ThreadMoves(h: History, files: Files, e: Exec, h': History, files': Files, e': Exec,
      extra: seq<Sent>) {
    && e'.job.id == e.job.id
    && Concerns(h, files, h', files', e.job.id) && StillStored(files, files')
    && World(h', files') && ThreadOk(h', files', e')
    && h'.wire == h.wire + extra && Block(e') == Block(e) + extra
  }

  lemma OwnStepMoves(h: History, files: Files, e: Exec, reply: Reply, fault: Fault) returns (extra: seq<Sent>)
    requires World(h, files) && ThreadOk(h, files, e)
    ensures ThreadMoves(h, files, e, Record(h, e, reply, fault), FilesAfter(files, e, fault), Step(e, reply), extra)
    ensures Emits(e).None? ==> extra == []
  {
    OwnStepKeeps(h, files, e, reply, fault);
    OwnStepConcerns(h, files, e, reply, fault);
    SaveConcerns(h, files, e.job, fault);
    StepKeepsInv(e, reply);
    if Emits(e).Some? {
      extra := [Sent(e.job.id, Emits(e).value)];
      BlockGrows(e, Step(e, reply), Emits(e).value);
    } else {
      extra := [];
      assert Block(Step(e, reply)) == Block(e) + [];
    }
  }

  /** The state after thread e of the manager has become e'. */
  function Swapped(s: Sys, h': History, files': Files, e': Exec): Sys {
    s.(mgr := s.mgr.(active := Some(e'), files := files'), hist := h')
  }

  lemma SwapActive(s: Sys, h': History, files': Files, e': Exec, extra: seq<Sent>)
    requires Jobs(s) && Sched(s) && WireBlocks(s) && s.mgr.active.Some?
    requires ThreadMoves(s.hist, s.mgr.files, s.mgr.active.value, h', files', e', extra)
    ensures Jobs(Swapped(s, h', files', e')) && Sched(Swapped(s, h', files', e'))
              && WireBlocks(Swapped(s, h', files', e'))
  {
    SwapJobs(s, h', files', e', extra);
    SwapSched(s, h', files', e');
    SwapWire(s, h', files', e', extra);
  }

  lemma SwapJobs(s: Sys, h': History, files': Files, e': Exec, extra: seq<Sent>)
    requires Jobs(s) && Sched(s) && s.mgr.active.Some?
    requires ThreadMoves(s.hist, s.mgr.files, s.mgr.active.value, h', files', e', extra)
    ensures Jobs(Swapped(s, h', files', e'))
  {
    var x := s.mgr.active.value.job.id;
    ActiveApart(s);
    OtherThreads(s.hist, s.mgr.files, h', files', x, s.retired);
    OtherQueue(s.hist, s.mgr.files, h', files', x, s.mgr.queue);
  }

  lemma SwapSched(s: Sys, h': History, files': Files, e': Exec)
    requires Sched(s) && s.mgr.active.Some?
    requires e'.job.id == s.mgr.active.value.job.id && StillStored(s.mgr.files, files')
    ensures Sched(Swapped(s, h', files', e'))
  {
    assert LiveIds(Swapped(s, h', files', e')) == LiveIds(s);
  }

  lemma TailGrows<T>(wire: seq<T>, extra: seq<T>, from: nat)
    requires from <= |wire|
    ensures (wire + extra)[from..] == wire[from..] + extra
  {
  }

  lemma SwapWire(s: Sys, h': History, files': Files, e': Exec, extra: seq<Sent>)
    requires WireBlocks(s) && s.mgr.active.Some?
    requires h'.wire == s.hist.wire + extra && Block(e') == Block(s.mgr.active.value) + extra
    ensures WireBlocks(Swapped(s, h', files', e'))
  {
    BlocksAppend(s.retired, s.mgr.active.value);
    BlocksAppend(s.retired, e');
    TailGrows(s.hist.wire, extra, s.since.epoch);
    Reassociate(Blocks(s.retired), Block(s.mgr.active.value), extra);
  }

  /** The callback: the active thread is let go and the head of the queue gets a fresh one. */
  lemma FinishKeeps(s: Sys)
    requires Jobs(s) && Sched(s) && WireBlocks(s) && s.mgr.active.Some?
    requires s.mgr.active.value.log.fired == 1 && forall k :: 0 <= k < |s.retired| ==> s.retired[k].log.fired == 1
    ensures SysInv(Finish(s))
  {
    var s' := Finish(s);
    ThreadsJoin(s);
    if s.mgr.queue == [] {
      assert Threads(s') == Threads(s);
    } else {
      assert QueuedOk(s.hist, s.mgr.files, s.mgr.queue[0]);
      NewThreadOk(s.hist, s.mgr.files, s.mgr.queue[0]);
      FinishSched(s);
      FinishWire(s);
    }
  }

  lemma ThreadsJoin(s: Sys)
    requires Jobs(s) && s.mgr.active.Some?
    ensures Finish(s).retired == Threads(s) && ThreadsOk(s.hist, s.mgr.files, Threads(s))
  {
  }

  lemma FinishSched(s: Sys)
    requires Sched(s) && s.mgr.active.Some? && s.mgr.queue != []
    ensures Sched(Finish(s))
  {
    FinishLive(s);
  }

  /** Starting the next job moves its id from the waiting to the started, in place. */
  lemma FinishLive(s: Sys)
    requires s.mgr.active.Some? && s.mgr.queue != []
    ensures LiveIds(Finish(s)) == LiveIds(s)
  {
    var s' := Finish(s);
    var ids, q := ThreadIds(Threads(s)), JobIds(s.mgr.queue);
    assert q[1..] == JobIds(s'.mgr.queue);
    assert ThreadIds(Threads(s')) == ids + [q[0]];
    HeadOver(ids, q);
  }

  lemma FinishWire(s: Sys)
    requires WireBlocks(s) && s.mgr.active.Some? && s.mgr.queue != []
    ensures WireBlocks(Finish(s))
  {
    var e := NewExec(s.mgr.queue[0]);
    assert Threads(Finish(s)) == Threads(s) + [e];
    BlocksAppend(Threads(s), e);
    assert Block(e) == [];
  }

  lemma NewThreadOk(h: History, files: Files, j: JobRec)
    requires QueuedOk(h, files, j)
    ensures ThreadOk(h, files, NewExec(j))
  {
    NewExecInv(j);
  }

  lemma StepFires(e: Exec, reply: Reply)
    ensures Step(e, reply).log.fired == e.log.fired + (if Fires(e.pc) then 1 else 0)
  {
  }

  lemma ActiveStepKeeps(s: Sys, reply: Reply, fault: Fault)
    requires SysInv(s) && s.mgr.active.Some?
    ensures SysInv(StepActive(s, reply, fault))
  {
    var e := s.mgr.active.value;
    var h', files', e' := Record(s.hist, e, reply, fault), FilesAfter(s.mgr.files, e, fault), Step(e, reply);
    var extra := OwnStepMoves(s.hist, s.mgr.files, e, reply, fault);
    SwapActive(s, h', files', e', extra);
    StepFires(e, reply);
    if Fires(e.pc) {
      FinishKeeps(s.(mgr := s.mgr.(active := Some(e'), files := files'), hist := h'));
    }
  }

  /** A thread that has called back sends, acknowledges and calls back nothing more. */
  lemma RetiredIsSilent(e: Exec, reply: Reply)
    requires ExecInv(e) && e.log.fired == 1
    ensures e.pc == Completing(PersistDone) || e.pc.Ended?
    ensures Emits(e).None? && !Fires(e.pc) && Step(e, reply).log == e.log
  {
  }

  /** The state after retired thread k has become e'. */
  function SwappedRetired(s: Sys, k: nat, h': History, files': Files, e': Exec): Sys
    requires k < |s.retired|
  {
    s.(retired := s.retired[k := e'], mgr := s.mgr.(files := files'), hist := h')
  }

  lemma RetiredStepKeeps(s: Sys, k: nat, reply: Reply, fault: Fault)
    requires SysInv(s) && k < |s.retired|
    ensures SysInv(StepRetired(s, k, reply, fault))
  {
    var h, files, e := s.hist, s.mgr.files, s.retired[k];
    var h', files', e' := Record(h, e, reply, fault), FilesAfter(files, e, fault), Step(e, reply);
    RetiredIsSilent(e, reply);
    var extra := OwnStepMoves(h, files, e, reply, fault);
    SwapRetiredJobs(s, k, h', files', e');
    SwapRetiredSched(s, k, h', files', e');
    SwapRetiredWire(s, k, h', files', e');
    RetiredStepIs(s, k, reply, fault);
    RetiredStaysFired(s, k, h', files', e');
  }

  lemma RetiredStepIs(s: Sys, k: nat, reply: Reply, fault: Fault)
    requires k < |s.retired| && !Fires(s.retired[k].pc)
    ensures StepRetired(s, k, reply, fault)
         == SwappedRetired(s, k, Record(s.hist, s.retired[k], reply, fault), FilesAfter(s.mgr.files, s.retired[k],
             fault),
                           Step(s.retired[k], reply))
  {
  }

  lemma RetiredStaysFired(s: Sys, k: nat, h': History, files': Files, e': Exec)
    requires Fired(s) && k < |s.retired| && e'.log.fired == 1
    ensures Fired(SwappedRetired(s, k, h', files', e'))
  {
  }

  lemma SwapRetiredJobs(s: Sys, k: nat, h': History, files': Files, e': Exec)
    requires Jobs(s) && Sched(s) && k < |s.retired|
    requires ThreadMoves(s.hist, s.mgr.files, s.retired[k], h', files', e', [])
    ensures Jobs(SwappedRetired(s, k, h', files', e'))
  {
    var h, files, x := s.hist, s.mgr.files, s.retired[k].job.id;
    RetiredApart(s, k);
    OtherThreads(h, files, h', files', x, s.retired[..k]);
    OtherThreads(h, files, h', files', x, s.retired[k + 1..]);
    OtherThreads(h, files, h', files', x, ActiveThread(s.mgr));
    OtherQueue(h, files, h', files', x, s.mgr.queue);
    var retired := s.retired[k := e'];
    forall i | 0 <= i < |retired|
      ensures ThreadOk(h', files', retired[i])
    {
      if i < k {
        assert retired[i] == s.retired[..k][i];
      } else if i > k {
        assert retired[i] == s.retired[k + 1..][i - k - 1];
      }
    }
  }

  lemma SwapRetiredSched(s: Sys, k: nat, h': History, files': Files, e': Exec)
    requires Sched(s) && k < |s.retired|
    requires e'.job.id == s.retired[k].job.id && StillStored(s.mgr.files, files')
    ensures Sched(SwappedRetired(s, k, h', files', e'))
  {
    assert LiveIds(SwappedRetired(s, k, h', files', e')) == LiveIds(s);
  }

  lemma SwapRetiredWire(s: Sys, k: nat, h': History, files': Files, e': Exec)
    requires WireBlocks(s) && k < |s.retired|
    requires h'.wire == s.hist.wire && Block(e') == Block(s.retired[k])
    ensures WireBlocks(SwappedRetired(s, k, h', files', e'))
  {
    assert Threads(SwappedRetired(s, k, h', files', e')) == Threads(s)[k := e'];
    BlocksUpdate(Threads(s), k, e');
  }

  // ---- Control calls on the active job ----

  lemma ControlMoves(h: History, files: Files, e: Exec, a: Act, saves: bool, fault: Fault)
    requires World(h, files) && ThreadOk(h, files, e) && !a.Own? && (!saves ==> Apply(e, a).job == e.job)
    ensures ThreadMoves(h, files, e, CountFault(h, saves, fault),
                        if saves then SaveFiles(files, Apply(e, a).job, fault) else files, Apply(e, a), [])
    ensures Apply(e, a).log.fired == e.log.fired
  {
    var e' := Apply(e, a);
    ApplyKeepsInv(e, a);
    ControlEffect(e, a, PhaseOf(e.log.sent), |LineNos(e.log.sent)|);
    ControlKeepsThread(h, files, e, e');
    assert Block(e') == Block(e) + [];
    if saves {
      SaveKeepsThread(h, files, e', fault);
      SaveConcerns(h, files, e'.job, fault);
    }
  }

  lemma ControlKeepsThread(h: History, files: Files, e: Exec, e': Exec)
    requires ThreadOk(h, files, e) && ExecInv(e')
    requires e'.log == e.log && e'.pc == e.pc && e'.job.(status := e.job.status) == e.job
    ensures ThreadRuns(h, files, e') && (e'.job == e.job ==> ThreadOk(h, files, e'))
  {
  }

  /** The state after a control call on the active job. */
  function Controlled(s: Sys, a: Act, saves: bool, fault: Fault): Sys
    requires s.mgr.active.Some?
  {
    s.(mgr := SaveActive(s.mgr, Apply(s.mgr.active.value, a), saves, fault), hist := CountFault(s.hist, saves, fault))
  }

  lemma ControlKeeps(s: Sys, a: Act, saves: bool, fault: Fault)
    requires SysInv(s) && s.mgr.active.Some? && !a.Own?
    requires !saves ==> Apply(s.mgr.active.value, a).job == s.mgr.active.value.job
    ensures SysInv(Controlled(s, a, saves, fault))
  {
    var e := s.mgr.active.value;
    ControlMoves(s.hist, s.mgr.files, e, a, saves, fault);
    SwapActive(s, CountFault(s.hist, saves, fault),
               if saves then SaveFiles(s.mgr.files, Apply(e, a).job, fault) else s.mgr.files, Apply(e, a), []);
  }

  lemma ControlIs(s: Sys, id: string, reason: string, fault: Fault)
    requires IsActive(s.mgr, id)
    ensures var e := s.mgr.active.value;
      && Next(s, AskPause(id, fault)) == Controlled(s, ReqPause, PauseSaves(e), fault)
      && Next(s, AskResume(id, fault)) == Controlled(s, ReqResume, ResumeSaves(e), fault)
      && Next(s, AskCancel(id, fault)) == Controlled(s, ReqCancel(s.mgr.queue != []), CancelSaves(e), fault)
      && Next(s, AskFail(id, reason)) == Controlled(s, ReqFail(reason), false, NoFault)
  {
  }

  // ---- Submitting ----

  /** A job the disk does not know has never had a line on the wire. */
  lemma {:induction false} UnknownJobHasNoLines(files: Files, wire: seq<Sent>, id: string)
    requires forall k :: 0 <= k < |wire| ==> WireLineOk(files, wire[k])
    requires Stored(files, id).None?
    ensures LinesOf(wire, id) == []
  {
    if wire != [] {
      UnknownJobHasNoLines(files, Front(wire), id);
      assert WireLineOk(files, wire[|wire| - 1]);
    }
  }

  lemma NewJobKeepsWorld(h: History, files: Files, j: JobRec)
    requires World(h, files) && SafeId(j.id) && Stored(files, j.id).None? && Fresh(j) && j.index == 0
    ensures World(CountFault(h, true, NoFault), SaveFiles(files, j, NoFault))
    ensures Covered(h, j) && LinesOf(h.wire, j.id) == []
  {
    var files' := SaveFiles(files, j, NoFault);
    UnknownJobHasNoLines(files, h.wire, j.id);
    SaveKeepsFilesOk(files, j, NoFault);
    forall id | SafeId(id)
      ensures Stored(files', id) == if id == j.id then Some(j) else Stored(files, id)
    {
      StoredAfterSave(files, j, NoFault, id);
    }
    forall k | 0 <= k < |h.wire|
      ensures WireLineOk(files', h.wire[k])
    {
      assert WireLineOk(files, h.wire[k]);
    }
    assert StoredOk(CountFault(h, true, NoFault), files');
  }

  /** A faulty save of any job changes no job file. */
  lemma FaultySaveKeepsWorld(h: History, files: Files, j: JobRec, fault: Fault)
    requires World(h, files) && SafeId(j.id) && !fault.NoFault?
    ensures World(CountFault(h, true, fault), SaveFiles(files, j, fault))
    ensures forall id :: SafeId(id) ==> Stored(SaveFiles(files, j, fault), id) == Stored(files, id)
  {
    var files', h' := SaveFiles(files, j, fault), CountFault(h, true, fault);
    SaveKeepsFilesOk(files, j, fault);
    forall id | SafeId(id)
      ensures Stored(files', id) == Stored(files, id)
    {
      StoredAfterSave(files, j, fault, id);
    }
    forall k | 0 <= k < |h.wire|
      ensures WireLineOk(files', h.wire[k])
    {
      assert WireLineOk(files, h.wire[k]);
    }
    assert StoredOk(h', files');
  }

  /** Live jobs are stored, so a new id is nobody's. */
  lemma NewIdApart(s: Sys, id: string)
    requires Jobs(s) && Stored(s.mgr.files, id).None?
    ensures ThreadsApart(s.retired, id) && ThreadsApart(ActiveThread(s.mgr), id) && QueueApart(s.mgr.queue, id)
  {
    forall k | 0 <= k < |s.retired|
      ensures s.retired[k].job.id != id
    {
      assert ThreadOk(s.hist, s.mgr.files, s.retired[k]);
    }
    forall k | 0 <= k < |ActiveThread(s.mgr)|
      ensures ActiveThread(s.mgr)[k].job.id != id
    {
      assert ThreadOk(s.hist, s.mgr.files, ActiveThread(s.mgr)[k]);
    }
    forall k | 0 <= k < |s.mgr.queue|
      ensures s.mgr.queue[k].id != id
    {
      assert QueuedOk(s.hist, s.mgr.files, s.mgr.queue[k]);
    }
  }

  lemma SaveKeepsLive(s: Sys, h': History, files': Files, id: string)
    requires Jobs(s) && Concerns(s.hist, s.mgr.files, h', files', id)
    requires ThreadsApart(s.retired, id) && ThreadsApart(ActiveThread(s.mgr), id) && QueueApart(s.mgr.queue, id)
    ensures ThreadsOk(h', files', s.retired) && ThreadsOk(h', files', ActiveThread(s.mgr))
              && QueueOk(h', files', s.mgr.queue)
  {
    OtherThreads(s.hist, s.mgr.files, h', files', id, s.retired);
    OtherThreads(s.hist, s.mgr.files, h', files', id, ActiveThread(s.mgr));
    OtherQueue(s.hist, s.mgr.files, h', files', id, s.mgr.queue);
  }

  /** Saving a record under an id that is nobody's changes nothing for those who are there. */
  lemma SaveApartKeeps(s: Sys, j: JobRec, fault: Fault)
    requires SysInv(s) && SafeId(j.id)
    requires World(CountFault(s.hist, true, fault), SaveFiles(s.mgr.files, j, fault))
    requires ThreadsApart(s.retired, j.id) && ThreadsApart(ActiveThread(s.mgr), j.id) && QueueApart(s.mgr.queue, j.id)
    ensures SysInv(Saved(s, j, fault))
  {
    var s' := Saved(s, j, fault);
    SaveConcerns(s.hist, s.mgr.files, j, fault);
    SaveKeepsLive(s, s'.hist, s'.mgr.files, j.id);
    assert Threads(s') == Threads(s);
  }

  function Saved(s: Sys, j: JobRec, fault: Fault): Sys {
    s.(mgr := s.mgr.(files := SaveFiles(s.mgr.files, j, fault)), hist := CountFault(s.hist, true, fault))
  }

  /** Admitting a job that may be queued and is new to this process keeps the invariant. */
  lemma AdmitKeeps(s: Sys, j: JobRec)
    requires SysInv(s) && QueuedOk(s.hist, s.mgr.files, j) && j.id !in s.since.accepted && j.id !in s.since.dropped
    ensures SysInv(Admitted(s, j))
  {
    AdmitJobs(s, j);
    AdmitWire(s, j);
    AdmitSched(s, j);
  }

  lemma AdmitSched(s: Sys, j: JobRec)
    requires Sched(s) && SafeId(j.id) && Stored(s.mgr.files, j.id).Some?
    requires j.id !in s.since.accepted && j.id !in s.since.dropped
    ensures Sched(Admitted(s, j))
  {
    AdmitLive(s, j);
    MinusGrows(s.since.accepted, s.since.dropped, j.id);
    DistinctGrows(s.since.accepted, j.id);
    AppendedAt(s.since.accepted, j.id);
    assert Registered(s.since.(accepted := s.since.accepted + [j.id]), s.mgr.files);
  }

  function Admitted(s: Sys, j: JobRec): Sys {
    s.(mgr := ManagerSteps.Admit(s.mgr, j), since := s.since.(accepted := s.since.accepted + [j.id]))
  }

  lemma AdmitJobs(s: Sys, j: JobRec)
    requires Jobs(s) && Fired(s) && QueuedOk(s.hist, s.mgr.files, j)
    ensures Jobs(Admitted(s, j)) && Fired(Admitted(s, j))
  {
    if s.mgr.active.None? {
      NewThreadOk(s.hist, s.mgr.files, j);
    }
  }

  lemma AdmitWire(s: Sys, j: JobRec)
    requires WireBlocks(s)
    ensures WireBlocks(Admitted(s, j))
  {
    var s' := Admitted(s, j);
    if s.mgr.active.None? {
      assert Threads(s') == Threads(s) + [NewExec(j)];
      BlocksAppend(Threads(s), NewExec(j));
      assert Block(NewExec(j)) == [];
    } else {
      assert Threads(s') == Threads(s);
    }
  }

  lemma AdmitLive(s: Sys, j: JobRec)
    requires s.mgr.active.None? ==> s.mgr.queue == []
    ensures LiveIds(Admitted(s, j)) == LiveIds(s) + [j.id]
  {
  }

  lemma SubmitFaultKeeps(s: Sys, j: JobRec, fault: Fault)
    requires SysInv(s) && Enabled(s, SubmitJob(j, fault)) && !fault.NoFault?
    ensures SysInv(Next(s, SubmitJob(j, fault)))
  {
    FaultySaveKeepsWorld(s.hist, s.mgr.files, j, fault);
    NewIdApart(s, j.id);
    SaveApartKeeps(s, j, fault);
  }

  lemma SubmitKeeps(s: Sys, j: JobRec)
    requires SysInv(s) && Enabled(s, SubmitJob(j, NoFault))
    ensures SysInv(Next(s, SubmitJob(j, NoFault)))
  {
    NewJobKeepsWorld(s.hist, s.mgr.files, j);
    NewIdApart(s, j.id);
    SaveApartKeeps(s, j, NoFault);
    NewMayBeQueued(s, j);
    NewIsNotDropped(s, j.id);
    AdmitKeeps(Saved(s, j, NoFault), j);
  }

  lemma NewMayBeQueued(s: Sys, j: JobRec)
    requires World(s.hist, s.mgr.files) && Enabled(s, SubmitJob(j, NoFault))
    ensures QueuedOk(s.hist, SaveFiles(s.mgr.files, j, NoFault), j)
  {
    UnknownJobHasNoLines(s.mgr.files, s.hist.wire, j.id);
    StoredAfterSave(s.mgr.files, j, NoFault, j.id);
  }

  lemma NewIsNotDropped(s: Sys, id: string)
    requires Sched(s) && Stored(s.mgr.files, id).None?
    ensures id !in s.since.accepted && id !in s.since.dropped
  {
  }

  // ---- Cancelling a queued job ----

  lemma CancelQueuedKeeps(s: Sys, id: string, fault: Fault)
    requires SysInv(s) && CancelsQueued(s.mgr, id)
    ensures SysInv(Next(s, AskCancel(id, fault)))
  {
    var s' := Next(s, AskCancel(id, fault));
    CancelQueuedJobs(s, id, fault);
    CancelQueuedSched(s, id, fault);
    assert Threads(s') == Threads(s);
  }

  lemma SplitIds(q: seq<JobRec>, k: nat)
    requires k < |q|
    ensures JobIds(q) == JobIds(q[..k]) + [q[k].id] + JobIds(q[k + 1..])
  {
  }

  lemma SameLive<T>(t: seq<T>, a: seq<T>, x: T, b: seq<T>, q: seq<T>)
    requires q == a + [x] + b
    ensures t + q == t + a + [x] + b
  {
  }

  lemma PartsApart(r: seq<string>, c: seq<string>, a: seq<string>, x: string, b: seq<string>)
    requires Distinct(r + c + a + [x] + b)
    ensures forall i :: 0 <= i < |r| ==> r[i] != x
    ensures forall i :: 0 <= i < |c| ==> c[i] != x
    ensures forall i :: 0 <= i < |a| ==> a[i] != x
    ensures forall i :: 0 <= i < |b| ==> b[i] != x
  {
    MiddleApart(r + c + a, x, b);
    Parts(r, c, a, x);
  }

  /** The waiting jobs before and after the cancelled one. */
  lemma QueueSplit(s: Sys, id: string) returns (k: nat)
    requires Sched(s) && CancelsQueued(s.mgr, id)
    ensures k < |s.mgr.queue| && k == QueuePos(s.mgr.queue, id) && s.mgr.queue[k].id == id
    ensures ThreadsApart(s.retired, id) && ThreadsApart(ActiveThread(s.mgr), id)
    ensures QueueApart(s.mgr.queue[..k], id) && QueueApart(s.mgr.queue[k + 1..], id)
    ensures JobIds(s.mgr.queue) == JobIds(s.mgr.queue[..k]) + [id] + JobIds(s.mgr.queue[k + 1..])
  {
    k := QueuePos(s.mgr.queue, id);
    LiveIdsDistinct(s);
    SplitIds(s.mgr.queue, k);
    var r, c := ThreadIds(s.retired), ThreadIds(ActiveThread(s.mgr));
    var a, b := JobIds(s.mgr.queue[..k]), JobIds(s.mgr.queue[k + 1..]);
    assert ThreadIds(Threads(s)) == r + c;
    SameLive(r + c, a, id, b, JobIds(s.mgr.queue));
    PartsApart(r, c, a, id, b);
    assert forall i :: 0 <= i < |r| ==> s.retired[i].job.id == r[i];
    assert forall i :: 0 <= i < |c| ==> ActiveThread(s.mgr)[i].job.id == c[i];
    assert forall i :: 0 <= i < |a| ==> s.mgr.queue[..k][i].id == a[i];
    assert forall i :: 0 <= i < |b| ==> s.mgr.queue[k + 1..][i].id == b[i];
  }

  lemma CancelQueuedWorld(h: History, files: Files, j: JobRec, fault: Fault)
    requires World(h, files) && QueuedOk(h, files, j)
    ensures var h' := CountFault(h, true, fault).(dead := if fault.NoFault? then h.dead + {j.id} else h.dead);
      World(h', SaveFiles(files, j.MarkCancelled(), fault))
      && Concerns(h, files, h', SaveFiles(files, j.MarkCancelled(), fault), j.id)
  {
    SaveKeepsWorld(h, files, j.MarkCancelled(), fault);
    SaveConcerns(h, files, j.MarkCancelled(), fault);
    if fault.NoFault? {
      OneMoreDead(CountFault(h, true, fault), SaveFiles(files, j.MarkCancelled(), fault), j.id);
    }
  }

  lemma OneMoreDead(h: History, files: Files, id: string)
    requires World(h, files) && SafeId(id) && Stored(files, id).Some? && Stored(files, id).value.status.CANCELLED?
    ensures World(h.(dead := h.dead + {id}), files)
  {
    var h' := h.(dead := h.dead + {id});
    assert StoredOk(h', files) by {
      forall x | SafeId(x) && Stored(files, x).Some?
        ensures RecordOk(h', x, Stored(files, x).value)
      {
        assert RecordOk(h, x, Stored(files, x).value);
      }
    }
    assert WireOk(h', files);
  }

  lemma CancelQueuedShape(s: Sys, id: string, fault: Fault)
    requires CancelsQueued(s.mgr, id)
    ensures var s', k, q := Next(s, AskCancel(id, fault)), QueuePos(s.mgr.queue, id), s.mgr.queue;
      && s'.retired == s.retired && s'.mgr.active == s.mgr.active && s'.mgr.queue == q[..k] + q[k + 1..]
      && s'.mgr.files == SaveFiles(s.mgr.files, q[k].MarkCancelled(), fault)
      && s'.hist == CountFault(s.hist, true, fault).(dead := if fault.NoFault? then s.hist.dead + {id} else s.hist.dead)
      && s'.since == s.since.(dropped := s.since.dropped + {id})
  {
  }

  lemma CancelQueuedJobs(s: Sys, id: string, fault: Fault)
    requires Jobs(s) && Sched(s) && CancelsQueued(s.mgr, id)
    ensures Jobs(Next(s, AskCancel(id, fault)))
  {
    var s' := Next(s, AskCancel(id, fault));
    CancelQueuedShape(s, id, fault);
    var k := QueueSplit(s, id);
    OthersSeeCancel(s.hist, s.mgr.files, s'.hist, s'.mgr.files, s.mgr.queue, k, fault);
    OtherThreads(s.hist, s.mgr.files, s'.hist, s'.mgr.files, id, s.retired);
    OtherThreads(s.hist, s.mgr.files, s'.hist, s'.mgr.files, id, ActiveThread(s.mgr));
  }

  lemma OthersSeeCancel(h: History, files: Files, h': History, files': Files, q: seq<JobRec>, k: nat, fault: Fault)
    requires World(h, files) && QueueOk(h, files, q) && k < |q|
    requires files' == SaveFiles(files, q[k].MarkCancelled(), fault)
    requires h' == CountFault(h, true, fault).(dead := if fault.NoFault? then h.dead + {q[k].id} else h.dead)
    requires QueueApart(q[..k], q[k].id) && QueueApart(q[k + 1..], q[k].id)
    ensures World(h', files') && Concerns(h, files, h', files', q[k].id)
    ensures QueueOk(h', files', q[..k] + q[k + 1..])
  {
    CancelQueuedWorld(h, files, q[k], fault);
    OtherQueue(h, files, h', files', q[k].id, q[..k]);
    OtherQueue(h, files, h', files', q[k].id, q[k + 1..]);
    QueueJoins(h', files', q[..k], q[k + 1..]);
  }

  lemma QueueJoins(h: History, files: Files, a: seq<JobRec>, b: seq<JobRec>)
    requires QueueOk(h, files, a) && QueueOk(h, files, b)
    ensures QueueOk(h, files, a + b)
  {
  }

  lemma CancelQueuedSched(s: Sys, id: string, fault: Fault)
    requires Jobs(s) && Sched(s) && CancelsQueued(s.mgr, id)
    ensures Sched(Next(s, AskCancel(id, fault)))
  {
    CancelQueuedRegistered(s, id, fault);
    CancelQueuedLive(s, id, fault);
  }

  lemma CancelQueuedRegistered(s: Sys, id: string, fault: Fault)
    requires Jobs(s) && Sched(s) && CancelsQueued(s.mgr, id)
    ensures var s' := Next(s, AskCancel(id, fault));
      Registered(s'.since, s'.mgr.files) && (s'.mgr.active.None? ==> s'.mgr.queue == [])
  {
    var k := QueuePos(s.mgr.queue, id);
    CancelQueuedShape(s, id, fault);
    assert QueuedOk(s.hist, s.mgr.files, s.mgr.queue[k]);
    SaveConcerns(s.hist, s.mgr.files, s.mgr.queue[k].MarkCancelled(), fault);
  }

  lemma CancelQueuedLive(s: Sys, id: string, fault: Fault)
    requires Order(s.since, LiveIds(s)) && CancelsQueued(s.mgr, id)
    ensures Order(Next(s, AskCancel(id, fault)).since, LiveIds(Next(s, AskCancel(id, fault))))
  {
    CancelQueuedShape(s, id, fault);
    LiveAfterDrop(s, Next(s, AskCancel(id, fault)), id, QueuePos(s.mgr.queue, id));
  }

  lemma LiveAfterDrop(s: Sys, s': Sys, id: string, k: nat)
    requires Order(s.since, LiveIds(s)) && k < |s.mgr.queue| && s.mgr.queue[k].id == id
    requires s'.retired == s.retired && s'.mgr.active == s.mgr.active
    requires s'.mgr.queue == s.mgr.queue[..k] + s.mgr.queue[k + 1..]
    requires s'.since == s.since.(dropped := s.since.dropped + {id})
    ensures Order(s'.since, LiveIds(s'))
  {
    var q := s.mgr.queue;
    SplitIds(q, k);
    JoinIds(q[..k], q[k + 1..]);
    DropFromOrder(s.since.accepted, s.since.dropped, ThreadIds(Threads(s)), JobIds(q[..k]), id, JobIds(q[k + 1..]));
  }

  lemma JoinIds(a: seq<JobRec>, b: seq<JobRec>)
    ensures JobIds(a + b) == JobIds(a) + JobIds(b)
  {
  }

  lemma DropFromOrder<T>(accepted: seq<T>, dropped: set<T>, t: seq<T>, a: seq<T>, x: T, b: seq<T>)
    requires Distinct(accepted) && Minus(accepted, dropped) == t + (a + [x] + b)
    ensures Minus(accepted, dropped + {x}) == t + (a + b)
  {
    Regroup(t, a, x, b);
    MinusDistinct(accepted, dropped);
    MinusMiddle(t + a, x, b);
    MinusOneMore(accepted, dropped, x);
  }

  /** Taking the middle element out of a distinct list. */
  lemma MinusMiddle<T>(a: seq<T>, x: T, b: seq<T>)
    requires Distinct(a + [x] + b)
    ensures Minus(a + [x] + b, {x}) == a + b
  {
    MiddleApart(a, x, b);
    MinusAppend(a + [x], b, {x});
    assert Front(a + [x]) == a;
    MinusNothing(a, {x});
    MinusNothing(b, {x});
  }

  // ---- Restart ----

  lemma SameStoredKeepsWorld(h: History, files: Files, files': Files)
    requires World(h, files) && SameJobs(files, files')
    ensures World(h.(crashes := h.crashes + 1), files')
    ensures forall id :: Stored(files', id) == Stored(files, id)
  {
    SameJobsKeepsFilesOk(files, files');
    forall id
      ensures Stored(files', id) == Stored(files, id)
    {
      SameJobsSameStored(files, files', id);
    }
    forall k | 0 <= k < |h.wire|
      ensures WireLineOk(files', h.wire[k])
    {
      assert WireLineOk(files, h.wire[k]);
    }
    var h' := h.(crashes := h.crashes + 1);
    forall id | SafeId(id) && Stored(files', id).Some?
      ensures RecordOk(h', id, Stored(files', id).value)
    {
      assert RecordOk(h, id, Stored(files, id).value);
    }
    assert StoredOk(h', files');
  }

  /** A stored resumable job can be queued again: the restart is paid for by the crash counter. */
  lemma StoredMayBeQueued(h: History, files: Files, j: JobRec)
    requires World(h, files) && SafeId(j.id) && Stored(files, j.id) == Some(j) && j.IsResumable()
    ensures QueuedOk(h.(crashes := h.crashes + 1), files, j.Requeued())
  {
    assert RecordOk(h, j.id, j);
  }

  /** The jobs a restart looks at, in the order in which it does. */
  function Revived(files: Files, names: seq<string>): seq<JobRec> {
    SortByCreation(Resumable(LoadAllJobs(files, names)))
  }

  lemma {:induction false} ResumableDistinct(jobs: seq<JobRec>)
    requires Distinct(jobs)
    ensures Distinct(Resumable(jobs))
  {
    if jobs != [] {
      ResumableDistinct(Front(jobs));
      var kept := Resumable(Front(jobs));
      forall k | 0 <= k < |kept|
        ensures kept[k] != Last(jobs)
      {
        var x := kept[k];
        assert x in kept;
        var i :| 0 <= i < |Front(jobs)| && Front(jobs)[i] == x;
        assert jobs[i] != jobs[|jobs| - 1];
      }
    }
  }

  lemma {:induction false} DistinctByCount<T>(s: seq<T>)
    ensures Distinct(s) <==> forall x :: multiset(s)[x] <= 1
  {
    if s != [] {
      assert s == Front(s) + [Last(s)];
      DistinctByCount(Front(s));
      var front := Front(s);
      assert forall k :: 0 <= k < |front| ==> front[k] == s[k];
      if Distinct(s) {
        assert Last(s) !in front;
        assert forall x :: multiset(s)[x] == multiset(front)[x] + (if x == Last(s) then 1 else 0);
      } else if Distinct(front) {
        var i :| 0 <= i < |front| && s[i] == Last(s);
        assert front[i] in multiset(front);
        assert multiset(s)[Last(s)] >= 2;
      } else {
        var x :| multiset(front)[x] > 1;
        assert multiset(s)[x] > 1;
      }
    }
  }

  /** The revived jobs are exactly the stored resumable ones, each once, and in order of creation. */
  lemma RevivedIsStored(files: Files, names: seq<string>)
    requires WellNamed(files) && IsListing(files, names)
    ensures forall j :: j in Revived(files, names)
                        <==> SafeId(j.id) && Stored(files, j.id) == Some(j) && j.IsResumable()
    ensures Distinct(JobIds(Revived(files, names)))
    ensures SortedByCreation(Revived(files, names))
  {
    var all := LoadAllJobs(files, names);
    var some, sorted := Resumable(all), Revived(files, names);
    LoadAllIsStored(files, names);
    ResumableDistinct(all);
    SortIsSorted(some);
    DistinctByCount(some);
    DistinctByCount(sorted);
    assert forall j :: j in sorted <==> j in multiset(sorted);
    assert forall j :: j in some <==> j in multiset(some);
    forall a, b | 0 <= a < b < |sorted|
      ensures sorted[a].id != sorted[b].id
    {
      assert sorted[a] in sorted && sorted[b] in sorted;
    }
  }

  /** These jobs are stored as they are, may be queued, and are new to this process. */
  ghost predicate Pending(s: Sys, jobs: seq<JobRec>) {
    && Distinct(JobIds(jobs))
    && forall k :: 0 <= k < |jobs| ==> PendingJob(s, jobs[k])
  }

  ghost predicate PendingJob(s: Sys, j: JobRec) {
    && j.IsResumable() && Stored(s.mgr.files, j.id) == Some(j) && QueuedOk(s.hist, s.mgr.files, j.Requeued())
    && j.id !in s.since.accepted && j.id !in s.since.dropped
  }

  lemma NotAmongThreads(threads: seq<Exec>, id: string)
    requires id !in ThreadIds(threads)
    ensures ThreadsApart(threads, id)
  {
    assert forall k :: 0 <= k < |threads| ==> ThreadIds(threads)[k] == threads[k].job.id;
  }

  lemma NotAmongJobs(queue: seq<JobRec>, id: string)
    requires id !in JobIds(queue)
    ensures QueueApart(queue, id)
  {
    assert forall k :: 0 <= k < |queue| ==> JobIds(queue)[k] == queue[k].id;
  }

  lemma NotLive(s: Sys, id: string)
    requires Sched(s) && id !in s.since.accepted
    ensures ThreadsApart(s.retired, id) && ThreadsApart(ActiveThread(s.mgr), id) && QueueApart(s.mgr.queue, id)
  {
    MinusMembers(s.since.accepted, s.since.dropped);
    var r, a, q := ThreadIds(s.retired), ThreadIds(ActiveThread(s.mgr)), JobIds(s.mgr.queue);
    assert LiveIds(s) == r + a + q;
    assert id !in r && id !in a && id !in q;
    NotAmongThreads(s.retired, id);
    NotAmongThreads(ActiveThread(s.mgr), id);
    NotAmongJobs(s.mgr.queue, id);
  }

  /** With fetched lines it may be queued as well: nothing of it has been printed. */
  lemma FetchedMayBeQueued(h: History, files: Files, j: JobRec, lines: seq<string>)
    requires QueuedOk(h, files, j.Requeued()) && j.lines == []
    requires Stored(files, j.id) == Some(j)
    ensures QueuedOk(h, files, j.(lines := lines, total := |lines|).Requeued())
  {
  }

  /** A job whose G-code cannot be had is stored as failed. */
  lemma FailedIsExplained(s: Sys, j: JobRec, why: string, fault: Fault)
    requires SysInv(s) && PendingJob(s, j)
    ensures SysInv(Saved(s, j.MarkFailed(why), fault))
  {
    assert RecordOk(s.hist, j.id, j);
    SaveKeepsWorld(s.hist, s.mgr.files, j.MarkFailed(why), fault);
    NotLive(s, j.id);
    SaveApartKeeps(s, j.MarkFailed(why), fault);
  }

  lemma PendingAfterSave(s: Sys, j: JobRec, why: string, fault: Fault, other: JobRec)
    requires PendingJob(s, j) && PendingJob(s, other) && other.id != j.id
    ensures PendingJob(Saved(s, j.MarkFailed(why), fault), other)
  {
    SaveConcerns(s.hist, s.mgr.files, j.MarkFailed(why), fault);
    StoredAfterSave(s.mgr.files, j.MarkFailed(why), fault, other.id);
  }

  lemma PendingAfterAdmit(s: Sys, j: JobRec, other: JobRec)
    requires PendingJob(s, other) && other.id != j.id
    ensures PendingJob(Admitted(s, j), other)
  {
  }

  /** The job as it is admitted. */
  function WithLines(j: JobRec, fetch: JobRec -> Fetched): JobRec
    requires Obtains(j, fetch)
  {
    (if j.lines != [] then j else j.(lines := fetch(j).lines, total := |fetch(j).lines|)).Requeued()
  }

  /** What a round of `recover` does, seen from the whole layer. */
  lemma RoundIs(r: Recovery, h: History, j: JobRec, fetch: JobRec -> Fetched)
    requires !r.raised && (r.mgr.active.None? ==> r.mgr.queue == [])
    ensures Obtains(j, fetch) ==>
              AfterRecovery(RecoverOne(r, j, fetch), h) == Admitted(AfterRecovery(r, h), WithLines(j, fetch))
    ensures !Obtains(j, fetch) ==>
              AfterRecovery(RecoverOne(r, j, fetch), h)
              == Saved(AfterRecovery(r, h), j.MarkFailed(REFETCH_FAILED + fetch(j).why), fetch(j).fault)
  {
  }

  lemma AdmittedRound(s: Sys, j: JobRec, fetch: JobRec -> Fetched)
    requires SysInv(s) && PendingJob(s, j) && Obtains(j, fetch)
    ensures SysInv(Admitted(s, WithLines(j, fetch)))
  {
    if j.lines == [] {
      FetchedMayBeQueued(s.hist, s.mgr.files, j, fetch(j).lines);
    }
    AdmitKeeps(s, WithLines(j, fetch));
  }

  /** One round keeps the invariant, and every other job pending. */
  lemma RecoverOneKeeps(r: Recovery, h: History, j: JobRec, fetch: JobRec -> Fetched)
    requires SysInv(AfterRecovery(r, h)) && !r.raised && PendingJob(AfterRecovery(r, h), j)
    ensures SysInv(AfterRecovery(RecoverOne(r, j, fetch), h))
  {
    RoundIs(r, h, j, fetch);
    if Obtains(j, fetch) {
      AdmittedRound(AfterRecovery(r, h), j, fetch);
    } else {
      FailedIsExplained(AfterRecovery(r, h), j, REFETCH_FAILED + fetch(j).why, fetch(j).fault);
    }
  }

  lemma OtherStaysPending(r: Recovery, h: History, j: JobRec, fetch: JobRec -> Fetched, other: JobRec)
    requires (r.mgr.active.None? ==> r.mgr.queue == []) && !r.raised && other.id != j.id
    requires PendingJob(AfterRecovery(r, h), j) && PendingJob(AfterRecovery(r, h), other)
    ensures PendingJob(AfterRecovery(RecoverOne(r, j, fetch), h), other)
  {
    RoundIs(r, h, j, fetch);
    if Obtains(j, fetch) {
      PendingAfterAdmit(AfterRecovery(r, h), WithLines(j, fetch), other);
    } else {
      PendingAfterSave(AfterRecovery(r, h), j, REFETCH_FAILED + fetch(j).why, fetch(j).fault, other);
    }
  }

  lemma {:induction false} RecoverKeeps(r: Recovery, h: History, jobs: seq<JobRec>, fetch: JobRec -> Fetched)
    requires SysInv(AfterRecovery(r, h)) && Pending(AfterRecovery(r, h), jobs)
    ensures SysInv(AfterRecovery(RecoverEach(r, jobs, fetch), h))
    decreases |jobs|
  {
    if jobs != [] && !r.raised {
      RecoverOneKeeps(r, h, jobs[0], fetch);
      PendingRest(r, h, jobs, fetch);
      RecoverKeeps(RecoverOne(r, jobs[0], fetch), h, jobs[1..], fetch);
    }
  }

  lemma PendingRest(r: Recovery, h: History, jobs: seq<JobRec>, fetch: JobRec -> Fetched)
    requires jobs != [] && Pending(AfterRecovery(r, h), jobs)
    requires !r.raised && (r.mgr.active.None? ==> r.mgr.queue == [])
    ensures Pending(AfterRecovery(RecoverOne(r, jobs[0], fetch), h), jobs[1..])
  {
    forall k | 0 <= k < |jobs[1..]|
      ensures PendingJob(AfterRecovery(RecoverOne(r, jobs[0], fetch), h), jobs[1..][k])
    {
      assert jobs[1..][k] == jobs[k + 1] && JobIds(jobs)[0] != JobIds(jobs)[k + 1];
      OtherStaysPending(r, h, jobs[0], fetch, jobs[k + 1]);
    }
    assert JobIds(jobs[1..]) == JobIds(jobs)[1..];
  }

  /** A process that has just come up and has nothing but the files. */
  function Blank(files: Files): Recovery { Recovery(Mgr(None, [], files), 0, [], false) }

  /** Everything resumable on the files is pending then. */
  lemma BlankIsPending(h: History, before: Files, files: Files, names: seq<string>)
    requires World(h, before) && SameJobs(before, files) && IsListing(files, names)
    ensures var s := AfterRecovery(Blank(files), h.(crashes := h.crashes + 1));
      SysInv(s) && Pending(s, Revived(files, names))
  {
    var s := AfterRecovery(Blank(files), h.(crashes := h.crashes + 1));
    SameStoredKeepsWorld(h, before, files);
    SameStoredWorld(h, before, files);
    RevivedIsStored(files, names);
    assert Threads(s) == [] && LiveIds(s) == [] && s.since.accepted == [];
    forall k | 0 <= k < |Revived(files, names)|
      ensures PendingJob(s, Revived(files, names)[k])
    {
      assert Revived(files, names)[k] in Revived(files, names);
      StoredMayBeQueued(h, files, Revived(files, names)[k]);
    }
  }

  lemma RestartIs(s: Sys, files: Files, names: seq<string>, fetch: JobRec -> Fetched)
    ensures Restart(s, files, names, fetch)
         == AfterRecovery(RecoverEach(Blank(files), Revived(files, names), fetch),
                          s.hist.(crashes := s.hist.crashes + 1))
  {
  }

  lemma CrashKeeps(s: Sys, files: Files, names: seq<string>, fetch: JobRec -> Fetched)
    requires World(s.hist, s.mgr.files) && SameJobs(s.mgr.files, files) && IsListing(files, names)
    ensures SysInv(Restart(s, files, names, fetch))
  {
    RestartIs(s, files, names, fetch);
    RecoveryKeeps(s.hist, s.mgr.files, files, names, fetch);
  }

  lemma RecoveryKeeps(h: History, before: Files, files: Files, names: seq<string>, fetch: JobRec -> Fetched)
    requires World(h, before) && SameJobs(before, files) && IsListing(files, names)
    ensures SysInv(AfterRecovery(RecoverEach(Blank(files), Revived(files, names), fetch),
                                 h.(crashes := h.crashes + 1)))
  {
    BlankIsPending(h, before, files, names);
    RecoverKeeps(Blank(files), h.(crashes := h.crashes + 1), Revived(files, names), fetch);
  }

  lemma SameStoredWorld(h: History, files: Files, files': Files)
    requires World(h, files) && SameJobs(files, files')
    ensures World(h, files')
  {
    SameStoredKeepsWorld(h, files, files');
    var h' := h.(crashes := h.crashes + 1);
    forall id | SafeId(id) && Stored(files', id).Some?
      ensures RecordOk(h, id, Stored(files', id).value)
    {
      assert RecordOk(h, id, Stored(files, id).value);
    }
    assert StoredOk(h, files');
    assert WireOk(h', files');
  }

  // ---- Every event ----

  lemma SubmitEventKeeps(s: Sys, j: JobRec, fault: Fault)
    requires SysInv(s) && Enabled(s, SubmitJob(j, fault))
    ensures SysInv(Next(s, SubmitJob(j, fault)))
  {
    if fault.NoFault? {
      SubmitKeeps(s, j);
    } else {
      SubmitFaultKeeps(s, j, fault);
    }
  }

  lemma ControlEventKeeps(s: Sys, ev: Event)
    requires SysInv(s)
    requires ev.AskPause? || ev.AskResume? || ev.AskFail? || ev.AskCancel?
    requires IsActive(s.mgr, ev.id)
    ensures SysInv(Next(s, ev))
  {
    var e := s.mgr.active.value;
    match ev
    case AskPause(id, fault) =>
      ControlIs(s, id, "", fault);
      ControlKeeps(s, ReqPause, PauseSaves(e), fault);
    case AskResume(id, fault) =>
      ControlIs(s, id, "", fault);
      ControlKeeps(s, ReqResume, ResumeSaves(e), fault);
    case AskCancel(id, fault) =>
      ControlIs(s, id, "", fault);
      ControlKeeps(s, ReqCancel(s.mgr.queue != []), CancelSaves(e), fault);
    case AskFail(id, reason) =>
      ControlIs(s, id, reason, NoFault);
      ControlKeeps(s, ReqFail(reason), false, NoFault);
  }

  /** Calls that name neither the active nor a queued job change nothing. */
  lemma IdleCallKeeps(s: Sys, ev: Event)
    requires ev.AskPause? || ev.AskResume? || ev.AskFail? || ev.AskCancel?
    requires !IsActive(s.mgr, ev.id) && !(ev.AskCancel? && CancelsQueued(s.mgr, ev.id))
    ensures Next(s, ev) == s
  {
  }

  lemma AskEventKeeps(s: Sys, ev: Event)
    requires SysInv(s)
    requires ev.AskPause? || ev.AskResume? || ev.AskFail? || ev.AskCancel?
    ensures SysInv(Next(s, ev))
  {
    if IsActive(s.mgr, ev.id) {
      ControlEventKeeps(s, ev);
    } else if ev.AskCancel? && CancelsQueued(s.mgr, ev.id) {
      CancelQueuedKeeps(s, ev.id, ev.fault);
    } else {
      IdleCallKeeps(s, ev);
    }
  }

  lemma NextKeepsInv(s: Sys, ev: Event)
    requires SysInv(s) && Enabled(s, ev)
    ensures SysInv(Next(s, ev))
  {
    match ev
    case SubmitJob(j, fault) => SubmitEventKeeps(s, j, fault);
    case ActiveStep(reply, fault) => ActiveStepKeeps(s, reply, fault);
    case RetiredStep(k, reply, fault) => RetiredStepKeeps(s, k, reply, fault);
    case Crash(files, names, fetch) => CrashKeeps(s, files, names, fetch);
    case _ => AskEventKeeps(s, ev);
  }

  lemma InitInv()
    ensures SysInv(Init())
  {
    assert Threads(Init()) == [];
  }

  lemma {:induction false} PlayKeepsInv(s: Sys, evs: seq<Event>)
    requires SysInv(s) && EnabledAll(s, evs)
    ensures SysInv(Play(s, evs))
    decreases |evs|
  {
    if evs != [] {
      NextKeepsInv(s, evs[0]);
      PlayKeepsInv(Next(s, evs[0]), evs[1..]);
    }
  }
}
