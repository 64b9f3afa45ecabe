/** The whole print-job layer as one state machine: the manager, every executor thread it has started since
    the process came up, the disk, and what has gone to the printer over all restarts. */
module JobSystem {
  import opened Basics
  import opened JobModel
  import opened JobStore
  import opened Executor
  import opened ManagerSteps

  datatype Sent = Sent(id: string, cmd: Cmd)
  datatype Ack = Ack(id: string, index: nat)

  /** The history over all restarts: commands sent, lines acknowledged, jobs cancelled while queued with a
      successful save, restarts, failed saves. */
  datatype History = History(wire: seq<Sent>, oks: seq<Ack>, dead: set<string>, crashes: nat, saveFaults: nat)

  /** The history since the last restart: where it starts on the wire, the jobs accepted, and those of them
      cancelled while queued. */
  datatype Since = Since(epoch: nat, accepted: seq<string>, dropped: set<string>)

  /** `retired` are the threads the manager has let go of, in the order they were started. */
  datatype Sys = Sys(mgr: Mgr, retired: seq<Exec>, hist: History, since: Since)

  function Init(): Sys {
    Sys(Mgr(None, [], map[]), [], History([], [], {}, 0, 0), Since(0, [], {}))
  }

  datatype Event =
    | SubmitJob(job: JobRec, fault: Fault)
    | AskPause(id: string, fault: Fault)
    | AskResume(id: string, fault: Fault)
    | AskCancel(id: string, fault: Fault)
    | AskFail(id: string, reason: string)
    | ActiveStep(reply: Reply, fault: Fault)
    | RetiredStep(k: nat, reply: Reply, fault: Fault)
    | Crash(files: Files, names: seq<string>, fetch: JobRec -> Fetched)

  function FaultCount(fault: Fault): nat { if fault.NoFault? then 0 else 1 }

  function CountFault(h: History, saves: bool, fault: Fault): History {
    if saves then h.(saveFaults := h.saveFaults + FaultCount(fault)) else h
  }

  /** What an own step of a thread adds to the history. */
  function Record(h: History, e: Exec, reply: Reply, fault: Fault): History {
    var h1 := if Emits(e).Some? then h.(wire := h.wire + [Sent(e.job.id, Emits(e).value)]) else h;
    var h2 := if e.pc == Printing(LineWait) && reply.Ok? then h1.(oks := h1.oks + [Ack(e.job.id, e.job.index)]) else h1;
    CountFault(h2, Saves(e.pc), fault)
  }

  function FilesAfter(files: Files, e: Exec, fault: Fault): Files {
    if Saves(e.pc) then SaveFiles(files, e.job, fault) else files
  }

  /** The callback runs in the finishing thread: whoever is active is let go and the next job is started. */
  function Finish(s: Sys): Sys {
    s.(retired := s.retired + (if s.mgr.active.Some? then [s.mgr.active.value] else []),
       mgr := OnFinished(s.mgr))
  }

  function StepActive(s: Sys, reply: Reply, fault: Fault): Sys
    requires s.mgr.active.Some?
  {
    var e := s.mgr.active.value;
    var s1 := s.(mgr := s.mgr.(active := Some(Step(e, reply)), files := FilesAfter(s.mgr.files, e, fault)),
                 hist := Record(s.hist, e, reply, fault));
    if Fires(e.pc) then Finish(s1) else s1
  }

  function StepRetired(s: Sys, k: nat, reply: Reply, fault: Fault): Sys
    requires k < |s.retired|
  {
    var e := s.retired[k];
    var s1 := s.(retired := s.retired[k := Step(e, reply)],
                 mgr := s.mgr.(files := FilesAfter(s.mgr.files, e, fault)),
                 hist := Record(s.hist, e, reply, fault));
    if Fires(e.pc) then Finish(s1) else s1
  }

  /** The process dies and comes back: memory is lost, the job files survive, temporary files may be in any
      state, and `recover` runs before anything else; `fetch` is what downloading a job's G-code gives it. */
  function Restart(s: Sys, files: Files, names: seq<string>, fetch: JobRec -> Fetched): Sys {
    var h := s.hist;
    AfterRecovery(RecoverAll(Mgr(None, [], files), LoadAllJobs(files, names), fetch), h.(crashes := h.crashes + 1))
  }

  /** A process that has recovered so far; h is the history when it came up. */
  function AfterRecovery(r: Recovery, h: History): Sys {
    Sys(r.mgr, [], if r.raised then h.(saveFaults := h.saveFaults + 1) else h, Since(|h.wire|, ManagedIds(r.mgr), {}))
  }

  function ManagedIds(m: Mgr): seq<string> {
    (if m.active.Some? then [m.active.value.job.id] else []) + JobIds(m.queue)
  }

  function JobIds(jobs: seq<JobRec>): (ids: seq<string>)
    ensures |ids| == |jobs|
    ensures forall k :: 0 <= k < |jobs| ==> ids[k] == jobs[k].id
  {
    seq(|jobs|, k requires 0 <= k < |jobs| => jobs[k].id)
  }

  /** Jobs arrive new and under ids nobody has used. */
  ghost predicate Enabled(s: Sys, ev: Event) {
    match ev
    case SubmitJob(j, _) =>
      && SafeId(j.id) && Stored(s.mgr.files, j.id).None?
      && j.WellFormed() && j.status.QUEUED? && j.index == 0
    case ActiveStep(_, _) => s.mgr.active.Some?
    case RetiredStep(k, _, _) => k < |s.retired|
    case Crash(files, names, _) => SameJobs(s.mgr.files, files) && IsListing(files, names)
    case _ => true
  }

  function Next(s: Sys, ev: Event): Sys
    requires Enabled(s, ev)
  {
    match ev
    case SubmitJob(j, fault) =>
      s.(mgr := Submit(s.mgr, j, fault),
         hist := CountFault(s.hist, true, fault),
         since := if fault.NoFault? then s.since.(accepted := s.since.accepted + [j.id]) else s.since)
    case AskPause(id, fault) =>
      s.(mgr := PauseJob(s.mgr, id, fault),
         hist := CountFault(s.hist, IsActive(s.mgr, id) && PauseSaves(s.mgr.active.value), fault))
    case AskResume(id, fault) =>
      s.(mgr := ResumeJob(s.mgr, id, fault),
         hist := CountFault(s.hist, IsActive(s.mgr, id) && ResumeSaves(s.mgr.active.value), fault))
    case AskCancel(id, fault) =>
      s.(mgr := CancelJob(s.mgr, id, fault), hist := CancelRecord(s, id, fault),
         since := if CancelsQueued(s.mgr, id) then s.since.(dropped := s.since.dropped + {id}) else s.since)
    case AskFail(id, reason) => s.(mgr := FailActive(s.mgr, id, reason))
    case ActiveStep(reply, fault) => StepActive(s, reply, fault)
    case RetiredStep(k, reply, fault) => StepRetired(s, k, reply, fault)
    case Crash(files, names, fetch) => Restart(s, files, names, fetch)
  }

  predicate CancelsQueued(m: Mgr, id: string) {
    !IsActive(m, id) && QueuePos(m.queue, id) < |m.queue|
  }

  function CancelRecord(s: Sys, id: string, fault: Fault): History {
    if IsActive(s.mgr, id) then CountFault(s.hist, CancelSaves(s.mgr.active.value), fault)
    else if CancelsQueued(s.mgr, id) then
      CountFault(s.hist, true, fault).(dead := if fault.NoFault? then s.hist.dead + {id} else s.hist.dead)
    else s.hist
  }

  ghost predicate EnabledAll(s: Sys, evs: seq<Event>)
    decreases |evs|
  {
    evs == [] || (Enabled(s, evs[0]) && EnabledAll(Next(s, evs[0]), evs[1..]))
  }

  function Play(s: Sys, evs: seq<Event>): Sys
    requires EnabledAll(s, evs)
    decreases |evs|
  {
    if evs == [] then s else Play(Next(s, evs[0]), evs[1..])
  }
}
