/** The invariant of the whole print-job layer, and that every event keeps it. */
module JobInvariant {
  import opened Basics
  import opened JobModel
  import opened JobStore
  import opened Executor
  import opened ExecutorProofs
  import opened ManagerSteps
  import opened JobSystem
  import opened JobWorld

  function ActiveThread(m: Mgr): seq<Exec> {
    if m.active.Some? then [m.active.value] else []
  }

  /** All threads since the last restart, in the order they were started. */
  function Threads(s: Sys): seq<Exec> {
    s.retired + ActiveThread(s.mgr)
  }

  function ThreadIds(threads: seq<Exec>): (ids: seq<string>)
    ensures |ids| == |threads|
    ensures forall k :: 0 <= k < |threads| ==> ids[k] == threads[k].job.id
  {
    seq(|threads|, k requires 0 <= k < |threads| => threads[k].job.id)
  }

  /** The commands of one thread, as the printer saw them. */
  function Block(e: Exec): seq<Sent> {
    seq(|e.log.sent|, k requires 0 <= k < |e.log.sent| => Sent(e.job.id, e.log.sent[k]))
  }

  function Blocks(threads: seq<Exec>): seq<Sent> {
    if threads == [] then [] else Blocks(Front(threads)) + Block(Last(threads))
  }

  // ---- The invariant ----

  /** Jobs started, in start order, then jobs waiting, in queue order. */
  function LiveIds(s: Sys): seq<string> {
    ThreadIds(Threads(s)) + JobIds(s.mgr.queue)
  }

  /** They are the accepted jobs in order of acceptance, less those cancelled while waiting. */
  ghost predicate Order(since: Since, live: seq<string>) {
    Distinct(since.accepted) && live == Minus(since.accepted, since.dropped)
  }

  ghost predicate Registered(since: Since, files: Files) {
    && (forall k :: 0 <= k < |since.accepted| ==> SafeId(since.accepted[k]) && Stored(files, since.accepted[k]).Some?)
    && (forall id :: id in since.dropped ==> SafeId(id) && Stored(files, id).Some?)
  }

  ghost predicate Sched(s: Sys) {
    && Order(s.since, LiveIds(s)) && Registered(s.since, s.mgr.files)
    && (s.mgr.active.None? ==> s.mgr.queue == [])
  }

  /** Since the last restart the wire is one block per thread, in start order. */
  ghost predicate WireBlocks(s: Sys) {
    s.since.epoch <= |s.hist.wire| && s.hist.wire[s.since.epoch..] == Blocks(Threads(s))
  }

  ghost predicate ThreadsOk(h: History, files: Files, threads: seq<Exec>) {
    forall k :: 0 <= k < |threads| ==> ThreadOk(h, files, threads[k])
  }

  ghost predicate QueueOk(h: History, files: Files, queue: seq<JobRec>) {
    forall k :: 0 <= k < |queue| ==> QueuedOk(h, files, queue[k])
  }

  /** Threads the manager has let go of have called it back; the active one has not. */
  ghost predicate Fired(s: Sys) {
    && (forall k :: 0 <= k < |s.retired| ==> s.retired[k].log.fired == 1)
    && (s.mgr.active.Some? ==> s.mgr.active.value.log.fired == 0)
  }

  ghost predicate Jobs(s: Sys) {
    && World(s.hist, s.mgr.files)
    && ThreadsOk(s.hist, s.mgr.files, s.retired)
    && ThreadsOk(s.hist, s.mgr.files, ActiveThread(s.mgr))
    && QueueOk(s.hist, s.mgr.files, s.mgr.queue)
  }

  ghost predicate SysInv(s: Sys) {
    Jobs(s) && Fired(s) && Sched(s) && WireBlocks(s)
  }

  // ---- Live jobs have different ids ----

  lemma LiveIdsDistinct(s: Sys)
    requires Sched(s)
    ensures Distinct(LiveIds(s))
  {
    MinusDistinct(s.since.accepted, s.since.dropped);
  }

  ghost predicate ThreadsApart(threads: seq<Exec>, x: string) {
    forall k :: 0 <= k < |threads| ==> threads[k].job.id != x
  }

  ghost predicate QueueApart(queue: seq<JobRec>, x: string) {
    forall k :: 0 <= k < |queue| ==> queue[k].id != x
  }

  /** In a distinct list a + [x] + b the middle element is in neither part. */
  lemma MiddleApart<T>(a: seq<T>, x: T, b: seq<T>)
    requires Distinct(a + [x] + b)
    ensures forall k :: 0 <= k < |a| ==> a[k] != x
    ensures forall k :: 0 <= k < |b| ==> b[k] != x
  {
    var all := a + [x] + b;
    assert all[|a|] == x;
    assert forall k :: 0 <= k < |a| ==> all[k] == a[k];
    assert forall k :: 0 <= k < |b| ==> all[|a| + 1 + k] == b[k];
  }

  lemma ActiveApart(s: Sys)
    requires Sched(s) && s.mgr.active.Some?
    ensures ThreadsApart(s.retired, s.mgr.active.value.job.id)
    ensures QueueApart(s.mgr.queue, s.mgr.active.value.job.id)
  {
    LiveIdsDistinct(s);
    var a, x, b := ThreadIds(s.retired), s.mgr.active.value.job.id, JobIds(s.mgr.queue);
    assert ThreadIds(Threads(s)) == a + [x];
    MiddleApart(a, x, b);
    assert forall k :: 0 <= k < |s.retired| ==> s.retired[k].job.id == a[k];
    assert forall k :: 0 <= k < |s.mgr.queue| ==> s.mgr.queue[k].id == b[k];
  }

  lemma RetiredApart(s: Sys, k: nat)
    requires Sched(s) && k < |s.retired|
    ensures ThreadsApart(s.retired[..k], s.retired[k].job.id)
    ensures ThreadsApart(s.retired[k + 1..], s.retired[k].job.id)
    ensures ThreadsApart(ActiveThread(s.mgr), s.retired[k].job.id)
    ensures QueueApart(s.mgr.queue, s.retired[k].job.id)
  {
    LiveIdsDistinct(s);
    var a, x := ThreadIds(s.retired[..k]), s.retired[k].job.id;
    var b, c, d := ThreadIds(s.retired[k + 1..]), ThreadIds(ActiveThread(s.mgr)), JobIds(s.mgr.queue);
    assert LiveIds(s) == a + [x] + (b + c + d);
    MiddleApart(a, x, b + c + d);
    Parts(b, c, d, x);
    assert forall i :: 0 <= i < |a| ==> s.retired[..k][i].job.id == a[i];
    assert forall i :: 0 <= i < |b| ==> s.retired[k + 1..][i].job.id == b[i];
    assert forall i :: 0 <= i < |c| ==> ActiveThread(s.mgr)[i].job.id == c[i];
    assert forall i :: 0 <= i < |d| ==> s.mgr.queue[i].id == d[i];
  }

  lemma Parts<T>(b: seq<T>, c: seq<T>, d: seq<T>, x: T)
    requires forall k :: 0 <= k < |b + c + d| ==> (b + c + d)[k] != x
    ensures forall k :: 0 <= k < |b| ==> b[k] != x
    ensures forall k :: 0 <= k < |c| ==> c[k] != x
    ensures forall k :: 0 <= k < |d| ==> d[k] != x
  {
    assert forall k :: 0 <= k < |b| ==> (b + c + d)[k] == b[k];
    assert forall k :: 0 <= k < |c| ==> (b + c + d)[|b| + k] == c[k];
    assert forall k :: 0 <= k < |d| ==> (b + c + d)[|b| + |c| + k] == d[k];
  }

  // ---- What other jobs see of a step ----

  /** The step concerns job x only. */
  ghost predicate Concerns(h: History, files: Files, h': History, files': Files, x: string) {
    && (forall id :: id != x ==> LinesOf(h'.wire, id) == LinesOf(h.wire, id))
    && (forall id :: id != x && SafeId(id) ==> Stored(files', id) == Stored(files, id))
    && (forall a :: a in h.oks ==> a in h'.oks) && (forall x :: x in h.wire ==> x in h'.wire)
    && h'.crashes == h.crashes && h.saveFaults <= h'.saveFaults
    && (forall id :: id != x && id in h'.dead ==> id in h.dead)
  }

  lemma OtherThread(h: History, files: Files, h': History, files': Files, x: string, e: Exec)
    requires Concerns(h, files, h', files', x) && e.job.id != x && ThreadOk(h, files, e)
    ensures ThreadOk(h', files', e)
  {
  }

  lemma OtherThreads(h: History, files: Files, h': History, files': Files, x: string, threads: seq<Exec>)
    requires Concerns(h, files, h', files', x) && ThreadsApart(threads, x) && ThreadsOk(h, files, threads)
    ensures ThreadsOk(h', files', threads)
  {
    forall k | 0 <= k < |threads|
      ensures ThreadOk(h', files', threads[k])
    {
      OtherThread(h, files, h', files', x, threads[k]);
    }
  }

  lemma OtherQueue(h: History, files: Files, h': History, files': Files, x: string, queue: seq<JobRec>)
    requires Concerns(h, files, h', files', x) && QueueApart(queue, x) && QueueOk(h, files, queue)
    ensures QueueOk(h', files', queue)
  {
    forall k | 0 <= k < |queue|
      ensures QueuedOk(h', files', queue[k])
    {
      OtherQueued(h, files, h', files', x, queue[k]);
    }
  }

  lemma OtherQueued(h: History, files: Files, h': History, files': Files, x: string, j: JobRec)
    requires Concerns(h, files, h', files', x) && j.id != x && QueuedOk(h, files, j)
    ensures QueuedOk(h', files', j)
  {
  }

  lemma OwnStepConcerns(h: History, files: Files, e: Exec, reply: Reply, fault: Fault)
    requires SafeId(e.job.id)
    ensures Concerns(h, files, Record(h, e, reply, fault), FilesAfter(files, e, fault), e.job.id)
  {
    forall id | id != e.job.id
      ensures LinesOf(Record(h, e, reply, fault).wire, id) == LinesOf(h.wire, id)
    {
      if Emits(e).Some? {
        LinesAfter(h.wire, Sent(e.job.id, Emits(e).value), id);
      }
    }
    SaveConcerns(h, files, e.job, fault);
  }

  lemma SaveConcerns(h: History, files: Files, j: JobRec, fault: Fault)
    requires SafeId(j.id)
    ensures Concerns(h, files, CountFault(h, true, fault), SaveFiles(files, j, fault), j.id)
    ensures forall id :: SafeId(id) && Stored(files, id).Some? ==> Stored(SaveFiles(files, j, fault), id).Some?
  {
    forall id | SafeId(id)
      ensures Stored(SaveFiles(files, j, fault), id)
           == if fault.NoFault? && id == j.id then Some(j) else Stored(files, id)
    {
      StoredAfterSave(files, j, fault, id);
    }
  }

  // ---- Blocks ----

  lemma BlocksAppend(threads: seq<Exec>, e: Exec)
    ensures Blocks(threads + [e]) == Blocks(threads) + Block(e)
  {
    assert Front(threads + [e]) == threads;
  }

  lemma {:induction false} BlocksUpdate(threads: seq<Exec>, k: nat, e: Exec)
    requires k < |threads| && Block(e) == Block(threads[k])
    ensures Blocks(threads[k := e]) == Blocks(threads)
  {
    if k < |threads| - 1 {
      BlocksUpdate(Front(threads), k, e);
      assert Front(threads[k := e]) == Front(threads)[k := e];
    } else {
      assert Front(threads[k := e]) == Front(threads);
    }
  }

  lemma BlockGrows(e: Exec, e': Exec, c: Cmd)
    requires e'.log.sent == e.log.sent + [c] && e'.job.id == e.job.id
    ensures Block(e') == Block(e) + [Sent(e.job.id, c)]
  {
  }
}
