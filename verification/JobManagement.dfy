/** The manager's object (src/jobs/job_manager.py), each method under its lock, proved against ManagerSteps. */
module JobManagement {
  import opened Basics
  import opened JobModel
  import opened JobStore
  import opened Executor
  import opened ManagerSteps
  import opened JobSystem
  import opened ExecutorDeeds
  import opened ExecutorThread

  /** The records of the queued jobs. */
  ghost function Records(jobs: seq<Job>): (r: seq<JobRec>)
    reads jobs
    ensures |r| == |jobs|
    ensures forall k :: 0 <= k < |jobs| ==> r[k] == jobs[k].View()
  {
    seq(|jobs|, k requires 0 <= k < |jobs| reads jobs => jobs[k].View())
  }

  class JobManager {
    const store: JobStore
    var queue: seq<Job>
    var active: Job?
    var executor: JobExecutor?

    /** Active job and executor are set together; no job object is shared between the slots. */
    ghost predicate Valid()
      reads this, executor
    {
      && (active == null <==> executor == null)
      && (executor != null ==> executor.job == active && executor.store == store && active !in queue)
      && forall i, j :: 0 <= i < j < |queue| ==> queue[i] != queue[j]
    }

    ghost function View(): Mgr
      reads this, executor, if executor == null then {} else {executor.job}, queue, store
    {
      Mgr(if executor == null then None else Some(executor.View()), Records(queue), store.files)
    }

    constructor (store: JobStore)
      ensures Valid() && View() == Mgr(None, [], store.files) && this.store == store
    {
      this.store := store;
      queue, active, executor := [], null, null;
    }

    method StartJob(job: Job)
      requires Valid() && executor == null && job !in queue
      modifies this
      ensures Valid() && View() == ManagerSteps.StartJob(old(View()), job.View())
      ensures queue == old(queue) && active == job && fresh(executor)
    {
      active := job;
      executor := new JobExecutor(job, store);
    }

    method Admit(job: Job)
      requires Valid() && job !in queue && job != active
      modifies this
      ensures Valid() && View() == ManagerSteps.Admit(old(View()), job.View())
    {
      if active == null {
        StartJob(job);
      } else {
        queue := queue + [job];
      }
    }

    /** The download and parsing of the G-code happen before; `saved` is false where `save` raises. */
    method Submit(id: string, created: int, lines: seq<string>, fault: Fault) returns (saved: bool)
      requires Valid()
      modifies this, store
      ensures Valid() && View() == ManagerSteps.Submit(old(View()), NewJob(id, created, lines), fault)
      ensures saved <==> fault.NoFault?
    {
      var job := new Job.Create(id, created, lines);
      saved := store.Save(job, fault);
      if !saved {
        return;
      }
      Admit(job);
    }

    method Pause(id: string, fault: Fault) returns (done: bool)
      requires Valid()
      modifies store, executor, active
      ensures Valid() && View() == PauseJob(old(View()), id, fault)
      ensures done <==> IsActive(old(View()), id)
    {
      if active == null || active.id != id {
        return false;
      }
      executor.Pause(fault);
      done := true;
    }

    method Resume(id: string, fault: Fault) returns (done: bool)
      requires Valid()
      modifies store, executor, active
      ensures Valid() && View() == ResumeJob(old(View()), id, fault)
      ensures done <==> IsActive(old(View()), id)
    {
      if active == null || active.id != id {
        return false;
      }
      executor.Resume(fault);
      done := true;
    }

    method Fail(id: string, reason: string) returns (done: bool)
      requires Valid()
      modifies executor
      ensures Valid() && View() == FailActive(old(View()), id, reason)
      ensures done <==> IsActive(old(View()), id)
      ensures done ==> executor.failEvent && executor.failReason == Some(reason) && !executor.pauseEvent
    {
      if active == null || active.id != id {
        return false;
      }
      executor.Fail(reason);
      done := true;
    }

    /** `raised`: a waiting job was taken out of the queue, but saving it raises out of the call. */
    method Cancel(id: string, fault: Fault) returns (done: bool, raised: bool)
      requires Valid()
      modifies this, store, executor, active, queue
      ensures Valid() && View() == CancelJob(old(View()), id, fault)
      ensures raised <==> CancelsQueued(old(View()), id) && !fault.NoFault?
      ensures done <==> (IsActive(old(View()), id) || CancelsQueued(old(View()), id)) && !raised
    {
      if active != null && active.id == id {
        executor.Cancel(queue != [], fault);
        return true, false;
      }
      done, raised := CancelQueued(id, fault);
    }

    method CancelQueued(id: string, fault: Fault) returns (done: bool, raised: bool)
      requires Valid() && !IsActive(View(), id)
      modifies this, store, queue
      ensures Valid() && View() == CancelJob(old(View()), id, fault)
      ensures raised <==> CancelsQueued(old(View()), id) && !fault.NoFault?
      ensures done <==> CancelsQueued(old(View()), id) && !raised
    {
      done, raised := false, false;
      var k := FindQueued(id);
      if k < |queue| {
        done := CancelAt(k, fault);
        raised := !done;
      }
    }

    /** Walk the queue to the first job with this id. */
    method FindQueued(id: string) returns (k: nat)
      ensures k == QueuePos(Records(queue), id)
    {
      k := 0;
      while k < |queue| && queue[k].id != id
        invariant k <= |queue|
        invariant forall i :: 0 <= i < k ==> queue[i].id != id
      {
        k := k + 1;
      }
      FirstIsPos(Records(queue), id, k);
    }

    /** `saved` is false where `save` raises. */
    method CancelAt(k: nat, fault: Fault) returns (saved: bool)
      requires Valid() && k < |queue|
      modifies this, store, queue
      ensures Valid() && (saved <==> fault.NoFault?)
      ensures var m := old(View());
        View() == m.(queue := m.queue[..k] + m.queue[k + 1..],
                     files := SaveFiles(m.files, m.queue[k].MarkCancelled(), fault))
    {
      var job := queue[k];
      queue := queue[..k] + queue[k + 1..];
      assert Records(queue) == old(Records(queue))[..k] + old(Records(queue))[k + 1..];
      job.MarkCancelled();
      saved := store.Save(job, fault);
    }

    method OnJobFinished()
      requires Valid()
      modifies this
      ensures Valid() && View() == OnFinished(old(View()))
    {
      active := null;
      executor := null;
      if queue != [] {
        var next := queue[0];
        queue := queue[1..];
        StartJob(next);
      }
    }

    /** Load everything, keep what can be resumed, oldest first, and requeue, fetch or fail each. The sort is the
        library's; `fetch` is what downloading a job's G-code gives. */
    method Recover(names: seq<string>, fetch: JobRec -> Fetched) returns (count: nat, raised: bool)
      requires Valid()
      modifies this, store
      ensures Valid()
      ensures var r := RecoverAll(old(View()), LoadAllJobs(old(store.files), names), fetch);
        View() == r.mgr && count == r.count && raised == r.raised
    {
      var all := store.LoadAll(names);
      var resumable := KeepResumable(all);
      var jobs := SortByCreation(resumable);
      count, raised := 0, false;
      ghost var r := Recovery(View(), 0, [], false);
      ghost var stored := LoadAllJobs(store.files, names);
      var k := 0;
      assert jobs[0..] == jobs;
      while k < |jobs| && !raised
        invariant 0 <= k <= |jobs| && Valid()
        invariant r.mgr == View() && r.count == count && r.raised == raised
        invariant RecoverEach(r, jobs[k..], fetch) == RecoverAll(old(View()), stored, fetch)
        decreases |jobs| - k
      {
        assert jobs[k..][0] == jobs[k] && jobs[k..][1..] == jobs[k + 1..];
        raised := RecoverJob(r, jobs[k], fetch);
        r := RecoverOne(r, jobs[k], fetch);
        count := if jobs[k].lines != [] || fetch(jobs[k]).Lines? then count + 1 else count;
        k := k + 1;
      }
    }

    method RecoverJob(ghost r: Recovery, j: JobRec, fetch: JobRec -> Fetched) returns (raised: bool)
      requires Valid() && r.mgr == View() && !r.raised
      modifies this, store
      ensures Valid()
      ensures RecoverOne(r, j, fetch).mgr == View() && RecoverOne(r, j, fetch).raised == raised
    {
      raised := false;
      if j.lines != [] {
        AdmitRecord(j);
        return;
      }
      match fetch(j) {
        case Lines(lines) =>
          AdmitRecord(j.(lines := lines, total := |lines|));
        case Unavailable(why, fault) =>
          raised := FailRecord(j, REFETCH_FAILED + why, fault);
      }
    }

    method FailRecord(j: JobRec, why: string, fault: Fault) returns (raised: bool)
      requires Valid()
      modifies store
      ensures Valid() && raised == !fault.NoFault?
      ensures View() == old(View()).(files := SaveFiles(old(store.files), j.MarkFailed(why), fault))
    {
      var job := new Job.FromRecord(j);
      job.MarkFailed(why);
      var saved := store.Save(job, fault);
      raised := !saved;
    }

    method AdmitRecord(r: JobRec)
      requires Valid()
      modifies this
      ensures Valid() && View() == ManagerSteps.Admit(old(View()), r.Requeued())
    {
      var job := new Job.FromRecord(r);
      job.Requeue();
      Admit(job);
    }
  }

  method KeepResumable(all: seq<JobRec>) returns (kept: seq<JobRec>)
    ensures kept == Resumable(all)
  {
    kept := [];
    for k := 0 to |all|
      invariant kept == Resumable(all[..k])
    {
      assert Front(all[..k + 1]) == all[..k];
      if all[k].IsResumable() {
        kept := kept + [all[k]];
      }
    }
    assert all[..|all|] == all;
  }

  lemma {:induction false} FirstIsPos(queue: seq<JobRec>, id: string, k: nat)
    requires k <= |queue| && (k < |queue| ==> queue[k].id == id)
    requires forall i :: 0 <= i < k ==> queue[i].id != id
    ensures k == QueuePos(queue, id)
  {
    var p := QueuePos(queue, id);
    assert p < |queue| ==> queue[p].id == id;
  }
}
