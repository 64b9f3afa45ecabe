/** The job manager's own steps (src/jobs/job_manager.py): each public method runs under the manager's lock. */
module ManagerSteps {
  import opened Basics
  import opened JobModel
  import opened JobStore
  import opened Executor

  /** `_active` and `_executor` are set and cleared together, so the active executor stands for both. */
  datatype Mgr = Mgr(active: Option<Exec>, queue: seq<JobRec>, files: Files)

  predicate IsActive(m: Mgr, id: string) {
    m.active.Some? && m.active.value.job.id == id
  }

  function StartJob(m: Mgr, j: JobRec): Mgr {
    m.(active := Some(NewExec(j)))
  }

  function Admit(m: Mgr, j: JobRec): Mgr {
    if m.active.None? then StartJob(m, j) else m.(queue := m.queue + [j])
  }

  /** A save that fails raises out of `submit` before the job is admitted. */
  function Submit(m: Mgr, j: JobRec, fault: Fault): Mgr {
    var saved := m.(files := SaveFiles(m.files, j, fault));
    if fault.NoFault? then Admit(saved, j) else saved
  }

  function SaveActive(m: Mgr, e: Exec, saves: bool, fault: Fault): Mgr {
    m.(active := Some(e), files := if saves then SaveFiles(m.files, e.job, fault) else m.files)
  }

  function PauseJob(m: Mgr, id: string, fault: Fault): Mgr {
    if IsActive(m, id) then SaveActive(m, PauseReq(m.active.value), PauseSaves(m.active.value), fault) else m
  }

  function ResumeJob(m: Mgr, id: string, fault: Fault): Mgr {
    if IsActive(m, id) then SaveActive(m, ResumeReq(m.active.value), ResumeSaves(m.active.value), fault) else m
  }

  function FailActive(m: Mgr, id: string, reason: string): Mgr {
    if IsActive(m, id) then m.(active := Some(FailReq(m.active.value, reason))) else m
  }

  /** Position of the first queued job with this id, or the queue length. */
  function QueuePos(queue: seq<JobRec>, id: string): (k: nat)
    ensures k <= |queue|
    ensures k < |queue| ==> queue[k].id == id
    ensures forall i :: 0 <= i < k ==> queue[i].id != id
  {
    if queue == [] || queue[0].id == id then 0
    else
      var k := QueuePos(queue[1..], id);
      assert forall i :: 1 <= i < k + 1 ==> queue[i] == queue[1..][i - 1];
      k + 1
  }

  /** The active job is asked to stop, keeping the pause iff somebody waits; a queued job is taken out and marked. */
  function CancelJob(m: Mgr, id: string, fault: Fault): Mgr {
    if IsActive(m, id) then
      SaveActive(m, CancelReq(m.active.value, m.queue != []), CancelSaves(m.active.value), fault)
    else
      var k := QueuePos(m.queue, id);
      if k < |m.queue| then
        m.(queue := m.queue[..k] + m.queue[k + 1..], files := SaveFiles(m.files, m.queue[k].MarkCancelled(), fault))
      else m
  }

  function OnFinished(m: Mgr): Mgr {
    var idle := m.(active := None);
    if m.queue == [] then idle else StartJob(idle.(queue := m.queue[1..]), m.queue[0])
  }

  // Recovery: filter, sort by creation time, admit in that order.

  function Resumable(jobs: seq<JobRec>): (r: seq<JobRec>)
    ensures forall j :: j in r <==> j in jobs && j.IsResumable()
  {
    if jobs == [] then []
    else if Last(jobs).IsResumable() then Resumable(Front(jobs)) + [Last(jobs)]
    else Resumable(Front(jobs))
  }

  predicate SortedByCreation(jobs: seq<JobRec>) {
    forall i, k :: 0 <= i < k < |jobs| ==> jobs[i].created <= jobs[k].created
  }

  /** Insert after every job that is not younger: the sort is stable. */
  function InsertByCreation(jobs: seq<JobRec>, j: JobRec): seq<JobRec> {
    if jobs == [] || Last(jobs).created <= j.created then jobs + [j]
    else InsertByCreation(Front(jobs), j) + [Last(jobs)]
  }

  function SortByCreation(jobs: seq<JobRec>): seq<JobRec> {
    if jobs == [] then [] else InsertByCreation(SortByCreation(Front(jobs)), Last(jobs))
  }

  function AdmitAll(m: Mgr, jobs: seq<JobRec>): Mgr
    decreases |jobs|
  {
    if jobs == [] then m else AdmitAll(Admit(m, jobs[0].Requeued()), jobs[1..])
  }

  /** `recover` on a directory whose `load_all` returns `stored`, when every resumable job has its G-code. */
  function Recover(m: Mgr, stored: seq<JobRec>): Mgr {
    AdmitAll(m, SortByCreation(Resumable(stored)))
  }

  // Recovery in general: a job stored without G-code is fetched again, or failed and saved.

  /** What fetching a job's G-code gives; when it raises, how the save of the failed job goes. */
  datatype Fetched = Lines(lines: seq<string>) | Unavailable(why: string, fault: Fault)

  /** The manager, how many jobs are recovered, the jobs whose G-code was fetched, and whether a save has raised. */
  datatype Recovery = Recovery(mgr: Mgr, count: nat, asked: seq<JobRec>, raised: bool)

  const REFETCH_FAILED := "Recovery failed: G-code unavailable: "

  function RecoverOne(r: Recovery, j: JobRec, fetch: JobRec -> Fetched): Recovery {
    if j.lines != [] then r.(mgr := Admit(r.mgr, j.Requeued()), count := r.count + 1)
    else
      match fetch(j)
      case Lines(lines) =>
        r.(mgr := Admit(r.mgr, j.(lines := lines, total := |lines|).Requeued()), count := r.count + 1,
           asked := r.asked + [j])
      case Unavailable(why, fault) =>
        r.(mgr := r.mgr.(files := SaveFiles(r.mgr.files, j.MarkFailed(REFETCH_FAILED + why), fault)),
           asked := r.asked + [j], raised := !fault.NoFault?)
  }

  function RecoverEach(r: Recovery, jobs: seq<JobRec>, fetch: JobRec -> Fetched): Recovery
    decreases |jobs|
  {
    if jobs == [] || r.raised then r else RecoverEach(RecoverOne(r, jobs[0], fetch), jobs[1..], fetch)
  }

  /** The job's G-code is stored or can be fetched. */
  predicate Obtains(j: JobRec, fetch: JobRec -> Fetched) { j.lines != [] || fetch(j).Lines? }

  /** The job's fetch fails, and so does saving it as failed; the error leaves `recover`. */
  predicate RaisesOn(j: JobRec, fetch: JobRec -> Fetched) { !Obtains(j, fetch) && !fetch(j).fault.NoFault? }

  /** The k-th job is admitted: its G-code is there, and no earlier job ends the recovery. */
  ghost predicate TakenUp(jobs: seq<JobRec>, k: nat, fetch: JobRec -> Fetched)
    requires k < |jobs|
  {
    Obtains(jobs[k], fetch) && forall i :: 0 <= i < k ==> !RaisesOn(jobs[i], fetch)
  }

  /** All of `recover`: the resumable jobs in order of creation, each requeued, fetched or failed. */
  function RecoverAll(m: Mgr, stored: seq<JobRec>, fetch: JobRec -> Fetched): Recovery {
    RecoverEach(Recovery(m, 0, [], false), SortByCreation(Resumable(stored)), fetch)
  }

  lemma {:induction false} AskedGrows(r: Recovery, jobs: seq<JobRec>, fetch: JobRec -> Fetched)
    ensures r.asked <= RecoverEach(r, jobs, fetch).asked
    decreases |jobs|
  {
    if jobs != [] && !r.raised {
      AskedGrows(RecoverOne(r, jobs[0], fetch), jobs[1..], fetch);
    }
  }

  lemma {:induction false} AskedIff(r: Recovery, jobs: seq<JobRec>, fetch: JobRec -> Fetched)
    requires !r.raised
    ensures RecoverEach(r, jobs, fetch).asked == r.asked <==> forall k :: 0 <= k < |jobs| ==> jobs[k].lines != []
    decreases |jobs|
  {
    if jobs != [] {
      var r1 := RecoverOne(r, jobs[0], fetch);
      if jobs[0].lines == [] {
        AskedGrows(r1, jobs[1..], fetch);
        assert |r1.asked| > |r.asked|;
      } else {
        AskedIff(r1, jobs[1..], fetch);
        assert forall k :: 1 <= k < |jobs| ==> jobs[k] == jobs[1..][k - 1];
      }
    }
  }

  lemma {:induction false} EachIsAll(r: Recovery, jobs: seq<JobRec>, fetch: JobRec -> Fetched)
    requires !r.raised && forall k :: 0 <= k < |jobs| ==> jobs[k].lines != []
    ensures RecoverEach(r, jobs, fetch) == r.(mgr := AdmitAll(r.mgr, jobs), count := r.count + |jobs|)
    decreases |jobs|
  {
    if jobs != [] {
      assert forall k :: 0 <= k < |jobs[1..]| ==> jobs[1..][k] == jobs[k + 1];
      EachIsAll(RecoverOne(r, jobs[0], fetch), jobs[1..], fetch);
    }
  }

  lemma SameMembers(jobs: seq<JobRec>)
    ensures forall j :: j in SortByCreation(jobs) <==> j in jobs
  {
    SortIsSorted(jobs);
    forall j
      ensures j in SortByCreation(jobs) <==> j in jobs
    {
      assert j in multiset(SortByCreation(jobs)) <==> j in multiset(jobs);
    }
  }

  /** `recover` is said never to fetch again. It fetches nothing exactly when every stored resumable job has its
      G-code, and then it is Recover, with every such job counted. */
  lemma FetchesNothingIff(m: Mgr, stored: seq<JobRec>, fetch: JobRec -> Fetched)
    ensures RecoverAll(m, stored, fetch).asked == [] <==> forall j :: j in stored && j.IsResumable() ==> j.lines != []
    ensures RecoverAll(m, stored, fetch).asked == [] ==>
              RecoverAll(m, stored, fetch) == Recovery(Recover(m, stored), |Resumable(stored)|, [], false)
  {
    var jobs, r := SortByCreation(Resumable(stored)), Recovery(m, 0, [], false);
    AskedIff(r, jobs, fetch);
    SameMembers(Resumable(stored));
    SortIsSorted(Resumable(stored));
    assert |jobs| == |multiset(jobs)| == |Resumable(stored)|;
    if RecoverAll(m, stored, fetch).asked == [] {
      EachIsAll(r, jobs, fetch);
    }
  }

  lemma {:induction false} InsertKeeps(jobs: seq<JobRec>, j: JobRec)
    ensures multiset(InsertByCreation(jobs, j)) == multiset(jobs) + multiset{j}
  {
    if jobs != [] && Last(jobs).created > j.created {
      InsertKeeps(Front(jobs), j);
      assert jobs == Front(jobs) + [Last(jobs)];
    }
  }

  lemma {:induction false} InsertSorts(jobs: seq<JobRec>, j: JobRec)
    requires SortedByCreation(jobs)
    ensures SortedByCreation(InsertByCreation(jobs, j))
    ensures forall i :: 0 <= i < |InsertByCreation(jobs, j)| ==>
              InsertByCreation(jobs, j)[i].created <= j.created
              || (jobs != [] && InsertByCreation(jobs, j)[i].created <= Last(jobs).created)
  {
    if jobs != [] && Last(jobs).created > j.created {
      InsertSorts(Front(jobs), j);
    }
  }

  /** The recovery order is the stored jobs in order of creation: a sorted permutation. */
  lemma {:induction false} SortIsSorted(jobs: seq<JobRec>)
    ensures SortedByCreation(SortByCreation(jobs))
    ensures multiset(SortByCreation(jobs)) == multiset(jobs)
  {
    if jobs != [] {
      SortIsSorted(Front(jobs));
      InsertKeeps(SortByCreation(Front(jobs)), Last(jobs));
      InsertSorts(SortByCreation(Front(jobs)), Last(jobs));
      assert jobs == Front(jobs) + [Last(jobs)];
    }
  }

  function BornAt(t: int): JobRec -> Option<JobRec> {
    (j: JobRec) => if j.created == t then Some(j) else None
  }

  lemma {:induction false} InsertIsStable(jobs: seq<JobRec>, j: JobRec, t: int)
    ensures Collect(InsertByCreation(jobs, j), BornAt(t)) == Collect(jobs + [j], BornAt(t))
  {
    assert Front(jobs + [j]) == jobs;
    if jobs != [] && Last(jobs).created > j.created {
      InsertIsStable(Front(jobs), j, t);
      assert Front(Front(jobs) + [j]) == Front(jobs);
      assert Front(InsertByCreation(Front(jobs), j) + [Last(jobs)]) == InsertByCreation(Front(jobs), j);
    }
  }

  /** Jobs of the same creation time keep their order. */
  lemma {:induction false} SortIsStable(jobs: seq<JobRec>, t: int)
    ensures Collect(SortByCreation(jobs), BornAt(t)) == Collect(jobs, BornAt(t))
  {
    if jobs != [] {
      var sorted := SortByCreation(Front(jobs));
      SortIsStable(Front(jobs), t);
      InsertIsStable(sorted, Last(jobs), t);
      assert Front(sorted + [Last(jobs)]) == sorted;
    }
  }

  /** The smallest case in which it fetches. */
  lemma EmptyJobIsFetched(m: Mgr, j: JobRec, fetch: JobRec -> Fetched)
    requires j.IsResumable() && j.lines == []
    ensures RecoverAll(m, [j], fetch).asked != []
  {
    assert j in [j];
    FetchesNothingIff(m, [j], fetch);
  }

  /** Admitting to a manager with an active job only lengthens the queue. */
  lemma {:induction false} AdmitAllQueues(m: Mgr, jobs: seq<JobRec>)
    requires m.active.Some?
    ensures AdmitAll(m, jobs) == m.(queue := m.queue + Requeue(jobs))
    decreases |jobs|
  {
    if jobs != [] {
      AdmitAllQueues(Admit(m, jobs[0].Requeued()), jobs[1..]);
    }
  }

  function Requeue(jobs: seq<JobRec>): (r: seq<JobRec>)
    ensures |r| == |jobs|
    ensures forall k :: 0 <= k < |jobs| ==> r[k] == jobs[k].Requeued()
  {
    seq(|jobs|, k requires 0 <= k < |jobs| => jobs[k].Requeued())
  }

  function Recovered(files: Files, jobs: seq<JobRec>): Mgr {
    if jobs == [] then Mgr(None, [], files) else Mgr(Some(NewExec(jobs[0])), jobs[1..], files)
  }

  /** A recovered manager runs the oldest resumable job and queues the others in order. */
  lemma RecoverShape(files: Files, stored: seq<JobRec>)
    ensures Recover(Mgr(None, [], files), stored) == Recovered(files, Requeue(SortByCreation(Resumable(stored))))
  {
    var sorted := SortByCreation(Resumable(stored));
    if sorted != [] {
      AdmitAllQueues(Admit(Mgr(None, [], files), sorted[0].Requeued()), sorted[1..]);
      assert Requeue(sorted)[1..] == Requeue(sorted[1..]);
      assert [] + Requeue(sorted[1..]) == Requeue(sorted[1..]);
    }
  }
}
