/** What `recover` makes of the jobs on the disk, job by job (src/jobs/job_manager.py). */
module Recoveries {
  import opened Basics
  import opened JobModel
  import opened JobStore
  import opened Executor
  import opened ManagerSteps

  /** A job that comes back: queued again, where it was, with its G-code from the disk or else fetched anew. */
  function Revived(j: JobRec, fetch: JobRec -> Fetched): Option<JobRec> {
    if j.lines != [] then Some(j.(status := QUEUED))
    else
      match fetch(j)
      case Lines(lines) => Some(j.(status := QUEUED, lines := lines, total := |lines|))
      case Unavailable(_, _) => None
  }

  function ReviveWith(fetch: JobRec -> Fetched): JobRec -> Option<JobRec> { (j: JobRec) => Revived(j, fetch) }

  /** The job is marked failed for this reason: it has no G-code, fetching it raises, and saving the job works. */
  predicate GivenUp(j: JobRec, fetch: JobRec -> Fetched, why: string) {
    j.lines == [] && fetch(j) == Unavailable(why, NoFault)
  }

  function FailedRecord(j: JobRec, why: string): JobRec {
    j.(status := FAILED, reason := Some("Recovery failed: G-code unavailable: " + why))
  }

  /** How many jobs are looked at: all, or those up to the first whose failing save raises. */
  function Reach(jobs: seq<JobRec>, fetch: JobRec -> Fetched): (n: nat)
    ensures n <= |jobs| && forall k :: 0 <= k < n - 1 ==> !RaisesOn(jobs[k], fetch)
    ensures n < |jobs| ==> n > 0 && RaisesOn(jobs[n - 1], fetch)
  {
    if jobs == [] then 0
    else if RaisesOn(jobs[0], fetch) then 1
    else
      var n := Reach(jobs[1..], fetch);
      assert forall k :: 1 <= k < n ==> jobs[k] == jobs[1..][k - 1];
      n + 1
  }

  /** A manager with these jobs, the first one just started. */
  lemma AdmitOneMore(files: Files, live: seq<JobRec>, j: JobRec)
    ensures Admit(Recovered(files, live), j) == Recovered(files, live + [j])
  {
    if live == [] {
      assert live + [j] == [j];
    } else {
      RestOfSum(live, [j]);
    }
  }

  lemma RecoverOneIs(r: Recovery, live: seq<JobRec>, j: JobRec, fetch: JobRec -> Fetched)
    requires !r.raised && r.mgr == Recovered(r.mgr.files, live)
    ensures var t, back := RecoverOne(r, j, fetch), Collect([j], ReviveWith(fetch));
      && t.mgr == Recovered(t.mgr.files, live + back) && t.count == r.count + |back|
      && (t.raised <==> RaisesOn(j, fetch))
  {
    CollectOne(j, ReviveWith(fetch));
    var y := ReviveWith(fetch)(j);
    if y.Some? {
      AdmitOneMore(r.mgr.files, live, y.value);
    } else {
      assert live + [] == live;
    }
  }

  /** The jobs that come back from those looked at. */
  function Back(jobs: seq<JobRec>, fetch: JobRec -> Fetched): seq<JobRec> {
    Collect(jobs[..Reach(jobs, fetch)], ReviveWith(fetch))
  }

  lemma BackFirst(jobs: seq<JobRec>, fetch: JobRec -> Fetched)
    requires jobs != []
    ensures Back(jobs, fetch) == Collect([jobs[0]], ReviveWith(fetch))
                               + if RaisesOn(jobs[0], fetch) then [] else Back(jobs[1..], fetch)
  {
    var n := Reach(jobs, fetch);
    if RaisesOn(jobs[0], fetch) {
      assert jobs[..1] == [jobs[0]];
    } else {
      assert jobs[..n] == [jobs[0]] + jobs[1..][..n - 1];
      CollectAppend([jobs[0]], jobs[1..][..n - 1], ReviveWith(fetch));
    }
  }

  lemma {:induction false} RecoverEachIs(r: Recovery, live: seq<JobRec>, jobs: seq<JobRec>, fetch: JobRec -> Fetched)
    requires !r.raised && r.mgr == Recovered(r.mgr.files, live)
    ensures var t := RecoverEach(r, jobs, fetch);
      && t.mgr == Recovered(t.mgr.files, live + Back(jobs, fetch)) && t.count == r.count + |Back(jobs, fetch)|
    decreases |jobs|
  {
    if jobs == [] {
      assert live + Back(jobs, fetch) == live;
    } else {
      var first := Collect([jobs[0]], ReviveWith(fetch));
      RecoverOneIs(r, live, jobs[0], fetch);
      BackFirst(jobs, fetch);
      var r1 := RecoverOne(r, jobs[0], fetch);
      if r1.raised {
        assert first + [] == first;
      } else {
        RecoverEachIs(r1, live + first, jobs[1..], fetch);
        Reassociate(live, first, Back(jobs[1..], fetch));
      }
    }
  }

  // ---- The disk ----

  ghost predicate SafeApart(jobs: seq<JobRec>) {
    && (forall k :: 0 <= k < |jobs| ==> SafeId(jobs[k].id))
    && (forall a, b :: 0 <= a < b < |jobs| ==> jobs[a].id != jobs[b].id)
  }

  lemma ApartRest(jobs: seq<JobRec>)
    requires SafeApart(jobs) && jobs != []
    ensures SafeApart(jobs[1..]) && forall k :: 0 <= k < |jobs[1..]| ==> jobs[1..][k].id != jobs[0].id
  {
  }

  /** One round changes the record of the job it is about, and only if the job is given up. */
  lemma FilesAfterOne(r: Recovery, j: JobRec, fetch: JobRec -> Fetched, id: string)
    requires SafeId(j.id) && SafeId(id)
    ensures var files := RecoverOne(r, j, fetch).mgr.files;
      && (id != j.id || Revived(j, fetch).Some? || RaisesOn(j, fetch) ==> Stored(files, id) == Stored(r.mgr.files, id))
      && (forall why :: id == j.id && GivenUp(j, fetch, why) ==> Stored(files, id) == Some(FailedRecord(j, why)))
  {
    if j.lines == [] && fetch(j).Unavailable? {
      StoredAfterSave(r.mgr.files, j.MarkFailed(REFETCH_FAILED + fetch(j).why), fetch(j).fault, id);
    }
  }

  /** The k-th job is looked at and given up. */
  ghost predicate GivenUpAt(jobs: seq<JobRec>, k: nat, fetch: JobRec -> Fetched, id: string, why: string) {
    k < Reach(jobs, fetch) && jobs[k].id == id && GivenUp(jobs[k], fetch, why)
  }

  lemma {:induction false} OthersKept(r: Recovery, jobs: seq<JobRec>, fetch: JobRec -> Fetched, id: string)
    requires !r.raised && SafeApart(jobs) && SafeId(id)
    requires forall k: nat, why :: !GivenUpAt(jobs, k, fetch, id, why)
    ensures Stored(RecoverEach(r, jobs, fetch).mgr.files, id) == Stored(r.mgr.files, id)
    decreases |jobs|
  {
    if jobs != [] {
      var j, r1 := jobs[0], RecoverOne(r, jobs[0], fetch);
      ApartRest(jobs);
      FilesAfterOne(r, j, fetch, id);
      if id == j.id && Revived(j, fetch).None? && !RaisesOn(j, fetch) {
        assert GivenUpAt(jobs, 0, fetch, id, fetch(j).why);
      }
      if !RaisesOn(j, fetch) {
        forall k: nat, why | GivenUpAt(jobs[1..], k, fetch, id, why)
          ensures false
        {
          assert GivenUpAt(jobs, k + 1, fetch, id, why);
        }
        OthersKept(r1, jobs[1..], fetch, id);
      }
    }
  }

  lemma {:induction false} GivenUpIsFailed(r: Recovery, jobs: seq<JobRec>, fetch: JobRec -> Fetched, k: nat,
                                           why: string)
    requires !r.raised && SafeApart(jobs) && k < |jobs| && GivenUpAt(jobs, k, fetch, jobs[k].id, why)
    ensures Stored(RecoverEach(r, jobs, fetch).mgr.files, jobs[k].id) == Some(FailedRecord(jobs[k], why))
    decreases |jobs|
  {
    var r1 := RecoverOne(r, jobs[0], fetch);
    ApartRest(jobs);
    if k == 0 {
      FilesAfterOne(r, jobs[0], fetch, jobs[0].id);
      forall i: nat, w
        ensures !GivenUpAt(jobs[1..], i, fetch, jobs[0].id, w)
      {
      }
      OthersKept(r1, jobs[1..], fetch, jobs[0].id);
    } else {
      assert jobs[k] == jobs[1..][k - 1];
      GivenUpIsFailed(r1, jobs[1..], fetch, k - 1, why);
    }
  }

  // ---- All of it ----

  lemma ResumableAre(stored: seq<JobRec>)
    ensures forall j :: j in Resumable(stored) <==> j in stored && j.status in {PRINTING, PAUSED, QUEUED, LOADING}
  {
  }

  /** A recovery from an empty manager: the stored jobs that are PRINTING, PAUSED, QUEUED or LOADING, oldest first and
      as far as no save raises, come back in that order, the first one running, each queued again with its G-code from
      the disk or fetched anew; they are counted; a job that cannot be fetched is stored as FAILED with the reason, and
      no other record changes. */
  lemma RecoverAllIs(files: Files, stored: seq<JobRec>, fetch: JobRec -> Fetched, id: string)
    returns (jobs: seq<JobRec>)
    requires SafeId(id)
    ensures jobs == SortByCreation(Resumable(stored)) && SortedByCreation(jobs) && |jobs| == |Resumable(stored)|
    ensures forall j :: j in jobs <==> j in stored && j.status in {PRINTING, PAUSED, QUEUED, LOADING}
    ensures var t, back := RecoverAll(Mgr(None, [], files), stored, fetch), Back(jobs, fetch);
      && t.count == |back|
      && (if back == [] then t.mgr.active == None && t.mgr.queue == []
          else t.mgr.active == Some(NewExec(back[0])) && t.mgr.queue == back[1..])
      && (SafeApart(jobs) ==>
            && (forall k: nat, why :: GivenUpAt(jobs, k, fetch, id, why) ==>
                  Stored(t.mgr.files, id) == Some(FailedRecord(jobs[k], why)))
            && ((forall k: nat, why :: !GivenUpAt(jobs, k, fetch, id, why)) ==>
                  Stored(t.mgr.files, id) == Stored(files, id)))
  {
    jobs := SortByCreation(Resumable(stored));
    var r := Recovery(Mgr(None, [], files), 0, [], false);
    SortIsSorted(Resumable(stored));
    assert |jobs| == |multiset(jobs)| == |Resumable(stored)|;
    SameMembers(Resumable(stored));
    ResumableAre(stored);
    RecoverEachIs(r, [], jobs, fetch);
    assert [] + Back(jobs, fetch) == Back(jobs, fetch);
    if SafeApart(jobs) {
      forall k: nat, why | GivenUpAt(jobs, k, fetch, id, why)
        ensures Stored(RecoverEach(r, jobs, fetch).mgr.files, id) == Some(FailedRecord(jobs[k], why))
      {
        GivenUpIsFailed(r, jobs, fetch, k, why);
      }
      if forall k: nat, why :: !GivenUpAt(jobs, k, fetch, id, why) {
        OthersKept(r, jobs, fetch, id);
      }
    }
  }
}
