/** The job files on disk (src/jobs/job_store.py). A file holds a whole record or a torn write. */
module JobStore {
  import opened Basics
  import opened JobModel

  datatype File = Whole(job: JobRec) | Torn

  type Files = map<string, File>

  /** How one `save` goes: well, or failing while writing the temporary file, or at the rename. */
  datatype Fault = NoFault | WriteFails | RenameFails

  predicate IsSafeChar(c: char) {
    'a' <= c <= 'z' || 'A' <= c <= 'Z' || '0' <= c <= '9' || c == '-' || c == '_'
  }

  predicate SafeId(id: string) {
    id != "" && forall k :: 0 <= k < |id| ==> IsSafeChar(id[k])
  }

  function Sanitise(id: string): string {
    if id == "" then ""
    else if IsSafeChar(Last(id)) then Sanitise(Front(id)) + [Last(id)]
    else Sanitise(Front(id))
  }

  function JsonName(id: string): string { Sanitise(id) + ".json" }
  function TmpName(id: string): string { Sanitise(id) + ".tmp" }

  predicate IsJson(name: string) { |name| >= 5 && name[|name| - 5..] == ".json" }
  predicate IsTmp(name: string) { |name| >= 4 && name[|name| - 4..] == ".tmp" }

  /** Sanitising keeps exactly the ids made of safe characters. */
  lemma {:induction false} SanitiseFixesSafeIds(id: string)
    ensures Sanitise(id) == id <==> forall k :: 0 <= k < |id| ==> IsSafeChar(id[k])
    ensures forall k :: 0 <= k < |Sanitise(id)| ==> IsSafeChar(Sanitise(id)[k])
    ensures |Sanitise(id)| <= |id|
  {
    if id != "" {
      SanitiseFixesSafeIds(Front(id));
      assert id == Front(id) + [Last(id)];
    }
  }

  /** ASCII letters and digits, the hyphen and the underscore, by their codes. */
  predicate NameCode(c: char) {
    var n := c as int; 48 <= n <= 57 || 65 <= n <= 90 || 97 <= n <= 122 || n == 45 || n == 95
  }

  function KeepSafe(c: char): Option<char> { if IsSafeChar(c) then Some(c) else None }

  lemma {:induction false} SanitiseCollects(id: string)
    ensures Sanitise(id) == Collect(id, KeepSafe)
  {
    if id != "" {
      SanitiseCollects(Front(id));
    }
  }

  /** A job's file is named by the characters of its id that are letters, digits, hyphens and underscores, in order; its
      temporary file likewise. */
  lemma FileNames(id: string) returns (kept: string, at: seq<nat>)
    ensures JsonName(id) == kept + ".json" && TmpName(id) == kept + ".tmp"
    ensures Increasing(at, |id|) && |at| == |kept|
    ensures forall k :: 0 <= k < |at| ==> id[at[k]] == kept[k] && NameCode(kept[k])
    ensures forall i :: 0 <= i < |id| && NameCode(id[i]) ==> i in at
  {
    kept := Sanitise(id);
    SanitiseCollects(id);
    at := CollectPicks(id, KeepSafe);
  }

  lemma SuffixEndings(name: string)
    ensures IsTmp(name) ==> name[|name| - 1] == 'p'
    ensures IsJson(name) ==> name[|name| - 1] == 'n'
  {
    if IsTmp(name) {
      assert name[|name| - 1] == name[|name| - 4..][3];
    }
    if IsJson(name) {
      assert name[|name| - 1] == name[|name| - 5..][4];
    }
  }

  /** Distinct safe ids never share a file, and no temporary file is ever a job file. */
  lemma NamesSeparate(a: string, b: string)
    ensures SafeId(a) && SafeId(b) && JsonName(a) == JsonName(b) ==> a == b
    ensures IsJson(JsonName(a)) && IsTmp(TmpName(a))
    ensures !IsTmp(JsonName(a)) && !IsJson(TmpName(a))
    ensures JsonName(a) != TmpName(b)
  {
    SanitiseFixesSafeIds(a);
    SanitiseFixesSafeIds(b);
    var ja, jb, ta, tb := JsonName(a), JsonName(b), TmpName(a), TmpName(b);
    assert ja[|ja| - 5..] == ".json" && ta[|ta| - 4..] == ".tmp" && tb[|tb| - 4..] == ".tmp";
    assert Last(ja) == 'n' && Last(ta) == 'p' && Last(tb) == 'p';
    SuffixEndings(ja);
    SuffixEndings(ta);
    if ja == jb {
      assert Sanitise(a) == ja[..|ja| - 5] == jb[..|jb| - 5] == Sanitise(b);
    }
  }

  /** Without the safe-character assumption two jobs can overwrite each other's file. */
  lemma UnsafeIdsCollide()
    ensures "a/b" != "ab" && JsonName("a/b") == JsonName("ab")
  {
    assert Front("a/b") == "a/" && Front("a/") == "a" && Front("a") == "";
    assert Front("ab") == "a";
  }

  /** The record a `load` of this id would give; torn and missing files give nothing. */
  function Stored(files: Files, id: string): Option<JobRec> {
    var path := JsonName(id);
    if path in files && files[path].Whole? then Some(files[path].job) else None
  }

  /** The directory after each micro-step of `save`: untouched, temporary file torn, temporary file whole, renamed. */
  function SaveStages(files: Files, job: JobRec): (stages: seq<Files>)
    ensures |stages| == 4
  {
    Stages(files, TmpName(job.id), JsonName(job.id), Torn, Whole(job))
  }

  function Stages<K, V>(m: map<K, V>, tmp: K, path: K, torn: V, whole: V): (stages: seq<map<K, V>>)
    ensures |stages| == 4
  {
    [m, m[tmp := torn], m[tmp := whole], (m - {tmp})[path := whole]]
  }

  function SaveFiles(files: Files, job: JobRec, fault: Fault): Files {
    match fault
    case NoFault => SaveStages(files, job)[3]
    case WriteFails => SaveStages(files, job)[1]
    case RenameFails => SaveStages(files, job)[2]
  }

  /** Two directories that may differ only in temporary files: what an interruption can leave behind. */
  ghost predicate SameJobs(a: Files, b: Files) {
    forall name :: !IsTmp(name) ==> (name in a <==> name in b) && (name in a ==> a[name] == b[name])
  }

  /** Only the last stage changes anything but the temporary file, and it changes one entry. */
  lemma StagesTouch<K, V>(m: map<K, V>, tmp: K, path: K, torn: V, whole: V, name: K)
    requires name != tmp
    ensures var st := Stages(m, tmp, path, torn, whole);
      && (forall i :: 0 <= i < 3 ==> (name in st[i] <==> name in m) && (name in m ==> st[i][name] == m[name]))
      && (name in st[3] <==> name == path || name in m)
      && (name in st[3] ==> st[3][name] == if name == path then whole else m[name])
  {
  }

  lemma OwnNames(a: string, b: string)
    requires SafeId(a) && SafeId(b)
    ensures JsonName(b) != TmpName(a) && (JsonName(a) == JsonName(b) <==> a == b)
  {
    NamesSeparate(a, b);
    NamesSeparate(b, a);
  }

  /** Saving one job changes that job's stored record and no other, and a faulty save changes none. */
  lemma StoredAfterSave(files: Files, job: JobRec, fault: Fault, id: string)
    requires SafeId(job.id) && SafeId(id)
    ensures Stored(SaveFiles(files, job, fault), id)
         == if fault.NoFault? && id == job.id then Some(job) else Stored(files, id)
    ensures !fault.NoFault? ==> SameJobs(files, SaveFiles(files, job, fault))
  {
    OwnNames(job.id, id);
    StagesTouch(files, TmpName(job.id), JsonName(job.id), Torn, Whole(job), JsonName(id));
    if fault.WriteFails? {
      SaveIsCrashAtomic(files, job, 1);
    } else if fault.RenameFails? {
      SaveIsCrashAtomic(files, job, 2);
    }
  }

  /** Stopping `save` at any micro-step leaves either the old job files or the new ones, never a torn one. */
  lemma SaveIsCrashAtomic(files: Files, job: JobRec, stage: nat)
    requires stage < 4
    ensures stage < 3 ==> SameJobs(files, SaveStages(files, job)[stage])
    ensures stage == 3 ==> SameJobs(files[JsonName(job.id) := Whole(job)], SaveStages(files, job)[stage])
  {
    NamesSeparate(job.id, job.id);
    var after := SaveStages(files, job)[stage];
    forall name | !IsTmp(name)
      ensures stage < 3 ==> (name in after <==> name in files) && (name in files ==> after[name] == files[name])
      ensures stage == 3 ==> (name in after <==> name == JsonName(job.id) || name in files)
      ensures stage == 3 && name in after ==>
                after[name] == if name == JsonName(job.id) then Whole(job) else files[name]
    {
      StagesTouch(files, TmpName(job.id), JsonName(job.id), Torn, Whole(job), name);
    }
  }

  lemma SameJobsSameStored(a: Files, b: Files, id: string)
    requires SameJobs(a, b)
    ensures Stored(a, id) == Stored(b, id)
  {
    NamesSeparate(id, id);
  }

  /** What `load_all` returns for the given directory listing: whole records in listing order. */
  function LoadAllJobs(files: Files, names: seq<string>): seq<JobRec> {
    if names == [] then []
    else
      var before := LoadAllJobs(files, Front(names));
      var name := Last(names);
      if name in files && files[name].Whole? then before + [files[name].job] else before
  }

  /** `names` is a directory listing: every job file once. */
  ghost predicate IsListing(files: Files, names: seq<string>) {
    && Distinct(names)
    && forall name :: name in names <==> name in files && IsJson(name)
  }

  /** Every readable job file is named after the job it holds; others may be corrupt. */
  ghost predicate WellNamed(files: Files) {
    forall name :: name in files && IsJson(name) && files[name].Whole? ==>
      SafeId(files[name].job.id) && name == JsonName(files[name].job.id)
  }

  /** Every job file is readable and named after the job it holds. */
  ghost predicate FilesOk(files: Files) {
    forall name :: name in files && IsJson(name) ==>
      files[name].Whole? && SafeId(files[name].job.id) && name == JsonName(files[name].job.id)
  }

  lemma SaveKeepsFilesOk(files: Files, job: JobRec, fault: Fault)
    requires FilesOk(files) && SafeId(job.id)
    ensures FilesOk(SaveFiles(files, job, fault))
  {
    NamesSeparate(job.id, job.id);
  }

  lemma SameJobsKeepsFilesOk(a: Files, b: Files)
    requires FilesOk(a) && SameJobs(a, b)
    ensures FilesOk(b)
  {
    forall name | name in b && IsJson(name)
      ensures b[name].Whole? && SafeId(b[name].job.id) && name == JsonName(b[name].job.id)
    {
      SuffixEndings(name);
    }
  }

  lemma {:induction false} LoadAllMembers(files: Files, names: seq<string>, j: JobRec)
    ensures j in LoadAllJobs(files, names) <==>
            exists k :: 0 <= k < |names| && names[k] in files && files[names[k]] == Whole(j)
  {
    if names != [] {
      LoadAllMembers(files, Front(names), j);
      assert names == Front(names) + [Last(names)];
      if j in LoadAllJobs(files, Front(names)) {
        var k :| 0 <= k < |Front(names)| && Front(names)[k] in files && files[Front(names)[k]] == Whole(j);
        assert names[k] in files && files[names[k]] == Whole(j);
      }
      if k :| 0 <= k < |names| && names[k] in files && files[names[k]] == Whole(j) {
        assert k < |Front(names)| ==> Front(names)[k] == names[k];
      }
    }
  }

  lemma LoadedIsStored(files: Files, names: seq<string>, j: JobRec)
    requires WellNamed(files) && IsListing(files, names)
    ensures j in LoadAllJobs(files, names) <==> SafeId(j.id) && Stored(files, j.id) == Some(j)
  {
    LoadAllMembers(files, names, j);
    if j in LoadAllJobs(files, names) {
      var k :| 0 <= k < |names| && names[k] in files && files[names[k]] == Whole(j);
      assert names[k] in names && names[k] == JsonName(j.id);
    }
    if SafeId(j.id) && Stored(files, j.id) == Some(j) {
      NamesSeparate(j.id, j.id);
      assert JsonName(j.id) in names;
      var k :| 0 <= k < |names| && names[k] == JsonName(j.id);
    }
  }

  /** `load_all` returns exactly the jobs that a `load` would find, each once, whatever corrupt files lie among
      them. */
  lemma LoadAllIsStored(files: Files, names: seq<string>)
    requires WellNamed(files) && IsListing(files, names)
    ensures forall j :: j in LoadAllJobs(files, names) <==> SafeId(j.id) && Stored(files, j.id) == Some(j)
    ensures forall a, b :: 0 <= a < b < |LoadAllJobs(files, names)| ==>
              LoadAllJobs(files, names)[a].id != LoadAllJobs(files, names)[b].id
  {
    forall j
      ensures j in LoadAllJobs(files, names) <==> SafeId(j.id) && Stored(files, j.id) == Some(j)
    {
      LoadedIsStored(files, names, j);
    }
    LoadAllDistinct(files, names);
  }

  lemma {:induction false} LoadAllDistinct(files: Files, names: seq<string>)
    requires WellNamed(files) && Distinct(names)
    requires forall name :: name in names ==> name in files && IsJson(name)
    ensures forall a, b :: 0 <= a < b < |LoadAllJobs(files, names)| ==>
              LoadAllJobs(files, names)[a].id != LoadAllJobs(files, names)[b].id
  {
    if names != [] {
      assert forall name :: name in Front(names) ==> name in names;
      LoadAllDistinct(files, Front(names));
      var before := LoadAllJobs(files, Front(names));
      var name := Last(names);
      if name in files && files[name].Whole? {
        forall a | 0 <= a < |before|
          ensures before[a].id != files[name].job.id
        {
          assert before[a] in before;
          LoadAllMembers(files, Front(names), before[a]);
          var k :| 0 <= k < |Front(names)| && Front(names)[k] in files && files[Front(names)[k]] == Whole(before[a]);
          assert names[k] == Front(names)[k] && names[k] in names && name in names;
          assert names[k] != names[|names| - 1];
        }
      }
    }
  }

  class JobStore {
    var files: Files

    constructor ()
      ensures files == map[]
    {
      files := map[];
    }

    /** Write the temporary file, then rename it over the job file. */
    method Save(job: Job, fault: Fault) returns (ok: bool)
      modifies this
      ensures files == SaveFiles(old(files), job.View(), fault)
      ensures ok <==> fault.NoFault?
    {
      var path := JsonName(job.id);
      var tmp := TmpName(job.id);
      ghost var before := files;
      ghost var stages := SaveStages(files, job.View());
      files := files[tmp := Torn];
      assert files == stages[1];
      if fault.WriteFails? {
        return false;
      }
      files := files[tmp := Whole(job.View())];
      assert files == stages[2];
      if fault.RenameFails? {
        return false;
      }
      files := (files - {tmp})[path := files[tmp]];
      assert files == stages[3];
      ok := true;
    }

    method Load(id: string) returns (job: Option<JobRec>)
      ensures job == Stored(files, id)
    {
      var path := JsonName(id);
      if path !in files {
        return None;
      }
      match files[path]
      case Whole(j) => job := Some(j);
      case Torn => job := None;
    }

    /** Visit the listed files in order, skipping the unreadable ones. */
    method LoadAll(names: seq<string>) returns (jobs: seq<JobRec>)
      ensures jobs == LoadAllJobs(files, names)
    {
      jobs := [];
      for k := 0 to |names|
        invariant jobs == LoadAllJobs(files, names[..k])
      {
        assert Front(names[..k + 1]) == names[..k];
        if names[k] in files && files[names[k]].Whole? {
          jobs := jobs + [files[names[k]].job];
        }
      }
      assert names[..|names|] == names;
    }
  }
}
