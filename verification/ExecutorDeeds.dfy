/** A run of the executor together with the job files: what its thread and the control calls do, one after the other. */
module ExecutorDeeds {
  import opened Basics
  import opened JobModel
  import opened JobStore
  import opened Executor
  import opened JobSystem

  /** A step or a control call, with the way its save goes. */
  datatype Deed = Deed(act: Act, fault: Fault)

  datatype Stage = Stage(exec: Exec, files: Files)

  /** Whether a control call saves. */
  predicate ControlSaves(e: Exec, a: Act) {
    (a.ReqPause? && PauseSaves(e)) || (a.ReqResume? && ResumeSaves(e)) || (a.ReqCancel? && CancelSaves(e))
  }

  function FilesAfterDeed(st: Stage, d: Deed): Files {
    if d.act.Own? then FilesAfter(st.files, st.exec, d.fault)
    else if ControlSaves(st.exec, d.act) then SaveFiles(st.files, Apply(st.exec, d.act).job, d.fault)
    else st.files
  }

  function Do(st: Stage, d: Deed): Stage { Stage(Apply(st.exec, d.act), FilesAfterDeed(st, d)) }

  function DoAll(st: Stage, deeds: seq<Deed>): Stage {
    if deeds == [] then st else Do(DoAll(st, Front(deeds)), Last(deeds))
  }

  lemma DoOneMore(st: Stage, deeds: seq<Deed>, d: Deed)
    ensures DoAll(st, deeds + [d]) == Do(DoAll(st, deeds), d)
  {
    assert Front(deeds + [d]) == deeds;
  }

  function ActsOf(deeds: seq<Deed>): seq<Act> {
    if deeds == [] then [] else ActsOf(Front(deeds)) + [Last(deeds).act]
  }

  lemma {:induction false} RunLast(e: Exec, acts: seq<Act>, a: Act)
    ensures Run(e, acts + [a]) == Apply(Run(e, acts), a)
    decreases |acts|
  {
    if acts == [] {
      assert acts + [a] == [a] && [a][1..] == [];
    } else {
      RunLast(Apply(e, acts[0]), acts[1..], a);
      assert (acts + [a])[1..] == acts[1..] + [a];
    }
  }

  /** Apart from the files it is the run of the machine. */
  lemma {:induction false} DoAllIsRun(st: Stage, deeds: seq<Deed>)
    ensures DoAll(st, deeds).exec == Run(st.exec, ActsOf(deeds))
  {
    if deeds != [] {
      DoAllIsRun(st, Front(deeds));
      RunLast(st.exec, ActsOf(Front(deeds)), Last(deeds).act);
    }
  }

  // ---- Schedules ----

  /** Before one step of the thread: the control calls that come in, how a send comes back, how a save goes. */
  datatype Moment = Moment(controls: seq<Deed>, reply: Reply, fault: Fault)

  /** Nobody calls, the send succeeds, the save works. */
  function Quiet(): Moment { Moment([], Ok, NoFault) }

  function DeedsOf(moments: seq<Moment>): seq<Deed> {
    if moments == [] then []
    else DeedsOf(Front(moments)) + Last(moments).controls + [Deed(Own(Last(moments).reply), Last(moments).fault)]
  }

  /** The moments are those of the schedule in order, and quiet ones once it is used up. */
  ghost predicate Follows(moments: seq<Moment>, schedule: seq<Moment>) {
    if |moments| <= |schedule| then moments <= schedule
    else schedule <= moments && forall k :: |schedule| <= k < |moments| ==> moments[k] == Quiet()
  }
}
