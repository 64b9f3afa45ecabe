/** What the disk and the history of the wire say about every job, and what one thread's step does to it. */
module JobWorld {
  import opened Basics
  import opened JobModel
  import opened JobStore
  import opened Executor
  import opened ExecutorProofs
  import opened JobSystem

  // ---- The line history of one job, over all restarts ----

  /** The indices of the print lines sent for this job, in order. */
  function LinesOf(wire: seq<Sent>, id: string): seq<nat> {
    if wire == [] then []
    else if Last(wire).id == id && Last(wire).cmd.Line? then LinesOf(Front(wire), id) + [Last(wire).cmd.index]
    else LinesOf(Front(wire), id)
  }

  lemma LinesAfter(wire: seq<Sent>, x: Sent, id: string)
    ensures LinesOf(wire + [x], id)
         == if x.id == id && x.cmd.Line? then LinesOf(wire, id) + [x.cmd.index] else LinesOf(wire, id)
  {
    assert Front(wire + [x]) == wire;
  }

  /** One past the last line sent. */
  function NextNo(lines: seq<nat>): nat {
    if lines == [] then 0 else Last(lines) + 1
  }

  /** Every line is line 0, a repeat of an earlier index, or the successor of the line before it: nothing is skipped. */
  ghost predicate NoSkip(lines: seq<nat>) {
    forall k :: 0 <= k < |lines| ==> lines[k] <= NextNo(lines[..k])
  }

  ghost predicate AtMost(lines: seq<nat>, n: int) {
    forall k :: 0 <= k < |lines| ==> lines[k] <= n
  }

  lemma NoSkipExtends(lines: seq<nat>, n: nat)
    requires NoSkip(lines) && n <= NextNo(lines)
    ensures NoSkip(lines + [n])
  {
    forall k | 0 <= k < |lines + [n]|
      ensures (lines + [n])[k] <= NextNo((lines + [n])[..k])
    {
      assert (lines + [n])[..k] == lines[..k];
      if k == |lines| {
        assert lines[..k] == lines;
      }
    }
  }

  // ---- Facts about one job record ----

  /** The job's index is explained by the history: all earlier lines were sent with the job's text and succeeded, and
      none beyond was skipped to. */
  ghost predicate Covered(h: History, j: JobRec) {
    && j.index <= NextNo(LinesOf(h.wire, j.id))
    && forall k: nat :: k < j.index ==>
         k < |j.lines| && Ack(j.id, k) in h.oks && Sent(j.id, Line(k, j.lines[k])) in h.wire
  }

  /** The disk has this job, with no larger index, and with the same G-code unless it has none. */
  ghost predicate Backed(files: Files, j: JobRec) {
    && Stored(files, j.id).Some?
    && var r := Stored(files, j.id).value;
       (r.lines == j.lines || r.lines == []) && r.created == j.created && r.index <= j.index
  }

  /** With every save successful, a stored job is at most one line behind what was sent, and each restart
      repeated at most one line. */
  ghost predicate Tight(h: History, j: JobRec) {
    var lines := LinesOf(h.wire, j.id);
    AtMost(lines, j.index) && |lines| <= NextNo(lines) + h.crashes
  }

  ghost predicate RecordOk(h: History, id: string, r: JobRec) {
    && r.id == id && r.WellFormed() && Covered(h, r)
    && (r.status.COMPLETED? ==> NothingLeft(r))
    && (h.saveFaults == 0 ==> Tight(h, r))
  }

  /** Lines go out for stored jobs only. */
  ghost predicate WireLineOk(files: Files, x: Sent) {
    x.cmd.Line? ==> SafeId(x.id) && Stored(files, x.id).Some?
  }

  ghost predicate StoredOk(h: History, files: Files) {
    forall id :: SafeId(id) && Stored(files, id).Some? ==> RecordOk(h, id, Stored(files, id).value)
  }

  ghost predicate WireOk(h: History, files: Files) {
    && (forall k :: 0 <= k < |h.wire| ==> WireLineOk(files, h.wire[k]))
    && (forall id :: NoSkip(LinesOf(h.wire, id)))
  }

  /** A job cancelled while queued stays CANCELLED on disk. */
  ghost predicate DeadOk(h: History, files: Files) {
    forall id :: id in h.dead ==> SafeId(id) && Stored(files, id).Some? && Stored(files, id).value.status.CANCELLED?
  }

  ghost predicate World(h: History, files: Files) {
    FilesOk(files) && StoredOk(h, files) && WireOk(h, files) && DeadOk(h, files)
  }

  // ---- Facts about a live job ----

  ghost predicate Known(h: History, files: Files, j: JobRec) {
    SafeId(j.id) && j.id !in h.dead && Backed(files, j) && Covered(h, j)
  }

  ghost predicate QueuedOk(h: History, files: Files, j: JobRec) {
    && Fresh(j) && Known(h, files, j)
    && (h.saveFaults == 0 ==>
          && Stored(files, j.id).value.index == j.index
          && AtMost(LinesOf(h.wire, j.id), j.index) && |LinesOf(h.wire, j.id)| <= j.index + h.crashes)
  }

  /** Whatever the thread has written to the job it has saved: it is running and not between a write and its save, or
      its final save is over. */
  predicate Level(e: Exec) {
    match e.pc
    case Testing(_) => true
    case Printing(at) => !at.PersistLine?
    case Pausing(at) => !at.PersistPause?
    case Resuming(at) => !at.PersistResume?
    case AfterFail => true
    case AfterCancel => true
    case Completing(at) => at.Decide?
    case Closing(at) => at.Fire?
    case Ended => e.log.fired == 1
    case _ => false
  }

  ghost predicate ThreadCount(h: History, files: Files, e: Exec) {
    var lines := LinesOf(h.wire, e.job.id);
    var r := Stored(files, e.job.id);
    && AtMost(lines, e.job.index)
    && |lines| <= e.log.start + |LineNos(e.log.sent)| + h.crashes
    && r.Some?
    && (if e.pc == Printing(PersistLine)
        then AtMost(lines, e.job.index - 1) && e.job.index <= r.value.index + 1
        else r.value.index == e.job.index)
  }

  ghost predicate InFlight(h: History, j: JobRec) {
    j.index < |j.lines| && Sent(j.id, Line(j.index, j.lines[j.index])) in h.wire
  }

  ghost predicate ThreadRuns(h: History, files: Files, e: Exec) {
    && ExecInv(e) && Known(h, files, e.job)
    && e.log.start + |LineNos(e.log.sent)| <= NextNo(LinesOf(h.wire, e.job.id))
    && (e.pc == Printing(Advance) ==> Ack(e.job.id, e.job.index) in h.oks)
    && (e.pc == Printing(LineWait) || e.pc == Printing(Advance) ==> InFlight(h, e.job))
    && (h.saveFaults == 0 ==> ThreadCount(h, files, e))
  }

  /** The disk has the job as it is. */
  ghost predicate OnDisk(files: Files, j: JobRec) { Stored(files, j.id) == Some(j) }

  ghost predicate ThreadOk(h: History, files: Files, e: Exec) {
    ThreadRuns(h, files, e) && (h.saveFaults == 0 && Level(e) ==> OnDisk(files, e.job))
  }

  // ---- Saving ----

  /** Saving a job whose record the history explains keeps the world. */
  lemma SaveKeepsWorld(h: History, files: Files, j: JobRec, fault: Fault)
    requires World(h, files) && SafeId(j.id) && Backed(files, j)
    requires RecordOk(h, j.id, j) && (j.id in h.dead ==> j.status.CANCELLED?)
    ensures World(CountFault(h, true, fault), SaveFiles(files, j, fault))
    ensures Backed(SaveFiles(files, j, fault), j)
    ensures fault.NoFault? ==> Stored(SaveFiles(files, j, fault), j.id) == Some(j)
  {
    var files' := SaveFiles(files, j, fault);
    var h' := CountFault(h, true, fault);
    SaveKeepsFilesOk(files, j, fault);
    forall id | SafeId(id)
      ensures Stored(files', id) == if fault.NoFault? && id == j.id then Some(j) else Stored(files, id)
    {
      StoredAfterSave(files, j, fault, id);
    }
    forall k | 0 <= k < |h'.wire|
      ensures WireLineOk(files', h'.wire[k])
    {
      assert WireLineOk(files, h.wire[k]);
    }
    assert StoredOk(h', files');
  }

  /** A thread's job may always be saved: by itself, or by a control call that changed its status. */
  lemma ThreadMaySave(h: History, files: Files, e: Exec)
    requires World(h, files) && ThreadRuns(h, files, e)
    ensures RecordOk(h, e.job.id, e.job)
  {
  }

  /** After a successful save the thread is again level with the disk; after a failed one nothing is claimed. */
  lemma SaveKeepsThread(h: History, files: Files, e: Exec, fault: Fault)
    requires World(h, files) && ThreadRuns(h, files, e)
    ensures World(CountFault(h, true, fault), SaveFiles(files, e.job, fault))
    ensures ThreadOk(CountFault(h, true, fault), SaveFiles(files, e.job, fault), e)
    ensures fault.NoFault? ==> Stored(SaveFiles(files, e.job, fault), e.job.id) == Some(e.job)
  {
    ThreadMaySave(h, files, e);
    SaveKeepsWorld(h, files, e.job, fault);
  }

  // ---- Own steps ----

  /** A step that saves nothing leads to such a point only from such a point, and leaves the job alone. */
  lemma LevelBefore(e: Exec, reply: Reply)
    requires ExecInv(e) && Level(Step(e, reply)) && !Saves(e.pc)
    ensures Level(e) && Step(e, reply).job == e.job
  {
  }

  /** Sending a command. */
  lemma EmitKeeps(h: History, files: Files, e: Exec, e': Exec)
    requires World(h, files) && ThreadOk(h, files, e) && Emits(e).Some?
    requires ExecInv(e') && HistoryStep(e, Emits(e), false, e')
    requires Emits(e).value.Line? <==> e'.pc == Printing(LineWait)
    requires Emits(e).value.Line? ==>
               e.job.index < |e.job.lines| && Emits(e).value == Line(e.job.index, e.job.lines[e.job.index])
    requires e'.pc != Printing(Advance) && e'.pc != Printing(PersistLine)
    requires Level(e') ==> Level(e) && e'.job == e.job
    ensures World(h.(wire := h.wire + [Sent(e.job.id, Emits(e).value)]), files)
    ensures ThreadOk(h.(wire := h.wire + [Sent(e.job.id, Emits(e).value)]), files, e')
  {
    var x := Sent(e.job.id, Emits(e).value);
    WireExtends(h, files, x);
    LinesAfter(h.wire, x, e.job.id);
    LineNosAfter(e.log.sent, Emits(e).value);
  }

  /** The entry x may be put on the wire: a line is the stored job's next one, or an earlier one. */
  ghost predicate MaySend(h: History, files: Files, x: Sent) {
    && WireLineOk(files, x)
    && (x.cmd.Line? ==>
          && Stored(files, x.id).value.index <= x.cmd.index <= NextNo(LinesOf(h.wire, x.id))
          && (h.saveFaults == 0 ==>
                Stored(files, x.id).value.index == x.cmd.index && |LinesOf(h.wire, x.id)| <= x.cmd.index + h.crashes))
  }

  lemma WireKeepsRecord(h: History, files: Files, x: Sent, id: string)
    requires SafeId(id) && Stored(files, id).Some? && RecordOk(h, id, Stored(files, id).value) && MaySend(h, files, x)
    ensures RecordOk(h.(wire := h.wire + [x]), id, Stored(files, id).value)
  {
    LinesAfter(h.wire, x, id);
  }

  lemma WireKeepsNoSkip(h: History, files: Files, x: Sent, id: string)
    requires NoSkip(LinesOf(h.wire, id)) && MaySend(h, files, x)
    ensures NoSkip(LinesOf(h.wire + [x], id))
  {
    LinesAfter(h.wire, x, id);
    if x.id == id && x.cmd.Line? {
      NoSkipExtends(LinesOf(h.wire, id), x.cmd.index);
    }
  }

  lemma WireExtends(h: History, files: Files, x: Sent)
    requires World(h, files) && MaySend(h, files, x)
    ensures World(h.(wire := h.wire + [x]), files)
  {
    var h' := h.(wire := h.wire + [x]);
    forall id
      ensures NoSkip(LinesOf(h'.wire, id))
    {
      assert NoSkip(LinesOf(h.wire, id));
      WireKeepsNoSkip(h, files, x, id);
    }
    forall id | SafeId(id) && Stored(files, id).Some?
      ensures RecordOk(h', id, Stored(files, id).value)
    {
      WireKeepsRecord(h, files, x, id);
    }
    assert StoredOk(h', files);
    forall k | 0 <= k < |h'.wire|
      ensures WireLineOk(files, h'.wire[k])
    {
      assert k < |h.wire| ==> WireLineOk(files, h.wire[k]);
    }
  }

  /** A line acknowledged by the printer. */
  lemma AckKeeps(h: History, files: Files, e: Exec, e': Exec)
    requires World(h, files) && ThreadOk(h, files, e) && e.pc == Printing(LineWait)
    requires ExecInv(e') && HistoryStep(e, None, true, e') && e'.pc == Printing(Advance)
    requires Level(e') ==> Level(e) && e'.job == e.job
    ensures World(h.(oks := h.oks + [Ack(e.job.id, e.job.index)]), files)
    ensures ThreadOk(h.(oks := h.oks + [Ack(e.job.id, e.job.index)]), files, e')
  {
    OksExtend(h, files, Ack(e.job.id, e.job.index));
  }

  lemma OksExtend(h: History, files: Files, a: Ack)
    requires World(h, files)
    ensures World(h.(oks := h.oks + [a]), files)
  {
    var h' := h.(oks := h.oks + [a]);
    forall id | SafeId(id) && Stored(files, id).Some?
      ensures RecordOk(h', id, Stored(files, id).value)
    {
      assert RecordOk(h, id, Stored(files, id).value);
    }
    assert StoredOk(h', files);
    assert forall id :: NoSkip(LinesOf(h'.wire, id)) by {
      assert WireOk(h, files);
    }
  }

  /** Any other step: nothing sent, acknowledged or saved. */
  lemma QuietRuns(h: History, files: Files, e: Exec, e': Exec)
    requires ThreadRuns(h, files, e)
    requires ExecInv(e') && HistoryStep(e, None, false, e')
    requires e'.pc == Printing(PersistLine) <==> e.pc == Printing(Advance)
    requires e.pc != Printing(PersistLine) && !InLine(e'.pc)
    ensures ThreadRuns(h, files, e')
  {
  }

  lemma QuietKeeps(h: History, files: Files, e: Exec, e': Exec)
    requires World(h, files) && ThreadOk(h, files, e)
    requires ExecInv(e') && HistoryStep(e, None, false, e')
    requires e'.pc == Printing(PersistLine) <==> e.pc == Printing(Advance)
    requires e.pc != Printing(PersistLine) && !InLine(e'.pc)
    requires Level(e') ==> Level(e) && e'.job == e.job
    ensures ThreadOk(h, files, e')
  {
    QuietRuns(h, files, e, e');
  }

  lemma SaveStepKeeps(h: History, files: Files, e: Exec, e': Exec, fault: Fault)
    requires World(h, files) && ThreadOk(h, files, e) && Saves(e.pc)
    requires ExecInv(e') && HistoryStep(e, None, false, e') && e'.job == e.job
    requires !InLine(e'.pc) && e'.pc != Printing(PersistLine)
    ensures World(CountFault(h, true, fault), SaveFiles(files, e.job, fault))
    ensures ThreadOk(CountFault(h, true, fault), SaveFiles(files, e.job, fault), e')
  {
    SaveKeepsThread(h, files, e, fault);
    SavedKeeps(CountFault(h, true, fault), SaveFiles(files, e.job, fault), e, e');
  }

  lemma SavePoints(e: Exec, reply: Reply)
    requires Saves(e.pc)
    ensures !InLine(Step(e, reply).pc) && Step(e, reply).pc != Printing(PersistLine) && !LineOk(e, reply)
  {
  }

  /** A step that saves nothing. */
  lemma OtherStepKeeps(h: History, files: Files, e: Exec, reply: Reply, fault: Fault)
    requires World(h, files) && ThreadOk(h, files, e) && !Saves(e.pc)
    ensures World(Record(h, e, reply, fault), files)
    ensures ThreadOk(Record(h, e, reply, fault), files, Step(e, reply))
  {
    var e' := Step(e, reply);
    StepKeepsInv(e, reply);
    StepPoints(e, reply);
    if Level(e') {
      LevelBefore(e, reply);
    }
    if Emits(e).Some? {
      EmitKeeps(h, files, e, e');
    } else if LineOk(e, reply) {
      AckKeeps(h, files, e, e');
    } else {
      QuietKeeps(h, files, e, e');
    }
  }

  /** One own step of a live thread keeps the world and the thread. */
  lemma OwnStepKeeps(h: History, files: Files, e: Exec, reply: Reply, fault: Fault)
    requires World(h, files) && ThreadOk(h, files, e)
    ensures World(Record(h, e, reply, fault), FilesAfter(files, e, fault))
    ensures ThreadOk(Record(h, e, reply, fault), FilesAfter(files, e, fault), Step(e, reply))
  {
    if Saves(e.pc) {
      StepKeepsInv(e, reply);
      StepPoints(e, reply);
      SavePoints(e, reply);
      SaveStepKeeps(h, files, e, Step(e, reply), fault);
      RecordOfSave(h, e, reply, fault);
    } else {
      OtherStepKeeps(h, files, e, reply, fault);
    }
  }

  lemma RecordOfSave(h: History, e: Exec, reply: Reply, fault: Fault)
    requires Saves(e.pc)
    ensures Record(h, e, reply, fault) == CountFault(h, true, fault)
  {
  }

  /** The step after a save leaves the saving point; with saves going well the disk is level by then. */
  lemma SavedKeeps(h: History, files: Files, e: Exec, e': Exec)
    requires World(h, files) && ThreadOk(h, files, e) && Saves(e.pc)
    requires h.saveFaults == 0 ==> Stored(files, e.job.id) == Some(e.job)
    requires ExecInv(e') && HistoryStep(e, None, false, e') && e'.job == e.job
    requires !InLine(e'.pc) && e'.pc != Printing(PersistLine)
    ensures ThreadOk(h, files, e')
  {
  }
}
