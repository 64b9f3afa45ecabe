/** The print job (src/jobs/job_model.py): its record as a value, and the mutable object. */
module JobModel {
  import opened Basics

  datatype Status = QUEUED | LOADING | PRINTING | PAUSED | COMPLETED | FAILED | CANCELLED

  /** What `next_line` yields; indexing past the list raises in the source. */
  datatype NextLine = NextText(text: string) | NoLine | IndexError

  /** The persisted fields that decide execution. Timestamps other than the creation key are not modelled. */
  datatype JobRec = JobRec(
    id: string,
    created: int,
    lines: seq<string>,
    total: nat,
    status: Status,
    index: nat,
    reason: Option<string>)
  {
    predicate IsTerminal() {
      status.COMPLETED? || status.FAILED? || status.CANCELLED?
    }

    predicate IsResumable() {
      status.PRINTING? || status.PAUSED? || status.QUEUED? || status.LOADING?
    }

    /** `total_lines` is the length of the list it was computed from. */
    predicate WellFormed() {
      total == |lines| && index <= total
    }

    function Next(): NextLine {
      if index < total then
        if index < |lines| then NextText(lines[index]) else IndexError
      else NoLine
    }

    function MarkPrinting(): JobRec { this.(status := PRINTING) }
    function MarkPaused(): JobRec { this.(status := PAUSED) }
    function MarkCompleted(): JobRec { this.(status := COMPLETED) }
    function MarkCancelled(): JobRec { this.(status := CANCELLED) }
    function MarkFailed(why: string): JobRec { this.(status := FAILED, reason := Some(why)) }
    function Requeued(): JobRec { this.(status := QUEUED) }
    function Advanced(): JobRec { this.(index := index + 1) }
  }

  function NewJob(id: string, created: int, lines: seq<string>): JobRec {
    JobRec(id, created, lines, |lines|, QUEUED, 0, None)
  }

  predicate NoEmptyLine(lines: seq<string>) {
    forall k :: 0 <= k < |lines| ==> lines[k] != ""
  }

  /** Terminal and resumable split the status space: a persisted job is never both finished and restartable. */
  lemma TerminalXorResumable(j: JobRec)
    ensures j.IsTerminal() <==> !j.IsResumable()
    ensures j.IsTerminal() <==> j.status in {COMPLETED, FAILED, CANCELLED}
    ensures j.IsResumable() <==> j.status in {PRINTING, PAUSED, QUEUED, LOADING}
  {
  }

  /** The object shared by the manager and the executor thread. */
  class Job {
    const id: string
    const created: int
    const lines: seq<string>
    const total: nat
    var status: Status
    var currentLineIndex: nat
    var failureReason: Option<string>

    function View(): JobRec
      reads this
    {
      JobRec(id, created, lines, total, status, currentLineIndex, failureReason)
    }

    constructor Create(id: string, created: int, lines: seq<string>)
      ensures View() == NewJob(id, created, lines)
    {
      this.id, this.created, this.lines, this.total := id, created, lines, |lines|;
      status, currentLineIndex, failureReason := QUEUED, 0, None;
    }

    constructor FromRecord(r: JobRec)
      ensures View() == r
    {
      id, created, lines, total := r.id, r.created, r.lines, r.total;
      status, currentLineIndex, failureReason := r.status, r.index, r.reason;
    }

    method MarkPrinting()
      modifies this
      ensures View() == old(View()).MarkPrinting()
    {
      status := PRINTING;
    }

    method MarkPaused()
      modifies this
      ensures View() == old(View()).MarkPaused()
    {
      status := PAUSED;
    }

    method MarkCompleted()
      modifies this
      ensures View() == old(View()).MarkCompleted()
    {
      status := COMPLETED;
    }

    method MarkFailed(why: string)
      modifies this
      ensures View() == old(View()).MarkFailed(why)
    {
      status := FAILED;
      failureReason := Some(why);
    }

    method MarkCancelled()
      modifies this
      ensures View() == old(View()).MarkCancelled()
    {
      status := CANCELLED;
    }

    method Requeue()
      modifies this
      ensures View() == old(View()).Requeued()
    {
      status := QUEUED;
    }

    method Advance()
      modifies this
      ensures View() == old(View()).Advanced()
    {
      currentLineIndex := currentLineIndex + 1;
    }
  }
}
