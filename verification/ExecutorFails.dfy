/** What a fail of a job does, and why a failed job has the reason it has (src/jobs/job_executor.py). */
module ExecutorFails {
  import opened Basics
  import opened Text
  import opened JobModel
  import opened Executor
  import opened ExecutorDeeds
  import opened ExecutorProofs
  import opened ExecutorTheorems
  import opened ExecutorEnds

  // ---- Every fail requests a stop ----

  /** A fail, at any point and whatever comes after it, bounds the rest of the run by five commands and 23 own
      steps; it writes nothing itself. */
  lemma FailIsBounded(e: Exec, reason: string, acts: seq<Act>)
    requires ExecInv(e)
    ensures var c := FailReq(e, reason);
      && c.job == e.job && c.log == e.log && c.pc == e.pc
      && |Run(c, acts).log.sent| <= |e.log.sent| + 5
      && (OwnSteps(acts) >= 23 ==> Run(c, acts).pc.Ended?)
  {
    var c := FailReq(e, reason);
    ApplyKeepsInv(e, ReqFail(reason));
    var decided, stops := BoundedStop(c, acts);
    RankBound(c);
  }

  // ---- When the job is failed for that reason ----

  /** Failed with this reason, called back, and stopped in full. */
  ghost predicate FailedBy(e: Exec, reason: string) {
    && e.job.status.FAILED? && e.job.reason == Some(if reason == "" then "Job failed" else reason)
    && e.log.fired == 1 && HasStop(e)
  }

  /** Asked to fail for this reason, with nothing else asked for. */
  predicate JustFailed(e: Exec, reason: string) {
    e.flags.fail && e.flags.failReason == Some(reason) && !e.flags.cancel && !e.flags.pause
  }

  predicate NextIsEmpty(j: JobRec) { j.index < |j.lines| && j.lines[j.index] == "" }

  /** On the way to the next look at the fail event, in the stop it calls for, or past it: not with a line in flight or
      about to go out, not past the completion decision, and not in the close of a run that ends for another reason. */
  ghost predicate FailHeard(e: Exec, reason: string) {
    match e.pc
    case Starting(_) => true
    case Testing(at) => at.Loop? || at.TestFail? || NextIsEmpty(e.job)
    case Printing(at) => !at.LineWait?
    case Pausing(_) => true
    case Resuming(_) => true
    case AfterFail => true
    case AfterCancel => true
    case FailJob => true
    case Stopping(_, cause) => cause.ByFail?
    case Completing(at) => at.Decide?
    case Closing(MarkFinal(cause)) => cause.ByFail?
    case Closing(_) => FailedBy(e.(log := e.log.(fired := 1)), reason)
    case Ended => FailedBy(e, reason)
  }

  lemma FailedKept(e: Exec, reason: string, reply: Reply)
    requires ExecInv(e) && JustFailed(e, reason)
    ensures JustFailed(Step(e, reply), reason) && ExecInv(Step(e, reply))
  {
    StepKeepsInv(e, reply);
    StepKeepsFlags(e, Own(reply));
  }

  lemma FailHeardStep(e: Exec, reason: string, reply: Reply)
    requires ExecInv(e) && JustFailed(e, reason) && FailHeard(e, reason)
    ensures FailHeard(Step(e, reply), reason)
  {
  }

  lemma {:induction false} FailHeardRun(e: Exec, reason: string, acts: seq<Act>)
    requires ExecInv(e) && JustFailed(e, reason) && FailHeard(e, reason) && OwnOnly(acts)
    ensures FailHeard(Run(e, acts), reason)
    decreases |acts|
  {
    if acts != [] {
      assert acts[0].Own?;
      FailedKept(e, reason, acts[0].reply);
      FailHeardStep(e, reason, acts[0].reply);
      FailHeardRun(Step(e, acts[0].reply), reason, acts[1..]);
    }
  }

  lemma FailUnheardStep(e: Exec, reason: string)
    requires ExecInv(e) && JustFailed(e, reason) && !FailHeard(e, reason) && !e.pc.Ended?
    ensures !FailHeard(Step(e, Refused("")), reason) && Rank(Step(e, Refused(""))) < Rank(e)
  {
    StopStepProgress(e, Refused(""));
  }

  lemma {:induction false} FailUnheardRun(e: Exec, reason: string) returns (acts: seq<Act>)
    requires ExecInv(e) && JustFailed(e, reason) && !FailHeard(e, reason)
    ensures OwnOnly(acts) && Run(e, acts).pc.Ended? && !FailedBy(Run(e, acts), reason)
    decreases Rank(e)
  {
    if e.pc.Ended? {
      return [];
    }
    FailUnheardStep(e, reason);
    FailedKept(e, reason, Refused(""));
    var rest := FailUnheardRun(Step(e, Refused("")), reason);
    acts := [Own(Refused(""))] + rest;
    RunFirst(e, Own(Refused("")), rest);
  }

  /** Every run of an uncancelled job's thread after a fail ends with the job FAILED for that reason, the callback made
      once and the whole safe stop sent, if and only if the fail came at a point of FailHeard. */
  lemma FailEndsIff(e: Exec, reason: string)
    requires ExecInv(e) && !e.flags.cancel
    ensures var c := FailReq(e, reason);
      (forall acts :: OwnOnly(acts) && Run(c, acts).pc.Ended? ==> FailedBy(Run(c, acts), reason))
      <==> FailHeard(c, reason)
  {
    var c := FailReq(e, reason);
    ApplyKeepsInv(e, ReqFail(reason));
    assert JustFailed(c, reason);
    if FailHeard(c, reason) {
      forall acts | OwnOnly(acts) && Run(c, acts).pc.Ended?
        ensures FailedBy(Run(c, acts), reason)
      {
        FailHeardRun(c, reason, acts);
      }
    } else {
      var acts := FailUnheardRun(c, reason);
      assert OwnOnly(acts) && Run(c, acts).pc.Ended?;
    }
  }

  // ---- Why a job has failed ----

  /** The k-th thing that happened in the run is what the job has failed for: a call of fail with its reason, or the
      answer to the line in flight, with the line and the status it came back with, or the message of what it raised. */
  ghost predicate Excuse(j: JobRec, acts: seq<Act>, k: nat, why: string) {
    && k < |acts|
    && var e := Run(NewExec(j), acts[..k]);
       match acts[k]
       case ReqFail(reason) => why == if reason == "" then "Job failed" else reason
       case Own(Refused(name)) =>
         && e.pc == Printing(LineWait) && e.job.index < |j.lines|
         && why == "Rejected " + Repr(j.lines[e.job.index]) + ": " + name
       case Own(Raised(message)) => e.pc == Printing(LineWait) && why == message
       case _ => false
  }

  ghost predicate Excused(j: JobRec, acts: seq<Act>, why: string) { exists k: nat :: Excuse(j, acts, k, why) }

  lemma ExcuseStays(j: JobRec, acts: seq<Act>, a: Act, why: string)
    requires Excused(j, acts, why)
    ensures Excused(j, acts + [a], why)
  {
    var k: nat :| Excuse(j, acts, k, why);
    assert (acts + [a])[..k] == acts[..k];
    assert Excuse(j, acts + [a], k, why);
  }

  /** The thread is going to fail the job for a call of fail. */
  predicate FailAhead(e: Exec) {
    || e.flags.fail || e.pc.FailJob? || (e.pc.Stopping? && e.pc.cause.ByFail?)
    || e.pc == Closing(MarkFinal(ByFail))
  }

  ghost predicate Reasons(j: JobRec, acts: seq<Act>, e: Exec) {
    && (e.job.status.FAILED? ==> e.job.reason.Some? && Excused(j, acts, e.job.reason.value))
    && (e.pc.Closing? && e.pc.c.MarkFinal? && e.pc.c.cause.ByLine? ==> Excused(j, acts, e.pc.c.cause.why))
    && (e.flags.failReason.Some? ==> Excused(j, acts, FailText(e.flags.failReason)))
    && (FailAhead(e) ==> e.flags.failReason.Some?)
  }

  lemma ReasonsStay(j: JobRec, acts: seq<Act>, a: Act, e: Exec)
    requires Reasons(j, acts, e)
    ensures Reasons(j, acts + [a], e)
  {
    if e.job.status.FAILED? {
      ExcuseStays(j, acts, a, e.job.reason.value);
    }
    if e.pc.Closing? && e.pc.c.MarkFinal? && e.pc.c.cause.ByLine? {
      ExcuseStays(j, acts, a, e.pc.c.cause.why);
    }
    if e.flags.failReason.Some? {
      ExcuseStays(j, acts, a, FailText(e.flags.failReason));
    }
  }

  /** Steps and calls that give no new reason. */
  lemma OldReasons(j: JobRec, acts: seq<Act>, e: Exec, a: Act)
    requires ExecInv(e) && Reasons(j, acts, e) && !a.ReqFail?
    requires a.Own? && e.pc == Printing(LineWait) ==> a.reply.Ok?
    ensures Reasons(j, acts, Apply(e, a))
  {
  }

  lemma NewReason(j: JobRec, acts: seq<Act>, a: Act)
    requires var e := Run(NewExec(j), acts);
      ExecInv(e) && Reasons(j, acts + [a], e) && e.job.lines == j.lines
    requires a.ReqFail? || (a.Own? && Run(NewExec(j), acts).pc == Printing(LineWait) && !a.reply.Ok?)
    ensures Reasons(j, acts + [a], Apply(Run(NewExec(j), acts), a))
  {
    var e := Run(NewExec(j), acts);
    var why := if a.ReqFail? then FailText(Some(a.reason))
               else if a.reply.Raised? then a.reply.message
               else RejectionReason(j.lines[e.job.index], a.reply.statusName);
    AppendedAt(acts, a);
    assert (acts + [a])[..|acts|] == acts;
    assert Excuse(j, acts + [a], |acts|, why);
  }

  lemma {:induction false} ReasonsKept(j: JobRec, acts: seq<Act>)
    requires Fresh(j)
    ensures Reasons(j, acts, Run(NewExec(j), acts)) && ExecInv(Run(NewExec(j), acts))
    decreases |acts|
  {
    NewExecInv(j);
    RunKeepsInv(NewExec(j), acts);
    if acts != [] {
      var before, a := Front(acts), Last(acts);
      FrontAndLast(acts);
      ReasonsKept(j, before);
      RunLast(NewExec(j), before, a);
      RunKeepsJob(NewExec(j), before);
      var e := Run(NewExec(j), before);
      ReasonsStay(j, before, a, e);
      if a.ReqFail? || (a.Own? && e.pc == Printing(LineWait) && !a.reply.Ok?) {
        NewReason(j, before, a);
      } else {
        OldReasons(j, acts, e, a);
      }
    }
  }

  /** In every run of a job, a FAILED job has as its reason that of a call of fail in the run, or what the line in
      flight was answered. */
  lemma FailedHasReason(j: JobRec, acts: seq<Act>) returns (k: nat)
    requires Fresh(j) && Run(NewExec(j), acts).job.status.FAILED?
    ensures var e := Run(NewExec(j), acts); e.job.reason.Some? && Excuse(j, acts, k, e.job.reason.value)
  {
    ReasonsKept(j, acts);
    k :| Excuse(j, acts, k, Run(NewExec(j), acts).job.reason.value);
  }
}
