/** What the pipeline's guarantee is for: jobs made of its output. */
module PipelineJobs {
  import opened Basics
  import opened JobModel
  import opened Executor
  import opened ExecutorProofs
  import opened ExecutorTheorems
  import Gcode

  /** The pipeline never produces the empty line that would end a job early. */
  lemma ParsedHasNoEmptyLine(raw: string)
    ensures NoEmptyLine(Gcode.Parse(raw))
  {
    Gcode.ParsedLinesAreGood(raw);
  }

  /** A new job without an empty line whose run ends COMPLETED has sent every line. */
  lemma NewJobCompletes(j: JobRec, acts: seq<Act>)
    requires Fresh(j) && j.index == 0 && NoEmptyLine(j.lines) && Run(NewExec(j), acts).job.status.COMPLETED?
    ensures var e := Run(NewExec(j), acts);
      LineNos(e.log.sent) == e.log.oks == Range(0, j.total) && LineTexts(e.log.sent, j.lines)
  {
    SoundCompletion(j, acts);
  }

  /** A job made from any text whose run ends COMPLETED has sent every parsed line, once, in order, with its own text,
      each with a succeeded result, whatever controls arrived. */
  lemma PipelineJobCompletes(id: string, created: int, raw: string, acts: seq<Act>)
    requires Run(NewExec(NewJob(id, created, Gcode.Parse(raw))), acts).job.status.COMPLETED?
    ensures var lines, e := Gcode.Parse(raw), Run(NewExec(NewJob(id, created, Gcode.Parse(raw))), acts);
      && LineNos(e.log.sent) == e.log.oks == Range(0, |lines|)
      && LineTexts(e.log.sent, lines)
  {
    ParsedHasNoEmptyLine(raw);
    NewJobCompletes(NewJob(id, created, Gcode.Parse(raw)), acts);
  }
}
