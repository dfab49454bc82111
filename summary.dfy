/** client/summary.go plotSummary: the summary chart is drawn from the whole
    working directory into a PNG file, which becomes the job's summary chart. */
module Summary {
  import opened Wrappers
  import opened Host
  import opened Stage
  import Jobs
  import Fsc

  /** `workDir/summary.png`. */
  function PngPath(workDir: string): string {
    PathJoin(workDir, "summary.png")
  }

  function Args(workDir: string): seq<string> {
    ["--input", workDir, "--output", PngPath(workDir)]
  }

  /** The summary chart is written inside the directory it is drawn from, and
      not over the FSC chart. */
  lemma PathsApart(workDir: string)
    ensures PngPath(workDir)[..|workDir| + 1] == workDir + "/"
    ensures PngPath(workDir) != Fsc.PngPath(workDir)
  {
    assert |PngPath(workDir)| != |Fsc.PngPath(workDir)|;
  }

  function PlotRun(cfg: Config, workDir: string): Run {
    RunIn(cfg.summaryPath, Args(workDir), workDir)
  }

  /** plotSummary: a failed plot is an error and leaves the job as it was.
      After a successful plot the summary chart is set to the PNG file's
      contents, or left empty with an error when the file is missing. */
  method PlotSummary(host: Machine, job: Jobs.Job, cfg: Config, workDir: string) returns (err: Option<StageError>)
    modifies host, job
    ensures var run := PlotRun(cfg, workDir);
      var outcome := host.tool(run, old(host.files));
      && host.runs == old(host.runs) + [(run, outcome.ok)]
      && host.files == outcome.files
      && if !outcome.ok then
           err == Some(ToolFailed) && job.state == old(job.state)
         else
           && job.state == old(job.state).(summaryChart := ReadOf(outcome.files, PngPath(workDir)))
           && err == if PngPath(workDir) in outcome.files then None else Some(ReadFailed)
  {
    var summaryPng := PathJoin(workDir, "summary.png");
    var ok := host.Exec(RunIn(cfg.summaryPath, ["--input", workDir, "--output", summaryPng], workDir));
    if !ok {
      return Some(ToolFailed);
    }
    var data, read := host.ReadFile(summaryPng);
    job.state := job.state.(summaryChart := data);
    if !read {
      return Some(ReadFailed);
    }
    return None;
  }
}
