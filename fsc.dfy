/** client/fsc.go plotFSC: the Fourier shell correlation chart of a job is
    drawn from the correlation data into a PNG file, which becomes the job's
    FSC chart. */
module Fsc {
  import opened Wrappers
  import opened Host
  import opened Stage
  import Jobs

  /** `workDir/output_<ID>/spt_avg_01/fsc_0.txt`. */
  function DataPath(workDir: string, id: int): string {
    PathJoin(PathJoin(PathJoin(workDir, OutputName(id)), "spt_avg_01"), "fsc_0.txt")
  }

  /** `workDir/fsc.png`. */
  function PngPath(workDir: string): string {
    PathJoin(workDir, "fsc.png")
  }

  function Args(workDir: string, id: int): seq<string> {
    ["--input", DataPath(workDir, id), "--output", PngPath(workDir)]
  }

  /** The chart is written inside the working directory, and not over the data
      it is drawn from. */
  lemma PathsApart(workDir: string, id: int)
    ensures PngPath(workDir)[..|workDir| + 1] == workDir + "/"
    ensures DataPath(workDir, id)[..|workDir| + 1] == workDir + "/"
    ensures DataPath(workDir, id) != PngPath(workDir)
  {
    var d := DataPath(workDir, id);
    assert d[|d| - 9..] == "fsc_0.txt";
    assert PngPath(workDir)[|PngPath(workDir)| - 7..] == "fsc.png";
    assert |d| > |PngPath(workDir)|;
  }

  function PlotRun(cfg: Config, workDir: string, id: int): Run {
    RunIn(cfg.fscPath, Args(workDir, id), workDir)
  }

  /** plotFSC: a failed plot is an error and leaves the job as it was. After a
      successful plot the FSC chart is set to the PNG file's contents, or left
      empty with an error when the file is missing. */
  method PlotFsc(host: Machine, job: Jobs.Job, cfg: Config, workDir: string) returns (err: Option<StageError>)
    modifies host, job
    ensures var run := PlotRun(cfg, workDir, old(job.state).id);
      var outcome := host.tool(run, old(host.files));
      && host.runs == old(host.runs) + [(run, outcome.ok)]
      && host.files == outcome.files
      && if !outcome.ok then
           err == Some(ToolFailed) && job.state == old(job.state)
         else
           && job.state == old(job.state).(fscChart := ReadOf(outcome.files, PngPath(workDir)))
           && err == if PngPath(workDir) in outcome.files then None else Some(ReadFailed)
  {
    var fscData := PathJoin(PathJoin(PathJoin(workDir, OutputName(job.state.id)), "spt_avg_01"), "fsc_0.txt");
    var fscPng := PathJoin(workDir, "fsc.png");
    var ok := host.Exec(RunIn(cfg.fscPath, ["--input", fscData, "--output", fscPng], workDir));
    if !ok {
      return Some(ToolFailed);
    }
    var data, read := host.ReadFile(fscPng);
    job.state := job.state.(fscChart := data);
    if !read {
      return Some(ReadFailed);
    }
    return None;
  }
}
