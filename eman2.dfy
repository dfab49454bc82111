/** client/eman2.go: after the denss attempts, EMAN2 stacks their maps into
    one HDF file (buildStack), averages the stack and converts the average to
    CCP4 (runAveraging), which becomes the job's density map. */
module Eman2 {
  import opened Wrappers
  import opened Text
  import opened Host
  import opened Stage
  import Jobs
  import Denss

  /** `<eman2dir>/bin/<script>`. */
  function Script(cfg: Config, name: string): string {
    PathJoin(PathJoin(cfg.eman2Dir, "bin"), name)
  }

  /** `workDir/stack.hdf`: written by buildStack, read by runAveraging. */
  function StackPath(workDir: string): string {
    PathJoin(workDir, "stack.hdf")
  }

  /** The maps of attempts 0 .. n-1, in order. */
  function MrcPaths(workDir: string, n: nat): (ps: seq<string>)
    ensures |ps| == n
    ensures forall k :: 0 <= k < n ==> ps[k] == MrcPath(workDir, k)
  {
    if n == 0 then [] else MrcPaths(workDir, n - 1) + [MrcPath(workDir, n - 1)]
  }

  /** The number of attempts a loop `for i := 0; i < n; i++` visits. */
  function Count(n: int): nat {
    if n < 0 then 0 else n
  }

  /** The arguments of e2buildstacks.py: the stack to write, then the map of
      every attempt. */
  function StackArgs(workDir: string, maxRuns: int): seq<string> {
    ["--stackname", StackPath(workDir)] + MrcPaths(workDir, Count(maxRuns))
  }

  /** The stack lists, after its name, the map of each attempt `k` in order:
      the file denss.py leaves under that attempt's prefix with `.mrc` added.
      No map is listed twice. */
  lemma StackListsAttempts(workDir: string, maxRuns: int)
    ensures var args := StackArgs(workDir, maxRuns);
      && |args| == 2 + Count(maxRuns)
      && args[..2] == ["--stackname", StackPath(workDir)]
      && (forall k :: 0 <= k < Count(maxRuns) ==> args[2 + k] == Denss.Prefix(workDir, k) + ".mrc")
      && (forall a, b :: 2 <= a < b < |args| ==> args[a] != args[b])
  {
    var args := StackArgs(workDir, maxRuns);
    forall k | 0 <= k < Count(maxRuns)
      ensures args[2 + k] == Denss.Prefix(workDir, k) + ".mrc"
    {
      assert args[2 + k] == MrcPath(workDir, k);
      assert workDir + "/" + (OutputName(k) + ".mrc") == workDir + "/" + OutputName(k) + ".mrc";
    }
    forall a, b | 2 <= a < b < |args|
      ensures args[a] != args[b]
    {
      if args[a] == args[b] {
        assert args[a] == MrcPath(workDir, a - 2);
        assert args[b] == MrcPath(workDir, b - 2);
        MrcPathInjective(workDir, a - 2, b - 2);
      }
    }
  }

  /** The argument building of buildStack. */
  method BuildStackArgs(workDir: string, maxRuns: int) returns (args: seq<string>)
    ensures args == StackArgs(workDir, maxRuns)
  {
    args := ["--stackname", StackPath(workDir)];
    var i := 0;
    while i < maxRuns
      invariant 0 <= i <= Count(maxRuns)
      invariant args == ["--stackname", StackPath(workDir)] + MrcPaths(workDir, i)
    {
      args := args + [PathJoin(workDir, OutputName(i) + ".mrc")];
      i := i + 1;
    }
  }

  /** The e2buildstacks.py run. */
  function StackRun(cfg: Config, j: Jobs.JobValue, workDir: string): Run {
    RunIn(Script(cfg, "e2buildstacks.py"), StackArgs(workDir, j.maxRuns), workDir)
  }

  /** buildStack: runs e2buildstacks.py once; its failure is the stage's error. */
  method BuildStack(host: Machine, job: Jobs.Job, cfg: Config, workDir: string) returns (err: Option<StageError>)
    modifies host
    ensures var run := StackRun(cfg, job.state, workDir);
      var outcome := host.tool(run, old(host.files));
      && host.runs == old(host.runs) + [(run, outcome.ok)]
      && host.files == outcome.files
      && err == if outcome.ok then None else Some(ToolFailed)
  {
    var args := BuildStackArgs(workDir, job.state.maxRuns);
    var ok := host.Exec(RunIn(Script(cfg, "e2buildstacks.py"), args, workDir));
    if !ok {
      return Some(ToolFailed);
    }
    return None;
  }

  /** The arguments of e2spt_classaverage.py. */
  function AveragingArgs(workDir: string, threads: int): seq<string> {
    ["--input", StackPath(workDir), "--parallel=thread:" + IntToString(threads), "--saveali", "--savesteps",
     "--keep", "3.0", "--keepsig"]
  }

  /** The averaging reads the stack buildStack writes. */
  lemma AveragingReadsStack(workDir: string, maxRuns: int, threads: int)
    ensures AveragingArgs(workDir, threads)[..2] == ["--input", StackArgs(workDir, maxRuns)[1]]
  {
  }

  /** `workDir/spt_01/final_avg_ali2ref.hdf`, the average e2spt_classaverage.py
      leaves. */
  function FinalAverage(workDir: string): string {
    PathJoin(PathJoin(workDir, "spt_01"), "final_avg_ali2ref.hdf")
  }

  /** `workDir/output_averaged.ccp4`, the average in CCP4 form. */
  function Ccp4Path(workDir: string): string {
    PathJoin(workDir, "output_averaged.ccp4")
  }

  function AveragingRun(cfg: Config, workDir: string, threads: int): Run {
    RunIn(Script(cfg, "e2spt_classaverage.py"), AveragingArgs(workDir, threads), workDir)
  }

  function ConvertRun(cfg: Config, workDir: string): Run {
    RunIn(Script(cfg, "e2proc3d.py"), [FinalAverage(workDir), Ccp4Path(workDir)], workDir)
  }

  /** runAveraging: the averaging run fails the stage, as does a missing final
      average, in which case nothing more runs; otherwise the conversion runs
      and its failure fails the stage. After a successful conversion the job's
      density map is set to the CCP4 file, or left empty with an error when the
      file is missing. */
  method RunAveraging(host: Machine, job: Jobs.Job, cfg: Config, workDir: string, threads: int)
    returns (err: Option<StageError>)
    modifies host, job
    ensures var avg := AveragingRun(cfg, workDir, threads);
      var o1 := host.tool(avg, old(host.files));
      if !o1.ok then
        && err == Some(ToolFailed) && job.state == old(job.state)
        && host.runs == old(host.runs) + [(avg, false)] && host.files == o1.files
      else if FinalAverage(workDir) !in o1.files then
        && err == Some(MissingOutput) && job.state == old(job.state)
        && host.runs == old(host.runs) + [(avg, true)] && host.files == o1.files
      else
        var conv := ConvertRun(cfg, workDir);
        var o2 := host.tool(conv, o1.files);
        && host.runs == old(host.runs) + [(avg, true), (conv, o2.ok)]
        && host.files == o2.files
        && if !o2.ok then
             err == Some(ToolFailed) && job.state == old(job.state)
           else
             && job.state == old(job.state).(densityMap := ReadOf(o2.files, Ccp4Path(workDir)))
             && err == if Ccp4Path(workDir) in o2.files then None else Some(ReadFailed)
  {
    var ok := host.Exec(RunIn(Script(cfg, "e2spt_classaverage.py"), AveragingArgs(workDir, threads), workDir));
    if !ok {
      return Some(ToolFailed);
    }
    var found := host.Stat(FinalAverage(workDir));
    if !found {
      return Some(MissingOutput);
    }
    ok := host.Exec(RunIn(Script(cfg, "e2proc3d.py"), [FinalAverage(workDir), Ccp4Path(workDir)], workDir));
    if !ok {
      return Some(ToolFailed);
    }
    var data, read := host.ReadFile(Ccp4Path(workDir));
    job.state := job.state.(densityMap := data);
    if !read {
      return Some(ReadFailed);
    }
    return None;
  }
}
