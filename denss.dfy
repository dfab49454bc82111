/** client/denss.go: runDenss writes the uploaded data into the working
    directory and runs denss.py MaxRuns times on it, attempt `k` writing its
    results under the prefix `workDir/output_<k>`. The attempts run one after
    another here; the stage fails when any attempt fails. */
module Denss {
  import opened Wrappers
  import opened Text
  import opened Args
  import opened Host
  import opened Stage
  import Jobs

  /** The path the uploaded data is written to and every attempt reads. */
  function InputPath(j: Jobs.JobValue, workDir: string): string {
    PathJoin(workDir, InputName(j.fileType))
  }

  /** The output prefix of attempt `thread`. */
  function Prefix(workDir: string, thread: int): string {
    PathJoin(workDir, OutputName(thread))
  }

  /** The options of attempt `thread` (execDenss). */
  function Opts(j: Jobs.JobValue, fmt: Format, workDir: string, thread: int): seq<Opt> {
    [Opt("-f", [InputPath(j, workDir)]), Opt("--oversampling", [fmt.fixed4(j.oversampling)]),
     Opt("-o", [Prefix(workDir, thread)]), Opt("--plot_off", [])]
    + When(j.dmax > 0.0, [Opt("-d", [fmt.fixed4(j.dmax)])])
    + When(j.voxelSize > 0.0, [Opt("--voxel", [fmt.fixed4(j.voxelSize)])])
  }

  const Arity: Args.Arity := map["-f" := 1, "--oversampling" := 1, "-o" := 1, "--plot_off" := 0, "-d" := 1, "--voxel" := 1]

  lemma HeadFlat(j: Jobs.JobValue, fmt: Format, workDir: string, thread: int)
    ensures Flatten(Opts(j, fmt, workDir, thread)[..4])
            == ["-f", InputPath(j, workDir), "--oversampling", fmt.fixed4(j.oversampling),
                "-o", Prefix(workDir, thread), "--plot_off"]
  {
    var h := Opts(j, fmt, workDir, thread)[..4];
    assert h[3..][1..] == [];
    assert Flatten(h[3..]) == ["--plot_off"];
    assert h[2..][1..] == h[3..];
    assert Flatten(h[2..]) == ["-o", Prefix(workDir, thread)] + Flatten(h[3..]);
    assert h[1..][1..] == h[2..];
    assert Flatten(h[1..]) == ["--oversampling", fmt.fixed4(j.oversampling)] + Flatten(h[2..]);
  }

  lemma OptsFlat(j: Jobs.JobValue, fmt: Format, workDir: string, thread: int)
    ensures Flatten(Opts(j, fmt, workDir, thread))
            == ["-f", InputPath(j, workDir), "--oversampling", fmt.fixed4(j.oversampling),
                "-o", Prefix(workDir, thread), "--plot_off"]
               + When(j.dmax > 0.0, ["-d", fmt.fixed4(j.dmax)])
               + When(j.voxelSize > 0.0, ["--voxel", fmt.fixed4(j.voxelSize)])
  {
    var o := Opts(j, fmt, workDir, thread);
    var h := o[..4];
    var dOpt := When(j.dmax > 0.0, [Opt("-d", [fmt.fixed4(j.dmax)])]);
    var vOpt := When(j.voxelSize > 0.0, [Opt("--voxel", [fmt.fixed4(j.voxelSize)])]);
    assert o == h + dOpt + vOpt;
    FlattenAppend(h + dOpt, vOpt);
    FlattenAppend(h, dOpt);
    HeadFlat(j, fmt, workDir, thread);
    FlattenWhenValue(j.dmax > 0.0, "-d", fmt.fixed4(j.dmax));
    FlattenWhenValue(j.voxelSize > 0.0, "--voxel", fmt.fixed4(j.voxelSize));
  }

  lemma OptsFlags(j: Jobs.JobValue, fmt: Format, workDir: string, thread: int)
    ensures Flags(Opts(j, fmt, workDir, thread))
            == ["-f", "--oversampling", "-o", "--plot_off"] + When(j.dmax > 0.0, ["-d"]) + When(j.voxelSize > 0.0, ["--voxel"])
  {
    var o := Opts(j, fmt, workDir, thread);
    var h := o[..4];
    var dOpt := When(j.dmax > 0.0, [Opt("-d", [fmt.fixed4(j.dmax)])]);
    var vOpt := When(j.voxelSize > 0.0, [Opt("--voxel", [fmt.fixed4(j.voxelSize)])]);
    assert o == h + dOpt + vOpt;
    FlagsAppend(h + dOpt, vOpt);
    FlagsAppend(h, dOpt);
    FlagsAt(h);
    FlagsWhen(j.dmax > 0.0, Opt("-d", [fmt.fixed4(j.dmax)]));
    FlagsWhen(j.voxelSize > 0.0, Opt("--voxel", [fmt.fixed4(j.voxelSize)]));
  }

  /** The argument building of execDenss. */
  method BuildArgs(j: Jobs.JobValue, fmt: Format, workDir: string, inputFile: string, thread: int)
    returns (args: seq<string>)
    requires inputFile == InputPath(j, workDir)
    ensures args == Flatten(Opts(j, fmt, workDir, thread))
  {
    var outputPrefix := PathJoin(workDir, OutputName(thread));
    args := ["-f", inputFile, "--oversampling", fmt.fixed4(j.oversampling), "-o", outputPrefix, "--plot_off"];
    ghost var before := args;
    if j.dmax > 0.0 {
      args := args + ["-d", fmt.fixed4(j.dmax)];
    }
    assert args == before + When(j.dmax > 0.0, ["-d", fmt.fixed4(j.dmax)]);
    before := args;
    if j.voxelSize > 0.0 {
      args := args + ["--voxel", fmt.fixed4(j.voxelSize)];
    }
    assert args == before + When(j.voxelSize > 0.0, ["--voxel", fmt.fixed4(j.voxelSize)]);
    OptsFlat(j, fmt, workDir, thread);
  }

  /** Every attempt reads the one input file, writes under its own prefix and
      passes the oversampling and --plot_off. */
  lemma ArgsPrefix(j: Jobs.JobValue, fmt: Format, workDir: string, thread: int)
    ensures var args := Flatten(Opts(j, fmt, workDir, thread));
      |args| >= 7
      && args[..7] == ["-f", InputPath(j, workDir), "--oversampling", fmt.fixed4(j.oversampling),
                       "-o", Prefix(workDir, thread), "--plot_off"]
  {
    OptsFlat(j, fmt, workDir, thread);
  }

  /** -d and --voxel are passed exactly when Dmax and the voxel size are above 0. */
  lemma Optional(j: Jobs.JobValue, fmt: Format, workDir: string, thread: int)
    ensures var fs := Flags(Opts(j, fmt, workDir, thread));
      && ("-d" in fs <==> j.dmax > 0.0)
      && ("--voxel" in fs <==> j.voxelSize > 0.0)
      && (j.dmax > 0.0 ==> Opt("-d", [fmt.fixed4(j.dmax)]) in Opts(j, fmt, workDir, thread))
      && (j.voxelSize > 0.0 ==> Opt("--voxel", [fmt.fixed4(j.voxelSize)]) in Opts(j, fmt, workDir, thread))
  {
    OptsFlags(j, fmt, workDir, thread);
  }

  /** denss.py reads each attempt's arguments back as the options they were
      built from. */
  lemma ParsesBack(j: Jobs.JobValue, fmt: Format, workDir: string, thread: int)
    ensures Parse(Flatten(Opts(j, fmt, workDir, thread)), Arity) == Some(Opts(j, fmt, workDir, thread))
  {
    ParseFlatten(Opts(j, fmt, workDir, thread), Arity);
  }

  /** Different attempts write under different prefixes, so no attempt
      overwrites another's maps. */
  lemma PrefixInjective(workDir: string, a: int, b: int)
    requires Prefix(workDir, a) == Prefix(workDir, b)
    ensures a == b
  {
    var p := Prefix(workDir, a);
    assert p[|workDir| + 1..] == OutputName(a) + "";
    assert p[|workDir| + 1..] == OutputName(b) + "";
    OutputNameInjective(a, b, "");
  }

  /** The denss.py run of attempt `thread`. */
  function Attempt(cfg: Config, j: Jobs.JobValue, fmt: Format, workDir: string, thread: int): Run {
    RunIn(cfg.denssPath, Flatten(Opts(j, fmt, workDir, thread)), workDir)
  }

  /** The attempts 0 .. n-1, in order: attempt `k` is the k-th run. */
  function Attempts(cfg: Config, j: Jobs.JobValue, fmt: Format, workDir: string, n: nat): (rs: seq<Run>)
    ensures |rs| == n
  {
    seq(n, k => Attempt(cfg, j, fmt, workDir, k))
  }

  /** No two attempts are the same run: their -o values differ. */
  lemma AttemptsDistinct(cfg: Config, j: Jobs.JobValue, fmt: Format, workDir: string, a: int, b: int)
    requires Attempt(cfg, j, fmt, workDir, a) == Attempt(cfg, j, fmt, workDir, b)
    ensures a == b
  {
    ArgsPrefix(j, fmt, workDir, a);
    ArgsPrefix(j, fmt, workDir, b);
    assert Flatten(Opts(j, fmt, workDir, a))[5] == Prefix(workDir, a);
    assert Flatten(Opts(j, fmt, workDir, b))[5] == Prefix(workDir, b);
    PrefixInjective(workDir, a, b);
  }

  /** The series of attempts that runDenss makes once the input is written. */
  function Series(host: Machine, cfg: Config, j: Jobs.JobValue, fmt: Format, workDir: string, files: map<string, string>): Host.Series
    reads host
    requires j.maxRuns >= 0
  {
    RunSeq(host.tool, Attempts(cfg, j, fmt, workDir, j.maxRuns), files)
  }

  lemma AppendAssoc<T>(a: seq<T>, b: seq<T>, c: seq<T>)
    ensures (a + b) + c == a + (b + c)
  {
  }

  /** execDenss: runs attempt `thread` on the written input file; a failed
      run is an error. */
  method ExecDenss(host: Machine, cfg: Config, j: Jobs.JobValue, fmt: Format, workDir: string, inputFile: string,
                   thread: int) returns (ok: bool)
    requires inputFile == InputPath(j, workDir)
    modifies host
    ensures var outcome := host.tool(Attempt(cfg, j, fmt, workDir, thread), old(host.files));
      && ok == outcome.ok
      && host.files == outcome.files
      && host.runs == old(host.runs) + [(Attempt(cfg, j, fmt, workDir, thread), ok)]
  {
    var args := BuildArgs(j, fmt, workDir, inputFile, thread);
    ok := host.Exec(RunIn(cfg.denssPath, args, workDir));
  }

  /** The loop of runDenss over the attempt indices 0 .. MaxRuns-1, one after
      another: it reports whether any attempt failed. */
  method RunAttempts(host: Machine, cfg: Config, j: Jobs.JobValue, fmt: Format, workDir: string, inputFile: string)
    returns (failed: bool)
    requires inputFile == InputPath(j, workDir)
    requires j.maxRuns >= 0
    modifies host
    ensures var s := RunSeq(host.tool, Attempts(cfg, j, fmt, workDir, j.maxRuns), old(host.files));
      && host.runs == old(host.runs) + s.log
      && host.files == s.files
      && failed == !AllOk(s.log)
  {
    ghost var files0 := host.files;
    ghost var runs0 := host.runs;
    failed := false;
    var i := 0;
    while i < j.maxRuns
      invariant 0 <= i <= j.maxRuns
      invariant host.runs == runs0 + RunSeq(host.tool, Attempts(cfg, j, fmt, workDir, i), files0).log
      invariant host.files == RunSeq(host.tool, Attempts(cfg, j, fmt, workDir, i), files0).files
      invariant failed == !AllOk(RunSeq(host.tool, Attempts(cfg, j, fmt, workDir, i), files0).log)
    {
      ghost var prev := RunSeq(host.tool, Attempts(cfg, j, fmt, workDir, i), files0);
      ghost var run := Attempt(cfg, j, fmt, workDir, i);
      var ok := ExecDenss(host, cfg, j, fmt, workDir, inputFile, i);
      if !ok {
        failed := true;
      }
      assert Attempts(cfg, j, fmt, workDir, i + 1) == Attempts(cfg, j, fmt, workDir, i) + [run];
      RunSeqSnoc(host.tool, Attempts(cfg, j, fmt, workDir, i), run, files0);
      AllOkSnoc(prev.log, run, ok);
      AppendAssoc(runs0, prev.log, [(run, ok)]);
      i := i + 1;
    }
  }

  /** runDenss: the input data is written to `workDir/input.<FileType>`; a
      failed write is an error and nothing runs. Otherwise the MaxRuns attempts
      run, each seeing what the previous left, and the stage fails exactly when
      one of them fails. */
  method RunDenss(host: Machine, job: Jobs.Job, cfg: Config, fmt: Format, workDir: string)
    returns (err: Option<StageError>)
    requires job.state.maxRuns >= 0
    modifies host
    ensures var input := InputPath(job.state, workDir);
      if !host.writable(input) then
        err == Some(WriteFailed) && host.files == old(host.files) && host.runs == old(host.runs)
      else
        var s := Series(host, cfg, job.state, fmt, workDir, old(host.files)[input := job.state.inputData]);
        && host.runs == old(host.runs) + s.log
        && host.files == s.files
        && err == if AllOk(s.log) then None else Some(ToolFailed)
  {
    var j := job.state;
    var inputFile := PathJoin(workDir, InputName(j.fileType));
    var written := host.WriteFile(inputFile, j.inputData);
    if !written {
      return Some(WriteFailed);
    }
    var failed := RunAttempts(host, cfg, j, fmt, workDir, inputFile);
    if failed {
      return Some(ToolFailed);
    }
    return None;
  }
}
