/** client/denssall.go runDenssAll: writes the uploaded data into the working
    directory, then runs denss.all.py there with options taken from the job. */
module DenssAll {
  import opened Wrappers
  import opened Text
  import opened Args
  import opened Host
  import opened Stage
  import Jobs

  /** The options always passed, in this order. */
  function Head(j: Jobs.JobValue, threads: int, fmt: Format): seq<Opt> {
    [Opt("-f", [InputName(j.fileType)]), Opt("-o", [OutputName(j.id)]), Opt("-j", [IntToString(threads)]),
     Opt("--plot_off", []), Opt("--quiet", []), Opt("--mode", [fmt.upper(j.extra.mode)])]
  }

  lemma HeadFlat(j: Jobs.JobValue, threads: int, fmt: Format)
    ensures Flatten(Head(j, threads, fmt))
            == ["-f", InputName(j.fileType), "-o", OutputName(j.id), "-j", IntToString(threads),
                "--plot_off", "--quiet", "--mode", fmt.upper(j.extra.mode)]
  {
    var h := Head(j, threads, fmt);
    assert h[5..][1..] == [];
    assert Flatten(h[5..]) == ["--mode", fmt.upper(j.extra.mode)];
    assert h[4..][1..] == h[5..];
    assert Flatten(h[4..]) == ["--quiet"] + Flatten(h[5..]);
    assert h[3..][1..] == h[4..];
    assert Flatten(h[3..]) == ["--plot_off"] + Flatten(h[4..]);
    assert h[2..][1..] == h[3..];
    assert Flatten(h[2..]) == ["-j", IntToString(threads)] + Flatten(h[3..]);
    assert h[1..][1..] == h[2..];
    assert Flatten(h[1..]) == ["-o", OutputName(j.id)] + Flatten(h[2..]);
  }

  lemma HeadFlags(j: Jobs.JobValue, threads: int, fmt: Format)
    ensures Flags(Head(j, threads, fmt)) == ["-f", "-o", "-j", "--plot_off", "--quiet", "--mode"]
  {
    FlagsAt(Head(j, threads, fmt));
  }

  /** The options of the denss.all.py run for job `j`; `gpu` is the enable_gpu
      setting. */
  function Opts(j: Jobs.JobValue, threads: int, gpu: bool, fmt: Format): seq<Opt> {
    Head(j, threads, fmt)
    + When(gpu, [Opt("--gpu", [])])
    + When(j.extra.units != "", [Opt("--units", [j.extra.units])])
    + When(!j.extra.enantiomer, [Opt("-en_off", [])])
    + When(j.dmax > 0.0, [Opt("-d", [fmt.fixed4(j.dmax)])])
    + When(j.electrons > 0, [Opt("--ne", [IntToString(j.electrons)])])
    + SymmetryOpts(j.extra)
  }

  /** Every flag runDenssAll may pass, in the order it passes them. */
  const Order: seq<string> :=
    ["-f", "-o", "-j", "--plot_off", "--quiet", "--mode", "--gpu", "--units", "-en_off", "-d", "--ne"]
    + SymmetryOrder

  /** How many values each flag takes. */
  const OptArity: Arity :=
    map["-f" := 1, "-o" := 1, "-j" := 1, "--plot_off" := 0, "--quiet" := 0, "--mode" := 1,
        "--gpu" := 0, "--units" := 1, "-en_off" := 0, "-d" := 1, "--ne" := 1,
        "-ncs" := 1, "-ncs_axis" := 1, "-ncs_steps" := 1]

  /** The flat form of the options, part by part. */
  lemma OptsFlat(j: Jobs.JobValue, threads: int, gpu: bool, fmt: Format)
    ensures Flatten(Opts(j, threads, gpu, fmt))
            == ["-f", InputName(j.fileType), "-o", OutputName(j.id), "-j", IntToString(threads),
                "--plot_off", "--quiet", "--mode", fmt.upper(j.extra.mode)]
               + When(gpu, ["--gpu"])
               + When(j.extra.units != "", ["--units", j.extra.units])
               + When(!j.extra.enantiomer, ["-en_off"])
               + When(j.dmax > 0.0, ["-d", fmt.fixed4(j.dmax)])
               + When(j.electrons > 0, ["--ne", IntToString(j.electrons)])
               + Flatten(SymmetryOpts(j.extra))
  {
    var h := Head(j, threads, fmt);
    var gpuOpt := When(gpu, [Opt("--gpu", [])]);
    var unitsOpt := When(j.extra.units != "", [Opt("--units", [j.extra.units])]);
    var enOpt := When(!j.extra.enantiomer, [Opt("-en_off", [])]);
    var dOpt := When(j.dmax > 0.0, [Opt("-d", [fmt.fixed4(j.dmax)])]);
    var neOpt := When(j.electrons > 0, [Opt("--ne", [IntToString(j.electrons)])]);
    FlattenAppend(h + gpuOpt + unitsOpt + enOpt + dOpt + neOpt, SymmetryOpts(j.extra));
    FlattenAppend(h + gpuOpt + unitsOpt + enOpt + dOpt, neOpt);
    FlattenAppend(h + gpuOpt + unitsOpt + enOpt, dOpt);
    FlattenAppend(h + gpuOpt + unitsOpt, enOpt);
    FlattenAppend(h + gpuOpt, unitsOpt);
    FlattenAppend(h, gpuOpt);
    HeadFlat(j, threads, fmt);
    FlattenWhenFlag(gpu, "--gpu");
    FlattenWhenValue(j.extra.units != "", "--units", j.extra.units);
    FlattenWhenFlag(!j.extra.enantiomer, "-en_off");
    FlattenWhenValue(j.dmax > 0.0, "-d", fmt.fixed4(j.dmax));
    FlattenWhenValue(j.electrons > 0, "--ne", IntToString(j.electrons));
  }

  /** The argument building of runDenssAll: the fixed list, then one guarded
      append per optional setting. */
  method BuildArgs(j: Jobs.JobValue, threads: int, gpu: bool, fmt: Format) returns (args: seq<string>)
    ensures args == Flatten(Opts(j, threads, gpu, fmt))
  {
    args := ["-f", InputName(j.fileType), "-o", OutputName(j.id), "-j", IntToString(threads),
             "--plot_off", "--quiet", "--mode", fmt.upper(j.extra.mode)];
    ghost var before := args;
    if gpu {
      args := args + ["--gpu"];
    }
    assert args == before + When(gpu, ["--gpu"]);
    before := args;
    if j.extra.units != "" {
      args := args + ["--units", j.extra.units];
    }
    assert args == before + When(j.extra.units != "", ["--units", j.extra.units]);
    before := args;
    if !j.extra.enantiomer {
      args := args + ["-en_off"];
    }
    assert args == before + When(!j.extra.enantiomer, ["-en_off"]);
    before := args;
    if j.dmax > 0.0 {
      args := args + ["-d", fmt.fixed4(j.dmax)];
    }
    assert args == before + When(j.dmax > 0.0, ["-d", fmt.fixed4(j.dmax)]);
    before := args;
    if j.electrons > 0 {
      args := args + ["--ne", IntToString(j.electrons)];
    }
    assert args == before + When(j.electrons > 0, ["--ne", IntToString(j.electrons)]);
    args := AppendSymmetry(args, j.extra);
    OptsFlat(j, threads, gpu, fmt);
  }

  /** The argument list always starts with the input name, the output prefix
      `output_<ID>`, the thread count, --plot_off, --quiet and the upper-cased
      mode, in that order. */
  lemma Prefix(j: Jobs.JobValue, threads: int, gpu: bool, fmt: Format)
    ensures var args := Flatten(Opts(j, threads, gpu, fmt));
      |args| >= 10
      && args[..10] == ["-f", InputName(j.fileType), "-o", OutputName(j.id), "-j", IntToString(threads),
                        "--plot_off", "--quiet", "--mode", fmt.upper(j.extra.mode)]
  {
    OptsFlat(j, threads, gpu, fmt);
  }

  /** The flags of the options, part by part. */
  lemma FlagsOfOpts(j: Jobs.JobValue, threads: int, gpu: bool, fmt: Format)
    ensures Flags(Opts(j, threads, gpu, fmt))
            == ["-f", "-o", "-j", "--plot_off", "--quiet", "--mode"]
               + When(gpu, ["--gpu"])
               + When(j.extra.units != "", ["--units"])
               + When(!j.extra.enantiomer, ["-en_off"])
               + When(j.dmax > 0.0, ["-d"])
               + When(j.electrons > 0, ["--ne"])
               + Flags(SymmetryOpts(j.extra))
  {
    var h := Head(j, threads, fmt);
    var gpuOpt := When(gpu, [Opt("--gpu", [])]);
    var unitsOpt := When(j.extra.units != "", [Opt("--units", [j.extra.units])]);
    var enOpt := When(!j.extra.enantiomer, [Opt("-en_off", [])]);
    var dOpt := When(j.dmax > 0.0, [Opt("-d", [fmt.fixed4(j.dmax)])]);
    var neOpt := When(j.electrons > 0, [Opt("--ne", [IntToString(j.electrons)])]);
    FlagsAppend(h + gpuOpt + unitsOpt + enOpt + dOpt + neOpt, SymmetryOpts(j.extra));
    FlagsAppend(h + gpuOpt + unitsOpt + enOpt + dOpt, neOpt);
    FlagsAppend(h + gpuOpt + unitsOpt + enOpt, dOpt);
    FlagsAppend(h + gpuOpt + unitsOpt, enOpt);
    FlagsAppend(h + gpuOpt, unitsOpt);
    FlagsAppend(h, gpuOpt);
    HeadFlags(j, threads, fmt);
    FlagsWhen(gpu, Opt("--gpu", []));
    FlagsWhen(j.extra.units != "", Opt("--units", [j.extra.units]));
    FlagsWhen(!j.extra.enantiomer, Opt("-en_off", []));
    FlagsWhen(j.dmax > 0.0, Opt("-d", [fmt.fixed4(j.dmax)]));
    FlagsWhen(j.electrons > 0, Opt("--ne", [IntToString(j.electrons)]));
  }

  /** Each optional setting's flag is passed exactly when the setting calls
      for it: --gpu with enable_gpu, --units with non-empty units, -en_off when
      the enantiomer search is off, -d with a positive Dmax and --ne with a
      positive electron count. */
  lemma Optional(j: Jobs.JobValue, threads: int, gpu: bool, fmt: Format)
    ensures var fs := Flags(Opts(j, threads, gpu, fmt));
      && ("--gpu" in fs <==> gpu)
      && ("--units" in fs <==> j.extra.units != "")
      && ("-en_off" in fs <==> !j.extra.enantiomer)
      && ("-d" in fs <==> j.dmax > 0.0)
      && ("--ne" in fs <==> j.electrons > 0)
  {
    FlagsOfOpts(j, threads, gpu, fmt);
    SymmetryInOrder(j.extra);
    var fs, sym := Flags(Opts(j, threads, gpu, fmt)), Flags(SymmetryOpts(j.extra));
    SubsequenceIn(sym, SymmetryOrder);
    var units, en, d, ne := j.extra.units != "", !j.extra.enantiomer, j.dmax > 0.0, j.electrons > 0;
    PresentFront(fs, sym, gpu, units, en, d, ne);
    PresentBack(fs, sym, gpu, units, en, d, ne);
  }

  /** -ncs is passed exactly when the symmetry is above 0; -ncs_axis and
      -ncs_steps only with it, when the axis is above 0 and the steps are
      given. */
  lemma Symmetry(j: Jobs.JobValue, threads: int, gpu: bool, fmt: Format)
    ensures var fs := Flags(Opts(j, threads, gpu, fmt));
      && ("-ncs" in fs <==> j.extra.symmetry > 0)
      && ("-ncs_axis" in fs <==> j.extra.symmetry > 0 && j.extra.symmetryAxis > 0)
      && ("-ncs_steps" in fs <==> j.extra.symmetry > 0 && j.extra.symmetrySteps != "")
  {
    FlagsOfOpts(j, threads, gpu, fmt);
    SymmetryFlags(j.extra);
    var fs, sym := Flags(Opts(j, threads, gpu, fmt)), Flags(SymmetryOpts(j.extra));
    var units, en, d, ne := j.extra.units != "", !j.extra.enantiomer, j.dmax > 0.0, j.electrons > 0;
    PresentSymmetry(fs, sym, gpu, units, en, d, ne);
  }

  lemma PresentFront(fs: seq<string>, sym: seq<string>, gpu: bool, units: bool, en: bool, d: bool, ne: bool)
    requires fs == ["-f", "-o", "-j", "--plot_off", "--quiet", "--mode"] + When(gpu, ["--gpu"])
                   + When(units, ["--units"]) + When(en, ["-en_off"]) + When(d, ["-d"]) + When(ne, ["--ne"]) + sym
    requires forall x :: x in sym ==> x in SymmetryOrder
    ensures ("--gpu" in fs <==> gpu) && ("--units" in fs <==> units) && ("-en_off" in fs <==> en)
  {
  }

  lemma PresentBack(fs: seq<string>, sym: seq<string>, gpu: bool, units: bool, en: bool, d: bool, ne: bool)
    requires fs == ["-f", "-o", "-j", "--plot_off", "--quiet", "--mode"] + When(gpu, ["--gpu"])
                   + When(units, ["--units"]) + When(en, ["-en_off"]) + When(d, ["-d"]) + When(ne, ["--ne"]) + sym
    requires forall x :: x in sym ==> x in SymmetryOrder
    ensures ("-d" in fs <==> d) && ("--ne" in fs <==> ne)
  {
  }

  lemma PresentSymmetry(fs: seq<string>, sym: seq<string>, gpu: bool, units: bool, en: bool, d: bool, ne: bool)
    requires fs == ["-f", "-o", "-j", "--plot_off", "--quiet", "--mode"] + When(gpu, ["--gpu"])
                   + When(units, ["--units"]) + When(en, ["-en_off"]) + When(d, ["-d"]) + When(ne, ["--ne"]) + sym
    ensures forall x :: x in SymmetryOrder ==> (x in fs <==> x in sym)
  {
  }

  /** Where a flag with a value is passed, the value is the job's setting. */
  lemma Values(j: Jobs.JobValue, threads: int, gpu: bool, fmt: Format)
    ensures var opts := Opts(j, threads, gpu, fmt);
      && (j.extra.units != "" ==> Opt("--units", [j.extra.units]) in opts)
      && (j.dmax > 0.0 ==> Opt("-d", [fmt.fixed4(j.dmax)]) in opts)
      && (j.electrons > 0 ==> Opt("--ne", [IntToString(j.electrons)]) in opts)
  {
  }

  /** The flags come in the order of `Order`, whichever are present. */
  lemma InOrder(j: Jobs.JobValue, threads: int, gpu: bool, fmt: Format)
    ensures Subsequence(Flags(Opts(j, threads, gpu, fmt)), Order)
  {
    FlagsOfOpts(j, threads, gpu, fmt);
    SymmetryInOrder(j.extra);
    InOrderOf(Flags(Opts(j, threads, gpu, fmt)), Flags(SymmetryOpts(j.extra)),
              gpu, j.extra.units != "", !j.extra.enantiomer, j.dmax > 0.0, j.electrons > 0);
  }

  lemma InOrderOf(fs: seq<string>, sym: seq<string>, gpu: bool, units: bool, enOff: bool, d: bool, ne: bool)
    requires fs == ["-f", "-o", "-j", "--plot_off", "--quiet", "--mode"] + When(gpu, ["--gpu"])
                   + When(units, ["--units"]) + When(enOff, ["-en_off"]) + When(d, ["-d"]) + When(ne, ["--ne"]) + sym
    requires Subsequence(sym, SymmetryOrder)
    ensures Subsequence(fs, Order)
  {
    var fixed := ["-f", "-o", "-j", "--plot_off", "--quiet", "--mode"];
    SubsequenceRefl(fixed);
    WhenInOrder(gpu, ["--gpu"]);
    WhenInOrder(units, ["--units"]);
    WhenInOrder(enOff, ["-en_off"]);
    WhenInOrder(d, ["-d"]);
    WhenInOrder(ne, ["--ne"]);
    var gpuF, unitsF, enF, dF, neF := When(gpu, ["--gpu"]), When(units, ["--units"]), When(enOff, ["-en_off"]),
                                      When(d, ["-d"]), When(ne, ["--ne"]);
    SubsequenceAppend(fixed, fixed, gpuF, ["--gpu"]);
    SubsequenceAppend(fixed + gpuF, fixed + ["--gpu"], unitsF, ["--units"]);
    SubsequenceAppend(fixed + gpuF + unitsF, fixed + ["--gpu"] + ["--units"], enF, ["-en_off"]);
    SubsequenceAppend(fixed + gpuF + unitsF + enF, fixed + ["--gpu"] + ["--units"] + ["-en_off"], dF, ["-d"]);
    SubsequenceAppend(fixed + gpuF + unitsF + enF + dF,
                      fixed + ["--gpu"] + ["--units"] + ["-en_off"] + ["-d"], neF, ["--ne"]);
    SubsequenceAppend(fixed + gpuF + unitsF + enF + dF + neF,
                      fixed + ["--gpu"] + ["--units"] + ["-en_off"] + ["-d"] + ["--ne"], sym, SymmetryOrder);
    assert fixed + ["--gpu"] + ["--units"] + ["-en_off"] + ["-d"] + ["--ne"] + SymmetryOrder == Order;
  }

  /** Every option is a flag denss.all.py knows, with as many values as it takes. */
  lemma OptsFit(j: Jobs.JobValue, threads: int, gpu: bool, fmt: Format)
    ensures Fits(Opts(j, threads, gpu, fmt), OptArity)
  {
    var h := Head(j, threads, fmt);
    HeadFits(j, threads, fmt);
    FitsWhen(gpu, Opt("--gpu", []), OptArity);
    FitsWhen(j.extra.units != "", Opt("--units", [j.extra.units]), OptArity);
    FitsWhen(!j.extra.enantiomer, Opt("-en_off", []), OptArity);
    FitsWhen(j.dmax > 0.0, Opt("-d", [fmt.fixed4(j.dmax)]), OptArity);
    FitsWhen(j.electrons > 0, Opt("--ne", [IntToString(j.electrons)]), OptArity);
    SymmetryFits(j.extra);
    FitsWider(SymmetryOpts(j.extra), SymmetryArity, OptArity);
    FitsAppend(h, When(gpu, [Opt("--gpu", [])]), OptArity);
    var p := h + When(gpu, [Opt("--gpu", [])]);
    FitsAppend(p, When(j.extra.units != "", [Opt("--units", [j.extra.units])]), OptArity);
    p := p + When(j.extra.units != "", [Opt("--units", [j.extra.units])]);
    FitsAppend(p, When(!j.extra.enantiomer, [Opt("-en_off", [])]), OptArity);
    p := p + When(!j.extra.enantiomer, [Opt("-en_off", [])]);
    FitsAppend(p, When(j.dmax > 0.0, [Opt("-d", [fmt.fixed4(j.dmax)])]), OptArity);
    p := p + When(j.dmax > 0.0, [Opt("-d", [fmt.fixed4(j.dmax)])]);
    FitsAppend(p, When(j.electrons > 0, [Opt("--ne", [IntToString(j.electrons)])]), OptArity);
    p := p + When(j.electrons > 0, [Opt("--ne", [IntToString(j.electrons)])]);
    FitsAppend(p, SymmetryOpts(j.extra), OptArity);
  }

  lemma HeadFits(j: Jobs.JobValue, threads: int, fmt: Format)
    ensures Fits(Head(j, threads, fmt), OptArity)
  {
  }

  /** denss.all.py, knowing each flag's arity, reads the argument list back as
      the options it was built from. */
  lemma ParsesBack(j: Jobs.JobValue, threads: int, gpu: bool, fmt: Format)
    ensures Parse(Flatten(Opts(j, threads, gpu, fmt)), OptArity) == Some(Opts(j, threads, gpu, fmt))
  {
    OptsFit(j, threads, gpu, fmt);
    ParseFlatten(Opts(j, threads, gpu, fmt), OptArity);
  }

  /** The denss.all.py run for job `j`, in the working directory. */
  function Invocation(cfg: Config, j: Jobs.JobValue, fmt: Format, workDir: string, threads: int): Run {
    RunIn(cfg.denssAllPath, Flatten(Opts(j, threads, cfg.enableGpu, fmt)), workDir)
  }

  /** runDenssAll: the input data is written to `workDir/input.<FileType>`; a
      failed write is an error and nothing runs. Otherwise denss.all.py runs
      once, and its failure is the stage's error. */
  method RunDenssAll(host: Machine, job: Jobs.Job, cfg: Config, fmt: Format, workDir: string, threads: int)
    returns (err: Option<StageError>)
    modifies host
    ensures var input := PathJoin(workDir, InputName(job.state.fileType));
      if !host.writable(input) then
        err == Some(WriteFailed) && host.files == old(host.files) && host.runs == old(host.runs)
      else
        var run := Invocation(cfg, job.state, fmt, workDir, threads);
        var outcome := host.tool(run, old(host.files)[input := job.state.inputData]);
        && host.runs == old(host.runs) + [(run, outcome.ok)]
        && host.files == outcome.files
        && err == if outcome.ok then None else Some(ToolFailed)
  {
    var j := job.state;
    var inputFile := InputName(j.fileType);
    var written := host.WriteFile(PathJoin(workDir, inputFile), j.inputData);
    if !written {
      return Some(WriteFailed);
    }
    var args := BuildArgs(j, threads, cfg.enableGpu, fmt);
    var ok := host.Exec(RunIn(cfg.denssAllPath, args, workDir));
    if !ok {
      return Some(ToolFailed);
    }
    return None;
  }
}
