/** client/superdenss.go runSuperdenss: writes the uploaded data into the
    working directory, then runs superdenss there. superdenss gets its own
    options, and under -i the options of the denss runs it starts, joined into
    one argument with single spaces. */
module Superdenss {
  import opened Wrappers
  import opened Text
  import opened Args
  import opened Host
  import opened Stage
  import Jobs
  import DenssAll
  import Params

  // ---------------------------------------------------------------------------
  // The inner options, passed on to denss

  /** The inner options always passed, in this order. */
  function InnerHead(j: Jobs.JobValue, fmt: Format): seq<Opt> {
    [Opt("-os", [fmt.fixed4(j.oversampling)]), Opt("--plot_off", []), Opt("--quiet", []),
     Opt("--mode", [fmt.upper(j.extra.mode)])]
  }

  /** The inner options for job `j`. */
  function InnerOpts(j: Jobs.JobValue, fmt: Format): seq<Opt> {
    InnerHead(j, fmt)
    + When(j.dmax > 0.0, [Opt("-d", [fmt.fixed4(j.dmax)])])
    + When(j.voxelSize > 0.0, [Opt("-v", [fmt.fixed4(j.voxelSize)])])
    + When(j.electrons > 0, [Opt("--ne", [IntToString(j.electrons)])])
    + When(j.numSamples > 0, [Opt("-n", [IntToString(j.numSamples)])])
    + SymmetryOpts(j.extra)
  }

  /** Every inner flag, in the order runSuperdenss passes them. */
  const InnerOrder: seq<string> := ["-os", "--plot_off", "--quiet", "--mode", "-d", "-v", "--ne", "-n"] + SymmetryOrder

  const InnerArity: Arity :=
    map["-os" := 1, "--plot_off" := 0, "--quiet" := 0, "--mode" := 1, "-d" := 1, "-v" := 1, "--ne" := 1,
        "-n" := 1, "-ncs" := 1, "-ncs_axis" := 1, "-ncs_steps" := 1]

  lemma InnerHeadFlat(j: Jobs.JobValue, fmt: Format)
    ensures Flatten(InnerHead(j, fmt))
            == ["-os", fmt.fixed4(j.oversampling), "--plot_off", "--quiet", "--mode", fmt.upper(j.extra.mode)]
  {
    var h := InnerHead(j, fmt);
    assert h[3..][1..] == [];
    assert Flatten(h[3..]) == ["--mode", fmt.upper(j.extra.mode)];
    assert h[2..][1..] == h[3..];
    assert Flatten(h[2..]) == ["--quiet"] + Flatten(h[3..]);
    assert h[1..][1..] == h[2..];
    assert Flatten(h[1..]) == ["--plot_off"] + Flatten(h[2..]);
  }

  lemma InnerFlat(j: Jobs.JobValue, fmt: Format)
    ensures Flatten(InnerOpts(j, fmt))
            == ["-os", fmt.fixed4(j.oversampling), "--plot_off", "--quiet", "--mode", fmt.upper(j.extra.mode)]
               + When(j.dmax > 0.0, ["-d", fmt.fixed4(j.dmax)])
               + When(j.voxelSize > 0.0, ["-v", fmt.fixed4(j.voxelSize)])
               + When(j.electrons > 0, ["--ne", IntToString(j.electrons)])
               + When(j.numSamples > 0, ["-n", IntToString(j.numSamples)])
               + Flatten(SymmetryOpts(j.extra))
  {
    var h := InnerHead(j, fmt);
    var dOpt := When(j.dmax > 0.0, [Opt("-d", [fmt.fixed4(j.dmax)])]);
    var vOpt := When(j.voxelSize > 0.0, [Opt("-v", [fmt.fixed4(j.voxelSize)])]);
    var neOpt := When(j.electrons > 0, [Opt("--ne", [IntToString(j.electrons)])]);
    var nOpt := When(j.numSamples > 0, [Opt("-n", [IntToString(j.numSamples)])]);
    FlattenAppend(h + dOpt + vOpt + neOpt + nOpt, SymmetryOpts(j.extra));
    FlattenAppend(h + dOpt + vOpt + neOpt, nOpt);
    FlattenAppend(h + dOpt + vOpt, neOpt);
    FlattenAppend(h + dOpt, vOpt);
    FlattenAppend(h, dOpt);
    InnerHeadFlat(j, fmt);
    FlattenWhenValue(j.dmax > 0.0, "-d", fmt.fixed4(j.dmax));
    FlattenWhenValue(j.voxelSize > 0.0, "-v", fmt.fixed4(j.voxelSize));
    FlattenWhenValue(j.electrons > 0, "--ne", IntToString(j.electrons));
    FlattenWhenValue(j.numSamples > 0, "-n", IntToString(j.numSamples));
  }

  lemma InnerHeadFlags(j: Jobs.JobValue, fmt: Format)
    ensures Flags(InnerHead(j, fmt)) == ["-os", "--plot_off", "--quiet", "--mode"]
  {
    FlagsAt(InnerHead(j, fmt));
  }

  lemma InnerFlags(j: Jobs.JobValue, fmt: Format)
    ensures Flags(InnerOpts(j, fmt))
            == ["-os", "--plot_off", "--quiet", "--mode"]
               + When(j.dmax > 0.0, ["-d"])
               + When(j.voxelSize > 0.0, ["-v"])
               + When(j.electrons > 0, ["--ne"])
               + When(j.numSamples > 0, ["-n"])
               + Flags(SymmetryOpts(j.extra))
  {
    var h := InnerHead(j, fmt);
    var dOpt := When(j.dmax > 0.0, [Opt("-d", [fmt.fixed4(j.dmax)])]);
    var vOpt := When(j.voxelSize > 0.0, [Opt("-v", [fmt.fixed4(j.voxelSize)])]);
    var neOpt := When(j.electrons > 0, [Opt("--ne", [IntToString(j.electrons)])]);
    var nOpt := When(j.numSamples > 0, [Opt("-n", [IntToString(j.numSamples)])]);
    FlagsAppend(h + dOpt + vOpt + neOpt + nOpt, SymmetryOpts(j.extra));
    FlagsAppend(h + dOpt + vOpt + neOpt, nOpt);
    FlagsAppend(h + dOpt + vOpt, neOpt);
    FlagsAppend(h + dOpt, vOpt);
    FlagsAppend(h, dOpt);
    InnerHeadFlags(j, fmt);
    FlagsWhen(j.dmax > 0.0, Opt("-d", [fmt.fixed4(j.dmax)]));
    FlagsWhen(j.voxelSize > 0.0, Opt("-v", [fmt.fixed4(j.voxelSize)]));
    FlagsWhen(j.electrons > 0, Opt("--ne", [IntToString(j.electrons)]));
    FlagsWhen(j.numSamples > 0, Opt("-n", [IntToString(j.numSamples)]));
  }

  /** The inner list always starts with the oversampling, --plot_off, --quiet
      and the upper-cased mode. */
  lemma InnerPrefix(j: Jobs.JobValue, fmt: Format)
    ensures var inner := Flatten(InnerOpts(j, fmt));
      |inner| >= 6
      && inner[..6] == ["-os", fmt.fixed4(j.oversampling), "--plot_off", "--quiet", "--mode", fmt.upper(j.extra.mode)]
  {
    InnerFlat(j, fmt);
  }

  /** -d, -v, --ne and -n are passed on exactly when Dmax, the voxel size, the
      electron count and the number of samples are above 0. */
  lemma InnerOptional(j: Jobs.JobValue, fmt: Format)
    ensures var fs := Flags(InnerOpts(j, fmt));
      && ("-d" in fs <==> j.dmax > 0.0)
      && ("-v" in fs <==> j.voxelSize > 0.0)
      && ("--ne" in fs <==> j.electrons > 0)
      && ("-n" in fs <==> j.numSamples > 0)
  {
    InnerFlags(j, fmt);
    SymmetryInOrder(j.extra);
    var fs, sym := Flags(InnerOpts(j, fmt)), Flags(SymmetryOpts(j.extra));
    SubsequenceIn(sym, SymmetryOrder);
    var d, v, ne, n := j.dmax > 0.0, j.voxelSize > 0.0, j.electrons > 0, j.numSamples > 0;
    InnerPresentFront(fs, sym, d, v, ne, n);
    InnerPresentBack(fs, sym, d, v, ne, n);
  }

  lemma InnerPresentFront(fs: seq<string>, sym: seq<string>, d: bool, v: bool, ne: bool, n: bool)
    requires fs == ["-os", "--plot_off", "--quiet", "--mode"] + When(d, ["-d"]) + When(v, ["-v"])
                   + When(ne, ["--ne"]) + When(n, ["-n"]) + sym
    requires forall x :: x in sym ==> x in SymmetryOrder
    ensures ("-d" in fs <==> d) && ("-v" in fs <==> v)
  {
  }

  lemma InnerPresentBack(fs: seq<string>, sym: seq<string>, d: bool, v: bool, ne: bool, n: bool)
    requires fs == ["-os", "--plot_off", "--quiet", "--mode"] + When(d, ["-d"]) + When(v, ["-v"])
                   + When(ne, ["--ne"]) + When(n, ["-n"]) + sym
    requires forall x :: x in sym ==> x in SymmetryOrder
    ensures ("--ne" in fs <==> ne) && ("-n" in fs <==> n)
  {
  }

  lemma InnerPresentSymmetry(fs: seq<string>, sym: seq<string>, d: bool, v: bool, ne: bool, n: bool)
    requires fs == ["-os", "--plot_off", "--quiet", "--mode"] + When(d, ["-d"]) + When(v, ["-v"])
                   + When(ne, ["--ne"]) + When(n, ["-n"]) + sym
    ensures forall x :: x in SymmetryOrder ==> (x in fs <==> x in sym)
  {
  }

  /** The symmetry flags are nested as for denss.all.py. */
  lemma InnerSymmetry(j: Jobs.JobValue, fmt: Format)
    ensures var fs := Flags(InnerOpts(j, fmt));
      && ("-ncs" in fs <==> j.extra.symmetry > 0)
      && ("-ncs_axis" in fs <==> j.extra.symmetry > 0 && j.extra.symmetryAxis > 0)
      && ("-ncs_steps" in fs <==> j.extra.symmetry > 0 && j.extra.symmetrySteps != "")
  {
    InnerFlags(j, fmt);
    SymmetryFlags(j.extra);
    var fs, sym := Flags(InnerOpts(j, fmt)), Flags(SymmetryOpts(j.extra));
    InnerPresentSymmetry(fs, sym, j.dmax > 0.0, j.voxelSize > 0.0, j.electrons > 0, j.numSamples > 0);
  }

  /** The inner flags come in the order of `InnerOrder`, whichever are present. */
  lemma InnerInOrder(j: Jobs.JobValue, fmt: Format)
    ensures Subsequence(Flags(InnerOpts(j, fmt)), InnerOrder)
  {
    InnerFlags(j, fmt);
    SymmetryInOrder(j.extra);
    InnerInOrderOf(Flags(InnerOpts(j, fmt)), Flags(SymmetryOpts(j.extra)),
                   j.dmax > 0.0, j.voxelSize > 0.0, j.electrons > 0, j.numSamples > 0);
  }

  lemma InnerInOrderOf(fs: seq<string>, sym: seq<string>, d: bool, v: bool, ne: bool, n: bool)
    requires fs == ["-os", "--plot_off", "--quiet", "--mode"] + When(d, ["-d"]) + When(v, ["-v"])
                   + When(ne, ["--ne"]) + When(n, ["-n"]) + sym
    requires Subsequence(sym, SymmetryOrder)
    ensures Subsequence(fs, InnerOrder)
  {
    var fixed := ["-os", "--plot_off", "--quiet", "--mode"];
    SubsequenceRefl(fixed);
    WhenInOrder(d, ["-d"]);
    WhenInOrder(v, ["-v"]);
    WhenInOrder(ne, ["--ne"]);
    WhenInOrder(n, ["-n"]);
    var dF, vF, neF, nF := When(d, ["-d"]), When(v, ["-v"]), When(ne, ["--ne"]), When(n, ["-n"]);
    SubsequenceAppend(fixed, fixed, dF, ["-d"]);
    SubsequenceAppend(fixed + dF, fixed + ["-d"], vF, ["-v"]);
    SubsequenceAppend(fixed + dF + vF, fixed + ["-d"] + ["-v"], neF, ["--ne"]);
    SubsequenceAppend(fixed + dF + vF + neF, fixed + ["-d"] + ["-v"] + ["--ne"], nF, ["-n"]);
    SubsequenceAppend(fixed + dF + vF + neF + nF, fixed + ["-d"] + ["-v"] + ["--ne"] + ["-n"], sym, SymmetryOrder);
    assert fixed + ["-d"] + ["-v"] + ["--ne"] + ["-n"] + SymmetryOrder == InnerOrder;
  }

  lemma InnerFits(j: Jobs.JobValue, fmt: Format)
    ensures Fits(InnerOpts(j, fmt), InnerArity)
  {
    InnerHeadFits(j, fmt);
    InnerPartsFit(j, fmt);
    FitsAppend6(InnerHead(j, fmt), When(j.dmax > 0.0, [Opt("-d", [fmt.fixed4(j.dmax)])]),
                When(j.voxelSize > 0.0, [Opt("-v", [fmt.fixed4(j.voxelSize)])]),
                When(j.electrons > 0, [Opt("--ne", [IntToString(j.electrons)])]),
                When(j.numSamples > 0, [Opt("-n", [IntToString(j.numSamples)])]), SymmetryOpts(j.extra), InnerArity);
  }

  lemma InnerHeadFits(j: Jobs.JobValue, fmt: Format)
    ensures Fits(InnerHead(j, fmt), InnerArity)
  {
  }

  lemma InnerPartsFit(j: Jobs.JobValue, fmt: Format)
    ensures Fits(When(j.dmax > 0.0, [Opt("-d", [fmt.fixed4(j.dmax)])]), InnerArity)
    ensures Fits(When(j.voxelSize > 0.0, [Opt("-v", [fmt.fixed4(j.voxelSize)])]), InnerArity)
    ensures Fits(When(j.electrons > 0, [Opt("--ne", [IntToString(j.electrons)])]), InnerArity)
    ensures Fits(When(j.numSamples > 0, [Opt("-n", [IntToString(j.numSamples)])]), InnerArity)
    ensures Fits(SymmetryOpts(j.extra), InnerArity)
  {
    SymmetryFits(j.extra);
    FitsWider(SymmetryOpts(j.extra), SymmetryArity, InnerArity);
  }

  /** denss, knowing each flag's arity, reads the inner list back as the
      options it was built from. */
  lemma InnerParsesBack(j: Jobs.JobValue, fmt: Format)
    ensures Parse(Flatten(InnerOpts(j, fmt)), InnerArity) == Some(InnerOpts(j, fmt))
  {
    InnerFits(j, fmt);
    ParseFlatten(InnerOpts(j, fmt), InnerArity);
  }

  /** Splitting the -i argument on white space gives the inner list back,
      provided the formatted numbers, the upper-cased mode and the symmetry steps
      are single words. An empty mode or steps with a space in them would be
      split differently. */
  lemma InnerSplitsBack(j: Jobs.JobValue, fmt: Format)
    requires forall r: real :: IsField(fmt.fixed4(r))
    requires IsField(fmt.upper(j.extra.mode))
    requires NoSpace(j.extra.symmetrySteps)
    ensures Fields(Join(Flatten(InnerOpts(j, fmt)), " ")) == Flatten(InnerOpts(j, fmt))
  {
    InnerAllFields(j, fmt);
    FieldsOfJoin(Flatten(InnerOpts(j, fmt)));
  }

  lemma InnerAllFields(j: Jobs.JobValue, fmt: Format)
    requires forall r: real :: IsField(fmt.fixed4(r))
    requires IsField(fmt.upper(j.extra.mode))
    requires NoSpace(j.extra.symmetrySteps)
    ensures AllFields(Flatten(InnerOpts(j, fmt)))
  {
    InnerFlat(j, fmt);
    var fixed := ["-os", fmt.fixed4(j.oversampling), "--plot_off", "--quiet", "--mode", fmt.upper(j.extra.mode)];
    var dA := When(j.dmax > 0.0, ["-d", fmt.fixed4(j.dmax)]);
    var vA := When(j.voxelSize > 0.0, ["-v", fmt.fixed4(j.voxelSize)]);
    var neA := When(j.electrons > 0, ["--ne", IntToString(j.electrons)]);
    var nA := When(j.numSamples > 0, ["-n", IntToString(j.numSamples)]);
    FixedFields(fmt.fixed4(j.oversampling), fmt.upper(j.extra.mode));
    AllFieldsWhen(j.dmax > 0.0, ["-d", fmt.fixed4(j.dmax)]);
    AllFieldsWhen(j.voxelSize > 0.0, ["-v", fmt.fixed4(j.voxelSize)]);
    AllFieldsWhen(j.electrons > 0, ["--ne", IntToString(j.electrons)]);
    AllFieldsWhen(j.numSamples > 0, ["-n", IntToString(j.numSamples)]);
    SymmetryFields(j.extra);
    AllFieldsAppend(fixed, dA);
    AllFieldsAppend(fixed + dA, vA);
    AllFieldsAppend(fixed + dA + vA, neA);
    AllFieldsAppend(fixed + dA + vA + neA, nA);
    AllFieldsAppend(fixed + dA + vA + neA + nA, Flatten(SymmetryOpts(j.extra)));
  }

  lemma FixedFields(os: string, mode: string)
    requires IsField(os) && IsField(mode)
    ensures AllFields(["-os", os, "--plot_off", "--quiet", "--mode", mode])
  {
  }

  /** Every argument is a single non-empty word. */
  predicate AllFields(ws: seq<string>) {
    forall k :: 0 <= k < |ws| ==> IsField(ws[k])
  }

  lemma AllFieldsAppend(a: seq<string>, b: seq<string>)
    requires AllFields(a) && AllFields(b)
    ensures AllFields(a + b)
  {
    forall k | 0 <= k < |a + b|
      ensures IsField((a + b)[k])
    {
      if k >= |a| {
        assert (a + b)[k] == b[k - |a|];
      }
    }
  }

  lemma AllFieldsWhen(c: bool, ws: seq<string>)
    requires AllFields(ws)
    ensures AllFields(When(c, ws))
  {
  }

  /** The symmetry arguments are single words when the steps are. */
  lemma SymmetryFields(e: Params.ExtraParams)
    requires NoSpace(e.symmetrySteps)
    ensures AllFields(Flatten(SymmetryOpts(e)))
  {
    if e.symmetry > 0 {
      SymmetryFlat(e);
      var head := ["-ncs", IntToString(e.symmetry)];
      var axis := When(e.symmetryAxis > 0, ["-ncs_axis", IntToString(e.symmetryAxis)]);
      var steps := When(e.symmetrySteps != "", ["-ncs_steps", e.symmetrySteps]);
      assert AllFields(head);
      AllFieldsWhen(e.symmetryAxis > 0, ["-ncs_axis", IntToString(e.symmetryAxis)]);
      assert AllFields(steps);
      AllFieldsAppend(head, axis);
      AllFieldsAppend(head + axis, steps);
    }
  }

  // ---------------------------------------------------------------------------
  // The outer options, read by superdenss itself

  function OuterHead(j: Jobs.JobValue, threads: int): seq<Opt> {
    [Opt("-f", [InputName(j.fileType)]), Opt("-o", [OutputName(j.id)]), Opt("-j", [IntToString(threads)]),
     Opt("-p", [])]
  }

  /** The options of the superdenss run for job `j`: the inner list travels as
      the single value of -i. */
  function OuterOpts(j: Jobs.JobValue, threads: int, fmt: Format): seq<Opt> {
    OuterHead(j, threads)
    + When(j.extra.enantiomer, [Opt("-e", [])])
    + When(j.maxRuns > 0, [Opt("-n", [IntToString(j.maxRuns)])])
    + [Opt("-i", [Join(Flatten(InnerOpts(j, fmt)), " ")])]
  }

  const OuterOrder: seq<string> := ["-f", "-o", "-j", "-p", "-e", "-n", "-i"]

  const OuterArity: Arity := map["-f" := 1, "-o" := 1, "-j" := 1, "-p" := 0, "-e" := 0, "-n" := 1, "-i" := 1]

  lemma OuterHeadFlat(j: Jobs.JobValue, threads: int)
    ensures Flatten(OuterHead(j, threads))
            == ["-f", InputName(j.fileType), "-o", OutputName(j.id), "-j", IntToString(threads), "-p"]
  {
    var h := OuterHead(j, threads);
    assert h[3..][1..] == [];
    assert Flatten(h[3..]) == ["-p"];
    assert h[2..][1..] == h[3..];
    assert Flatten(h[2..]) == ["-j", IntToString(threads)] + Flatten(h[3..]);
    assert h[1..][1..] == h[2..];
    assert Flatten(h[1..]) == ["-o", OutputName(j.id)] + Flatten(h[2..]);
  }

  lemma OuterFlat(j: Jobs.JobValue, threads: int, fmt: Format)
    ensures Flatten(OuterOpts(j, threads, fmt))
            == ["-f", InputName(j.fileType), "-o", OutputName(j.id), "-j", IntToString(threads), "-p"]
               + When(j.extra.enantiomer, ["-e"])
               + When(j.maxRuns > 0, ["-n", IntToString(j.maxRuns)])
               + ["-i", Join(Flatten(InnerOpts(j, fmt)), " ")]
  {
    var h := OuterHead(j, threads);
    var eOpt := When(j.extra.enantiomer, [Opt("-e", [])]);
    var nOpt := When(j.maxRuns > 0, [Opt("-n", [IntToString(j.maxRuns)])]);
    var iArg := Join(Flatten(InnerOpts(j, fmt)), " ");
    FlattenAppend(h + eOpt + nOpt, [Opt("-i", [iArg])]);
    FlattenAppend(h + eOpt, nOpt);
    FlattenAppend(h, eOpt);
    OuterHeadFlat(j, threads);
    FlattenWhenFlag(j.extra.enantiomer, "-e");
    FlattenWhenValue(j.maxRuns > 0, "-n", IntToString(j.maxRuns));
    FlattenWhenValue(true, "-i", iArg);
  }

  lemma OuterHeadFlags(j: Jobs.JobValue, threads: int)
    ensures Flags(OuterHead(j, threads)) == ["-f", "-o", "-j", "-p"]
  {
    FlagsAt(OuterHead(j, threads));
  }

  lemma OuterFlags(j: Jobs.JobValue, threads: int, fmt: Format)
    ensures Flags(OuterOpts(j, threads, fmt))
            == ["-f", "-o", "-j", "-p"] + When(j.extra.enantiomer, ["-e"]) + When(j.maxRuns > 0, ["-n"]) + ["-i"]
  {
    var h := OuterHead(j, threads);
    var eOpt := When(j.extra.enantiomer, [Opt("-e", [])]);
    var nOpt := When(j.maxRuns > 0, [Opt("-n", [IntToString(j.maxRuns)])]);
    var iOpt := Opt("-i", [Join(Flatten(InnerOpts(j, fmt)), " ")]);
    FlagsAppend(h + eOpt + nOpt, [iOpt]);
    FlagsAppend(h + eOpt, nOpt);
    FlagsAppend(h, eOpt);
    OuterHeadFlags(j, threads);
    FlagsWhen(j.extra.enantiomer, Opt("-e", []));
    FlagsWhen(j.maxRuns > 0, Opt("-n", [IntToString(j.maxRuns)]));
    FlagsWhen(true, iOpt);
  }

  /** The argument building of runSuperdenss: the outer fixed list and its
      guarded appends, then the inner fixed list and its guarded appends, and
      last -i with the inner list joined by single spaces. */
  method BuildArgs(j: Jobs.JobValue, threads: int, fmt: Format) returns (sargs: seq<string>, args: seq<string>)
    ensures args == Flatten(InnerOpts(j, fmt))
    ensures sargs == Flatten(OuterOpts(j, threads, fmt))
  {
    sargs := ["-f", InputName(j.fileType), "-o", OutputName(j.id), "-j", IntToString(threads), "-p"];
    ghost var before := sargs;
    if j.extra.enantiomer {
      sargs := sargs + ["-e"];
    }
    assert sargs == before + When(j.extra.enantiomer, ["-e"]);
    before := sargs;
    if j.maxRuns > 0 {
      sargs := sargs + ["-n", IntToString(j.maxRuns)];
    }
    assert sargs == before + When(j.maxRuns > 0, ["-n", IntToString(j.maxRuns)]);

    args := BuildInner(j, fmt);

    sargs := sargs + ["-i", Join(args, " ")];
    OuterFlat(j, threads, fmt);
  }

  /** The inner half of runSuperdenss's argument building. */
  method BuildInner(j: Jobs.JobValue, fmt: Format) returns (args: seq<string>)
    ensures args == Flatten(InnerOpts(j, fmt))
  {
    args := ["-os", fmt.fixed4(j.oversampling), "--plot_off", "--quiet", "--mode", fmt.upper(j.extra.mode)];
    ghost var before := args;
    if j.dmax > 0.0 {
      args := args + ["-d", fmt.fixed4(j.dmax)];
    }
    assert args == before + When(j.dmax > 0.0, ["-d", fmt.fixed4(j.dmax)]);
    before := args;
    if j.voxelSize > 0.0 {
      args := args + ["-v", fmt.fixed4(j.voxelSize)];
    }
    assert args == before + When(j.voxelSize > 0.0, ["-v", fmt.fixed4(j.voxelSize)]);
    before := args;
    if j.electrons > 0 {
      args := args + ["--ne", IntToString(j.electrons)];
    }
    assert args == before + When(j.electrons > 0, ["--ne", IntToString(j.electrons)]);
    before := args;
    if j.numSamples > 0 {
      args := args + ["-n", IntToString(j.numSamples)];
    }
    assert args == before + When(j.numSamples > 0, ["-n", IntToString(j.numSamples)]);
    args := AppendSymmetry(args, j.extra);
    InnerFlat(j, fmt);
  }

  /** The outer list always starts with the input name, the output prefix
      `output_<ID>`, the thread count and -p. */
  lemma OuterPrefix(j: Jobs.JobValue, threads: int, fmt: Format)
    ensures var sargs := Flatten(OuterOpts(j, threads, fmt));
      |sargs| >= 7 && sargs[..7] == ["-f", InputName(j.fileType), "-o", OutputName(j.id), "-j", IntToString(threads), "-p"]
  {
    OuterFlat(j, threads, fmt);
  }

  /** The last two outer arguments are -i and the inner list joined with single
      spaces. */
  lemma OuterLast(j: Jobs.JobValue, threads: int, fmt: Format)
    ensures var sargs := Flatten(OuterOpts(j, threads, fmt));
      |sargs| >= 9 && sargs[|sargs| - 2..] == ["-i", Join(Flatten(InnerOpts(j, fmt)), " ")]
  {
    OuterFlat(j, threads, fmt);
  }

  /** -e is passed exactly when the enantiomer search is on, and -n exactly when
      the number of runs is above 0. */
  lemma OuterOptional(j: Jobs.JobValue, threads: int, fmt: Format)
    ensures var fs := Flags(OuterOpts(j, threads, fmt));
      && ("-e" in fs <==> j.extra.enantiomer)
      && ("-n" in fs <==> j.maxRuns > 0)
  {
    OuterFlags(j, threads, fmt);
  }

  /** superdenss's -e and denss.all.py's -en_off have opposite polarity: for the
      same job exactly one of them is passed. */
  lemma EnantiomerPolarity(j: Jobs.JobValue, threads: int, gpu: bool, fmt: Format)
    ensures "-e" in Flags(OuterOpts(j, threads, fmt)) <==> "-en_off" !in Flags(DenssAll.Opts(j, threads, gpu, fmt))
  {
    OuterOptional(j, threads, fmt);
    DenssAll.Optional(j, threads, gpu, fmt);
  }

  lemma OuterInOrder(j: Jobs.JobValue, threads: int, fmt: Format)
    ensures Subsequence(Flags(OuterOpts(j, threads, fmt)), OuterOrder)
  {
    OuterFlags(j, threads, fmt);
    var fixed := ["-f", "-o", "-j", "-p"];
    SubsequenceRefl(fixed);
    SubsequenceRefl(["-i"]);
    WhenInOrder(j.extra.enantiomer, ["-e"]);
    WhenInOrder(j.maxRuns > 0, ["-n"]);
    var eF := When(j.extra.enantiomer, ["-e"]);
    var nF := When(j.maxRuns > 0, ["-n"]);
    SubsequenceAppend(fixed, fixed, eF, ["-e"]);
    SubsequenceAppend(fixed + eF, fixed + ["-e"], nF, ["-n"]);
    SubsequenceAppend(fixed + eF + nF, fixed + ["-e"] + ["-n"], ["-i"], ["-i"]);
    assert fixed + ["-e"] + ["-n"] + ["-i"] == OuterOrder;
  }

  /** superdenss reads the outer list back as the options it was built from. */
  lemma OuterParsesBack(j: Jobs.JobValue, threads: int, fmt: Format)
    ensures Parse(Flatten(OuterOpts(j, threads, fmt)), OuterArity) == Some(OuterOpts(j, threads, fmt))
  {
    var h := OuterHead(j, threads);
    var iOpt := Opt("-i", [Join(Flatten(InnerOpts(j, fmt)), " ")]);
    assert Fits(h, OuterArity);
    FitsWhen(j.extra.enantiomer, Opt("-e", []), OuterArity);
    FitsWhen(j.maxRuns > 0, Opt("-n", [IntToString(j.maxRuns)]), OuterArity);
    FitsWhen(true, iOpt, OuterArity);
    FitsAppend(h, When(j.extra.enantiomer, [Opt("-e", [])]), OuterArity);
    var p := h + When(j.extra.enantiomer, [Opt("-e", [])]);
    FitsAppend(p, When(j.maxRuns > 0, [Opt("-n", [IntToString(j.maxRuns)])]), OuterArity);
    p := p + When(j.maxRuns > 0, [Opt("-n", [IntToString(j.maxRuns)])]);
    FitsAppend(p, When(true, [iOpt]), OuterArity);
    ParseFlatten(OuterOpts(j, threads, fmt), OuterArity);
  }

  // ---------------------------------------------------------------------------
  // The stage

  /** The superdenss run for job `j`, in the working directory. */
  function Invocation(cfg: Config, j: Jobs.JobValue, fmt: Format, workDir: string, threads: int): Run {
    RunIn(cfg.superdenssPath, Flatten(OuterOpts(j, threads, fmt)), workDir)
  }

  /** runSuperdenss: the input data is written to `workDir/input.<FileType>`; a
      failed write is an error and nothing runs. Otherwise superdenss runs once,
      and its failure is the stage's error. */
  method RunSuperdenss(host: Machine, job: Jobs.Job, cfg: Config, fmt: Format, workDir: string, threads: int)
    returns (err: Option<StageError>)
    modifies host
    ensures var input := PathJoin(workDir, InputName(job.state.fileType));
      if !host.writable(input) then
        err == Some(WriteFailed) && host.files == old(host.files) && host.runs == old(host.runs)
      else
        var run := Invocation(cfg, job.state, fmt, workDir, threads);
        var outcome := host.tool(run, old(host.files)[input := job.state.inputData]);
        && host.runs == old(host.runs) + [(run, outcome.ok)]
        && host.files == outcome.files
        && err == if outcome.ok then None else Some(ToolFailed)
  {
    var j := job.state;
    var inputFile := InputName(j.fileType);
    var written := host.WriteFile(PathJoin(workDir, inputFile), j.inputData);
    if !written {
      return Some(WriteFailed);
    }
    var sargs, args := BuildArgs(j, threads, fmt);
    var ok := host.Exec(RunIn(cfg.superdenssPath, sargs, workDir));
    if !ok {
      return Some(ToolFailed);
    }
    return None;
  }
}
