/** What the client stages have in common: the error a stage returns, the file
    names they derive from a job, and the symmetry options that denss.all.py
    and superdenss's inner denss.py are both given. */
module Stage {
  import opened Text
  import opened Args
  import opened Host
  import Params

  /** Why a stage returned an error. */
  datatype StageError = WriteFailed | ToolFailed | MissingOutput | ReadFailed | ArchiveFailed

  /** `input.<FileType>`: the name the uploaded data is written under. */
  function InputName(fileType: string): (n: string)
    ensures |n| == 6 + |fileType| && n[..6] == "input." && n[6..] == fileType
  {
    "input." + fileType
  }

  /** `output_<n>`: the output prefix of job n or of attempt n. */
  function OutputName(n: int): (r: string)
    ensures |r| == 7 + |IntToString(n)| && r[..7] == "output_" && r[7..] == IntToString(n)
  {
    "output_" + IntToString(n)
  }

  /** Different numbers give different output names, whatever follows them. */
  lemma OutputNameInjective(a: int, b: int, suffix: string)
    requires OutputName(a) + suffix == OutputName(b) + suffix
    ensures a == b
  {
    var x := OutputName(a) + suffix;
    assert x[7..|x| - |suffix|] == IntToString(a);
    assert x[7..|x| - |suffix|] == IntToString(b);
    Params.DecodeEncodeInt(a, "");
    Params.DecodeEncodeInt(b, "");
    assert IntToString(a) + "" == IntToString(b) + "";
  }

  /** `workDir/output_<thread>.mrc`, the map one denss attempt leaves after
      conversion, which the EMAN2 stack is built from. */
  function MrcPath(workDir: string, thread: int): string {
    PathJoin(workDir, OutputName(thread) + ".mrc")
  }

  /** Each attempt has its own map file. */
  lemma MrcPathInjective(workDir: string, a: int, b: int)
    requires MrcPath(workDir, a) == MrcPath(workDir, b)
    ensures a == b
  {
    var p := MrcPath(workDir, a);
    assert p[|workDir| + 1..] == OutputName(a) + ".mrc";
    assert p[|workDir| + 1..] == OutputName(b) + ".mrc";
    OutputNameInjective(a, b, ".mrc");
  }

  /** `-ncs N`, when the symmetry is above 0, followed inside that case by
      `-ncs_axis` when the axis is above 0 and `-ncs_steps` when the steps are
      given. */
  function SymmetryOpts(e: Params.ExtraParams): seq<Opt> {
    When(e.symmetry > 0,
         [Opt("-ncs", [IntToString(e.symmetry)])]
         + When(e.symmetryAxis > 0, [Opt("-ncs_axis", [IntToString(e.symmetryAxis)])])
         + When(e.symmetrySteps != "", [Opt("-ncs_steps", [e.symmetrySteps])]))
  }

  const SymmetryOrder: seq<string> := ["-ncs", "-ncs_axis", "-ncs_steps"]

  /** Each symmetry flag takes one value. */
  const SymmetryArity: Arity := map["-ncs" := 1, "-ncs_axis" := 1, "-ncs_steps" := 1]

  /** The axis and the steps are only passed with a symmetry, and then exactly
      when they are set, each with its value. */
  lemma SymmetryFlags(e: Params.ExtraParams)
    ensures "-ncs" in Flags(SymmetryOpts(e)) <==> e.symmetry > 0
    ensures "-ncs_axis" in Flags(SymmetryOpts(e)) <==> e.symmetry > 0 && e.symmetryAxis > 0
    ensures "-ncs_steps" in Flags(SymmetryOpts(e)) <==> e.symmetry > 0 && e.symmetrySteps != ""
    ensures e.symmetry > 0 ==> Opt("-ncs", [IntToString(e.symmetry)]) in SymmetryOpts(e)
    ensures e.symmetry > 0 && e.symmetryAxis > 0 ==>
              Opt("-ncs_axis", [IntToString(e.symmetryAxis)]) in SymmetryOpts(e)
    ensures e.symmetry > 0 && e.symmetrySteps != "" ==>
              Opt("-ncs_steps", [e.symmetrySteps]) in SymmetryOpts(e)
  {
    if e.symmetry > 0 {
      SymmetryFlagsOf(e);
    }
  }

  lemma SymmetryFlagsOf(e: Params.ExtraParams)
    requires e.symmetry > 0
    ensures Flags(SymmetryOpts(e))
            == ["-ncs"] + When(e.symmetryAxis > 0, ["-ncs_axis"]) + When(e.symmetrySteps != "", ["-ncs_steps"])
  {
    var ncs := Opt("-ncs", [IntToString(e.symmetry)]);
    var axis := Opt("-ncs_axis", [IntToString(e.symmetryAxis)]);
    var steps := Opt("-ncs_steps", [e.symmetrySteps]);
    FlagsAppend([ncs] + When(e.symmetryAxis > 0, [axis]), When(e.symmetrySteps != "", [steps]));
    FlagsAppend([ncs], When(e.symmetryAxis > 0, [axis]));
    FlagsWhen(true, ncs);
    FlagsWhen(e.symmetryAxis > 0, axis);
    FlagsWhen(e.symmetrySteps != "", steps);
  }

  /** The symmetry flags come in a fixed order. */
  lemma SymmetryInOrder(e: Params.ExtraParams)
    ensures Subsequence(Flags(SymmetryOpts(e)), SymmetryOrder)
  {
    if e.symmetry > 0 {
      SymmetryFlagsOf(e);
      var axis := When(e.symmetryAxis > 0, ["-ncs_axis"]);
      var steps := When(e.symmetrySteps != "", ["-ncs_steps"]);
      SubsequenceRefl(["-ncs"]);
      WhenInOrder(e.symmetryAxis > 0, ["-ncs_axis"]);
      WhenInOrder(e.symmetrySteps != "", ["-ncs_steps"]);
      SubsequenceAppend(["-ncs"], ["-ncs"], axis, ["-ncs_axis"]);
      SubsequenceAppend(["-ncs"] + axis, ["-ncs", "-ncs_axis"], steps, ["-ncs_steps"]);
      assert ["-ncs", "-ncs_axis"] + ["-ncs_steps"] == SymmetryOrder;
    }
  }

  /** Each symmetry flag comes with one value. */
  lemma SymmetryFits(e: Params.ExtraParams)
    ensures Fits(SymmetryOpts(e), SymmetryArity)
  {
  }

  /** The symmetry part of the argument building of runDenssAll and
      runSuperdenss: the options appended to `args`. */
  method AppendSymmetry(args: seq<string>, e: Params.ExtraParams) returns (r: seq<string>)
    ensures r == args + Flatten(SymmetryOpts(e))
  {
    r := args;
    if e.symmetry > 0 {
      r := r + ["-ncs", IntToString(e.symmetry)];
      if e.symmetryAxis > 0 {
        r := r + ["-ncs_axis", IntToString(e.symmetryAxis)];
      }
      if e.symmetrySteps != "" {
        r := r + ["-ncs_steps", e.symmetrySteps];
      }
      SymmetryFlat(e);
    }
  }

  lemma SymmetryFlat(e: Params.ExtraParams)
    requires e.symmetry > 0
    ensures Flatten(SymmetryOpts(e))
            == ["-ncs", IntToString(e.symmetry)]
               + When(e.symmetryAxis > 0, ["-ncs_axis", IntToString(e.symmetryAxis)])
               + When(e.symmetrySteps != "", ["-ncs_steps", e.symmetrySteps])
  {
    var ncs := Opt("-ncs", [IntToString(e.symmetry)]);
    var axis := Opt("-ncs_axis", [IntToString(e.symmetryAxis)]);
    var steps := Opt("-ncs_steps", [e.symmetrySteps]);
    FlattenAppend([ncs] + When(e.symmetryAxis > 0, [axis]), When(e.symmetrySteps != "", [steps]));
    FlattenAppend([ncs], When(e.symmetryAxis > 0, [axis]));
    FlattenWhenValue(true, "-ncs", IntToString(e.symmetry));
    FlattenWhenValue(e.symmetryAxis > 0, "-ncs_axis", IntToString(e.symmetryAxis));
    FlattenWhenValue(e.symmetrySteps != "", "-ncs_steps", e.symmetrySteps);
  }
}
