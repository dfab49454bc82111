/** The machine the client stages run on: its files, the external programs it
    runs and the settings and formatting calls the stages use.

    Which programs succeed and what they leave in the file system is not known
    to the client; it is the `tool` oracle, which maps a run and the files before
    it to the outcome. Whether a file can be written is the `writable` oracle.
    File contents are strings whose characters stand for bytes. */
module Host {
  import opened Text

  /** One program run: the program, its arguments, its working directory and
      what it is given on standard input ("" for none). */
  datatype Run = Run(tool: string, args: seq<string>, dir: string, stdin: string)

  /** What a run reports and the files it leaves behind. */
  datatype Outcome = Outcome(ok: bool, files: map<string, string>)

  /** The configuration values the stages read. */
  datatype Config = Config(
    enableGpu: bool,
    denssAllPath: string,
    superdenssPath: string,
    denssPath: string,
    eman2Dir: string,
    map2mapPath: string,
    fscPath: string,
    summaryPath: string
  )

  /** strings.ToUpper and fmt.Sprintf("%.4f", _). */
  datatype Format = Format(upper: string -> string, fixed4: real -> string)

  /** filepath.Join of a clean directory and a relative name. */
  function PathJoin(dir: string, name: string): (p: string)
    ensures |p| == |dir| + 1 + |name| && p[..|dir|] == dir && p[|dir|] == '/' && p[|dir| + 1..] == name
  {
    dir + "/" + name
  }

  /** A run in working directory `dir` with nothing on standard input. */
  function RunIn(tool: string, args: seq<string>, dir: string): Run {
    Run(tool, args, dir, "")
  }

  /** What ioutil.ReadFile gives: the contents, or nil (here "") for a missing file. */
  function ReadOf(files: map<string, string>, path: string): string {
    if path in files then files[path] else ""
  }

  /** The log of a series of runs, each with whether it succeeded, and the files
      after the last one. */
  datatype Series = Series(log: seq<(Run, bool)>, files: map<string, string>)

  /** The runs `rs` made one after another by `tool`, starting from `files`:
      each run is logged in order with its result and sees the files the
      previous one left. */
  function RunSeq(tool: (Run, map<string, string>) -> Outcome, rs: seq<Run>, files: map<string, string>): (s: Series)
    ensures |s.log| == |rs|
  {
    if rs == [] then Series([], files)
    else
      var before := RunSeq(tool, rs[..|rs| - 1], files);
      var outcome := tool(rs[|rs| - 1], before.files);
      Series(before.log + [(rs[|rs| - 1], outcome.ok)], outcome.files)
  }

  /** The log lists the runs in the order they were made. */
  lemma {:induction false} RunSeqLogs(tool: (Run, map<string, string>) -> Outcome, rs: seq<Run>, files: map<string, string>)
    ensures forall k :: 0 <= k < |rs| ==> RunSeq(tool, rs, files).log[k].0 == rs[k]
  {
    if rs != [] {
      RunSeqLogs(tool, rs[..|rs| - 1], files);
    }
  }

  /** Every run in the log succeeded. */
  predicate AllOk(log: seq<(Run, bool)>) {
    forall k :: 0 <= k < |log| ==> log[k].1
  }

  /** One more run at the end of a series. */
  lemma RunSeqSnoc(tool: (Run, map<string, string>) -> Outcome, rs: seq<Run>, r: Run, files: map<string, string>)
    ensures var before := RunSeq(tool, rs, files);
      RunSeq(tool, rs + [r], files)
      == Series(before.log + [(r, tool(r, before.files).ok)], tool(r, before.files).files)
  {
    assert (rs + [r])[..|rs|] == rs;
  }

  lemma AllOkSnoc(log: seq<(Run, bool)>, r: Run, ok: bool)
    ensures AllOk(log + [(r, ok)]) <==> AllOk(log) && ok
  {
    if AllOk(log) && ok {
      forall k | 0 <= k < |log| + 1
        ensures (log + [(r, ok)])[k].1
      {
        if k < |log| {
          assert (log + [(r, ok)])[k] == log[k];
        }
      }
    }
    if AllOk(log + [(r, ok)]) {
      assert (log + [(r, ok)])[|log|] == (r, ok);
      forall k | 0 <= k < |log|
        ensures log[k].1
      {
        assert (log + [(r, ok)])[k] == log[k];
      }
    }
  }

  class Machine {
    /** The file system: path to contents. */
    var files: map<string, string>
    /** Every program run so far, in order, with whether it succeeded. */
    var runs: seq<(Run, bool)>
    const tool: (Run, map<string, string>) -> Outcome
    const writable: string -> bool

    constructor (files0: map<string, string>, tool: (Run, map<string, string>) -> Outcome, writable: string -> bool)
      ensures files == files0 && runs == [] && this.tool == tool && this.writable == writable
    {
      files := files0;
      runs := [];
      this.tool := tool;
      this.writable := writable;
    }

    /** ioutil.WriteFile: fails, changing nothing, where the path is not writable. */
    method WriteFile(path: string, data: string) returns (ok: bool)
      modifies this
      ensures ok == writable(path)
      ensures files == if ok then old(files)[path := data] else old(files)
      ensures runs == old(runs)
    {
      ok := writable(path);
      if ok {
        files := files[path := data];
      }
    }

    /** ioutil.ReadFile: the contents, or nil and an error for a missing file. */
    method ReadFile(path: string) returns (data: string, ok: bool)
      ensures ok <==> path in files
      ensures data == ReadOf(files, path)
    {
      ok := path in files;
      data := ReadOf(files, path);
    }

    /** os.Stat: whether the path exists. */
    method Stat(path: string) returns (found: bool)
      ensures found <==> path in files
    {
      found := path in files;
    }

    /** exec.Cmd.CombinedOutput: runs the program; a non-zero exit, a failure to
        start or a timeout is a failed run. The output text is not modelled. */
    method Exec(run: Run) returns (ok: bool)
      modifies this
      ensures ok == tool(run, old(files)).ok
      ensures files == tool(run, old(files)).files
      ensures runs == old(runs) + [(run, ok)]
    {
      var outcome := tool(run, files);
      ok := outcome.ok;
      files := outcome.files;
      runs := runs + [(run, ok)];
    }
  }
}
