/** client/situs.go convertToMRC: map2map turns the XPLOR map of one denss
    attempt into the MRC map that the EMAN2 stack is built from. */
module Situs {
  import opened Wrappers
  import opened Host
  import opened Stage
  import Denss
  import Eman2

  /** `workDir/output_<thread>.xplor`, the map denss.py leaves. */
  function XplorPath(workDir: string, thread: int): string {
    PathJoin(workDir, OutputName(thread) + ".xplor")
  }

  /** map2map's arguments: the map to read, then the map to write. */
  function Args(workDir: string, thread: int): seq<string> {
    [XplorPath(workDir, thread), MrcPath(workDir, thread)]
  }

  /** The map2map run: "2" on standard input selects the XPLOR input type. */
  function ConvertRun(cfg: Config, workDir: string, thread: int): Run {
    Run(cfg.map2mapPath, Args(workDir, thread), workDir, "2\n")
  }

  /** The conversion reads the map written under denss's output prefix for the
      attempt, and writes a different file: the one the stack lists for that
      attempt. */
  lemma ConvertsAttempt(workDir: string, thread: int, maxRuns: int)
    requires 0 <= thread < maxRuns
    ensures var args := Args(workDir, thread);
      && args[0] == Denss.Prefix(workDir, thread) + ".xplor"
      && args[1] == Eman2.StackArgs(workDir, maxRuns)[2 + thread]
      && args[0] != args[1]
  {
    var args := Args(workDir, thread);
    assert workDir + "/" + (OutputName(thread) + ".xplor") == workDir + "/" + OutputName(thread) + ".xplor";
    Eman2.StackListsAttempts(workDir, maxRuns);
    var n := |workDir| + 1 + |OutputName(thread)|;
    assert args[0][n..] == ".xplor";
    assert args[1][n..] == ".mrc";
  }

  /** convertToMRC: a failed map2map run is an error, and so is a successful one
      that leaves no MRC map. */
  method ConvertToMrc(host: Machine, cfg: Config, workDir: string, thread: int) returns (err: Option<StageError>)
    modifies host
    ensures var run := ConvertRun(cfg, workDir, thread);
      var outcome := host.tool(run, old(host.files));
      && host.runs == old(host.runs) + [(run, outcome.ok)]
      && host.files == outcome.files
      && err == if !outcome.ok then Some(ToolFailed)
                else if MrcPath(workDir, thread) !in outcome.files then Some(MissingOutput)
                else None
  {
    var xplorFile := PathJoin(workDir, OutputName(thread) + ".xplor");
    var mrcFile := PathJoin(workDir, OutputName(thread) + ".mrc");
    var ok := host.Exec(Run(cfg.map2mapPath, [xplorFile, mrcFile], workDir, "2\n"));
    if !ok {
      return Some(ToolFailed);
    }
    var found := host.Stat(mrcFile);
    if !found {
      return Some(MissingOutput);
    }
    return None;
  }
}
