/**
 * The file locations `run_script` derives from the script path, and the
 * tracer command line it runs (run.py, `create_script` and `run_script`).
 */
module TracePaths {
  import opened Wrappers

  /** The name of the trace file the tracer writes next to the script. */
  const TraceFileName := "stap_record.txt"

  /** The suffix `create_script` appends to the binary path to name the script. */
  const ScriptSuffix := "_collect.stp"

  /** A script path split into its directory (with the final '/') and its file name. */
  datatype Location = Location(dir: string, exec: string)

  /** The tracer invocation: its argument vector and its working directory. */
  datatype Invocation = Invocation(argv: seq<string>, cwd: string)

  /** `path.rfind('/')`: the index of the last slash, None for -1. */
  function LastSlash(path: string): (r: Option<nat>)
    ensures r.Some? ==> r.value < |path| && path[r.value] == '/' && '/' !in path[r.value + 1..]
    ensures r.None? ==> '/' !in path
    decreases |path|
  {
    if path == [] then None
    else if path[|path| - 1] == '/' then Some(|path| - 1)
    else
      var r := LastSlash(path[..|path| - 1]);
      assert r.Some? ==> path[r.value + 1..] == path[..|path| - 1][r.value + 1..] + [path[|path| - 1]];
      assert r.None? ==> path == path[..|path| - 1] + [path[|path| - 1]];
      r
  }

  /** The split at the last '/' of the script path (run.py:72-78). */
  function SplitScriptPath(path: string): (l: Location)
    ensures l.dir + l.exec == path
    ensures '/' !in l.exec
    ensures l.dir == [] || l.dir[|l.dir| - 1] == '/'
    ensures '/' !in path ==> l.dir == []
  {
    match LastSlash(path)
    case None => Location("", path)
    case Some(delim) =>
      assert path == path[..delim + 1] + path[delim + 1..];
      Location(path[..delim + 1], path[delim + 1..])
  }

  /** The script path for a binary (run.py:54). */
  function ScriptPath(binary: string): (p: string)
    ensures |p| == |binary| + |ScriptSuffix| && p[..|binary|] == binary && p[|binary|..] == ScriptSuffix
  {
    binary + ScriptSuffix
  }

  /** The trace file path: the script's directory followed by the fixed trace file name (run.py:81). */
  function TracePath(scriptPath: string): (p: string)
    ensures p == SplitScriptPath(scriptPath).dir + TraceFileName
    ensures '/' !in scriptPath ==> p == TraceFileName
  {
    SplitScriptPath(scriptPath).dir + TraceFileName
  }

  /** The `stap` command `run_script` runs, in the script's directory (run.py:82-83). */
  function StapInvocation(scriptPath: string, binary: string): (inv: Invocation)
    ensures |inv.argv| == 7
    ensures inv.argv[0] == "stap" && inv.argv[1] == "-v" && inv.argv[3] == "-o" && inv.argv[5] == "-c"
    ensures inv.argv[6] == binary
    ensures inv.cwd == SplitScriptPath(scriptPath).dir && inv.argv[2] == SplitScriptPath(scriptPath).exec
    ensures inv.cwd + inv.argv[2] == scriptPath && '/' !in inv.argv[2]
    ensures inv.argv[4] == TracePath(scriptPath)
  {
    var l := SplitScriptPath(scriptPath);
    Invocation(["stap", "-v", l.exec, "-o", l.dir + TraceFileName, "-c", binary], l.dir)
  }

  /**
   * The split is the only one with its three properties: the parts
   * concatenate to the path, the file name has no '/', and the directory is
   * empty or ends in '/'.
   */
  lemma SplitUnique(path: string, dir: string, exec: string)
    requires dir + exec == path && '/' !in exec && (dir == [] || dir[|dir| - 1] == '/')
    ensures SplitScriptPath(path) == Location(dir, exec)
  {
    var l := SplitScriptPath(path);
    assert l.dir == path[..|l.dir|] && dir == path[..|dir|];
  }

  /** The script lies in the binary's directory; its file name is the binary's name plus the suffix. */
  lemma ScriptBesideBinary(binary: string)
    ensures SplitScriptPath(ScriptPath(binary)) ==
      Location(SplitScriptPath(binary).dir, SplitScriptPath(binary).exec + ScriptSuffix)
    ensures TracePath(ScriptPath(binary)) == SplitScriptPath(binary).dir + TraceFileName
  {
    var b := SplitScriptPath(binary);
    assert '/' !in ScriptSuffix;
    assert b.dir + (b.exec + ScriptSuffix) == binary + ScriptSuffix;
    SplitUnique(ScriptPath(binary), b.dir, b.exec + ScriptSuffix);
  }
}
