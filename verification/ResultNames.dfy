/**
 The names of result files. Tasks for different PIDs and iterations share one temporary directory,
 so these names are all that keeps them apart.
 */
module ResultNames {
  import opened Text

  datatype Tool = AsyncProfiler | Jcmd | Pyspy | Bpf | Perf | Rbspy | NodeDummy | FakeTool | Austin | PProf

  const FLAMEGRAPH := "flamegraph"
  const RAW := "raw"
  const HEAP_DUMP := "heapdump"
  const PPROF := "pprof"

  const PROFILING_PREFIX := "agent-"

  function GetFileExtension(tool: Tool, outputType: string): string {
    match tool
    case AsyncProfiler =>
      if outputType == "jfr" then ".jfr"
      else if outputType in
        ["threaddump", "heaphistogram", "flat", "traces", "collapsed", "speedscope", RAW] then ".txt"
      else if outputType == HEAP_DUMP then ".hprof"
      else ".html"
    case Jcmd =>
      if outputType in ["jfr", RAW] then ".jfr"
      else if outputType in ["threaddump", "heaphistogram", "flat", "traces", "collapsed", "speedscope"] then ".txt"
      else if outputType == HEAP_DUMP then ".hprof"
      else ".html"
    case Pyspy =>
      if outputType == "speedscope" then ".json"
      else if outputType in ["threaddump", RAW] then ".txt"
      else ".svg"
    case Rbspy =>
      if outputType == "speedscope" then ".json"
      else if outputType == "callgrind" then ".out"
      else if outputType in ["summary", "summary-by-line"] then ".txt"
      else ".svg"
    case Bpf => if outputType == RAW then ".txt" else ".svg"
    case Perf => if outputType == RAW then ".txt" else ".svg"
    case Austin => if outputType == RAW then ".txt" else ".svg"
    case NodeDummy => if outputType == "heapsnapshot" then ".heapsnapshot" else ".svg"
    case PProf => ".pprof"
    case FakeTool => ".svg"
  }

  function GetResultFile(dir: string, tool: Tool, outputType: string, pid: string, iteration: nat): string {
    dir + "/" + PROFILING_PREFIX + outputType + "-" + pid + "-" + Itoa(iteration) + GetFileExtension(tool, outputType)
  }

  // ---------- reading a name back ----------

  /** Whose file it is: the PID and the iteration. */
  datatype Key = Key(pid: string, iteration: string)

  function KeyOf(name: string): Key {
    Key(After(Before(name, '-'), '-'), LeadingDigits(After(name, '-')))
  }

  /** Any name that puts the PID and the iteration between dashes belongs to that PID and iteration. */
  lemma KeyOfName(head: string, pid: string, iteration: nat, tail: string)
    requires '-' !in pid && '-' !in tail
    requires tail != "" ==> !IsDigit(tail[0])
    ensures KeyOf(head + "-" + pid + "-" + Itoa(iteration) + tail) == Key(pid, Itoa(iteration))
    ensures var name := head + "-" + pid + "-" + Itoa(iteration) + tail;
            Before(Before(name, '-'), '-') == head && After(name, '-') == Itoa(iteration) + tail
  {
    var last := Itoa(iteration) + tail;
    var name := head + "-" + pid + "-" + Itoa(iteration) + tail;
    assert '-' !in Itoa(iteration);
    CutAtLast(head + "-" + pid, '-', last);
    assert name == head + "-" + pid + "-" + last;
    CutAtLast(head, '-', pid);
    LeadingDigitsOf(Itoa(iteration), tail);
  }

  lemma DecimalHasNoDash(pid: string)
    requires IsDecimal(pid)
    ensures '-' !in pid && NoNewline(pid) && NoSpace(pid)
  {
  }

  lemma ExtensionShape(tool: Tool, outputType: string)
    ensures var e := GetFileExtension(tool, outputType); |e| > 0 && e[0] == '.' && '-' !in e
  {
  }

  /** A result file, and any file named by appending to it, belongs to its PID and iteration. */
  lemma KeyOfResultFile(dir: string, tool: Tool, outputType: string, pid: string, iteration: nat, suffix: string)
    requires IsDecimal(pid) && '-' !in suffix
    ensures KeyOf(GetResultFile(dir, tool, outputType, pid, iteration) + suffix) == Key(pid, Itoa(iteration))
    ensures var name := GetResultFile(dir, tool, outputType, pid, iteration) + suffix;
            && Before(Before(name, '-'), '-') == dir + "/" + PROFILING_PREFIX + outputType
            && After(name, '-') == Itoa(iteration) + (GetFileExtension(tool, outputType) + suffix)
  {
    DecimalHasNoDash(pid);
    ExtensionShape(tool, outputType);
    var head := dir + "/" + PROFILING_PREFIX + outputType;
    var tail := GetFileExtension(tool, outputType) + suffix;
    KeyOfName(head, pid, iteration, tail);
    assert GetResultFile(dir, tool, outputType, pid, iteration) + suffix
        == head + "-" + pid + "-" + Itoa(iteration) + tail;
  }

  lemma CancelLeft(a: string, b: string, c: string)
    requires a + b == a + c
    ensures b == c
  {
    assert b == (a + b)[|a|..];
    assert c == (a + c)[|a|..];
  }

  /**
   For one tool and one directory a name determines the output type, the PID, the iteration and what
   was appended. Output types may contain dashes. With an empty suffix on one side: a derived name
   (".txt", ".gz", ".gz.aa") is never a result name, and never another key's derived name.
   */
  lemma ResultFileInjective(
    dir: string, tool: Tool,
    outputType: string, pid: string, iteration: nat, suffix: string,
    outputType': string, pid': string, iteration': nat, suffix': string)
    requires IsDecimal(pid) && IsDecimal(pid') && '-' !in suffix && '-' !in suffix'
    requires GetResultFile(dir, tool, outputType, pid, iteration) + suffix
          == GetResultFile(dir, tool, outputType', pid', iteration') + suffix'
    ensures outputType == outputType' && pid == pid' && iteration == iteration' && suffix == suffix'
  {
    KeyOfResultFile(dir, tool, outputType, pid, iteration, suffix);
    KeyOfResultFile(dir, tool, outputType', pid', iteration', suffix');
    AtoiItoa(iteration);
    AtoiItoa(iteration');
    CancelLeft(dir + "/" + PROFILING_PREFIX, outputType, outputType');
    var extension := GetFileExtension(tool, outputType);
    CancelLeft(Itoa(iteration), extension + suffix, extension + suffix');
    CancelLeft(extension, suffix, suffix');
  }
}
