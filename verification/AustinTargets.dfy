/**
 Which of the target's files austin needs: the interpreter and, for a shared build, libpython, found in
 the process's memory map. Every path is taken from its first mapping.
 */
module AustinTargets {
  import opened Text

  datatype TargetFile = TargetFile(path: string, source: string)

  const DELETED := " (deleted)"

  // ---------- words ----------

  predicate IsWord(s: string) { s != "" && NoSpace(s) }

  /** The part before the first white space. */
  function FirstWord(s: string): (w: string)
    ensures |w| <= |s| && w == s[..|w|] && NoSpace(w)
    ensures |w| < |s| ==> IsSpace(s[|w|])
  {
    if s == "" || IsSpace(s[0]) then "" else [s[0]] + FirstWord(s[1..])
  }

  lemma TrimLeftShortens(s: string)
    ensures |TrimLeft(s)| <= |s| && (TrimLeft(s) != "" ==> !IsSpace(TrimLeft(s)[0]))
  {
  }

  function Fields(s: string): seq<string>
    decreases |s|
  {
    TrimLeftShortens(s);
    var t := TrimLeft(s);
    if t == "" then [] else [FirstWord(t)] + Fields(t[|FirstWord(t)|..])
  }

  lemma {:induction false} FirstWordOf(w: string, rest: string)
    requires NoSpace(w) && (rest == "" || IsSpace(rest[0]))
    ensures FirstWord(w + rest) == w
  {
    if w == "" {
      assert w + rest == rest;
    } else {
      FirstWordOf(w[1..], rest);
      assert (w + rest)[1..] == w[1..] + rest;
    }
  }

  lemma FieldsCons(w: string, rest: string)
    requires IsWord(w) && (rest == "" || IsSpace(rest[0]))
    ensures Fields(w + rest) == [w] + Fields(rest)
  {
    FirstWordOf(w, rest);
    assert TrimLeft(w + rest) == w + rest;
    assert (w + rest)[|w|..] == rest;
  }

  predicate Blanks(s: string) { forall i :: 0 <= i < |s| ==> s[i] == ' ' }

  lemma {:induction false} FieldsSkipBlanks(blanks: string, s: string)
    requires Blanks(blanks)
    ensures Fields(blanks + s) == Fields(s)
  {
    TrimLeftBlanks(blanks, s);
  }

  lemma {:induction false} TrimLeftBlanks(blanks: string, s: string)
    requires Blanks(blanks)
    ensures TrimLeft(blanks + s) == TrimLeft(s)
  {
    if blanks == "" {
      assert blanks + s == s;
    } else {
      TrimLeftBlanks(blanks[1..], s);
      assert (blanks + s)[1..] == blanks[1..] + s;
    }
  }

  lemma FieldsSpaced(w: string, tail: string)
    requires IsWord(w)
    ensures Fields(w + " " + tail) == [w] + Fields(tail)
  {
    FieldsCons(w, " " + tail);
    FieldsSkipBlanks(" ", tail);
    assert w + " " + tail == w + (" " + tail);
  }

  /** Reading single-spaced words gives the words, and then what follows them. */
  lemma {:induction false} FieldsPrefix(words: seq<string>, rest: string)
    requires |words| > 0 && forall i :: 0 <= i < |words| ==> IsWord(words[i])
    requires rest == "" || IsSpace(rest[0])
    ensures Fields(Join(words, " ") + rest) == words + Fields(rest)
  {
    if |words| == 1 {
      FieldsCons(words[0], rest);
    } else {
      FieldsPrefix(words[1..], rest);
      FieldsNext(words, Join(words[1..], " "), rest);
    }
  }

  lemma FieldsNext(words: seq<string>, tail: string, rest: string)
    requires words != [] && IsWord(words[0]) && Fields(tail + rest) == words[1..] + Fields(rest)
    ensures Fields(words[0] + " " + tail + rest) == words + Fields(rest)
  {
    FieldsStep(words[0], words[1..], tail, rest);
    assert [words[0]] + words[1..] == words;
  }

  lemma FieldsStep(w: string, words: seq<string>, tail: string, rest: string)
    requires IsWord(w) && Fields(tail + rest) == words + Fields(rest)
    ensures Fields(w + " " + tail + rest) == [w] + words + Fields(rest)
  {
    FieldsSpaced(w, tail + rest);
    assert w + " " + tail + rest == w + " " + (tail + rest);
  }

  lemma FieldsJoin(words: seq<string>)
    requires |words| > 0 && forall i :: 0 <= i < |words| ==> IsWord(words[i])
    ensures Fields(Join(words, " ")) == words
  {
    FieldsPrefix(words, "");
    assert Join(words, " ") + "" == Join(words, " ");
  }

  // ---------- one line of the memory map ----------

  function TrimSlashes(path: string): string {
    if path != "" && path[|path| - 1] == '/' then TrimSlashes(path[..|path| - 1]) else path
  }

  function Base(path: string): string {
    if path == "" then "."
    else if TrimSlashes(path) == "" then "/"
    else After(TrimSlashes(path), '/')
  }

  predicate IsAbs(path: string) { HasPrefix(path, "/") }

  function MappedPath(fields: seq<string>): string
    requires |fields| >= 6
  {
    TrimSuffix(Join(fields[5..], " "), DELETED)
  }

  predicate IsLibpython(fields: seq<string>) {
    |fields| >= 6 && HasPrefix(Base(MappedPath(fields)), "libpython")
  }

  function ProcFile(pid: string, name: string): string { "/proc/" + pid + "/" + name }

  /** A line as the kernel prints it: five columns, padding, then the path and perhaps a mark. */
  function MapLine(columns: seq<string>, padding: string, path: string, deleted: bool): string {
    Join(columns, " ") + " " + padding + path + if deleted then DELETED else ""
  }

  lemma {:induction false} JoinAppend(a: seq<string>, b: seq<string>)
    requires |a| > 0 && |b| > 0
    ensures Join(a + b, " ") == Join(a, " ") + " " + Join(b, " ")
  {
    if |a| == 1 {
      assert (a + b)[1..] == b;
    } else {
      JoinAppend(a[1..], b);
      assert (a + b)[1..] == a[1..] + b;
    }
  }

  /**
   Reading a printed line of a path whose words are single-spaced: the address range always comes back, and the
   path exactly if it is marked or does not itself end like the mark.
   */
  lemma MapLineRoundTrip(columns: seq<string>, padding: string, words: seq<string>, deleted: bool)
    requires |columns| == 5 && forall i :: 0 <= i < 5 ==> IsWord(columns[i])
    requires Blanks(padding)
    requires |words| > 0 && forall i :: 0 <= i < |words| ==> IsWord(words[i])
    ensures var path := Join(words, " ");
            var fields := Fields(MapLine(columns, padding, path, deleted));
            && |fields| >= 6 && fields[0] == columns[0]
            && (MappedPath(fields) == path <==> deleted || !HasSuffix(path, DELETED))
  {
    if deleted {
      MarkedLine(columns, padding, words);
    } else {
      var path := Join(words, " ");
      LineFields(columns, padding, words);
      assert MapLine(columns, padding, path, false) == Join(columns, " ") + " " + padding + path;
      assert (columns + words)[5..] == words;
    }
  }

  lemma MarkedLine(columns: seq<string>, padding: string, words: seq<string>)
    requires |columns| == 5 && forall i :: 0 <= i < 5 ==> IsWord(columns[i])
    requires Blanks(padding)
    requires |words| > 0 && forall i :: 0 <= i < |words| ==> IsWord(words[i])
    ensures var fields := Fields(MapLine(columns, padding, Join(words, " "), true));
            |fields| >= 6 && fields[0] == columns[0] && MappedPath(fields) == Join(words, " ")
  {
    var path, mark := Join(words, " "), "(deleted)";
    var marked := words + [mark];
    assert IsWord(mark);
    forall i | 0 <= i < |marked|
      ensures IsWord(marked[i])
    {
      assert i < |words| ==> marked[i] == words[i];
    }
    JoinAppend(words, [mark]);
    MarkText(path);
    assert Join(marked, " ") == path + DELETED;
    LineFields(columns, padding, marked);
    assert MapLine(columns, padding, path, true) == Join(columns, " ") + " " + padding + Join(marked, " ");
    assert (columns + marked)[5..] == marked;
    TrimSuffixOf(path, DELETED);
  }

  lemma MarkText(path: string)
    ensures path + " " + "(deleted)" == path + DELETED
  {
    assert " " + "(deleted)" == DELETED;
    assert path + " " + "(deleted)" == path + (" " + "(deleted)");
  }

  lemma TrimSuffixOf(s: string, suffix: string)
    ensures TrimSuffix(s + suffix, suffix) == s
  {
    assert (s + suffix)[|s|..] == suffix;
  }

  lemma LineFields(columns: seq<string>, padding: string, words: seq<string>)
    requires |columns| > 0 && forall i :: 0 <= i < |columns| ==> IsWord(columns[i])
    requires |words| > 0 && forall i :: 0 <= i < |words| ==> IsWord(words[i])
    requires Blanks(padding)
    ensures Fields(Join(columns, " ") + " " + padding + Join(words, " ")) == columns + words
  {
    var text := Join(words, " ");
    FieldsPrefix(columns, " " + padding + text);
    FieldsSkipBlanks(" " + padding, text);
    FieldsJoin(words);
    assert Join(columns, " ") + " " + padding + text == Join(columns, " ") + (" " + padding + text);
  }

  // ---------- the candidates ----------

  function OfLine(pid: string, line: string): seq<TargetFile> {
    var fields := Fields(line);
    if IsLibpython(fields) then [TargetFile(MappedPath(fields), ProcFile(pid, "map_files/" + fields[0]))] else []
  }

  function OfLines(pid: string, lines: seq<string>): seq<TargetFile> {
    if lines == [] then [] else OfLines(pid, lines[..|lines| - 1]) + OfLine(pid, lines[|lines| - 1])
  }

  function Candidates(pid: string, exe: string, maps: string): seq<TargetFile> {
    [TargetFile(TrimSuffix(exe, DELETED), ProcFile(pid, "exe"))] + OfLines(pid, Split(maps, '\n'))
  }

  /** The candidate is usable, and the first with its path. */
  predicate Wanted(cands: seq<TargetFile>, readable: string -> bool, i: nat)
    requires i < |cands|
  {
    && IsAbs(cands[i].path)
    && readable(cands[i].source)
    && forall j :: 0 <= j < i ==> cands[j].path != cands[i].path
  }

  function Selected(cands: seq<TargetFile>, readable: string -> bool, n: nat): seq<TargetFile>
    requires n <= |cands|
  {
    if n == 0 then []
    else Selected(cands, readable, n - 1) + if Wanted(cands, readable, n - 1) then [cands[n - 1]] else []
  }

  method FindTargetFiles(pid: string, exe: Option<string>, maps: Option<string>, readable: string -> bool)
    returns (files: Option<seq<TargetFile>>)
    ensures files.Some? <==> exe.Some? && maps.Some?
    ensures files.Some? ==>
              var cands := Candidates(pid, exe.value, maps.value);
              files.value == Selected(cands, readable, |cands|)
  {
    if exe == None || maps == None {
      return None;
    }
    var interpreter := TargetFile(TrimSuffix(exe.value, DELETED), ProcFile(pid, "exe"));
    var libraries := FindLibraries(pid, Split(maps.value, '\n'));
    var found := FilterCandidates([interpreter] + libraries, readable);
    files := Some(found);
  }

  /** The libpython lines of the memory map. */
  method FindLibraries(pid: string, lines: seq<string>) returns (candidates: seq<TargetFile>)
    ensures candidates == OfLines(pid, lines)
  {
    candidates := [];
    for i := 0 to |lines|
      invariant candidates == OfLines(pid, lines[..i])
    {
      assert lines[..i + 1][..i] == lines[..i];
      var fields := Fields(lines[i]);
      if |fields| < 6 {
        continue;
      }
      var path := TrimSuffix(Join(fields[5..], " "), DELETED);
      if HasPrefix(Base(path), "libpython") {
        candidates := candidates + [TargetFile(path, ProcFile(pid, "map_files/" + fields[0]))];
      }
    }
    assert lines[..|lines|] == lines;
  }

  /** First mapping wins: a path seen before is skipped, even when its first source was not readable. */
  method FilterCandidates(candidates: seq<TargetFile>, readable: string -> bool) returns (files: seq<TargetFile>)
    ensures files == Selected(candidates, readable, |candidates|)
  {
    files := [];
    var seen: set<string> := {};
    for i := 0 to |candidates|
      invariant files == Selected(candidates, readable, i)
      invariant forall path :: path in seen <==> IsAbs(path) && exists j :: 0 <= j < i && candidates[j].path == path
    {
      var f := candidates[i];
      if f.path in seen || !IsAbs(f.path) {
        continue;
      }
      seen := seen + {f.path};
      if !readable(f.source) {
        continue;
      }
      files := files + [f];
    }
  }

  // ---------- what is found ----------

  lemma BaseIsName(dir: string, name: string)
    requires name != "" && '/' !in name
    ensures Base(dir + "/" + name) == name
  {
    CutAtLast(dir, '/', name);
    assert TrimSlashes(dir + "/" + name) == dir + "/" + name;
  }

  /**
   A printed line of the memory map is taken for a library of Python exactly if the last part of its path starts
   with "libpython"; the library is then to be read through the mapping's own address range.
   */
  lemma LibpythonFound(
    pid: string, columns: seq<string>, padding: string, words: seq<string>, deleted: bool, dir: string, name: string)
    requires |columns| == 5 && forall i :: 0 <= i < 5 ==> IsWord(columns[i])
    requires Blanks(padding)
    requires |words| > 0 && forall i :: 0 <= i < |words| ==> IsWord(words[i])
    requires Join(words, " ") == dir + "/" + name && name != "" && '/' !in name
    requires deleted || !HasSuffix(name, " (deleted)")
    ensures OfLine(pid, MapLine(columns, padding, dir + "/" + name, deleted)) ==
              if HasPrefix(name, "libpython")
              then [TargetFile(dir + "/" + name, "/proc/" + pid + "/map_files/" + columns[0])] else []
  {
    MapLineRoundTrip(columns, padding, words, deleted);
    BaseIsName(dir, name);
    SuffixOfName(dir, name, DELETED);
    OfParsedLine(pid, MapLine(columns, padding, dir + "/" + name, deleted), dir + "/" + name, columns[0]);
  }

  lemma SuffixOfName(dir: string, name: string, suffix: string)
    requires '/' !in suffix
    ensures HasSuffix(dir + "/" + name, suffix) ==> HasSuffix(name, suffix)
  {
    var path := dir + "/" + name;
    if |name| < |suffix| <= |path| {
      assert path[|path| - |suffix|..][|suffix| - |name| - 1] == '/';
    } else if |suffix| <= |name| {
      assert path[|path| - |suffix|..] == name[|name| - |suffix|..];
    }
  }

  lemma OfParsedLine(pid: string, line: string, path: string, range: string)
    requires |Fields(line)| >= 6 && Fields(line)[0] == range && MappedPath(Fields(line)) == path
    ensures OfLine(pid, line) ==
              if HasPrefix(Base(path), "libpython")
              then [TargetFile(path, "/proc/" + pid + "/map_files/" + range)] else []
  {
    assert ProcFile(pid, "map_files/" + range) == "/proc/" + pid + "/map_files/" + range;
  }

  /** The interpreter is the first candidate, by the path it had when it was started, read through /proc itself. */
  lemma InterpreterFound(pid: string, path: string, deleted: bool, maps: string)
    requires deleted || !HasSuffix(path, " (deleted)")
    ensures var cands := Candidates(pid, path + if deleted then " (deleted)" else "", maps);
            |cands| > 0 && cands[0] == TargetFile(path, "/proc/" + pid + "/exe")
  {
    if deleted {
      TrimSuffixOf(path, DELETED);
    } else {
      assert path + "" == path;
    }
  }

  lemma JoinUnlines(lines: seq<string>)
    ensures Unlines(lines) == Join(lines + [""], "\n")
  {
    if lines != [] {
      JoinUnlines(lines[1..]);
      assert (lines + [""])[1..] == lines[1..] + [""];
    }
  }

  /** Of a memory map printed line by line the lines are read, each for itself. */
  lemma LibrariesOfMap(pid: string, exe: string, lines: seq<string>)
    requires forall i :: 0 <= i < |lines| ==> NoNewline(lines[i])
    ensures Candidates(pid, exe, Unlines(lines))[1..] == OfLines(pid, lines)
  {
    var all := lines + [""];
    JoinUnlines(lines);
    SplitJoin(all, '\n');
    assert all[..|lines|] == lines && OfLine(pid, "") == [];
  }

  // ---------- what is selected ----------

  lemma {:induction false} SelectedAt(cands: seq<TargetFile>, readable: string -> bool, n: nat) returns (at: seq<nat>)
    requires n <= |cands|
    ensures var files := Selected(cands, readable, n);
            && |at| == |files|
            && (forall k :: 0 <= k < |at| ==> at[k] < n && Wanted(cands, readable, at[k]) && files[k] == cands[at[k]])
            && (forall k, m :: 0 <= k < m < |at| ==> at[k] < at[m])
  {
    at := [];
    if n > 0 {
      at := SelectedAt(cands, readable, n - 1);
      if Wanted(cands, readable, n - 1) {
        at := at + [n - 1];
      }
    }
  }

  lemma {:induction false} SelectedComplete(cands: seq<TargetFile>, readable: string -> bool, n: nat, i: nat)
    requires i < n <= |cands| && Wanted(cands, readable, i)
    ensures cands[i] in Selected(cands, readable, n)
  {
    if i < n - 1 {
      SelectedComplete(cands, readable, n - 1, i);
    }
  }

  /**
   The selected files: at increasing positions `at` of the candidates, absolute and readable, no path twice, and
   each path with the source of its first mapping, never of a later one.
   */
  lemma FirstMappingWins(cands: seq<TargetFile>, readable: string -> bool) returns (at: seq<nat>)
    ensures var files := Selected(cands, readable, |cands|);
            && |at| == |files|
            && (forall k :: 0 <= k < |at| ==> at[k] < |cands| && files[k] == cands[at[k]])
            && (forall k, m :: 0 <= k < m < |at| ==> at[k] < at[m])
    ensures var files := Selected(cands, readable, |cands|);
            && (forall k :: 0 <= k < |files| ==> IsAbs(files[k].path) && readable(files[k].source))
            && (forall k, m :: 0 <= k < m < |files| ==> files[k].path != files[m].path)
            && (forall i :: 0 <= i < |cands| ==> (Wanted(cands, readable, i) ==> cands[i] in files))
            && (forall k, i :: 0 <= k < |files| && 0 <= i < |cands| && cands[i].path == files[k].path
                  && (forall j :: 0 <= j < i ==> cands[j].path != cands[i].path)
                  ==> cands[i].source == files[k].source)
  {
    var files := Selected(cands, readable, |cands|);
    at := SelectedAt(cands, readable, |cands|);
    forall i | 0 <= i < |cands| && Wanted(cands, readable, i)
      ensures cands[i] in files
    {
      SelectedComplete(cands, readable, |cands|, i);
    }
    forall k, i | 0 <= k < |files| && 0 <= i < |cands| && cands[i].path == files[k].path
                  && (forall j :: 0 <= j < i ==> cands[j].path != cands[i].path)
      ensures cands[i].source == files[k].source
    {
      assert files[k] == cands[at[k]];
      assert at[k] == i;
    }
  }

  /** The interpreter comes first when it is usable. */
  lemma {:induction false} InterpreterFirst(cands: seq<TargetFile>, readable: string -> bool, n: nat)
    requires 0 < n <= |cands| && IsAbs(cands[0].path) && readable(cands[0].source)
    ensures |Selected(cands, readable, n)| > 0 && Selected(cands, readable, n)[0] == cands[0]
  {
    if n > 1 {
      InterpreterFirst(cands, readable, n - 1);
    } else {
      assert Selected(cands, readable, 0) == [];
      assert Wanted(cands, readable, 0);
    }
  }
}
