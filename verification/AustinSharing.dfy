/**
 The mounting scripts of several PIDs at once: their commands interleave over one file system, while each has its
 own mount table.
 */
module AustinSharing {
  import opened Text
  import opened AustinTargets
  import opened AustinMounts

  /** The commands of one turn of the loop; `mkdir -p` makes its two directories one after the other. */
  datatype Step = MakeCopyDir | MakePathDir | CopyFile | MakePoint | BindCopy

  datatype Script = Script(dir: string, files: seq<TargetFile>, permitted: nat -> bool)

  /** A script on its way: its mounts, the file it is at, and its next command. */
  datatype Shell = Shell(mounts: map<string, string>, file: nat, next: Step, failed: bool)

  datatype State = State(base: map<string, Node>, shells: seq<Shell>)

  function Perform(ns: Namespace, src: string, p: string, c: string, permitted: bool, step: Step): Option<Namespace> {
    match step
    case MakeCopyDir => MkdirP(ns, Parent(c))
    case MakePathDir => MkdirP(ns, Parent(p))
    case CopyFile => Cp(ns, src, c)
    case MakePoint => Touch(ns, p)
    case BindCopy => Bind(ns, c, p, permitted)
  }

  function Advance(sh: Shell): Shell {
    match sh.next
    case MakeCopyDir => sh.(next := MakePathDir)
    case MakePathDir => sh.(next := CopyFile)
    case CopyFile => sh.(next := MakePoint)
    case MakePoint => sh.(next := BindCopy)
    case BindCopy => sh.(next := MakeCopyDir, file := sh.file + 1)
  }

  /** The next command of one script; the first that fails ends it. */
  function Next(base: map<string, Node>, sc: Script, sh: Shell): (map<string, Node>, Shell) {
    if sh.failed || sh.file >= |sc.files| then (base, sh)
    else
      var f := sc.files[sh.file];
      match Perform(Namespace(base, sh.mounts), f.source, f.path, CopyOf(sc.dir, f), sc.permitted(sh.file), sh.next)
      case None => (base, sh.(failed := true))
      case Some(ns) => (ns.base, Advance(sh.(mounts := ns.mounts)))
  }

  function Run(scripts: seq<Script>, s: State, schedule: seq<nat>): (r: State)
    requires |s.shells| == |scripts| && forall k :: 0 <= k < |schedule| ==> schedule[k] < |scripts|
    ensures |r.shells| == |scripts|
  {
    if schedule == [] then s
    else
      var before, i := Run(scripts, s, schedule[..|schedule| - 1]), schedule[|schedule| - 1];
      var (base, sh) := Next(before.base, scripts[i], before.shells[i]);
      State(base, before.shells[i := sh])
  }

  function Initial(base: map<string, Node>, n: nat): (s: State)
    ensures |s.shells| == n && forall i :: 0 <= i < n ==> s.shells[i] == Shell(map[], 0, MakeCopyDir, false)
  {
    State(base, seq(n, i => Shell(map[], 0, MakeCopyDir, false)))
  }

  /** The five commands, with nothing in between, are one turn of the loop. */
  lemma StepsMakeATurn(ns: Namespace, dir: string, src: string, p: string, permitted: bool)
    ensures var c := dir + p;
            MountOne(ns, dir, src, p, permitted) ==
              match Perform(ns, src, p, c, permitted, MakeCopyDir) case None => None case Some(ns1) =>
              match Perform(ns1, src, p, c, permitted, MakePathDir) case None => None case Some(ns2) =>
              match Perform(ns2, src, p, c, permitted, CopyFile) case None => None case Some(ns3) =>
              match Perform(ns3, src, p, c, permitted, MakePoint) case None => None case Some(ns4) =>
              Perform(ns4, src, p, c, permitted, BindCopy)
  {
  }

  // ---------- scripts that keep out of each other's way ----------

  /** One file's path and source, and its copy: none of them is the other file's copy, nor the path its source. */
  predicate Clash(f: TargetFile, c: string, g: TargetFile, d: string) {
    f.path == d || g.path == c || f.path == g.source || g.path == f.source || f.source == d || g.source == c
  }

  /** Copies are distinct and nobody's path or source; paths are nobody's sources. Scripts may share paths. */
  ghost predicate Apart(scripts: seq<Script>) {
    && (forall i :: 0 <= i < |scripts| ==> Separate(scripts[i].dir, scripts[i].files))
    && (forall i, j, k, l :: 0 <= i < j < |scripts| && 0 <= k < |scripts[i].files| && 0 <= l < |scripts[j].files| ==>
          && CopyOf(scripts[i].dir, scripts[i].files[k]) != CopyOf(scripts[j].dir, scripts[j].files[l])
          && !Clash(scripts[i].files[k], CopyOf(scripts[i].dir, scripts[i].files[k]),
                    scripts[j].files[l], CopyOf(scripts[j].dir, scripts[j].files[l])))
  }

  /** No script mounts or copies to the name. */
  ghost predicate LeftAlone(scripts: seq<Script>, q: string) {
    forall i :: 0 <= i < |scripts| ==> Untouched(scripts[i].dir, scripts[i].files, q)
  }

  // ---------- one command ----------

  /** What is there stays, but for the copy; what is new are directories, the copy and the mount point. */
  ghost predicate Changed(base: map<string, Node>, base': map<string, Node>, p: string, c: string) {
    && (forall q :: q in base && (q != c || base[q].Dir?) ==> q in base' && base'[q] == base[q])
    && (forall q :: q != p && q != c ==> Kept(base, base', q))
    && (p in base' && p !in base && p != c ==> base'[p] in {Dir, File("")})
  }

  lemma CommandEffect(ns: Namespace, src: string, p: string, c: string, permitted: bool, step: Step)
    requires p != c && p !in ns.mounts && c !in ns.mounts && src !in ns.mounts
    requires Perform(ns, src, p, c, permitted, step).Some?
    ensures var ns' := Perform(ns, src, p, c, permitted, step).value;
            && Changed(ns.base, ns'.base, p, c)
            && (step == BindCopy ==> ns'.mounts == ns.mounts[p := c])
            && (step != BindCopy ==> ns'.mounts == ns.mounts)
            && (step == CopyFile ==> IsFile(At(ns, src)) && c in ns'.base && Some(ns'.base[c]) == At(ns, src))
            && (step != CopyFile && c in ns.base ==> c in ns'.base && ns'.base[c] == ns.base[c])
  {
  }

  // ---------- what every interleaving keeps ----------

  ghost predicate CopyReady(before: Namespace, base: map<string, Node>, f: TargetFile, c: string) {
    IsFile(At(before, f.source)) && c in base && Some(base[c]) == At(before, f.source)
  }

  /** A script's mounts show their sources, and the copy it is about to bind is complete. */
  ghost predicate ShellOk(before: Namespace, base: map<string, Node>, sc: Script, sh: Shell) {
    && sh.file <= |sc.files|
    && Mounted(before, Namespace(base, sh.mounts), sc.dir, sc.files, sh.file)
    && (sh.file < |sc.files| && (sh.next == MakePoint || sh.next == BindCopy) ==>
          CopyReady(before, base, sc.files[sh.file], CopyOf(sc.dir, sc.files[sh.file])))
  }

  ghost predicate BaseOk(before: Namespace, base: map<string, Node>, scripts: seq<Script>) {
    forall q :: LeftAlone(scripts, q) ==> Kept(before.base, base, q)
  }

  /** A change elsewhere leaves a script's copies alone. */
  lemma ShellUnmoved(
    before: Namespace, base: map<string, Node>, base': map<string, Node>, sc: Script, sh: Shell, p: string, c: string)
    requires ShellOk(before, base, sc, sh) && Changed(base, base', p, c)
    requires forall k :: 0 <= k < |sc.files| ==> CopyOf(sc.dir, sc.files[k]) != c
    ensures ShellOk(before, base', sc, sh)
  {
    forall k | 0 <= k < sh.file
      ensures ShowsSource(before, Namespace(base', sh.mounts), sc.files[k], CopyOf(sc.dir, sc.files[k]))
    {
      assert ShowsSource(before, Namespace(base, sh.mounts), sc.files[k], CopyOf(sc.dir, sc.files[k]));
    }
  }

  /** The source of the file a script is at still shows what it did at the start. */
  lemma SourceKept(
    before: Namespace, base: map<string, Node>, scripts: seq<Script>, i: nat, k: nat, mounts: map<string, string>)
    requires Apart(scripts) && before.mounts == map[] && BaseOk(before, base, scripts)
    requires i < |scripts| && k < |scripts[i].files| && mounts.Keys == PathsOf(scripts[i].files, k)
    requires IsFile(At(Namespace(base, mounts), scripts[i].files[k].source))
    ensures At(Namespace(base, mounts), scripts[i].files[k].source) == At(before, scripts[i].files[k].source)
  {
    var src := scripts[i].files[k].source;
    SourceLeftAlone(scripts, i, k);
    assert Kept(before.base, base, src);
    NotMountedYet(scripts[i], k);
  }

  lemma SourceLeftAlone(scripts: seq<Script>, i: nat, k: nat)
    requires Apart(scripts) && i < |scripts| && k < |scripts[i].files|
    ensures LeftAlone(scripts, scripts[i].files[k].source)
  {
    var f, c := scripts[i].files[k], CopyOf(scripts[i].dir, scripts[i].files[k]);
    forall j, l | 0 <= j < |scripts| && 0 <= l < |scripts[j].files|
      ensures scripts[j].files[l].path != f.source && CopyOf(scripts[j].dir, scripts[j].files[l]) != f.source
    {
      if i < j {
        assert !Clash(f, c, scripts[j].files[l], CopyOf(scripts[j].dir, scripts[j].files[l]));
      } else if j < i {
        assert !Clash(scripts[j].files[l], CopyOf(scripts[j].dir, scripts[j].files[l]), f, c);
      } else {
        assert Separate(scripts[i].dir, scripts[i].files);
      }
    }
  }

  /** The file a script is at: its path is not mounted yet, and its copy and source never are. */
  lemma NotMountedYet(sc: Script, k: nat)
    requires Separate(sc.dir, sc.files) && k < |sc.files|
    ensures var done := PathsOf(sc.files, k);
            sc.files[k].path !in done && CopyOf(sc.dir, sc.files[k]) !in done && sc.files[k].source !in done
  {
  }

  lemma EarlierShown(before: Namespace, ns: Namespace, ns': Namespace, sc: Script, k: nat)
    requires Separate(sc.dir, sc.files) && k < |sc.files| && Mounted(before, ns, sc.dir, sc.files, k)
    requires Changed(ns.base, ns'.base, sc.files[k].path, CopyOf(sc.dir, sc.files[k]))
    requires ns'.mounts == ns.mounts || ns'.mounts == ns.mounts[sc.files[k].path := CopyOf(sc.dir, sc.files[k])]
    ensures forall l :: 0 <= l < k ==> ShowsSource(before, ns', sc.files[l], CopyOf(sc.dir, sc.files[l]))
  {
    forall l | 0 <= l < k
      ensures ShowsSource(before, ns', sc.files[l], CopyOf(sc.dir, sc.files[l]))
    {
      assert ShowsSource(before, ns, sc.files[l], CopyOf(sc.dir, sc.files[l]));
      CopiesDistinct(sc.dir, sc.files[l], sc.files[k]);
    }
  }

  /** The script binds: one more path shows its source. */
  lemma Bound(before: Namespace, ns: Namespace, ns': Namespace, sc: Script, k: nat)
    requires Separate(sc.dir, sc.files) && k < |sc.files| && Mounted(before, ns, sc.dir, sc.files, k)
    requires CopyReady(before, ns.base, sc.files[k], CopyOf(sc.dir, sc.files[k]))
    requires var f := sc.files[k];
             Perform(ns, f.source, f.path, CopyOf(sc.dir, f), sc.permitted(k), BindCopy) == Some(ns')
    ensures Mounted(before, ns', sc.dir, sc.files, k + 1)
    ensures Changed(ns.base, ns'.base, sc.files[k].path, CopyOf(sc.dir, sc.files[k]))
  {
    NotMountedYet(sc, k);
    CommandEffect(ns, sc.files[k].source, sc.files[k].path, CopyOf(sc.dir, sc.files[k]), sc.permitted(k), BindCopy);
    EarlierShown(before, ns, ns', sc, k);
    BoundShown(before, ns, ns', sc, k);
  }

  lemma BoundShown(before: Namespace, ns: Namespace, ns': Namespace, sc: Script, k: nat)
    requires k < |sc.files| && ns.mounts.Keys == PathsOf(sc.files, k)
    requires forall l :: 0 <= l < k ==> ShowsSource(before, ns', sc.files[l], CopyOf(sc.dir, sc.files[l]))
    requires ns'.mounts == ns.mounts[sc.files[k].path := CopyOf(sc.dir, sc.files[k])]
    requires CopyReady(before, ns.base, sc.files[k], CopyOf(sc.dir, sc.files[k])) && ns'.base == ns.base
    ensures Mounted(before, ns', sc.dir, sc.files, k + 1)
  {
    PathsNext(sc.files, k);
    assert ShowsSource(before, ns', sc.files[k], CopyOf(sc.dir, sc.files[k]));
  }

  /** The script does anything else: what it has mounted stays, and after the copying the copy is complete. */
  lemma NotBound(before: Namespace, ns: Namespace, ns': Namespace, sc: Script, k: nat, step: Step)
    requires Separate(sc.dir, sc.files) && k < |sc.files| && Mounted(before, ns, sc.dir, sc.files, k)
             && step != BindCopy
    requires step == CopyFile && IsFile(At(ns, sc.files[k].source)) ==>
               At(ns, sc.files[k].source) == At(before, sc.files[k].source)
    requires step == MakePoint ==> CopyReady(before, ns.base, sc.files[k], CopyOf(sc.dir, sc.files[k]))
    requires var f := sc.files[k];
             Perform(ns, f.source, f.path, CopyOf(sc.dir, f), sc.permitted(k), step) == Some(ns')
    ensures Mounted(before, ns', sc.dir, sc.files, k) && ns'.mounts == ns.mounts
    ensures step == CopyFile || step == MakePoint ==>
              CopyReady(before, ns'.base, sc.files[k], CopyOf(sc.dir, sc.files[k]))
    ensures Changed(ns.base, ns'.base, sc.files[k].path, CopyOf(sc.dir, sc.files[k]))
  {
    NotMountedYet(sc, k);
    CommandEffect(ns, sc.files[k].source, sc.files[k].path, CopyOf(sc.dir, sc.files[k]), sc.permitted(k), step);
    EarlierShown(before, ns, ns', sc, k);
  }

  lemma MovedByBind(before: Namespace, ns: Namespace, ns': Namespace, sc: Script, sh: Shell)
    requires Separate(sc.dir, sc.files) && sh.next == BindCopy && ns.mounts == sh.mounts
    requires ShellOk(before, ns.base, sc, sh) && sh.file < |sc.files|
    requires var f := sc.files[sh.file];
             Perform(ns, f.source, f.path, CopyOf(sc.dir, f), sc.permitted(sh.file), BindCopy) == Some(ns')
    ensures ShellOk(before, ns'.base, sc, Advance(sh.(mounts := ns'.mounts)))
    ensures Changed(ns.base, ns'.base, sc.files[sh.file].path, CopyOf(sc.dir, sc.files[sh.file]))
  {
    assert ns == Namespace(ns.base, ns.mounts) && ns' == Namespace(ns'.base, ns'.mounts);
    Bound(before, ns, ns', sc, sh.file);
  }

  lemma MovedOtherwise(before: Namespace, ns: Namespace, ns': Namespace, sc: Script, sh: Shell)
    requires Separate(sc.dir, sc.files) && sh.next != BindCopy && ns.mounts == sh.mounts
    requires ShellOk(before, ns.base, sc, sh) && sh.file < |sc.files|
    requires IsFile(At(ns, sc.files[sh.file].source)) ==>
               At(ns, sc.files[sh.file].source) == At(before, sc.files[sh.file].source)
    requires var f := sc.files[sh.file];
             Perform(ns, f.source, f.path, CopyOf(sc.dir, f), sc.permitted(sh.file), sh.next) == Some(ns')
    ensures ShellOk(before, ns'.base, sc, Advance(sh.(mounts := ns'.mounts)))
    ensures Changed(ns.base, ns'.base, sc.files[sh.file].path, CopyOf(sc.dir, sc.files[sh.file]))
  {
    assert ns == Namespace(ns.base, ns.mounts) && ns' == Namespace(ns'.base, ns'.mounts);
    NotBound(before, ns, ns', sc, sh.file, sh.next);
  }

  /** The script that moves. */
  lemma ShellMoved(before: Namespace, ns: Namespace, ns': Namespace, scripts: seq<Script>, i: nat, sh: Shell)
    requires Apart(scripts) && before.mounts == map[] && BaseOk(before, ns.base, scripts) && i < |scripts|
    requires ShellOk(before, ns.base, scripts[i], sh) && sh.file < |scripts[i].files| && ns.mounts == sh.mounts
    requires var sc, f := scripts[i], scripts[i].files[sh.file];
             Perform(ns, f.source, f.path, CopyOf(sc.dir, f), sc.permitted(sh.file), sh.next) == Some(ns')
    ensures ShellOk(before, ns'.base, scripts[i], Advance(sh.(mounts := ns'.mounts)))
    ensures var sc, f := scripts[i], scripts[i].files[sh.file];
            Changed(ns.base, ns'.base, f.path, CopyOf(sc.dir, f))
  {
    if sh.next == BindCopy {
      MovedByBind(before, ns, ns', scripts[i], sh);
    } else {
      assert ns == Namespace(ns.base, ns.mounts);
      if IsFile(At(ns, scripts[i].files[sh.file].source)) {
        SourceKept(before, ns.base, scripts, i, sh.file, sh.mounts);
      }
      MovedOtherwise(before, ns, ns', scripts[i], sh);
    }
  }

  lemma BaseMoved(
    before: Namespace, base: map<string, Node>, base': map<string, Node>, scripts: seq<Script>, i: nat, k: nat)
    requires i < |scripts| && k < |scripts[i].files| && BaseOk(before, base, scripts)
    requires Changed(base, base', scripts[i].files[k].path, CopyOf(scripts[i].dir, scripts[i].files[k]))
    ensures BaseOk(before, base', scripts)
  {
    forall q | LeftAlone(scripts, q)
      ensures Kept(before.base, base', q)
    {
      assert Untouched(scripts[i].dir, scripts[i].files, q);
      assert Kept(before.base, base, q) && Kept(base, base', q);
    }
  }

  ghost predicate AllOk(before: Namespace, scripts: seq<Script>, s: State) {
    && |s.shells| == |scripts| && BaseOk(before, s.base, scripts)
    && forall i :: 0 <= i < |scripts| ==> ShellOk(before, s.base, scripts[i], s.shells[i])
  }

  lemma OthersUnmoved(
    before: Namespace, scripts: seq<Script>, s: State, base': map<string, Node>, i: nat, k: nat, j: nat)
    requires Apart(scripts) && AllOk(before, scripts, s) && i < |scripts| && j < |scripts| && i != j
             && k < |scripts[i].files|
    requires Changed(s.base, base', scripts[i].files[k].path, CopyOf(scripts[i].dir, scripts[i].files[k]))
    ensures ShellOk(before, base', scripts[j], s.shells[j])
  {
    ShellUnmoved(before, s.base, base', scripts[j], s.shells[j], scripts[i].files[k].path,
                 CopyOf(scripts[i].dir, scripts[i].files[k]));
  }

  lemma NextKeeps(before: Namespace, scripts: seq<Script>, s: State, i: nat)
    requires Apart(scripts) && before.mounts == map[] && AllOk(before, scripts, s) && i < |scripts|
    ensures var (base, sh) := Next(s.base, scripts[i], s.shells[i]);
            AllOk(before, scripts, State(base, s.shells[i := sh]))
  {
    var sc, sh := scripts[i], s.shells[i];
    if !sh.failed && sh.file < |sc.files| {
      var f := sc.files[sh.file];
      var after := Perform(Namespace(s.base, sh.mounts), f.source, f.path, CopyOf(sc.dir, f), sc.permitted(sh.file),
          sh.next);
      if after.Some? {
        ShellMoved(before, Namespace(s.base, sh.mounts), after.value, scripts, i, sh);
        BaseMoved(before, s.base, after.value.base, scripts, i, sh.file);
        forall j | 0 <= j < |scripts| && j != i
          ensures ShellOk(before, after.value.base, scripts[j], s.shells[j])
        {
          OthersUnmoved(before, scripts, s, after.value.base, i, sh.file, j);
        }
      }
    }
  }

  lemma {:induction false} RunKeeps(before: Namespace, scripts: seq<Script>, schedule: seq<nat>)
    requires Apart(scripts) && before.mounts == map[] && forall k :: 0 <= k < |schedule| ==> schedule[k] < |scripts|
    ensures AllOk(before, scripts, Run(scripts, Initial(before.base, |scripts|), schedule))
  {
    if schedule != [] {
      var n := |schedule| - 1;
      RunKeeps(before, scripts, schedule[..n]);
      NextKeeps(before, scripts, Run(scripts, Initial(before.base, |scripts|), schedule[..n]), schedule[n]);
    }
  }

  /**
   However the commands of several scripts interleave: every path a script has mounted shows that script its own
   source's content, though scripts may mount different files at the same path; and every name no script mounts or
   copies to shows each of them what it did before, or is a new directory.
   */
  lemma SharedPathsShowTheirSources(before: Namespace, scripts: seq<Script>, schedule: seq<nat>, i: nat)
    requires Apart(scripts) && before.mounts == map[] && forall k :: 0 <= k < |schedule| ==> schedule[k] < |scripts|
    requires i < |scripts|
    ensures var s := Run(scripts, Initial(before.base, |scripts|), schedule);
            var ns := Namespace(s.base, s.shells[i].mounts);
            && s.shells[i].file <= |scripts[i].files|
            && (forall k :: 0 <= k < s.shells[i].file ==>
                  && IsFile(At(before, scripts[i].files[k].source))
                  && At(ns, scripts[i].files[k].path) == At(before, scripts[i].files[k].source))
            && (forall q :: LeftAlone(scripts, q) ==>
                  if At(before, q).Some? then At(ns, q) == At(before, q) else At(ns, q) in {None, Some(Dir)})
  {
    RunKeeps(before, scripts, schedule);
    var s := Run(scripts, Initial(before.base, |scripts|), schedule);
    var ns := Namespace(s.base, s.shells[i].mounts);
    assert ShellOk(before, s.base, scripts[i], s.shells[i]);
    forall k | 0 <= k < s.shells[i].file
      ensures IsFile(At(before, scripts[i].files[k].source))
      ensures At(ns, scripts[i].files[k].path) == At(before, scripts[i].files[k].source)
    {
      assert ShowsSource(before, ns, scripts[i].files[k], CopyOf(scripts[i].dir, scripts[i].files[k]));
    }
    forall q | LeftAlone(scripts, q)
      ensures if At(before, q).Some? then At(ns, q) == At(before, q) else At(ns, q) in {None, Some(Dir)}
    {
      assert Kept(before.base, s.base, q) && Untouched(scripts[i].dir, scripts[i].files, q);
    }
  }

  // ---------- what everybody else sees ----------

  /** Somebody's copy goes there. */
  ghost predicate IsCopy(scripts: seq<Script>, q: string) {
    exists i, k :: 0 <= i < |scripts| && 0 <= k < |scripts[i].files| && q == CopyOf(scripts[i].dir, scripts[i].files[k])
  }

  /** Copies aside, what was there is as it was, and what is new is a directory or an empty file to mount over. */
  ghost predicate Undisturbed(before: map<string, Node>, base: map<string, Node>, scripts: seq<Script>) {
    forall q :: !IsCopy(scripts, q) ==>
      if q in before then q in base && base[q] == before[q] else q in base ==> base[q] in {Dir, File("")}
  }

  lemma UndisturbedOn(
    before: map<string, Node>, base: map<string, Node>, base': map<string, Node>, scripts: seq<Script>, i: nat, k: nat)
    requires i < |scripts| && k < |scripts[i].files| && Undisturbed(before, base, scripts)
    requires Changed(base, base', scripts[i].files[k].path, CopyOf(scripts[i].dir, scripts[i].files[k]))
    ensures Undisturbed(before, base', scripts)
  {
    forall q | !IsCopy(scripts, q)
      ensures if q in before then q in base' && base'[q] == before[q] else q in base' ==> base'[q] in {Dir, File("")}
    {
      assert q != CopyOf(scripts[i].dir, scripts[i].files[k]);
      if q != scripts[i].files[k].path {
        assert Kept(base, base', q);
      }
    }
  }

  lemma NextUndisturbed(before: Namespace, scripts: seq<Script>, s: State, i: nat)
    requires Apart(scripts) && AllOk(before, scripts, s) && i < |scripts| && Undisturbed(before.base, s.base, scripts)
    ensures Undisturbed(before.base, Next(s.base, scripts[i], s.shells[i]).0, scripts)
  {
    var sc, sh := scripts[i], s.shells[i];
    if !sh.failed && sh.file < |sc.files| {
      var f, ns := sc.files[sh.file], Namespace(s.base, sh.mounts);
      var after := Perform(ns, f.source, f.path, CopyOf(sc.dir, f), sc.permitted(sh.file), sh.next);
      if after.Some? {
        assert ShellOk(before, s.base, sc, sh) && Separate(sc.dir, sc.files);
        PerformChanges(sc, sh.file, ns, after.value, sh.next);
        UndisturbedOn(before.base, s.base, after.value.base, scripts, i, sh.file);
      }
    }
  }

  /**
   Whoever has none of the mounts, like the converter that runs on the agent's own Python, sees at every moment of
   every interleaving what was there before, at the paths mounted over too: copies aside, the scripts bring about
   no more than directories and empty files.
   */
  lemma OthersSeeNoChange(before: Namespace, scripts: seq<Script>, schedule: seq<nat>)
    requires Apart(scripts) && before.mounts == map[] && forall k :: 0 <= k < |schedule| ==> schedule[k] < |scripts|
    ensures var outside := Namespace(Run(scripts, Initial(before.base, |scripts|), schedule).base, map[]);
            forall q :: !IsCopy(scripts, q) ==>
              if At(before, q).Some? then At(outside, q) == At(before, q)
              else At(outside, q) in {None, Some(Dir), Some(File(""))}
  {
    RunUndisturbed(before, scripts, schedule);
    SeenOutside(before, Run(scripts, Initial(before.base, |scripts|), schedule).base, scripts);
  }

  lemma SeenOutside(before: Namespace, base: map<string, Node>, scripts: seq<Script>)
    requires before.mounts == map[] && Undisturbed(before.base, base, scripts)
    ensures forall q :: !IsCopy(scripts, q) ==>
              if At(before, q).Some? then At(Namespace(base, map[]), q) == At(before, q)
              else At(Namespace(base, map[]), q) in {None, Some(Dir), Some(File(""))}
  {
  }

  lemma {:induction false} RunUndisturbed(before: Namespace, scripts: seq<Script>, schedule: seq<nat>)
    requires Apart(scripts) && before.mounts == map[] && forall k :: 0 <= k < |schedule| ==> schedule[k] < |scripts|
    ensures Undisturbed(before.base, Run(scripts, Initial(before.base, |scripts|), schedule).base, scripts)
  {
    if schedule != [] {
      var n := |schedule| - 1;
      RunUndisturbed(before, scripts, schedule[..n]);
      RunKeeps(before, scripts, schedule[..n]);
      NextUndisturbed(before, scripts, Run(scripts, Initial(before.base, |scripts|), schedule[..n]), schedule[n]);
    }
  }

  // ---------- the directories ----------

  /** The shared file system holds every directory above a name. */
  predicate DirsTo(base: map<string, Node>, q: string) {
    forall k :: 0 < k < |q| && q[k] == '/' ==> q[..k] in base && base[q[..k]] == Dir
  }

  /** The directories a script has made so far are there: for the files behind it, and for the one it is at. */
  ghost predicate DirsOk(base: map<string, Node>, sc: Script, sh: Shell) {
    && (forall k :: 0 <= k < sh.file && k < |sc.files| ==>
          DirsTo(base, sc.files[k].path) && DirsTo(base, CopyOf(sc.dir, sc.files[k])))
    && (sh.file < |sc.files| && sh.next != MakeCopyDir ==> DirsTo(base, CopyOf(sc.dir, sc.files[sh.file])))
    && (sh.file < |sc.files| && sh.next != MakeCopyDir && sh.next != MakePathDir ==>
          DirsTo(base, sc.files[sh.file].path))
  }

  lemma DirsOkStays(base: map<string, Node>, base': map<string, Node>, sc: Script, sh: Shell, p: string, c: string)
    requires DirsOk(base, sc, sh) && Changed(base, base', p, c)
    ensures DirsOk(base', sc, sh)
  {
  }

  /** Nothing mounted shows a directory, so what a script's `mkdir` leaves is in the shared file system. */
  lemma MkdirMakesShared(before: Namespace, ns: Namespace, sc: Script, k: nat, q: string)
    requires k <= |sc.files| && Mounted(before, ns, sc.dir, sc.files, k) && MkdirP(ns, Parent(q)).Some?
    ensures DirsTo(MkdirP(ns, Parent(q)).value.base, q)
  {
    MountedSound(before, ns, sc.dir, sc.files, k);
    MkdirMakes(ns, q);
    NoDirMounted(before, ns, sc, k);
    assert MkdirP(ns, Parent(q)).value.mounts == ns.mounts;
  }

  lemma NoDirMounted(before: Namespace, ns: Namespace, sc: Script, k: nat)
    requires k <= |sc.files| && Mounted(before, ns, sc.dir, sc.files, k)
    ensures forall a :: a in ns.mounts ==> IsFile(At(ns, a))
  {
  }

  lemma DirsOkMoves(before: Namespace, ns: Namespace, ns': Namespace, sc: Script, sh: Shell)
    requires sh.file < |sc.files| && ns.mounts == sh.mounts && Mounted(before, ns, sc.dir, sc.files, sh.file)
    requires DirsOk(ns.base, sc, sh)
    requires var f := sc.files[sh.file];
             && Perform(ns, f.source, f.path, CopyOf(sc.dir, f), sc.permitted(sh.file), sh.next) == Some(ns')
             && Changed(ns.base, ns'.base, f.path, CopyOf(sc.dir, f))
    ensures DirsOk(ns'.base, sc, Advance(sh.(mounts := ns'.mounts)))
  {
    var f := sc.files[sh.file];
    DirsOkStays(ns.base, ns'.base, sc, sh, f.path, CopyOf(sc.dir, f));
    if sh.next == MakeCopyDir {
      MkdirMakesShared(before, ns, sc, sh.file, CopyOf(sc.dir, f));
    } else if sh.next == MakePathDir {
      MkdirMakesShared(before, ns, sc, sh.file, f.path);
    }
  }

  ghost predicate AllDirs(scripts: seq<Script>, s: State)
    requires |s.shells| == |scripts|
  {
    forall i :: 0 <= i < |scripts| ==> DirsOk(s.base, scripts[i], s.shells[i])
  }

  lemma MoverDirs(before: Namespace, scripts: seq<Script>, s: State, i: nat, ns': Namespace)
    requires Apart(scripts) && AllOk(before, scripts, s) && AllDirs(scripts, s) && i < |scripts|
    requires s.shells[i].file < |scripts[i].files|
    requires var sc, sh := scripts[i], s.shells[i];
             var f, ns := sc.files[sh.file], Namespace(s.base, sh.mounts);
             Perform(ns, f.source, f.path, CopyOf(sc.dir, f), sc.permitted(sh.file), sh.next) == Some(ns')
    ensures DirsOk(ns'.base, scripts[i], Advance(s.shells[i].(mounts := ns'.mounts)))
    ensures var f := scripts[i].files[s.shells[i].file];
            Changed(s.base, ns'.base, f.path, CopyOf(scripts[i].dir, f))
  {
    var ns := Namespace(s.base, s.shells[i].mounts);
    assert ShellOk(before, s.base, scripts[i], s.shells[i]) && Separate(scripts[i].dir, scripts[i].files);
    PerformChanges(scripts[i], s.shells[i].file, ns, ns', s.shells[i].next);
    DirsOkMoves(before, ns, ns', scripts[i], s.shells[i]);
  }

  lemma NextKeepsDirs(before: Namespace, scripts: seq<Script>, s: State, i: nat, base': map<string, Node>, sh': Shell)
    requires Apart(scripts) && AllOk(before, scripts, s) && AllDirs(scripts, s) && i < |scripts|
    requires Next(s.base, scripts[i], s.shells[i]) == (base', sh')
    ensures AllDirs(scripts, State(base', s.shells[i := sh']))
  {
    var sc, sh := scripts[i], s.shells[i];
    if !sh.failed && sh.file < |sc.files| {
      var f := sc.files[sh.file];
      var after := Perform(Namespace(s.base, sh.mounts), f.source, f.path, CopyOf(sc.dir, f), sc.permitted(sh.file),
          sh.next);
      if after.Some? {
        MoverDirs(before, scripts, s, i, after.value);
        forall j | 0 <= j < |scripts| && j != i
          ensures DirsOk(after.value.base, scripts[j], s.shells[j])
        {
          DirsOkStays(s.base, after.value.base, scripts[j], s.shells[j], f.path, CopyOf(sc.dir, f));
        }
      }
    }
  }

  lemma {:induction false} RunKeepsDirs(before: Namespace, scripts: seq<Script>, schedule: seq<nat>)
    requires Apart(scripts) && before.mounts == map[] && forall k :: 0 <= k < |schedule| ==> schedule[k] < |scripts|
    ensures AllDirs(scripts, Run(scripts, Initial(before.base, |scripts|), schedule))
  {
    if schedule != [] {
      var n := |schedule| - 1;
      RunKeepsDirs(before, scripts, schedule[..n]);
      RunKeeps(before, scripts, schedule[..n]);
      var mid := Run(scripts, Initial(before.base, |scripts|), schedule[..n]);
      var (base, sh) := Next(mid.base, scripts[schedule[n]], mid.shells[schedule[n]]);
      NextKeepsDirs(before, scripts, mid, schedule[n], base, sh);
    }
  }

  /**
   However the commands of several scripts interleave: for every file a script has mounted, every directory above
   its path and above its copy is in the shared file system.
   */
  lemma SharedDirsMade(before: Namespace, scripts: seq<Script>, schedule: seq<nat>, i: nat, k: nat)
    requires Apart(scripts) && before.mounts == map[] && forall n :: 0 <= n < |schedule| ==> schedule[n] < |scripts|
    requires i < |scripts| && k < |scripts[i].files|
    requires k < Run(scripts, Initial(before.base, |scripts|), schedule).shells[i].file
    ensures var base := Run(scripts, Initial(before.base, |scripts|), schedule).base;
            var path, copy := scripts[i].files[k].path, scripts[i].dir + scripts[i].files[k].path;
            && (forall m :: 0 < m < |path| && path[m] == '/' ==> path[..m] in base && base[path[..m]] == Dir)
            && (forall m :: 0 < m < |copy| && copy[m] == '/' ==> copy[..m] in base && base[copy[..m]] == Dir)
  {
    RunKeepsDirs(before, scripts, schedule);
    var s := Run(scripts, Initial(before.base, |scripts|), schedule);
    assert DirsOk(s.base, scripts[i], s.shells[i]);
    assert DirsTo(s.base, scripts[i].files[k].path) && DirsTo(s.base, CopyOf(scripts[i].dir, scripts[i].files[k]));
  }

  // ---------- when all scripts get through ----------

  /** No file where a directory must be, and no script mounts or copies there: no path or copy lies above the other. */
  ghost predicate Passable(before: Namespace, scripts: seq<Script>, d: string) {
    forall a :: a in Ancestors(d) ==> !IsFile(At(before, a)) && LeftAlone(scripts, a)
  }

  /** The source is there, nothing but a file stands where a file must go, the way there is free, and binds succeed. */
  ghost predicate RoomForFile(before: Namespace, scripts: seq<Script>, f: TargetFile, c: string) {
    && IsFile(At(before, f.source)) && At(before, f.path) != Some(Dir) && At(before, c) != Some(Dir)
    && Passable(before, scripts, Parent(f.path)) && Passable(before, scripts, Parent(c))
  }

  ghost predicate RoomForAll(before: Namespace, scripts: seq<Script>) {
    forall i, k :: 0 <= i < |scripts| && 0 <= k < |scripts[i].files| ==>
      && RoomForFile(before, scripts, scripts[i].files[k], CopyOf(scripts[i].dir, scripts[i].files[k]))
      && scripts[i].permitted(k)
  }

  predicate NotDir(base: map<string, Node>, q: string) { q in base ==> base[q].File? }

  /** No path and no copy has become a directory. */
  ghost predicate NoDirsForAll(base: map<string, Node>, scripts: seq<Script>) {
    forall i, k :: 0 <= i < |scripts| && 0 <= k < |scripts[i].files| ==>
      NotDir(base, scripts[i].files[k].path) && NotDir(base, CopyOf(scripts[i].dir, scripts[i].files[k]))
  }

  lemma MkdirPasses(
    before: Namespace, base: map<string, Node>, scripts: seq<Script>, i: nat, k: nat, mounts: map<string, string>,
    d: string)
    requires before.mounts == map[] && BaseOk(before, base, scripts) && NoDirsForAll(base, scripts)
    requires i < |scripts| && k <= |scripts[i].files| && mounts.Keys == PathsOf(scripts[i].files, k)
    requires Passable(before, scripts, d)
    ensures MkdirP(Namespace(base, mounts), d).Some?
    ensures NoDirsForAll(MkdirP(Namespace(base, mounts), d).value.base, scripts)
  {
    forall a | a in Ancestors(d)
      ensures !IsFile(At(Namespace(base, mounts), a))
    {
      assert LeftAlone(scripts, a) && Kept(before.base, base, a);
      assert Untouched(scripts[i].dir, scripts[i].files, a);
    }
    NewDirsElsewhere(before, base, MkdirP(Namespace(base, mounts), d).value.base, scripts, d);
  }

  lemma NewDirsElsewhere(
    before: Namespace, base: map<string, Node>, base': map<string, Node>, scripts: seq<Script>, d: string)
    requires NoDirsForAll(base, scripts) && Passable(before, scripts, d)
    requires forall q :: q !in Ancestors(d) ==> (q in base' <==> q in base) && (q in base ==> base'[q] == base[q])
    ensures NoDirsForAll(base', scripts)
  {
    forall i, k | 0 <= i < |scripts| && 0 <= k < |scripts[i].files|
      ensures NotDir(base', scripts[i].files[k].path) && NotDir(base', CopyOf(scripts[i].dir, scripts[i].files[k]))
    {
      assert forall a :: a in Ancestors(d) ==> Untouched(scripts[i].dir, scripts[i].files, a);
    }
  }

  lemma SourceThere(
    before: Namespace, base: map<string, Node>, scripts: seq<Script>, i: nat, k: nat, mounts: map<string, string>)
    requires Apart(scripts) && before.mounts == map[] && BaseOk(before, base, scripts)
    requires i < |scripts| && k < |scripts[i].files| && mounts.Keys == PathsOf(scripts[i].files, k)
    requires IsFile(At(before, scripts[i].files[k].source))
    ensures IsFile(At(Namespace(base, mounts), scripts[i].files[k].source))
  {
    var src := scripts[i].files[k].source;
    SourceLeftAlone(scripts, i, k);
    assert Kept(before.base, base, src);
    NotMountedYet(scripts[i], k);
  }

  /** A script still on its way: it has not failed, and the mount point it is about to bind to is there. */
  predicate Going(base: map<string, Node>, sc: Script, sh: Shell) {
    && !sh.failed
    && (sh.file < |sc.files| && sh.next == BindCopy ==>
          sc.files[sh.file].path in base && base[sc.files[sh.file].path].File?)
  }

  lemma FilePasses(ns: Namespace, src: string, p: string, c: string, step: Step)
    requires p != c && p !in ns.mounts && c !in ns.mounts && NotDir(ns.base, p) && NotDir(ns.base, c)
    requires step == CopyFile || step == MakePoint || step == BindCopy
    requires step == CopyFile ==> IsFile(At(ns, src))
    requires step == CopyFile ==> HasDirs(ns, c)
    requires step == MakePoint ==> HasDirs(ns, p)
    requires step == BindCopy ==> c in ns.base && p in ns.base
    ensures Perform(ns, src, p, c, true, step).Some?
    ensures var base := Perform(ns, src, p, c, true, step).value.base;
            && (step == MakePoint ==> p in base && base[p].File?)
            && (forall q :: NotDir(ns.base, q) ==> NotDir(base, q))
  {
  }

  /** A script sees the directories on its way: none of them is mounted over. */
  lemma DirsSeen(before: Namespace, scripts: seq<Script>, i: nat, k: nat, ns: Namespace, q: string)
    requires i < |scripts| && k <= |scripts[i].files| && ns.mounts.Keys == PathsOf(scripts[i].files, k)
    requires Passable(before, scripts, Parent(q)) && DirsTo(ns.base, q)
    ensures HasDirs(ns, q)
  {
    AncestorsOfParent(q);
    forall m | 0 < m < |q| && q[m] == '/'
      ensures At(ns, q[..m]) == Some(Dir)
    {
      assert LeftAlone(scripts, q[..m]);
      assert Untouched(scripts[i].dir, scripts[i].files, q[..m]);
    }
  }

  /** The next command of a script that is on its way succeeds. */
  lemma CommandPasses(before: Namespace, ns: Namespace, scripts: seq<Script>, i: nat, sh: Shell)
    requires Apart(scripts) && before.mounts == map[] && RoomForAll(before, scripts)
    requires BaseOk(before, ns.base, scripts) && NoDirsForAll(ns.base, scripts)
    requires i < |scripts| && sh.file < |scripts[i].files| && ns.mounts == sh.mounts
    requires ShellOk(before, ns.base, scripts[i], sh) && Going(ns.base, scripts[i], sh)
    requires DirsOk(ns.base, scripts[i], sh)
    ensures var sc, f := scripts[i], scripts[i].files[sh.file];
            var after := Perform(ns, f.source, f.path, CopyOf(sc.dir, f), sc.permitted(sh.file), sh.next);
            && after.Some? && NoDirsForAll(after.value.base, scripts)
            && (sh.next == MakePoint ==> f.path in after.value.base && after.value.base[f.path].File?)
  {
    var sc, f := scripts[i], scripts[i].files[sh.file];
    var c := CopyOf(sc.dir, f);
    assert RoomForFile(before, scripts, f, c) && sc.permitted(sh.file);
    assert ns == Namespace(ns.base, ns.mounts);
    NotMountedYet(sc, sh.file);
    match sh.next
    case MakeCopyDir => MkdirPasses(before, ns.base, scripts, i, sh.file, sh.mounts, Parent(c));
    case MakePathDir => MkdirPasses(before, ns.base, scripts, i, sh.file, sh.mounts, Parent(f.path));
    case _ =>
      if sh.next == CopyFile {
        SourceThere(before, ns.base, scripts, i, sh.file, sh.mounts);
        DirsSeen(before, scripts, i, sh.file, ns, c);
      } else if sh.next == MakePoint {
        DirsSeen(before, scripts, i, sh.file, ns, f.path);
      }
      FilePasses(ns, f.source, f.path, c, sh.next);
  }

  /** A change elsewhere leaves the mount point that a script is about to bind to. */
  lemma StillGoing(base: map<string, Node>, base': map<string, Node>, sc: Script, sh: Shell, p: string, c: string)
    requires Going(base, sc, sh) && Changed(base, base', p, c)
    requires forall k :: 0 <= k < |sc.files| ==> sc.files[k].path != c
    ensures Going(base', sc, sh)
  {
  }

  ghost predicate AllGoing(before: Namespace, scripts: seq<Script>, s: State) {
    && AllOk(before, scripts, s) && NoDirsForAll(s.base, scripts)
    && forall i :: 0 <= i < |scripts| ==> Going(s.base, scripts[i], s.shells[i])
  }

  /** How many commands a script has behind it. */
  function Progress(sh: Shell): nat {
    5 * sh.file +
    match sh.next
    case MakeCopyDir => 0
    case MakePathDir => 1
    case CopyFile => 2
    case MakePoint => 3
    case BindCopy => 4
  }

  lemma NobodysPath(scripts: seq<Script>, i: nat, k: nat, j: nat)
    requires Apart(scripts) && i < |scripts| && k < |scripts[i].files| && j < |scripts|
    ensures forall l :: 0 <= l < |scripts[j].files| ==>
              scripts[j].files[l].path != CopyOf(scripts[i].dir, scripts[i].files[k])
  {
    var f, c := scripts[i].files[k], CopyOf(scripts[i].dir, scripts[i].files[k]);
    forall l | 0 <= l < |scripts[j].files|
      ensures scripts[j].files[l].path != c
    {
      var g, d := scripts[j].files[l], CopyOf(scripts[j].dir, scripts[j].files[l]);
      if i < j {
        assert !Clash(f, c, g, d);
      } else if j < i {
        assert !Clash(g, d, f, c);
      } else {
        assert Separate(scripts[i].dir, scripts[i].files);
      }
    }
  }

  lemma OthersStillGoing(
    before: Namespace, scripts: seq<Script>, s: State, base': map<string, Node>, i: nat, k: nat, j: nat)
    requires Apart(scripts) && AllGoing(before, scripts, s) && i < |scripts| && j < |scripts| && k < |scripts[i].files|
    requires Changed(s.base, base', scripts[i].files[k].path, CopyOf(scripts[i].dir, scripts[i].files[k]))
    ensures Going(base', scripts[j], s.shells[j])
  {
    NobodysPath(scripts, i, k, j);
    StillGoing(s.base, base', scripts[j], s.shells[j], scripts[i].files[k].path,
               CopyOf(scripts[i].dir, scripts[i].files[k]));
  }

  /** A script that is not through takes one step forward. */
  lemma MoverGoes(before: Namespace, scripts: seq<Script>, s: State, i: nat) returns (ns': Namespace)
    requires Apart(scripts) && before.mounts == map[] && RoomForAll(before, scripts)
    requires AllGoing(before, scripts, s) && AllDirs(scripts, s)
    requires i < |scripts| && s.shells[i].file < |scripts[i].files|
    ensures Next(s.base, scripts[i], s.shells[i]) == (ns'.base, Advance(s.shells[i].(mounts := ns'.mounts)))
    ensures NoDirsForAll(ns'.base, scripts) && Going(ns'.base, scripts[i], Advance(s.shells[i].(mounts := ns'.mounts)))
    ensures var f := scripts[i].files[s.shells[i].file];
            Changed(s.base, ns'.base, f.path, CopyOf(scripts[i].dir, f))
  {
    var sc, sh := scripts[i], s.shells[i];
    var f, ns := sc.files[sh.file], Namespace(s.base, sh.mounts);
    MayMove(before, scripts, s, i);
    ns' := Perform(ns, f.source, f.path, CopyOf(sc.dir, f), sc.permitted(sh.file), sh.next).value;
    PerformChanges(sc, sh.file, ns, ns', sh.next);
  }

  lemma MayMove(before: Namespace, scripts: seq<Script>, s: State, i: nat)
    requires Apart(scripts) && before.mounts == map[] && RoomForAll(before, scripts)
    requires AllGoing(before, scripts, s) && AllDirs(scripts, s)
    requires i < |scripts| && s.shells[i].file < |scripts[i].files|
    ensures var sc, sh := scripts[i], s.shells[i];
            var f := sc.files[sh.file];
            var after := Perform(Namespace(s.base, sh.mounts), f.source, f.path, CopyOf(sc.dir, f),
                                 sc.permitted(sh.file), sh.next);
            && !sh.failed && sh.mounts.Keys == PathsOf(sc.files, sh.file) && Separate(sc.dir, sc.files)
            && after.Some? && NoDirsForAll(after.value.base, scripts)
            && (sh.next == MakePoint ==> f.path in after.value.base && after.value.base[f.path].File?)
  {
    assert ShellOk(before, s.base, scripts[i], s.shells[i]);
    CommandPasses(before, Namespace(s.base, s.shells[i].mounts), scripts, i, s.shells[i]);
  }

  lemma PerformChanges(sc: Script, k: nat, ns: Namespace, ns': Namespace, step: Step)
    requires Separate(sc.dir, sc.files) && k < |sc.files| && ns.mounts.Keys == PathsOf(sc.files, k)
    requires var f := sc.files[k];
             Perform(ns, f.source, f.path, CopyOf(sc.dir, f), sc.permitted(k), step) == Some(ns')
    ensures Changed(ns.base, ns'.base, sc.files[k].path, CopyOf(sc.dir, sc.files[k]))
  {
    NotMountedYet(sc, k);
    CommandEffect(ns, sc.files[k].source, sc.files[k].path, CopyOf(sc.dir, sc.files[k]), sc.permitted(k), step);
  }

  lemma AllStillGoing(
    before: Namespace, scripts: seq<Script>, s: State, i: nat, base': map<string, Node>, sh': Shell)
    requires Apart(scripts) && AllGoing(before, scripts, s) && i < |scripts| && s.shells[i].file < |scripts[i].files|
    requires AllOk(before, scripts, State(base', s.shells[i := sh']))
    requires NoDirsForAll(base', scripts) && Going(base', scripts[i], sh')
    requires var f := scripts[i].files[s.shells[i].file]; Changed(s.base, base', f.path, CopyOf(scripts[i].dir, f))
    ensures AllGoing(before, scripts, State(base', s.shells[i := sh']))
  {
    forall j | 0 <= j < |scripts| && j != i
      ensures Going(base', scripts[j], s.shells[j])
    {
      OthersStillGoing(before, scripts, s, base', i, s.shells[i].file, j);
    }
  }

  /** A script that is not through takes one step forward, and nobody fails. */
  lemma NextGoes(before: Namespace, scripts: seq<Script>, s: State, i: nat, base': map<string, Node>, sh': Shell)
    requires Apart(scripts) && before.mounts == map[] && RoomForAll(before, scripts)
    requires AllGoing(before, scripts, s) && AllDirs(scripts, s)
    requires i < |scripts|
    requires Next(s.base, scripts[i], s.shells[i]) == (base', sh')
    ensures AllGoing(before, scripts, State(base', s.shells[i := sh']))
    ensures Progress(sh') == Progress(s.shells[i]) + if s.shells[i].file < |scripts[i].files| then 1 else 0
  {
    if s.shells[i].file < |scripts[i].files| {
      var ns' := MoverGoes(before, scripts, s, i);
      AllOkNext(before, scripts, s, i, base', sh');
      AllStillGoing(before, scripts, s, i, base', sh');
    } else {
      ThroughStays(before, scripts, s, i, base', sh');
    }
  }

  lemma AllOkNext(before: Namespace, scripts: seq<Script>, s: State, i: nat, base': map<string, Node>, sh': Shell)
    requires Apart(scripts) && before.mounts == map[] && AllOk(before, scripts, s) && i < |scripts|
    requires Next(s.base, scripts[i], s.shells[i]) == (base', sh')
    ensures AllOk(before, scripts, State(base', s.shells[i := sh']))
  {
    NextKeeps(before, scripts, s, i);
  }

  lemma ThroughStays(before: Namespace, scripts: seq<Script>, s: State, i: nat, base': map<string, Node>, sh': Shell)
    requires AllGoing(before, scripts, s) && i < |scripts| && s.shells[i].file >= |scripts[i].files|
    requires Next(s.base, scripts[i], s.shells[i]) == (base', sh')
    ensures AllGoing(before, scripts, State(base', s.shells[i := sh'])) && sh' == s.shells[i]
  {
    assert s.shells[i := sh'] == s.shells;
    assert State(base', s.shells[i := sh']) == s;
  }

  function Turns(schedule: seq<nat>, i: nat): nat {
    if schedule == [] then 0
    else Turns(schedule[..|schedule| - 1], i) + if schedule[|schedule| - 1] == i then 1 else 0
  }

  lemma {:induction false} RunGoes(before: Namespace, scripts: seq<Script>, schedule: seq<nat>)
    requires Apart(scripts) && before.mounts == map[] && RoomForAll(before, scripts)
    requires forall k :: 0 <= k < |schedule| ==> schedule[k] < |scripts|
    ensures var s := Run(scripts, Initial(before.base, |scripts|), schedule);
            && AllGoing(before, scripts, s)
            && forall i :: 0 <= i < |scripts| ==>
                 Progress(s.shells[i]) >= Turns(schedule, i) || s.shells[i].file >= |scripts[i].files|
  {
    if schedule != [] {
      var n := |schedule| - 1;
      RunGoes(before, scripts, schedule[..n]);
      RunKeepsDirs(before, scripts, schedule[..n]);
      var mid := Run(scripts, Initial(before.base, |scripts|), schedule[..n]);
      var (base, sh) := Next(mid.base, scripts[schedule[n]], mid.shells[schedule[n]]);
      NextGoes(before, scripts, mid, schedule[n], base, sh);
    } else {
      InitialGoes(before, scripts);
    }
  }

  lemma InitialGoes(before: Namespace, scripts: seq<Script>)
    requires before.mounts == map[] && RoomForAll(before, scripts)
    ensures AllGoing(before, scripts, Initial(before.base, |scripts|))
  {
    forall i, k | 0 <= i < |scripts| && 0 <= k < |scripts[i].files|
      ensures NotDir(before.base, scripts[i].files[k].path)
      ensures NotDir(before.base, CopyOf(scripts[i].dir, scripts[i].files[k]))
    {
      assert RoomForFile(before, scripts, scripts[i].files[k], CopyOf(scripts[i].dir, scripts[i].files[k]));
    }
  }

  /**
   With sources present, binds permitted and the way free for every file of every script, no script ever fails,
   however their commands interleave, and one that has had its five turns for each file has mounted them all.
   */
  lemma AllScriptsGoThrough(before: Namespace, scripts: seq<Script>, schedule: seq<nat>, i: nat)
    requires Apart(scripts) && before.mounts == map[] && RoomForAll(before, scripts)
    requires forall k :: 0 <= k < |schedule| ==> schedule[k] < |scripts|
    requires i < |scripts|
    ensures var sh := Run(scripts, Initial(before.base, |scripts|), schedule).shells[i];
            !sh.failed && (Turns(schedule, i) >= 5 * |scripts[i].files| ==> sh.file == |scripts[i].files|)
  {
    RunGoes(before, scripts, schedule);
    var s := Run(scripts, Initial(before.base, |scripts|), schedule);
    assert ShellOk(before, s.base, scripts[i], s.shells[i]) && Going(s.base, scripts[i], s.shells[i]);
  }

  // ---------- scripts for different PIDs ----------

  const COPY_ROOT := "/tmp/austin-target-"

  lemma UpToSlash(pid: string, p: string)
    requires IsDecimal(pid) && IsAbs(p)
    ensures IndexOf(pid + p, '/') == |pid|
  {
    IndexOfCut(pid, '/', p[1..]);
    assert pid + "/" + p[1..] == pid + p;
  }

  lemma WithoutRoot(pid: string, p: string)
    ensures (CopyDir(pid) + p)[|COPY_ROOT|..] == pid + p
  {
    assert CopyDir(pid) + p == COPY_ROOT + (pid + p);
  }

  /** The copies of different PIDs never meet. */
  lemma SameCopySamePid(pid: string, pid': string, p: string, q: string)
    requires IsDecimal(pid) && IsDecimal(pid') && IsAbs(p) && IsAbs(q)
    requires CopyDir(pid) + p == CopyDir(pid') + q
    ensures pid == pid'
  {
    UpToSlash(pid, p);
    UpToSlash(pid', q);
    WithoutRoot(pid, p);
    WithoutRoot(pid', q);
    assert pid == (pid + p)[..|pid|] == (pid' + q)[..|pid'|] == pid';
  }

  /** An absolute path, copied from below /proc, that is neither below /proc nor in anybody's copy directory. */
  predicate WellPlacedForAll(f: TargetFile) {
    IsAbs(f.path) && HasPrefix(f.source, "/proc/") && !HasPrefix(f.path, COPY_ROOT) && !HasPrefix(f.path, "/proc/")
  }

  lemma NoClash(pid: string, pid': string, f: TargetFile, g: TargetFile)
    requires WellPlacedForAll(f) && WellPlacedForAll(g)
    ensures !Clash(f, CopyDir(pid) + f.path, g, CopyDir(pid') + g.path)
  {
    var c, d := CopyDir(pid) + f.path, CopyDir(pid') + g.path;
    assert c[..|COPY_ROOT|] == COPY_ROOT && d[..|COPY_ROOT|] == COPY_ROOT;
    assert c[1] == 't' == d[1] && f.source[..6][1] == 'p' == g.source[..6][1];
  }

  /** The scripts of distinct PIDs are apart when all their files are well placed, each path once per script. */
  lemma ScriptsOfPidsAreApart(pids: seq<string>, scripts: seq<Script>)
    requires |pids| == |scripts| && Distinct(pids) && forall i :: 0 <= i < |pids| ==> IsDecimal(pids[i])
    requires forall i :: 0 <= i < |scripts| ==>
               && scripts[i].dir == CopyDir(pids[i]) && (forall f :: f in scripts[i].files ==> WellPlacedForAll(f))
               && (forall k, l :: 0 <= k < l < |scripts[i].files| ==>
                     scripts[i].files[k].path != scripts[i].files[l].path)
    ensures Apart(scripts)
  {
    forall i | 0 <= i < |scripts|
      ensures Separate(scripts[i].dir, scripts[i].files)
    {
      SeparateAlone(pids[i], scripts[i].files);
    }
    forall i, j, k, l | 0 <= i < j < |scripts| && 0 <= k < |scripts[i].files| && 0 <= l < |scripts[j].files|
      ensures CopyOf(scripts[i].dir, scripts[i].files[k]) != CopyOf(scripts[j].dir, scripts[j].files[l])
      ensures !Clash(scripts[i].files[k], CopyOf(scripts[i].dir, scripts[i].files[k]),
                     scripts[j].files[l], CopyOf(scripts[j].dir, scripts[j].files[l]))
    {
      if CopyOf(scripts[i].dir, scripts[i].files[k]) == CopyOf(scripts[j].dir, scripts[j].files[l]) {
        SameCopySamePid(pids[i], pids[j], scripts[i].files[k].path, scripts[j].files[l].path);
      }
      NoClash(pids[i], pids[j], scripts[i].files[k], scripts[j].files[l]);
    }
  }

  lemma SeparateAlone(pid: string, files: seq<TargetFile>)
    requires forall f :: f in files ==> WellPlacedForAll(f)
    requires forall k, l :: 0 <= k < l < |files| ==> files[k].path != files[l].path
    ensures Separate(CopyDir(pid), files)
  {
    forall i, j | 0 <= i < |files| && 0 <= j < |files|
      ensures files[i].path != CopyOf(CopyDir(pid), files[j])
      ensures files[i].path != files[j].source && files[i].source != CopyOf(CopyDir(pid), files[j])
    {
      NoClash(pid, pid, files[i], files[j]);
    }
  }
}
