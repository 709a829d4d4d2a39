/**
 Running austin with the target's files in place: the command builder prints a positional argument
 list, and a shell loop inside a private mount namespace reads it back, copying and binding as it goes.
 */
module AustinMounts {
  import opened Text
  import opened AustinTargets

  datatype Node = File(content: string) | Dir

  /** Files by the path they were created at, and what is bound where: a path to the file now seen there. */
  datatype Namespace = Namespace(base: map<string, Node>, mounts: map<string, string>)

  function Resolve(ns: Namespace, path: string): string { if path in ns.mounts then ns.mounts[path] else path }

  /** What a path shows. */
  function At(ns: Namespace, path: string): Option<Node> {
    var p := Resolve(ns, path);
    if p in ns.base then Some(ns.base[p]) else None
  }

  predicate IsFile(n: Option<Node>) { n.Some? && n.value.File? }

  // ---------- the commands of the script ----------

  /** `dirname`; the root is the empty string. */
  function Parent(path: string): string { Before(path, '/') }

  /** A directory and the directories above it, but not the root. */
  function Ancestors(d: string): set<string> {
    set i | 0 < i <= |d| && (i == |d| || d[i] == '/') :: d[..i]
  }

  /** Every directory above a name is there. */
  predicate HasDirs(ns: Namespace, q: string) {
    forall k :: 0 < k < |q| && q[k] == '/' ==> At(ns, q[..k]) == Some(Dir)
  }

  /** A file can be written: it is there already, or it can be created. */
  predicate Writable(ns: Namespace, q: string) { IsFile(At(ns, q)) || (At(ns, q) == None && HasDirs(ns, q)) }

  /** `mkdir -p` fails when a file is in the way. */
  function MkdirP(ns: Namespace, d: string): Option<Namespace> {
    if exists a :: a in Ancestors(d) && IsFile(At(ns, a)) then None
    else Some(ns.(base := (map a | a in Ancestors(d) && At(ns, a) == None :: Dir) + ns.base))
  }

  /** `cp` of one file onto another name. */
  function Cp(ns: Namespace, src: string, dst: string): Option<Namespace> {
    if IsFile(At(ns, src)) && Writable(ns, dst) then
      Some(ns.(base := ns.base[Resolve(ns, dst) := At(ns, src).value]))
    else None
  }

  /** `[ -e p ] || touch p` */
  function Touch(ns: Namespace, p: string): Option<Namespace> {
    if At(ns, p) != None then Some(ns)
    else if HasDirs(ns, p) then Some(ns.(base := ns.base[Resolve(ns, p) := File("")]))
    else None
  }

  /** `mount --bind` of a file over a file; the kernel may refuse. */
  function Bind(ns: Namespace, c: string, p: string, permitted: bool): Option<Namespace> {
    if permitted && IsFile(At(ns, c)) && IsFile(At(ns, p)) then Some(ns.(mounts := ns.mounts[p := Resolve(ns, c)]))
    else None
  }

  /** One turn of the loop; the first failing command ends the script. */
  function MountOne(ns: Namespace, dir: string, src: string, p: string, permitted: bool): Option<Namespace> {
    var c := dir + p;
    match MkdirP(ns, Parent(c))
    case None => None
    case Some(ns1) =>
      match MkdirP(ns1, Parent(p))
      case None => None
      case Some(ns2) =>
        match Cp(ns2, src, c)
        case None => None
        case Some(ns3) =>
          match Touch(ns3, p)
          case None => None
          case Some(ns4) => Bind(ns4, c, p, permitted)
  }

  type Mounter = (Namespace, TargetFile, nat) -> Option<Namespace>

  function MountWith(dir: string, permitted: nat -> bool): Mounter {
    (ns: Namespace, f: TargetFile, i: nat) => MountOne(ns, dir, f.source, f.path, permitted(i))
  }

  /** The files mounted one after another, up to the first failure. */
  function Sequence(mount: Mounter, ns: Namespace, files: seq<TargetFile>): Option<Namespace> {
    if files == [] then Some(ns)
    else
      var n := |files| - 1;
      match Sequence(mount, ns, files[..n])
      case None => None
      case Some(before) => mount(before, files[n], n)
  }

  function MountAll(ns: Namespace, dir: string, files: seq<TargetFile>, permitted: nat -> bool): Option<Namespace> {
    Sequence(MountWith(dir, permitted), ns, files)
  }

  lemma {:induction false} SequenceFails(mount: Mounter, ns: Namespace, files: seq<TargetFile>, i: nat)
    requires i <= |files| && Sequence(mount, ns, files[..i]) == None
    ensures Sequence(mount, ns, files) == None
    decreases |files|
  {
    if i == |files| {
      assert files[..i] == files;
    } else {
      var n := |files| - 1;
      assert files[..n][..i] == files[..i];
      SequenceFails(mount, ns, files[..n], i);
    }
  }

  lemma SequenceNext(mount: Mounter, ns: Namespace, files: seq<TargetFile>, i: nat, before: Namespace)
    requires i < |files| && Sequence(mount, ns, files[..i]) == Some(before)
    ensures Sequence(mount, ns, files[..i + 1]) == mount(before, files[i], i)
  {
    assert files[..i + 1][..i] == files[..i];
  }

  // ---------- the argument list ----------

  /** What `unshare` is given before the script's own arguments; the script's text stands for itself. */
  const SCRIPT_COMMAND := ["-m", "--propagation", "private", "sh", "-c", "<script>", "sh"]

  datatype Command = Command(name: string, args: seq<string>)

  function PairsOf(files: seq<TargetFile>): seq<string> {
    if files == [] then [] else PairsOf(files[..|files| - 1]) + [files[|files| - 1].source, files[|files| - 1].path]
  }

  function Positional(dir: string, files: seq<TargetFile>, austinArgs: seq<string>): seq<string> {
    [dir, Itoa(|files|)] + PairsOf(files) + austinArgs
  }

  method AustinCommand(
    pid: string, fileName: string, seconds: nat, dir: string, files: seq<TargetFile>)
    returns (c: Command)
    ensures var austinArgs := ["-p", pid, "-o", fileName, "-x", Itoa(seconds), "-m"];
            c == if files == [] then Command("austin", austinArgs)
                 else Command("unshare", SCRIPT_COMMAND + Positional(dir, files, austinArgs))
  {
    var austinArgs := ["-p", pid, "-o", fileName, "-x", Itoa(seconds), "-m"];
    if |files| == 0 {
      return Command("austin", austinArgs);
    }
    var args := SCRIPT_COMMAND + [dir, Itoa(|files|)];
    for i := 0 to |files|
      invariant args == SCRIPT_COMMAND + ([dir, Itoa(|files|)] + PairsOf(files[..i]))
    {
      assert files[..i + 1][..i] == files[..i];
      args := args + [files[i].source, files[i].path];
      assert args == SCRIPT_COMMAND + ([dir, Itoa(|files|)] + PairsOf(files[..i + 1]));
    }
    assert files[..|files|] == files;
    args := args + austinArgs;
    assert args == SCRIPT_COMMAND + Positional(dir, files, austinArgs);
    c := Command("unshare", args);
  }

  lemma {:induction false} PairsLength(files: seq<TargetFile>)
    ensures |PairsOf(files)| == 2 * |files|
  {
    if files != [] {
      PairsLength(files[..|files| - 1]);
    }
  }

  lemma {:induction false} PairAt(files: seq<TargetFile>, i: nat)
    requires i < |files|
    ensures |PairsOf(files)| == 2 * |files|
    ensures PairsOf(files)[2 * i] == files[i].source && PairsOf(files)[2 * i + 1] == files[i].path
  {
    var n := |files| - 1;
    PairsLength(files);
    PairsLength(files[..n]);
    if i < n {
      PairAt(files[..n], i);
    }
  }

  lemma ShiftPair(files: seq<TargetFile>, tail: seq<string>, i: nat)
    requires i < |files|
    ensures |PairsOf(files)| == 2 * |files|
    ensures var rest := PairsOf(files)[2 * i..] + tail;
            && |rest| >= 2 && rest[0] == files[i].source && rest[1] == files[i].path
            && rest[2..] == PairsOf(files)[2 * (i + 1)..] + tail
  {
    PairAt(files, i);
  }

  /** The mount namespace the script runs in. */
  class ScriptShell {
    var ns: Namespace

    constructor (ns: Namespace)
      ensures this.ns == ns
    {
      this.ns := ns;
    }

    /** One turn of the loop, command by command. */
    method Turn(dir: string, src: string, p: string, permitted: bool) returns (ok: bool)
      modifies this
      ensures ok <==> MountOne(old(ns), dir, src, p, permitted).Some?
      ensures ok ==> Some(ns) == MountOne(old(ns), dir, src, p, permitted)
    {
      var c := dir + p;
      var made := MkdirP(ns, Parent(c));
      if made == None {
        return false;
      }
      ns := made.value;
      made := MkdirP(ns, Parent(p));
      if made == None {
        return false;
      }
      ns := made.value;
      var copied := Cp(ns, src, c);
      if copied == None {
        return false;
      }
      ns := copied.value;
      var touched := Touch(ns, p);
      if touched == None {
        return false;
      }
      ns := touched.value;
      var bound := Bind(ns, c, p, permitted);
      if bound == None {
        return false;
      }
      ns := bound.value;
      ok := true;
    }

    /**
     The script on its positional arguments: the command line it ends up executing, if no command fails.
     For arguments printed by the command builder it decodes exactly the printed files, in order, and
     hands on exactly the rest.
     */
    method Run(
      args: seq<string>, permitted: nat -> bool, ghost dir: string, ghost files: seq<TargetFile>,
      ghost tail: seq<string>)
      returns (exec: Option<seq<string>>)
      requires args == Positional(dir, files, tail)
      modifies this
      ensures exec.Some? <==> MountAll(old(ns), dir, files, permitted).Some?
      ensures exec.Some? ==> exec == Some(tail) && Some(ns) == MountAll(old(ns), dir, files, permitted)
    {
      Header(dir, files, tail);
      if |args| < 2 {
        return None;
      }
      var copyDir, n := args[0], if IsDecimal(args[1]) then Atoi(args[1]) else 0;
      exec := Loop(copyDir, n, args[2..], permitted, files, tail, MountWith(dir, permitted));
    }

    /** The loop: as long as files are left, two arguments are shifted off and mounted. */
    method Loop(
      dir: string, n: nat, args: seq<string>, permitted: nat -> bool,
      ghost files: seq<TargetFile>, ghost tail: seq<string>, ghost mount: Mounter)
      returns (exec: Option<seq<string>>)
      requires n == |files| && args == PairsOf(files) + tail && mount == MountWith(dir, permitted)
      modifies this
      ensures exec.Some? <==> Sequence(mount, old(ns), files).Some?
      ensures exec.Some? ==> exec == Some(tail) && Some(ns) == Sequence(mount, old(ns), files)
    {
      var rest, i := args, 0;
      PairsLength(files);
      while i < n
        invariant i <= n
        invariant rest == PairsOf(files)[2 * i..] + tail
        invariant Some(ns) == Sequence(mount, old(ns), files[..i])
      {
        ShiftPair(files, tail, i);
        if |rest| < 2 {
          return None;
        }
        var src, p := rest[0], rest[1];
        rest := rest[2..];
        SequenceNext(mount, old(ns), files, i, ns);
        ghost var before := ns;
        var ok := Turn(dir, src, p, permitted(i));
        assert mount(before, files[i], i) == MountOne(before, dir, src, p, permitted(i));
        if !ok {
          SequenceFails(mount, old(ns), files, i + 1);
          return None;
        }
        i := i + 1;
      }
      assert files[..n] == files;
      assert PairsOf(files)[2 * n..] == [] && rest == tail;
      exec := Some(rest);
    }
  }

  lemma Header(dir: string, files: seq<TargetFile>, tail: seq<string>)
    ensures var args := Positional(dir, files, tail);
            && |args| >= 2 && args[0] == dir && IsDecimal(args[1]) && Atoi(args[1]) == |files|
            && args[2..] == PairsOf(files) + tail
  {
    AtoiItoa(|files|);
  }

  // ---------- what the target's paths show afterwards ----------

  function CopyOf(dir: string, f: TargetFile): string { dir + f.path }

  /** Paths are distinct, and neither copies nor sources are among them; no source is a copy. */
  ghost predicate Separate(dir: string, files: seq<TargetFile>) {
    && (forall i, j :: 0 <= i < j < |files| ==> files[i].path != files[j].path)
    && (forall i, j :: 0 <= i < |files| && 0 <= j < |files| ==>
          && files[i].path != CopyOf(dir, files[j])
          && files[i].path != files[j].source
          && files[i].source != CopyOf(dir, files[j]))
  }

  ghost function PathsOf(files: seq<TargetFile>, n: nat): set<string>
    requires n <= |files|
  {
    set i | 0 <= i < n :: files[i].path
  }

  lemma PathsNext(files: seq<TargetFile>, n: nat)
    requires n < |files|
    ensures PathsOf(files, n + 1) == PathsOf(files, n) + {files[n].path}
  {
  }

  /** A path is bound to its own copy, and the copy holds what the source showed. */
  ghost predicate ShowsSource(before: Namespace, ns: Namespace, f: TargetFile, c: string) {
    && f.path in ns.mounts && ns.mounts[f.path] == c
    && IsFile(At(before, f.source))
    && c in ns.base && Some(ns.base[c]) == At(before, f.source)
  }

  /** After the first n files: each path shows what its source showed, through its own copy. */
  ghost predicate Mounted(before: Namespace, ns: Namespace, dir: string, files: seq<TargetFile>, n: nat)
    requires n <= |files|
  {
    && ns.mounts.Keys == PathsOf(files, n)
    && (forall i :: 0 <= i < n ==> ShowsSource(before, ns, files[i], CopyOf(dir, files[i])))
  }

  /** A name the script neither mounts nor copies to. */
  ghost predicate Untouched(dir: string, files: seq<TargetFile>, q: string) {
    forall i :: 0 <= i < |files| ==> files[i].path != q && CopyOf(dir, files[i]) != q
  }

  /** Files and directories keep what they were; new names can only be directories. */
  predicate Kept(before: map<string, Node>, after: map<string, Node>, q: string) {
    if q in before then q in after && after[q] == before[q] else q in after ==> after[q] == Dir
  }

  lemma MkdirKeeps(ns: Namespace, d: string)
    requires MkdirP(ns, d).Some?
    ensures MkdirP(ns, d).value.mounts == ns.mounts
    ensures forall q :: Kept(ns.base, MkdirP(ns, d).value.base, q)
  {
  }

  /** What one turn does: directories aside, only the copy and the mount point change. */
  ghost predicate TurnDone(ns: Namespace, ns': Namespace, src: string, p: string, c: string) {
    && ns'.mounts == ns.mounts[p := c]
    && IsFile(At(ns, src))
    && c in ns'.base && Some(ns'.base[c]) == At(ns, src)
    && forall q :: q != p && q != c ==> Kept(ns.base, ns'.base, q)
  }

  lemma TurnEffect(ns: Namespace, dir: string, src: string, p: string, permitted: bool)
    requires p != dir + p && p !in ns.mounts && dir + p !in ns.mounts && src !in ns.mounts
    requires src != p && src != dir + p
    requires MountOne(ns, dir, src, p, permitted).Some?
    ensures TurnDone(ns, MountOne(ns, dir, src, p, permitted).value, src, p, dir + p)
  {
    var c := dir + p;
    var ns1 := MkdirP(ns, Parent(c)).value;
    MkdirKeeps(ns, Parent(c));
    var ns2 := MkdirP(ns1, Parent(p)).value;
    MkdirKeeps(ns1, Parent(p));
    assert Kept(ns.base, ns1.base, src) && Kept(ns1.base, ns2.base, src);
    assert At(ns2, src) == At(ns, src);
    forall q | q != p && q != c
      ensures Kept(ns.base, MountOne(ns, dir, src, p, permitted).value.base, q)
    {
      assert Kept(ns.base, ns1.base, q) && Kept(ns1.base, ns2.base, q);
    }
  }

  lemma CopiesDistinct(dir: string, f: TargetFile, g: TargetFile)
    requires f.path != g.path
    ensures CopyOf(dir, f) != CopyOf(dir, g)
  {
    assert (dir + f.path)[|dir|..] == f.path && (dir + g.path)[|dir|..] == g.path;
  }

  /** Names of no file that will be mounted or copied to are as before, up to new directories. */
  ghost predicate Framed(before: Namespace, ns: Namespace, dir: string, files: seq<TargetFile>) {
    forall q :: Untouched(dir, files, q) ==> Kept(before.base, ns.base, q)
  }

  lemma SourceUnchanged(before: Namespace, ns: Namespace, dir: string, files: seq<TargetFile>, n: nat)
    requires Separate(dir, files) && before.mounts == map[] && n < |files|
    requires Mounted(before, ns, dir, files, n) && Framed(before, ns, dir, files)
    requires IsFile(At(ns, files[n].source))
    ensures At(ns, files[n].source) == At(before, files[n].source)
  {
    var src := files[n].source;
    assert Untouched(dir, files, src);
    assert Kept(before.base, ns.base, src);
    assert src !in ns.mounts;
  }

  lemma FramedNext(before: Namespace, ns: Namespace, ns': Namespace, dir: string, files: seq<TargetFile>, n: nat)
    requires n < |files| && Framed(before, ns, dir, files)
    requires forall q :: q != files[n].path && q != CopyOf(dir, files[n]) ==> Kept(ns.base, ns'.base, q)
    ensures Framed(before, ns', dir, files)
  {
    forall q | Untouched(dir, files, q)
      ensures Kept(before.base, ns'.base, q)
    {
      assert q != files[n].path && q != CopyOf(dir, files[n]);
      assert Kept(before.base, ns.base, q) && Kept(ns.base, ns'.base, q);
    }
  }

  lemma ShowsStays(
    before: Namespace, ns: Namespace, ns': Namespace, f: TargetFile, c: string, src: string, p: string, c': string)
    requires ShowsSource(before, ns, f, c) && TurnDone(ns, ns', src, p, c')
    requires f.path != p && c != p && c != c'
    ensures ShowsSource(before, ns', f, c)
  {
    assert Kept(ns.base, ns'.base, c);
  }

  lemma ShowsNext(before: Namespace, ns: Namespace, ns': Namespace, dir: string, files: seq<TargetFile>, n: nat, i: nat)
    requires Separate(dir, files) && before.mounts == map[] && i <= n < |files|
    requires Mounted(before, ns, dir, files, n) && Framed(before, ns, dir, files)
    requires TurnDone(ns, ns', files[n].source, files[n].path, CopyOf(dir, files[n]))
    ensures ShowsSource(before, ns', files[i], CopyOf(dir, files[i]))
  {
    if i < n {
      CopiesDistinct(dir, files[i], files[n]);
      ShowsStays(before, ns, ns', files[i], CopyOf(dir, files[i]), files[n].source, files[n].path,
          CopyOf(dir, files[n]));
    } else {
      SourceUnchanged(before, ns, dir, files, n);
    }
  }

  lemma MountedNext(before: Namespace, ns: Namespace, ns': Namespace, dir: string, files: seq<TargetFile>, n: nat)
    requires Separate(dir, files) && before.mounts == map[] && n < |files|
    requires Mounted(before, ns, dir, files, n) && Framed(before, ns, dir, files)
    requires TurnDone(ns, ns', files[n].source, files[n].path, CopyOf(dir, files[n]))
    ensures Mounted(before, ns', dir, files, n + 1)
  {
    PathsNext(files, n);
    forall i | 0 <= i < n + 1
      ensures ShowsSource(before, ns', files[i], CopyOf(dir, files[i]))
    {
      ShowsNext(before, ns, ns', dir, files, n, i);
    }
  }

  lemma MountsNext(
    before: Namespace, mid: Namespace, ns: Namespace, dir: string, files: seq<TargetFile>, n: nat, ok: bool)
    requires Separate(dir, files) && before.mounts == map[] && n < |files|
    requires Mounted(before, mid, dir, files, n) && Framed(before, mid, dir, files)
    requires MountOne(mid, dir, files[n].source, files[n].path, ok) == Some(ns)
    ensures Mounted(before, ns, dir, files, n + 1) && Framed(before, ns, dir, files)
  {
    TurnEffect(mid, dir, files[n].source, files[n].path, ok);
    MountedNext(before, mid, ns, dir, files, n);
    FramedNext(before, mid, ns, dir, files, n);
  }

  lemma {:induction false} MountsHold(
    before: Namespace, ns: Namespace, dir: string, files: seq<TargetFile>, permitted: nat -> bool, n: nat)
    requires Separate(dir, files) && before.mounts == map[] && n <= |files|
    requires Sequence(MountWith(dir, permitted), before, files[..n]) == Some(ns)
    ensures Mounted(before, ns, dir, files, n) && Framed(before, ns, dir, files)
    decreases n
  {
    if n > 0 {
      assert files[..n][..n - 1] == files[..n - 1];
      var mid := Sequence(MountWith(dir, permitted), before, files[..n - 1]).value;
      MountsHold(before, mid, dir, files, permitted, n - 1);
      MountsNext(before, mid, ns, dir, files, n - 1, permitted(n - 1));
    }
  }

  /**
   When the script gets to austin, every target path shows exactly the content of its own source, and
   every other name shows what it showed before: nothing is lost, and nothing but directories is new.
   */
  lemma PathsShowTheirSources(
    before: Namespace, ns: Namespace, dir: string, files: seq<TargetFile>, permitted: nat -> bool)
    requires Separate(dir, files) && before.mounts == map[]
    requires MountAll(before, dir, files, permitted) == Some(ns)
    ensures forall i :: 0 <= i < |files| ==>
              IsFile(At(before, files[i].source)) && At(ns, files[i].path) == At(before, files[i].source)
    ensures forall q :: Untouched(dir, files, q) ==>
              if At(before, q).Some? then At(ns, q) == At(before, q) else At(ns, q) in {None, Some(Dir)}
  {
    assert files[..|files|] == files;
    MountsHold(before, ns, dir, files, permitted, |files|);
    forall q | Untouched(dir, files, q)
      ensures if At(before, q).Some? then At(ns, q) == At(before, q) else At(ns, q) in {None, Some(Dir)}
    {
      assert Kept(before.base, ns.base, q);
      assert q !in ns.mounts;
    }
  }

  // ---------- the directories ----------

  /** A name is the path itself, or a directory above it. */
  predicate LeadsTo(q: string, path: string) {
    q == path || (0 < |q| < |path| && path[..|q|] == q && path[|q|] == '/')
  }

  lemma {:induction false} ParentShape(q: string)
    ensures var d := Parent(q);
            && (d == "" || (|d| < |q| && q[..|d|] == d && q[|d|] == '/'))
            && forall k :: 0 < k < |q| && q[k] == '/' ==> k <= |d|
  {
    if q != "" && q[|q| - 1] != '/' {
      ParentShape(q[..|q| - 1]);
    }
  }

  /** The directories above a name's parent, itself included, are those its slashes end. */
  lemma AncestorsOfParent(q: string)
    ensures forall k :: 0 < k < |q| && q[k] == '/' ==> q[..k] in Ancestors(Parent(q))
    ensures forall a :: a in Ancestors(Parent(q)) ==> LeadsTo(a, q)
  {
    var d := Parent(q);
    ParentShape(q);
    forall k | 0 < k < |q| && q[k] == '/'
      ensures q[..k] in Ancestors(d)
    {
      assert q[..k] == d[..k];
    }
    forall a | a in Ancestors(d)
      ensures LeadsTo(a, q)
    {
      var i :| 0 < i <= |d| && (i == |d| || d[i] == '/') && a == d[..i];
      assert q[..|d|][..i] == q[..i];
    }
  }

  /** Whatever is mounted shows something. */
  ghost predicate Sound(ns: Namespace) { forall p :: p in ns.mounts ==> At(ns, p) != None }

  ghost predicate DirsStay(ns: Namespace, ns': Namespace) {
    forall q :: At(ns, q) == Some(Dir) ==> At(ns', q) == Some(Dir)
  }

  /** New names are no others than the given path and copy, and the directories above them. */
  ghost predicate OnlyFor(base: map<string, Node>, base': map<string, Node>, p: string, c: string) {
    forall q :: q in base' && q !in base ==> LeadsTo(q, p) || LeadsTo(q, c)
  }

  /** `mkdir -p` of a file's directory makes every directory above the file, and nothing else. */
  lemma MkdirMakes(ns: Namespace, q: string)
    requires Sound(ns) && MkdirP(ns, Parent(q)).Some?
    ensures var ns' := MkdirP(ns, Parent(q)).value;
            Sound(ns') && HasDirs(ns', q) && DirsStay(ns, ns') && OnlyFor(ns.base, ns'.base, q, q)
  {
    AncestorsOfParent(q);
  }

  lemma WritingKeepsDirs(ns: Namespace, q: string, content: Node)
    requires Sound(ns) && Writable(ns, q) && content.File?
    ensures var ns' := ns.(base := ns.base[Resolve(ns, q) := content]);
            Sound(ns') && DirsStay(ns, ns') && OnlyFor(ns.base, ns'.base, q, q)
  {
  }

  /** What a turn does to directories: those it needs are there, and none goes away. */
  ghost predicate TurnDirs(ns: Namespace, ns': Namespace, p: string, c: string) {
    && Sound(ns') && DirsStay(ns, ns') && HasDirs(ns', p) && HasDirs(ns', c)
    && OnlyFor(ns.base, ns'.base, p, c)
  }

  lemma BothMade(ns: Namespace, p: string, c: string)
    requires Sound(ns) && MkdirP(ns, Parent(c)).Some? && MkdirP(MkdirP(ns, Parent(c)).value, Parent(p)).Some?
    ensures TurnDirs(ns, MkdirP(MkdirP(ns, Parent(c)).value, Parent(p)).value, p, c)
  {
    MkdirMakes(ns, c);
    MkdirMakes(MkdirP(ns, Parent(c)).value, p);
  }

  lemma FilesMade(ns: Namespace, ns3: Namespace, ns': Namespace, src: string, p: string, c: string, permitted: bool)
    requires Sound(ns) && HasDirs(ns, p) && HasDirs(ns, c)
    requires Cp(ns, src, c) == Some(ns3) && Touch(ns3, p).Some?
    requires Bind(Touch(ns3, p).value, c, p, permitted) == Some(ns')
    ensures TurnDirs(ns, ns', p, c) && permitted
  {
    WritingKeepsDirs(ns, c, At(ns, src).value);
    if At(ns3, p) == None {
      WritingKeepsDirs(ns3, p, File(""));
    }
    assert DirsStay(ns3, Touch(ns3, p).value);
    assert DirsStay(Touch(ns3, p).value, ns');
  }

  lemma TurnMakesDirs(ns: Namespace, ns': Namespace, dir: string, src: string, p: string, permitted: bool)
    requires Sound(ns) && MountOne(ns, dir, src, p, permitted) == Some(ns')
    ensures TurnDirs(ns, ns', p, dir + p) && permitted
  {
    var c := dir + p;
    BothMade(ns, p, c);
    var ns2 := MkdirP(MkdirP(ns, Parent(c)).value, Parent(p)).value;
    FilesMade(ns2, Cp(ns2, src, c).value, ns', src, p, c, permitted);
  }

  /** The first n turns were permitted, and the directories they need are there. */
  ghost predicate DirsReady(ns: Namespace, dir: string, files: seq<TargetFile>, permitted: nat -> bool, n: nat)
    requires n <= |files|
  {
    forall i :: 0 <= i < n ==> permitted(i) && HasDirs(ns, files[i].path) && HasDirs(ns, CopyOf(dir, files[i]))
  }

  /** The name is one that a turn for one of the first n files can bring into being. */
  ghost predicate Needed(dir: string, files: seq<TargetFile>, n: nat, q: string)
    requires n <= |files|
  {
    exists i :: 0 <= i < n && (LeadsTo(q, files[i].path) || LeadsTo(q, CopyOf(dir, files[i])))
  }

  ghost predicate OnlyNeeded(before: Namespace, ns: Namespace, dir: string, files: seq<TargetFile>, n: nat)
    requires n <= |files|
  {
    forall q :: q in ns.base && q !in before.base ==> Needed(dir, files, n, q)
  }

  lemma DirsReadyNext(
    ns: Namespace, ns': Namespace, dir: string, files: seq<TargetFile>, permitted: nat -> bool, n: nat)
    requires n < |files| && DirsReady(ns, dir, files, permitted, n) && permitted(n)
    requires DirsStay(ns, ns') && HasDirs(ns', files[n].path) && HasDirs(ns', CopyOf(dir, files[n]))
    ensures DirsReady(ns', dir, files, permitted, n + 1)
  {
  }

  lemma OnlyNeededNext(
    before: Namespace, ns: Namespace, ns': Namespace, dir: string, files: seq<TargetFile>, n: nat)
    requires n < |files| && OnlyNeeded(before, ns, dir, files, n)
    requires OnlyFor(ns.base, ns'.base, files[n].path, CopyOf(dir, files[n]))
    ensures OnlyNeeded(before, ns', dir, files, n + 1)
  {
    forall q | q in ns'.base && q !in before.base
      ensures Needed(dir, files, n + 1, q)
    {
      if q in ns.base {
        assert Needed(dir, files, n, q);
      } else {
        assert LeadsTo(q, files[n].path) || LeadsTo(q, CopyOf(dir, files[n]));
      }
    }
  }

  lemma {:induction false} DirsMadeUpTo(
    before: Namespace, ns: Namespace, dir: string, files: seq<TargetFile>, permitted: nat -> bool, n: nat)
    requires before.mounts == map[] && n <= |files|
    requires Sequence(MountWith(dir, permitted), before, files[..n]) == Some(ns)
    ensures Sound(ns) && DirsReady(ns, dir, files, permitted, n) && OnlyNeeded(before, ns, dir, files, n)
    decreases n
  {
    if n > 0 {
      assert files[..n][..n - 1] == files[..n - 1];
      var mid := Sequence(MountWith(dir, permitted), before, files[..n - 1]).value;
      DirsMadeUpTo(before, mid, dir, files, permitted, n - 1);
      TurnMakesDirs(mid, ns, dir, files[n - 1].source, files[n - 1].path, permitted(n - 1));
      DirsReadyNext(mid, ns, dir, files, permitted, n - 1);
      OnlyNeededNext(before, mid, ns, dir, files, n - 1);
    }
  }

  /**
   When the script gets to austin, every directory above a path or its copy is there, every bind was permitted,
   and whatever shows something that showed nothing before is a path, its copy, or a directory above one of them.
   */
  lemma DirsMade(before: Namespace, ns: Namespace, dir: string, files: seq<TargetFile>, permitted: nat -> bool)
    requires before.mounts == map[] && MountAll(before, dir, files, permitted) == Some(ns)
    ensures forall i :: 0 <= i < |files| ==>
              && permitted(i)
              && (forall k :: 0 < k < |files[i].path| && files[i].path[k] == '/' ==>
                    At(ns, files[i].path[..k]) == Some(Dir))
              && (var copy := dir + files[i].path;
                  forall k :: 0 < k < |copy| && copy[k] == '/' ==> At(ns, copy[..k]) == Some(Dir))
    ensures forall q :: q !in ns.mounts && At(before, q) == None && At(ns, q) != None ==>
              Needed(dir, files, |files|, q)
  {
    assert files[..|files|] == files;
    DirsMadeUpTo(before, ns, dir, files, permitted, |files|);
    forall i | 0 <= i < |files|
      ensures HasDirs(ns, files[i].path) && HasDirs(ns, dir + files[i].path) && permitted(i)
    {
      assert CopyOf(dir, files[i]) == dir + files[i].path;
    }
  }

  // ---------- when the script gets through ----------

  /** Sources are there, nothing but a file stands where a file must go, and no file where a directory must. */
  ghost predicate RoomFor(ns: Namespace, dir: string, files: seq<TargetFile>) {
    forall i :: 0 <= i < |files| ==>
      && IsFile(At(ns, files[i].source))
      && At(ns, files[i].path) != Some(Dir) && At(ns, CopyOf(dir, files[i])) != Some(Dir)
      && Clear(ns, dir, files, Parent(files[i].path)) && Clear(ns, dir, files, Parent(CopyOf(dir, files[i])))
  }

  ghost predicate Clear(ns: Namespace, dir: string, files: seq<TargetFile>, d: string) {
    forall a :: a in Ancestors(d) ==> !IsFile(At(ns, a)) && Untouched(dir, files, a)
  }

  /** No path of a file to be mounted, and no copy, has become a directory. */
  ghost predicate NoDirs(base: map<string, Node>, dir: string, files: seq<TargetFile>) {
    forall i :: 0 <= i < |files| ==>
      && (files[i].path in base ==> base[files[i].path].File?)
      && (CopyOf(dir, files[i]) in base ==> base[CopyOf(dir, files[i])].File?)
  }

  lemma MkdirGoesThrough(before: Namespace, ns: Namespace, dir: string, files: seq<TargetFile>, d: string)
    requires before.mounts == map[] && Clear(before, dir, files, d)
    requires forall a :: a in Ancestors(d) ==> a !in ns.mounts && Kept(before.base, ns.base, a)
    requires NoDirs(ns.base, dir, files)
    ensures MkdirP(ns, d).Some? && NoDirs(MkdirP(ns, d).value.base, dir, files)
  {
    forall a | a in Ancestors(d)
      ensures !IsFile(At(ns, a))
    {
      assert Kept(before.base, ns.base, a);
    }
    var base := MkdirP(ns, d).value.base;
    forall i | 0 <= i < |files|
      ensures files[i].path in base ==> base[files[i].path].File?
      ensures CopyOf(dir, files[i]) in base ==> base[CopyOf(dir, files[i])].File?
    {
      assert forall a :: a in Ancestors(d) ==> Untouched(dir, files, a);
      assert files[i].path !in Ancestors(d) && CopyOf(dir, files[i]) !in Ancestors(d);
    }
  }

  /** Past the two `mkdir`s, the copy, the mount point and the bind go through. */
  lemma BindGoesThrough(ns: Namespace, dir: string, files: seq<TargetFile>, n: nat)
    requires Separate(dir, files) && n < |files| && NoDirs(ns.base, dir, files)
    requires HasDirs(ns, files[n].path) && HasDirs(ns, CopyOf(dir, files[n]))
    requires files[n].source !in ns.mounts && files[n].path !in ns.mounts && CopyOf(dir, files[n]) !in ns.mounts
    requires IsFile(At(ns, files[n].source))
    ensures var copied := Cp(ns, files[n].source, CopyOf(dir, files[n]));
            && copied.Some?
            && var touched := Touch(copied.value, files[n].path);
               && touched.Some?
               && var bound := Bind(touched.value, CopyOf(dir, files[n]), files[n].path, true);
                  bound.Some? && NoDirs(bound.value.base, dir, files)
  {
    assert HasDirs(Cp(ns, files[n].source, CopyOf(dir, files[n])).value, files[n].path);
  }

  lemma MountedSound(before: Namespace, ns: Namespace, dir: string, files: seq<TargetFile>, n: nat)
    requires n <= |files| && Mounted(before, ns, dir, files, n)
    ensures Sound(ns)
  {
  }

  /** The two `mkdir`s go through and leave the sources alone. */
  lemma DirsGoThrough(
    before: Namespace, ns: Namespace, dir: string, files: seq<TargetFile>, n: nat, d: string, e: string)
    requires before.mounts == map[] && n <= |files| && Mounted(before, ns, dir, files, n)
    requires Framed(before, ns, dir, files) && NoDirs(ns.base, dir, files)
    requires Clear(before, dir, files, d) && Clear(before, dir, files, e)
    ensures MkdirP(ns, d).Some? && MkdirP(MkdirP(ns, d).value, e).Some?
    ensures var ns2 := MkdirP(MkdirP(ns, d).value, e).value;
            && NoDirs(ns2.base, dir, files) && ns2.mounts == ns.mounts
            && forall q :: Kept(ns.base, ns2.base, q)
  {
    ClearKept(before, ns, dir, files, n, d);
    MkdirGoesThrough(before, ns, dir, files, d);
    var ns1 := MkdirP(ns, d).value;
    MkdirKeeps(ns, d);
    ClearKept(before, ns, dir, files, n, e);
    forall a | a in Ancestors(e)
      ensures a !in ns1.mounts && Kept(before.base, ns1.base, a)
    {
      assert Kept(before.base, ns.base, a) && Kept(ns.base, ns1.base, a);
    }
    MkdirGoesThrough(before, ns1, dir, files, e);
    MkdirKeeps(ns1, e);
    forall q
      ensures Kept(ns.base, MkdirP(ns1, e).value.base, q)
    {
      assert Kept(ns.base, ns1.base, q);
    }
  }

  lemma SourceStillThere(before: Namespace, ns: Namespace, ns2: Namespace, dir: string, files: seq<TargetFile>, n: nat)
    requires Separate(dir, files) && before.mounts == map[] && n < |files| && IsFile(At(before, files[n].source))
    requires Mounted(before, ns, dir, files, n) && Framed(before, ns, dir, files)
    requires ns2.mounts == ns.mounts && forall q :: Kept(ns.base, ns2.base, q)
    ensures files[n].source !in ns.mounts && files[n].path !in ns.mounts && CopyOf(dir, files[n]) !in ns.mounts
    ensures IsFile(At(ns2, files[n].source))
  {
    var src := files[n].source;
    assert Untouched(dir, files, src) && Kept(before.base, ns.base, src);
    assert Kept(ns.base, ns2.base, src);
  }

  lemma TurnGoesThrough(before: Namespace, ns: Namespace, dir: string, files: seq<TargetFile>, n: nat)
    requires Separate(dir, files) && before.mounts == map[] && RoomFor(before, dir, files) && n < |files|
    requires Mounted(before, ns, dir, files, n) && Framed(before, ns, dir, files) && NoDirs(ns.base, dir, files)
    ensures var next := MountOne(ns, dir, files[n].source, files[n].path, true);
            next.Some? && NoDirs(next.value.base, dir, files)
  {
    var d, e := Parent(CopyOf(dir, files[n])), Parent(files[n].path);
    DirsGoThrough(before, ns, dir, files, n, d, e);
    var ns2 := MkdirP(MkdirP(ns, d).value, e).value;
    SourceStillThere(before, ns, ns2, dir, files, n);
    MountedSound(before, ns, dir, files, n);
    BothMade(ns, files[n].path, CopyOf(dir, files[n]));
    BindGoesThrough(ns2, dir, files, n);
  }

  lemma ClearKept(before: Namespace, ns: Namespace, dir: string, files: seq<TargetFile>, n: nat, d: string)
    requires n <= |files| && Mounted(before, ns, dir, files, n) && Framed(before, ns, dir, files)
    requires Clear(before, dir, files, d)
    ensures forall a :: a in Ancestors(d) ==> a !in ns.mounts && Kept(before.base, ns.base, a)
  {
    forall a | a in Ancestors(d)
      ensures a !in ns.mounts && Kept(before.base, ns.base, a)
    {
      assert Untouched(dir, files, a);
    }
  }

  /** With its sources present, room for every file, and binds permitted, the script does get to austin. */
  lemma {:induction false} ScriptGoesThrough(
    before: Namespace, dir: string, files: seq<TargetFile>, permitted: nat -> bool, n: nat)
    requires Separate(dir, files) && before.mounts == map[] && RoomFor(before, dir, files) && n <= |files|
    requires forall i :: 0 <= i < |files| ==> permitted(i)
    ensures var ns := Sequence(MountWith(dir, permitted), before, files[..n]);
            ns.Some? && NoDirs(ns.value.base, dir, files)
    decreases n
  {
    if n > 0 {
      var mount := MountWith(dir, permitted);
      ScriptGoesThrough(before, dir, files, permitted, n - 1);
      var mid := Sequence(mount, before, files[..n - 1]).value;
      SequenceNext(mount, before, files, n - 1, mid);
      MountsHold(before, mid, dir, files, permitted, n - 1);
      TurnGoesThrough(before, mid, dir, files, n - 1);
      assert mount(mid, files[n - 1], n - 1) == MountOne(mid, dir, files[n - 1].source, files[n - 1].path, true);
    } else {
      assert forall i :: 0 <= i < |files| ==>
          At(before, files[i].path) != Some(Dir) && At(before, CopyOf(dir, files[i])) != Some(Dir);
    }
  }

  // ---------- the files that were found ----------

  function CopyDir(pid: string): string { "/tmp/austin-target-" + pid }

  lemma {:induction false} LineSourcesInProc(pid: string, lines: seq<string>)
    ensures forall f :: f in OfLines(pid, lines) ==> HasPrefix(f.source, "/proc/")
  {
    if lines != [] {
      LineSourcesInProc(pid, lines[..|lines| - 1]);
    }
  }

  lemma SourcesInProc(pid: string, exe: string, maps: string, readable: string -> bool)
    ensures var cands := Candidates(pid, exe, maps);
            forall f :: f in Selected(cands, readable, |cands|) ==> HasPrefix(f.source, "/proc/")
  {
    var cands := Candidates(pid, exe, maps);
    LineSourcesInProc(pid, Split(maps, '\n'));
    var at := SelectedAt(cands, readable, |cands|);
    assert forall k :: 0 <= k < |at| ==> cands[at[k]] in cands;
  }

  lemma CopyIsElsewhere(dir: string, path: string, other: string, source: string)
    requires IsAbs(path) && HasPrefix(source, "/proc/") && |dir| > 6 && !HasPrefix(dir, "/proc/")
    requires !HasPrefix(other, dir + "/") && !HasPrefix(other, "/proc/")
    ensures dir + path != other && dir + path != source && other != source
  {
    assert (dir + path)[..|dir| + 1] == dir + path[..1];
    assert (dir + path)[..6] == dir[..6];
  }

  /** An absolute path, copied from below /proc, that is neither below /proc nor in the copy directory. */
  predicate WellPlaced(dir: string, f: TargetFile) {
    IsAbs(f.path) && HasPrefix(f.source, "/proc/") && !HasPrefix(f.path, dir + "/") && !HasPrefix(f.path, "/proc/")
  }

  lemma WellPlacedAreSeparate(dir: string, files: seq<TargetFile>)
    requires |dir| > 6 && !HasPrefix(dir, "/proc/")
    requires forall f :: f in files ==> WellPlaced(dir, f)
    requires forall i, j :: 0 <= i < j < |files| ==> files[i].path != files[j].path
    ensures Separate(dir, files)
  {
    forall i, j | 0 <= i < |files| && 0 <= j < |files|
      ensures files[i].path != CopyOf(dir, files[j]) && files[i].path != files[j].source
              && files[i].source != CopyOf(dir, files[j])
    {
      assert WellPlaced(dir, files[i]) && WellPlaced(dir, files[j]);
      CopyIsElsewhere(dir, files[j].path, files[i].path, files[j].source);
      CopyIsElsewhere(dir, files[j].path, files[i].path, files[i].source);
    }
  }

  /**
   What was found in the memory map can be mounted: as long as the target has nothing mapped from the copy
   directory or from /proc, no path, copy or source gets in the way of another.
   */
  lemma FoundFilesAreSeparate(pid: string, exe: string, maps: string, readable: string -> bool)
    requires var cands := Candidates(pid, exe, maps);
             forall f :: f in Selected(cands, readable, |cands|) ==>
               !HasPrefix(f.path, CopyDir(pid) + "/") && !HasPrefix(f.path, "/proc/")
    ensures var cands := Candidates(pid, exe, maps); Separate(CopyDir(pid), Selected(cands, readable, |cands|))
  {
    var cands := Candidates(pid, exe, maps);
    SourcesInProc(pid, exe, maps, readable);
    CopyDirPlaced(pid);
    SelectedAreSeparate(CopyDir(pid), cands, readable);
  }

  lemma CopyDirPlaced(pid: string)
    ensures |CopyDir(pid)| > 6 && !HasPrefix(CopyDir(pid), "/proc/")
  {
    assert CopyDir(pid)[1] == 't';
  }

  lemma SelectedAreSeparate(dir: string, cands: seq<TargetFile>, readable: string -> bool)
    requires |dir| > 6 && !HasPrefix(dir, "/proc/")
    requires forall f :: f in Selected(cands, readable, |cands|) ==>
               HasPrefix(f.source, "/proc/") && !HasPrefix(f.path, dir + "/") && !HasPrefix(f.path, "/proc/")
    ensures Separate(dir, Selected(cands, readable, |cands|))
  {
    var files := Selected(cands, readable, |cands|);
    var at := FirstMappingWins(cands, readable);
    forall f | f in files
      ensures WellPlaced(dir, f)
    {
      var k :| 0 <= k < |files| && files[k] == f;
      assert IsAbs(files[k].path);
    }
    WellPlacedAreSeparate(dir, files);
  }
}
