/**
 Non-interference through file names: a task reads and writes only files whose name carries its own
 PID and iteration, so what it does depends on nothing else in the shared file system.
 */
module Isolation {
  import opened Text
  import opened ResultNames
  import opened Pipelines

  function OwnerKey(job: Job, pid: string): Key { Key(pid, Itoa(job.iteration)) }

  /** The part of the file system that belongs to one PID and iteration. */
  function Restrict(files: Files, key: Key): Files {
    map name | name in files && KeyOf(name) == key :: files[name]
  }

  // ---------- which steps belong to which tool ----------

  predicate PcFits(tool: Tool, pc: Pc) {
    match pc
    case AtPerf(_) => tool == Perf
    case AtBpf => tool == Bpf
    case WriteRaw(_) => tool == Perf || tool == Bpf
    case AtPprof(_) => tool == PProf
    case AtAustin(_) => tool == Austin
    case AtFlame(_) => tool != PProf
    case AtPublish(at) => !at.Emit? ==> (at.ctx.ViaPort? <==> tool == PProf)
  }

  /** The job as the task for `pid` sees it at `pc`: pprof's own copy, taken by its first step, else the shared one. */
  function JobAt(shared: Job, pid: string, pc: Pc): Job {
    if shared.tool == PProf && pc != AtPprof(CopyJob) then shared.(pid := pid) else shared
  }

  predicate TaskOk(shared: Job, pid: string, t: Task) {
    t.Running? ==> PcFits(shared.tool, t.pc) && t.job == JobAt(shared, pid, t.pc)
  }

  // ---------- names ----------

  predicate Owns(key: Key, name: string) { KeyOf(name) == key }

  predicate NamesOwned(key: Key, names: Names) {
    && Owns(key, names.perfData) && Owns(key, names.perfScript) && Owns(key, names.raw) && Owns(key, names.result)
    && Owns(key, names.published) && Owns(key, names.profile) && Owns(key, names.converted)
    && Owns(key, names.cpu) && Owns(key, names.heap)
  }

  lemma FileOwned(job: Job, pid: string, outputType: string, suffix: string)
    requires IsDecimal(pid) && '-' !in suffix
    ensures Owns(OwnerKey(job, pid), FileOf(job, pid, outputType) + suffix)
  {
    KeyOfResultFile(TMP_DIR, job.tool, outputType, pid, job.iteration, suffix);
  }

  lemma PlainFileOwned(job: Job, pid: string, outputType: string)
    requires IsDecimal(pid)
    ensures Owns(OwnerKey(job, pid), FileOf(job, pid, outputType))
  {
    FileOwned(job, pid, outputType, "");
    assert FileOf(job, pid, outputType) + "" == FileOf(job, pid, outputType);
  }

  lemma PerfFileOwned(job: Job, pid: string, extension: string)
    requires IsDecimal(pid) && extension in [".data", ".out"]
    ensures Owns(OwnerKey(job, pid), PerfFile(pid, job.iteration, extension))
  {
    DecimalHasNoDash(pid);
    KeyOfName("/tmp/perf", pid, job.iteration, extension);
    assert PerfFile(pid, job.iteration, extension)
        == "/tmp/perf" + "-" + pid + "-" + Itoa(job.iteration) + extension;
  }

  lemma PerfNamesOwned(job: Job, pid: string)
    requires IsDecimal(pid)
    ensures var key, names := OwnerKey(job, pid), NamesOf(job, pid);
            Owns(key, names.perfData) && Owns(key, names.perfScript)
  {
    PerfFileOwned(job, pid, ".data");
    PerfFileOwned(job, pid, ".out");
  }

  lemma PlainNamesOwned(job: Job, pid: string)
    requires IsDecimal(pid)
    ensures var key, names := OwnerKey(job, pid), NamesOf(job, pid);
            && Owns(key, names.raw) && Owns(key, names.result) && Owns(key, names.profile)
            && Owns(key, names.cpu) && Owns(key, names.heap)
  {
    PlainFileOwned(job, pid, RAW);
    PlainFileOwned(job, pid, job.outputType);
    PlainFileOwned(job, pid, "cpu");
    PlainFileOwned(job, pid, "heap");
  }

  lemma DerivedNamesOwned(job: Job, pid: string)
    requires IsDecimal(pid)
    ensures var key, names := OwnerKey(job, pid), NamesOf(job, pid);
            Owns(key, names.published) && Owns(key, names.converted)
  {
    FileOwned(job, pid, job.outputType, ExtensionOf(job.compressor));
    FileOwned(job, pid, if job.outputType == FLAMEGRAPH then RAW else job.outputType, ".txt");
  }

  lemma AllNamesOwned(job: Job, pid: string)
    requires IsDecimal(pid)
    ensures NamesOwned(OwnerKey(job, pid), NamesOf(job, pid))
  {
    PerfNamesOwned(job, pid);
    PlainNamesOwned(job, pid);
    DerivedNamesOwned(job, pid);
  }

  // ---------- one step ----------

  predicate OpsOwned(key: Key, ops: seq<FileOp>) {
    forall i :: 0 <= i < |ops| ==> Owns(key, ops[i].name)
  }

  /** What a step announces: the published file as it is, and only when the step ends the task well. */
  predicate EventsFit(world: World, shared: Job, names: Names, t: Task, e: Effect, files: Files) {
    if t.Running? && e.task == Finished(None) then
      && e.ops == []
      && e.events == [Result(shared.outputType, names.published, Size(Look(files, names.published)),
                             world.checksum(Look(files, names.published).GetOr("")))]
    else e.events == []
  }

  lemma LookRestrict(files: Files, key: Key, name: string)
    requires Owns(key, name)
    ensures Look(Restrict(files, key), name) == Look(files, name)
  {
  }

  ghost predicate SameLooks(f: Files, g: Files, names: Names) {
    && Look(f, names.perfData) == Look(g, names.perfData)
    && Look(f, names.perfScript) == Look(g, names.perfScript)
    && Look(f, names.raw) == Look(g, names.raw)
    && Look(f, names.result) == Look(g, names.result)
    && Look(f, names.published) == Look(g, names.published)
    && Look(f, names.profile) == Look(g, names.profile)
    && Look(f, names.converted) == Look(g, names.converted)
    && Look(f, names.cpu) == Look(g, names.cpu)
    && Look(f, names.heap) == Look(g, names.heap)
  }

  lemma RestrictSameLooks(files: Files, key: Key, names: Names)
    requires NamesOwned(key, names)
    ensures SameLooks(files, Restrict(files, key), names)
  {
    LookRestrict(files, key, names.perfData);
    LookRestrict(files, key, names.perfScript);
    LookRestrict(files, key, names.raw);
    LookRestrict(files, key, names.result);
    LookRestrict(files, key, names.published);
    LookRestrict(files, key, names.profile);
    LookRestrict(files, key, names.converted);
    LookRestrict(files, key, names.cpu);
    LookRestrict(files, key, names.heap);
  }

  /** A step depends on its own files only. */
  lemma StepReads(world: World, shared: Job, pid: string, names: Names, pc: Pc, job: Job, f: Files, g: Files)
    requires SameLooks(f, g, names)
    ensures StepAt(world, shared, pid, names, pc, job, f) == StepAt(world, shared, pid, names, pc, job, g)
  {
  }

  predicate Among(names: Names, name: string) {
    || name == names.perfData || name == names.perfScript || name == names.raw || name == names.result
    || name == names.published || name == names.profile || name == names.converted
    || name == names.cpu || name == names.heap
  }

  predicate OpsAmong(names: Names, ops: seq<FileOp>) {
    forall i :: 0 <= i < |ops| ==> Among(names, ops[i].name)
  }

  lemma PerfWrites(world: World, pid: string, names: Names, pc: PerfPc, job: Job, files: Files)
    ensures OpsAmong(names, PerfStep(world, pid, names, pc, job, files).ops)
  {
  }

  lemma PprofWrites(world: World, shared: Job, pid: string, names: Names, pc: PprofPc, job: Job, files: Files)
    ensures OpsAmong(names, PprofStep(world, shared, pid, names, pc, job, files).ops)
  {
  }

  lemma AustinWrites(world: World, pid: string, names: Names, pc: AustinPc, job: Job, files: Files)
    ensures OpsAmong(names, AustinStep(world, pid, names, pc, job, files).ops)
  {
  }

  /** A step writes its own files only. */
  lemma StepWrites(world: World, shared: Job, pid: string, names: Names, pc: Pc, job: Job, files: Files)
    ensures OpsAmong(names, StepAt(world, shared, pid, names, pc, job, files).ops)
  {
    match pc
    case AtPerf(at) => PerfWrites(world, pid, names, at, job, files);
    case AtPprof(at) => PprofWrites(world, shared, pid, names, at, job, files);
    case AtAustin(at) => AustinWrites(world, pid, names, at, job, files);
    case _ =>
  }

  /** A task stays within its tool's steps, and pprof's copy of the job stays its own. */
  lemma StepKeepsTask(world: World, shared: Job, pid: string, names: Names, pc: Pc, job: Job, files: Files)
    requires TaskOk(shared, pid, Running(pc, job))
    ensures TaskOk(shared, pid, StepAt(world, shared, pid, names, pc, job, files).task)
  {
  }

  lemma StepAnnounces(world: World, shared: Job, pid: string, names: Names, pc: Pc, job: Job, files: Files)
    requires TaskOk(shared, pid, Running(pc, job))
    ensures EventsFit(world, shared, names, Running(pc, job), StepAt(world, shared, pid, names, pc, job, files), files)
  {
  }

  lemma AmongOwned(key: Key, names: Names, ops: seq<FileOp>)
    requires NamesOwned(key, names) && OpsAmong(names, ops)
    ensures OpsOwned(key, ops)
  {
    forall i | 0 <= i < |ops|
      ensures Owns(key, ops[i].name)
    {
      assert Among(names, ops[i].name);
    }
  }

  /** The names the task for `pid` uses; pprof takes them from its copy of the job, with the same result. */
  lemma NamesOfTask(shared: Job, pid: string, t: Task)
    requires TaskOk(shared, pid, t) && t.Running? && t.pc != AtPprof(CopyJob)
    ensures NamesOf(t.job, if t.job.tool == PProf then t.job.pid else pid) == NamesOf(shared, pid)
  {
  }

  /**
   One step of the task for `pid`: it keeps the task in order, touches files of its own key only,
   announces the published file exactly when it ends the task well, and would do the same if no other
   key's files existed.
   */
  lemma StepIsLocal(world: World, shared: Job, pid: string, t: Task, files: Files)
    requires IsDecimal(pid) && TaskOk(shared, pid, t)
    ensures var key, e := OwnerKey(shared, pid), Step(world, shared, pid, t, files);
            && TaskOk(shared, pid, e.task)
            && OpsOwned(key, e.ops)
            && EventsFit(world, shared, NamesOf(shared, pid), t, e, files)
            && Step(world, shared, pid, t, Restrict(files, key)) == e
  {
    var key, names := OwnerKey(shared, pid), NamesOf(shared, pid);
    if t.Running? && t.pc != AtPprof(CopyJob) {
      AllNamesOwned(shared, pid);
      NamesOfTask(shared, pid, t);
      RestrictSameLooks(files, key, names);
      StepReads(world, shared, pid, names, t.pc, t.job, files, Restrict(files, key));
      StepWrites(world, shared, pid, names, t.pc, t.job, files);
      AmongOwned(key, names, Step(world, shared, pid, t, files).ops);
      StepKeepsTask(world, shared, pid, names, t.pc, t.job, files);
      StepAnnounces(world, shared, pid, names, t.pc, t.job, files);
    }
  }

  // ---------- applying operations ----------

  lemma ApplyOneOwn(files: Files, key: Key, op: FileOp)
    requires Owns(key, op.name)
    ensures Restrict(ApplyOne(files, op), key) == ApplyOne(Restrict(files, key), op)
  {
  }

  /** Operations on a key's own files act on its part of the file system alone. */
  lemma {:induction false} ApplyOwn(files: Files, key: Key, ops: seq<FileOp>)
    requires OpsOwned(key, ops)
    ensures Restrict(Apply(files, ops), key) == Apply(Restrict(files, key), ops)
    decreases |ops|
  {
    if ops != [] {
      ApplyOneOwn(files, key, ops[0]);
      ApplyOwn(ApplyOne(files, ops[0]), key, ops[1..]);
    }
  }

  lemma {:induction false} ApplyOther(files: Files, key: Key, ops: seq<FileOp>, name: string)
    requires OpsOwned(key, ops) && !Owns(key, name)
    ensures Look(Apply(files, ops), name) == Look(files, name)
    decreases |ops|
  {
    if ops != [] {
      assert Owns(key, ops[0].name);
      ApplyOther(ApplyOne(files, ops[0]), key, ops[1..], name);
    }
  }

  lemma SameRestriction(f: Files, g: Files, key: Key)
    requires forall name :: Owns(key, name) ==> Look(f, name) == Look(g, name)
    ensures Restrict(f, key) == Restrict(g, key)
  {
    forall name | name in Restrict(f, key)
      ensures name in Restrict(g, key) && Restrict(f, key)[name] == Restrict(g, key)[name]
    {
      assert Look(f, name) == Look(g, name);
    }
    forall name | name in Restrict(g, key)
      ensures name in Restrict(f, key)
    {
      assert Look(f, name) == Look(g, name);
    }
  }

  lemma ApplyOtherRestrict(files: Files, key: Key, ops: seq<FileOp>, other: Key)
    requires OpsOwned(key, ops) && key != other
    ensures Restrict(Apply(files, ops), other) == Restrict(files, other)
  {
    forall name | Owns(other, name)
      ensures Look(Apply(files, ops), name) == Look(files, name)
    {
      ApplyOther(files, key, ops, name);
    }
    SameRestriction(Apply(files, ops), files, other);
  }
}
