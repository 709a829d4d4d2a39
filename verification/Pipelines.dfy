/**
 What one PID's task does in one iteration, for perf, bpf, pprof and austin, as atomic steps over the
 file system that all tasks share. External commands are functions of the PID, the iteration and the
 files they are given; any of them may fail, with or without having written its output.
 */
module Pipelines {
  import opened Text
  import opened ResultNames
  import Legend

  type Files = map<string, string>

  const TMP_DIR := "/tmp"
  /** The least raw size worth rendering for perf and bpf; austin only refuses an empty file. */
  const MINIMUM_RAW_SIZE := 50
  const MOJO_MAGIC := ['M', 'O', 'J', 3 as char]
  /** The scanner buffer austin's text profile is read with. */
  const SAMPLE_LIMIT := 16 * 1024 * 1024

  datatype Compressor = NoCompression | Snappy | Gzip | Lzo | Zstd

  function ExtensionOf(c: Compressor): string {
    match c
    case NoCompression => ""
    case Snappy => ".snappy"
    case Gzip => ".gz"
    case Lzo => ".lzo"
    case Zstd => ".zst"
  }

  /** The tools whose tasks are modelled here. */
  type PipelineTool = t: Tool | t in {Bpf, Perf, Austin, PProf} witness Bpf

  /** The interval is a whole number of seconds. */
  datatype Job = Job(
    tool: PipelineTool, outputType: string, seconds: nat, compressor: Compressor, iteration: nat, pid: string)

  /** Why a task ended without a result; `cause` is what the failing command said. */
  datatype Failure =
    | PerfRecordFailed(cause: string)
    | PerfScriptFailed(cause: string)
    | FoldingFailed(cause: string)
    | LaunchFailed(cause: string)
    | ConversionFailed(cause: string)
    | NoSamples
    | UnreadableProfile
    | NoGrowth
    | AnnotationFailed
    | NoStacks
    | RenderingFailed(cause: string)
    | FetchFailed(heap: bool, cause: string)
    | PprofConversionFailed(heap: bool, cause: string)
    | UnsupportedOutput
    | NoResultFile
    | CompressionFailed(cause: string)
    | PortGuessed(port: string, why: string, failure: Failure)

  datatype PidError = PidError(pid: string, err: Failure)

  datatype Event =
    | Started
    | Ended
    | Notice(profiled: nat, total: nat, skipped: seq<PidError>)
    | ManyPids(pids: seq<string>)
    | Result(resultType: string, file: string, size: nat, checksum: int)

  // ---------- the outside world ----------

  datatype Command =
    | PerfRecord(pid: string, iteration: nat, seconds: nat)
    | PerfScript(data: Option<string>)
    | StackCollapse(script: Option<string>)
    | BccProfile(pid: string, iteration: nat, seconds: nat)
    | FlameGraphScript(stacks: string)
    | FindPort(pid: string, iteration: nat)
    | ScrapeHeap(pid: string, iteration: nat, port: string)
    | ScrapeCpu(pid: string, iteration: nat, port: string, seconds: nat)
    | PprofRaw(data: Option<string>)
    | RunAustin(pid: string, iteration: nat, seconds: nat)
    | Mojo2Austin(mojo: string)
    | Encode(compressor: Compressor, content: string)

  /** `output` is what ended up in the command's output file or pipe, if anything did. */
  datatype Outcome = Outcome(ok: bool, output: Option<string>, reason: string)

  /**
   The commands, and the checksum announced with a result. Austin ending on the interrupt that closes every
   timed run counts as `ok`. `noGrowth` is austin's remark about a steady process, in one line.
   */
  datatype World = World(run: Command -> Outcome, checksum: string -> int, noGrowth: string)

  // ---------- a task ----------

  /** How pprof reports an error: with a remark when the port was only guessed. */
  datatype Port = Detected(port: string) | Guessed(port: string, why: string)

  datatype Context = Direct | ViaPort(port: Port)

  datatype PerfPc = Recording | CreateScript | Scripting | Folding

  datatype PprofPc =
    | CopyJob
    | PortScan
    | Fetch(port: Port)
    | ConvertCpu(port: Port)
    | FetchHeap(port: Port, cpu: string)
    | ConvertHeap(port: Port, cpu: string)
    | WriteBoth(port: Port, cpu: string, heap: string)

  datatype AustinPc = Sampling | CheckFormat | Convert(mojo: string) | Rename | CheckSamples | Annotate

  datatype FlamePc = CheckStacks | Render(stacks: string)

  datatype PublishPc =
    | Open(ctx: Context)
    | Create(ctx: Context, data: string)
    | Compress(ctx: Context, data: string)
    | Emit

  datatype Pc =
    | AtPerf(perf: PerfPc)
    | AtBpf
    | AtPprof(pprof: PprofPc)
    | AtAustin(austin: AustinPc)
    | WriteRaw(folded: string)
    | AtFlame(flame: FlamePc)
    | AtPublish(publish: PublishPc)

  /** `job` is the job as this task sees it: the shared one, or its own copy. */
  datatype Task = Running(pc: Pc, job: Job) | Finished(err: Option<Failure>)

  datatype FileOp = Put(name: string, content: string) | Delete(name: string)

  datatype Effect = Effect(task: Task, ops: seq<FileOp>, events: seq<Event>)

  function FirstPc(tool: PipelineTool): Pc {
    match tool
    case Perf => AtPerf(Recording)
    case Bpf => AtBpf
    case PProf => AtPprof(CopyJob)
    case Austin => AtAustin(Sampling)
  }

  function Fresh(shared: Job): Task { Running(FirstPc(shared.tool), shared) }

  // ---------- file names ----------

  function PerfFile(pid: string, iteration: nat, extension: string): string {
    "/tmp/perf-" + pid + "-" + Itoa(iteration) + extension
  }

  function FileOf(job: Job, pid: string, outputType: string): string {
    GetResultFile(TMP_DIR, job.tool, outputType, pid, job.iteration)
  }

  function PublishedFile(job: Job, pid: string): string {
    FileOf(job, pid, job.outputType) + ExtensionOf(job.compressor)
  }

  /** Every file the task for one PID uses. `profile` is where austin writes its samples. */
  datatype Names = Names(
    perfData: string, perfScript: string, raw: string, result: string, published: string,
    profile: string, converted: string, cpu: string, heap: string)

  function NamesOf(job: Job, pid: string): Names {
    var profile := FileOf(job, pid, if job.outputType == FLAMEGRAPH then RAW else job.outputType);
    Names(
      PerfFile(pid, job.iteration, ".data"), PerfFile(pid, job.iteration, ".out"),
      FileOf(job, pid, RAW), FileOf(job, pid, job.outputType), PublishedFile(job, pid),
      profile, profile + ".txt", FileOf(job, pid, "cpu"), FileOf(job, pid, "heap"))
  }

  // ---------- file access ----------

  function Look(files: Files, name: string): Option<string> {
    if name in files then Some(files[name]) else None
  }

  function Size(content: Option<string>): nat { |content.GetOr("")| }

  function Save(name: string, output: Option<string>): seq<FileOp> {
    match output
    case Some(content) => [Put(name, content)]
    case None => []
  }

  function ApplyOne(files: Files, op: FileOp): Files {
    match op
    case Put(name, content) => files[name := content]
    case Delete(name) => files - {name}
  }

  function Apply(files: Files, ops: seq<FileOp>): Files
    decreases |ops|
  {
    if ops == [] then files else Apply(ApplyOne(files, ops[0]), ops[1..])
  }

  // ---------- austin's text format ----------

  function CountSamples(lines: seq<string>): nat {
    if lines == [] then 0
    else (if lines[0] != "" && lines[0][0] == 'P' then 1 else 0) + CountSamples(lines[1..])
  }

  function SampleCount(text: string): nat { CountSamples(Lines(text)) }

  /** What is appended to a raw profile without samples. */
  function Note(world: World): string { "# " + world.noGrowth + "\n" }

  predicate IsMojo(content: string) { HasPrefix(content, MOJO_MAGIC) }

  // ---------- the steps ----------

  function Goto(pc: Pc, job: Job, ops: seq<FileOp>): Effect { Effect(Running(pc, job), ops, []) }

  function Fail(reason: Failure, ops: seq<FileOp>): Effect { Effect(Finished(Some(reason)), ops, []) }

  function Explain(ctx: Context, reason: Failure): Failure {
    match ctx
    case ViaPort(Guessed(port, why)) => PortGuessed(port, why, reason)
    case _ => reason
  }

  function Raise(ctx: Context, reason: Failure, ops: seq<FileOp>): Effect { Fail(Explain(ctx, reason), ops) }

  /** The next step of the task for `pid`, started with the job all tasks of this iteration share. */
  function Step(world: World, shared: Job, pid: string, t: Task, files: Files): Effect {
    match t
    case Finished(_) => Effect(t, [], [])
    case Running(pc, job) =>
      // pprof reads the PID from its copy of the job; the other tools carry it themselves
      StepAt(world, shared, pid, NamesOf(job, if job.tool == PProf then job.pid else pid), pc, job, files)
  }

  function StepAt(world: World, shared: Job, pid: string, names: Names, pc: Pc, job: Job, files: Files): Effect {
    match pc
    case AtPerf(at) => PerfStep(world, pid, names, at, job, files)
    case AtBpf =>
      var o := world.run(BccProfile(pid, job.iteration, job.seconds));
      if o.ok then Goto(WriteRaw(o.output.GetOr("")), job, []) else Fail(LaunchFailed(o.reason), [])
    case WriteRaw(folded) =>
      Goto(AtFlame(CheckStacks), job, [Put(names.raw, Legend.WithLegend(folded, pid))])
    case AtPprof(at) => PprofStep(world, shared, pid, names, at, job, files)
    case AtAustin(at) => AustinStep(world, pid, names, at, job, files)
    case AtFlame(at) => FlameStep(world, names, at, job, files)
    case AtPublish(at) => PublishStep(world, names, at, job, files)
  }

  function PerfStep(world: World, pid: string, names: Names, pc: PerfPc, job: Job, files: Files): Effect {
    match pc
    case Recording =>
      var o := world.run(PerfRecord(pid, job.iteration, job.seconds));
      var ops := Save(names.perfData, o.output);
      if o.ok then Goto(AtPerf(CreateScript), job, ops) else Fail(PerfRecordFailed(o.reason), ops)
    case CreateScript =>
      Goto(AtPerf(Scripting), job, [Put(names.perfScript, "")])
    case Scripting =>
      var o := world.run(PerfScript(Look(files, names.perfData)));
      var ops := Save(names.perfScript, o.output);
      if o.ok then Goto(AtPerf(Folding), job, ops) else Fail(PerfScriptFailed(o.reason), ops)
    case Folding =>
      var o := world.run(StackCollapse(Look(files, names.perfScript)));
      if o.ok then Goto(WriteRaw(o.output.GetOr("")), job, [])
      else Fail(FoldingFailed(o.reason), [])
  }

  function PprofStep(
    world: World, shared: Job, pid: string, names: Names, pc: PprofPc, job: Job, files: Files): Effect
  {
    match pc
    case CopyJob =>
      Goto(AtPprof(PortScan), shared.(pid := pid), [])
    case PortScan =>
      var o := world.run(FindPort(job.pid, job.iteration));
      Goto(AtPprof(Fetch(if o.ok then Detected(o.output.GetOr("")) else Guessed("8080", o.reason))), job, [])
    case Fetch(port) =>
      if job.outputType == HEAP_DUMP then
        Scrape(world, ScrapeHeap(job.pid, job.iteration, port.port), names.result, port,
               AtPublish(Open(ViaPort(port))), job, true)
      else if job.outputType == PPROF then
        Scrape(world, ScrapeCpu(job.pid, job.iteration, port.port, job.seconds), names.result, port,
               AtPublish(Open(ViaPort(port))), job, false)
      else if job.outputType == RAW then
        Scrape(world, ScrapeCpu(job.pid, job.iteration, port.port, job.seconds), names.cpu, port,
               AtPprof(ConvertCpu(port)), job, false)
      else
        Raise(ViaPort(port), UnsupportedOutput, [])
    case ConvertCpu(port) =>
      var o := world.run(PprofRaw(Look(files, names.cpu)));
      if o.ok then Goto(AtPprof(FetchHeap(port, o.output.GetOr(""))), job, [])
      else Raise(ViaPort(port), PprofConversionFailed(false, o.reason), [])
    case FetchHeap(port, cpu) =>
      Scrape(world, ScrapeHeap(job.pid, job.iteration, port.port), names.heap, port,
             AtPprof(ConvertHeap(port, cpu)), job, true)
    case ConvertHeap(port, cpu) =>
      var o := world.run(PprofRaw(Look(files, names.heap)));
      if o.ok then Goto(AtPprof(WriteBoth(port, cpu, o.output.GetOr(""))), job, [])
      else Raise(ViaPort(port), PprofConversionFailed(true, o.reason), [])
    case WriteBoth(port, cpu, heap) =>
      Goto(AtPublish(Open(ViaPort(port))), job,
           [Put(names.result, "heap dump\n " + heap + " \n cpu dump\n " + cpu)])
  }

  /** One download from the target into a file. */
  function Scrape(
    world: World, command: Command, file: string, port: Port, next: Pc, job: Job, heap: bool): Effect
  {
    var o := world.run(command);
    var ops := Save(file, o.output);
    if o.ok then Goto(next, job, ops) else Raise(ViaPort(port), FetchFailed(heap, o.reason), ops)
  }

  function AustinStep(world: World, pid: string, names: Names, pc: AustinPc, job: Job, files: Files): Effect {
    match pc
    case Sampling =>
      var o := world.run(RunAustin(pid, job.iteration, job.seconds));
      var ops := Save(names.profile, o.output);
      if o.ok then Goto(AtAustin(CheckFormat), job, ops) else Fail(LaunchFailed(o.reason), ops)
    case CheckFormat =>
      (match Look(files, names.profile)
       case None => Fail(ConversionFailed("no such file"), [])
       case Some(content) =>
         Goto(AtAustin(if IsMojo(content) then Convert(content) else CheckSamples), job, []))
    case Convert(mojo) =>
      var o := world.run(Mojo2Austin(mojo));
      var ops := Save(names.converted, o.output);
      if o.ok then Goto(AtAustin(Rename), job, ops)
      else Fail(ConversionFailed(o.reason), ops)
    case Rename =>
      (match Look(files, names.converted)
       case None => Fail(ConversionFailed("no such file"), [])
       case Some(text) =>
         Goto(AtAustin(CheckSamples), job, [Delete(names.converted), Put(names.profile, text)]))
    case CheckSamples =>
      var content := Look(files, names.profile);
      if Size(content) == 0 then Fail(NoSamples, [])
      else if !Legend.Scannable(content.GetOr(""), SAMPLE_LIMIT) then Fail(UnreadableProfile, [])
      else if SampleCount(content.GetOr("")) > 0 then Goto(AtFlame(CheckStacks), job, [])
      else if job.outputType != RAW then Fail(NoGrowth, [])
      else Goto(AtAustin(Annotate), job, [])
    case Annotate =>
      (match Look(files, names.profile)
       case None => Fail(AnnotationFailed, [])
       case Some(text) => Goto(AtFlame(CheckStacks), job, [Put(names.profile, text + Note(world))]))
  }

  function FlameStep(world: World, names: Names, pc: FlamePc, job: Job, files: Files): Effect {
    match pc
    case CheckStacks =>
      if job.outputType != FLAMEGRAPH then Goto(AtPublish(Open(Direct)), job, [])
      else
        var raw := Look(files, names.raw);
        if Size(raw) < (if job.tool == Austin then 1 else MINIMUM_RAW_SIZE) then
          Fail(NoStacks, [])
        else Goto(AtFlame(Render(raw.GetOr(""))), job, [Put(names.result, "")])
    case Render(stacks) =>
      var o := world.run(FlameGraphScript(stacks));
      var ops := Save(names.result, o.output);
      if o.ok then Goto(AtPublish(Open(Direct)), job, ops)
      else Fail(RenderingFailed(o.reason), ops)
  }

  function PublishStep(world: World, names: Names, pc: PublishPc, job: Job, files: Files): Effect {
    match pc
    case Open(ctx) =>
      (match Look(files, names.result)
       case None => Raise(ctx, NoResultFile, [])
       case Some(data) =>
         Goto(AtPublish(if job.compressor == NoCompression then Emit else Create(ctx, data)), job, []))
    case Create(ctx, data) =>
      Goto(AtPublish(Compress(ctx, data)), job, [Put(names.published, "")])
    case Compress(ctx, data) =>
      var o := world.run(Encode(job.compressor, data));
      var ops := Save(names.published, o.output);
      if o.ok then Goto(AtPublish(Emit), job, ops) else Raise(ctx, CompressionFailed(o.reason), ops)
    case Emit =>
      var content := Look(files, names.published);
      Effect(Finished(None), [],
             [Result(job.outputType, names.published, Size(content), world.checksum(content.GetOr("")))])
  }
}
