/**
 What each tool's pipeline produces, written down in one piece, and the proof that the step machine
 produces exactly that, however its tasks are interleaved.
 */
module EndToEnd {
  import opened Text
  import opened ResultNames
  import opened Pipelines
  import opened Isolation
  import opened Interleaving
  import opened Publication
  import Legend

  // ---------- the reference ----------

  /** What a pipeline, or a part of it, comes to: some content, or the reason why there is none. */
  datatype Product = Made(content: string) | Broken(reason: Failure)

  /** A command's output, when it succeeds; "" when it succeeds silently. */
  function Attempt(o: Outcome, reason: Failure): Product {
    if o.ok then Made(o.output.GetOr("")) else Broken(reason)
  }

  function Found(o: Option<string>, reason: Failure): Product {
    match o
    case Some(content) => Made(content)
    case None => Broken(reason)
  }

  /** The artefact made from a result file. */
  function Delivered(world: World, job: Job, result: Product): Product {
    match result
    case Broken(_) => result
    case Made(data) => if job.compressor == NoCompression then result else Compressed(world, job, data)
  }

  function Compressed(world: World, job: Job, data: string): Product {
    var o := world.run(Encode(job.compressor, data));
    Attempt(o, CompressionFailed(o.reason))
  }

  /**
   The result file made from raw stacks: a rendering of enough of them, or the stacks themselves where
   the raw file is the result file. Austin writes its samples to the result file for any other output.
   */
  function Rendered(world: World, job: Job, raw: string): Product {
    if job.outputType == FLAMEGRAPH then
      if |raw| < (if job.tool == Austin then 1 else MINIMUM_RAW_SIZE) then Broken(NoStacks)
      else Drawn(world, raw)
    else if job.outputType == RAW || job.tool == Austin then Made(raw)
    else Broken(NoResultFile)
  }

  function Drawn(world: World, raw: string): Product {
    var o := world.run(FlameGraphScript(raw));
    Attempt(o, RenderingFailed(o.reason))
  }

  function FoldedByPerf(world: World, job: Job, pid: string): Product {
    var recorded := world.run(PerfRecord(pid, job.iteration, job.seconds));
    if recorded.ok then FoldedFrom(world, recorded.output) else Broken(PerfRecordFailed(recorded.reason))
  }

  function FoldedFrom(world: World, data: Option<string>): Product {
    var o := world.run(PerfScript(data));
    match Attempt(o, PerfScriptFailed(o.reason))
    case Broken(reason) => Broken(reason)
    case Made(script) => Collapsed(world, script)
  }

  function Collapsed(world: World, script: string): Product {
    var o := world.run(StackCollapse(Some(script)));
    Attempt(o, FoldingFailed(o.reason))
  }

  function FoldedByBpf(world: World, job: Job, pid: string): Product {
    var o := world.run(BccProfile(pid, job.iteration, job.seconds));
    Attempt(o, LaunchFailed(o.reason))
  }

  /** What austin wrote. */
  function Sampled(world: World, job: Job, pid: string): Product {
    var o := world.run(RunAustin(pid, job.iteration, job.seconds));
    if o.ok then Found(o.output, ConversionFailed("no such file")) else Broken(LaunchFailed(o.reason))
  }

  function Converted(world: World, mojo: string): Product {
    var o := world.run(Mojo2Austin(mojo));
    if o.ok then Found(o.output, ConversionFailed("no such file")) else Broken(ConversionFailed(o.reason))
  }

  /** The text profile austin's samples come to: converted when binary. */
  function Plain(world: World, sampled: Product): Product {
    match sampled
    case Broken(_) => sampled
    case Made(content) => if IsMojo(content) then Converted(world, content) else sampled
  }

  /** Never empty, and annotated when raw and without samples. */
  function Checked(world: World, job: Job, plain: Product): Product {
    match plain
    case Broken(_) => plain
    case Made(text) =>
      if text == "" then Broken(NoSamples)
      else if !Legend.Scannable(text, SAMPLE_LIMIT) then Broken(UnreadableProfile)
      else if SampleCount(text) > 0 then plain
      else if job.outputType == RAW then Made(text + Note(world))
      else Broken(NoGrowth)
  }

  function TextProfile(world: World, job: Job, pid: string): Product {
    Checked(world, job, Plain(world, Sampled(world, job, pid)))
  }

  function PortOf(world: World, job: Job, pid: string): Port {
    var o := world.run(FindPort(pid, job.iteration));
    if o.ok then Detected(o.output.GetOr("")) else Guessed("8080", o.reason)
  }

  /** A download, converted to text. */
  function Dumped(world: World, scrape: Command, heap: bool): Product {
    var o := world.run(scrape);
    if o.ok then AsText(world, o.output, heap) else Broken(FetchFailed(heap, o.reason))
  }

  function AsText(world: World, data: Option<string>, heap: bool): Product {
    var o := world.run(PprofRaw(data));
    Attempt(o, PprofConversionFailed(heap, o.reason))
  }

  function Downloaded(world: World, scrape: Command, heap: bool): Product {
    var o := world.run(scrape);
    if o.ok then Found(o.output, NoResultFile) else Broken(FetchFailed(heap, o.reason))
  }

  function BothDumps(cpu: Product, heap: Product): Product {
    match (cpu, heap)
    case (Broken(_), _) => cpu
    case (_, Broken(_)) => heap
    case (Made(c), Made(h)) => Made("heap dump\n " + h + " \n cpu dump\n " + c)
  }

  function FetchedBy(world: World, job: Job, pid: string, port: string): Product {
    var heap, cpu := ScrapeHeap(pid, job.iteration, port), ScrapeCpu(pid, job.iteration, port, job.seconds);
    if job.outputType == HEAP_DUMP then Downloaded(world, heap, true)
    else if job.outputType == PPROF then Downloaded(world, cpu, false)
    else if job.outputType == RAW then BothDumps(Dumped(world, cpu, false), Dumped(world, heap, true))
    else Broken(UnsupportedOutput)
  }

  /** A failure after a port scan says so if the port was only guessed. */
  function Blamed(ctx: Context, product: Product): Product {
    match product
    case Made(_) => product
    case Broken(reason) => Broken(Explain(ctx, reason))
  }

  function FromText(world: World, job: Job, text: Product): Product {
    match text
    case Broken(_) => text
    case Made(raw) => Delivered(world, job, Rendered(world, job, raw))
  }

  function FromFolded(world: World, job: Job, pid: string, folded: Product): Product {
    match folded
    case Broken(_) => folded
    case Made(stacks) => Delivered(world, job, Rendered(world, job, Legend.WithLegend(stacks, pid)))
  }

  function ViaPortOf(world: World, job: Job, pid: string, port: Port): Product {
    Blamed(ViaPort(port), Delivered(world, job, FetchedBy(world, job, pid, port.port)))
  }

  /** The artefact one PID's task publishes, or the reason it fails with. */
  function Produced(world: World, job: Job, pid: string): Product {
    match job.tool
    case PProf => ViaPortOf(world, job, pid, PortOf(world, job, pid))
    case Austin => FromText(world, job, TextProfile(world, job, pid))
    case Perf => FromFolded(world, job, pid, FoldedByPerf(world, job, pid))
    case Bpf => FromFolded(world, job, pid, FoldedByBpf(world, job, pid))
  }

  // ---------- the step machine, from the end backwards ----------

  /** What must hold of the names of one task's files; nothing else about them matters. */
  predicate Apart(job: Job, names: Names) {
    && names.profile != names.converted
    && names.cpu != names.heap
    && names.perfData != names.perfScript && names.result != names.perfData && names.result != names.perfScript
    && (job.outputType == RAW <==> names.raw == names.result)
    && (job.compressor == NoCompression <==> names.published == names.result)
    && names.profile == (if job.outputType == FLAMEGRAPH then names.raw else names.result)
  }

  /** Running the task to its end, given the names of its files. */
  function RunNamed(world: World, shared: Job, pid: string, names: Names, t: Task, files: Files): Solo
    decreases Rank(t)
  {
    if t.Finished? then Solo(files, t, [])
    else
      StepAtProgress(world, shared, pid, names, t.pc, t.job, files);
      var e := StepAt(world, shared, pid, names, t.pc, t.job, files);
      RunNamed(world, shared, pid, names, e.task, Apply(files, e.ops))
  }

  /** How a task's run ended: not at all, badly, or with what is in its published file. */
  datatype End = Unfinished | Failed(err: Failure) | Published(content: Option<string>)

  function EndOf(names: Names, solo: Solo): End {
    match solo.task
    case Running(_, _) => Unfinished
    case Finished(Some(err)) => Failed(err)
    case Finished(None) => Published(Look(solo.files, names.published))
  }

  /** The end there should be when the reference comes to `product`. */
  function EndFor(product: Product): End {
    match product
    case Made(content) => Published(Some(content))
    case Broken(reason) => Failed(reason)
  }

  function Rest(world: World, shared: Job, pid: string, names: Names, pc: Pc, files: Files): Solo {
    RunNamed(world, shared, pid, names, Running(pc, JobAt(shared, pid, pc)), files)
  }

  function StepFrom(world: World, shared: Job, pid: string, names: Names, pc: Pc, files: Files): Effect {
    StepAt(world, shared, pid, names, pc, JobAt(shared, pid, pc), files)
  }

  lemma Next(
    world: World, shared: Job, pid: string, names: Names, pc: Pc, files: Files, pc': Pc, ops: seq<FileOp>, end: End)
    requires StepFrom(world, shared, pid, names, pc, files) == Goto(pc', JobAt(shared, pid, pc'), ops)
    requires EndOf(names, Rest(world, shared, pid, names, pc', Apply(files, ops))) == end
    ensures EndOf(names, Rest(world, shared, pid, names, pc, files)) == end
  {
  }

  lemma Stop(world: World, shared: Job, pid: string, names: Names, pc: Pc, files: Files)
    requires StepFrom(world, shared, pid, names, pc, files).task.Finished?
    requires StepFrom(world, shared, pid, names, pc, files).task.err.Some?
    ensures EndOf(names, Rest(world, shared, pid, names, pc, files))
         == Failed(StepFrom(world, shared, pid, names, pc, files).task.err.value)
  {
    var e := StepFrom(world, shared, pid, names, pc, files);
    assert RunNamed(world, shared, pid, names, e.task, Apply(files, e.ops)) == Solo(Apply(files, e.ops), e.task, []);
  }

  lemma FromEmit(world: World, shared: Job, pid: string, names: Names, files: Files, content: string)
    requires Look(files, names.published) == Some(content)
    ensures EndOf(names, Rest(world, shared, pid, names, AtPublish(Emit), files)) == EndFor(Made(content))
  {
    var pc := AtPublish(Emit);
    var e := StepFrom(world, shared, pid, names, pc, files);
    assert RunNamed(world, shared, pid, names, e.task, Apply(files, e.ops)) == Solo(Apply(files, e.ops), e.task, []);
  }

  lemma PutOne(files: Files, name: string, content: string)
    ensures Apply(files, [Put(name, content)]) == files[name := content]
  {
    assert [Put(name, content)][1..] == [];
  }

  lemma SaveOne(files: Files, name: string, output: Option<string>)
    ensures Look(Apply(files, Save(name, output)), name) == (if output.Some? then output else Look(files, name))
    ensures forall other :: other != name ==> Look(Apply(files, Save(name, output)), other) == Look(files, other)
  {
    if output.Some? {
      PutOne(files, name, output.value);
    }
  }

  lemma FromCompress(world: World, shared: Job, pid: string, names: Names, files: Files, ctx: Context, data: string)
    requires PcFits(shared.tool, AtPublish(Compress(ctx, data)))
    requires Look(files, names.published) == Some("")
    ensures EndOf(names, Rest(world, shared, pid, names, AtPublish(Compress(ctx, data)), files))
            == EndFor(Blamed(ctx, Compressed(world, shared, data)))
  {
    var pc := AtPublish(Compress(ctx, data));
    var o := world.run(Encode(shared.compressor, data));
    var ops := Save(names.published, o.output);
    SaveOne(files, names.published, o.output);
    if o.ok {
      FromEmit(world, shared, pid, names, Apply(files, ops), o.output.GetOr(""));
      Next(world, shared, pid, names, pc, files, AtPublish(Emit), ops, EndFor(Made(o.output.GetOr(""))));
    } else {
      Stop(world, shared, pid, names, pc, files);
    }
  }

  lemma FromOpen(world: World, shared: Job, pid: string, names: Names, files: Files, ctx: Context)
    requires Apart(shared, names) && PcFits(shared.tool, AtPublish(Open(ctx)))
    ensures EndOf(names, Rest(world, shared, pid, names, AtPublish(Open(ctx)), files))
            == EndFor(Blamed(ctx, Delivered(world, shared, Found(Look(files, names.result), NoResultFile))))
  {
    var pc := AtPublish(Open(ctx));
    assert Apply(files, []) == files;
    match Look(files, names.result) {
      case None =>
        Stop(world, shared, pid, names, pc, files);
      case Some(data) =>
        if shared.compressor == NoCompression {
          FromEmit(world, shared, pid, names, files, data);
          Next(world, shared, pid, names, pc, files, AtPublish(Emit), [], EndFor(Made(data)));
        } else {
          var create := AtPublish(Create(ctx, data));
          var ops := [Put(names.published, "")];
          PutOne(files, names.published, "");
          FromCompress(world, shared, pid, names, Apply(files, ops), ctx, data);
          var content := Blamed(ctx, Compressed(world, shared, data));
          Next(world, shared, pid, names, create, files, AtPublish(Compress(ctx, data)), ops, EndFor(content));
          Next(world, shared, pid, names, pc, files, create, [], EndFor(content));
        }
    }
  }

  lemma FromRender(world: World, shared: Job, pid: string, names: Names, files: Files, stacks: string)
    requires Apart(shared, names) && shared.tool != PProf && Look(files, names.result) == Some("")
    ensures EndOf(names, Rest(world, shared, pid, names, AtFlame(Render(stacks)), files))
            == EndFor(Delivered(world, shared, Drawn(world, stacks)))
  {
    var pc := AtFlame(Render(stacks));
    var o := world.run(FlameGraphScript(stacks));
    var ops := Save(names.result, o.output);
    SaveOne(files, names.result, o.output);
    if o.ok {
      FromOpen(world, shared, pid, names, Apply(files, ops), Direct);
      Next(world, shared, pid, names, pc, files, AtPublish(Open(Direct)), ops,
           EndFor(Delivered(world, shared, Drawn(world, stacks))));
    } else {
      Stop(world, shared, pid, names, pc, files);
    }
  }

  /** From the raw stacks on: no result file may be lying about. */
  lemma FromStacks(world: World, shared: Job, pid: string, names: Names, files: Files, raw: string)
    requires Apart(shared, names) && shared.tool != PProf
    requires Look(files, if shared.tool == Austin then names.profile else names.raw) == Some(raw)
    requires shared.tool != Austin && shared.outputType != RAW ==> Look(files, names.result) == None
    ensures EndOf(names, Rest(world, shared, pid, names, AtFlame(CheckStacks), files))
            == EndFor(Delivered(world, shared, Rendered(world, shared, raw)))
  {
    var pc := AtFlame(CheckStacks);
    if shared.outputType != FLAMEGRAPH {
      assert Apply(files, []) == files;
      FromOpen(world, shared, pid, names, files, Direct);
      Next(world, shared, pid, names, pc, files, AtPublish(Open(Direct)), [],
          EndFor(Delivered(world, shared, Rendered(world, shared, raw))));
    } else if |raw| < (if shared.tool == Austin then 1 else MINIMUM_RAW_SIZE) {
      Stop(world, shared, pid, names, pc, files);
    } else {
      var ops := [Put(names.result, "")];
      PutOne(files, names.result, "");
      FromRender(world, shared, pid, names, Apply(files, ops), raw);
      Next(world, shared, pid, names, pc, files, AtFlame(Render(raw)), ops,
          EndFor(Delivered(world, shared, Drawn(world, raw))));
    }
  }

  lemma FromWriteRaw(world: World, shared: Job, pid: string, names: Names, files: Files, folded: string)
    requires Apart(shared, names) && (shared.tool == Perf || shared.tool == Bpf)
    requires Look(files, names.result) == None
    ensures EndOf(names, Rest(world, shared, pid, names, WriteRaw(folded), files))
            == EndFor(Delivered(world, shared, Rendered(world, shared, Legend.WithLegend(folded, pid))))
  {
    var raw := Legend.WithLegend(folded, pid);
    var ops := [Put(names.raw, raw)];
    PutOne(files, names.raw, raw);
    FromStacks(world, shared, pid, names, Apply(files, ops), raw);
    Next(world, shared, pid, names, WriteRaw(folded), files, AtFlame(CheckStacks), ops,
        EndFor(Delivered(world, shared, Rendered(world, shared, raw))));
  }

  // ---------- bpf and perf ----------

  lemma BpfEnds(world: World, shared: Job, pid: string, names: Names)
    requires Apart(shared, names) && shared.tool == Bpf
    ensures EndOf(names, Rest(world, shared, pid, names, AtBpf, map[])) == EndFor(Produced(world, shared, pid))
  {
    var o := world.run(BccProfile(pid, shared.iteration, shared.seconds));
    if o.ok {
      assert Apply(map[], []) == map[];
      FromWriteRaw(world, shared, pid, names, map[], o.output.GetOr(""));
      Next(world, shared, pid, names, AtBpf, map[], WriteRaw(o.output.GetOr("")), [],
          EndFor(Produced(world, shared, pid)));
    } else {
      Stop(world, shared, pid, names, AtBpf, map[]);
    }
  }

  lemma FromFolding(world: World, shared: Job, pid: string, names: Names, files: Files, script: string)
    requires Apart(shared, names) && shared.tool == Perf
    requires Look(files, names.result) == None && Look(files, names.perfScript) == Some(script)
    ensures EndOf(names, Rest(world, shared, pid, names, AtPerf(Folding), files))
            == EndFor(FromFolded(world, shared, pid, Collapsed(world, script)))
  {
    var pc, o := AtPerf(Folding), world.run(StackCollapse(Some(script)));
    if o.ok {
      var folded := o.output.GetOr("");
      assert Apply(files, []) == files;
      FromWriteRaw(world, shared, pid, names, files, folded);
      Next(world, shared, pid, names, pc, files, WriteRaw(folded), [],
          EndFor(FromFolded(world, shared, pid, Made(folded))));
    } else {
      Stop(world, shared, pid, names, pc, files);
    }
  }

  lemma FromScripting(world: World, shared: Job, pid: string, names: Names, files: Files, data: Option<string>)
    requires Apart(shared, names) && shared.tool == Perf
    requires Look(files, names.result) == None && Look(files, names.perfScript) == Some("")
    requires Look(files, names.perfData) == data
    ensures EndOf(names, Rest(world, shared, pid, names, AtPerf(Scripting), files))
            == EndFor(FromFolded(world, shared, pid, FoldedFrom(world, data)))
  {
    if world.run(PerfScript(data)).ok {
      FromScripted(world, shared, pid, names, files, data);
    } else {
      Stop(world, shared, pid, names, AtPerf(Scripting), files);
    }
  }

  lemma FromScripted(world: World, shared: Job, pid: string, names: Names, files: Files, data: Option<string>)
    requires Apart(shared, names) && shared.tool == Perf && world.run(PerfScript(data)).ok
    requires Look(files, names.result) == None && Look(files, names.perfScript) == Some("")
    requires Look(files, names.perfData) == data
    ensures EndOf(names, Rest(world, shared, pid, names, AtPerf(Scripting), files))
            == EndFor(FromFolded(world, shared, pid, FoldedFrom(world, data)))
  {
    var o := world.run(PerfScript(data));
    var ops, script := Save(names.perfScript, o.output), o.output.GetOr("");
    SaveOne(files, names.perfScript, o.output);
    FromFolding(world, shared, pid, names, Apply(files, ops), script);
    ScriptingStep(world, shared, pid, names, files, data);
    Next(world, shared, pid, names, AtPerf(Scripting), files, AtPerf(Folding), ops,
         EndFor(FromFolded(world, shared, pid, Collapsed(world, script))));
  }

  lemma ScriptingStep(world: World, shared: Job, pid: string, names: Names, files: Files, data: Option<string>)
    requires shared.tool == Perf && Look(files, names.perfData) == data && world.run(PerfScript(data)).ok
    ensures StepFrom(world, shared, pid, names, AtPerf(Scripting), files)
         == Goto(AtPerf(Folding), JobAt(shared, pid, AtPerf(Folding)),
                 Save(names.perfScript, world.run(PerfScript(data)).output))
  {
  }

  lemma CreateScriptStep(world: World, shared: Job, pid: string, names: Names, files: Files)
    ensures StepFrom(world, shared, pid, names, AtPerf(CreateScript), files)
         == Goto(AtPerf(Scripting), JobAt(shared, pid, AtPerf(CreateScript)), [Put(names.perfScript, "")])
  {
  }

  lemma FromCreateScript(world: World, shared: Job, pid: string, names: Names, files: Files)
    requires Apart(shared, names) && shared.tool == Perf && Look(files, names.result) == None
    ensures EndOf(names, Rest(world, shared, pid, names, AtPerf(CreateScript), files))
         == EndFor(FromFolded(world, shared, pid, FoldedFrom(world, Look(files, names.perfData))))
  {
    var ops := [Put(names.perfScript, "")];
    CreateScriptStep(world, shared, pid, names, files);
    PutOne(files, names.perfScript, "");
    FromScripting(world, shared, pid, names, Apply(files, ops), Look(files, names.perfData));
    Next(world, shared, pid, names, AtPerf(CreateScript), files, AtPerf(Scripting), ops,
         EndOf(names, Rest(world, shared, pid, names, AtPerf(Scripting), Apply(files, ops))));
  }

  lemma PerfEnds(world: World, shared: Job, pid: string, names: Names)
    requires Apart(shared, names) && shared.tool == Perf
    ensures EndOf(names, Rest(world, shared, pid, names, AtPerf(Recording), map[]))
            == EndFor(Produced(world, shared, pid))
  {
    var pc := AtPerf(Recording);
    var o := world.run(PerfRecord(pid, shared.iteration, shared.seconds));
    var ops := Save(names.perfData, o.output);
    SaveOne(map[], names.perfData, o.output);
    if o.ok {
      FromCreateScript(world, shared, pid, names, Apply(map[], ops));
      Next(world, shared, pid, names, pc, map[], AtPerf(CreateScript), ops,
          EndFor(FromFolded(world, shared, pid, FoldedFrom(world, o.output))));
    } else {
      Stop(world, shared, pid, names, pc, map[]);
    }
  }

  // ---------- austin ----------

  lemma FromAnnotate(world: World, shared: Job, pid: string, names: Names, files: Files, text: string)
    requires Apart(shared, names) && shared.tool == Austin && Look(files, names.profile) == Some(text)
    ensures EndOf(names, Rest(world, shared, pid, names, AtAustin(Annotate), files))
            == EndFor(FromText(world, shared, Made(text + Note(world))))
  {
    var pc, noted := AtAustin(Annotate), text + Note(world);
    var ops := [Put(names.profile, noted)];
    PutOne(files, names.profile, noted);
    FromStacks(world, shared, pid, names, Apply(files, ops), noted);
    Next(world, shared, pid, names, pc, files, AtFlame(CheckStacks), ops, EndFor(FromText(world, shared, Made(noted))));
  }

  lemma FromCheckSamples(world: World, shared: Job, pid: string, names: Names, files: Files, text: string)
    requires Apart(shared, names) && shared.tool == Austin && Look(files, names.profile) == Some(text)
    ensures EndOf(names, Rest(world, shared, pid, names, AtAustin(CheckSamples), files))
            == EndFor(FromText(world, shared, Checked(world, shared, Made(text))))
  {
    var pc := AtAustin(CheckSamples);
    assert Apply(files, []) == files;
    if Checked(world, shared, Made(text)).Broken? {
      Stop(world, shared, pid, names, pc, files);
    } else if SampleCount(text) > 0 {
      FromStacks(world, shared, pid, names, files, text);
      Next(world, shared, pid, names, pc, files, AtFlame(CheckStacks), [], EndFor(FromText(world, shared, Made(text))));
    } else {
      FromAnnotate(world, shared, pid, names, files, text);
      Next(world, shared, pid, names, pc, files, AtAustin(Annotate), [],
          EndFor(FromText(world, shared, Made(text + Note(world)))));
    }
  }

  lemma FromRename(world: World, shared: Job, pid: string, names: Names, files: Files)
    requires Apart(shared, names) && shared.tool == Austin
    ensures EndOf(names, Rest(world, shared, pid, names, AtAustin(Rename), files))
            == EndFor(FromText(world, shared,
                   Checked(world, shared, Found(Look(files, names.converted), ConversionFailed("no such file")))))
  {
    var pc := AtAustin(Rename);
    match Look(files, names.converted) {
      case None =>
        Stop(world, shared, pid, names, pc, files);
      case Some(text) =>
        var ops := [Delete(names.converted), Put(names.profile, text)];
        assert ops[1..] == [Put(names.profile, text)];
        PutOne(ApplyOne(files, ops[0]), names.profile, text);
        FromCheckSamples(world, shared, pid, names, Apply(files, ops), text);
        Next(world, shared, pid, names, pc, files, AtAustin(CheckSamples), ops,
            EndFor(FromText(world, shared, Checked(world, shared, Made(text)))));
    }
  }

  lemma FromCheckFormat(world: World, shared: Job, pid: string, names: Names, files: Files, content: string)
    requires Apart(shared, names) && shared.tool == Austin
    requires Look(files, names.profile) == Some(content) && Look(files, names.converted) == None
    ensures EndOf(names, Rest(world, shared, pid, names, AtAustin(CheckFormat), files))
            == EndFor(FromText(world, shared, Checked(world, shared, Plain(world, Made(content)))))
  {
    var pc := AtAustin(CheckFormat);
    assert Apply(files, []) == files;
    if IsMojo(content) {
      var convert, o := AtAustin(Convert(content)), world.run(Mojo2Austin(content));
      var ops := Save(names.converted, o.output);
      var end := FromText(world, shared, Checked(world, shared, Converted(world, content)));
      SaveOne(files, names.converted, o.output);
      if o.ok {
        FromRename(world, shared, pid, names, Apply(files, ops));
        Next(world, shared, pid, names, convert, files, AtAustin(Rename), ops, EndFor(end));
      } else {
        Stop(world, shared, pid, names, convert, files);
      }
      Next(world, shared, pid, names, pc, files, convert, [], EndFor(end));
    } else {
      FromCheckSamples(world, shared, pid, names, files, content);
      Next(world, shared, pid, names, pc, files, AtAustin(CheckSamples), [],
          EndFor(FromText(world, shared, Checked(world, shared, Made(content)))));
    }
  }

  lemma AustinEnds(world: World, shared: Job, pid: string, names: Names)
    requires Apart(shared, names) && shared.tool == Austin
    ensures EndOf(names, Rest(world, shared, pid, names, AtAustin(Sampling), map[]))
            == EndFor(Produced(world, shared, pid))
  {
    var pc := AtAustin(Sampling);
    var o := world.run(RunAustin(pid, shared.iteration, shared.seconds));
    var ops := Save(names.profile, o.output);
    SaveOne(map[], names.profile, o.output);
    if !o.ok {
      Stop(world, shared, pid, names, pc, map[]);
    } else {
      if o.output == None {
        Stop(world, shared, pid, names, AtAustin(CheckFormat), Apply(map[], ops));
      } else {
        FromCheckFormat(world, shared, pid, names, Apply(map[], ops), o.output.value);
      }
      Next(world, shared, pid, names, pc, map[], AtAustin(CheckFormat), ops, EndFor(Produced(world, shared, pid)));
    }
  }

  // ---------- pprof ----------

  lemma FromWriteBoth(
    world: World, shared: Job, pid: string, names: Names, files: Files, port: Port, cpu: string, heap: string)
    requires Apart(shared, names) && shared.tool == PProf
    ensures EndOf(names, Rest(world, shared, pid, names, AtPprof(WriteBoth(port, cpu, heap)), files))
            == EndFor(Blamed(ViaPort(port), Delivered(world, shared, BothDumps(Made(cpu), Made(heap)))))
  {
    var pc := AtPprof(WriteBoth(port, cpu, heap));
    var text := BothDumps(Made(cpu), Made(heap)).content;
    var ops := [Put(names.result, text)];
    PutOne(files, names.result, text);
    FromOpen(world, shared, pid, names, Apply(files, ops), ViaPort(port));
    Next(world, shared, pid, names, pc, files, AtPublish(Open(ViaPort(port))), ops,
        EndFor(Blamed(ViaPort(port), Delivered(world, shared, Made(text)))));
  }

  lemma FromConvertHeap(world: World, shared: Job, pid: string, names: Names, files: Files, port: Port, cpu: string)
    requires Apart(shared, names) && shared.tool == PProf
    ensures EndOf(names, Rest(world, shared, pid, names, AtPprof(ConvertHeap(port, cpu)), files))
            == EndFor(Blamed(ViaPort(port), Delivered(world, shared,
                   BothDumps(Made(cpu), AsText(world, Look(files, names.heap), true)))))
  {
    var pc := AtPprof(ConvertHeap(port, cpu));
    var o := world.run(PprofRaw(Look(files, names.heap)));
    if o.ok {
      var heap := o.output.GetOr("");
      assert Apply(files, []) == files;
      FromWriteBoth(world, shared, pid, names, files, port, cpu, heap);
      Next(world, shared, pid, names, pc, files, AtPprof(WriteBoth(port, cpu, heap)), [],
           EndFor(Blamed(ViaPort(port), Delivered(world, shared, BothDumps(Made(cpu), Made(heap))))));
    } else {
      Stop(world, shared, pid, names, pc, files);
    }
  }

  lemma FromFetchHeap(world: World, shared: Job, pid: string, names: Names, files: Files, port: Port, cpu: string)
    requires Apart(shared, names) && shared.tool == PProf && Look(files, names.heap) == None
    ensures EndOf(names, Rest(world, shared, pid, names, AtPprof(FetchHeap(port, cpu)), files))
            == EndFor(Blamed(ViaPort(port), Delivered(world, shared,
                   BothDumps(Made(cpu), Dumped(world, ScrapeHeap(pid, shared.iteration, port.port), true)))))
  {
    var pc := AtPprof(FetchHeap(port, cpu));
    var o := world.run(ScrapeHeap(pid, shared.iteration, port.port));
    var ops := Save(names.heap, o.output);
    SaveOne(files, names.heap, o.output);
    if o.ok {
      FromConvertHeap(world, shared, pid, names, Apply(files, ops), port, cpu);
      Next(world, shared, pid, names, pc, files, AtPprof(ConvertHeap(port, cpu)), ops,
           EndFor(Blamed(ViaPort(port), Delivered(world, shared,
               BothDumps(Made(cpu), AsText(world, o.output, true))))));
    } else {
      Stop(world, shared, pid, names, pc, files);
    }
  }

  lemma FromConvertCpu(world: World, shared: Job, pid: string, names: Names, files: Files, port: Port)
    requires Apart(shared, names) && shared.tool == PProf && Look(files, names.heap) == None
    ensures EndOf(names, Rest(world, shared, pid, names, AtPprof(ConvertCpu(port)), files))
            == EndFor(Blamed(ViaPort(port), Delivered(world, shared,
                   BothDumps(AsText(world, Look(files, names.cpu), false),
                             Dumped(world, ScrapeHeap(pid, shared.iteration, port.port), true)))))
  {
    var pc := AtPprof(ConvertCpu(port));
    var o := world.run(PprofRaw(Look(files, names.cpu)));
    if o.ok {
      var cpu := o.output.GetOr("");
      assert Apply(files, []) == files;
      FromFetchHeap(world, shared, pid, names, files, port, cpu);
      Next(world, shared, pid, names, pc, files, AtPprof(FetchHeap(port, cpu)), [],
           EndFor(Blamed(ViaPort(port), Delivered(world, shared,
               BothDumps(Made(cpu), Dumped(world, ScrapeHeap(pid, shared.iteration, port.port), true))))));
    } else {
      Stop(world, shared, pid, names, pc, files);
    }
  }

  /** A download straight into the result file. */
  lemma FromResultFetch(world: World, shared: Job, pid: string, names: Names, port: Port, scrape: Command, heap: bool)
    requires Apart(shared, names) && shared.tool == PProf
    requires StepFrom(world, shared, pid, names, AtPprof(Fetch(port)), map[])
          == Scrape(world, scrape, names.result, port, AtPublish(Open(ViaPort(port))),
                    JobAt(shared, pid, AtPprof(Fetch(port))), heap)
    ensures EndOf(names, Rest(world, shared, pid, names, AtPprof(Fetch(port)), map[]))
            == EndFor(Blamed(ViaPort(port), Delivered(world, shared, Downloaded(world, scrape, heap))))
  {
    var pc, o := AtPprof(Fetch(port)), world.run(scrape);
    var ops := Save(names.result, o.output);
    SaveOne(map[], names.result, o.output);
    if o.ok {
      FromOpen(world, shared, pid, names, Apply(map[], ops), ViaPort(port));
      Next(world, shared, pid, names, pc, map[], AtPublish(Open(ViaPort(port))), ops,
          EndFor(Blamed(ViaPort(port), Delivered(world, shared, Found(o.output, NoResultFile)))));
    } else {
      Stop(world, shared, pid, names, pc, map[]);
    }
  }

  lemma FromRawFetch(world: World, shared: Job, pid: string, names: Names, port: Port)
    requires Apart(shared, names) && shared.tool == PProf && shared.outputType == RAW
    ensures EndOf(names, Rest(world, shared, pid, names, AtPprof(Fetch(port)), map[]))
            == EndFor(ViaPortOf(world, shared, pid, port))
  {
    var pc := AtPprof(Fetch(port));
    var o := world.run(ScrapeCpu(pid, shared.iteration, port.port, shared.seconds));
    var ops := Save(names.cpu, o.output);
    SaveOne(map[], names.cpu, o.output);
    if o.ok {
      FromConvertCpu(world, shared, pid, names, Apply(map[], ops), port);
      Next(world, shared, pid, names, pc, map[], AtPprof(ConvertCpu(port)), ops,
           EndFor(ViaPortOf(world, shared, pid, port)));
    } else {
      Stop(world, shared, pid, names, pc, map[]);
    }
  }

  lemma FromFetch(world: World, shared: Job, pid: string, names: Names, port: Port)
    requires Apart(shared, names) && shared.tool == PProf
    ensures EndOf(names, Rest(world, shared, pid, names, AtPprof(Fetch(port)), map[]))
            == EndFor(ViaPortOf(world, shared, pid, port))
  {
    if shared.outputType == HEAP_DUMP {
      FromResultFetch(world, shared, pid, names, port, ScrapeHeap(pid, shared.iteration, port.port), true);
    } else if shared.outputType == PPROF {
      FromResultFetch(world, shared, pid, names, port, ScrapeCpu(pid, shared.iteration, port.port, shared.seconds),
          false);
    } else if shared.outputType == RAW {
      FromRawFetch(world, shared, pid, names, port);
    } else {
      Stop(world, shared, pid, names, AtPprof(Fetch(port)), map[]);
    }
  }

  lemma PprofEnds(world: World, shared: Job, pid: string, names: Names)
    requires Apart(shared, names) && shared.tool == PProf
    ensures EndOf(names, Rest(world, shared, pid, names, AtPprof(CopyJob), map[]))
            == EndFor(Produced(world, shared, pid))
  {
    var port := PortOf(world, shared, pid);
    assert Apply(map[], []) == map[];
    FromFetch(world, shared, pid, names, port);
    Next(world, shared, pid, names, AtPprof(PortScan), map[], AtPprof(Fetch(port)), [],
        EndFor(Produced(world, shared, pid)));
    Next(world, shared, pid, names, AtPprof(CopyJob), map[], AtPprof(PortScan), [],
        EndFor(Produced(world, shared, pid)));
  }

  // ---------- names ----------

  lemma SameNames(job: Job, pid: string, a: string, suffixA: string, b: string, suffixB: string)
    requires IsDecimal(pid) && '-' !in suffixA && '-' !in suffixB
    requires FileOf(job, pid, a) + suffixA == FileOf(job, pid, b) + suffixB
    ensures a == b && suffixA == suffixB
  {
    ResultFileInjective(TMP_DIR, job.tool, a, pid, job.iteration, suffixA, b, pid, job.iteration, suffixB);
  }

  lemma PlainNamesApart(job: Job, pid: string, a: string, b: string)
    requires IsDecimal(pid) && a != b
    ensures FileOf(job, pid, a) != FileOf(job, pid, b)
  {
    if FileOf(job, pid, a) == FileOf(job, pid, b) {
      SameNames(job, pid, a, "", b, "");
    }
  }

  lemma DerivedNameApart(job: Job, pid: string, a: string, suffix: string)
    requires IsDecimal(pid) && '-' !in suffix && suffix != ""
    ensures FileOf(job, pid, a) + suffix != FileOf(job, pid, a)
  {
  }

  lemma PerfNamesApart(job: Job, pid: string)
    ensures var names := NamesOf(job, pid);
            && names.perfData != names.perfScript
            && names.result != names.perfData && names.result != names.perfScript
  {
    var names := NamesOf(job, pid);
    assert names.perfData[|names.perfData| - 1] == 'a' && names.perfScript[|names.perfScript| - 1] == 't';
    assert names.perfData[5] == 'p' == names.perfScript[5];
    assert names.result[5] == 'a';
  }

  lemma NamesApart(job: Job, pid: string)
    requires IsDecimal(pid)
    ensures Apart(job, NamesOf(job, pid))
  {
    PerfNamesApart(job, pid);
    PlainNamesApart(job, pid, "cpu", "heap");
    if job.outputType != RAW {
      PlainNamesApart(job, pid, RAW, job.outputType);
    }
    DerivedNameApart(job, pid, if job.outputType == FLAMEGRAPH then RAW else job.outputType, ".txt");
    if job.compressor != NoCompression {
      DerivedNameApart(job, pid, job.outputType, ExtensionOf(job.compressor));
    } else {
      assert FileOf(job, pid, job.outputType) + "" == FileOf(job, pid, job.outputType);
    }
  }

  // ---------- all tools ----------

  lemma StepsAreNamed(world: World, shared: Job, pid: string, t: Task, files: Files)
    requires TaskOk(shared, pid, t) && t.Running?
    ensures Step(world, shared, pid, t, files) == StepAt(world, shared, pid, NamesOf(shared, pid), t.pc, t.job, files)
  {
    if t.pc != AtPprof(CopyJob) {
      NamesOfTask(shared, pid, t);
    }
  }

  lemma {:induction false} RunsAreNamed(world: World, shared: Job, pid: string, t: Task, files: Files)
    requires TaskOk(shared, pid, t)
    ensures var solo := RunAlone(world, shared, pid, t, files);
            var named := RunNamed(world, shared, pid, NamesOf(shared, pid), t, files);
            solo.task == named.task && solo.files == named.files
    decreases Rank(t)
  {
    if t.Running? {
      var e := StepAt(world, shared, pid, NamesOf(shared, pid), t.pc, t.job, files);
      StepsAreNamed(world, shared, pid, t, files);
      StepKeepsTask(world, shared, pid, NamesOf(shared, pid), t.pc, t.job, files);
      StepProgress(world, shared, pid, t, files);
      RunsAreNamed(world, shared, pid, e.task, Apply(files, e.ops));
    }
  }

  lemma NamedEnds(world: World, shared: Job, pid: string, names: Names)
    requires Apart(shared, names)
    ensures EndOf(names, RunNamed(world, shared, pid, names, Fresh(shared), map[]))
            == EndFor(Produced(world, shared, pid))
  {
    match shared.tool
    case Perf => PerfEnds(world, shared, pid, names);
    case Bpf => BpfEnds(world, shared, pid, names);
    case Austin => AustinEnds(world, shared, pid, names);
    case PProf => PprofEnds(world, shared, pid, names);
  }

  lemma OwnNamesEnd(world: World, shared: Job, pid: string)
    requires IsDecimal(pid)
    ensures EndOf(NamesOf(shared, pid), RunNamed(world, shared, pid, NamesOf(shared, pid), Fresh(shared), map[]))
         == EndFor(Produced(world, shared, pid))
  {
    NamesApart(shared, pid);
    NamedEnds(world, shared, pid, NamesOf(shared, pid));
  }

  lemma SameEnd(world: World, shared: Job, pid: string, names: Names, files: Files)
    requires names == NamesOf(shared, pid)
    ensures EndOf(names, RunAlone(world, shared, pid, Fresh(shared), files))
         == EndOf(names, RunNamed(world, shared, pid, names, Fresh(shared), files))
  {
    RunsAreNamed(world, shared, pid, Fresh(shared), files);
  }

  /** Run on its own, a task publishes exactly what the reference produces, or fails for the reference's reason. */
  lemma AloneEnds(world: World, shared: Job, pid: string)
    requires IsDecimal(pid)
    ensures EndOf(NamesOf(shared, pid), RunAlone(world, shared, pid, Fresh(shared), map[]))
            == EndFor(Produced(world, shared, pid))
  {
    OwnNamesEnd(world, shared, pid);
    SameEnd(world, shared, pid, NamesOf(shared, pid), map[]);
  }

  // ---------- interleaved ----------

  function Announcement(world: World, shared: Job, pid: string, content: string): Event {
    Result(shared.outputType, NamesOf(shared, pid).published, |content|, world.checksum(content))
  }

  /** A task that ends well has announced its published file as it is, once; one that fails has announced nothing. */
  predicate SoloAnnounces(world: World, shared: Job, pid: string, solo: Solo) {
    solo.events ==
      if solo.task == Finished(None)
      then [Announcement(world, shared, pid, Look(solo.files, NamesOf(shared, pid).published).GetOr(""))] else []
  }

  lemma {:induction false} AloneAnnounces(world: World, shared: Job, pid: string, t: Task, files: Files)
    requires IsDecimal(pid) && TaskOk(shared, pid, t) && t.Running?
    ensures SoloAnnounces(world, shared, pid, RunAlone(world, shared, pid, t, files))
    decreases Rank(t)
  {
    var e := Step(world, shared, pid, t, files);
    StepIsLocal(world, shared, pid, t, files);
    StepProgress(world, shared, pid, t, files);
    if e.task.Running? {
      AloneAnnounces(world, shared, pid, e.task, Apply(files, e.ops));
      assert e.events == [];
    } else {
      var rest := RunAlone(world, shared, pid, e.task, Apply(files, e.ops));
      assert rest == Solo(Apply(files, e.ops), e.task, []);
      assert e.events + [] == e.events;
      assert e.ops == [] ==> Apply(files, e.ops) == files;
    }
  }

  /** No file of this PID and iteration is left over from before. */
  predicate CleanFor(shared: Job, pid: string, files: Files) { Restrict(files, OwnerKey(shared, pid)) == map[] }

  /**
   Whatever the schedule, the task for a PID succeeds exactly when the reference produces an artefact
   for it; then its published file holds that artefact, and the one result it announced says so. Otherwise it
   announced nothing and fails for exactly the reference's reason.
   */
  lemma InterleavedEnds(
    world: World, shared: Job, pids: seq<string>, files: Files, log: seq<Event>, schedule: seq<nat>, i: nat)
    requires Distinct(pids) && DecimalPids(pids) && Indices(schedule, |pids|) && i < |pids|
    requires CleanFor(shared, pids[i], files) && ResultsOf(log, OwnerKey(shared, pids[i])) == []
    requires AllFinished(RunSchedule(world, shared, pids, Outset(shared, pids, files, log), schedule))
    ensures var s := RunSchedule(world, shared, pids, Outset(shared, pids, files, log), schedule);
            var key, published := OwnerKey(shared, pids[i]), NamesOf(shared, pids[i]).published;
            Shows(world, shared, pids[i], s.tasks[i], Look(s.files, published), ResultsOf(s.log, key),
                Produced(world, shared, pids[i]))
  {
    var s := RunSchedule(world, shared, pids, Outset(shared, pids, files, log), schedule);
    var key := OwnerKey(shared, pids[i]);
    EndsAsAlone(world, shared, pids, files, log, schedule, i);
    AloneShows(world, shared, pids[i], Solo(Restrict(s.files, key), s.tasks[i], ResultsOf(s.log, key)));
    PublishedIsOwn(shared, pids[i], s.files);
  }

  lemma FreshAnnounces(world: World, shared: Job, pid: string)
    requires IsDecimal(pid)
    ensures SoloAnnounces(world, shared, pid, RunAlone(world, shared, pid, Fresh(shared), map[]))
  {
    AloneAnnounces(world, shared, pid, Fresh(shared), map[]);
  }

  /** What a task's run on its own shows. */
  lemma AloneShows(world: World, shared: Job, pid: string, solo: Solo)
    requires IsDecimal(pid) && RunAlone(world, shared, pid, Fresh(shared), map[]) == solo
    ensures Shows(world, shared, pid, solo.task, Look(solo.files, NamesOf(shared, pid).published), solo.events,
                  Produced(world, shared, pid))
  {
    AloneEnds(world, shared, pid);
    FreshAnnounces(world, shared, pid);
    SoloShows(world, shared, pid, solo);
  }

  lemma PublishedIsOwn(shared: Job, pid: string, files: Files)
    requires IsDecimal(pid)
    ensures Look(Restrict(files, OwnerKey(shared, pid)), NamesOf(shared, pid).published)
         == Look(files, NamesOf(shared, pid).published)
  {
    DerivedNamesOwned(shared, pid);
    LookRestrict(files, OwnerKey(shared, pid), NamesOf(shared, pid).published);
  }

  lemma SoloShows(world: World, shared: Job, pid: string, solo: Solo)
    requires EndOf(NamesOf(shared, pid), solo) == EndFor(Produced(world, shared, pid))
    requires SoloAnnounces(world, shared, pid, solo)
    ensures Shows(world, shared, pid, solo.task, Look(solo.files, NamesOf(shared, pid).published), solo.events,
                  Produced(world, shared, pid))
  {
    EndOfSolo(world, shared, pid, solo, Look(solo.files, NamesOf(shared, pid).published), Produced(world, shared, pid));
  }

  /** A task's part of the outcome, in any interleaving, is its run on its own. */
  lemma EndsAsAlone(
    world: World, shared: Job, pids: seq<string>, files: Files, log: seq<Event>, schedule: seq<nat>, i: nat)
    requires Distinct(pids) && DecimalPids(pids) && Indices(schedule, |pids|) && i < |pids|
    requires CleanFor(shared, pids[i], files) && ResultsOf(log, OwnerKey(shared, pids[i])) == []
    requires AllFinished(RunSchedule(world, shared, pids, Outset(shared, pids, files, log), schedule))
    ensures var s := RunSchedule(world, shared, pids, Outset(shared, pids, files, log), schedule);
            var key := OwnerKey(shared, pids[i]);
            RunAlone(world, shared, pids[i], Fresh(shared), map[])
              == Solo(Restrict(s.files, key), s.tasks[i], ResultsOf(s.log, key))
  {
    var s0 := Outset(shared, pids, files, log);
    var solo := RunAlone(world, shared, pids[i], Fresh(shared), map[]);
    FinalPart(world, shared, pids, s0, schedule, i);
    assert Ledger(world, shared, pids, s0, i) == solo.(events := [] + solo.events);
    assert [] + solo.events == solo.events;
  }

  /** What a finished task shows: its state, its published file and its results. */
  predicate Shows(
    world: World, shared: Job, pid: string, task: Task, found: Option<string>, results: seq<Event>, product: Product)
  {
    match product
    case Broken(reason) => task == Finished(Some(reason)) && results == []
    case Made(content) =>
      task == Finished(None) && found == Some(content) && results == [Announcement(world, shared, pid, content)]
  }

  lemma EndOfSolo(
    world: World, shared: Job, pid: string, solo: Solo, found: Option<string>, product: Product)
    requires found == Look(solo.files, NamesOf(shared, pid).published)
    requires EndOf(NamesOf(shared, pid), solo) == EndFor(product)
    requires solo.events ==
               if solo.task == Finished(None) then [Announcement(world, shared, pid, found.GetOr(""))] else []
    ensures Shows(world, shared, pid, solo.task, found, solo.events, product)
  {
  }
}
