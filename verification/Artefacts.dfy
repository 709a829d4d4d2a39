/**
 What is left when tasks end: artefacts under their names, each line of perf's and bpf's telling which process it is
 from, and nothing of austin's conversion.
 */
module Artefacts {
  import opened Text
  import opened ResultNames
  import opened Pipelines
  import opened Isolation
  import opened Interleaving
  import opened Publication
  import opened EndToEnd
  import Legend

  /** The folded stacks a task of perf or bpf gets from its commands. */
  function Folded(world: World, job: Job, pid: string): Product {
    if job.tool == Perf then FoldedByPerf(world, job, pid) else FoldedByBpf(world, job, pid)
  }

  /** Blank, or with a line that fills the scanner's buffer. */
  predicate NotLabelled(folded: string) {
    IsBlank(folded) || exists i :: 0 <= i < |Lines(folded)| && |Lines(folded)[i]| >= 65536
  }

  /** Line by line the folded stacks, each line behind the PID of its process; the stacks themselves if not labelled. */
  predicate NamesItsPid(raw: string, folded: string, pid: string) {
    if NotLabelled(folded) then raw == folded
    else
      && |Lines(raw)| == |Lines(folded)| > 0
      && forall i :: 0 <= i < |Lines(raw)| ==>
           Lines(raw)[i] == "process: " + pid + ";" + Legend.DropCR(Lines(folded)[i])
  }

  lemma LabelledNamesPid(folded: string, pid: string)
    requires NoNewline(pid)
    ensures NamesItsPid(Legend.WithLegend(folded, pid), folded, pid)
  {
    Legend.LegendAllOrNothing(folded, pid);
  }

  /**
   An artefact of perf or bpf is made from the task's own folded stacks, each line naming the PID it was taken
   for: the text itself for raw output, or a rendering of it, if it has at least fifty bytes, for a flame graph.
   No other output comes of these tools.
   */
  lemma MadeOfLabelledStacks(world: World, job: Job, pid: string) returns (folded: string, raw: string)
    requires (job.tool == Perf || job.tool == Bpf) && NoNewline(pid) && Produced(world, job, pid).Made?
    ensures Folded(world, job, pid) == Made(folded) && NamesItsPid(raw, folded, pid)
    ensures job.outputType == "raw" || (job.outputType == "flamegraph" && |raw| >= 50)
    ensures Produced(world, job, pid) ==
              Delivered(world, job, if job.outputType == RAW then Made(raw) else Drawn(world, raw))
  {
    folded := Folded(world, job, pid).content;
    raw := Legend.WithLegend(folded, pid);
    LabelledNamesPid(folded, pid);
  }

  /** Stacks of fewer than fifty bytes, or none at all for austin, are not worth a flame graph. */
  lemma RenderedIfEnough(world: World, job: Job, raw: string)
    requires job.tool != PProf && job.outputType == FLAMEGRAPH
    ensures Rendered(world, job, raw).Made? <==>
              (if job.tool == Austin then raw != "" else |raw| >= 50) && world.run(FlameGraphScript(raw)).ok
  {
  }

  /** Where perf keeps its data and its script. */
  lemma PerfNames(job: Job, pid: string)
    ensures NamesOf(job, pid).perfData == "/tmp/perf-" + pid + "-" + Itoa(job.iteration) + ".data"
    ensures NamesOf(job, pid).perfScript == "/tmp/perf-" + pid + "-" + Itoa(job.iteration) + ".out"
  {
  }

  /** The name a result is published under. */
  lemma PublishedName(job: Job, pid: string)
    ensures PublishedFile(job, pid) ==
              "/tmp/agent-" + job.outputType + "-" + pid + "-" + Itoa(job.iteration)
              + (if job.tool == PProf then ".pprof" else if job.outputType == "raw" then ".txt" else ".svg")
              + match job.compressor
                case NoCompression => ""
                case Snappy => ".snappy"
                case Gzip => ".gz"
                case Lzo => ".lzo"
                case Zstd => ".zst"
  {
    assert TMP_DIR + "/" + PROFILING_PREFIX == "/tmp/agent-";
  }

  lemma RawOfPid(world: World, job: Job, pid: string, content: string)
    requires (job.tool == Perf || job.tool == Bpf) && NoNewline(pid) && Produced(world, job, pid) == Made(content)
    requires job.outputType == RAW && job.compressor == NoCompression
    ensures Folded(world, job, pid).Made? && NamesItsPid(content, Folded(world, job, pid).content, pid)
  {
    var folded, raw := MadeOfLabelledStacks(world, job, pid);
    assert Delivered(world, job, Made(raw)) == Made(raw);
  }

  lemma ShownContent(
    world: World, shared: Job, pid: string, task: Task, found: Option<string>, results: seq<Event>,
    product: Product)
    requires Shows(world, shared, pid, task, found, results, product) && task == Finished(None)
    ensures product.Made? && found == Some(product.content)
  {
  }

  /**
   Whatever the schedule: a raw profile that perf or bpf publishes for a PID, uncompressed, is that PID's own
   stacks, and each line of it names that PID and no other.
   */
  lemma PublishedNamesItsPid(
    world: World, shared: Job, pids: seq<string>, files: Files, log: seq<Event>, schedule: seq<nat>, i: nat)
    requires Distinct(pids) && DecimalPids(pids) && Indices(schedule, |pids|) && i < |pids|
    requires CleanFor(shared, pids[i], files) && ResultsOf(log, OwnerKey(shared, pids[i])) == []
    requires AllFinished(RunSchedule(world, shared, pids, Outset(shared, pids, files, log), schedule))
    requires (shared.tool == Perf || shared.tool == Bpf)
             && shared.outputType == RAW && shared.compressor == NoCompression
    ensures var s := RunSchedule(world, shared, pids, Outset(shared, pids, files, log), schedule);
            s.tasks[i] == Finished(None) ==>
              var found, folded := Look(s.files, NamesOf(shared, pids[i]).published), Folded(world, shared, pids[i]);
              found.Some? && folded.Made? && NamesItsPid(found.value, folded.content, pids[i])
  {
    InterleavedEnds(world, shared, pids, files, log, schedule, i);
    var s := RunSchedule(world, shared, pids, Outset(shared, pids, files, log), schedule);
    var found := Look(s.files, NamesOf(shared, pids[i]).published);
    if s.tasks[i] == Finished(None) {
      ShownContent(world, shared, pids[i], s.tasks[i], found, ResultsOf(s.log, OwnerKey(shared, pids[i])),
                   Produced(world, shared, pids[i]));
      DecimalHasNoDash(pids[i]);
      RawOfPid(world, shared, pids[i], found.value);
    }
  }

  // ---------- pprof ----------

  /** The port the downloads go to: the one that was found, or the usual one. */
  function PortTried(world: World, job: Job, pid: string): string {
    var scan := world.run(FindPort(pid, job.iteration));
    if scan.ok then scan.output.GetOr("") else "8080"
  }

  /**
   An artefact of pprof, uncompressed, is one download as it came, of the heap or of the processor, or both of them
   as text, the heap first. All come from the one port, and no other output comes of this tool.
   */
  lemma PprofArtefacts(world: World, job: Job, pid: string)
    requires job.tool == PProf && job.compressor == NoCompression && Produced(world, job, pid).Made?
    ensures var port := PortTried(world, job, pid);
            var heap := world.run(ScrapeHeap(pid, job.iteration, port));
            var cpu := world.run(ScrapeCpu(pid, job.iteration, port, job.seconds));
            var content := Produced(world, job, pid).content;
            if job.outputType == "heapdump" then heap.ok && heap.output == Some(content)
            else if job.outputType == "pprof" then cpu.ok && cpu.output == Some(content)
            else
              var heapText, cpuText := world.run(PprofRaw(heap.output)), world.run(PprofRaw(cpu.output));
              && job.outputType == "raw" && heap.ok && cpu.ok && heapText.ok && cpuText.ok
              && content == "heap dump\n " + heapText.output.GetOr("") + " \n cpu dump\n " + cpuText.output.GetOr("")
  {
    var port := PortOf(world, job, pid);
    assert port.port == PortTried(world, job, pid);
    assert Delivered(world, job, FetchedBy(world, job, pid, port.port)).Made?;
  }

  // ---------- austin's conversion in place ----------

  /** What no step but the conversion writes. */
  lemma ConvertedIsApart(job: Job, pid: string)
    requires IsDecimal(pid)
    ensures var names := NamesOf(job, pid);
            && names.converted != names.profile && names.converted != names.result
            && names.converted != names.published
  {
    var profiled := if job.outputType == FLAMEGRAPH then RAW else job.outputType;
    var c := NamesOf(job, pid).converted;
    if c == FileOf(job, pid, job.outputType) + "" {
      SameNames(job, pid, profiled, ".txt", job.outputType, "");
    }
    if c == PublishedFile(job, pid) {
      SameNames(job, pid, profiled, ".txt", job.outputType, ExtensionOf(job.compressor));
    }
  }

  predicate Avoids(ops: seq<FileOp>, name: string) { forall k :: 0 <= k < |ops| ==> ops[k].name != name }

  lemma {:induction false} StaysAbsent(files: Files, ops: seq<FileOp>, name: string)
    requires name !in files && Avoids(ops, name)
    ensures name !in Apply(files, ops)
    decreases |ops|
  {
    if ops != [] {
      assert name !in ApplyOne(files, ops[0]);
      StaysAbsent(ApplyOne(files, ops[0]), ops[1..], name);
    }
  }

  /** The converter's output is there only between the conversion and the renaming, or where one of them failed. */
  predicate Tidy(shared: Job, pid: string, t: Task, files: Files) {
    (t.Running? && t.pc != AtAustin(Rename)) || t == Finished(None) ==> NamesOf(shared, pid).converted !in files
  }

  lemma RenameTidies(files: Files, converted: string, profile: string, text: string)
    requires converted != profile
    ensures converted !in Apply(files, [Delete(converted), Put(profile, text)])
  {
    var ops := [Delete(converted), Put(profile, text)];
    assert ops[1..] == [Put(profile, text)];
    StaysAbsent(files - {converted}, [Put(profile, text)], converted);
  }

  lemma AustinAvoids(world: World, pid: string, names: Names, pc: AustinPc, job: Job, files: Files)
    requires names.converted != names.profile && pc != Rename && !pc.Convert?
    ensures Avoids(AustinStep(world, pid, names, pc, job, files).ops, names.converted)
  {
  }

  lemma FlameAvoids(world: World, names: Names, pc: FlamePc, job: Job, files: Files)
    requires names.converted != names.result
    ensures Avoids(FlameStep(world, names, pc, job, files).ops, names.converted)
  {
  }

  lemma PublishAvoids(world: World, names: Names, pc: PublishPc, job: Job, files: Files)
    requires names.converted != names.published
    ensures Avoids(PublishStep(world, names, pc, job, files).ops, names.converted)
  {
  }

  lemma StepAvoids(world: World, shared: Job, pid: string, names: Names, pc: Pc, job: Job, files: Files)
    requires PcFits(Austin, pc) && pc != AtAustin(Rename) && !(pc.AtAustin? && pc.austin.Convert?)
    requires names.converted != names.profile && names.converted != names.result && names.converted != names.published
    ensures Avoids(StepAt(world, shared, pid, names, pc, job, files).ops, names.converted)
  {
    match pc
    case AtAustin(at) => AustinAvoids(world, pid, names, at, job, files);
    case AtFlame(at) => FlameAvoids(world, names, at, job, files);
    case AtPublish(at) => PublishAvoids(world, names, at, job, files);
  }

  lemma RenameStepTidies(world: World, shared: Job, pid: string, t: Task, files: Files)
    requires shared.tool == Austin && TaskOk(shared, pid, t) && t.Running? && t.pc == AtAustin(Rename)
    requires NamesOf(shared, pid).converted != NamesOf(shared, pid).profile
    ensures var e := Step(world, shared, pid, t, files); Tidy(shared, pid, e.task, Apply(files, e.ops))
  {
    var names := NamesOf(shared, pid);
    if names.converted in files {
      RenameTidies(files, names.converted, names.profile, files[names.converted]);
    }
  }

  lemma ConvertStepTidies(world: World, shared: Job, pid: string, t: Task, files: Files)
    requires shared.tool == Austin && TaskOk(shared, pid, t) && t.Running?
    requires t.pc.AtAustin? && t.pc.austin.Convert?
    ensures var e := Step(world, shared, pid, t, files); Tidy(shared, pid, e.task, Apply(files, e.ops))
  {
  }

  lemma OtherStepTidies(world: World, shared: Job, pid: string, t: Task, files: Files)
    requires IsDecimal(pid) && shared.tool == Austin && TaskOk(shared, pid, t) && t.Running?
    requires t.pc != AtAustin(Rename) && !(t.pc.AtAustin? && t.pc.austin.Convert?) && Tidy(shared, pid, t, files)
    ensures NamesOf(shared, pid).converted !in Apply(files, Step(world, shared, pid, t, files).ops)
  {
    var names := NamesOf(shared, pid);
    StepsAreNamed(world, shared, pid, t, files);
    ConvertedIsApart(shared, pid);
    StepAvoids(world, shared, pid, names, t.pc, t.job, files);
    StaysAbsent(files, Step(world, shared, pid, t, files).ops, names.converted);
  }

  lemma StepTidies(world: World, shared: Job, pid: string, t: Task, files: Files)
    requires IsDecimal(pid) && shared.tool == Austin && TaskOk(shared, pid, t) && t.Running?
    requires Tidy(shared, pid, t, files)
    ensures var e := Step(world, shared, pid, t, files); Tidy(shared, pid, e.task, Apply(files, e.ops))
  {
    if t.pc == AtAustin(Rename) {
      ConvertedIsApart(shared, pid);
      RenameStepTidies(world, shared, pid, t, files);
    } else if t.pc.AtAustin? && t.pc.austin.Convert? {
      ConvertStepTidies(world, shared, pid, t, files);
    } else {
      OtherStepTidies(world, shared, pid, t, files);
    }
  }

  lemma {:induction false} RunTidies(world: World, shared: Job, pid: string, t: Task, files: Files)
    requires IsDecimal(pid) && shared.tool == Austin && TaskOk(shared, pid, t) && Tidy(shared, pid, t, files)
    ensures var solo := RunAlone(world, shared, pid, t, files); Tidy(shared, pid, solo.task, solo.files)
    decreases Rank(t)
  {
    if t.Running? {
      var e := Step(world, shared, pid, t, files);
      StepIsLocal(world, shared, pid, t, files);
      StepProgress(world, shared, pid, t, files);
      StepTidies(world, shared, pid, t, files);
      RunTidies(world, shared, pid, e.task, Apply(files, e.ops));
    }
  }

  /** In any interleaving: where austin's task ends well, the binary profile was converted in place. */
  lemma ConvertedInPlace(
    world: World, shared: Job, pids: seq<string>, files: Files, log: seq<Event>, schedule: seq<nat>, i: nat)
    requires Distinct(pids) && DecimalPids(pids) && Indices(schedule, |pids|) && i < |pids|
    requires CleanFor(shared, pids[i], files) && ResultsOf(log, OwnerKey(shared, pids[i])) == []
    requires AllFinished(RunSchedule(world, shared, pids, Outset(shared, pids, files, log), schedule))
    requires shared.tool == Austin
    ensures var s := RunSchedule(world, shared, pids, Outset(shared, pids, files, log), schedule);
            s.tasks[i] == Finished(None) ==> NamesOf(shared, pids[i]).converted !in s.files
  {
    var s := RunSchedule(world, shared, pids, Outset(shared, pids, files, log), schedule);
    EndsAsAlone(world, shared, pids, files, log, schedule, i);
    RunTidies(world, shared, pids[i], Fresh(shared), map[]);
    DerivedNamesOwned(shared, pids[i]);
    LookRestrict(s.files, OwnerKey(shared, pids[i]), NamesOf(shared, pids[i]).converted);
  }
}
