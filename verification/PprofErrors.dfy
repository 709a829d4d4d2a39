/** What a failed pprof task reports about the port it tried. */
module PprofErrors {
  import opened Text
  import opened ResultNames
  import opened Pipelines
  import opened Isolation
  import opened Interleaving
  import opened Publication

  function ScanOf(world: World, shared: Job, pid: string): Outcome { world.run(FindPort(pid, shared.iteration)) }

  /** The port is the one the scan found, or the default with the reason why the scan failed. */
  predicate FromScan(scan: Outcome, port: Port) {
    match port
    case Detected(_) => scan.ok
    case Guessed(p, why) => !scan.ok && p == "8080" && why == scan.reason
  }

  /** A failure says that the port was a guess, and why, exactly if the scan failed. */
  predicate SaysIfGuessed(scan: Outcome, err: Failure) {
    if scan.ok then !err.PortGuessed?
    else err.PortGuessed? && err.port == "8080" && err.why == scan.reason && !err.failure.PortGuessed?
  }

  predicate ContextOk(scan: Outcome, ctx: Context) { ctx.ViaPort? && FromScan(scan, ctx.port) }

  predicate PortKnown(scan: Outcome, t: Task) {
    match t
    case Finished(None) => true
    case Finished(Some(err)) => SaysIfGuessed(scan, err)
    case Running(AtPprof(pc), _) =>
      (match pc
       case CopyJob => true
       case PortScan => true
       case Fetch(port) => FromScan(scan, port)
       case ConvertCpu(port) => FromScan(scan, port)
       case FetchHeap(port, _) => FromScan(scan, port)
       case ConvertHeap(port, _) => FromScan(scan, port)
       case WriteBoth(port, _, _) => FromScan(scan, port))
    case Running(AtPublish(pc), _) =>
      (match pc
       case Open(ctx) => ContextOk(scan, ctx)
       case Create(ctx, _) => ContextOk(scan, ctx)
       case Compress(ctx, _) => ContextOk(scan, ctx)
       case Emit => true)
    case _ => false
  }

  lemma FetchingKeepsPort(world: World, shared: Job, pid: string, names: Names, pc: PprofPc, files: Files)
    requires shared.tool == PProf
             && PortKnown(ScanOf(world, shared, pid), Running(AtPprof(pc), JobAt(shared, pid, AtPprof(pc))))
    ensures PortKnown(ScanOf(world, shared, pid),
            PprofStep(world, shared, pid, names, pc, JobAt(shared, pid, AtPprof(pc)), files).task)
  {
  }

  lemma PublishingKeepsPort(scan: Outcome, world: World, names: Names, pc: PublishPc, job: Job, files: Files)
    requires PortKnown(scan, Running(AtPublish(pc), job))
    ensures PortKnown(scan, PublishStep(world, names, pc, job, files).task)
  {
  }

  lemma StepKeepsPort(world: World, shared: Job, pid: string, t: Task, files: Files)
    requires shared.tool == PProf && TaskOk(shared, pid, t) && PortKnown(ScanOf(world, shared, pid), t)
    ensures PortKnown(ScanOf(world, shared, pid), Step(world, shared, pid, t, files).task)
  {
    if t.Running? {
      var names := NamesOf(t.job, t.job.pid);
      match t.pc
      case AtPprof(pc) => FetchingKeepsPort(world, shared, pid, names, pc, files);
      case AtPublish(pc) => PublishingKeepsPort(ScanOf(world, shared, pid), world, names, pc, t.job, files);
    }
  }

  lemma {:induction false} RunKeepsPorts(world: World, shared: Job, pids: seq<string>, s: State, schedule: seq<nat>)
    requires shared.tool == PProf && InOrder(shared, pids, s) && Indices(schedule, |pids|)
    requires forall i :: 0 <= i < |pids| ==> PortKnown(ScanOf(world, shared, pids[i]), s.tasks[i])
    ensures var s' := RunSchedule(world, shared, pids, s, schedule);
            && InOrder(shared, pids, s')
            && forall i :: 0 <= i < |pids| ==> PortKnown(ScanOf(world, shared, pids[i]), s'.tasks[i])
    decreases |schedule|
  {
    if schedule != [] {
      var n := |schedule| - 1;
      RunKeepsPorts(world, shared, pids, s, schedule[..n]);
      var mid := RunSchedule(world, shared, pids, s, schedule[..n]);
      StepOwn(world, shared, pids, mid, schedule[n]);
      StepKeepsPort(world, shared, pids[schedule[n]], mid.tasks[schedule[n]], mid.files);
    }
  }

  /**
   In any interleaving, a pprof task that fails says that its port was only a guess, and why, exactly if its own
   port scan failed: a failure at a detected port never blames the scan, and no other PID's scan is blamed.
   */
  lemma GuessIsReported(
    world: World, shared: Job, pids: seq<string>, files: Files, log: seq<Event>, schedule: seq<nat>, i: nat)
    requires shared.tool == PProf && Distinct(pids) && DecimalPids(pids) && Indices(schedule, |pids|) && i < |pids|
    ensures var t := RunSchedule(world, shared, pids, Outset(shared, pids, files, log), schedule).tasks[i];
            t.Finished? && t.err.Some? ==> SaysIfGuessed(ScanOf(world, shared, pids[i]), t.err.value)
  {
    RunKeepsPorts(world, shared, pids, Outset(shared, pids, files, log), schedule);
    assert PortKnown(ScanOf(world, shared, pids[i]),
                     RunSchedule(world, shared, pids, Outset(shared, pids, files, log), schedule).tasks[i]);
  }
}
