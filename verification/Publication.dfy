/**
 Results and files: a PID's task announces one result exactly when it ends well, and what was announced
 stays true of the file from then on, whatever the other tasks do.
 */
module Publication {
  import opened Text
  import opened ResultNames
  import opened Pipelines
  import opened Isolation
  import opened Interleaving

  // ---------- the published file exists when it is announced ----------

  predicate Sound(shared: Job, pid: string, t: Task, files: Files) {
    Delivering(t) ==> NamesOf(shared, pid).published in files
  }

  predicate Delivering(t: Task) {
    t.Running? && t.pc.AtPublish? && (t.pc.publish.Emit? || t.pc.publish.Compress?)
  }

  lemma PublishSound(world: World, names: Names, pc: PublishPc, job: Job, files: Files)
    requires job.compressor == NoCompression ==> names.published == names.result
    requires pc.Emit? || pc.Compress? ==> names.published in files
    ensures var e := PublishStep(world, names, pc, job, files);
            Delivering(e.task) ==> names.published in Apply(files, e.ops)
  {
    var e := PublishStep(world, names, pc, job, files);
    if |e.ops| == 1 {
      assert e.ops[1..] == [];
      assert Apply(files, e.ops) == ApplyOne(files, e.ops[0]);
    }
  }

  lemma PublishingStartsWithOpen(world: World, shared: Job, pid: string, names: Names, pc: Pc, job: Job, files: Files)
    requires !pc.AtPublish?
    ensures !Delivering(StepAt(world, shared, pid, names, pc, job, files).task)
  {
  }

  lemma UncompressedIsResult(job: Job, pid: string)
    requires job.compressor == NoCompression
    ensures NamesOf(job, pid).published == NamesOf(job, pid).result
  {
  }

  lemma StepSound(world: World, shared: Job, pid: string, t: Task, files: Files)
    requires TaskOk(shared, pid, t) && Sound(shared, pid, t, files)
    ensures var e := Step(world, shared, pid, t, files); Sound(shared, pid, e.task, Apply(files, e.ops))
  {
    if t.Running? {
      var names := NamesOf(t.job, if t.job.tool == PProf then t.job.pid else pid);
      if t.pc.AtPublish? {
        NamesOfTask(shared, pid, t);
        if t.job.compressor == NoCompression {
          UncompressedIsResult(shared, pid);
        }
        PublishSound(world, names, t.pc.publish, t.job, files);
      } else {
        PublishingStartsWithOpen(world, shared, pid, names, t.pc, t.job, files);
      }
    }
  }

  // ---------- the books ----------

  /** Every announced result is in its file, as announced. */
  ghost predicate Honest(world: World, files: Files, log: seq<Event>) {
    forall k :: 0 <= k < |log| && log[k].Result? ==> TrueOf(world, files, log[k])
  }

  predicate TrueOf(world: World, files: Files, e: Event)
    requires e.Result?
  {
    match Look(files, e.file)
    case None => false
    case Some(content) => |content| == e.size && world.checksum(content) == e.checksum
  }

  function Successes(tasks: seq<Task>): nat {
    if tasks == [] then 0
    else Successes(tasks[..|tasks| - 1]) + if tasks[|tasks| - 1] == Finished(None) then 1 else 0
  }

  function Expected(t: Task): nat { if t == Finished(None) then 1 else 0 }

  /** Every task has announced exactly what it must by now. */
  ghost predicate Settled(shared: Job, pids: seq<string>, s: State) {
    && |s.tasks| == |pids|
    && forall i :: 0 <= i < |pids| ==>
         && Sound(shared, pids[i], s.tasks[i], s.files)
         && |ResultsOf(s.log, OwnerKey(shared, pids[i]))| == Expected(s.tasks[i])
  }

  ghost predicate Books(world: World, shared: Job, pids: seq<string>, s: State) {
    && InOrder(shared, pids, s)
    && Settled(shared, pids, s)
    && Honest(world, s.files, s.log)
  }

  lemma {:induction false} ResultInResults(log: seq<Event>, k: nat, key: Key)
    requires k < |log| && log[k].Result? && Owns(key, log[k].file)
    ensures |ResultsOf(log, key)| >= 1
  {
    if k < |log| - 1 {
      ResultInResults(log[..|log| - 1], k, key);
    }
  }

  lemma StepHonest(world: World, shared: Job, pids: seq<string>, s: State, i: nat)
    requires Books(world, shared, pids, s) && i < |pids|
    ensures var s' := StepTask(world, shared, pids, s, i); Honest(world, s'.files, s'.log)
  {
    var key, e := OwnerKey(shared, pids[i]), Step(world, shared, pids[i], s.tasks[i], s.files);
    var files', log' := Apply(s.files, e.ops), s.log + e.events;
    StepIsLocal(world, shared, pids[i], s.tasks[i], s.files);
    forall k | 0 <= k < |log'| && log'[k].Result?
      ensures TrueOf(world, files', log'[k])
    {
      if k >= |s.log| {
        assert log'[k] == e.events[k - |s.log|];
        assert files' == s.files;
        assert Sound(shared, pids[i], s.tasks[i], s.files);
        EmitOnly(world, shared, pids[i], s.tasks[i], s.files);
      } else if Owns(key, log'[k].file) {
        ResultInResults(s.log, k, key);
        assert s.tasks[i] == Finished(None);
      } else {
        assert TrueOf(world, s.files, s.log[k]);
        ApplyOther(s.files, key, e.ops, log'[k].file);
      }
    }
  }

  /** A result is only announced by the last publishing step, when its file is there. */
  lemma EmitOnly(world: World, shared: Job, pid: string, t: Task, files: Files)
    requires TaskOk(shared, pid, t) && Sound(shared, pid, t, files)
    requires Step(world, shared, pid, t, files).events != []
    ensures NamesOf(shared, pid).published in files
  {
    assert t.Running? && t.pc == AtPublish(Emit);
  }

  lemma StepSettled(world: World, shared: Job, pids: seq<string>, s: State, i: nat, j: nat)
    requires Books(world, shared, pids, s) && i < |pids| && j < |pids|
    ensures var s' := StepTask(world, shared, pids, s, i);
            && Sound(shared, pids[j], s'.tasks[j], s'.files)
            && |ResultsOf(s'.log, OwnerKey(shared, pids[j]))| == Expected(s'.tasks[j])
  {
    if i == j {
      OwnSettled(world, shared, pids, s, i);
    } else {
      OtherSettled(world, shared, pids, s, i, j);
    }
  }

  lemma OwnSettled(world: World, shared: Job, pids: seq<string>, s: State, i: nat)
    requires Books(world, shared, pids, s) && i < |pids|
    ensures var s' := StepTask(world, shared, pids, s, i);
            && Sound(shared, pids[i], s'.tasks[i], s'.files)
            && |ResultsOf(s'.log, OwnerKey(shared, pids[i]))| == Expected(s'.tasks[i])
  {
    var e := Step(world, shared, pids[i], s.tasks[i], s.files);
    StepIsLocal(world, shared, pids[i], s.tasks[i], s.files);
    StepAnnouncesOwn(world, shared, pids, s, i);
    ResultsOfAnnounced(s.log, e.events, OwnerKey(shared, pids[i]));
    StepSound(world, shared, pids[i], s.tasks[i], s.files);
  }

  lemma OtherSettled(world: World, shared: Job, pids: seq<string>, s: State, i: nat, j: nat)
    requires Books(world, shared, pids, s) && i < |pids| && j < |pids| && i != j
    ensures var s' := StepTask(world, shared, pids, s, i);
            && Sound(shared, pids[j], s'.tasks[j], s'.files)
            && |ResultsOf(s'.log, OwnerKey(shared, pids[j]))| == Expected(s'.tasks[j])
  {
    var e := Step(world, shared, pids[i], s.tasks[i], s.files);
    OtherResults(world, shared, pids, s, i, j);
    StepIsLocal(world, shared, pids[i], s.tasks[i], s.files);
    DerivedNamesOwned(shared, pids[j]);
    ApplyOther(s.files, OwnerKey(shared, pids[i]), e.ops, NamesOf(shared, pids[j]).published);
  }

  lemma OtherResults(world: World, shared: Job, pids: seq<string>, s: State, i: nat, j: nat)
    requires InOrder(shared, pids, s) && i < |pids| && j < |pids| && i != j
    ensures OwnerKey(shared, pids[j]) != OwnerKey(shared, pids[i])
    ensures ResultsOf(StepTask(world, shared, pids, s, i).log, OwnerKey(shared, pids[j]))
         == ResultsOf(s.log, OwnerKey(shared, pids[j]))
  {
    StepAnnouncesOwn(world, shared, pids, s, i);
    ResultsOfAnnounced(s.log, Step(world, shared, pids[i], s.tasks[i], s.files).events, OwnerKey(shared, pids[i]));
  }

  lemma {:induction false} RunKeepsBooks(world: World, shared: Job, pids: seq<string>, s: State, schedule: seq<nat>)
    requires Books(world, shared, pids, s) && Indices(schedule, |pids|)
    ensures Books(world, shared, pids, RunSchedule(world, shared, pids, s, schedule))
    decreases |schedule|
  {
    if schedule != [] {
      var n := |schedule| - 1;
      RunKeepsBooks(world, shared, pids, s, schedule[..n]);
      var mid := RunSchedule(world, shared, pids, s, schedule[..n]);
      StepOwn(world, shared, pids, mid, schedule[n]);
      StepHonest(world, shared, pids, mid, schedule[n]);
      forall j | 0 <= j < |pids|
        ensures var s' := StepTask(world, shared, pids, mid, schedule[n]);
                && Sound(shared, pids[j], s'.tasks[j], s'.files)
                && |ResultsOf(s'.log, OwnerKey(shared, pids[j]))| == Expected(s'.tasks[j])
      {
        StepSettled(world, shared, pids, mid, schedule[n], j);
      }
    }
  }

  // ---------- counting ----------

  lemma {:induction false} SuccessesUpdate(tasks: seq<Task>, i: nat, t: Task)
    requires i < |tasks|
    ensures Successes(tasks[i := t]) + Expected(tasks[i]) == Successes(tasks) + Expected(t)
  {
    var n := |tasks| - 1;
    if i < n {
      SuccessesUpdate(tasks[..n], i, t);
      assert tasks[i := t][..n] == tasks[..n][i := t];
    } else {
      assert tasks[i := t][..n] == tasks[..n];
    }
  }

  lemma StepCounts(world: World, shared: Job, pids: seq<string>, s: State, i: nat)
    requires InOrder(shared, pids, s) && i < |pids|
    ensures var s' := StepTask(world, shared, pids, s, i);
            |s'.log| + Successes(s.tasks) == |s.log| + Successes(s'.tasks)
  {
    var t, e := s.tasks[i], Step(world, shared, pids[i], s.tasks[i], s.files);
    StepIsLocal(world, shared, pids[i], t, s.files);
    SuccessesUpdate(s.tasks, i, e.task);
    assert |e.events| + Expected(t) == Expected(e.task);
  }

  lemma {:induction false} RunCounts(world: World, shared: Job, pids: seq<string>, s: State, schedule: seq<nat>)
    requires InOrder(shared, pids, s) && Indices(schedule, |pids|)
    ensures var s' := RunSchedule(world, shared, pids, s, schedule);
            InOrder(shared, pids, s') && |s'.log| + Successes(s.tasks) == |s.log| + Successes(s'.tasks)
    decreases |schedule|
  {
    if schedule != [] {
      var n := |schedule| - 1;
      RunCounts(world, shared, pids, s, schedule[..n]);
      var mid := RunSchedule(world, shared, pids, s, schedule[..n]);
      StepOwn(world, shared, pids, mid, schedule[n]);
      StepCounts(world, shared, pids, mid, schedule[n]);
    }
  }

  // ---------- one Invoke ----------

  function FreshTasks(shared: Job, n: nat): (tasks: seq<Task>)
    ensures |tasks| == n && forall i :: 0 <= i < n ==> tasks[i] == Fresh(shared)
  {
    seq(n, i => Fresh(shared))
  }

  lemma {:induction false} NoSuccessYet(shared: Job, n: nat)
    ensures Successes(FreshTasks(shared, n)) == 0
  {
    if n > 0 {
      NoSuccessYet(shared, n - 1);
      assert FreshTasks(shared, n)[..n - 1] == FreshTasks(shared, n - 1);
    }
  }

  /** No result of this iteration is in the log yet. */
  ghost predicate NoneYet(log: seq<Event>, iteration: nat) {
    forall k :: 0 <= k < |log| && log[k].Result? ==> KeyOf(log[k].file).iteration != Itoa(iteration)
  }

  lemma {:induction false} NoneYetNoResults(log: seq<Event>, iteration: nat, pid: string)
    requires NoneYet(log, iteration)
    ensures ResultsOf(log, Key(pid, Itoa(iteration))) == []
  {
    if log != [] {
      assert forall k :: 0 <= k < |log| - 1 ==> log[..|log| - 1][k] == log[k];
      NoneYetNoResults(log[..|log| - 1], iteration, pid);
    }
  }

  function Outset(shared: Job, pids: seq<string>, files: Files, log: seq<Event>): State {
    State(files, FreshTasks(shared, |pids|), log)
  }

  lemma OutsetBooks(world: World, shared: Job, pids: seq<string>, files: Files, log: seq<Event>)
    requires Distinct(pids) && DecimalPids(pids)
    requires Honest(world, files, log) && NoneYet(log, shared.iteration)
    ensures Books(world, shared, pids, Outset(shared, pids, files, log))
  {
    forall i | 0 <= i < |pids|
      ensures |ResultsOf(log, OwnerKey(shared, pids[i]))| == 0
    {
      NoneYetNoResults(log, shared.iteration, pids[i]);
    }
  }

  /**
   What one Invoke leaves behind, for any schedule: what it added to the log are results only, as many
   as PIDs that succeeded, and every result in the log, old or new, is true of its file.
   */
  lemma InvokePublishes(
    world: World, shared: Job, pids: seq<string>, files: Files, log: seq<Event>, schedule: seq<nat>)
    requires Distinct(pids) && DecimalPids(pids) && Indices(schedule, |pids|)
    requires Honest(world, files, log) && NoneYet(log, shared.iteration)
    ensures var s' := RunSchedule(world, shared, pids, Outset(shared, pids, files, log), schedule);
            && Honest(world, s'.files, s'.log)
            && log <= s'.log
            && |s'.log| - |log| == Successes(s'.tasks)
            && (forall k :: |log| <= k < |s'.log| ==>
                  s'.log[k].Result? && KeyOf(s'.log[k].file).iteration == Itoa(shared.iteration))
            && (forall i :: 0 <= i < |pids| ==>
                  |ResultsOf(s'.log, OwnerKey(shared, pids[i]))| == Expected(s'.tasks[i]))
  {
    var s := Outset(shared, pids, files, log);
    var s' := RunSchedule(world, shared, pids, s, schedule);
    OutsetBooks(world, shared, pids, files, log);
    RunKeepsBooks(world, shared, pids, s, schedule);
    RunOnlyOwn(world, shared, pids, s, schedule);
    RunCounts(world, shared, pids, s, schedule);
    NoSuccessYet(shared, |pids|);
    forall k | |log| <= k < |s'.log|
      ensures s'.log[k].Result? && KeyOf(s'.log[k].file).iteration == Itoa(shared.iteration)
    {
      var i :| 0 <= i < |pids| && OwnerKey(shared, pids[i]) == KeyOf(s'.log[k].file);
    }
  }
}
