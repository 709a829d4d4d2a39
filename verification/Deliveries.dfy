/** An iteration's outcomes and results, compared with what the tools' references produce. */
module Deliveries {
  import opened Text
  import opened ResultNames
  import opened Pipelines
  import opened Isolation
  import opened Interleaving
  import opened Publication
  import opened Verdicts
  import opened Rounds
  import EndToEnd

  /** The file system holds no file of an iteration after `k`. */
  ghost predicate NoFilesAfter(files: Files, k: nat) {
    forall name, m: nat :: name in files && m > k ==> KeyOf(name).iteration != Itoa(m)
  }

  /** What a round must show of a PID: the one result that announces its artefact, or its failure and no result. */
  predicate Shown(world: World, shared: Job, pid: string, slot: Slot, results: seq<Event>) {
    match EndToEnd.Produced(world, shared, pid)
    case Broken(reason) => slot == Some(reason) && results == []
    case Made(content) => slot == None && results == [EndToEnd.Announcement(world, shared, pid, content)]
  }

  /** Every PID announced the artefact its reference produces, or failed for the reference's reason. */
  predicate AsProduced(world: World, shared: Job, pids: seq<string>, r: Round) {
    && |r.slots| == |pids|
    && forall i :: 0 <= i < |pids| ==>
         Shown(world, shared, pids[i], r.slots[i], ResultsOf(r.results, OwnerKey(shared, pids[i])))
  }

  lemma CleanStart(shared: Job, pid: string, files: Files)
    requires shared.iteration > 0 && NoFilesAfter(files, shared.iteration - 1)
    ensures EndToEnd.CleanFor(shared, pid, files)
  {
    assert forall name :: name !in Restrict(files, OwnerKey(shared, pid));
  }

  lemma CleanAfter(shared: Job, pids: seq<string>, s: State, s': State)
    requires shared.iteration > 0 && NoFilesAfter(s.files, shared.iteration - 1) && OnlyOwn(shared, pids, s, s')
    ensures NoFilesAfter(s'.files, shared.iteration)
  {
    forall name, m: nat | name in s'.files && m > shared.iteration
      ensures KeyOf(name).iteration != Itoa(m)
    {
      if KeyOf(name) in Keys(shared, pids) {
        if Itoa(m) == Itoa(shared.iteration) {
          ItoaInjective(m, shared.iteration);
        }
      } else {
        assert Look(s'.files, name) == Look(s.files, name);
      }
    }
  }

  lemma SlotShown(world: World, shared: Job, pid: string, t: Task, found: Option<string>, results: seq<Event>)
    requires t.Finished?
    requires EndToEnd.Shows(world, shared, pid, t, found, results, EndToEnd.Produced(world, shared, pid))
    ensures Shown(world, shared, pid, SlotOf(t), results)
  {
  }

  lemma DeliveredOne(
    world: World, shared: Job, pids: seq<string>, files: Files, log: seq<Event>, schedule: seq<nat>, i: nat)
    requires Distinct(pids) && DecimalPids(pids) && Indices(schedule, |pids|) && i < |pids|
    requires shared.iteration > 0 && UpTo(log, shared.iteration - 1) && NoFilesAfter(files, shared.iteration - 1)
    requires AllFinished(RunSchedule(world, shared, pids, Outset(shared, pids, files, log), schedule))
    ensures var s := RunSchedule(world, shared, pids, Outset(shared, pids, files, log), schedule);
            Shown(world, shared, pids[i], SlotOf(s.tasks[i]), ResultsOf(s.log, OwnerKey(shared, pids[i])))
  {
    var s := RunSchedule(world, shared, pids, Outset(shared, pids, files, log), schedule);
    CleanStart(shared, pids[i], files);
    NoneYetNoResults(log, shared.iteration, pids[i]);
    EndToEnd.InterleavedEnds(world, shared, pids, files, log, schedule, i);
    SlotShown(world, shared, pids[i], s.tasks[i], Look(s.files, NamesOf(shared, pids[i]).published),
              ResultsOf(s.log, OwnerKey(shared, pids[i])));
  }

  lemma CleanAfterInvoke(
    world: World, shared: Job, pids: seq<string>, files: Files, log: seq<Event>, schedule: seq<nat>)
    requires Distinct(pids) && DecimalPids(pids) && Indices(schedule, |pids|)
    requires shared.iteration > 0 && NoFilesAfter(files, shared.iteration - 1)
    ensures NoFilesAfter(RunSchedule(world, shared, pids, Outset(shared, pids, files, log), schedule).files,
            shared.iteration)
  {
    var s := Outset(shared, pids, files, log);
    RunOnlyOwn(world, shared, pids, s, schedule);
    CleanAfter(shared, pids, s, RunSchedule(world, shared, pids, s, schedule));
  }

  lemma RoundShown(world: World, shared: Job, pids: seq<string>, tasks: seq<Task>, log: seq<Event>, r: Round)
    requires |tasks| == |pids| && r.slots == SlotsOf(tasks)
    requires forall i :: 0 <= i < |pids| ==>
               && ResultsOf(log, OwnerKey(shared, pids[i])) == ResultsOf(r.results, OwnerKey(shared, pids[i]))
               && Shown(world, shared, pids[i], SlotOf(tasks[i]), ResultsOf(log, OwnerKey(shared, pids[i])))
    ensures AsProduced(world, shared, pids, r)
  {
    forall i | 0 <= i < |pids|
      ensures Shown(world, shared, pids[i], r.slots[i], ResultsOf(r.results, OwnerKey(shared, pids[i])))
    {
      assert r.slots[i] == SlotOf(tasks[i]);
    }
  }

  /** One iteration over a file system without files of its own yet: all outcomes are as the references say. */
  lemma DeliveredRound(
    world: World, shared: Job, pids: seq<string>, files: Files, log: seq<Event>, schedule: seq<nat>, s: State, r: Round)
    requires Distinct(pids) && DecimalPids(pids) && Indices(schedule, |pids|)
    requires shared.iteration > 0 && UpTo(log, shared.iteration - 1) && NoFilesAfter(files, shared.iteration - 1)
    requires s == RunSchedule(world, shared, pids, Outset(shared, pids, files, log), schedule) && AllFinished(s)
    requires r.slots == SlotsOf(s.tasks)
    requires forall i :: 0 <= i < |pids| ==>
               ResultsOf(s.log, OwnerKey(shared, pids[i])) == ResultsOf(r.results, OwnerKey(shared, pids[i]))
    ensures AsProduced(world, shared, pids, r) && NoFilesAfter(s.files, shared.iteration)
  {
    forall i | 0 <= i < |pids|
      ensures Shown(world, shared, pids[i], SlotOf(s.tasks[i]), ResultsOf(s.log, OwnerKey(shared, pids[i])))
    {
      DeliveredOne(world, shared, pids, files, log, schedule, i);
    }
    RoundShown(world, shared, pids, s.tasks, s.log, r);
    CleanAfterInvoke(world, shared, pids, files, log, schedule);
  }

  /**
   The notice of a round that is as produced tells what became of every PID: it counts those whose reference
   produces an artefact, and lists the others, in input order, each with the reason its reference gives.
   */
  lemma NoticeAsProduced(
    world: World, shared: Job, pids: seq<string>, r: Round, n: nat, total: nat, skipped: seq<PidError>)
    returns (at: seq<nat>)
    requires AsProduced(world, shared, pids, r) && NoticesOf(pids, r.slots) == [Notice(n, total, skipped)]
    ensures total == |pids| && n + |skipped| == total && |at| == |skipped|
    ensures forall k, m :: 0 <= k < m < |at| ==> at[k] < at[m]
    ensures forall k :: 0 <= k < |at| ==>
              && at[k] < total && skipped[k].pid == pids[at[k]]
              && EndToEnd.Produced(world, shared, pids[at[k]]) == EndToEnd.Broken(skipped[k].err)
    ensures forall i :: 0 <= i < total ==> (EndToEnd.Produced(world, shared, pids[i]).Broken? <==> i in at)
  {
    at := NoticeMeaning(pids, r.slots, n, total, skipped);
    forall i | 0 <= i < total
      ensures r.slots[i].Some? ==> EndToEnd.Produced(world, shared, pids[i]) == EndToEnd.Broken(r.slots[i].value)
      ensures EndToEnd.Produced(world, shared, pids[i]).Broken? <==> r.slots[i].Some?
    {
      SlotTells(world, shared, pids, r, i);
    }
  }

  lemma SlotTells(world: World, shared: Job, pids: seq<string>, r: Round, i: nat)
    requires AsProduced(world, shared, pids, r) && i < |pids|
    ensures match r.slots[i]
            case Some(err) => EndToEnd.Produced(world, shared, pids[i]) == EndToEnd.Broken(err)
            case None => EndToEnd.Produced(world, shared, pids[i]).Made?
  {
    assert Shown(world, shared, pids[i], r.slots[i], ResultsOf(r.results, OwnerKey(shared, pids[i])));
  }

  // ---------- the rounds of a run ----------

  /** A property of a run's rounds, each with its iteration. */
  type Fit = (nat, Round) -> bool

  /** What every round is: counted right and, when the file system was clean, as produced. */
  function FitOf(world: World, job: Job, pids: seq<string>, clean: bool): Fit {
    (m: nat, r: Round) => RoundOk(pids, m, r) && (clean ==> AsProduced(world, job.(iteration := m), pids, r))
  }

  /** The property follows from that. */
  ghost predicate Follows(fit: Fit, world: World, job: Job, pids: seq<string>, clean: bool) {
    forall m: nat, r: Round {:trigger RoundOk(pids, m, r)} ::
      RoundOk(pids, m, r) && (clean ==> AsProduced(world, job.(iteration := m), pids, r)) ==> fit(m, r)
  }

  predicate AllFit(fit: Fit, rounds: seq<Round>) { forall k :: 0 <= k < |rounds| ==> fit(k + 1, rounds[k]) }

  /** One Invoke, whatever the schedule, leaves a round with every property that follows. */
  lemma InvokeFits(
    world: World, job: Job, job0: Job, pids: seq<string>, files: Files, log: seq<Event>, schedule: seq<nat>, s: State,
    clean: bool, fit: Fit)
    returns (r: Round)
    requires Distinct(pids) && DecimalPids(pids) && Indices(schedule, |pids|)
    requires job.iteration > 0 && job == job0.(iteration := job.iteration) && Follows(fit, world, job0, pids, clean)
    requires Honest(world, files, log) && UpTo(log, job.iteration - 1)
    requires clean ==> NoFilesAfter(files, job.iteration - 1)
    requires s == RunSchedule(world, job, pids, Outset(job, pids, files, log), schedule) && AllFinished(s)
    ensures r.slots == SlotsOf(s.tasks) && s.log + NoticesOf(pids, SlotsOf(s.tasks)) == log + EventsOf(pids, r)
    ensures fit(job.iteration, r)
    ensures Honest(world, s.files, log + EventsOf(pids, r)) && UpTo(log + EventsOf(pids, r), job.iteration)
    ensures clean ==> NoFilesAfter(s.files, job.iteration)
  {
    r := RoundOfInvoke(world, job, pids, files, log, schedule);
    if clean {
      DeliveredRound(world, job, pids, files, log, schedule, s, r);
    }
  }
}
