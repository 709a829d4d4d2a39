/**
 The tasks of one iteration, interleaved step by step over one file system and one event log:
 whatever the schedule, the outcome is the one of running the PIDs one after another.
 */
module Interleaving {
  import opened Text
  import opened ResultNames
  import opened Pipelines
  import opened Isolation

  datatype State = State(files: Files, tasks: seq<Task>, log: seq<Event>)

  predicate Indices(schedule: seq<nat>, n: nat) { forall k :: 0 <= k < |schedule| ==> schedule[k] < n }

  function StepTask(world: World, shared: Job, pids: seq<string>, s: State, i: nat): (r: State)
    requires |s.tasks| == |pids| && i < |pids|
    ensures |r.tasks| == |pids|
  {
    var e := Step(world, shared, pids[i], s.tasks[i], s.files);
    State(Apply(s.files, e.ops), s.tasks[i := e.task], s.log + e.events)
  }

  /** Which task moves next is the schedule's choice; a finished task stays as it is. */
  function RunSchedule(world: World, shared: Job, pids: seq<string>, s: State, schedule: seq<nat>): (r: State)
    requires |s.tasks| == |pids| && Indices(schedule, |pids|)
    ensures |r.tasks| == |pids|
  {
    if schedule == [] then s
    else
      var n := |schedule| - 1;
      StepTask(world, shared, pids, RunSchedule(world, shared, pids, s, schedule[..n]), schedule[n])
  }

  predicate AllFinished(s: State) { forall i :: 0 <= i < |s.tasks| ==> s.tasks[i].Finished? }

  // ---------- a task on its own ----------

  function Rank(t: Task): nat {
    match t
    case Finished(_) => 0
    case Running(pc, _) =>
      match pc
      case AtPerf(at) => (match at case Recording => 13 case CreateScript => 12 case Scripting => 11 case Folding => 10)
      case AtBpf => 10
      case WriteRaw(_) => 9
      case AtPprof(at) =>
        (match at
         case CopyJob => 14
         case PortScan => 13
         case Fetch(_) => 12
         case ConvertCpu(_) => 11
         case FetchHeap(_, _) => 10
         case ConvertHeap(_, _) => 9
         case WriteBoth(_, _, _) => 8)
      case AtAustin(at) =>
        (match at
         case Sampling => 14
         case CheckFormat => 13
         case Convert(_) => 12
         case Rename => 11
         case CheckSamples => 10
         case Annotate => 9)
      case AtFlame(at) => if at.CheckStacks? then 6 else 5
      case AtPublish(at) => (match at case Open(_) => 4 case Create(_, _) => 3 case Compress(_, _) => 2 case Emit => 1)
  }

  lemma PprofProgress(world: World, shared: Job, pid: string, names: Names, pc: PprofPc, job: Job, files: Files)
    ensures Rank(PprofStep(world, shared, pid, names, pc, job, files).task) < Rank(Running(AtPprof(pc), job))
  {
  }

  lemma AustinProgress(world: World, pid: string, names: Names, pc: AustinPc, job: Job, files: Files)
    ensures Rank(AustinStep(world, pid, names, pc, job, files).task) < Rank(Running(AtAustin(pc), job))
  {
  }

  lemma StepAtProgress(world: World, shared: Job, pid: string, names: Names, pc: Pc, job: Job, files: Files)
    ensures Rank(StepAt(world, shared, pid, names, pc, job, files).task) < Rank(Running(pc, job))
  {
    match pc
    case AtPprof(at) => PprofProgress(world, shared, pid, names, at, job, files);
    case AtAustin(at) => AustinProgress(world, pid, names, at, job, files);
    case _ =>
  }

  /** Every step of an unfinished task brings it nearer to its end. */
  lemma StepProgress(world: World, shared: Job, pid: string, t: Task, files: Files)
    requires t.Running?
    ensures Rank(Step(world, shared, pid, t, files).task) < Rank(t)
  {
    StepAtProgress(world, shared, pid, NamesOf(t.job, if t.job.tool == PProf then t.job.pid else pid), t.pc, t.job,
        files);
  }

  datatype Solo = Solo(files: Files, task: Task, events: seq<Event>)

  /** The task run to its end with nothing else going on. */
  function RunAlone(world: World, shared: Job, pid: string, t: Task, files: Files): Solo
    decreases Rank(t)
  {
    if t.Finished? then Solo(files, t, [])
    else
      StepProgress(world, shared, pid, t, files);
      var e := Step(world, shared, pid, t, files);
      var r := RunAlone(world, shared, pid, e.task, Apply(files, e.ops));
      r.(events := e.events + r.events)
  }

  /** What the task for `pids[i]` will have come to, judged by its own files alone. */
  function Prospect(world: World, shared: Job, pids: seq<string>, s: State, i: nat): Solo
    requires |s.tasks| == |pids| && i < |pids|
  {
    RunAlone(world, shared, pids[i], s.tasks[i], Restrict(s.files, OwnerKey(shared, pids[i])))
  }

  /** The results in the log that belong to a key. */
  function ResultsOf(log: seq<Event>, key: Key): seq<Event> {
    if log == [] then []
    else
      var e := log[|log| - 1];
      ResultsOf(log[..|log| - 1], key) + if e.Result? && Owns(key, e.file) then [e] else []
  }

  predicate DecimalPids(pids: seq<string>) { forall i :: 0 <= i < |pids| ==> IsDecimal(pids[i]) }

  predicate InOrder(shared: Job, pids: seq<string>, s: State) {
    && |s.tasks| == |pids|
    && Distinct(pids) && DecimalPids(pids)
    && forall i :: 0 <= i < |pids| ==> TaskOk(shared, pids[i], s.tasks[i])
  }

  // ---------- one step, seen from its own and from the other tasks ----------

  lemma StepOwn(world: World, shared: Job, pids: seq<string>, s: State, i: nat)
    requires InOrder(shared, pids, s) && i < |pids|
    ensures var s', e := StepTask(world, shared, pids, s, i), Step(world, shared, pids[i], s.tasks[i], s.files);
            && InOrder(shared, pids, s')
            && Prospect(world, shared, pids, s, i)
               == Prospect(world, shared, pids, s', i).(
                    events := e.events + Prospect(world, shared, pids, s', i).events)
  {
    var key := OwnerKey(shared, pids[i]);
    StepIsLocal(world, shared, pids[i], s.tasks[i], s.files);
    ApplyOwn(s.files, key, Step(world, shared, pids[i], s.tasks[i], s.files).ops);
  }

  lemma StepOther(world: World, shared: Job, pids: seq<string>, s: State, i: nat, j: nat)
    requires InOrder(shared, pids, s) && i < |pids| && j < |pids| && i != j
    ensures Prospect(world, shared, pids, StepTask(world, shared, pids, s, i), j) == Prospect(world, shared, pids, s, j)
  {
    StepIsLocal(world, shared, pids[i], s.tasks[i], s.files);
    ApplyOtherRestrict(s.files, OwnerKey(shared, pids[i]), Step(world, shared, pids[i], s.tasks[i], s.files).ops,
                       OwnerKey(shared, pids[j]));
  }

  // ---------- what no step changes ----------

  /** A task's final files, its final state, and all results it has announced or will announce. */
  function Ledger(world: World, shared: Job, pids: seq<string>, s: State, i: nat): Solo
    requires |s.tasks| == |pids| && i < |pids|
  {
    var p := Prospect(world, shared, pids, s, i);
    p.(events := ResultsOf(s.log, OwnerKey(shared, pids[i])) + p.events)
  }

  lemma ResultsOfAnnounced(log: seq<Event>, es: seq<Event>, key: Key)
    requires |es| <= 1 && forall e :: e in es ==> e.Result? && Owns(key, e.file)
    ensures ResultsOf(log + es, key) == ResultsOf(log, key) + es
    ensures forall other :: other != key ==> ResultsOf(log + es, other) == ResultsOf(log, other)
  {
    if es == [] {
      assert log + es == log;
    } else {
      assert (log + es)[..|log|] == log;
      assert es == [es[0]] && es[0] in es;
    }
  }

  lemma StepAnnouncesOwn(world: World, shared: Job, pids: seq<string>, s: State, i: nat)
    requires InOrder(shared, pids, s) && i < |pids|
    ensures var es := Step(world, shared, pids[i], s.tasks[i], s.files).events;
            |es| <= 1 && forall e :: e in es ==> e.Result? && Owns(OwnerKey(shared, pids[i]), e.file)
  {
    StepIsLocal(world, shared, pids[i], s.tasks[i], s.files);
    DerivedNamesOwned(shared, pids[i]);
  }

  lemma StepKeepsOwnLedger(world: World, shared: Job, pids: seq<string>, s: State, i: nat)
    requires InOrder(shared, pids, s) && i < |pids|
    ensures Ledger(world, shared, pids, StepTask(world, shared, pids, s, i), i) == Ledger(world, shared, pids, s, i)
  {
    var key := OwnerKey(shared, pids[i]);
    var es := Step(world, shared, pids[i], s.tasks[i], s.files).events;
    StepOwn(world, shared, pids, s, i);
    StepAnnouncesOwn(world, shared, pids, s, i);
    ResultsOfAnnounced(s.log, es, key);
    SameLedger(Prospect(world, shared, pids, s, i),
        Prospect(world, shared, pids, StepTask(world, shared, pids, s, i), i),
               ResultsOf(s.log, key), es);
  }

  lemma SameLedger(before: Solo, after: Solo, announced: seq<Event>, es: seq<Event>)
    requires before == after.(events := es + after.events)
    ensures before.(events := announced + before.events) == after.(events := (announced + es) + after.events)
  {
    assert announced + (es + after.events) == (announced + es) + after.events;
  }

  lemma StepKeepsOtherLedger(world: World, shared: Job, pids: seq<string>, s: State, i: nat, j: nat)
    requires InOrder(shared, pids, s) && i < |pids| && j < |pids| && i != j
    ensures Ledger(world, shared, pids, StepTask(world, shared, pids, s, i), j) == Ledger(world, shared, pids, s, j)
  {
    var es := Step(world, shared, pids[i], s.tasks[i], s.files).events;
    StepOther(world, shared, pids, s, i, j);
    var other := OwnerKey(shared, pids[j]);
    assert other != OwnerKey(shared, pids[i]);
    assert ResultsOf(s.log + es, other) == ResultsOf(s.log, other) by {
      StepAnnouncesOwn(world, shared, pids, s, i);
      ResultsOfAnnounced(s.log, es, OwnerKey(shared, pids[i]));
    }
  }

  lemma {:induction false} RunKeepsLedger(
    world: World, shared: Job, pids: seq<string>, s: State, schedule: seq<nat>, j: nat)
    requires InOrder(shared, pids, s) && Indices(schedule, |pids|) && j < |pids|
    ensures var s' := RunSchedule(world, shared, pids, s, schedule);
            InOrder(shared, pids, s') && Ledger(world, shared, pids, s', j) == Ledger(world, shared, pids, s, j)
    decreases |schedule|
  {
    if schedule != [] {
      var n := |schedule| - 1;
      RunKeepsLedger(world, shared, pids, s, schedule[..n], j);
      var mid := RunSchedule(world, shared, pids, s, schedule[..n]);
      StepOwn(world, shared, pids, mid, schedule[n]);
      if schedule[n] == j {
        StepKeepsOwnLedger(world, shared, pids, mid, j);
      } else {
        StepKeepsOtherLedger(world, shared, pids, mid, schedule[n], j);
      }
    }
  }

  /** Files of no task's key are left alone, and the log only grows, by results of the tasks' keys. */
  ghost predicate OnlyOwn(shared: Job, pids: seq<string>, s: State, s': State) {
    && (forall name :: KeyOf(name) !in Keys(shared, pids) ==> Look(s'.files, name) == Look(s.files, name))
    && s.log <= s'.log
    && (forall k :: |s.log| <= k < |s'.log| ==> s'.log[k].Result? && KeyOf(s'.log[k].file) in Keys(shared, pids))
  }

  function Keys(shared: Job, pids: seq<string>): set<Key> {
    set i | 0 <= i < |pids| :: OwnerKey(shared, pids[i])
  }

  lemma StepOnlyOwn(world: World, shared: Job, pids: seq<string>, s: State, i: nat)
    requires InOrder(shared, pids, s) && i < |pids|
    ensures OnlyOwn(shared, pids, s, StepTask(world, shared, pids, s, i))
  {
    var key, e := OwnerKey(shared, pids[i]), Step(world, shared, pids[i], s.tasks[i], s.files);
    StepIsLocal(world, shared, pids[i], s.tasks[i], s.files);
    StepAnnouncesOwn(world, shared, pids, s, i);
    assert key in Keys(shared, pids);
    forall name | KeyOf(name) !in Keys(shared, pids)
      ensures Look(Apply(s.files, e.ops), name) == Look(s.files, name)
    {
      ApplyOther(s.files, key, e.ops, name);
    }
    forall k | |s.log| <= k < |s.log + e.events|
      ensures (s.log + e.events)[k].Result? && KeyOf((s.log + e.events)[k].file) in Keys(shared, pids)
    {
      assert (s.log + e.events)[k] in e.events;
    }
  }

  lemma {:induction false} RunOnlyOwn(world: World, shared: Job, pids: seq<string>, s: State, schedule: seq<nat>)
    requires InOrder(shared, pids, s) && Indices(schedule, |pids|)
    ensures InOrder(shared, pids, RunSchedule(world, shared, pids, s, schedule))
    ensures OnlyOwn(shared, pids, s, RunSchedule(world, shared, pids, s, schedule))
    decreases |schedule|
  {
    if schedule != [] {
      var n := |schedule| - 1;
      RunOnlyOwn(world, shared, pids, s, schedule[..n]);
      var mid := RunSchedule(world, shared, pids, s, schedule[..n]);
      StepOnlyOwn(world, shared, pids, mid, schedule[n]);
      StepOwn(world, shared, pids, mid, schedule[n]);
    }
  }

  // ---------- schedule independence ----------

  /** How often an event is in a log. */
  function Count(log: seq<Event>, e: Event): nat {
    if log == [] then 0 else Count(log[..|log| - 1], e) + if log[|log| - 1] == e then 1 else 0
  }

  lemma {:induction false} CountIsMultiplicity(log: seq<Event>, e: Event)
    ensures Count(log, e) == multiset(log)[e]
  {
    if log != [] {
      CountIsMultiplicity(log[..|log| - 1], e);
      assert log == log[..|log| - 1] + [log[|log| - 1]];
    }
  }

  lemma CountSnoc(log: seq<Event>, e: Event, last: Event)
    ensures Count(log + [last], e) == Count(log, e) + if last == e then 1 else 0
  {
    assert (log + [last])[..|log|] == log;
  }

  lemma ResultsOfSnoc(log: seq<Event>, last: Event, key: Key)
    ensures ResultsOf(log + [last], key) ==
              if last.Result? && KeyOf(last.file) == key then ResultsOf(log, key) + [last] else ResultsOf(log, key)
  {
    assert (log + [last])[..|log|] == log;
  }

  lemma CountsNext(before: seq<Event>, last: Event, e: Event, key: Key)
    requires e.Result? && Owns(key, e.file) && Count(ResultsOf(before, key), e) == Count(before, e)
    ensures Count(ResultsOf(before + [last], key), e) == Count(before + [last], e)
  {
    CountSnoc(before, e, last);
    ResultsOfSnoc(before, last, key);
    CountSnoc(ResultsOf(before, key), e, last);
  }

  lemma {:induction false} ResultsOfCounts(log: seq<Event>, e: Event, key: Key)
    requires e.Result? && Owns(key, e.file)
    ensures Count(ResultsOf(log, key), e) == Count(log, e)
  {
    if log != [] {
      var before, last := log[..|log| - 1], log[|log| - 1];
      ResultsOfCounts(before, e, key);
      CountsNext(before, last, e, key);
      assert before + [last] == log;
    }
  }

  /** The results of an event's own key say how often it is in the log. */
  lemma SameResultsSameCount(a: seq<Event>, b: seq<Event>, e: Event)
    requires e.Result? && ResultsOf(a, KeyOf(e.file)) == ResultsOf(b, KeyOf(e.file))
    ensures multiset(a)[e] == multiset(b)[e]
  {
    ResultsOfCounts(a, e, KeyOf(e.file));
    ResultsOfCounts(b, e, KeyOf(e.file));
    CountIsMultiplicity(a, e);
    CountIsMultiplicity(b, e);
  }

  /**
   Two logs that grew from the same one by results of the same keys, with the same results per key, agree up to
   order.
   */
  lemma SameResultsSameLog(log: seq<Event>, a: seq<Event>, b: seq<Event>, keys: set<Key>)
    requires forall e :: e in a || e in b ==> e.Result? && KeyOf(e.file) in keys
    requires forall key :: key in keys ==> ResultsOf(log + a, key) == ResultsOf(log + b, key)
    ensures multiset(log + a) == multiset(log + b)
  {
    forall e: Event
      ensures multiset(log + a)[e] == multiset(log + b)[e]
    {
      if e in a || e in b {
        SameResultsSameCount(log + a, log + b, e);
      } else {
        assert multiset(a)[e] == 0 == multiset(b)[e];
        assert multiset(log + a)[e] == multiset(log)[e] + multiset(a)[e];
        assert multiset(log + b)[e] == multiset(log)[e] + multiset(b)[e];
      }
    }
  }

  lemma FinishedLedger(world: World, shared: Job, pids: seq<string>, s: State, i: nat)
    requires InOrder(shared, pids, s) && AllFinished(s) && i < |pids|
    ensures var key := OwnerKey(shared, pids[i]);
            Ledger(world, shared, pids, s, i) == Solo(Restrict(s.files, key), s.tasks[i], ResultsOf(s.log, key))
  {
    assert ResultsOf(s.log, OwnerKey(shared, pids[i])) + [] == ResultsOf(s.log, OwnerKey(shared, pids[i]));
  }

  lemma FinalPart(world: World, shared: Job, pids: seq<string>, s: State, schedule: seq<nat>, i: nat)
    requires InOrder(shared, pids, s) && Indices(schedule, |pids|) && i < |pids|
    requires AllFinished(RunSchedule(world, shared, pids, s, schedule))
    ensures var key, s' := OwnerKey(shared, pids[i]), RunSchedule(world, shared, pids, s, schedule);
            Ledger(world, shared, pids, s, i) == Solo(Restrict(s'.files, key), s'.tasks[i], ResultsOf(s'.log, key))
  {
    RunKeepsLedger(world, shared, pids, s, schedule, i);
    FinishedLedger(world, shared, pids, RunSchedule(world, shared, pids, s, schedule), i);
  }

  lemma LookOfRestriction(f: Files, g: Files, key: Key, name: string)
    requires Restrict(f, key) == Restrict(g, key) && Owns(key, name)
    ensures Look(f, name) == Look(g, name)
  {
    LookRestrict(f, key, name);
    LookRestrict(g, key, name);
  }

  lemma SameFiles(f: Files, g: Files)
    requires forall name :: Look(f, name) == Look(g, name)
    ensures f == g
  {
    forall name | name in f || name in g
      ensures name in f && name in g && f[name] == g[name]
    {
      assert Look(f, name) == Look(g, name);
    }
  }

  /**
   Any two schedules that let every task finish end with the same files, the same per-PID outcomes and
   the same events up to their order; the results of each single PID even come in the same order.
   */
  lemma ScheduleIndependence(world: World, shared: Job, pids: seq<string>, s: State, a: seq<nat>, b: seq<nat>)
    requires InOrder(shared, pids, s) && Indices(a, |pids|) && Indices(b, |pids|)
    requires AllFinished(RunSchedule(world, shared, pids, s, a))
    requires AllFinished(RunSchedule(world, shared, pids, s, b))
    ensures var sa, sb := RunSchedule(world, shared, pids, s, a), RunSchedule(world, shared, pids, s, b);
            && sa.files == sb.files
            && sa.tasks == sb.tasks
            && multiset(sa.log) == multiset(sb.log)
            && forall i :: 0 <= i < |pids| ==>
                 ResultsOf(sa.log, OwnerKey(shared, pids[i])) == ResultsOf(sb.log, OwnerKey(shared, pids[i]))
  {
    var sa, sb := RunSchedule(world, shared, pids, s, a), RunSchedule(world, shared, pids, s, b);
    forall i | 0 <= i < |pids|
      ensures sa.tasks[i] == sb.tasks[i]
      ensures Restrict(sa.files, OwnerKey(shared, pids[i])) == Restrict(sb.files, OwnerKey(shared, pids[i]))
      ensures ResultsOf(sa.log, OwnerKey(shared, pids[i])) == ResultsOf(sb.log, OwnerKey(shared, pids[i]))
    {
      FinalPart(world, shared, pids, s, a, i);
      FinalPart(world, shared, pids, s, b, i);
    }
    RunOnlyOwn(world, shared, pids, s, a);
    RunOnlyOwn(world, shared, pids, s, b);
    SameOutcome(shared, pids, s, sa, sb);
  }

  lemma SameOutcome(shared: Job, pids: seq<string>, s: State, sa: State, sb: State)
    requires |sa.tasks| == |sb.tasks| == |pids|
    requires OnlyOwn(shared, pids, s, sa) && OnlyOwn(shared, pids, s, sb)
    requires forall i :: 0 <= i < |pids| ==>
      && Restrict(sa.files, OwnerKey(shared, pids[i])) == Restrict(sb.files, OwnerKey(shared, pids[i]))
      && ResultsOf(sa.log, OwnerKey(shared, pids[i])) == ResultsOf(sb.log, OwnerKey(shared, pids[i]))
    ensures sa.files == sb.files && multiset(sa.log) == multiset(sb.log)
  {
    var keys := Keys(shared, pids);
    forall name
      ensures Look(sa.files, name) == Look(sb.files, name)
    {
      if KeyOf(name) in keys {
        var i :| 0 <= i < |pids| && OwnerKey(shared, pids[i]) == KeyOf(name);
        LookOfRestriction(sa.files, sb.files, OwnerKey(shared, pids[i]), name);
      }
    }
    SameFiles(sa.files, sb.files);
    var newA, newB := sa.log[|s.log|..], sb.log[|s.log|..];
    assert sa.log == s.log + newA && sb.log == s.log + newB;
    forall key | key in keys
      ensures ResultsOf(s.log + newA, key) == ResultsOf(s.log + newB, key)
    {
      var i :| 0 <= i < |pids| && OwnerKey(shared, pids[i]) == key;
    }
    SameResultsSameLog(s.log, newA, newB, keys);
  }

  // ---------- one after another ----------

  /** No task moves before all tasks of earlier PIDs are through. */
  predicate OneByOne(schedule: seq<nat>) { forall k, m :: 0 <= k < m < |schedule| ==> schedule[k] <= schedule[m] }

  lemma StepNearer(world: World, shared: Job, pids: seq<string>, s: State, i: nat)
    requires |s.tasks| == |pids| && i < |pids| && s.tasks[i].Running?
    ensures var s' := StepTask(world, shared, pids, s, i);
            Rank(s'.tasks[i]) < Rank(s.tasks[i]) && forall j :: 0 <= j < |pids| && j != i ==> s'.tasks[j] == s.tasks[j]
  {
    StepProgress(world, shared, pids[i], s.tasks[i], s.files);
  }

  /** The task for `pids[i]` runs to its end. */
  lemma {:induction false} FinishTask(world: World, shared: Job, pids: seq<string>, s: State, before: seq<nat>, i: nat)
    returns (schedule: seq<nat>)
    requires |s.tasks| == |pids| && i < |pids| && Indices(before, |pids|)
    requires OneByOne(before) && forall k :: 0 <= k < |before| ==> before[k] <= i
    requires forall j :: 0 <= j < i ==> RunSchedule(world, shared, pids, s, before).tasks[j].Finished?
    ensures Indices(schedule, |pids|) && OneByOne(schedule) && forall k :: 0 <= k < |schedule| ==> schedule[k] <= i
    ensures forall j :: 0 <= j <= i ==> RunSchedule(world, shared, pids, s, schedule).tasks[j].Finished?
    decreases Rank(RunSchedule(world, shared, pids, s, before).tasks[i])
  {
    var now := RunSchedule(world, shared, pids, s, before);
    if now.tasks[i].Finished? {
      schedule := before;
    } else {
      StepNearer(world, shared, pids, now, i);
      assert (before + [i])[..|before|] == before;
      schedule := FinishTask(world, shared, pids, s, before + [i], i);
    }
  }

  lemma {:induction false} FinishTasks(
    world: World, shared: Job, pids: seq<string>, s: State, n: nat)
    returns (schedule: seq<nat>)
    requires |s.tasks| == |pids| && n <= |pids|
    ensures Indices(schedule, |pids|) && OneByOne(schedule) && forall k :: 0 <= k < |schedule| ==> schedule[k] < n
    ensures forall j :: 0 <= j < n ==> RunSchedule(world, shared, pids, s, schedule).tasks[j].Finished?
  {
    schedule := [];
    if n > 0 {
      var before := FinishTasks(world, shared, pids, s, n - 1);
      schedule := FinishTask(world, shared, pids, s, before, n - 1);
    }
  }

  /** Running the PIDs one after another is a schedule too, and any other one that finishes ends just as it does. */
  lemma SameAsOneByOne(
    world: World, shared: Job, pids: seq<string>, s: State, schedule: seq<nat>)
    returns (sequential: seq<nat>)
    requires InOrder(shared, pids, s) && Indices(schedule, |pids|)
    requires AllFinished(RunSchedule(world, shared, pids, s, schedule))
    ensures Indices(sequential, |pids|) && OneByOne(sequential)
    ensures var sa := RunSchedule(world, shared, pids, s, schedule);
            var sb := RunSchedule(world, shared, pids, s, sequential);
            AllFinished(sb) && sa.files == sb.files && sa.tasks == sb.tasks && multiset(sa.log) == multiset(sb.log)
  {
    sequential := FinishTasks(world, shared, pids, s, |pids|);
    ScheduleIndependence(world, shared, pids, s, schedule, sequential);
  }
}
