/** The agent's run engine: iterations of staggered, concurrent per-PID tasks over shared files and one event log. */
module AgentEngine {
  import opened Text
  import opened Pipelines
  import opened Isolation
  import opened Interleaving
  import opened Publication
  import opened Verdicts
  import opened Rounds
  import opened Deliveries
  import EndToEnd
  import opened Pacing
  import opened ProcessTree

  /**
   What happens next while an Invoke is under way: the next task is started, `late` after its turn, or
   a started task does one step, taking `took`.
   */
  datatype Move = Spawn(late: nat) | Advance(task: nat, took: nat)

  function Max(a: nat, b: nat): nat { if a < b then b else a }

  /** Tasks start in order, each at least `delay` after the one before. */
  predicate Staggered(starts: seq<nat>, delay: nat) {
    forall i :: 0 < i < |starts| ==> starts[i] >= starts[i - 1] + delay
  }

  /** Task i starts no earlier than i delays after the first one. */
  lemma {:induction false} StaggeredStart(starts: seq<nat>, delay: nat, i: nat)
    requires Staggered(starts, delay) && i < |starts|
    ensures starts[i] >= starts[0] + i * delay
  {
    if i > 0 {
      StaggeredStart(starts, delay, i - 1);
      assert i * delay == (i - 1) * delay + delay;
    }
  }

  // ---------- runs ----------

  datatype RunResult = Completed | SetupError(reason: string) | InvokeError(verdict: Verdict)

  /** The rounds of a run: all succeeded, except the last one of a run that an Invoke ended, with its verdict. */
  ghost predicate RoundsFit(pids: seq<string>, rounds: seq<Round>, result: RunResult, iterations: nat) {
    match result
       case Completed => |rounds| == iterations && AllSucceeded(pids, rounds)
       case SetupError(_) => rounds == []
       case InvokeError(verdict) =>
         && 0 < |rounds| <= iterations && AllSucceeded(pids, rounds[..|rounds| - 1])
         && |rounds[|rounds| - 1].slots| == |pids|
         && verdict == VerdictOf(pids, rounds[|rounds| - 1].slots) && verdict != Success
  }

  /** Each round holds one result per PID that succeeded in it. */
  predicate RoundsOk(pids: seq<string>, rounds: seq<Round>) {
    forall k :: 0 <= k < |rounds| ==> RoundOk(pids, k + 1, rounds[k])
  }

  predicate AllSucceeded(pids: seq<string>, rounds: seq<Round>) {
    forall k :: 0 <= k < |rounds| ==> |rounds[k].slots| == |pids| && VerdictOf(pids, rounds[k].slots) == Success
  }

  /** In every iteration all outcomes, results and their contents are those the tools' references give. */
  ghost predicate RoundsProduced(world: World, job: Job, pids: seq<string>, rounds: seq<Round>) {
    forall k :: 0 <= k < |rounds| ==> AsProduced(world, job.(iteration := k + 1), pids, rounds[k])
  }

  function Lateness(late: nat -> nat, n: nat): (r: seq<nat>)
    ensures |r| == n
  {
    if n == 0 then [] else Lateness(late, n - 1) + [late(n - 1)]
  }

  lemma StoppedFits(pids: seq<string>, rounds: seq<Round>, verdict: Verdict, iterations: nat)
    requires 0 < |rounds| <= iterations && AllSucceeded(pids, rounds[..|rounds| - 1])
    requires |rounds[|rounds| - 1].slots| == |pids|
    requires verdict == VerdictOf(pids, rounds[|rounds| - 1].slots) && verdict != Success
    ensures RoundsFit(pids, rounds, InvokeError(verdict), iterations)
  {
  }

  lemma AllButLast(pids: seq<string>, rounds: seq<Round>)
    requires rounds != [] && AllSucceeded(pids, rounds[..|rounds| - 1])
    requires |rounds[|rounds| - 1].slots| == |pids| && VerdictOf(pids, rounds[|rounds| - 1].slots) == Success
    ensures AllSucceeded(pids, rounds)
  {
    assert rounds == rounds[..|rounds| - 1] + [rounds[|rounds| - 1]];
  }

  /** The first n iterations kept pace: `marks` holds the times after each. */
  predicate InPace(marks: seq<nat>, took: seq<nat>, late: nat -> nat, n: nat, pausing: bool, interval: nat) {
    |marks| == n + 1 && |took| == n && (pausing ==> Paced(marks, took, Lateness(late, n), interval))
  }

  /** And the last of these times is now. */
  predicate Timed(marks: seq<nat>, took: seq<nat>, late: nat -> nat, n: nat, pausing: bool, interval: nat, now: nat) {
    InPace(marks, took, late, n, pausing, interval) && marks[n] == now
  }

  lemma TimedNext(
    marks: seq<nat>, took: seq<nat>, late: nat -> nat, n: nat, pausing: bool, interval: nat, now: nat, d: nat)
    requires |marks| == n + 1 && Timed(marks, took, late, n, pausing, interval, marks[n])
    requires pausing ==> now == marks[n] + d + PauseAfter(interval, d, late(n))
    ensures Timed(marks + [now], took + [d], late, n + 1, pausing, interval, now)
  {
    if pausing {
      PacedSnoc(marks, took, Lateness(late, n), interval, now, d, late(n));
    }
  }

  class Agent {
    var files: Files
    var log: seq<Event>
    var job: Job
    var clock: nat

    constructor (job: Job)
      ensures this.job == job && files == map[] && log == [] && clock == 0
    {
      this.job := job;
      files, log, clock := map[], [], 0;
    }

    /** One step of one task, over the shared files and log. A task that ends fills its own error slot. */
    method StepOne(world: World, pids: seq<string>, tasks: array<Task>, errs: array<Slot>, i: nat)
      requires tasks.Length == errs.Length == |pids| && i < |pids|
      requires errs[..] == SlotsOf(tasks[..])
      modifies this`files, this`log, tasks, errs
      ensures State(files, tasks[..], log) == StepTask(world, job, pids, old(State(files, tasks[..], log)), i)
      ensures errs[..] == SlotsOf(tasks[..])
      ensures forall j :: 0 <= j < |pids| && j != i ==> tasks[j] == old(tasks[j])
      ensures old(tasks[i]).Running? ==> Rank(tasks[i]) < old(Rank(tasks[i]))
    {
      var e := Step(world, job, pids[i], tasks[i], files);
      if tasks[i].Running? {
        StepProgress(world, job, pids[i], tasks[i], files);
      }
      files := Apply(files, e.ops);
      log := log + e.events;
      tasks[i] := e.task;
      errs[i] := SlotOf(e.task);
    }

    /** The state is the one `schedule` leads to from `s0`, and the slots hold the errors so far. */
    ghost predicate Reached(
      world: World, pids: seq<string>, tasks: array<Task>, errs: array<Slot>, s0: State, schedule: seq<nat>)
      reads this, tasks, errs
    {
      && tasks.Length == errs.Length == |pids| == |s0.tasks|
      && Indices(schedule, |pids|)
      && errs[..] == SlotsOf(tasks[..])
      && State(files, tasks[..], log) == RunSchedule(world, job, pids, s0, schedule)
    }

    method Turn(
      world: World, pids: seq<string>, tasks: array<Task>, errs: array<Slot>, i: nat, ghost s0: State,
      ghost before: seq<nat>)
      returns (ghost schedule: seq<nat>)
      requires Reached(world, pids, tasks, errs, s0, before) && i < |pids|
      modifies this`files, this`log, tasks, errs
      ensures Reached(world, pids, tasks, errs, s0, schedule)
      ensures forall j :: 0 <= j < |pids| && j != i ==> tasks[j] == old(tasks[j])
      ensures old(tasks[i]).Running? ==> Rank(tasks[i]) < old(Rank(tasks[i]))
    {
      StepOne(world, pids, tasks, errs, i);
      schedule := before + [i];
      assert schedule[..|before|] == before;
    }

    /** The next task starts: `delay` after the previous one at the earliest, and `late` after that. */
    method Start(before: seq<nat>, delay: nat, late: nat) returns (starts: seq<nat>)
      requires Staggered(before, delay) && forall i :: 0 <= i < |before| ==> before[i] <= clock
      modifies this`clock
      ensures |starts| == |before| + 1 && before <= starts && Staggered(starts, delay)
      ensures old(clock) <= clock == starts[|before|]
    {
      if |before| > 0 {
        clock := Max(clock, before[|before| - 1] + delay);
      }
      clock := clock + late;
      starts := before + [clock];
    }

    /** One move; tasks not started yet cannot do a step. */
    method PlayOne(
      world: World, pids: seq<string>, delay: nat, move: Move, tasks: array<Task>, errs: array<Slot>, before: seq<nat>,
      ghost s0: State, ghost so: seq<nat>)
      returns (starts: seq<nat>, ghost schedule: seq<nat>)
      requires Reached(world, pids, tasks, errs, s0, so)
      requires |before| <= |pids| && Staggered(before, delay) && forall i :: 0 <= i < |before| ==> before[i] <= clock
      modifies this`files, this`log, this`clock, tasks, errs
      ensures Reached(world, pids, tasks, errs, s0, schedule)
      ensures |starts| <= |pids| && Staggered(starts, delay) && before <= starts
      ensures old(clock) <= clock && forall i :: |before| <= i < |starts| ==> old(clock) <= starts[i] <= clock
    {
      starts, schedule := before, so;
      match move {
        case Spawn(late) =>
          if |starts| < |pids| {
            starts := Start(starts, delay, late);
          }
        case Advance(i, took) =>
          clock := clock + took;
          if i < |starts| {
            schedule := Turn(world, pids, tasks, errs, i, s0, schedule);
          }
      }
    }

    /** Starts the tasks and lets them move, until all are started and the moves are used up. */
    method Play(
      world: World, pids: seq<string>, delay: nat, moves: seq<Move>, tasks: array<Task>, errs: array<Slot>,
          ghost s0: State)
      returns (starts: seq<nat>, ghost schedule: seq<nat>)
      requires Reached(world, pids, tasks, errs, s0, [])
      modifies this`files, this`log, this`clock, tasks, errs
      ensures Reached(world, pids, tasks, errs, s0, schedule)
      ensures |starts| == |pids| && Staggered(starts, delay)
      ensures clock >= old(clock) && forall i :: 0 <= i < |starts| ==> old(clock) <= starts[i] <= clock
    {
      schedule, starts := [], [];
      for k := 0 to |moves|
        invariant Reached(world, pids, tasks, errs, s0, schedule)
        invariant |starts| <= |pids| && Staggered(starts, delay)
        invariant clock >= old(clock) && forall i :: 0 <= i < |starts| ==> old(clock) <= starts[i] <= clock
      {
        starts, schedule := PlayOne(world, pids, delay, moves[k], tasks, errs, starts, s0, schedule);
      }
      while |starts| < |pids|
        invariant |starts| <= |pids| && Staggered(starts, delay)
        invariant Reached(world, pids, tasks, errs, s0, schedule)
        invariant clock >= old(clock) && forall i :: 0 <= i < |starts| ==> old(clock) <= starts[i] <= clock
      {
        starts := Start(starts, delay, 0);
      }
    }

    /**
     Profiles every PID once. For any moves the outcome is that of some complete schedule of the tasks;
     the job all tasks share is not touched.
     */
    method ProfilePIDs(world: World, pids: seq<string>, delay: nat, moves: seq<Move>)
      returns (verdict: Verdict, starts: seq<nat>, ghost schedule: seq<nat>)
      modifies this`files, this`log, this`clock
      ensures Indices(schedule, |pids|)
      ensures var s := RunSchedule(world, job, pids, Outset(job, pids, old(files), old(log)), schedule);
              && AllFinished(s)
              && files == s.files
              && log == s.log + NoticesOf(pids, SlotsOf(s.tasks))
              && verdict == VerdictOf(pids, SlotsOf(s.tasks))
      ensures |starts| == |pids| && Staggered(starts, delay)
      ensures clock >= old(clock) && forall i :: 0 <= i < |starts| ==> old(clock) <= starts[i] <= clock
    {
      if |pids| == 0 {
        return NoPids, [], [];
      }
      ghost var s0 := Outset(job, pids, files, log);
      var shared := job;
      var tasks := new Task[|pids|](_ => Fresh(shared));
      var errs := new Slot[|pids|](_ => None);
      assert tasks[..] == s0.tasks;
      assert errs[..] == SlotsOf(tasks[..]);
      starts, schedule := Play(world, pids, delay, moves, tasks, errs, s0);
      schedule := Wait(world, pids, tasks, errs, s0, schedule);
      var notices;
      verdict, notices := Judge(pids, errs);
      log := log + notices;
    }

    /** Waits for every task: whatever is left to do is done. */
    method Wait(
      world: World, pids: seq<string>, tasks: array<Task>, errs: array<Slot>, ghost s0: State, ghost before: seq<nat>)
      returns (ghost schedule: seq<nat>)
      requires Reached(world, pids, tasks, errs, s0, before)
      modifies this`files, this`log, tasks, errs
      ensures Reached(world, pids, tasks, errs, s0, schedule)
      ensures AllFinished(State(files, tasks[..], log))
    {
      schedule := before;
      for i := 0 to |pids|
        invariant Reached(world, pids, tasks, errs, s0, schedule)
        invariant forall j :: 0 <= j < i ==> tasks[j].Finished?
      {
        while tasks[i].Running?
          invariant Reached(world, pids, tasks, errs, s0, schedule)
          invariant forall j :: 0 <= j < i ==> tasks[j].Finished?
          decreases Rank(tasks[i])
        {
          schedule := Turn(world, pids, tasks, errs, i, s0, schedule);
        }
      }
    }

    /**
     One iteration: its Invoke, and the pause that fills the interval when there are more to come. The round it
     leaves `fit`s: one result per PID that succeeded and, over a clean file system, all as the references say.
     */
    method Iterate(
      world: World, pids: seq<string>, delay: nat, moves: seq<Move>, late: nat, pausing: bool,
      ghost job0: Job, ghost clean: bool, ghost fit: Fit)
      returns (verdict: Verdict, took: nat, ghost round: Round)
      requires Distinct(pids) && DecimalPids(pids) && Follows(fit, world, job0, pids, clean)
      requires job.iteration > 0 && job == job0.(iteration := job.iteration)
      requires Honest(world, files, log) && UpTo(log, job.iteration - 1)
      requires clean ==> NoFilesAfter(files, job.iteration - 1)
      modifies this`files, this`log, this`clock
      ensures log == old(log) + EventsOf(pids, round) && fit(job.iteration, round)
      ensures |round.slots| == |pids| && verdict == VerdictOf(pids, round.slots)
      ensures Honest(world, files, log) && UpTo(log, job.iteration)
      ensures clean ==> NoFilesAfter(files, job.iteration)
      ensures verdict == Success ==>
                clock == old(clock) + took + if pausing then PauseAfter(job.seconds, took, late) else 0
    {
      verdict, took, round := Invoke(world, pids, delay, moves, job0, clean, fit);
      if verdict == Success && pausing && took < job.seconds * SECOND {
        PauseFills(job.seconds, took);
        clock := clock + PauseAfter(job.seconds, took, late);
      }
    }

    /** The PIDs are profiled, and the time it takes is measured. */
    method Invoke(
      world: World, pids: seq<string>, delay: nat, moves: seq<Move>, ghost job0: Job, ghost clean: bool, ghost fit: Fit)
      returns (verdict: Verdict, took: nat, ghost round: Round)
      requires Distinct(pids) && DecimalPids(pids) && Follows(fit, world, job0, pids, clean)
      requires job.iteration > 0 && job == job0.(iteration := job.iteration)
      requires Honest(world, files, log) && UpTo(log, job.iteration - 1)
      requires clean ==> NoFilesAfter(files, job.iteration - 1)
      modifies this`files, this`log, this`clock
      ensures log == old(log) + EventsOf(pids, round) && fit(job.iteration, round)
      ensures |round.slots| == |pids| && verdict == VerdictOf(pids, round.slots)
      ensures Honest(world, files, log) && UpTo(log, job.iteration)
      ensures clean ==> NoFilesAfter(files, job.iteration)
      ensures clock == old(clock) + took
    {
      var begin := clock;
      ghost var schedule;
      var starts;
      verdict, starts, schedule := ProfilePIDs(world, pids, delay, moves);
      round := InvokeFits(world, job, job0, pids, old(files), old(log), schedule,
                          RunSchedule(world, job, pids, Outset(job, pids, old(files), old(log)), schedule), clean, fit);
      took := clock - begin;
    }

    /**
     A run: Started, SetUp, the iterations, and Ended if all went well. `moves(i)` and `late(i)` say how
     iteration i is interleaved and how much its pause oversleeps. Every round has each property `fit` that
     follows from its results being counted right and, over a clean file system, being as produced.
     */
    method Run(
      world: World, setup: Setup, duration: nat, delay: nat, moves: nat -> seq<Move>, late: nat -> nat,
      ghost clean: bool, ghost fit: Fit)
      returns (result: RunResult, marks: seq<nat>, took: seq<nat>, ghost rounds: seq<Round>)
      requires 0 < job.seconds <= duration
      requires log == []
      requires setup.Ready? ==>
        && Distinct(setup.pids) && DecimalPids(setup.pids)
        && Follows(fit, world, job, setup.pids, clean)
        && forall k :: 0 <= k < |setup.notices| ==> setup.notices[k].ManyPids?
      requires clean ==> NoFilesAfter(files, 0)
      modifies this
      ensures log == [Started] + (if setup.Ready? then setup.notices + Flatten(setup.pids, rounds) else [])
                     + if result == Completed then [Ended] else []
      ensures setup.SetupFailed? ==> result == SetupError(setup.reason) && rounds == []
      ensures setup.Ready? ==>
                && !result.SetupError?
                && RoundsFit(setup.pids, rounds, result, Iterations(duration, old(job.seconds)))
                && AllFit(fit, rounds)
      ensures Honest(world, files, log)
      ensures setup.Ready? ==>
                InPace(marks, took, late, |rounds| - if result == Completed then 0 else 1,
                       Iterations(duration, old(job.seconds)) > 1, old(job.seconds))
      ensures job == old(job).(iteration := job.iteration)
    {
      rounds, marks, took := [], [], [];
      log := log + [Started];
      match setup {
        case SetupFailed(reason) =>
          assert log == [Started] + [] + [];
          return SetupError(reason), marks, took, rounds;
        case Ready(pids, notices) =>
          log := log + notices;
          assert log == [Started] + notices;
          result, marks, took, rounds := IterateAll(world, pids, duration, delay, moves, late, clean, fit);
          assert log == [Started] + (notices + Flatten(pids, rounds)) + [];
          if result == Completed {
            log := log + [Ended];
          }
      }
    }

    /** The state of the loop after the iterations of `rounds`. */
    ghost predicate Underway(
      world: World, pids: seq<string>, job0: Job, log0: seq<Event>, clean: bool, fit: Fit, rounds: seq<Round>)
      reads this
    {
      && log == log0 + Flatten(pids, rounds) && AllFit(fit, rounds)
      && Honest(world, files, log) && UpTo(log, |rounds|)
      && (clean ==> NoFilesAfter(files, |rounds|))
      && job == job0.(iteration := job.iteration)
    }

    /** The next iteration of the loop. */
    method IterateNext(
      world: World, pids: seq<string>, delay: nat, moves: seq<Move>, late: nat, pausing: bool, i: nat,
      ghost job0: Job, ghost log0: seq<Event>, ghost clean: bool, ghost fit: Fit, ghost rounds: seq<Round>)
      returns (verdict: Verdict, took: nat, ghost rounds': seq<Round>)
      requires Distinct(pids) && DecimalPids(pids) && Follows(fit, world, job0, pids, clean)
      requires |rounds| == i && Underway(world, pids, job0, log0, clean, fit, rounds)
      modifies this
      ensures |rounds'| == i + 1 && rounds'[..i] == rounds && Underway(world, pids, job0, log0, clean, fit, rounds')
      ensures |rounds'[i].slots| == |pids| && verdict == VerdictOf(pids, rounds'[i].slots)
      ensures verdict == Success ==>
                clock == old(clock) + took + if pausing then PauseAfter(job.seconds, took, late) else 0
    {
      job := job.(iteration := i + 1);
      ghost var round;
      verdict, took, round := Iterate(world, pids, delay, moves, late, pausing, job0, clean, fit);
      FlattenSnoc(pids, log0, rounds, round);
      rounds' := rounds + [round];
    }

    method IterateAll(
      world: World, pids: seq<string>, duration: nat, delay: nat, moves: nat -> seq<Move>, late: nat -> nat,
      ghost clean: bool, ghost fit: Fit)
      returns (result: RunResult, marks: seq<nat>, took: seq<nat>, ghost rounds: seq<Round>)
      requires 0 < job.seconds <= duration
      requires Distinct(pids) && DecimalPids(pids) && Follows(fit, world, job, pids, clean)
      requires Honest(world, files, log) && UpTo(log, 0) && (clean ==> NoFilesAfter(files, 0))
      modifies this
      ensures log == old(log) + Flatten(pids, rounds) && AllFit(fit, rounds)
      ensures RoundsFit(pids, rounds, result, Iterations(duration, old(job.seconds))) && !result.SetupError?
      ensures Honest(world, files, log)
      ensures InPace(marks, took, late, |rounds| - if result == Completed then 0 else 1,
                     Iterations(duration, old(job.seconds)) > 1, old(job.seconds))
      ensures job == old(job).(iteration := job.iteration)
    {
      var iterations := Iterations(duration, job.seconds);
      IterationsFill(duration, job.seconds);
      rounds, marks, took := [], [clock], [];
      assert log + Flatten(pids, []) == log;
      var i := 0;
      while i < iterations
        invariant i <= iterations && |rounds| == |took| == i
        invariant Underway(world, pids, old(job), old(log), clean, fit, rounds)
        invariant AllSucceeded(pids, rounds)
        invariant Timed(marks, took, late, i, iterations > 1, old(job.seconds), clock)
      {
        var verdict, d;
        verdict, d, rounds := IterateNext(world, pids, delay, moves(i), late(i), iterations > 1, i,
                                          old(job), old(log), clean, fit, rounds);
        if verdict != Success {
          StoppedFits(pids, rounds, verdict, iterations);
          return InvokeError(verdict), marks, took, rounds;
        }
        TimedNext(marks, took, late, i, iterations > 1, job.seconds, clock, d);
        AllButLast(pids, rounds);
        marks, took, i := marks + [clock], took + [d], i + 1;
      }
      result := Completed;
    }

    /**
     From the process tree to the end of the run: the PIDs are the one asked for, or the leaves the
     filter leaves. A filter that leaves none fails the run rather than ending it without a result.
     */
    method Profile(
      world: World, root: Option<string>, pgrep: string -> Printed, ps: string -> Printed, name: string, ghost t: Tree,
      duration: nat, delay: nat, moves: nat -> seq<Move>, late: nat -> nat)
      returns (result: RunResult, ghost rounds: seq<Round>)
      requires 0 < job.seconds <= duration && log == []
      requires IsBlank(job.pid) || IsDecimal(job.pid)
      requires root.Some? ==> Describes(pgrep, t) && t.pid == root.value
      requires Distinct(Pids(t)) && DecimalPids(Pids(t))
      modifies this
      ensures result.SetupError? <==>
                IsBlank(old(job.pid)) && (root == None || (!IsBlank(name) && !AllPrint(ps, Leaves(t))))
      ensures var pids := Targets(old(job), ps, name, t);
              !result.SetupError? ==>
                && RoundsFit(pids, rounds, result, Iterations(duration, old(job.seconds)))
                && RoundsOk(pids, rounds) && ResultsShow(rounds, result)
                && (pids == [] ==> result == InvokeError(NoPids))
                && (old(NoFilesAfter(files, 0)) ==>
                      var iterations := Iterations(duration, old(job.seconds));
                      && RoundsProduced(world, old(job), pids, rounds)
                      && CompletesIffProduced(ReferenceOf(world, old(job)), pids, result, iterations))
      ensures log == LogOf(old(job), Targets(old(job), ps, name, t), rounds, result)
      ensures Ended in log <==> result == Completed
      ensures CountResults(log) == SumSucceeded(rounds)
      ensures Honest(world, files, log)
    {
      var setup;
      if !IsBlank(job.pid) {
        setup := Ready([job.pid], []);
      } else {
        setup := GetCandidatePIDs(root, pgrep, ps, name, t);
        if setup.Ready? {
          ChosenFit(ps, name, t);
        }
      }
      ghost var job0, clean := job, NoFilesAfter(files, 0);
      ghost var fit := FitOf(world, job0, Targets(job, ps, name, t), clean);
      FitFollows(world, job, Targets(job, ps, name, t), clean);
      var marks, took;
      result, marks, took, rounds := Run(world, setup, duration, delay, moves, late, clean, fit);
      if setup.Ready? {
        FitMeans(world, job0, setup.pids, clean, rounds);
        ResultsFollow(setup.pids, rounds, result, Iterations(duration, job0.seconds));
        RunLog(setup.pids, setup.notices, rounds, result == Completed);
        NoPidsFails(setup.pids, rounds, result, duration, job0.seconds);
        if clean {
          RunMeaning(world, job0, setup.pids, rounds, result, Iterations(duration, job0.seconds));
        }
      } else {
        SetupLog();
      }
    }
  }

  /** The PIDs a run is for. */
  function Targets(job: Job, ps: string -> Printed, name: string, t: Tree): seq<string> {
    if IsBlank(job.pid) then Chosen(ps, name, Leaves(t)) else [job.pid]
  }

  /**
   The PID that is given and no other; else the processes below the root that have no children, those of them
   whose own `ps` output holds the name, if one is given.
   */
  lemma TargetsMeaning(job: Job, ps: string -> Printed, name: string, t: Tree, pid: string)
    ensures !IsBlank(job.pid) ==> Targets(job, ps, name, t) == [job.pid]
    ensures IsBlank(job.pid) ==>
              (pid in Targets(job, ps, name, t) <==> LeafBelow(t, pid) && (IsBlank(name) || Matches(ps, name, pid)))
  {
    LeavesExact(t, pid);
    var at := KeepExact(ps, name, Leaves(t));
  }

  /** What SetUp says of the PIDs. */
  function NoticesFor(job: Job, pids: seq<string>): seq<Event> {
    if IsBlank(job.pid) && |pids| > 1 then [ManyPids(pids)] else []
  }

  /** The whole log of a run. */
  function LogOf(job: Job, pids: seq<string>, rounds: seq<Round>, result: RunResult): seq<Event> {
    [Started] + (if result.SetupError? then [] else NoticesFor(job, pids) + Flatten(pids, rounds))
      + if result == Completed then [Ended] else []
  }

  // ---------- what a run's outcome means ----------

  /** Every iteration published something, except the one that ended a run that was not completed. */
  predicate ResultsShow(rounds: seq<Round>, result: RunResult) {
    forall k :: 0 <= k < |rounds| ==> (rounds[k].results != [] <==> result == Completed || k < |rounds| - 1)
  }

  /** No iteration without a result passes for a success, and the one that fails a run leaves nothing in the log. */
  lemma ResultsFollow(pids: seq<string>, rounds: seq<Round>, result: RunResult, iterations: nat)
    requires RoundsOk(pids, rounds) && RoundsFit(pids, rounds, result, iterations) && !result.SetupError?
    ensures ResultsShow(rounds, result)
    ensures result.InvokeError? ==> rounds != [] && EventsOf(pids, rounds[|rounds| - 1]) == []
  {
    forall k | 0 <= k < |rounds|
      ensures rounds[k].results != [] <==> result == Completed || k < |rounds| - 1
    {
      RoundVerdict(pids, k + 1, rounds[k]);
      if k < |rounds| - 1 && result.InvokeError? {
        assert rounds[..|rounds| - 1][k] == rounds[k];
      }
    }
    if result.InvokeError? {
      RoundVerdict(pids, |rounds|, rounds[|rounds| - 1]);
    }
  }

  lemma FitFollows(world: World, job: Job, pids: seq<string>, clean: bool)
    ensures Follows(FitOf(world, job, pids, clean), world, job, pids, clean)
  {
  }

  lemma FitMeans(world: World, job: Job, pids: seq<string>, clean: bool, rounds: seq<Round>)
    requires AllFit(FitOf(world, job, pids, clean), rounds)
    ensures RoundsOk(pids, rounds) && (clean ==> RoundsProduced(world, job, pids, rounds))
  {
    forall k | 0 <= k < |rounds|
      ensures RoundOk(pids, k + 1, rounds[k])
              && (clean ==> AsProduced(world, job.(iteration := k + 1), pids, rounds[k]))
    {
      assert FitOf(world, job, pids, clean)(k + 1, rounds[k]);
    }
  }

  /** Whether a PID's reference produces an artefact in an iteration. */
  type Reference = (string, nat) -> bool

  function ReferenceOf(world: World, job: Job): Reference {
    (pid: string, m: nat) => EndToEnd.Produced(world, job.(iteration := m), pid).Made?
  }

  predicate AnyProduced(ref: Reference, pids: seq<string>, m: nat) { exists i :: 0 <= i < |pids| && ref(pids[i], m) }

  /** A run completes exactly if in every iteration some PID's artefact can be produced. */
  ghost predicate CompletesIffProduced(ref: Reference, pids: seq<string>, result: RunResult, iterations: nat) {
    result == Completed <==> forall m: nat :: 1 <= m <= iterations ==> AnyProduced(ref, pids, m)
  }

  lemma ShownMeans(world: World, job: Job, pids: seq<string>, m: nat, r: Round, i: nat)
    requires AsProduced(world, job.(iteration := m), pids, r) && i < |pids|
    ensures r.slots[i] == None <==> ReferenceOf(world, job)(pids[i], m)
  {
    var shared := job.(iteration := m);
    assert Shown(world, shared, pids[i], r.slots[i], ResultsOf(r.results, OwnerKey(shared, pids[i])));
  }

  lemma VerdictFollows(ref: Reference, pids: seq<string>, m: nat, slots: seq<Slot>)
    requires |slots| == |pids| && forall i :: 0 <= i < |pids| ==> (slots[i] == None <==> ref(pids[i], m))
    ensures VerdictOf(pids, slots) == Success <==> AnyProduced(ref, pids, m)
  {
    VerdictMeaning(pids, slots);
  }

  /** One iteration succeeds exactly if some PID's artefact can be produced. */
  lemma RoundMeaning(world: World, job: Job, pids: seq<string>, m: nat, r: Round)
    requires AsProduced(world, job.(iteration := m), pids, r)
    ensures VerdictOf(pids, r.slots) == Success <==> AnyProduced(ReferenceOf(world, job), pids, m)
  {
    forall i | 0 <= i < |pids|
      ensures r.slots[i] == None <==> ReferenceOf(world, job)(pids[i], m)
    {
      ShownMeans(world, job, pids, m, r, i);
    }
    VerdictFollows(ReferenceOf(world, job), pids, m, r.slots);
  }

  lemma ResultFollows(ref: Reference, pids: seq<string>, rounds: seq<Round>, result: RunResult, iterations: nat)
    requires RoundsFit(pids, rounds, result, iterations) && !result.SetupError?
    requires forall k :: 0 <= k < |rounds| ==>
               |rounds[k].slots| == |pids|
                   && (VerdictOf(pids, rounds[k].slots) == Success <==> AnyProduced(ref, pids, k + 1))
    ensures CompletesIffProduced(ref, pids, result, iterations)
  {
    if result == Completed {
      forall m: nat | 1 <= m <= iterations
        ensures AnyProduced(ref, pids, m)
      {
        assert VerdictOf(pids, rounds[m - 1].slots) == Success;
      }
    } else {
      assert !AnyProduced(ref, pids, |rounds|);
    }
  }

  lemma RoundsMeaning(world: World, job: Job, pids: seq<string>, rounds: seq<Round>)
    requires RoundsProduced(world, job, pids, rounds)
    ensures forall k :: 0 <= k < |rounds| ==>
              && |rounds[k].slots| == |pids|
              && (VerdictOf(pids, rounds[k].slots) == Success <==> AnyProduced(ReferenceOf(world, job), pids, k + 1))
  {
    forall k | 0 <= k < |rounds|
      ensures |rounds[k].slots| == |pids|
      ensures VerdictOf(pids, rounds[k].slots) == Success <==> AnyProduced(ReferenceOf(world, job), pids, k + 1)
    {
      RoundMeaning(world, job, pids, k + 1, rounds[k]);
    }
  }

  lemma RunMeaning(world: World, job: Job, pids: seq<string>, rounds: seq<Round>, result: RunResult, iterations: nat)
    requires RoundsFit(pids, rounds, result, iterations) && !result.SetupError?
    requires RoundsProduced(world, job, pids, rounds)
    ensures CompletesIffProduced(ReferenceOf(world, job), pids, result, iterations)
  {
    RoundsMeaning(world, job, pids, rounds);
    ResultFollows(ReferenceOf(world, job), pids, rounds, result, iterations);
  }

  lemma NoPidsFails(pids: seq<string>, rounds: seq<Round>, result: RunResult, duration: nat, interval: nat)
    requires 0 < interval <= duration
    requires RoundsFit(pids, rounds, result, Iterations(duration, interval)) && !result.SetupError?
    ensures pids == [] ==> result == InvokeError(NoPids)
  {
    IterationsFill(duration, interval);
    assert 0 < |rounds|;
    assert pids == [] && |rounds[0].slots| == 0 ==> VerdictOf(pids, rounds[0].slots) == NoPids;
  }

  // ---------- what a run's log holds ----------

  function CountResults(events: seq<Event>): nat {
    if events == [] then 0
    else CountResults(events[..|events| - 1]) + if events[|events| - 1].Result? then 1 else 0
  }

  function SumSucceeded(rounds: seq<Round>): nat {
    if rounds == [] then 0 else SumSucceeded(rounds[..|rounds| - 1]) + Succeeded(rounds[|rounds| - 1].slots)
  }

  lemma ChosenFit(ps: string -> Printed, name: string, t: Tree)
    requires Distinct(Pids(t)) && DecimalPids(Pids(t))
    ensures Distinct(Chosen(ps, name, Leaves(t))) && DecimalPids(Chosen(ps, name, Leaves(t)))
  {
    var chosen := Chosen(ps, name, Leaves(t));
    LeavesDistinct(t);
    ChosenDistinct(ps, name, Leaves(t));
    forall i | 0 <= i < |chosen|
      ensures IsDecimal(chosen[i])
    {
      assert chosen[i] in Leaves(t);
      LeavesAmongPids(t);
      assert chosen[i] in multiset(Leaves(t));
      assert chosen[i] in Pids(t);
    }
  }

  lemma {:induction false} CountAppend(a: seq<Event>, b: seq<Event>)
    ensures CountResults(a + b) == CountResults(a) + CountResults(b)
  {
    if b == [] {
      assert a + b == a;
    } else {
      CountAppend(a, b[..|b| - 1]);
      assert (a + b)[..|a + b| - 1] == a + b[..|b| - 1];
    }
  }

  lemma {:induction false} NoResults(events: seq<Event>)
    requires forall k :: 0 <= k < |events| ==> !events[k].Result?
    ensures CountResults(events) == 0
  {
    if events != [] {
      NoResults(events[..|events| - 1]);
    }
  }

  lemma {:induction false} CountAllResults(events: seq<Event>)
    requires forall k :: 0 <= k < |events| ==> events[k].Result?
    ensures CountResults(events) == |events|
  {
    if events != [] {
      CountAllResults(events[..|events| - 1]);
    }
  }

  lemma RoundCounts(pids: seq<string>, iteration: nat, r: Round)
    requires RoundOk(pids, iteration, r)
    ensures CountResults(EventsOf(pids, r)) == Succeeded(r.slots) && Ended !in EventsOf(pids, r)
  {
    CountAllResults(r.results);
    NoResults(NoticesOf(pids, r.slots));
    CountAppend(r.results, NoticesOf(pids, r.slots));
  }

  lemma {:induction false} FlattenCounts(pids: seq<string>, rounds: seq<Round>)
    requires RoundsOk(pids, rounds)
    ensures CountResults(Flatten(pids, rounds)) == SumSucceeded(rounds) && Ended !in Flatten(pids, rounds)
  {
    if rounds != [] {
      var n := |rounds| - 1;
      FlattenCounts(pids, rounds[..n]);
      RoundCounts(pids, n + 1, rounds[n]);
      CountAppend(Flatten(pids, rounds[..n]), EventsOf(pids, rounds[n]));
    }
  }

  lemma SetupLog()
    ensures CountResults([Started]) == 0 && SumSucceeded([]) == 0 && Ended !in [Started]
  {
    NoResults([Started]);
  }

  /** A run's log holds Ended exactly when it was completed, and one result for each PID that succeeded. */
  lemma RunLog(pids: seq<string>, notices: seq<Event>, rounds: seq<Round>, completed: bool)
    requires forall k :: 0 <= k < |notices| ==> notices[k].ManyPids?
    requires RoundsOk(pids, rounds)
    ensures var log := [Started] + (notices + Flatten(pids, rounds)) + if completed then [Ended] else [];
            CountResults(log) == SumSucceeded(rounds) && (Ended in log <==> completed)
  {
    var flat, tail := Flatten(pids, rounds), if completed then [Ended] else [];
    FlattenCounts(pids, rounds);
    NoResults([Started]);
    NoResults(notices);
    NoResults(tail);
    CountAppend(notices, flat);
    CountAppend([Started], notices + flat);
    CountAppend([Started] + (notices + flat), tail);
  }
}
