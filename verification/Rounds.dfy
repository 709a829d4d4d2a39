/**
 One iteration as a run sees it, for any schedule of its tasks: its outcome does not depend on the
 schedule, and it leaves as many results in the log as PIDs succeeded.
 */
module Rounds {
  import opened Text
  import opened ResultNames
  import opened Pipelines
  import opened Isolation
  import opened Interleaving
  import opened Publication
  import opened Verdicts

  function SlotOf(t: Task): Slot { if t.Finished? then t.err else None }

  function SlotsOf(tasks: seq<Task>): (r: seq<Slot>)
    ensures |r| == |tasks|
  {
    seq(|tasks|, i requires 0 <= i < |tasks| => SlotOf(tasks[i]))
  }

  /** An Invoke's verdict, notices and files do not depend on the schedule. */
  lemma InvokeIsDeterminate(
    world: World, shared: Job, pids: seq<string>, files: Files, log: seq<Event>, a: seq<nat>, b: seq<nat>)
    requires Distinct(pids) && DecimalPids(pids) && Indices(a, |pids|) && Indices(b, |pids|)
    requires AllFinished(RunSchedule(world, shared, pids, Outset(shared, pids, files, log), a))
    requires AllFinished(RunSchedule(world, shared, pids, Outset(shared, pids, files, log), b))
    ensures var s := Outset(shared, pids, files, log);
            var sa, sb := RunSchedule(world, shared, pids, s, a), RunSchedule(world, shared, pids, s, b);
            && sa.files == sb.files
            && VerdictOf(pids, SlotsOf(sa.tasks)) == VerdictOf(pids, SlotsOf(sb.tasks))
            && multiset(sa.log + NoticesOf(pids, SlotsOf(sa.tasks)))
               == multiset(sb.log + NoticesOf(pids, SlotsOf(sb.tasks)))
  {
    ScheduleIndependence(world, shared, pids, Outset(shared, pids, files, log), a, b);
  }

  // ---------- rounds ----------

  /** One iteration of a run: the results its Invoke announced, and how each PID's task ended. */
  datatype Round = Round(results: seq<Event>, slots: seq<Slot>)

  /** What the iteration added to the log: the results, and the notice if only some PIDs failed. */
  function EventsOf(pids: seq<string>, r: Round): seq<Event> {
    r.results + if |pids| == |r.slots| then NoticesOf(pids, r.slots) else []
  }

  /** One result for each PID whose task returned nil, under its own name, and no other. */
  predicate RoundOk(pids: seq<string>, iteration: nat, r: Round) {
    && |r.slots| == |pids| && |r.results| == Succeeded(r.slots)
    && (forall k :: 0 <= k < |r.results| ==> r.results[k].Result?)
    && (forall i :: 0 <= i < |pids| ==>
          |ResultsOf(r.results, Key(pids[i], Itoa(iteration)))| == if r.slots[i] == None then 1 else 0)
  }

  function Flatten(pids: seq<string>, rounds: seq<Round>): seq<Event> {
    if rounds == [] then [] else Flatten(pids, rounds[..|rounds| - 1]) + EventsOf(pids, rounds[|rounds| - 1])
  }

  lemma FlattenSnoc(pids: seq<string>, log: seq<Event>, rounds: seq<Round>, r: Round)
    ensures log + Flatten(pids, rounds) + EventsOf(pids, r) == log + Flatten(pids, rounds + [r])
  {
    assert (rounds + [r])[..|rounds|] == rounds;
    assert log + Flatten(pids, rounds) + EventsOf(pids, r) == log + (Flatten(pids, rounds) + EventsOf(pids, r));
  }

  lemma {:induction false} SucceededPositive(slots: seq<Slot>)
    ensures Succeeded(slots) > 0 <==> exists i :: 0 <= i < |slots| && slots[i] == None
  {
    if slots != [] {
      var n := |slots| - 1;
      SucceededPositive(slots[..n]);
      assert slots == slots[..n] + [slots[n]];
      if i :| 0 <= i < n && slots[i] == None {
        assert slots[..n][i] == None;
      }
      if i :| 0 <= i < n && slots[..n][i] == None {
        assert slots[i] == None;
      }
    }
  }

  /** A round succeeds exactly if it has a result; one that does not leaves nothing in the log. */
  lemma RoundVerdict(pids: seq<string>, iteration: nat, r: Round)
    requires RoundOk(pids, iteration, r)
    ensures VerdictOf(pids, r.slots) == Success <==> r.results != []
    ensures VerdictOf(pids, r.slots) != Success ==> EventsOf(pids, r) == []
  {
    VerdictMeaning(pids, r.slots);
    SucceededPositive(r.slots);
  }

  /** The log holds no results of iterations after `k`. */
  ghost predicate UpTo(log: seq<Event>, k: nat) {
    forall i, m: nat :: 0 <= i < |log| && log[i].Result? && m > k ==> KeyOf(log[i].file).iteration != Itoa(m)
  }

  lemma ItoaInjective(m: nat, n: nat)
    requires Itoa(m) == Itoa(n)
    ensures m == n
  {
    AtoiItoa(m);
    AtoiItoa(n);
  }

  lemma {:induction false} ResultsOfAppend(a: seq<Event>, b: seq<Event>, key: Key)
    ensures ResultsOf(a + b, key) == ResultsOf(a, key) + ResultsOf(b, key)
  {
    if b == [] {
      assert a + b == a;
    } else {
      var n := |b| - 1;
      assert a + b == (a + b[..n]) + [b[n]] && b == b[..n] + [b[n]];
      ResultsOfAppend(a, b[..n], key);
      ResultsOfSnoc(a + b[..n], b[n], key);
      ResultsOfSnoc(b[..n], b[n], key);
    }
  }

  lemma {:induction false} SlotsCount(tasks: seq<Task>)
    requires forall i :: 0 <= i < |tasks| ==> tasks[i].Finished?
    ensures Succeeded(SlotsOf(tasks)) == Successes(tasks)
  {
    if tasks != [] {
      var n := |tasks| - 1;
      SlotsCount(tasks[..n]);
      assert SlotsOf(tasks)[..n] == SlotsOf(tasks[..n]);
    }
  }

  /** What an Invoke left, put together. */
  lemma MakeRound(pids: seq<string>, iteration: nat, log: seq<Event>, s: State) returns (r: Round)
    requires |s.tasks| == |pids| && AllFinished(s) && NoneYet(log, iteration)
    requires log <= s.log && |s.log| - |log| == Successes(s.tasks)
    requires forall k :: |log| <= k < |s.log| ==> s.log[k].Result?
    requires forall i :: 0 <= i < |pids| ==> |ResultsOf(s.log, Key(pids[i], Itoa(iteration)))| == Expected(s.tasks[i])
    ensures s.log == log + r.results && r.slots == SlotsOf(s.tasks) && RoundOk(pids, iteration, r)
    ensures forall i :: 0 <= i < |pids| ==>
              ResultsOf(s.log, Key(pids[i], Itoa(iteration))) == ResultsOf(r.results, Key(pids[i], Itoa(iteration)))
  {
    r := Round(s.log[|log|..], SlotsOf(s.tasks));
    assert s.log == log + r.results;
    SlotsCount(s.tasks);
    forall i | 0 <= i < |pids|
      ensures ResultsOf(s.log, Key(pids[i], Itoa(iteration))) == ResultsOf(r.results, Key(pids[i], Itoa(iteration)))
    {
      ResultsOfAppend(log, r.results, Key(pids[i], Itoa(iteration)));
      NoneYetNoResults(log, iteration, pids[i]);
    }
  }

  lemma HonestWithNotices(world: World, files: Files, log: seq<Event>, more: seq<Event>)
    requires Honest(world, files, log) && forall k :: 0 <= k < |more| ==> !more[k].Result?
    ensures Honest(world, files, log + more)
  {
  }

  lemma CloseRound(
    world: World, pids: seq<string>, iteration: nat, files: Files, log: seq<Event>, log': seq<Event>, r: Round)
    requires |r.slots| == |pids| && log' == log + r.results && Honest(world, files, log')
    requires iteration > 0 && UpTo(log, iteration - 1)
    requires forall k :: |log| <= k < |log'| ==> log'[k].Result? && KeyOf(log'[k].file).iteration == Itoa(iteration)
    ensures log' + NoticesOf(pids, r.slots) == log + EventsOf(pids, r)
    ensures Honest(world, files, log + EventsOf(pids, r)) && UpTo(log + EventsOf(pids, r), iteration)
  {
    var notices := NoticesOf(pids, r.slots);
    assert log' + notices == log + (r.results + notices);
    HonestWithNotices(world, files, log', notices);
    RoundUpTo(log, r.results, notices, iteration);
  }

  /** The layer between a run and its tasks: one iteration, whatever the schedule. */
  lemma RoundOfInvoke(world: World, shared: Job, pids: seq<string>, files: Files, log: seq<Event>, schedule: seq<nat>)
    returns (r: Round)
    requires Distinct(pids) && DecimalPids(pids) && Indices(schedule, |pids|)
    requires Honest(world, files, log) && shared.iteration > 0 && UpTo(log, shared.iteration - 1)
    requires AllFinished(RunSchedule(world, shared, pids, Outset(shared, pids, files, log), schedule))
    ensures var s := RunSchedule(world, shared, pids, Outset(shared, pids, files, log), schedule);
            && r.slots == SlotsOf(s.tasks) && RoundOk(pids, shared.iteration, r) && s.log == log + r.results
            && s.log + NoticesOf(pids, r.slots) == log + EventsOf(pids, r)
            && Honest(world, s.files, log + EventsOf(pids, r)) && UpTo(log + EventsOf(pids, r), shared.iteration)
    ensures var s := RunSchedule(world, shared, pids, Outset(shared, pids, files, log), schedule);
            forall i :: 0 <= i < |pids| ==>
              ResultsOf(s.log, OwnerKey(shared, pids[i])) == ResultsOf(r.results, OwnerKey(shared, pids[i]))
  {
    var s := RunSchedule(world, shared, pids, Outset(shared, pids, files, log), schedule);
    InvokePublishes(world, shared, pids, files, log, schedule);
    r := MakeRound(pids, shared.iteration, log, s);
    CloseRound(world, pids, shared.iteration, s.files, log, s.log, r);
  }

  lemma RoundUpTo(log: seq<Event>, results: seq<Event>, notices: seq<Event>, iteration: nat)
    requires iteration > 0 && UpTo(log, iteration - 1)
    requires forall k :: |log| <= k < |log + results| ==>
               (log + results)[k].Result? && KeyOf((log + results)[k].file).iteration == Itoa(iteration)
    requires forall k :: 0 <= k < |notices| ==> notices[k].Notice?
    ensures UpTo(log + results + notices, iteration)
  {
    var all := log + results + notices;
    forall i, m: nat | 0 <= i < |all| && all[i].Result? && m > iteration
      ensures KeyOf(all[i].file).iteration != Itoa(m)
    {
      if i < |log| {
        assert all[i] == log[i];
      } else {
        assert i < |log + results| && all[i] == (log + results)[i];
        if Itoa(iteration) == Itoa(m) {
          ItoaInjective(iteration, m);
        }
      }
    }
  }
}
