/**
 The agent process: main runs the profiling and waits for the grace period to end, a handler waits for SIGTERM,
 a watcher ends the process when told that it is done. They interleave freely; a clean-up that is called
 returns some time later.
 */
module Lifecycle {
  datatype Main =
    | Beginning        // before the handler and the watcher are started
    | HandlerStarted
    | RunningApp       // flags are parsed; the profiler is not set yet
    | Profiling
    | Lingering        // the run is over; results can still be retrieved
    | CleaningUp
    | Returning

  datatype Handler = NotStarted | Waiting | Cleaning | Sending | Gone

  datatype Timer = Off | Ticking | Elapsed | Told

  datatype Exit = ByDone | ByReturn

  const DONE_CAPACITY := 1

  datatype State = State(
    main: Main, handler: Handler, watching: bool, timer: Timer,
    profiler: bool,             // p != nil
    signals: nat,               // waiting in sigs, whose capacity is one
    done: nat,                  // waiting in done
    fired: bool,
    checkedByHandler: seq<bool>, checkedAtExpiry: seq<bool>,  // what each check of p saw
    cleanedByHandler: nat, cleanedAtExpiry: nat,              // clean-ups that returned
    exit: seq<Exit>)

  datatype Move =
    | StartHandler | StartWatcher
    | NewAction(found: bool)  // the profiler is set, or the arguments are refused
    | RunEnds
    | TimerElapses | TimerTells
    | Expiry | MainCleaned | MainReturns
    | Sigterm | HandlerTakesSignal | HandlerCleaned | HandlerSends
    | WatcherTakesDone

  const INITIAL := State(Beginning, NotStarted, false, Off, false, 0, 0, false, [], [], 0, 0, [])

  predicate Enabled(s: State, m: Move) {
    && s.exit == []
    && match m
       case StartHandler => s.main == Beginning
       case StartWatcher => s.main == HandlerStarted
       case NewAction(_) => s.main == RunningApp
       case RunEnds => s.main == Profiling
       case TimerElapses => s.timer == Ticking
       case TimerTells => s.timer == Elapsed
       case Expiry => s.main == Lingering && s.fired
       case MainCleaned => s.main == CleaningUp
       case MainReturns => s.main == Returning
       case Sigterm => s.handler != NotStarted
       case HandlerTakesSignal => s.handler == Waiting && s.signals > 0
       case HandlerCleaned => s.handler == Cleaning
       case HandlerSends => s.handler == Sending && s.done < DONE_CAPACITY
       case WatcherTakesDone => s.watching && s.done > 0
  }

  /** After the run, or without one, main waits for the grace period. */
  function Linger(s: State): State { s.(main := Lingering, timer := Ticking) }

  function Effect(s: State, m: Move): State {
    match m
    case StartHandler => s.(main := HandlerStarted, handler := Waiting)
    case StartWatcher => s.(main := RunningApp, watching := true)
    case NewAction(found) => if found then s.(main := Profiling, profiler := true) else Linger(s)
    case RunEnds => Linger(s)
    case TimerElapses => s.(timer := Elapsed)
    case TimerTells => s.(timer := Told, fired := true)
    case Expiry =>
      s.(fired := false, checkedAtExpiry := s.checkedAtExpiry + [s.profiler],
         main := if s.profiler then CleaningUp else Returning)
    case MainCleaned => s.(main := Returning, cleanedAtExpiry := s.cleanedAtExpiry + 1)
    case MainReturns => s.(exit := [ByReturn])
    case Sigterm => s.(signals := 1)  // one more is dropped when one is waiting
    case HandlerTakesSignal =>
      s.(signals := 0, checkedByHandler := s.checkedByHandler + [s.profiler],
         handler := if s.profiler then Cleaning else Sending)
    case HandlerCleaned => s.(handler := Sending, cleanedByHandler := s.cleanedByHandler + 1)
    case HandlerSends => s.(done := s.done + 1, handler := Gone)
    case WatcherTakesDone => if s.done > 0 then s.(done := s.done - 1, exit := [ByDone]) else s
  }

  function Step(s: State, m: Move): State { if Enabled(s, m) then Effect(s, m) else s }

  /** Any run; moves not possible where they come are skipped. */
  function Run(moves: seq<Move>): State {
    if moves == [] then INITIAL else Step(Run(moves[..|moves| - 1]), moves[|moves| - 1])
  }

  /** The process, in the state its goroutines share. */
  class Process {
    var state: State

    constructor ()
      ensures state == INITIAL
    {
      state := INITIAL;
    }

    method Play(moves: seq<Move>)
      requires state == INITIAL
      modifies this
      ensures state == Run(moves) && Invariant(state)
    {
      assert Invariant(INITIAL);
      for i := 0 to |moves|
        invariant state == Run(moves[..i]) && Invariant(state)
      {
        assert moves[..i + 1][..i] == moves[..i];
        StepKeeps(state, moves[i]);
        state := Step(state, moves[i]);
      }
      assert moves[..|moves|] == moves;
    }
  }

  // ---------- what every reachable state keeps ----------

  predicate HandlerOk(s: State) {
    match s.handler
    case NotStarted => Unchecked(s.checkedByHandler, s.cleanedByHandler) && s.done == 0
    case Waiting => Unchecked(s.checkedByHandler, s.cleanedByHandler) && s.done == 0
    case Cleaning => |s.checkedByHandler| == 1 && s.checkedByHandler[0] && s.cleanedByHandler == 0 && s.done == 0
    case Sending => Cleaned(s.checkedByHandler, s.cleanedByHandler) && s.done == 0
    case Gone => Cleaned(s.checkedByHandler, s.cleanedByHandler) && (s.done == 1 || s.exit == [ByDone])
  }

  predicate MainOk(s: State) {
    match s.main
    case CleaningUp => |s.checkedAtExpiry| == 1 && s.checkedAtExpiry[0] && s.cleanedAtExpiry == 0 && s.profiler
    case Returning => Cleaned(s.checkedAtExpiry, s.cleanedAtExpiry) && s.checkedAtExpiry[0] == s.profiler
    case Lingering => Unchecked(s.checkedAtExpiry, s.cleanedAtExpiry)
    case Profiling => Unchecked(s.checkedAtExpiry, s.cleanedAtExpiry) && s.profiler
    case _ => Unchecked(s.checkedAtExpiry, s.cleanedAtExpiry) && !s.profiler
  }

  predicate Unchecked(checked: seq<bool>, cleanups: nat) { |checked| == 0 && cleanups == 0 }

  /** The one check that was made was followed by a clean-up that returned, exactly if it saw a profiler. */
  predicate Cleaned(checked: seq<bool>, cleanups: nat) {
    |checked| == 1 && (checked[0] <==> cleanups == 1) && cleanups <= 1
  }

  predicate Invariant(s: State) {
    && HandlerOk(s) && MainOk(s)
    && s.done <= DONE_CAPACITY && (s.handler != NotStarted ==> s.main != Beginning)
    && (s.exit == [] || (s.exit == [ByReturn] && s.main == Returning) || (s.exit == [ByDone] && s.handler == Gone))
  }

  lemma HandlerKept(s: State, m: Move)
    requires Invariant(s)
    ensures HandlerOk(Step(s, m))
  {
  }

  predicate MovesMain(m: Move) {
    m in {StartHandler, StartWatcher, NewAction(true), NewAction(false), RunEnds, Expiry, MainCleaned, MainReturns}
  }

  lemma MainMoved(s: State, m: Move)
    requires Invariant(s) && Enabled(s, m) && MovesMain(m)
    ensures MainOk(Effect(s, m))
  {
  }

  lemma MainUnmoved(s: State, m: Move)
    requires Invariant(s) && !MovesMain(m)
    ensures MainOk(Effect(s, m))
  {
    var s' := Effect(s, m);
    assert s'.main == s.main && s'.profiler == s.profiler;
    assert s'.checkedAtExpiry == s.checkedAtExpiry && s'.cleanedAtExpiry == s.cleanedAtExpiry;
  }

  lemma MainKept(s: State, m: Move)
    requires Invariant(s)
    ensures MainOk(Step(s, m))
  {
    if Enabled(s, m) {
      if MovesMain(m) { MainMoved(s, m); } else { MainUnmoved(s, m); }
    }
  }

  lemma StepKeeps(s: State, m: Move)
    requires Invariant(s)
    ensures Invariant(Step(s, m))
  {
    HandlerKept(s, m);
    MainKept(s, m);
  }

  lemma {:induction false} RunKeeps(moves: seq<Move>)
    ensures Invariant(Run(moves))
  {
    if moves != [] {
      RunKeeps(moves[..|moves| - 1]);
      StepKeeps(Run(moves[..|moves| - 1]), moves[|moves| - 1]);
    }
  }

  /**
   When the process exits, the route it exits by has checked for a profiler exactly once, and a clean-up of
   that route has returned exactly if the check saw one. At the end of the grace period the check sees every
   profiler that was ever set. The handler's send never blocks.
   */
  lemma ExitIsCleanedUp(moves: seq<Move>)
    ensures var s := Run(moves);
            && (s.exit == [ByDone] ==>
                  |s.checkedByHandler| == 1 && (s.cleanedByHandler == 1 <==> s.checkedByHandler[0]))
            && (s.exit == [ByReturn] ==> (s.cleanedAtExpiry == 1 <==> s.profiler))
            && (s.handler == Sending && s.exit == [] ==> Enabled(s, HandlerSends))
            && s.cleanedByHandler <= 1 && s.cleanedAtExpiry <= 1
  {
    RunKeeps(moves);
  }

  // ---------- the process can always still end ----------

  /** Goroutines are started in order, and while main lingers the grace period goes on or its end can be received. */
  predicate RoutesOk(s: State) {
    && (s.handler == NotStarted ==> s.main == Beginning)
    && (!s.watching ==> s.main == Beginning || s.main == HandlerStarted)
    && (s.main == Lingering ==> s.timer == Ticking || s.timer == Elapsed || (s.timer == Told && s.fired))
    && (s.main == CleaningUp || s.main == Returning ==> s.timer == Told)
    && (s.main !in {Lingering, CleaningUp, Returning} ==> s.timer == Off && !s.fired)
    && (s.fired ==> s.timer == Told) && s.signals <= 1
  }

  lemma RoutesStepKeeps(s: State, m: Move)
    requires RoutesOk(s)
    ensures RoutesOk(Step(s, m))
  {
  }

  lemma {:induction false} RoutesKept(moves: seq<Move>)
    ensures RoutesOk(Run(moves)) && Invariant(Run(moves))
  {
    RunKeeps(moves);
    if moves != [] {
      RoutesKept(moves[..|moves| - 1]);
      RoutesStepKeeps(Run(moves[..|moves| - 1]), moves[|moves| - 1]);
    }
  }

  predicate Signalled(s: State) { s.signals > 0 || s.checkedByHandler != [] }

  lemma SignalStep(s: State, m: Move)
    ensures Signalled(Step(s, m)) ==> Signalled(s) || m == Sigterm
  {
  }

  lemma {:induction false} SignalFirst(moves: seq<Move>)
    ensures Signalled(Run(moves)) ==> Sigterm in moves
  {
    if moves != [] {
      var n := |moves| - 1;
      SignalFirst(moves[..n]);
      SignalStep(Run(moves[..n]), moves[n]);
      assert moves == moves[..n] + [moves[n]];
    }
  }

  /** Each way out has its cause: the end of the grace period, or a signal. No more than one signal waits. */
  lemma ExitsHaveCauses(moves: seq<Move>)
    ensures var s := Run(moves);
            && (s.exit == [ByReturn] ==> s.timer == Told)
            && (s.exit == [ByDone] ==> Sigterm in moves)
            && s.signals <= 1
  {
    RoutesKept(moves);
    SignalFirst(moves);
  }

  /** Main goes on: how many moves are left, and the next one. */
  function MainAhead(s: State): (nat, Move) {
    match s.main
    case Beginning => (9, StartHandler)
    case HandlerStarted => (8, StartWatcher)
    case RunningApp => (7, NewAction(true))
    case Profiling => (6, RunEnds)
    case Lingering =>
      if s.timer == Ticking then (5, TimerElapses) else if s.timer == Elapsed then (4, TimerTells) else (3, Expiry)
    case CleaningUp => (2, MainCleaned)
    case Returning => (1, MainReturns)
  }

  /** The handler goes on, once it and the watcher are started: a signal comes, and is handled to the end. */
  function HandlerAhead(s: State): (nat, Move) {
    if s.handler == NotStarted then (7, StartHandler)
    else if !s.watching then (6, StartWatcher)
    else if s.handler == Waiting then (if s.signals == 0 then (5, Sigterm) else (4, HandlerTakesSignal))
    else if s.handler == Cleaning then (3, HandlerCleaned)
    else if s.handler == Sending then (2, HandlerSends)
    else (1, WatcherTakesDone)
  }

  lemma MainAdvances(s: State)
    requires Invariant(s) && RoutesOk(s) && s.exit == []
    ensures var s' := Step(s, MainAhead(s).1);
            if MainAhead(s).0 == 1 then s'.exit == [ByReturn] else s'.exit == [] && MainAhead(s').0 < MainAhead(s).0
  {
  }

  lemma HandlerAdvances(s: State)
    requires Invariant(s) && RoutesOk(s) && s.exit == []
    ensures var s' := Step(s, HandlerAhead(s).1);
            if HandlerAhead(s).0 == 1 then s'.exit == [ByDone]
            else s'.exit == [] && HandlerAhead(s').0 < HandlerAhead(s).0
  {
  }

  lemma RunSnoc(moves: seq<Move>, m: Move)
    ensures Run(moves + [m]) == Step(Run(moves), m)
  {
    assert (moves + [m])[..|moves|] == moves;
  }

  lemma {:induction false} ReachesReturn(moves: seq<Move>) returns (more: seq<Move>)
    requires Run(moves).exit == []
    ensures moves <= more && Run(more).exit == [ByReturn]
    decreases MainAhead(Run(moves)).0
  {
    var m := MainAhead(Run(moves)).1;
    RoutesKept(moves);
    MainAdvances(Run(moves));
    RunSnoc(moves, m);
    more := moves + [m];
    if MainAhead(Run(moves)).0 > 1 {
      more := ReachesReturn(more);
    }
  }

  lemma {:induction false} ReachesDone(moves: seq<Move>) returns (more: seq<Move>)
    requires Run(moves).exit == []
    ensures moves <= more && Run(more).exit == [ByDone]
    decreases HandlerAhead(Run(moves)).0
  {
    var m := HandlerAhead(Run(moves)).1;
    RoutesKept(moves);
    HandlerAdvances(Run(moves));
    RunSnoc(moves, m);
    more := moves + [m];
    if HandlerAhead(Run(moves)).0 > 1 {
      more := ReachesDone(more);
    }
  }

  /**
   However far the process has got, as long as it has not exited both ways out are open: it can still end by
   itself when the grace period is over, and it can still be ended by a signal.
   */
  lemma BothRoutesOpen(moves: seq<Move>)
    requires Run(moves).exit == []
    ensures exists more :: moves <= more && Run(more).exit == [ByReturn]
    ensures exists more :: moves <= more && Run(more).exit == [ByDone]
  {
    var byReturn := ReachesReturn(moves);
    var byDone := ReachesDone(moves);
  }

  /** A run in which the signal comes while the arguments are still being read. */
  function EarlyMove(i: nat): Move {
    match i
    case 0 => StartHandler
    case 1 => StartWatcher
    case 2 => Sigterm
    case 3 => HandlerTakesSignal
    case 4 => NewAction(true)
    case 5 => HandlerSends
    case _ => WatcherTakesDone
  }

  function EarlyStage(i: nat): State {
    match i
    case 0 => INITIAL
    case 1 => INITIAL.(main := HandlerStarted, handler := Waiting)
    case 2 => INITIAL.(main := RunningApp, handler := Waiting, watching := true)
    case 3 => INITIAL.(main := RunningApp, handler := Waiting, watching := true, signals := 1)
    case 4 => INITIAL.(main := RunningApp, handler := Sending, watching := true, checkedByHandler := [false])
    case 5 => INITIAL.(main := Profiling, profiler := true, handler := Sending, watching := true,
        checkedByHandler := [false])
    case 6 => EarlyStage(5).(handler := Gone, done := 1)
    case _ => EarlyStage(5).(handler := Gone, exit := [ByDone])
  }

  lemma EarlyStep(i: nat)
    requires i < 7
    ensures Step(EarlyStage(i), EarlyMove(i)) == EarlyStage(i + 1)
  {
  }

  lemma {:induction false} EarlyRun(n: nat) returns (moves: seq<Move>)
    requires n <= 7
    ensures Run(moves) == EarlyStage(n)
  {
    moves := [];
    if n > 0 {
      var before := EarlyRun(n - 1);
      EarlyStep(n - 1);
      moves := before + [EarlyMove(n - 1)];
      assert moves[..|before|] == before;
    }
  }

  /** A signal taken before the profiler is set lets the process exit, in mid-profiling, without any clean-up. */
  lemma EarlySignalSkipsCleanUp() returns (moves: seq<Move>)
    ensures var s := Run(moves);
            s.exit == [ByDone] && s.profiler && s.main == Profiling && s.cleanedByHandler == 0 && s.cleanedAtExpiry == 0
  {
    moves := EarlyRun(7);
  }
}
