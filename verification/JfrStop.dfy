/**
 Stopping JFR recordings early. Every PID has a poller that waits for its recording to end; a clean-up
 puts one stop token per PID into a channel all pollers read from, then closes it. The pollers, the
 invocations waiting for them and the cleaner interleave freely, as do the iterations of the run.
 */
module JfrStop {
  import opened Text

  datatype OutputType = Jfr | Raw

  /** What `SetUp` leaves behind: the PIDs to profile and a channel of the given capacity. */
  datatype Session = Session(targets: seq<string>, capacity: nat, outputType: OutputType)

  /** Where a PID's poller, and the invocation waiting for it, stand in the current iteration. */
  datatype Phase =
    | NotStarted
    | Selecting
    | Checking
    | Sleeping
    | Signalling       // the check saw the end; `done` is not received yet
    | Resumed          // the invocation goes on without its poller
    | Stopped          // the poller left on a stop token; nobody will send `done`
    | Ended(ok: bool)  // the invocation returned

  /** The clean-up: about to send token `next`, stopping that recording, or past the close. */
  datatype Cleaner = Idle | Sending(next: nat) | Stopping(next: nat) | Finished

  datatype Taken = Taken(poller: string, token: string, iteration: nat)

  datatype Report = Report(pid: string, iteration: nat, failed: bool, output: string)

  /** A poller is named by its PID and its iteration. */
  type Poller = (string, nat)

  datatype State = State(
    iteration: nat, phase: map<string, Phase>, channel: seq<string>, closed: bool, cleaner: Cleaner,
    received: seq<Taken>, reports: set<Report>, dones: seq<Poller>, results: seq<Poller>)

  datatype Move =
    | Start(pid: string, ok: bool)
    | Receive(pid: string)
    | Check(pid: string)
    | CheckEnds(pid: string, failed: bool, output: string)
    | Wake(pid: string)
    | Done(pid: string)
    | Publish(pid: string, ok: bool)
    | NextIteration
    | CleanUp
    | Send
    | StopRecording
    | Close

  function Fresh(targets: seq<string>): map<string, Phase> { map p | p in targets :: NotStarted }

  function Initial(session: Session): State {
    State(1, Fresh(session.targets), [], false, Idle, [], {}, [], [])
  }

  /** The check says the recording is over: it failed, or reports neither running nor delayed. */
  predicate Over(failed: bool, output: string) {
    failed || (!Contains(output, "running") && !Contains(output, "delayed"))
  }

  predicate Is(s: State, p: string, phase: Phase) { p in s.phase && s.phase[p] == phase }

  /** `select` with a default: a waiting token or the closed channel is received, else the default is taken. */
  predicate Enabled(session: Session, s: State, m: Move) {
    match m
    case Start(p, _) => Is(s, p, NotStarted)
    case Receive(p) => Is(s, p, Selecting) && (s.channel != [] || s.closed)
    case Check(p) => Is(s, p, Selecting) && s.channel == [] && !s.closed
    case CheckEnds(p, _, _) => Is(s, p, Checking)
    case Wake(p) => Is(s, p, Sleeping)
    case Done(p) => Is(s, p, Signalling)
    case Publish(p, _) => Is(s, p, Resumed)
    case NextIteration => IterationDone(s) && exists p :: p in s.phase && Is(s, p, Ended(true))
    case CleanUp => s.cleaner == Idle && session.outputType == Jfr
    case Send => s.cleaner.Sending? && s.cleaner.next < |session.targets| && |s.channel| < session.capacity && !s.closed
    case StopRecording => s.cleaner.Stopping?
    case Close => s.cleaner == Sending(|session.targets|) && !s.closed
  }

  predicate IterationDone(s: State) { forall p :: p in s.phase ==> s.phase[p].Ended? }

  function Enter(s: State, p: string, phase: Phase): State { s.(phase := s.phase[p := phase]) }

  /** A token, or the empty string a closed and empty channel yields. */
  function TakeToken(s: State, p: string): State {
    if s.channel == [] then Enter(s, p, if p == "" then Stopped else Sleeping)
    else
      var token := s.channel[0];
      Enter(s, p, if token == p then Stopped else Sleeping)
      .(channel := s.channel[1..], received := s.received + [Taken(p, token, s.iteration)])
  }

  function Effect(session: Session, s: State, m: Move): State
    requires Enabled(session, s, m)
  {
    match m
    case Start(p, ok) => Enter(s, p, if ok then Selecting else Ended(false))
    case Receive(p) => TakeToken(s, p)
    case Check(p) => Enter(s, p, Checking)
    case CheckEnds(p, failed, output) =>
      Enter(s, p, if Over(failed, output) then Signalling else Sleeping)
      .(reports := s.reports + {Report(p, s.iteration, failed, output)})
    case Wake(p) => Enter(s, p, Selecting)
    case Done(p) => Enter(s, p, Resumed).(dones := s.dones + [(p, s.iteration)])
    case Publish(p, ok) =>
      Enter(s, p, Ended(ok)).(results := if ok then s.results + [(p, s.iteration)] else s.results)
    case NextIteration => s.(iteration := s.iteration + 1, phase := Fresh(session.targets))
    case CleanUp => s.(cleaner := Sending(0))
    case Send => s.(channel := s.channel + [session.targets[s.cleaner.next]], cleaner := Stopping(s.cleaner.next))
    case StopRecording => s.(cleaner := Sending(s.cleaner.next + 1))
    case Close => s.(closed := true, cleaner := Finished)
  }

  function Step(session: Session, s: State, m: Move): State {
    if Enabled(session, s, m) then Effect(session, s, m) else s
  }

  /** Any run: any moves in any order, those not possible where they come being skipped. */
  function Run(session: Session, s: State, moves: seq<Move>): State {
    if moves == [] then s else Step(session, Run(session, s, moves[..|moves| - 1]), moves[|moves| - 1])
  }

  /** The profiler: its session, once `SetUp` has made the channel, and the state of the run. */
  class JcmdProfiler {
    var session: Option<Session>
    var state: State

    constructor ()
      ensures session == None
    {
      session := None;
      state := Initial(Session([], 0, Jfr));
    }

    /** One PID is given, or the candidates are looked up; the channel has room for a token of each. */
    method SetUp(
      outputType: OutputType, dirsReady: bool, pid: string, candidates: Option<seq<string>>, settingsCopied: bool)
      returns (ok: bool)
      modifies this
      ensures ok <==> dirsReady && settingsCopied && (!IsBlank(pid) || candidates.Some?)
      ensures !dirsReady || (IsBlank(pid) && candidates == None) ==> session == old(session) && state == old(state)
      ensures dirsReady && (!IsBlank(pid) || candidates.Some?) ==>
                var targets := if IsBlank(pid) then candidates.value else [pid];
                session == Some(Session(targets, |targets|, outputType)) && state == Initial(session.value)
      ensures ok && (candidates.Some? ==> Distinct(candidates.value) && "" !in candidates.value) ==>
                SetUpRight(session.value)
    {
      if !dirsReady {
        return false;
      }
      if !IsBlank(pid) {
        session := Some(Session([pid], 1, outputType));
      } else {
        if candidates == None {
          return false;
        }
        session := Some(Session(candidates.value, |candidates.value|, outputType));
      }
      state := Initial(session.value);
      ok := settingsCopied;
    }

    /** Plays moves of the pollers, the invocations and the clean-up, in the order they happen. */
    method Play(moves: seq<Move>)
      requires session.Some? && SetUpRight(session.value) && Invariant(session.value, state)
      modifies this`state
      ensures state == Run(session.value, old(state), moves) && Invariant(session.value, state)
    {
      for i := 0 to |moves|
        invariant state == Run(session.value, old(state), moves[..i]) && Invariant(session.value, state)
      {
        assert moves[..i + 1][..i] == moves[..i];
        StepKeeps(session.value, state, moves[i]);
        state := Step(session.value, state, moves[i]);
      }
      assert moves[..|moves|] == moves;
    }
  }

  // ---------- what every reachable state keeps ----------

  /** `SetUp` gives the channel room for one token per PID. */
  predicate SetUpRight(session: Session) {
    && Distinct(session.targets) && "" !in session.targets
    && session.capacity == |session.targets|
  }

  function Sent(session: Session, s: State): nat {
    match s.cleaner
    case Idle => 0
    case Sending(k) => k
    case Stopping(k) => k + 1
    case Finished => |session.targets|
  }

  function Tokens(received: seq<Taken>): seq<string> {
    seq(|received|, i requires 0 <= i < |received| => received[i].token)
  }

  /** No token is lost or made up, and they are taken in the order they were sent. */
  predicate TokensConserved(session: Session, s: State) {
    && Sent(session, s) <= |session.targets|
    && Tokens(s.received) + s.channel == session.targets[..Sent(session, s)]
    && (s.closed <==> s.cleaner == Finished)
    && (s.cleaner.Stopping? ==> s.cleaner.next < |session.targets|)
  }

  ghost predicate SawEnd(s: State, x: Poller) {
    exists r :: r in s.reports && r.pid == x.0 && r.iteration == x.1 && Over(r.failed, r.output)
  }

  predicate TookOwn(s: State, p: string) { Taken(p, p, s.iteration) in s.received }

  ghost predicate PollerOk(s: State, p: string)
    requires p in s.phase
  {
    var x := (p, s.iteration);
    match s.phase[p]
    case Signalling => SawEnd(s, x) && x !in s.dones && x !in s.results && !TookOwn(s, p)
    case Resumed => SawEnd(s, x) && x in s.dones && x !in s.results && !TookOwn(s, p)
    case Stopped => TookOwn(s, p) && !SawEnd(s, x) && x !in s.dones && x !in s.results
    case Ended(ok) => (ok <==> x in s.results) && !TookOwn(s, p)
    case _ => !SawEnd(s, x) && x !in s.dones && x !in s.results && !TookOwn(s, p)
  }

  predicate NoDuplicates(s: seq<Poller>) { forall i, j :: 0 <= i < j < |s| ==> s[i] != s[j] }

  ghost predicate HistoryOk(s: State) {
    && (forall x :: x in s.dones ==> x.1 <= s.iteration && SawEnd(s, x))
    && (forall x :: x in s.results ==> x in s.dones)
    && (forall r :: r in s.reports ==> r.iteration <= s.iteration)
    && NoDuplicates(s.dones) && NoDuplicates(s.results)
  }

  /** A poller that took its own token is stopped, and its iteration is the last. */
  predicate OwnTokenStops(s: State) {
    forall t :: t in s.received && t.poller == t.token ==> t.iteration == s.iteration && Is(s, t.poller, Stopped)
  }

  /** Only the targets' pollers take tokens, and only a clean-up of JFR recordings sends any. */
  predicate TokensPlaced(session: Session, s: State) {
    && (forall t :: t in s.received ==> t.poller in session.targets)
    && (s.cleaner != Idle ==> session.outputType == Jfr)
  }

  ghost predicate Invariant(session: Session, s: State) {
    && s.phase.Keys == (set p | p in session.targets)
    && TokensConserved(session, s)
    && TokensPlaced(session, s)
    && HistoryOk(s)
    && OwnTokenStops(s)
    && forall p :: p in s.phase ==> PollerOk(s, p)
  }

  lemma TokenTaken(received: seq<Taken>, t: Taken, channel: seq<string>)
    requires channel != [] && t.token == channel[0]
    ensures Tokens(received + [t]) + channel[1..] == Tokens(received) + channel
  {
    assert Tokens(received + [t]) == Tokens(received) + [t.token];
    assert channel == [channel[0]] + channel[1..];
  }

  lemma TokenSent(targets: seq<string>, tokens: seq<string>, channel: seq<string>, k: nat)
    requires k < |targets| && tokens + channel == targets[..k]
    ensures tokens + (channel + [targets[k]]) == targets[..k + 1]
  {
    assert tokens + (channel + [targets[k]]) == (tokens + channel) + [targets[k]];
  }

  lemma TokensNext(session: Session, s: State, m: Move)
    requires SetUpRight(session) && TokensConserved(session, s)
    ensures TokensConserved(session, Step(session, s, m))
  {
    if Enabled(session, s, m) {
      match m
      case Receive(p) =>
        if s.channel != [] {
          TokenTaken(s.received, Taken(p, s.channel[0], s.iteration), s.channel);
        }
      case Send => TokenSent(session.targets, Tokens(s.received), s.channel, s.cleaner.next);
      case _ =>
    }
  }

  lemma SawEndKept(s: State, s': State, x: Poller)
    requires s.reports <= s'.reports && SawEnd(s, x)
    ensures SawEnd(s', x)
  {
    var r :| r in s.reports && r.pid == x.0 && r.iteration == x.1 && Over(r.failed, r.output);
    assert r in s'.reports;
  }

  /** A step that neither signals nor publishes adds no more than a report. */
  lemma HistoryGrows(s: State, s': State)
    requires HistoryOk(s) && s.iteration <= s'.iteration && s'.dones == s.dones && s'.results == s.results
    requires s.reports <= s'.reports && forall r :: r in s'.reports ==> r in s.reports || r.iteration == s'.iteration
    ensures HistoryOk(s')
  {
    forall x | x in s'.dones
      ensures SawEnd(s', x)
    {
      SawEndKept(s, s', x);
    }
  }

  lemma DoneKept(session: Session, s: State, p: string)
    requires Invariant(session, s) && Is(s, p, Signalling)
    ensures HistoryOk(Effect(session, s, Done(p)))
  {
    var s' := Effect(session, s, Done(p));
    assert PollerOk(s, p);
    forall x | x in s'.dones
      ensures x.1 <= s'.iteration && SawEnd(s', x)
    {
      SawEndKept(s, s', x);
    }
  }

  lemma PublishKept(session: Session, s: State, p: string, ok: bool)
    requires Invariant(session, s) && Is(s, p, Resumed)
    ensures HistoryOk(Effect(session, s, Publish(p, ok)))
  {
    var s' := Effect(session, s, Publish(p, ok));
    assert PollerOk(s, p);
    forall x | x in s'.dones
      ensures SawEnd(s', x)
    {
      SawEndKept(s, s', x);
    }
  }

  lemma HistoryKept(session: Session, s: State, m: Move)
    requires Invariant(session, s)
    ensures HistoryOk(Step(session, s, m))
  {
    if Enabled(session, s, m) {
      match m
      case Done(p) => DoneKept(session, s, p);
      case Publish(p, ok) => PublishKept(session, s, p, ok);
      case _ => HistoryGrows(s, Effect(session, s, m));
    }
  }

  lemma TokensStayPlaced(session: Session, s: State, m: Move)
    requires TokensPlaced(session, s) && s.phase.Keys == (set p | p in session.targets)
    ensures TokensPlaced(session, Step(session, s, m))
  {
  }

  lemma TakingKeepsOwn(session: Session, s: State, p: string)
    requires SetUpRight(session) && p in session.targets && Is(s, p, Selecting) && OwnTokenStops(s)
    ensures OwnTokenStops(TakeToken(s, p))
  {
  }

  lemma OwnTokensKept(session: Session, s: State, m: Move)
    requires Invariant(session, s) && SetUpRight(session)
    ensures OwnTokenStops(Step(session, s, m))
  {
    if Enabled(session, s, m) {
      match m
      case Receive(p) => TakingKeepsOwn(session, s, p);
      case NextIteration => NoOwnTokens(session, s);
      case _ => OwnTokensElsewhere(session, s, m);
    }
  }

  /** When all invocations have returned nobody has taken its own token. */
  lemma NoOwnTokens(session: Session, s: State)
    requires OwnTokenStops(s) && IterationDone(s)
    ensures forall t :: t in s.received ==> t.poller != t.token
  {
  }

  lemma OwnTokensElsewhere(session: Session, s: State, m: Move)
    requires OwnTokenStops(s) && Enabled(session, s, m) && !m.Receive? && m != NextIteration
    ensures OwnTokenStops(Effect(session, s, m))
  {
  }

  predicate MovesPoller(m: Move, p: string) {
    match m
    case Start(q, _) => p == q
    case Receive(q) => p == q
    case Check(q) => p == q
    case CheckEnds(q, _, _) => p == q
    case Wake(q) => p == q
    case Done(q) => p == q
    case Publish(q, _) => p == q
    case _ => false
  }

  /** What a poller's standing depends on is as it was. */
  ghost predicate SameStanding(s: State, s': State, p: string) {
    var x := (p, s.iteration);
    && s'.iteration == s.iteration && p in s.phase && p in s'.phase && s'.phase[p] == s.phase[p]
    && (x in s'.dones <==> x in s.dones) && (x in s'.results <==> x in s.results)
    && (TookOwn(s', p) <==> TookOwn(s, p)) && (SawEnd(s', x) <==> SawEnd(s, x))
  }

  lemma SameStandingOk(s: State, s': State, p: string)
    requires SameStanding(s, s', p) && PollerOk(s, p)
    ensures PollerOk(s', p)
  {
  }

  lemma OthersReport(s: State, s': State, q: string, failed: bool, output: string, x: Poller)
    requires s'.reports == s.reports + {Report(q, s.iteration, failed, output)} && q != x.0
    ensures SawEnd(s', x) <==> SawEnd(s, x)
  {
    if SawEnd(s, x) {
      SawEndKept(s, s', x);
    }
  }

  lemma OthersMove(session: Session, s: State, m: Move, p: string)
    requires Enabled(session, s, m) && m != NextIteration && p in s.phase && !MovesPoller(m, p)
    ensures SameStanding(s, Effect(session, s, m), p)
  {
    match m
    case CheckEnds(q, failed, output) =>
      OthersReport(s, Effect(session, s, m), q, failed, output, (p, s.iteration));
    case _ =>
  }

  /** Within an iteration, the steps of others leave a poller's standing alone. */
  lemma PollerUnmoved(session: Session, s: State, m: Move, p: string)
    requires Invariant(session, s) && Enabled(session, s, m) && m != NextIteration
    requires p in s.phase && !MovesPoller(m, p)
    ensures p in Effect(session, s, m).phase && PollerOk(Effect(session, s, m), p)
  {
    OthersMove(session, s, m, p);
    SameStandingOk(s, Effect(session, s, m), p);
  }

  /** A poller's own step changes its standing as it should. */
  lemma PollerMoved(session: Session, s: State, m: Move, p: string)
    requires SetUpRight(session) && Invariant(session, s) && Enabled(session, s, m)
    requires p in s.phase && MovesPoller(m, p)
    ensures p in Effect(session, s, m).phase && PollerOk(Effect(session, s, m), p)
  {
    var s', x := Effect(session, s, m), (p, s.iteration);
    if SawEnd(s, x) { SawEndKept(s, s', x); }
    if m.CheckEnds? && Over(m.failed, m.output) {
      assert Report(p, s.iteration, m.failed, m.output) in s'.reports;
    }
  }

  lemma FreshPollerOk(session: Session, s: State, p: string)
    requires Invariant(session, s) && Enabled(session, s, NextIteration) && p in session.targets
    ensures PollerOk(Effect(session, s, NextIteration), p)
  {
  }

  lemma StepKeeps(session: Session, s: State, m: Move)
    requires SetUpRight(session) && Invariant(session, s)
    ensures Invariant(session, Step(session, s, m))
  {
    TokensNext(session, s, m);
    TokensStayPlaced(session, s, m);
    HistoryKept(session, s, m);
    OwnTokensKept(session, s, m);
    if Enabled(session, s, m) {
      var s' := Effect(session, s, m);
      if m == NextIteration {
        forall p | p in s'.phase ensures PollerOk(s', p) { FreshPollerOk(session, s, p); }
      } else {
        forall p | p in s.phase ensures p in s'.phase && PollerOk(s', p) {
          if MovesPoller(m, p) { PollerMoved(session, s, m, p); } else { PollerUnmoved(session, s, m, p); }
        }
      }
    }
  }

  lemma {:induction false} RunKeeps(session: Session, moves: seq<Move>)
    requires SetUpRight(session)
    ensures Invariant(session, Run(session, Initial(session), moves))
  {
    if moves != [] {
      RunKeeps(session, moves[..|moves| - 1]);
      StepKeeps(session, Run(session, Initial(session), moves[..|moves| - 1]), moves[|moves| - 1]);
    }
  }

  lemma SawEndMeans(s: State, x: Poller)
    requires SawEnd(s, x)
    ensures exists r :: r in s.reports && r.pid == x.0 && r.iteration == x.1
              && (r.failed || (!Contains(r.output, "running") && !Contains(r.output, "delayed")))
  {
    var r :| r in s.reports && r.pid == x.0 && r.iteration == x.1 && Over(r.failed, r.output);
  }

  /**
   In every reachable state: a result, like a `done`, exists only where the poller's own check in that iteration
   failed or reported its recording neither running nor delayed; a poller has left on a stop token exactly if that
   token was its own, and then neither signals nor publishes in that iteration; nobody signals or publishes twice.
   */
  lemma ResultsRestOnChecks(session: Session, moves: seq<Move>)
    requires SetUpRight(session)
    ensures var s := Run(session, Initial(session), moves);
            forall x :: x in s.dones || x in s.results ==>
              && Taken(x.0, x.0, x.1) !in s.received
              && exists r :: r in s.reports && r.pid == x.0 && r.iteration == x.1
                   && (r.failed || (!Contains(r.output, "running") && !Contains(r.output, "delayed")))
    ensures var s := Run(session, Initial(session), moves);
            && (forall x :: x in s.results ==> x in s.dones)
            && (forall p :: p in session.targets ==> (Is(s, p, Stopped) <==> Taken(p, p, s.iteration) in s.received))
            && NoDuplicates(s.dones) && NoDuplicates(s.results)
  {
    RunKeeps(session, moves);
    var s := Run(session, Initial(session), moves);
    forall x | x in s.dones || x in s.results
      ensures Taken(x.0, x.0, x.1) !in s.received
      ensures exists r :: r in s.reports && r.pid == x.0 && r.iteration == x.1
                && (r.failed || (!Contains(r.output, "running") && !Contains(r.output, "delayed")))
    {
      assert x.0 in s.phase ==> PollerOk(s, x.0);
      SawEndMeans(s, x);
    }
    forall p | p in session.targets
      ensures Is(s, p, Stopped) <==> Taken(p, p, s.iteration) in s.received
    {
      assert PollerOk(s, p);
    }
  }

  /** A report is what the check of that PID, ended in that iteration, printed. */
  lemma {:induction false} ReportsAreChecks(session: Session, moves: seq<Move>, r: Report)
    requires r in Run(session, Initial(session), moves).reports
    ensures exists n :: 0 <= n < |moves| && moves[n] == CheckEnds(r.pid, r.failed, r.output)
              && Run(session, Initial(session), moves[..n]).iteration == r.iteration
              && Is(Run(session, Initial(session), moves[..n]), r.pid, Checking)
  {
    if moves != [] {
      var n := |moves| - 1;
      var before := Run(session, Initial(session), moves[..n]);
      if r in before.reports {
        ReportsAreChecks(session, moves[..n], r);
        var m :| 0 <= m < n && moves[..n][m] == CheckEnds(r.pid, r.failed, r.output)
          && Run(session, Initial(session), moves[..n][..m]).iteration == r.iteration
          && Is(Run(session, Initial(session), moves[..n][..m]), r.pid, Checking);
        assert moves[..n][..m] == moves[..m] && moves[m] == moves[..n][m];
      }
    }
  }

  /**
   What the end of a check decides: a recording reported as running or delayed is looked at again later; any other
   report, and a check that failed, is signalled. Nothing else changes.
   */
  lemma CheckDecides(session: Session, s: State, p: string, failed: bool, output: string)
    requires Is(s, p, Checking)
    ensures var s' := Step(session, s, CheckEnds(p, failed, output));
            && Is(s', p, if !failed && (Contains(output, "running") || Contains(output, "delayed")) then Sleeping
                         else Signalling)
            && s'.phase.Keys == s.phase.Keys && (forall q :: q in s.phase && q != p ==> s'.phase[q] == s.phase[q])
            && s' == s.(phase := s'.phase, reports := s.reports + {Report(p, s.iteration, failed, output)})
  {
  }

  /**
   What a poller does when it looks: it checks only while no token waits and the channel is open; it takes the first
   token waiting, and leaves if that is its own; on any other, and on a closed channel, it looks again later.
   */
  lemma LookDecides(session: Session, s: State, p: string)
    requires Is(s, p, Selecting) && p != ""
    ensures var checked, took := Step(session, s, Check(p)), Step(session, s, Receive(p));
            if s.channel != [] then
              && checked == s
              && took.channel == s.channel[1..] && took.received == s.received + [Taken(p, s.channel[0], s.iteration)]
              && took.phase == s.phase[p := if s.channel[0] == p then Stopped else Sleeping]
            else if s.closed then checked == s && took == s.(phase := s.phase[p := Sleeping])
            else checked == s.(phase := s.phase[p := Checking]) && took == s
  {
  }

  ghost predicate HasResult(session: Session, s: State, m: nat) {
    exists p :: p in session.targets && (p, m) in s.results
  }

  lemma ResultsStay(session: Session, s: State, m: Move, i: nat)
    requires Invariant(session, s) && i <= s.iteration && (i < s.iteration ==> HasResult(session, s, i))
    ensures i < Step(session, s, m).iteration ==> HasResult(session, Step(session, s, m), i)
  {
    if i < s.iteration {
      var p :| p in session.targets && (p, i) in s.results;
      assert (p, i) in Step(session, s, m).results;
    } else if m == NextIteration && Enabled(session, s, m) {
      var p :| p in s.phase && Is(s, p, Ended(true));
      assert PollerOk(s, p);
    }
  }

  lemma IterationStep(session: Session, s: State, m: Move)
    ensures s.iteration <= Step(session, s, m).iteration <= s.iteration + 1
  {
  }

  lemma {:induction false} PublishedUpTo(session: Session, moves: seq<Move>, m: nat)
    requires SetUpRight(session) && 1 <= m
    ensures var s := Run(session, Initial(session), moves); m < s.iteration ==> HasResult(session, s, m)
  {
    if moves != [] {
      var n := |moves| - 1;
      var before := Run(session, Initial(session), moves[..n]);
      PublishedUpTo(session, moves[..n], m);
      RunKeeps(session, moves[..n]);
      IterationStep(session, before, moves[n]);
      if m <= before.iteration {
        ResultsStay(session, before, moves[n], m);
      }
    }
  }

  /** Every iteration left behind has a result: the run goes on only after one. */
  lemma {:induction false} EveryIterationPublished(session: Session, moves: seq<Move>, m: nat)
    requires SetUpRight(session) && 1 <= m < Run(session, Initial(session), moves).iteration
    ensures exists p :: p in session.targets && (p, m) in Run(session, Initial(session), moves).results
  {
    PublishedUpTo(session, moves, m);
    assert HasResult(session, Run(session, Initial(session), moves), m);
  }

  /**
   The clean-up never blocks: its next send finds room in an open channel, and only the last is followed by the
   close.
   */
  lemma CleanerNeverBlocks(session: Session, moves: seq<Move>)
    requires SetUpRight(session)
    ensures var s := Run(session, Initial(session), moves);
            && (s.cleaner.Sending? && s.cleaner.next < |session.targets| ==> Enabled(session, s, Send))
            && (s.cleaner == Sending(|session.targets|) ==> Enabled(session, s, Close))
            && (s.closed ==> !Enabled(session, s, Send) && !Enabled(session, s, CleanUp) && !Enabled(session, s, Close))
            && Tokens(s.received) + s.channel <= session.targets
            && (s.closed ==> Tokens(s.received) + s.channel == session.targets)
  {
    RunKeeps(session, moves);
    var s := Run(session, Initial(session), moves);
    if s.cleaner.Sending? && s.cleaner.next < |session.targets| {
      assert |Tokens(s.received) + s.channel| == s.cleaner.next;
    }
  }

  // ---------- after the close ----------

  /** Where a poller can be, in the iteration the channel is closed in, given where it was at the close. */
  predicate Leads(then_: Phase, now: Phase) {
    match then_
    case NotStarted => now in {NotStarted, Selecting, Sleeping, Stopped, Ended(false)}
    case Selecting => now in {Selecting, Sleeping, Stopped}
    case Sleeping => now in {Selecting, Sleeping, Stopped}
    case Checking => now != NotStarted
    case Signalling => now in {Signalling, Resumed, Ended(true), Ended(false)}
    case Resumed => now in {Resumed, Ended(true), Ended(false)}
    case _ => now == then_
  }

  /** An iteration begun after the close: no poller gets to a check. */
  predicate Barren(phase: Phase) { phase in {NotStarted, Selecting, Sleeping, Stopped, Ended(false)} }

  /** What can follow a state with a closed channel. */
  ghost predicate Aftermath(s: State, s': State) {
    && s'.closed && s'.phase.Keys == s.phase.Keys
    && (forall t :: t in s'.channel ==> t in s.channel)
    && s.iteration <= s'.iteration
    && (s'.iteration == s.iteration ==> forall p :: p in s.phase ==> Leads(s.phase[p], s'.phase[p]))
    && (s'.iteration > s.iteration ==> forall p :: p in s.phase ==> Barren(s'.phase[p]))
  }

  /** Only pollers inside a check at the close can still signal, and only what they signalled can still be published. */
  ghost predicate LateSignals(s: State, s': State) {
    && (forall x :: x in s'.dones ==>
          x in s.dones || (x.1 == s.iteration && (Is(s, x.0, Checking) || Is(s, x.0, Signalling))))
    && (forall x :: x in s'.results ==>
          || x in s.results
          || (x.1 == s.iteration && (Is(s, x.0, Checking) || Is(s, x.0, Signalling) || Is(s, x.0, Resumed))))
  }

  lemma LeadsOn(session: Session, s: State, s': State, m: Move, p: string)
    requires s'.closed && Enabled(session, s', m) && m != NextIteration && p in s'.phase
    ensures var next := Effect(session, s', m).phase;
            && p in next && (Barren(s'.phase[p]) ==> Barren(next[p]))
            && (p in s.phase && Leads(s.phase[p], s'.phase[p]) ==> Leads(s.phase[p], next[p]))
  {
  }

  lemma AftermathStep(session: Session, s: State, s': State, m: Move)
    requires s'.phase.Keys == (set p | p in session.targets) && s'.cleaner == Finished
    requires Aftermath(s, s')
    ensures Aftermath(s, Step(session, s', m))
  {
    if Enabled(session, s', m) {
      if m == NextIteration {
        assert forall p :: p in s'.phase ==> s'.phase[p].Ended?;
      } else {
        forall p | p in s.phase
          ensures var next := Effect(session, s', m).phase;
                  && p in next && (Barren(s'.phase[p]) ==> Barren(next[p]))
                  && (Leads(s.phase[p], s'.phase[p]) ==> Leads(s.phase[p], next[p]))
        {
          LeadsOn(session, s, s', m, p);
        }
      }
    }
  }

  lemma LateSignalsStep(session: Session, s: State, s': State, m: Move)
    requires Aftermath(s, s') && LateSignals(s, s')
    ensures LateSignals(s, Step(session, s', m))
  {
  }

  lemma {:induction false} AfterTheClose(session: Session, s: State, moves: seq<Move>)
    requires SetUpRight(session) && Invariant(session, s) && s.closed
    ensures Invariant(session, Run(session, s, moves))
    ensures Aftermath(s, Run(session, s, moves)) && LateSignals(s, Run(session, s, moves))
    decreases |moves|
  {
    if moves != [] {
      var n := |moves| - 1;
      AfterTheClose(session, s, moves[..n]);
      StepKeeps(session, Run(session, s, moves[..n]), moves[n]);
      AftermathStep(session, s, Run(session, s, moves[..n]), moves[n]);
      LateSignalsStep(session, s, Run(session, s, moves[..n]), moves[n]);
    }
  }

  // ---------- invocations that never return ----------

  /** The poller has left on its token, or it looks for one in a channel that is closed. */
  predicate Caught(s: State, p: string) { Is(s, p, Stopped) || (s.closed && Looking(s, p)) }

  predicate Looking(s: State, p: string) { Is(s, p, Selecting) || Is(s, p, Sleeping) }

  lemma CaughtStep(session: Session, s: State, m: Move, p: string)
    requires Caught(s, p)
    ensures Caught(Step(session, s, m), p) && Step(session, s, m).iteration == s.iteration
  {
  }

  /**
   Once a poller has left on its stop token, or looks at the channel after the close, its PID's invocation never
   returns: whatever happens next, the iteration stays the same one and is never done.
   */
  lemma {:induction false} CaughtNeverReturns(session: Session, s: State, moves: seq<Move>, p: string)
    requires Caught(s, p)
    ensures var s' := Run(session, s, moves);
            Caught(s', p) && s'.iteration == s.iteration && !IterationDone(s') && !Enabled(session, s', NextIteration)
    decreases |moves|
  {
    if moves != [] {
      CaughtNeverReturns(session, s, moves[..|moves| - 1], p);
      CaughtStep(session, Run(session, s, moves[..|moves| - 1]), moves[|moves| - 1], p);
    }
  }

  /** After the close no token comes back: without its own in the channel a poller goes on looking for ever. */
  ghost predicate Orphan(session: Session, s: State, p: string) {
    s.closed && s.cleaner == Finished && Looking(s, p) && p != "" && p !in s.channel
  }

  lemma OrphanStep(session: Session, s: State, m: Move, p: string)
    requires Orphan(session, s, p)
    ensures Orphan(session, Step(session, s, m), p)
  {
  }

  lemma {:induction false} OrphanLooksForEver(session: Session, s: State, moves: seq<Move>, p: string)
    requires Orphan(session, s, p)
    ensures Orphan(session, Run(session, s, moves), p)
    decreases |moves|
  {
    if moves != [] {
      OrphanLooksForEver(session, s, moves[..|moves| - 1], p);
      OrphanStep(session, Run(session, s, moves[..|moves| - 1]), moves[|moves| - 1], p);
    }
  }

  lemma RunAppend(session: Session, s: State, moves: seq<Move>, m: Move)
    ensures Run(session, s, moves + [m]) == Step(session, Run(session, s, moves), m)
  {
    assert (moves + [m])[..|moves|] == moves;
  }

  lemma WakesUp(session: Session, s: State, moves: seq<Move>, p: string) returns (awake: seq<Move>)
    requires Looking(Run(session, s, moves), p)
    ensures Run(session, s, awake) == Enter(Run(session, s, moves), p, Selecting)
  {
    var s' := Run(session, s, moves);
    awake := moves;
    if Is(s', p, Sleeping) {
      awake := moves + [Wake(p)];
      RunAppend(session, s, moves, Wake(p));
    } else {
      assert s'.phase[p := Selecting] == s'.phase;
    }
  }

  /** A poller that looks at the channel, awake or not, takes the next token. */
  lemma TakesNext(session: Session, s: State, moves: seq<Move>, p: string) returns (more: seq<Move>)
    requires Looking(Run(session, s, moves), p) && Run(session, s, moves).channel != []
    ensures Run(session, s, more) == TakeToken(Enter(Run(session, s, moves), p, Selecting), p)
  {
    var awake := WakesUp(session, s, moves, p);
    RunAppend(session, s, awake, Receive(p));
    more := awake + [Receive(p)];
  }

  /** The poller itself can read on until it meets its token. */
  lemma ReadsUpToItsToken(session: Session, s: State, moves: seq<Move>, p: string) returns (more: seq<Move>)
    requires var s' := Run(session, s, moves); Looking(s', p) && p in s'.channel
    ensures Is(Run(session, s, more), p, Stopped)
    decreases |Run(session, s, moves).channel|
  {
    var s' := Run(session, s, moves);
    more := TakesNext(session, s, moves, p);
    if s'.channel[0] != p {
      more := ReadsUpToItsToken(session, s, more, p);
    }
  }

  lemma TakenOrWaiting(session: Session, s: State, p: string)
    requires SetUpRight(session) && Invariant(session, s) && s.closed && p in s.phase
    ensures p != "" && (p in s.channel <==> p !in Tokens(s.received))
  {
    var all := session.targets;
    assert Tokens(s.received) + s.channel == all[..|all|] == all;
    EitherPart(Tokens(s.received), s.channel, all, p);
  }

  lemma EitherPart(a: seq<string>, b: seq<string>, all: seq<string>, p: string)
    requires a + b == all && Distinct(all) && p in all
    ensures p in b <==> p !in a
  {
    forall i, j | 0 <= i < |a| && 0 <= j < |b|
      ensures a[i] != b[j]
    {
      assert all[i] == a[i] && all[|a| + j] == b[j];
    }
  }

  ghost predicate StopsAfter(session: Session, s: State, more: seq<Move>, p: string) {
    Is(Run(session, s, more), p, Stopped)
  }

  lemma CanStillStop(session: Session, s: State, p: string)
    requires s.closed && s.cleaner == Finished && Looking(s, p) && p != ""
    ensures (exists more :: StopsAfter(session, s, more, p)) <==> p in s.channel
  {
    if p in s.channel {
      assert Run(session, s, []) == s;
      var more := ReadsUpToItsToken(session, s, [], p);
      assert StopsAfter(session, s, more, p);
    } else {
      forall more
        ensures !StopsAfter(session, s, more, p)
      {
        OrphanLooksForEver(session, s, more, p);
      }
    }
  }

  /** A poller still looking after the close can stop exactly if its token is still waiting, not taken by another. */
  lemma StopsOnlyWithItsToken(session: Session, moves: seq<Move>, s: State, p: string)
    requires SetUpRight(session) && s == Run(session, Initial(session), moves)
    requires s.closed && Looking(s, p)
    ensures (exists more :: StopsAfter(session, s, more, p)) <==> p in s.channel
    ensures p in s.channel <==> p !in Tokens(s.received)
  {
    RunKeeps(session, moves);
    TakenOrWaiting(session, s, p);
    CanStillStop(session, s, p);
  }
}
