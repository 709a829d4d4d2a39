/**
 What the stop protocol does not promise, and exactly when: which sessions can leave a poller looking for a stop
 token for ever, and which invocations can still return once the channel is closed.
 */
module JfrLimits {
  import opened JfrStop

  // ---------- which invocations can still return ----------

  ghost predicate ReturnsAfter(session: Session, s: State, more: seq<Move>, p: string) {
    var s' := Run(session, s, more); p in s'.phase && s'.phase[p].Ended?
  }

  /** From where it is, each step of the invocation brings it nearer to its end. */
  lemma OnToItsEnd(session: Session, s: State, moves: seq<Move>, p: string) returns (more: seq<Move>)
    requires var s' := Run(session, s, moves);
             p in s'.phase && s'.phase[p] in {NotStarted, Checking, Signalling, Resumed, Ended(true), Ended(false)}
    ensures ReturnsAfter(session, s, more, p)
    decreases match Run(session, s, moves).phase[p]
              case Checking => 3
              case Signalling => 2
              case Resumed => 1
              case _ => 0
  {
    var s' := Run(session, s, moves);
    more := moves;
    match s'.phase[p]
    case NotStarted =>
      RunAppend(session, s, moves, Start(p, false));
      more := moves + [Start(p, false)];
    case Checking =>
      RunAppend(session, s, moves, CheckEnds(p, true, ""));
      more := OnToItsEnd(session, s, moves + [CheckEnds(p, true, "")], p);
    case Signalling =>
      RunAppend(session, s, moves, Done(p));
      more := OnToItsEnd(session, s, moves + [Done(p)], p);
    case Resumed =>
      RunAppend(session, s, moves, Publish(p, true));
      more := moves + [Publish(p, true)];
    case Ended(_) =>
  }

  /**
   After the close an invocation can still return exactly if it is not caught: its poller has neither left on its
   token nor is it looking at the channel. Its own token does not help: the poller leaves without a `done`.
   */
  lemma ReturnsUnlessCaught(session: Session, s: State, p: string)
    requires s.closed && p in s.phase
    ensures (exists more :: ReturnsAfter(session, s, more, p)) <==> !Caught(s, p)
  {
    if Caught(s, p) {
      forall more
        ensures !ReturnsAfter(session, s, more, p)
      {
        CaughtNeverReturns(session, s, more, p);
      }
    } else {
      assert Run(session, s, []) == s;
      var more := OnToItsEnd(session, s, [], p);
      assert ReturnsAfter(session, s, more, p);
    }
  }

  // ---------- a run in which all pollers wait for the clean-up ----------

  /** The first n pollers look at the channel; nobody else has started. */
  function Started(session: Session, n: nat): State
    requires n <= |session.targets|
  {
    Initial(session).(phase := StartedPhases(session.targets, n))
  }

  /** All look at it, and the clean-up has sent k tokens, none of them taken yet. */
  function Offered(session: Session, k: nat): State
    requires k <= |session.targets|
  {
    Started(session, |session.targets|).(cleaner := Sending(k), channel := session.targets[..k])
  }

  lemma StartOne(session: Session, n: nat)
    requires SetUpRight(session) && n < |session.targets|
    ensures Step(session, Started(session, n), Start(session.targets[n], true)) == Started(session, n + 1)
  {
    PhaseStarted(session.targets, n);
    assert session.targets[n] !in session.targets[..n];
  }

  function StartedPhases(targets: seq<string>, n: nat): map<string, Phase>
    requires n <= |targets|
  {
    map p | p in targets :: if p in targets[..n] then Selecting else NotStarted
  }

  lemma PhaseStarted(targets: seq<string>, n: nat)
    requires n < |targets|
    ensures StartedPhases(targets, n)[targets[n] := Selecting] == StartedPhases(targets, n + 1)
  {
    assert targets[..n + 1] == targets[..n] + [targets[n]];
  }

  lemma {:induction false} StartAll(session: Session, n: nat) returns (moves: seq<Move>)
    requires SetUpRight(session) && n <= |session.targets|
    ensures Run(session, Initial(session), moves) == Started(session, n)
  {
    moves := [];
    if n > 0 {
      var start := Start(session.targets[n - 1], true);
      var before := StartAll(session, n - 1);
      StartOne(session, n - 1);
      RunAppend(session, Initial(session), before, start);
      moves := before + [start];
    }
  }

  lemma OfferNone(session: Session)
    requires session.outputType == Jfr
    ensures Step(session, Started(session, |session.targets|), CleanUp) == Offered(session, 0)
  {
  }

  lemma OfferOne(session: Session, k: nat)
    requires SetUpRight(session) && k < |session.targets|
    ensures Step(session, Step(session, Offered(session, k), Send), StopRecording) == Offered(session, k + 1)
  {
    assert session.targets[..k + 1] == session.targets[..k] + [session.targets[k]];
  }

  lemma {:induction false} OfferTokens(session: Session, k: nat) returns (moves: seq<Move>)
    requires SetUpRight(session) && session.outputType == Jfr && k <= |session.targets|
    ensures Run(session, Initial(session), moves) == Offered(session, k)
  {
    if k == 0 {
      var before := StartAll(session, |session.targets|);
      OfferNone(session);
      RunAppend(session, Initial(session), before, CleanUp);
      moves := before + [CleanUp];
    } else {
      var before := OfferTokens(session, k - 1);
      OfferOne(session, k - 1);
      RunAppend(session, Initial(session), before, Send);
      RunAppend(session, Initial(session), before + [Send], StopRecording);
      moves := before + [Send] + [StopRecording];
    }
  }

  // ---------- tokens in the wrong hands ----------

  /** The channel is closed, all pollers look at it, and the first j tokens are gone. */
  predicate Draining(session: Session, s: State, j: nat) {
    && j <= |session.targets| && s.channel == session.targets[j..]
    && s.closed && s.cleaner == Finished
    && forall p :: p in session.targets ==> Looking(s, p)
  }

  lemma CloseAll(session: Session) returns (moves: seq<Move>)
    requires SetUpRight(session) && session.outputType == Jfr
    ensures Draining(session, Run(session, Initial(session), moves), 0)
  {
    var n := |session.targets|;
    moves := OfferTokens(session, n);
    assert session.targets[..n] == session.targets == session.targets[0..];
    RunAppend(session, Initial(session), moves, Close);
    moves := moves + [Close];
  }

  /** A poller takes the next token, which is not its own, and looks again. */
  lemma TakeAnother(session: Session, s: State, moves: seq<Move>, p: string, j: nat) returns (more: seq<Move>)
    requires Draining(session, Run(session, s, moves), j) && j < |session.targets|
    requires p in session.targets && p != session.targets[j]
    ensures Draining(session, Run(session, s, more), j + 1)
  {
    more := TakesNext(session, s, moves, p);
    DrainedOne(session, Run(session, s, moves), p, j);
  }

  lemma DrainedOne(session: Session, s: State, p: string, j: nat)
    requires Draining(session, s, j) && j < |session.targets|
    requires p in session.targets && p != session.targets[j]
    ensures Draining(session, TakeToken(Enter(s, p, Selecting), p), j + 1)
  {
    assert session.targets[j..][1..] == session.targets[j + 1..];
  }

  /** The second poller takes the first token, the first poller all others. */
  lemma {:induction false} StealAll(session: Session, j: nat) returns (moves: seq<Move>)
    requires SetUpRight(session) && session.outputType == Jfr && 2 <= |session.targets| && j <= |session.targets|
    ensures Draining(session, Run(session, Initial(session), moves), j)
  {
    if j == 0 {
      moves := CloseAll(session);
    } else {
      var before := StealAll(session, j - 1);
      var thief := if j == 1 then session.targets[1] else session.targets[0];
      moves := TakeAnother(session, Initial(session), before, thief, j - 1);
    }
  }

  ghost predicate Orphans(session: Session, moves: seq<Move>, p: string) {
    Orphan(session, Run(session, Initial(session), moves), p)
  }

  /** A session of JFR recordings with two PIDs or more has a run that orphans every single poller. */
  lemma AllOrphaned(session: Session) returns (moves: seq<Move>)
    requires SetUpRight(session) && session.outputType == Jfr && 2 <= |session.targets|
    ensures forall p :: p in session.targets ==> Orphans(session, moves, p)
  {
    moves := StealAll(session, |session.targets|);
  }

  /** An orphan's token was taken by another PID's poller. */
  lemma OrphanNeedsThief(session: Session, moves: seq<Move>, p: string)
    requires SetUpRight(session) && Orphans(session, moves, p)
    ensures session.outputType == Jfr && 2 <= |session.targets|
  {
    RunKeeps(session, moves);
    var s := Run(session, Initial(session), moves);
    TakenOrWaiting(session, s, p);
    var i :| 0 <= i < |s.received| && Tokens(s.received)[i] == p;
    var t := s.received[i];
    assert t in s.received && t.token == p && t.poller in session.targets;
    assert t.poller != p;
  }

  /**
   Not every poller stops, and these are the sessions where one may not: exactly those of JFR recordings of two PIDs
   or more have a run in which, after a clean-up that ran to its end, a poller looks for its token for ever.
   */
  lemma StolenTokens(session: Session)
    requires SetUpRight(session)
    ensures (exists moves, p :: Orphans(session, moves, p)) <==> session.outputType == Jfr && 2 <= |session.targets|
  {
    if session.outputType == Jfr && 2 <= |session.targets| {
      var moves := AllOrphaned(session);
      assert Orphans(session, moves, session.targets[0]);
    }
    forall moves, p | Orphans(session, moves, p)
      ensures session.outputType == Jfr && 2 <= |session.targets|
    {
      OrphanNeedsThief(session, moves, p);
    }
  }

  // ---------- invocations that never return ----------

  ghost predicate Hangs(session: Session, moves: seq<Move>, p: string) {
    var s := Run(session, Initial(session), moves); s.cleaner == Finished && Caught(s, p)
  }

  /**
   Not every invocation returns either, and that takes no thief: exactly the sessions of JFR recordings with a PID at
   all have a run in which the clean-up ran to its end and an invocation will never return.
   */
  lemma HangingInvocations(session: Session)
    requires SetUpRight(session)
    ensures (exists moves, p :: Hangs(session, moves, p)) <==> session.outputType == Jfr && session.targets != []
  {
    if session.outputType == Jfr && session.targets != [] {
      var moves := CloseAll(session);
      assert Hangs(session, moves, session.targets[0]);
    }
    forall moves, p | Hangs(session, moves, p)
      ensures session.outputType == Jfr && session.targets != []
    {
      RunKeeps(session, moves);
      var s := Run(session, Initial(session), moves);
      assert p in s.phase;
    }
  }
}
