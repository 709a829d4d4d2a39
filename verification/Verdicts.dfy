/** The verdict over the per-PID outcomes of one Invoke: partial failure is reported but does not fail the run. */
module Verdicts {
  import opened Text
  import opened Pipelines

  type Slot = Option<Failure>

  /** What ProfilePIDs returns: nil, "no PIDs to profile", or every PID's reason. */
  datatype Verdict = Success | NoPids | AllFailed(failed: seq<PidError>)

  function Failures(pids: seq<string>, errs: seq<Slot>): (failed: seq<PidError>)
    requires |pids| == |errs|
    ensures |failed| <= |pids|
  {
    if pids == [] then []
    else
      var n := |pids| - 1;
      Failures(pids[..n], errs[..n]) + if errs[n].Some? then [PidError(pids[n], errs[n].value)] else []
  }

  function VerdictOf(pids: seq<string>, errs: seq<Slot>): Verdict
    requires |pids| == |errs|
  {
    var failed := Failures(pids, errs);
    if pids == [] then NoPids
    else if |failed| == |pids| then AllFailed(failed)
    else Success
  }

  function NoticesOf(pids: seq<string>, errs: seq<Slot>): seq<Event>
    requires |pids| == |errs|
  {
    var failed := Failures(pids, errs);
    if 0 < |failed| < |pids| then [Notice(|pids| - |failed|, |pids|, failed)] else []
  }

  method Judge(pids: seq<string>, errs: array<Slot>) returns (verdict: Verdict, notices: seq<Event>)
    requires |pids| == errs.Length
    ensures verdict == VerdictOf(pids, errs[..]) && notices == NoticesOf(pids, errs[..])
  {
    notices := [];
    if |pids| == 0 {
      return NoPids, notices;
    }
    var failed: seq<PidError> := [];
    for i := 0 to |pids|
      invariant failed == Failures(pids[..i], errs[..i])
    {
      assert pids[..i + 1][..i] == pids[..i] && errs[..i + 1][..i] == errs[..i];
      if errs[i].Some? {
        failed := failed + [PidError(pids[i], errs[i].value)];
      }
    }
    assert pids[..|pids|] == pids && errs[..|pids|] == errs[..];
    if |failed| == 0 {
      verdict := Success;
    } else if |failed| == |pids| {
      verdict := AllFailed(failed);
    } else {
      notices := [Notice(|pids| - |failed|, |pids|, failed)];
      verdict := Success;
    }
  }

  /** How many PIDs' tasks returned nil. */
  function Succeeded(errs: seq<Slot>): nat {
    if errs == [] then 0
    else Succeeded(errs[..|errs| - 1]) + if errs[|errs| - 1] == None then 1 else 0
  }

  lemma {:induction false} SucceededCounts(errs: seq<Slot>)
    ensures Succeeded(errs) == |set i: nat | i < |errs| && errs[i] == None|
  {
    if errs != [] {
      var n := |errs| - 1;
      SucceededCounts(errs[..n]);
      var before, all := set i: nat | i < n && errs[..n][i] == None, set i: nat | i < |errs| && errs[i] == None;
      assert all == if errs[n] == None then before + {n} else before;
    }
  }

  predicate Increasing(at: seq<nat>, bound: nat) {
    && (forall k, m :: 0 <= k < m < |at| ==> at[k] < at[m])
    && (forall k :: 0 <= k < |at| ==> at[k] < bound)
  }

  /** The failures are those of the PIDs at the given positions, each with its own reason. */
  predicate Points(pids: seq<string>, errs: seq<Slot>, failed: seq<PidError>, at: seq<nat>)
    requires |pids| == |errs|
  {
    && |at| == |failed| && Increasing(at, |pids|)
    && forall k :: 0 <= k < |at| ==> errs[at[k]] == Some(failed[k].err) && failed[k].pid == pids[at[k]]
  }

  /** No failing PID is missing: every slot with an error is among the positions. */
  ghost predicate CoversFailures(errs: seq<Slot>, at: seq<nat>) {
    forall i :: 0 <= i < |errs| && errs[i].Some? ==> i in at
  }

  lemma PointsOn(pids: seq<string>, errs: seq<Slot>, failed: seq<PidError>, at: seq<nat>)
    requires |pids| == |errs| > 0 && Points(pids[..|pids| - 1], errs[..|pids| - 1], failed, at)
    ensures Points(pids, errs, failed, at)
    ensures var n := |pids| - 1;
            errs[n].Some? ==> Points(pids, errs, failed + [PidError(pids[n], errs[n].value)], at + [n])
  {
  }

  lemma CoversOn(errs: seq<Slot>, at: seq<nat>)
    requires errs != [] && CoversFailures(errs[..|errs| - 1], at)
    ensures CoversFailures(errs, if errs[|errs| - 1].Some? then at + [|errs| - 1] else at)
  {
    var n := |errs| - 1;
    forall i | 0 <= i < n && errs[i].Some?
      ensures i in at
    {
      assert errs[..n][i] == errs[i];
    }
  }

  /** The failures are all the failing PIDs, in input order, each with its own reason. */
  lemma {:induction false} FailuresInOrder(pids: seq<string>, errs: seq<Slot>) returns (at: seq<nat>)
    requires |pids| == |errs|
    ensures Points(pids, errs, Failures(pids, errs), at) && CoversFailures(errs, at)
  {
    at := [];
    if pids != [] {
      var n := |pids| - 1;
      var before := Failures(pids[..n], errs[..n]);
      at := FailuresInOrder(pids[..n], errs[..n]);
      PointsOn(pids, errs, before, at);
      CoversOn(errs, at);
      if errs[n].Some? {
        at := at + [n];
      } else {
        assert before + [] == before;
      }
    }
  }

  lemma {:induction false} OneOrTheOther(pids: seq<string>, errs: seq<Slot>)
    requires |pids| == |errs|
    ensures Succeeded(errs) + |Failures(pids, errs)| == |pids|
  {
    if pids != [] {
      OneOrTheOther(pids[..|pids| - 1], errs[..|errs| - 1]);
    }
  }

  /** No failing PID is left out. */
  lemma FailuresComplete(pids: seq<string>, errs: seq<Slot>, i: nat)
    requires |pids| == |errs| && i < |pids| && errs[i].Some?
    ensures PidError(pids[i], errs[i].value) in Failures(pids, errs)
  {
    var at := FailuresInOrder(pids, errs);
    var k :| 0 <= k < |at| && at[k] == i;
    assert Failures(pids, errs)[k] == PidError(pids[i], errs[i].value);
  }

  lemma {:induction false} FailuresOfAll(pids: seq<string>, errs: seq<Slot>)
    requires |pids| == |errs|
    ensures |Failures(pids, errs)| == |pids| <==> forall i :: 0 <= i < |pids| ==> errs[i].Some?
    ensures |Failures(pids, errs)| == |pids| ==>
              forall i :: 0 <= i < |pids| ==>
                errs[i].Some? && Failures(pids, errs)[i] == PidError(pids[i], errs[i].value)
  {
    if pids != [] {
      var n := |pids| - 1;
      FailuresOfAll(pids[..n], errs[..n]);
    }
  }

  /**
   Success exactly when there was a PID and one of them succeeded; otherwise every PID is listed with
   its reason, in input order. A notice goes out exactly when some but not all failed.
   */
  lemma VerdictMeaning(pids: seq<string>, errs: seq<Slot>)
    requires |pids| == |errs|
    ensures VerdictOf(pids, errs) == Success <==> exists i :: 0 <= i < |pids| && errs[i] == None
    ensures VerdictOf(pids, errs) == NoPids <==> pids == []
    ensures VerdictOf(pids, errs).AllFailed? ==>
              var failed := VerdictOf(pids, errs).failed;
              && |failed| == |pids|
              && forall i :: 0 <= i < |pids| ==> Some(failed[i].err) == errs[i] && failed[i].pid == pids[i]
    ensures NoticesOf(pids, errs) != [] <==>
              (exists i :: 0 <= i < |pids| && errs[i] == None) && (exists i :: 0 <= i < |pids| && errs[i].Some?)
  {
    FailuresOfAll(pids, errs);
    var at := FailuresInOrder(pids, errs);
    if exists i :: 0 <= i < |pids| && errs[i].Some? {
      var i :| 0 <= i < |pids| && errs[i].Some?;
      FailuresComplete(pids, errs, i);
    }
    if |Failures(pids, errs)| > 0 {
      assert errs[at[0]].Some?;
    }
  }

  /**
   There is never more than one notice. It gives the number of all PIDs and of those that succeeded, and lists
   exactly the others: the PIDs of all slots with an error, in input order, each with that error.
   */
  lemma NoticeMeaning(pids: seq<string>, errs: seq<Slot>, n: nat, total: nat, skipped: seq<PidError>)
    returns (at: seq<nat>)
    requires |pids| == |errs|
    ensures |NoticesOf(pids, errs)| <= 1
    ensures NoticesOf(pids, errs) == [Notice(n, total, skipped)] ==>
              && total == |pids| && n == |set i: nat | i < total && errs[i] == None|
              && n + |skipped| == total && 0 < n < total
              && |at| == |skipped|
              && (forall k, m :: 0 <= k < m < |at| ==> at[k] < at[m])
              && (forall k :: 0 <= k < |at| ==>
                    at[k] < total && skipped[k].pid == pids[at[k]] && errs[at[k]] == Some(skipped[k].err))
              && (forall i :: 0 <= i < |errs| && errs[i].Some? ==> i in at)
  {
    at := FailuresInOrder(pids, errs);
    OneOrTheOther(pids, errs);
    SucceededCounts(errs);
  }

  // ---------- the error itself ----------

  /** Every PID with its reason, in order. */
  ghost predicate Reasons(failed: seq<PidError>, show: Failure -> string, reasons: seq<string>) {
    && |reasons| == |failed|
    && forall i :: 0 <= i < |failed| ==> reasons[i] == "PID " + failed[i].pid + ": " + show(failed[i].err)
  }

  method Error(failed: seq<PidError>, show: Failure -> string) returns (text: string)
    ensures exists reasons :: Reasons(failed, show, reasons) && text == Join(reasons, "; ")
  {
    var reasons := new string[|failed|](_ => "");
    for i := 0 to |failed|
      invariant Reasons(failed[..i], show, reasons[..i])
    {
      reasons[i] := "PID " + failed[i].pid + ": " + show(failed[i].err);
      assert failed[..i + 1] == failed[..i] + [failed[i]] && reasons[..i + 1] == reasons[..i] + [reasons[i]];
    }
    assert failed[..|failed|] == failed && reasons[..|failed|] == reasons[..];
    text := Join(reasons[..], "; ");
  }

  /** The causes stay reachable: of a run in which every PID failed, exactly the per-PID errors, in input order. */
  method Unwrap(failed: seq<PidError>) returns (errs: seq<Failure>)
    ensures |errs| == |failed| && forall i :: 0 <= i < |failed| ==> errs[i] == failed[i].err
  {
    errs := [];
    for i := 0 to |failed|
      invariant |errs| == i && forall k :: 0 <= k < i ==> errs[k] == failed[k].err
    {
      errs := errs + [failed[i].err];
    }
  }
}
