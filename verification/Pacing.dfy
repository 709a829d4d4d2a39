/**
 The pacing of iterations: durations and intervals are whole seconds, clocks are nanoseconds, and the
 pause after an iteration is worked out in whole milliseconds.
 */
module Pacing {

  const MILLISECOND := 1_000_000
  const SECOND := 1_000_000_000

  function Iterations(duration: nat, interval: nat): nat
    requires interval > 0
  {
    duration / interval
  }

  /** There are as many iterations as whole intervals in the duration: at least one, and no room for another. */
  lemma IterationsFill(duration: nat, interval: nat)
    requires 0 < interval <= duration
    ensures var n := Iterations(duration, interval);
            n >= 1 && n * interval <= duration < (n + 1) * interval
  {
  }

  /** The pause after an iteration that took `d`: the interval's milliseconds less those of `d`. */
  function Pause(interval: nat, d: nat): int {
    if d < interval * SECOND then (interval * 1000 - d / MILLISECOND) * MILLISECOND else 0
  }

  /** The pause is never negative, and rounding down `d` makes the iteration at most a millisecond too long. */
  lemma PauseFills(interval: nat, d: nat)
    requires d < interval * SECOND
    ensures Pause(interval, d) >= 0
    ensures interval * SECOND <= d + Pause(interval, d) < interval * SECOND + MILLISECOND
  {
    var ms := d / MILLISECOND;
    assert d == ms * MILLISECOND + d % MILLISECOND;
    assert (interval * 1000 - ms) * MILLISECOND == interval * SECOND - ms * MILLISECOND;
  }

  /** How long it really is: a sleep may last longer than asked for. */
  function PauseAfter(interval: nat, d: nat, late: nat): int {
    Pause(interval, d) + if d < interval * SECOND then late else 0
  }

  /**
   `marks[k]` is the time after k iterations; iteration k took `took[k]` and the sleep after it was
   `late[k]` too long.
   */
  predicate Paced(marks: seq<nat>, took: seq<nat>, late: seq<nat>, interval: nat) {
    && |marks| == |took| + 1 == |late| + 1
    && forall k :: 0 <= k < |took| ==>
         marks[k + 1] == marks[k] + took[k] + PauseAfter(interval, took[k], late[k])
  }

  lemma PacedSnoc(marks: seq<nat>, took: seq<nat>, late: seq<nat>, interval: nat, mark: nat, d: nat, l: nat)
    requires Paced(marks, took, late, interval)
    requires mark == marks[|took|] + d + PauseAfter(interval, d, l)
    ensures Paced(marks + [mark], took + [d], late + [l], interval)
  {
  }

  /** Iterations start at least an interval apart, whether or not one overruns. */
  lemma StartsApart(marks: seq<nat>, took: seq<nat>, late: seq<nat>, interval: nat, k: nat)
    requires Paced(marks, took, late, interval) && k < |took|
    ensures marks[k + 1] >= marks[k] + interval * SECOND
  {
    if took[k] < interval * SECOND {
      PauseFills(interval, took[k]);
    }
  }

  function Sum(s: seq<nat>): nat { if s == [] then 0 else Sum(s[..|s| - 1]) + s[|s| - 1] }

  /**
   When no iteration overruns, the k-th iteration ends k intervals after the start, give or take the
   truncated milliseconds and the lateness of the sleeps: the drift stays below one millisecond each.
   */
  lemma {:induction false} Drift(marks: seq<nat>, took: seq<nat>, late: seq<nat>, interval: nat, k: nat)
    requires Paced(marks, took, late, interval) && k <= |took|
    requires forall j :: 0 <= j < |took| ==> took[j] < interval * SECOND
    ensures marks[0] + k * (interval * SECOND) <= marks[k] - Sum(late[..k])
    ensures marks[k] - Sum(late[..k]) <= marks[0] + k * (interval * SECOND) + k * (MILLISECOND - 1)
  {
    if k > 0 {
      Drift(marks, took, late, interval, k - 1);
      PauseFills(interval, took[k - 1]);
      assert late[..k][..k - 1] == late[..k - 1];
      var i := interval * SECOND;
      assert k * i == (k - 1) * i + i;
      assert k * (MILLISECOND - 1) == (k - 1) * (MILLISECOND - 1) + (MILLISECOND - 1);
    }
  }
}
