/**
 Which PIDs to profile: the leaves of the container's process tree, read through newline-separated
 command output, then filtered by what `ps` prints for each.
 */
module ProcessTree {
  import opened Text
  import opened Pipelines

  datatype Tree = Node(pid: string, kids: seq<Tree>)

  /** What a command printed, and whether it exited well. */
  datatype Printed = Printed(ok: bool, stdout: string)

  function Roots(ts: seq<Tree>): (r: seq<string>)
    ensures |r| == |ts|
  {
    seq(|ts|, i requires 0 <= i < |ts| => ts[i].pid)
  }

  /** The leaves, left to right. */
  function Leaves(t: Tree): seq<string> {
    if t.kids == [] then [t.pid] else LeavesOf(t.kids)
  }

  function LeavesOf(ts: seq<Tree>): seq<string> {
    if ts == [] then [] else LeavesOf(ts[..|ts| - 1]) + Leaves(ts[|ts| - 1])
  }

  function Pids(t: Tree): seq<string> { [t.pid] + PidsOf(t.kids) }

  function PidsOf(ts: seq<Tree>): seq<string> {
    if ts == [] then [] else PidsOf(ts[..|ts| - 1]) + Pids(ts[|ts| - 1])
  }

  predicate IsPid(s: string) { s != "" && NoSpace(s) }

  /** `pgrep -P` prints the children, one a line; it exits with an error when there are none. */
  ghost predicate Describes(pgrep: string -> Printed, t: Tree) {
    && IsPid(t.pid)
    && (if t.kids == [] then !pgrep(t.pid).ok || IsBlank(pgrep(t.pid).stdout)
        else pgrep(t.pid) == Printed(true, Unlines(Roots(t.kids))))
    && forall i :: 0 <= i < |t.kids| ==> Describes(pgrep, t.kids[i])
  }

  /** The children as one string, without the white space around it; "" when there are none. */
  function Get(pgrep: string -> Printed, pid: string): string {
    var output := TrimSpace(pgrep(pid).stdout);
    if pgrep(pid).ok && !IsBlank(output) then output else ""
  }

  lemma {:induction false} UnlinesJoin(parts: seq<string>)
    requires |parts| > 0
    ensures Unlines(parts) == Join(parts, "\n") + "\n"
  {
    if |parts| == 1 {
      assert parts[1..] == [];
    } else {
      UnlinesJoin(parts[1..]);
    }
  }

  lemma {:induction false} JoinEnds(parts: seq<string>)
    requires |parts| > 0 && forall i :: 0 <= i < |parts| ==> IsPid(parts[i])
    ensures var s := Join(parts, "\n"); s != "" && !IsSpace(s[0]) && !IsSpace(s[|s| - 1])
  {
    if |parts| > 1 {
      JoinEnds(parts[1..]);
      var s, rest := Join(parts, "\n"), Join(parts[1..], "\n");
      assert s[|s| - 1] == rest[|rest| - 1];
    }
  }

  lemma {:induction false} BlankTrims(s: string)
    requires IsBlank(s)
    ensures TrimSpace(s) == ""
    decreases |s|
  {
    if s != "" {
      BlankTrims(s[1..]);
    }
  }

  /** Printing the children and splitting what was read gives the children back. */
  lemma ChildrenRoundTrip(pgrep: string -> Printed, t: Tree)
    requires Describes(pgrep, t)
    ensures t.kids == [] ==> Get(pgrep, t.pid) == ""
    ensures t.kids != [] ==> !IsBlank(Get(pgrep, t.pid)) && Split(Get(pgrep, t.pid), '\n') == Roots(t.kids)
    ensures |t.kids| == 1 ==> Get(pgrep, t.pid) == t.kids[0].pid
  {
    var stdout := pgrep(t.pid).stdout;
    if t.kids == [] {
      if pgrep(t.pid).ok {
        BlankTrims(stdout);
      }
    } else {
      var parts := Roots(t.kids);
      var s := Join(parts, "\n");
      assert forall i :: 0 <= i < |parts| ==> IsPid(parts[i]) by {
        assert forall i :: 0 <= i < |parts| ==> Describes(pgrep, t.kids[i]);
      }
      UnlinesJoin(parts);
      JoinEnds(parts);
      TrimOneNewline(s);
      forall i | 0 <= i < |parts|
        ensures '\n' !in parts[i]
      {
        assert IsPid(parts[i]);
      }
      SplitJoin(parts, '\n');
    }
  }

  lemma TrimOneNewline(s: string)
    requires s != "" && !IsSpace(s[0]) && !IsSpace(s[|s| - 1])
    ensures TrimSpace(s + "\n") == s
  {
    assert TrimLeft(s + "\n") == s + "\n";
    assert (s + "\n")[..|s|] == s;
    assert TrimRight(s) == s;
  }

  lemma LeavesOfOne(ts: seq<Tree>)
    requires |ts| == 1
    ensures LeavesOf(ts) == Leaves(ts[0])
  {
    assert ts[..0] == [];
  }

  // ---------- filtering ----------

  function LowerCase(c: char): char { if 'A' <= c <= 'Z' then (c as int + 32) as char else c }

  function Lower(s: string): (r: string)
    ensures |r| == |s|
  {
    seq(|s|, i requires 0 <= i < |s| => LowerCase(s[i]))
  }

  predicate ContainsIgnoreCase(s: string, part: string) { Contains(Lower(s), Lower(part)) }

  /** Whether the PID's own `ps` output mentions the wanted name. */
  predicate Matches(ps: string -> Printed, name: string, pid: string) {
    ContainsIgnoreCase(TrimSpace(ps(pid).stdout), name)
  }

  /** The same letter, in whatever case, or the same other character. */
  predicate SameLetter(c: char, d: char) {
    || c == d
    || ('A' <= c <= 'Z' && d as int == c as int + 32)
    || ('A' <= d <= 'Z' && c as int == d as int + 32)
  }

  lemma LowerMeaning(a: string, b: string)
    ensures Lower(a) == Lower(b) <==> |a| == |b| && forall i :: 0 <= i < |a| ==> SameLetter(a[i], b[i])
  {
    if Lower(a) == Lower(b) {
      forall i | 0 <= i < |a|
        ensures SameLetter(a[i], b[i])
      {
        assert Lower(a)[i] == Lower(b)[i];
      }
    }
  }

  /** A PID matches exactly if somewhere in what `ps` printed of it stands the name, in whatever case. */
  lemma MatchMeaning(ps: string -> Printed, name: string, pid: string)
    ensures var s := TrimSpace(ps(pid).stdout);
            Matches(ps, name, pid) <==>
              exists i :: 0 <= i <= |s| - |name| && StandsAt(s, name, i)
  {
    var s := TrimSpace(ps(pid).stdout);
    forall i: nat | i <= |s|
      ensures OccursAt(Lower(s), Lower(name), i) <==> i <= |s| - |name| && StandsAt(s, name, i)
    {
      if i <= |s| - |name| {
        assert Lower(s)[i..i + |name|] == Lower(s[i..i + |name|]);
        LowerMeaning(s[i..i + |name|], name);
      }
    }
  }

  predicate StandsAt(s: string, name: string, i: int)
    requires 0 <= i <= |s| - |name|
  {
    forall j :: 0 <= j < |name| ==> SameLetter(s[i + j], name[j])
  }

  function Keep(ps: string -> Printed, name: string, pids: seq<string>): seq<string> {
    if pids == [] then []
    else
      var pid := pids[|pids| - 1];
      Keep(ps, name, pids[..|pids| - 1]) + if Matches(ps, name, pid) then [pid] else []
  }

  /** The PIDs a SetUp settles on: all the leaves without a name, the matching ones with one. */
  function Chosen(ps: string -> Printed, name: string, pids: seq<string>): seq<string> {
    if IsBlank(name) then pids else Keep(ps, name, pids)
  }

  predicate AllPrint(ps: string -> Printed, pids: seq<string>) { forall i :: 0 <= i < |pids| ==> ps(pids[i]).ok }

  datatype Setup = Ready(pids: seq<string>, notices: seq<Event>) | SetupFailed(reason: string)

  lemma KeepNext(ps: string -> Printed, name: string, pids: seq<string>, i: nat)
    requires i < |pids|
    ensures Keep(ps, name, pids[..i + 1])
         == Keep(ps, name, pids[..i]) + if Matches(ps, name, pids[i]) then [pids[i]] else []
    ensures AllPrint(ps, pids[..i + 1]) <==> AllPrint(ps, pids[..i]) && ps(pids[i]).ok
  {
    assert pids[..i + 1][..i] == pids[..i] && pids[..i + 1][i] == pids[i];
    if AllPrint(ps, pids[..i + 1]) {
      assert forall k :: 0 <= k < i ==> pids[..i][k] == pids[..i + 1][k];
    }
  }

  /** One buffer serves all the commands; it is emptied after each. */
  method Select(ps: string -> Printed, name: string, pids: seq<string>) returns (failed: bool, filtered: seq<string>)
    ensures failed <==> !AllPrint(ps, pids)
    ensures !failed ==> filtered == Keep(ps, name, pids)
  {
    var out := "";
    filtered := [];
    for i := 0 to |pids|
      invariant out == "" && filtered == Keep(ps, name, pids[..i]) && AllPrint(ps, pids[..i])
    {
      KeepNext(ps, name, pids, i);
      var printed := ps(pids[i]);
      out := out + printed.stdout;
      assert out == printed.stdout;
      var output := TrimSpace(out);
      if !printed.ok {
        return true, filtered;
      }
      if ContainsIgnoreCase(output, name) {
        filtered := filtered + [pids[i]];
      }
      out := "";
    }
    assert pids[..|pids|] == pids;
    failed := false;
  }

  class Finder {
    var pids: seq<string>

    constructor ()
      ensures pids == []
    {
      pids := [];
    }

    method FillWithChildren(pgrep: string -> Printed, pid: string, ghost t: Tree)
      requires Describes(pgrep, t) && t.pid == pid
      modifies this
      ensures pids == old(pids) + Leaves(t)
      decreases t
    {
      ChildrenRoundTrip(pgrep, t);
      var child := Get(pgrep, pid);
      if !IsBlank(child) {
        var parts := Split(child, '\n');
        if |parts| > 1 {
          FillWithAll(pgrep, parts, t.kids);
          return;
        }
        FillWithChildren(pgrep, child, t.kids[0]);
        LeavesOfOne(t.kids);
      } else {
        pids := pids + [pid];
      }
    }

    method FillWithAll(pgrep: string -> Printed, parts: seq<string>, ghost ts: seq<Tree>)
      requires parts == Roots(ts) && forall i :: 0 <= i < |ts| ==> Describes(pgrep, ts[i])
      modifies this
      ensures pids == old(pids) + LeavesOf(ts)
      decreases ts
    {
      for i := 0 to |parts|
        invariant pids == old(pids) + LeavesOf(ts[..i])
      {
        FillWithChildren(pgrep, parts[i], ts[i]);
        assert ts[..i + 1][..i] == ts[..i];
      }
      assert ts[..|parts|] == ts;
    }

    /** A failing command changes nothing. */
    method Filter(ps: string -> Printed, name: string) returns (failed: bool)
      modifies this
      ensures failed <==> !IsBlank(name) && !AllPrint(ps, old(pids))
      ensures pids == if failed then old(pids) else Chosen(ps, name, old(pids))
    {
      if IsBlank(name) {
        return false;
      }
      var filtered;
      failed, filtered := Select(ps, name, pids);
      if !failed {
        pids := filtered;
      }
    }
  }

  /** The PIDs to profile below a container's root process, if the runtime knows it. */
  method GetCandidatePIDs(
    root: Option<string>, pgrep: string -> Printed, ps: string -> Printed, name: string, ghost t: Tree)
    returns (setup: Setup)
    requires root.Some? ==> Describes(pgrep, t) && t.pid == root.value
    ensures setup.Ready? <==> root.Some? && (IsBlank(name) || AllPrint(ps, Leaves(t)))
    ensures setup.Ready? ==>
              && setup.pids == Chosen(ps, name, Leaves(t))
              && setup.notices == if |setup.pids| > 1 then [ManyPids(setup.pids)] else []
  {
    if root == None {
      return SetupFailed("no root process");
    }
    var finder := new Finder();
    finder.FillWithChildren(pgrep, root.value, t);
    assert finder.pids == Leaves(t);
    if |finder.pids| == 0 {
      LeavesNeverEmpty(t);
      assert false;
    }
    var failed := finder.Filter(ps, name);
    if failed {
      return SetupFailed("ps command failed");
    }
    setup := Ready(finder.pids, if |finder.pids| > 1 then [ManyPids(finder.pids)] else []);
  }

  // ---------- the leaves ----------

  /** There is always a leaf: the "no PIDs found" error cannot happen. */
  lemma {:induction false} LeavesNeverEmpty(t: Tree)
    ensures |Leaves(t)| > 0
  {
    if t.kids != [] {
      LeavesNeverEmpty(t.kids[|t.kids| - 1]);
    }
  }

  ghost predicate LeafBelow(t: Tree, pid: string) {
    if t.kids == [] then t.pid == pid else exists i :: 0 <= i < |t.kids| && LeafBelow(t.kids[i], pid)
  }

  /** Exactly the processes without children are found. */
  lemma {:induction false} LeavesExact(t: Tree, pid: string)
    ensures pid in Leaves(t) <==> LeafBelow(t, pid)
  {
    if t.kids != [] {
      LeavesOfExact(t.kids, pid);
    }
  }

  lemma {:induction false} LeavesOfExact(ts: seq<Tree>, pid: string)
    ensures pid in LeavesOf(ts) <==> exists i :: 0 <= i < |ts| && LeafBelow(ts[i], pid)
  {
    if ts != [] {
      var n := |ts| - 1;
      LeavesOfExact(ts[..n], pid);
      LeavesExact(ts[n], pid);
      assert ts == ts[..n] + [ts[n]];
    }
  }

  lemma {:induction false} LeavesAmongPids(t: Tree)
    ensures multiset(Leaves(t)) <= multiset(Pids(t))
  {
    if t.kids != [] {
      LeavesOfAmongPids(t.kids);
    }
  }

  lemma {:induction false} LeavesOfAmongPids(ts: seq<Tree>)
    ensures multiset(LeavesOf(ts)) <= multiset(PidsOf(ts))
  {
    if ts != [] {
      LeavesOfAmongPids(ts[..|ts| - 1]);
      LeavesAmongPids(ts[|ts| - 1]);
    }
  }

  lemma MultiplicityOfRepeat(s: seq<string>, i: nat, j: nat)
    requires i < j < |s| && s[i] == s[j]
    ensures multiset(s)[s[i]] >= 2
  {
    assert s == s[..j] + [s[j]] + s[j + 1..];
    assert s[i] == s[..j][i] && s[i] in multiset(s[..j]);
  }

  lemma {:induction false} DistinctMultiplicity(s: seq<string>, x: string)
    requires Distinct(s)
    ensures multiset(s)[x] <= 1
  {
    if s != [] {
      var n := |s| - 1;
      assert s == s[..n] + [s[n]];
      DistinctMultiplicity(s[..n], x);
      if s[n] == x && x in s[..n] {
        assert false;
      }
    }
  }

  /** Distinct processes give distinct leaves. */
  lemma LeavesDistinct(t: Tree)
    requires Distinct(Pids(t))
    ensures Distinct(Leaves(t))
  {
    var s := Leaves(t);
    LeavesAmongPids(t);
    forall i, j | 0 <= i < j < |s|
      ensures s[i] != s[j]
    {
      if s[i] == s[j] {
        MultiplicityOfRepeat(s, i, j);
        DistinctMultiplicity(Pids(t), s[i]);
      }
    }
  }

  /** The filter keeps exactly the PIDs whose own output matches, without repeats, in their order. */
  lemma {:induction false} KeepExact(ps: string -> Printed, name: string, pids: seq<string>) returns (at: seq<nat>)
    ensures var kept := Keep(ps, name, pids);
            && |at| == |kept|
            && (forall k, m :: 0 <= k < m < |at| ==> at[k] < at[m])
            && (forall k :: 0 <= k < |at| ==> at[k] < |pids| && kept[k] == pids[at[k]])
    ensures forall pid :: pid in Keep(ps, name, pids) <==> pid in pids && Matches(ps, name, pid)
  {
    at := [];
    if pids != [] {
      var n := |pids| - 1;
      at := KeepExact(ps, name, pids[..n]);
      if Matches(ps, name, pids[n]) {
        at := at + [n];
      }
      assert pids == pids[..n] + [pids[n]];
    }
  }

  lemma ChosenDistinct(ps: string -> Printed, name: string, pids: seq<string>)
    requires Distinct(pids)
    ensures Distinct(Chosen(ps, name, pids)) && forall pid :: pid in Chosen(ps, name, pids) ==> pid in pids
  {
    var at := KeepExact(ps, name, pids);
    var kept := Keep(ps, name, pids);
    assert forall i, j :: 0 <= i < j < |kept| ==> pids[at[i]] != pids[at[j]];
  }

  /** The list to profile is empty exactly when a filter is given and no process without children matches it. */
  lemma NobodyChosen(ps: string -> Printed, name: string, t: Tree)
    ensures Chosen(ps, name, Leaves(t)) == [] <==>
              !IsBlank(name) && forall pid :: LeafBelow(t, pid) ==> !Matches(ps, name, pid)
  {
    LeavesNeverEmpty(t);
    var at := KeepExact(ps, name, Leaves(t));
    forall pid
      ensures pid in Leaves(t) <==> LeafBelow(t, pid)
    {
      LeavesExact(t, pid);
    }
    if Keep(ps, name, Leaves(t)) != [] {
      var first := Keep(ps, name, Leaves(t))[0];
      assert first in Keep(ps, name, Leaves(t)) && LeafBelow(t, first) && Matches(ps, name, first);
    }
  }
}
