/**
 The sampling profiler: a kernel hook counts samples per stack key in a table of bounded size, then
 the table is printed, one folded line per key.
 */
module BpfSamples {
  import opened Text
  import opened Legend

  const EFAULT := 14

  datatype Args = Args(
    includeIdle: bool, pid: Option<nat>, tid: Option<nat>,
    userStacksOnly: bool, kernelStacksOnly: bool, delimited: bool, annotations: bool)

  const TASK_COMM_LEN := 16

  /** A command name, as it fits its buffer with a zero at the end. */
  type Comm = s: string | |s| < TASK_COMM_LEN

  /** One timer tick, as the hook sees it. */
  datatype Tick = Tick(tgid: nat, pid: nat, comm: Comm, userStack: int, kernelStack: int, ip: nat, pageOffset: nat)

  datatype StackKey = StackKey(pid: nat, kernelIp: nat, userStackId: int, kernelStackId: int, name: Comm)

  predicate Accepted(args: Args, t: Tick) {
    && (args.includeIdle || t.pid != 0)
    && match (args.pid, args.tid)
       case (Some(p), _) => t.tgid == p
       case (None, Some(p)) => t.pid == p
       case (None, None) => true
  }

  function KeyOfTick(args: Args, t: Tick): StackKey {
    var user := if args.kernelStacksOnly && !args.userStacksOnly then -1 else t.userStack;
    var kernel := if args.userStacksOnly then -1 else t.kernelStack;
    StackKey(t.tgid, if kernel >= 0 && t.ip > t.pageOffset then t.ip else 0, user, kernel, t.comm)
  }

  /** The keys of the accepted ticks, in order. */
  function AcceptedKeys(args: Args, ticks: seq<Tick>): seq<StackKey> {
    if ticks == [] then []
    else
      var t := ticks[|ticks| - 1];
      AcceptedKeys(args, ticks[..|ticks| - 1]) + if Accepted(args, t) then [KeyOfTick(args, t)] else []
  }

  ghost predicate Tallies(counts: map<StackKey, nat>, keys: multiset<StackKey>) {
    && (forall k :: k in counts <==> k in keys)
    && (forall k :: k in counts ==> counts[k] == keys[k])
  }

  function KeySet(keys: seq<StackKey>): set<StackKey> { set k | k in keys }

  /** One increment: a new key finds no room in a full table, and its sample is lost. */
  function Increment(counts: map<StackKey, nat>, capacity: nat, key: StackKey): map<StackKey, nat> {
    if key in counts then counts[key := counts[key] + 1]
    else if |counts| < capacity then counts[key := 1]
    else counts
  }

  /** The table counts `kept`, a part of the samples in `keys`: all of them unless it is full. */
  ghost predicate Counting(counts: map<StackKey, nat>, kept: multiset<StackKey>, keys: seq<StackKey>, capacity: nat) {
    && Tallies(counts, kept)
    && kept <= multiset(keys)
    && |counts.Keys| <= capacity
    && counts.Keys <= KeySet(keys)
    && (kept == multiset(keys) || (|counts.Keys| == capacity && counts.Keys < KeySet(keys)))
  }

  lemma TallyOne(counts: map<StackKey, nat>, kept: multiset<StackKey>, key: StackKey)
    requires Tallies(counts, kept)
    ensures Tallies(counts[key := (if key in counts then counts[key] else 0) + 1], kept + multiset{key})
  {
  }

  lemma KeySetSnoc(keys: seq<StackKey>, key: StackKey)
    ensures KeySet(keys + [key]) == KeySet(keys) + {key}
    ensures multiset(keys + [key]) == multiset(keys) + multiset{key}
  {
  }

  lemma KeysCounted(
    counts: map<StackKey, nat>, kept: multiset<StackKey>, keys: seq<StackKey>, capacity: nat, key: StackKey)
    requires Counting(counts, kept, keys, capacity)
    requires key in counts || |counts| < capacity
    ensures var after := Increment(counts, capacity, key).Keys;
            && after == counts.Keys + {key} && |after| <= capacity && after <= KeySet(keys) + {key}
            && (kept == multiset(keys) || (|after| == capacity && after < KeySet(keys) + {key}))
  {
    assert |counts| == |counts.Keys|;
    assert Increment(counts, capacity, key).Keys == counts.Keys + {key};
    if key in counts {
      assert counts.Keys + {key} == counts.Keys && KeySet(keys) + {key} == KeySet(keys);
    }
  }

  lemma CountedKeeps(
    counts: map<StackKey, nat>, kept: multiset<StackKey>, keys: seq<StackKey>, capacity: nat, key: StackKey)
    requires Counting(counts, kept, keys, capacity)
    requires key in counts || |counts| < capacity
    ensures Counting(Increment(counts, capacity, key), kept + multiset{key}, keys + [key], capacity)
  {
    KeySetSnoc(keys, key);
    TallyOne(counts, kept, key);
    KeysCounted(counts, kept, keys, capacity, key);
  }

  lemma LostKeeps(
    counts: map<StackKey, nat>, kept: multiset<StackKey>, keys: seq<StackKey>, capacity: nat, key: StackKey)
    requires Counting(counts, kept, keys, capacity)
    requires key !in counts && |counts| >= capacity
    ensures Counting(counts, kept, keys + [key], capacity)
  {
    KeySetSnoc(keys, key);
    assert |counts| == |counts.Keys|;
    assert key !in counts.Keys && key in KeySet(keys + [key]);
  }

  lemma IncrementCounts(
    counts: map<StackKey, nat>, kept: multiset<StackKey>, keys: seq<StackKey>, capacity: nat, key: StackKey)
    returns (kept': multiset<StackKey>)
    requires Counting(counts, kept, keys, capacity)
    ensures Counting(Increment(counts, capacity, key), kept', keys + [key], capacity)
  {
    if key in counts || |counts| < capacity {
      CountedKeeps(counts, kept, keys, capacity, key);
      kept' := kept + multiset{key};
    } else {
      LostKeeps(counts, kept, keys, capacity, key);
      kept' := kept;
    }
  }

  lemma CountingComplete(counts: map<StackKey, nat>, kept: multiset<StackKey>, keys: seq<StackKey>, capacity: nat)
    requires Counting(counts, kept, keys, capacity)
    ensures kept == multiset(keys) <==> |KeySet(keys)| <= capacity
  {
    if kept == multiset(keys) {
      forall k | k in keys
        ensures k in counts.Keys
      {
        assert k in multiset(keys);
      }
      assert KeySet(keys) == counts.Keys;
    } else {
      assert |KeySet(keys) - counts.Keys| + |counts.Keys| == |KeySet(keys)|;
    }
  }

  function CountsOf(args: Args, ticks: seq<Tick>, capacity: nat): map<StackKey, nat> {
    if ticks == [] then map[]
    else
      var t := ticks[|ticks| - 1];
      var counts := CountsOf(args, ticks[..|ticks| - 1], capacity);
      if Accepted(args, t) then Increment(counts, capacity, KeyOfTick(args, t)) else counts
  }

  /** The hook, tick by tick, over a table with room for `capacity` keys. */
  method CountSamples(args: Args, ticks: seq<Tick>, capacity: nat) returns (counts: map<StackKey, nat>)
    ensures counts == CountsOf(args, ticks, capacity)
  {
    counts := map[];
    for i := 0 to |ticks|
      invariant counts == CountsOf(args, ticks[..i], capacity)
    {
      assert ticks[..i + 1][..i] == ticks[..i];
      if Accepted(args, ticks[i]) {
        var key := KeyOfTick(args, ticks[i]);
        if key in counts {
          counts := counts[key := counts[key] + 1];
        } else if |counts| < capacity {
          counts := counts[key := 1];
        }
      }
    }
    assert ticks[..|ticks|] == ticks;
  }

  lemma {:induction false} CountingHolds(args: Args, ticks: seq<Tick>, capacity: nat) returns (kept: multiset<StackKey>)
    ensures Counting(CountsOf(args, ticks, capacity), kept, AcceptedKeys(args, ticks), capacity)
  {
    if ticks == [] {
      kept := multiset{};
    } else {
      var t := ticks[|ticks| - 1];
      kept := CountingHolds(args, ticks[..|ticks| - 1], capacity);
      if Accepted(args, t) {
        kept := IncrementCounts(CountsOf(args, ticks[..|ticks| - 1], capacity), kept,
                                AcceptedKeys(args, ticks[..|ticks| - 1]), capacity, KeyOfTick(args, t));
      }
    }
  }

  /**
   The table tallies some of the accepted samples, and it tallies all of them exactly when all their
   keys fit.
   */
  lemma LossOnlyWhenFull(args: Args, ticks: seq<Tick>, capacity: nat)
    ensures exists kept ::
              && Tallies(CountsOf(args, ticks, capacity), kept)
              && kept <= multiset(AcceptedKeys(args, ticks))
              && (kept == multiset(AcceptedKeys(args, ticks)) <==> |KeySet(AcceptedKeys(args, ticks))| <= capacity)
  {
    var kept := CountingHolds(args, ticks, capacity);
    CountingComplete(CountsOf(args, ticks, capacity), kept, AcceptedKeys(args, ticks), capacity);
  }

  // ---------- which ticks are counted ----------

  /** The filter as the flags ask for it: one process, else one thread, else all; idle ticks only on demand. */
  predicate AskedFor(args: Args, t: Tick) {
    && (t.pid == 0 ==> args.includeIdle)
    && (args.pid.Some? ==> t.tgid == args.pid.value)
    && (args.pid == None && args.tid.Some? ==> t.pid == args.tid.value)
  }

  /** The positions of the ticks that are asked for. */
  function AskedAt(args: Args, ticks: seq<Tick>): set<nat> { set i: nat | i < |ticks| && AskedFor(args, ticks[i]) }

  lemma AskedAtSnoc(args: Args, ticks: seq<Tick>, t: Tick)
    ensures AskedAt(args, ticks + [t]) == AskedAt(args, ticks) + if AskedFor(args, t) then {|ticks|} else {}
  {
    forall i: nat | i < |ticks|
      ensures (ticks + [t])[i] == ticks[i]
    {
    }
  }

  /** One key is recorded for each tick that is asked for, in their order, and each with its process's PID and name. */
  lemma {:induction false} CountedTicks(args: Args, ticks: seq<Tick>) returns (at: seq<nat>)
    ensures var keys := AcceptedKeys(args, ticks);
            && |keys| == |AskedAt(args, ticks)| == |at|
            && (forall k, m :: 0 <= k < m < |at| ==> at[k] < at[m])
            && (forall k :: 0 <= k < |at| ==>
                  && at[k] in AskedAt(args, ticks)
                  && keys[k].pid == ticks[at[k]].tgid && keys[k].name == ticks[at[k]].comm)
  {
    at := [];
    if ticks != [] {
      var n := |ticks| - 1;
      at := CountedTicks(args, ticks[..n]);
      AskedAtSnoc(args, ticks[..n], ticks[n]);
      assert ticks == ticks[..n] + [ticks[n]];
      if AskedFor(args, ticks[n]) {
        at := at + [n];
      }
    }
  }

  /** The flags the agent gives the profiler for one PID. */
  function AgentArgs(pid: nat): Args { Args(false, Some(pid), None, true, false, true, false) }

  /**
   Under the agent's flags the table holds samples of the one process only, and what it is asked to count is one
   sample for each of that process's ticks that is not idle.
   */
  lemma OnlyTheProcess(p: nat, ticks: seq<Tick>, capacity: nat)
    ensures forall k :: k in CountsOf(AgentArgs(p), ticks, capacity) ==> k.pid == p
    ensures |AcceptedKeys(AgentArgs(p), ticks)| ==
              |set i: nat | i < |ticks| && ticks[i].tgid == p && ticks[i].pid != 0|
  {
    var at := CountedTicks(AgentArgs(p), ticks);
    var kept := CountingHolds(AgentArgs(p), ticks, capacity);
    forall k | k in CountsOf(AgentArgs(p), ticks, capacity)
      ensures k.pid == p
    {
      assert k in KeySet(AcceptedKeys(AgentArgs(p), ticks));
    }
    assert AskedAt(AgentArgs(p), ticks) == set i: nat | i < |ticks| && ticks[i].tgid == p && ticks[i].pid != 0;
  }

  /**
   When two ticks are counted together: same process and command name, and the same stacks as far as they are
   looked at; with a kernel stack, also the same instruction pointer, unless neither points into the kernel.
   */
  lemma SameKey(args: Args, t: Tick, u: Tick)
    ensures KeyOfTick(args, t) == KeyOfTick(args, u) <==>
              && t.tgid == u.tgid && t.comm == u.comm
              && (args.userStacksOnly || !args.kernelStacksOnly ==> t.userStack == u.userStack)
              && (!args.userStacksOnly ==>
                    t.kernelStack == u.kernelStack && (t.kernelStack >= 0 ==> SaneIp(t) == SaneIp(u)))
  {
  }

  /** An instruction pointer that points into the kernel; zero stands for any other. */
  function SaneIp(t: Tick): nat { if t.ip > t.pageOffset then t.ip else 0 }

  // ---------- printing ----------

  predicate StackIdErr(id: int) { id < 0 && id != -EFAULT }

  /** What turns stack ids into addresses, and addresses into names. */
  datatype Symbols = Symbols(walk: int -> seq<nat>, sym: (nat, nat) -> string, ksym: nat -> string)

  function Reversed<T>(s: seq<T>): (r: seq<T>)
    ensures |r| == |s|
  {
    seq(|s|, i requires 0 <= i < |s| => s[|s| - 1 - i])
  }

  function UserFrames(args: Args, syms: Symbols, k: StackKey): seq<string> {
    if args.kernelStacksOnly then []
    else if StackIdErr(k.userStackId) then ["[Missed User Stack]"]
    else
      var addrs := if k.userStackId < 0 then [] else Reversed(syms.walk(k.userStackId));
      seq(|addrs|, i requires 0 <= i < |addrs| => syms.sym(addrs[i], k.pid))
  }

  function KernelFrames(args: Args, syms: Symbols, k: StackKey): seq<string> {
    if args.userStacksOnly then []
    else
      var needDelimiter := args.delimited && !args.kernelStacksOnly;
      var delimiter := if needDelimiter && k.kernelStackId >= 0 && k.userStackId >= 0 then ["-"] else [];
      delimiter + if StackIdErr(k.kernelStackId) then ["[Missed Kernel Stack]"] else KernelNames(args, syms, k)
  }

  function KernelNames(args: Args, syms: Symbols, k: StackKey): seq<string> {
    var walked := if k.kernelStackId < 0 then [] else syms.walk(k.kernelStackId);
    var addrs := Reversed(if k.kernelStackId >= 0 && k.kernelIp != 0 then [k.kernelIp] + walked else walked);
    seq(|addrs|, i requires 0 <= i < |addrs| => syms.ksym(addrs[i]) + if args.annotations then "_[k]" else "")
  }

  function Frames(args: Args, syms: Symbols, k: StackKey): seq<string> {
    [k.name] + UserFrames(args, syms, k) + KernelFrames(args, syms, k)
  }

  /** What is printed of a sample: the command name, then the stacks that are asked for, the user stack first. */
  lemma StacksAskedFor(args: Args, syms: Symbols, k: StackKey)
    ensures Frames(args, syms, k) ==
              [k.name] + (if args.kernelStacksOnly then [] else UserFrames(args, syms, k))
              + if args.userStacksOnly then [] else KernelFrames(args, syms, k)
  {
  }

  /** The user stack's innermost frame, where the walk starts, is printed last; a stack that got lost leaves a mark. */
  lemma UserFramesInOrder(args: Args, syms: Symbols, k: StackKey)
    requires !args.kernelStacksOnly
    ensures var frames, walk := UserFrames(args, syms, k), syms.walk(k.userStackId);
            if k.userStackId == -14 then frames == []
            else if k.userStackId < 0 then frames == ["[Missed User Stack]"]
            else
              |frames| == |walk| && forall j :: 0 <= j < |walk| ==> frames[|walk| - 1 - j] == syms.sym(walk[j], k.pid)
  {
  }

  /** The same of the kernel stack; its innermost frame is the instruction pointer itself, where that was recorded. */
  lemma KernelNamesInOrder(args: Args, syms: Symbols, k: StackKey)
    requires k.kernelStackId >= 0
    ensures var names, walk := KernelNames(args, syms, k), syms.walk(k.kernelStackId);
            var e, mark := if k.kernelIp != 0 then 1 else 0, if args.annotations then "_[k]" else "";
            && |names| == |walk| + e
            && (e == 1 ==> names[|names| - 1] == syms.ksym(k.kernelIp) + mark)
            && forall j :: 0 <= j < |walk| ==> names[|names| - 1 - e - j] == syms.ksym(walk[j]) + mark
  {
  }

  /** Before the kernel stack comes a delimiter if one is asked for and both stacks are there. */
  lemma KernelFramesInOrder(args: Args, syms: Symbols, k: StackKey)
    requires !args.userStacksOnly
    ensures KernelFrames(args, syms, k) ==
              if k.kernelStackId == -14 then []
              else if k.kernelStackId < 0 then ["[Missed Kernel Stack]"]
              else if args.delimited && !args.kernelStacksOnly && k.userStackId >= 0
              then ["-"] + KernelNames(args, syms, k) else KernelNames(args, syms, k)
  {
    assert [] + KernelNames(args, syms, k) == KernelNames(args, syms, k);
  }

  function FoldedLine(args: Args, syms: Symbols, k: StackKey, count: nat): string {
    Stack(args, syms, k) + " " + Itoa(count)
  }

  function Stack(args: Args, syms: Symbols, k: StackKey): string { Join(Frames(args, syms, k), ";") }

  type Item = (StackKey, nat)

  function FoldedLines(args: Args, syms: Symbols, items: seq<Item>): (lines: seq<string>)
    ensures |lines| == |items|
  {
    Each(items, LineOf(args, syms))
  }

  function LineOf(args: Args, syms: Symbols): Item -> string { (item: Item) => FoldedLine(args, syms, item.0, item.1) }

  function Each<A, B>(s: seq<A>, f: A -> B): (r: seq<B>)
    ensures |r| == |s|
  {
    seq(|s|, i requires 0 <= i < |s| => f(s[i]))
  }

  lemma EachSnoc<A, B>(s: seq<A>, x: A, f: A -> B)
    ensures Each(s + [x], f) == Each(s, f) + [f(x)]
  {
  }

  function MissedStacks(args: Args, items: seq<Item>): nat {
    if items == [] then 0
    else
      MissedStacks(args, items[..|items| - 1]) + Missed(args, items[|items| - 1].0)
  }

  function Missed(args: Args, k: StackKey): nat {
    (if !args.userStacksOnly && StackIdErr(k.kernelStackId) then 1 else 0)
    + (if !args.kernelStacksOnly && StackIdErr(k.userStackId) then 1 else 0)
  }

  /** A stack is missed if it was asked for and got lost; one that never was is not. */
  lemma MissedMeaning(args: Args, k: StackKey)
    ensures Missed(args, k) ==
              (if !args.userStacksOnly && k.kernelStackId < 0 && k.kernelStackId != -14 then 1 else 0)
              + (if !args.kernelStacksOnly && k.userStackId < 0 && k.userStackId != -14 then 1 else 0)
  {
  }

  /** The table's items, each once, in ascending order of their counts. */
  ghost predicate SortedItems(items: seq<Item>, counts: map<StackKey, nat>) {
    && (forall i, j :: 0 <= i < j < |items| ==> items[i].0 != items[j].0)
    && (forall i :: 0 <= i < |items| ==> items[i].0 in counts && counts[items[i].0] == items[i].1)
    && (forall k :: k in counts ==> exists i :: 0 <= i < |items| && items[i].0 == k)
    && (forall i, j :: 0 <= i < j < |items| ==> items[i].1 <= items[j].1)
  }

  /** One turn of the output loop. */
  method PrintStack(args: Args, syms: Symbols, k: StackKey, count: nat) returns (text: string, missing: nat)
    ensures text == FoldedLine(args, syms, k, count) + "\n" && missing == Missed(args, k)
  {
    missing := 0;
    if !args.userStacksOnly && StackIdErr(k.kernelStackId) {
      missing := missing + 1;
    }
    if !args.kernelStacksOnly && StackIdErr(k.userStackId) {
      missing := missing + 1;
    }
    var line := [k.name];
    line := line + UserFrames(args, syms, k);
    line := line + KernelFrames(args, syms, k);
    text := Join(line, ";") + " " + Itoa(count) + "\n";
  }

  /** The output loop, in folded form. The missed stacks only go to the warning on standard error. */
  method PrintFolded(args: Args, syms: Symbols, items: seq<Item>) returns (out: string, missingStacks: nat)
    ensures out == Unlines(FoldedLines(args, syms, items))
    ensures missingStacks == MissedStacks(args, items)
  {
    out, missingStacks := "", 0;
    for i := 0 to |items|
      invariant out == Unlines(FoldedLines(args, syms, items[..i]))
      invariant missingStacks == MissedStacks(args, items[..i])
    {
      assert items[..i + 1][..i] == items[..i];
      FoldedSnoc(args, syms, items, i);
      var text, missing := PrintStack(args, syms, items[i].0, items[i].1);
      out, missingStacks := out + text, missingStacks + missing;
    }
    assert items[..|items|] == items;
  }

  lemma FoldedSnoc(args: Args, syms: Symbols, items: seq<Item>, i: nat)
    requires i < |items|
    ensures Unlines(FoldedLines(args, syms, items[..i + 1]))
         == Unlines(FoldedLines(args, syms, items[..i])) + (FoldedLine(args, syms, items[i].0, items[i].1) + "\n")
  {
    FoldedLinesSnoc(args, syms, items, i);
    UnlinesSnoc(FoldedLines(args, syms, items[..i]), FoldedLine(args, syms, items[i].0, items[i].1));
  }

  lemma FoldedLinesSnoc(args: Args, syms: Symbols, items: seq<Item>, i: nat)
    requires i < |items|
    ensures FoldedLines(args, syms, items[..i + 1])
         == FoldedLines(args, syms, items[..i]) + [FoldedLine(args, syms, items[i].0, items[i].1)]
  {
    EachSnoc(items[..i], items[i], LineOf(args, syms));
    assert items[..i + 1] == items[..i] + [items[i]];
  }

  // ---------- conservation ----------

  function SumItems(items: seq<Item>): nat {
    if items == [] then 0 else items[0].1 + SumItems(items[1..])
  }

  lemma RestCovers(items: seq<Item>, counts: map<StackKey, nat>, k: StackKey)
    requires items != [] && SortedItems(items, counts) && k in counts && k != items[0].0
    ensures exists j :: 0 <= j < |items[1..]| && items[1..][j].0 == k
  {
    var i :| 0 <= i < |items| && items[i].0 == k;
    assert items[1..][i - 1].0 == k;
  }

  lemma RestSorted(items: seq<Item>, counts: map<StackKey, nat>)
    requires items != [] && SortedItems(items, counts)
    ensures var rest := items[1..];
            && (forall i, j :: 0 <= i < j < |rest| ==> rest[i].0 != rest[j].0 && rest[i].1 <= rest[j].1)
            && (forall i :: 0 <= i < |rest| ==> rest[i].0 in counts && counts[rest[i].0] == rest[i].1)
            && (forall i :: 0 <= i < |rest| ==> rest[i].0 != items[0].0)
  {
  }

  lemma SortedItemsRest(items: seq<Item>, counts: map<StackKey, nat>)
    requires items != [] && SortedItems(items, counts)
    ensures SortedItems(items[1..], counts - {items[0].0})
  {
    RestSorted(items, counts);
    forall k | k in counts - {items[0].0}
      ensures exists i :: 0 <= i < |items[1..]| && items[1..][i].0 == k
    {
      RestCovers(items, counts, k);
    }
  }

  /** The counts of a tally add up to the number of samples it tallies. */
  lemma {:induction false} SumOfTally(items: seq<Item>, counts: map<StackKey, nat>, kept: multiset<StackKey>)
    requires SortedItems(items, counts) && Tallies(counts, kept)
    ensures SumItems(items) == |kept|
  {
    if items == [] {
      assert kept == multiset{};
    } else {
      var k := items[0].0;
      SortedItemsRest(items, counts);
      SumOfTally(items[1..], counts - {k}, kept[k := 0]);
      assert items[0].1 == kept[k];
    }
  }

  /** What a reader counts on lines that are none of ours: a name with a newline puts whole lines before its own. */
  function Inventions(args: Args, syms: Symbols, items: seq<Item>): nat {
    if items == [] then 0
    else FoldedTotal(WholeLines(Stack(args, syms, items[0].0))) + Inventions(args, syms, items[1..])
  }

  /** What such lines hide behind a carriage return. */
  function Hidden(args: Args, syms: Symbols, items: seq<Item>): nat {
    if items == [] then 0
    else ExposedTotal(WholeLines(Stack(args, syms, items[0].0))) + Hidden(args, syms, items[1..])
  }

  function Output(args: Args, syms: Symbols, items: seq<Item>): string { Unlines(FoldedLines(args, syms, items)) }

  /** What the relabelling brings to light of it: nothing, when it gives back its input. */
  function Revealed(args: Args, syms: Symbols, items: seq<Item>): nat {
    var out := Output(args, syms, items);
    if IsBlank(out) || !Scannable(out, MAX_TOKEN) then 0 else Hidden(args, syms, items)
  }

  /** One printed line: the whole lines in its stack, and then its own count. */
  lemma LineTotal(stack: string, count: nat)
    ensures var text := stack + " " + Itoa(count) + "\n";
            && EndsLine(text)
            && FoldedTotal(text) == FoldedTotal(WholeLines(stack)) + count
            && ExposedTotal(text) == ExposedTotal(WholeLines(stack))
  {
    var head, tail := WholeLines(stack), After(stack, '\n');
    var own := tail + " " + Itoa(count);
    AfterShape(stack, '\n');
    CountAfterSpace(tail, count);
    Regroup(head, tail, Itoa(count));
    TotalsAppend(head, own + "\n");
    TotalOfLine(own);
  }

  lemma Regroup(head: string, tail: string, number: string)
    ensures head + tail + " " + number + "\n" == head + (tail + " " + number + "\n")
  {
  }

  lemma TotalOfLine(own: string)
    requires NoNewline(own) && !HasSuffix(own, "\r")
    ensures FoldedTotal(own + "\n") == CountOf(own) && ExposedTotal(own + "\n") == 0
  {
    LinesCons(own, "");
    assert own + "\n" + "" == own + "\n";
    var lines := Lines(own + "\n");
    assert lines == [own] && lines[1..] == [];
    assert SumCounts(lines) == CountOf(lines[0]) + SumCounts(lines[1..]);
    assert Exposed(lines) == Exposed(lines[1..]);
  }

  lemma {:induction false} FoldedSum(args: Args, syms: Symbols, items: seq<Item>)
    ensures FoldedTotal(Output(args, syms, items)) == SumItems(items) + Inventions(args, syms, items)
    ensures ExposedTotal(Output(args, syms, items)) == Hidden(args, syms, items)
  {
    if items != [] {
      var stack, count := Stack(args, syms, items[0].0), items[0].1;
      FoldedSum(args, syms, items[1..]);
      OutputCons(args, syms, items);
      LineTotal(stack, count);
      TotalsAppend(stack + " " + Itoa(count) + "\n", Output(args, syms, items[1..]));
    }
  }

  lemma OutputCons(args: Args, syms: Symbols, items: seq<Item>)
    requires items != []
    ensures Output(args, syms, items)
         == (Stack(args, syms, items[0].0) + " " + Itoa(items[0].1) + "\n") + Output(args, syms, items[1..])
  {
    assert FoldedLines(args, syms, items)[1..] == FoldedLines(args, syms, items[1..]);
  }

  /**
   The counts on the printed lines come to the samples the table kept, for any pattern of missed stacks, and
   whatever names with newlines invent; relabelling adds what such lines hide behind a carriage return. So the
   samples are conserved exactly if the names invent nothing, and after the relabelling reveal nothing either.
   */
  lemma SamplesConserved(
    args: Args, syms: Symbols, counts: map<StackKey, nat>, kept: multiset<StackKey>, items: seq<Item>, pid: string)
    requires Tallies(counts, kept) && SortedItems(items, counts) && IsDecimal(pid)
    ensures var out, invented := Output(args, syms, items), Inventions(args, syms, items);
            && FoldedTotal(out) == |kept| + invented
            && FoldedTotal(WithLegend(out, pid)) == |kept| + invented + Revealed(args, syms, items)
            && (FoldedTotal(out) == |kept| <==> invented == 0)
            && (FoldedTotal(WithLegend(out, pid)) == |kept| <==> invented == 0 && Revealed(args, syms, items) == 0)
  {
    FoldedSum(args, syms, items);
    SumOfTally(items, counts, kept);
    LegendTotal(Output(args, syms, items), pid);
  }

  lemma SameSize(kept: multiset<StackKey>, all: multiset<StackKey>)
    requires kept <= all
    ensures |kept| <= |all| && (|kept| == |all| <==> kept == all)
  {
    assert all == kept + (all - kept);
  }

  /**
   The whole pipeline, from ticks to relabelled text. The reader's total is what the table kept of the accepted
   ticks, all of them exactly if their keys fit, and what names invent. So it is right exactly if as much is
   invented as was lost; and where nothing is invented, exactly if the keys fit.
   */
  lemma EveryAcceptedTickCounted(
    args: Args, syms: Symbols, ticks: seq<Tick>, capacity: nat, items: seq<Item>, pid: string)
    requires SortedItems(items, CountsOf(args, ticks, capacity)) && IsDecimal(pid)
    ensures var total := FoldedTotal(WithLegend(Output(args, syms, items), pid));
            var accepted, fits := |AcceptedKeys(args, ticks)|, |KeySet(AcceptedKeys(args, ticks))| <= capacity;
            var invented := Inventions(args, syms, items) + Revealed(args, syms, items);
            && SumItems(items) <= accepted && (SumItems(items) == accepted <==> fits)
            && total == SumItems(items) + invented
            && (total == accepted <==> invented == accepted - SumItems(items))
            && (invented == 0 ==> total <= accepted && (total == accepted <==> fits))
  {
    var kept := CountingHolds(args, ticks, capacity);
    CountingComplete(CountsOf(args, ticks, capacity), kept, AcceptedKeys(args, ticks), capacity);
    SameSize(kept, multiset(AcceptedKeys(args, ticks)));
    SumOfTally(items, CountsOf(args, ticks, capacity), kept);
    SamplesConserved(args, syms, CountsOf(args, ticks, capacity), kept, items, pid);
  }

  // ---------- names with newlines ----------

  /** No name holds a newline. */
  ghost predicate PlainNames(args: Args, syms: Symbols, items: seq<Item>) {
    forall i, j :: 0 <= i < |items| && 0 <= j < |Frames(args, syms, items[i].0)| ==>
      NoNewline(Frames(args, syms, items[i].0)[j])
  }

  lemma {:induction false} JoinNoNewline(parts: seq<string>)
    requires forall j :: 0 <= j < |parts| ==> NoNewline(parts[j])
    ensures NoNewline(Join(parts, ";"))
  {
    if |parts| > 1 {
      JoinNoNewline(parts[1..]);
    }
  }

  lemma NothingWhole(stack: string)
    requires NoNewline(stack)
    ensures WholeLines(stack) == ""
  {
    AfterShape(stack, '\n');
    assert After(stack, '\n') == stack;
  }

  /** Plain names are enough for samples to be conserved. */
  lemma {:induction false} PlainNamesInventNothing(args: Args, syms: Symbols, items: seq<Item>)
    requires PlainNames(args, syms, items)
    ensures Inventions(args, syms, items) == 0 && Hidden(args, syms, items) == 0
  {
    if items != [] {
      JoinNoNewline(Frames(args, syms, items[0].0));
      NothingWhole(Stack(args, syms, items[0].0));
      PlainNamesInventNothing(args, syms, items[1..]);
    }
  }

  /** The samples a command name invents. */
  lemma NameInvents(args: Args, syms: Symbols, k: StackKey, a: string, n: nat, b: string)
    requires Frames(args, syms, k) == [k.name] && k.name == a + " " + Itoa(n) + "\n" + b
    requires NoNewline(a) && NoNewline(b)
    ensures Inventions(args, syms, [(k, 1)]) == n
  {
    var items, own := [(k, 1)], a + " " + Itoa(n);
    assert items[1..] == [] && Stack(args, syms, k) == own + "\n" + b;
    CutAtLast(own, '\n', b);
    CountAfterSpace(a, n);
    assert WholeLines(own + "\n" + b) == own + "\n";
    TotalOfLine(own);
    assert Inventions(args, syms, items) == FoldedTotal(WholeLines(Stack(args, syms, items[0].0)))
        + Inventions(args, syms, items[1..]);
  }

  /**
   Where samples are not conserved: one tick of a process whose command name reads "a <n>", newline, "b" makes
   the reader see n samples nobody took, for any n that the name has room for.
   */
  lemma NewlineInNameInventsSamples(syms: Symbols, t: Tick, capacity: nat, a: string, n: nat, b: string)
    requires t.comm == a + " " + Itoa(n) + "\n" + b && NoNewline(a) && NoNewline(b)
    requires t.pid != 0 && t.userStack == -EFAULT && capacity > 0
    ensures var args, items := AgentArgs(t.tgid), [(KeyOfTick(AgentArgs(t.tgid), t), 1)];
            && SortedItems(items, CountsOf(args, [t], capacity)) && |AcceptedKeys(args, [t])| == 1
            && FoldedTotal(Output(args, syms, items)) == 1 + n
  {
    var args := AgentArgs(t.tgid);
    var k := KeyOfTick(args, t);
    var items := [(k, 1)];
    assert [t][..0] == [];
    assert CountsOf(args, [t], capacity) == Increment(map[], capacity, k) == map[k := 1];
    assert AcceptedKeys(args, [t]) == [] + [k];
    assert items[0].0 == k;
    assert Frames(args, syms, k) == [k.name];
    NameInvents(args, syms, k, a, n, b);
    FoldedSum(args, syms, items);
    assert items[1..] == [] && SumItems(items) == items[0].1 + SumItems(items[1..]);
  }
}
