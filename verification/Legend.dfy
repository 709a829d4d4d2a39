/**
 The rewriting of folded stacks: every line gets the PID it was sampled from.
 Lines are cut the way Go's default line scanner cuts them.
 */
module Legend {
  import opened Text

  /** The scanner's buffer: a line that fills it is an error. */
  const MAX_TOKEN := 65536

  function DropCR(line: string): string { TrimSuffix(line, "\r") }

  predicate Scannable(input: string, limit: nat) {
    forall i :: 0 <= i < |Lines(input)| ==> |Lines(input)[i]| < limit
  }

  function LegendOf(pid: string): string { "process: " + pid + ";" }

  function Labelled(lines: seq<string>, pid: string): (r: seq<string>)
    ensures |r| == |lines|
    ensures forall i :: 0 <= i < |r| ==> r[i] == LegendOf(pid) + DropCR(lines[i])
  {
    seq(|lines|, i requires 0 <= i < |lines| => LegendOf(pid) + DropCR(lines[i]))
  }

  function WithLegend(input: string, pid: string): string {
    if IsBlank(input) || !Scannable(input, MAX_TOKEN) then input
    else Unlines(Labelled(Lines(input), pid))
  }

  lemma LabelledSnoc(lines: seq<string>, line: string, pid: string)
    ensures Unlines(Labelled(lines + [line], pid))
         == Unlines(Labelled(lines, pid)) + (LegendOf(pid) + DropCR(line) + "\n")
  {
    LabelledOne(lines, line, pid);
    UnlinesSnoc(Labelled(lines, pid), LegendOf(pid) + DropCR(line));
  }

  lemma LabelledOne(lines: seq<string>, line: string, pid: string)
    ensures Labelled(lines + [line], pid) == Labelled(lines, pid) + [LegendOf(pid) + DropCR(line)]
  {
  }

  /** What follows the first line of a text. */
  function AfterLine(text: string): (rest: string)
    requires text != ""
    ensures |rest| < |text|
  {
    var i := IndexOf(text, '\n');
    if i == |text| then "" else text[i + 1..]
  }

  /** The scanner has put the lines `done` into `sb`, none of them too long, and `rest` is still to come. */
  predicate Scanned(input: string, pid: string, done: seq<string>, rest: string, sb: string) {
    && Lines(input) == done + Lines(rest)
    && (forall i :: 0 <= i < |done| ==> |done[i]| < MAX_TOKEN)
    && sb == Unlines(Labelled(done, pid))
  }

  lemma FirstLine(text: string, done: seq<string>)
    requires text != ""
    ensures done + Lines(text) == (done + [text[..IndexOf(text, '\n')]]) + Lines(AfterLine(text))
  {
    LinesFirst(text);
    ConcatCons(done, text[..IndexOf(text, '\n')], Lines(AfterLine(text)));
  }

  lemma ScanNext(input: string, pid: string, done: seq<string>, rest: string, sb: string)
    requires rest != "" && Scanned(input, pid, done, rest, sb) && IndexOf(rest, '\n') < MAX_TOKEN
    ensures var line := rest[..IndexOf(rest, '\n')];
            Scanned(input, pid, done + [line], AfterLine(rest), sb + (LegendOf(pid) + DropCR(line) + "\n"))
  {
    FirstLine(rest, done);
    LabelledSnoc(done, rest[..IndexOf(rest, '\n')], pid);
  }

  lemma ScanStops(input: string, pid: string, done: seq<string>, rest: string, sb: string)
    requires rest != "" && Scanned(input, pid, done, rest, sb) && IndexOf(rest, '\n') >= MAX_TOKEN
    ensures !Scannable(input, MAX_TOKEN)
  {
    FirstLine(rest, done);
    assert Lines(input)[|done|] == rest[..IndexOf(rest, '\n')];
  }

  lemma ScanEnds(input: string, pid: string, done: seq<string>, sb: string)
    requires !IsBlank(input) && Scanned(input, pid, done, "", sb)
    ensures sb == WithLegend(input, pid)
  {
    assert Lines(input) == done;
  }

  /** The scanner loop: it gives up, and gives back its input, at the first line that is too long. */
  method AddProcessPIDLegend(input: string, pid: string) returns (r: string)
    ensures r == WithLegend(input, pid)
  {
    if IsBlank(input) {
      return input;
    }
    var sb, rest := "", input;
    ghost var done: seq<string> := [];
    while rest != ""
      invariant Scanned(input, pid, done, rest, sb)
      decreases |rest|
    {
      var i := IndexOf(rest, '\n');
      var line := rest[..i];
      if i >= MAX_TOKEN {
        ScanStops(input, pid, done, rest, sb);
        return input;
      }
      ScanNext(input, pid, done, rest, sb);
      sb := sb + (LegendOf(pid) + DropCR(line) + "\n");
      rest, done := AfterLine(rest), done + [line];
    }
    ScanEnds(input, pid, done, sb);
    r := sb;
  }

  /**
   All or nothing: either the input comes back unchanged, exactly when it is blank or one of its lines
   fills the scanner's buffer, or the output's lines are the input's lines in order, each behind the process's
   PID and without its carriage return, and every one of them ends in a newline.
   */
  lemma LegendAllOrNothing(input: string, pid: string)
    requires NoNewline(pid)
    ensures var out, lines := WithLegend(input, pid), Lines(input);
            if IsBlank(input) || exists i :: 0 <= i < |lines| && |lines[i]| >= 65536 then out == input
            else
              && |Lines(out)| == |lines| > 0
              && (forall i :: 0 <= i < |lines| ==> Lines(out)[i] == "process: " + pid + ";" + DropCR(lines[i]))
              && out == Unlines(Lines(out))
  {
    if !IsBlank(input) && Scannable(input, MAX_TOKEN) {
      LinesHaveNoNewline(input);
      LinesUnlines(Labelled(Lines(input), pid));
    }
  }

  /** The PID can be read back from a labelled line, between its first space and its first semicolon. */
  lemma PidReadBack(pid: string, line: string)
    requires ';' !in pid
    ensures var labelled := LegendOf(pid) + line;
            var from, to := IndexOf(labelled, ' ') + 1, IndexOf(labelled, ';');
            from <= to < |labelled| && labelled[from..to] == pid && labelled[to + 1..] == line
  {
    IndexOfCut("process:", ' ', pid + ";" + line);
    assert LegendOf(pid) + line == "process:" + " " + (pid + ";" + line);
    IndexOfCut("process: " + pid, ';', line);
    assert LegendOf(pid) + line == "process: " + pid + ";" + line;
  }

  /** One carriage return at the end is dropped. */
  lemma DropReturn(bare: string)
    ensures HasSuffix(bare + "\r", "\r") && DropCR(bare + "\r") == bare
  {
    var line := bare + "\r";
    assert line[|bare|..] == "\r" && line[..|bare|] == bare;
  }

  /** Nothing else is. */
  lemma DropOnlyReturn(line: string)
    requires line == "" || line[|line| - 1] != '\r'
    ensures DropCR(line) == line
  {
    if |line| > 0 {
      assert line[|line| - 1..][0] != '\r';
    }
  }

  // ---------- sample totals ----------

  /** What a flame graph reads from one folded line: the number after its last space, if any. */
  function CountOf(line: string): nat {
    if ' ' in line && IsDecimal(After(line, ' ')) then Atoi(After(line, ' ')) else 0
  }

  function SumCounts(lines: seq<string>): nat {
    if lines == [] then 0 else CountOf(lines[0]) + SumCounts(lines[1..])
  }

  function FoldedTotal(text: string): nat { SumCounts(Lines(text)) }

  /** The legend holds a space of its own, yet never turns into a count. */
  lemma LegendKeepsCount(line: string, pid: string)
    requires IsDecimal(pid)
    ensures CountOf(LegendOf(pid) + line) == CountOf(line)
  {
    var labelled := LegendOf(pid) + line;
    assert labelled[8] == ' ';
    if ' ' in line {
      var a, b := Before(line, ' '), After(line, ' ');
      BeforeAfter(line, ' ');
      CutAtLast(LegendOf(pid) + a, ' ', b);
      assert labelled == LegendOf(pid) + a + " " + b;
    } else {
      CutAtLast("process:", ' ', pid + ";" + line);
      assert labelled == "process:" + " " + (pid + ";" + line);
      assert (pid + ";" + line)[|pid|] == ';';
    }
  }

  lemma {:induction false} BeforeAfter(s: string, c: char)
    requires c in s
    ensures s == Before(s, c) + [c] + After(s, c) && c !in After(s, c)
  {
    if s[|s| - 1] != c {
      var s' := s[..|s| - 1];
      assert s == s' + [s[|s| - 1]];
      BeforeAfter(s', c);
    }
  }

  /** What a reader would count on the lines that end in a carriage return, were it not there. */
  function Exposed(lines: seq<string>): nat {
    if lines == [] then 0
    else (if HasSuffix(lines[0], "\r") then CountOf(DropCR(lines[0])) else 0) + Exposed(lines[1..])
  }

  function ExposedTotal(text: string): nat { Exposed(Lines(text)) }

  /** A line that ends in a carriage return shows no count. */
  lemma ReturnHidesCount(line: string)
    requires HasSuffix(line, "\r")
    ensures CountOf(line) == 0
  {
    assert line[|line| - 1] == line[|line| - 1..][0] == '\r';
    var tail := After(line, ' ');
    assert tail[|tail| - 1] == '\r';
  }

  lemma {:induction false} LabelledSum(lines: seq<string>, pid: string)
    requires IsDecimal(pid)
    ensures SumCounts(Labelled(lines, pid)) == SumCounts(lines) + Exposed(lines)
  {
    if lines != [] {
      LabelledSum(lines[1..], pid);
      assert Labelled(lines, pid)[1..] == Labelled(lines[1..], pid);
      LegendKeepsCount(DropCR(lines[0]), pid);
      if HasSuffix(lines[0], "\r") {
        ReturnHidesCount(lines[0]);
      }
    }
  }

  /** The total after the rewriting: what it was, and what dropping the carriage returns brings to light. */
  lemma LegendTotal(input: string, pid: string)
    requires IsDecimal(pid)
    ensures FoldedTotal(WithLegend(input, pid)) ==
              FoldedTotal(input) + if IsBlank(input) || !Scannable(input, MAX_TOKEN) then 0 else ExposedTotal(input)
  {
    if !IsBlank(input) && Scannable(input, MAX_TOKEN) {
      LinesHaveNoNewline(input);
      LinesUnlines(Labelled(Lines(input), pid));
      LabelledSum(Lines(input), pid);
    }
  }

  /**
   Relabelling loses and invents no sample exactly if it falls back to its input or no line's carriage return
   hides a count.
   */
  lemma LegendConservesTotal(input: string, pid: string)
    requires IsDecimal(pid)
    ensures FoldedTotal(WithLegend(input, pid)) == FoldedTotal(input) <==>
              IsBlank(input) || !Scannable(input, MAX_TOKEN) || ExposedTotal(input) == 0
  {
    LegendTotal(input, pid);
  }

  lemma TotalOfOne(line: string)
    requires line != "" && NoNewline(line)
    ensures Lines(line) == [line] && FoldedTotal(line) == CountOf(line)
    ensures ExposedTotal(line) == if HasSuffix(line, "\r") then CountOf(DropCR(line)) else 0
  {
    assert line[..|line|] == line;
    var lines := [line];
    assert Lines(line) == lines && lines[1..] == [];
    assert SumCounts(lines) == CountOf(lines[0]) + SumCounts(lines[1..]);
    assert Exposed(lines) == (if HasSuffix(lines[0], "\r") then CountOf(DropCR(lines[0])) else 0) + Exposed(lines[1..]);
  }

  lemma CountAfterSpace(stack: string, n: nat)
    ensures var line := stack + " " + Itoa(n); CountOf(line) == n && !HasSuffix(line, "\r")
  {
    CutAtLast(stack, ' ', Itoa(n));
    AtoiItoa(n);
    var line := stack + " " + Itoa(n);
    assert line[|stack|] == ' ' && line[|line| - 1] != '\r';
  }

  /** Where it does not: a count followed by a carriage return is read only after the rewriting. */
  lemma ReturnIsExposed(stack: string, n: nat, pid: string)
    requires NoNewline(stack) && IsDecimal(pid)
    requires |stack + " " + Itoa(n) + "\r"| < MAX_TOKEN
    ensures var line := stack + " " + Itoa(n) + "\r";
            FoldedTotal(line) == 0 && FoldedTotal(WithLegend(line, pid)) == n
  {
    var bare := stack + " " + Itoa(n);
    var line := bare + "\r";
    DropReturn(bare);
    TotalOfOne(line);
    ReturnHidesCount(line);
    CountAfterSpace(stack, n);
    LegendTotal(line, pid);
    assert !IsSpace(line[|bare| - 1]);
  }

  lemma {:induction false} CountsAppend(a: seq<string>, b: seq<string>)
    ensures SumCounts(a + b) == SumCounts(a) + SumCounts(b)
    ensures Exposed(a + b) == Exposed(a) + Exposed(b)
  {
    if a == [] {
      assert a + b == b;
    } else {
      CountsAppend(a[1..], b);
      assert (a + b)[1..] == a[1..] + b;
    }
  }

  /** Totals of texts add up where one text ends its last line. */
  lemma TotalsAppend(a: string, b: string)
    requires EndsLine(a)
    ensures FoldedTotal(a + b) == FoldedTotal(a) + FoldedTotal(b)
    ensures ExposedTotal(a + b) == ExposedTotal(a) + ExposedTotal(b)
  {
    LinesConcat(a, b);
    CountsAppend(Lines(a), Lines(b));
  }
}
