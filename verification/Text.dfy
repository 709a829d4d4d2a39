/**
 Strings as the agent and its tools handle them: sequences of bytes, one `char` each.
 Only ASCII white space and ASCII letter case are known here.
 */
module Text {

  datatype Option<+T> = None | Some(value: T) {
    function GetOr(default: T): T {
      match this
      case Some(v) => v
      case None => default
    }
  }

  predicate Distinct(s: seq<string>) { forall i, j :: 0 <= i < j < |s| ==> s[i] != s[j] }

  // ---------- decimal numbers ----------

  predicate IsDigit(c: char) { '0' <= c <= '9' }

  predicate AllDigits(s: string) { forall i :: 0 <= i < |s| ==> IsDigit(s[i]) }

  /** A PID as the kernel prints it. */
  predicate IsDecimal(s: string) { s != "" && AllDigits(s) }

  function Itoa(n: nat): (s: string)
    ensures IsDecimal(s)
  {
    if n < 10 then ['0' + n as char] else Itoa(n / 10) + ['0' + (n % 10) as char]
  }

  function Atoi(s: string): nat
    requires AllDigits(s)
  {
    if s == "" then 0 else 10 * Atoi(s[..|s| - 1]) + (s[|s| - 1] as int - '0' as int)
  }

  lemma {:induction false} AtoiItoa(n: nat)
    ensures Atoi(Itoa(n)) == n
  {
    var s := Itoa(n);
    if n >= 10 {
      AtoiItoa(n / 10);
      assert s[..|s| - 1] == Itoa(n / 10);
    }
  }

  /** The leading digits of a string. */
  function LeadingDigits(s: string): (d: string)
    ensures AllDigits(d)
  {
    if s == "" || !IsDigit(s[0]) then "" else [s[0]] + LeadingDigits(s[1..])
  }

  lemma {:induction false} LeadingDigitsOf(d: string, rest: string)
    requires AllDigits(d)
    requires rest == "" || !IsDigit(rest[0])
    ensures LeadingDigits(d + rest) == d
  {
    if d == "" {
      assert d + rest == rest;
    } else {
      LeadingDigitsOf(d[1..], rest);
      assert (d + rest)[1..] == d[1..] + rest;
    }
  }

  // ---------- cutting at the last occurrence of a character ----------

  /** What stands before the last `c`; empty when there is none. */
  function Before(s: string, c: char): string {
    if s == "" then ""
    else if s[|s| - 1] == c then s[..|s| - 1]
    else Before(s[..|s| - 1], c)
  }

  /** What stands after the last `c`; the whole string when there is none. */
  function After(s: string, c: char): string {
    if s == "" then ""
    else if s[|s| - 1] == c then ""
    else After(s[..|s| - 1], c) + [s[|s| - 1]]
  }

  lemma {:induction false} AfterShape(s: string, c: char)
    ensures var t := After(s, c);
            |t| <= |s| && t == s[|s| - |t|..] && c !in t && (|t| == |s| || s[|s| - |t| - 1] == c)
  {
    if s != "" && s[|s| - 1] != c {
      var s', last := s[..|s| - 1], s[|s| - 1];
      AfterShape(s', c);
      var t' := After(s', c);
      assert s == s' + [last];
      assert s[|s| - |t'| - 1..] == s'[|s'| - |t'|..] + [last];
    }
  }

  lemma {:induction false} CutAtLast(a: string, c: char, b: string)
    requires c !in b
    ensures Before(a + [c] + b, c) == a
    ensures After(a + [c] + b, c) == b
  {
    var s := a + [c] + b;
    if b == "" {
      assert s[..|s| - 1] == a;
    } else {
      var b' := b[..|b| - 1];
      CutAtLast(a, c, b');
      assert b == b' + [b[|b| - 1]];
      assert s == (a + [c] + b') + [b[|b| - 1]];
    }
  }

  // ---------- white space ----------

  predicate IsSpace(c: char) { c in [' ', '\t', '\n', '\r', 11 as char, 12 as char] }

  /** White space is the blank and the control characters from the tab to the carriage return. */
  lemma SpaceMeaning(c: char)
    ensures IsSpace(c) <==> c == ' ' || 9 <= c as int <= 13
  {
  }

  predicate NoSpace(s: string) { forall i :: 0 <= i < |s| ==> !IsSpace(s[i]) }

  predicate IsBlank(s: string) { forall i :: 0 <= i < |s| ==> IsSpace(s[i]) }

  function TrimLeft(s: string): string {
    if s != "" && IsSpace(s[0]) then TrimLeft(s[1..]) else s
  }

  function TrimRight(s: string): string {
    if s != "" && IsSpace(s[|s| - 1]) then TrimRight(s[..|s| - 1]) else s
  }

  function TrimSpace(s: string): string { TrimRight(TrimLeft(s)) }

  lemma {:induction false} TrimLeftMeaning(s: string) returns (a: string)
    ensures s == a + TrimLeft(s) && IsBlank(a) && (TrimLeft(s) == "" || !IsSpace(TrimLeft(s)[0]))
  {
    a := "";
    if s != "" && IsSpace(s[0]) {
      var rest := TrimLeftMeaning(s[1..]);
      a := [s[0]] + rest;
    }
  }

  lemma {:induction false} TrimRightMeaning(s: string) returns (b: string)
    ensures var t := TrimRight(s);
            s == t + b && IsBlank(b) && (t == "" || (t[0] == s[0] && !IsSpace(t[|t| - 1])))
  {
    b := "";
    if s != "" && IsSpace(s[|s| - 1]) {
      var rest := TrimRightMeaning(s[..|s| - 1]);
      b := rest + [s[|s| - 1]];
    }
  }

  /** Only white space is cut off, on both sides, and none is left there. */
  lemma TrimSpaceMeaning(s: string) returns (a: string, b: string)
    ensures var t := TrimSpace(s);
            && s == a + t + b && IsBlank(a) && IsBlank(b)
            && (t == "" || (!IsSpace(t[0]) && !IsSpace(t[|t| - 1])))
  {
    a := TrimLeftMeaning(s);
    b := TrimRightMeaning(TrimLeft(s));
    assert s == a + (TrimSpace(s) + b);
  }

  predicate HasPrefix(s: string, p: string) { |p| <= |s| && s[..|p|] == p }

  predicate Contains(s: string, part: string) { exists i :: 0 <= i <= |s| && OccursAt(s, part, i) }

  predicate OccursAt(s: string, part: string, i: nat) { i + |part| <= |s| && s[i..i + |part|] == part }

  /** A part occurs exactly if something before it and something after it make up the whole. */
  lemma ContainsMeaning(s: string, part: string)
    ensures Contains(s, part) <==> exists a, c :: s == a + part + c
  {
    if Contains(s, part) {
      var i :| 0 <= i <= |s| && OccursAt(s, part, i);
      assert s == s[..i] + part + s[i + |part|..];
    }
    if a, c :| s == a + part + c {
      assert OccursAt(a + part + c, part, |a|);
    }
  }

  predicate HasSuffix(s: string, p: string) { |p| <= |s| && s[|s| - |p|..] == p }

  function TrimSuffix(s: string, p: string): string {
    if HasSuffix(s, p) then s[..|s| - |p|] else s
  }

  // ---------- splitting and joining ----------

  /** Position of the first `c`, or the length when there is none. */
  function IndexOf(s: string, c: char): (i: nat)
    ensures i <= |s|
    ensures c !in s[..i]
    ensures i < |s| ==> s[i] == c
  {
    if s == "" || s[0] == c then 0
    else
      var i := 1 + IndexOf(s[1..], c);
      assert s[..i] == [s[0]] + s[1..][..i - 1];
      i
  }

  lemma IndexOfCut(a: string, c: char, b: string)
    requires c !in a
    ensures IndexOf(a + [c] + b, c) == |a|
  {
    var s := a + [c] + b;
    assert s[|a|] == c;
    assert s[..|a|] == a;
  }

  /** The pieces between the separators: always at least one. */
  function Split(s: string, c: char): (parts: seq<string>)
    ensures |parts| >= 1
    decreases |s|
  {
    var i := IndexOf(s, c);
    if i == |s| then [s] else [s[..i]] + Split(s[i + 1..], c)
  }

  function Join(parts: seq<string>, sep: string): string {
    if |parts| == 0 then ""
    else if |parts| == 1 then parts[0]
    else parts[0] + sep + Join(parts[1..], sep)
  }

  lemma {:induction false} SplitJoin(parts: seq<string>, c: char)
    requires |parts| >= 1
    requires forall i :: 0 <= i < |parts| ==> c !in parts[i]
    ensures Split(Join(parts, [c]), c) == parts
  {
    var s := Join(parts, [c]);
    if |parts| == 1 {
      assert s == parts[0];
      assert IndexOf(s, c) == |s|;
    } else {
      SplitJoin(parts[1..], c);
      IndexOfCut(parts[0], c, Join(parts[1..], [c]));
      assert s[..|parts[0]|] == parts[0];
      assert s[|parts[0]| + 1..] == Join(parts[1..], [c]);
    }
  }

  // ---------- lines ----------

  /** The lines of a text. A last line without its newline counts when it is not empty. */
  function Lines(s: string): (lines: seq<string>)
    decreases |s|
  {
    if s == "" then []
    else
      var i := IndexOf(s, '\n');
      if i == |s| then [s] else [s[..i]] + Lines(s[i + 1..])
  }

  /** Every line followed by a newline. */
  function Unlines(lines: seq<string>): string {
    if lines == [] then "" else lines[0] + "\n" + Unlines(lines[1..])
  }

  predicate NoNewline(s: string) { '\n' !in s }

  lemma {:induction false} LinesHaveNoNewline(s: string)
    ensures forall i :: 0 <= i < |Lines(s)| ==> NoNewline(Lines(s)[i])
    decreases |s|
  {
    if s != "" {
      var i := IndexOf(s, '\n');
      if i == |s| {
        assert s[..i] == s;
      } else {
        LinesHaveNoNewline(s[i + 1..]);
      }
    }
  }

  lemma LinesCons(l: string, rest: string)
    requires NoNewline(l)
    ensures Lines(l + "\n" + rest) == [l] + Lines(rest)
  {
    var s := l + "\n" + rest;
    IndexOfCut(l, '\n', rest);
    assert s[..|l|] == l;
    assert s[|l| + 1..] == rest;
  }

  /** The text up to and including its last newline. */
  function WholeLines(s: string): (head: string)
    ensures s == head + After(s, '\n') && EndsLine(head)
  {
    AfterShape(s, '\n');
    s[..|s| - |After(s, '\n')|]
  }

  predicate EndsLine(s: string) { s == "" || s[|s| - 1] == '\n' }

  lemma {:induction false} LinesConcat(a: string, b: string)
    requires EndsLine(a)
    ensures Lines(a + b) == Lines(a) + Lines(b)
    decreases |a|
  {
    if a == "" {
      assert a + b == b;
    } else {
      var i := IndexOf(a, '\n');
      var first, rest := a[..i], a[i + 1..];
      assert a == first + "\n" + rest;
      assert a + b == first + "\n" + (rest + b);
      LinesConcat(rest, b);
      LinesCons(first, rest);
      LinesCons(first, rest + b);
      ConsConcat(first, Lines(rest), Lines(b));
    }
  }

  lemma LinesFirst(s: string)
    requires s != ""
    ensures var i := IndexOf(s, '\n'); Lines(s) == [s[..i]] + Lines(if i == |s| then "" else s[i + 1..])
  {
    assert s[..|s|] == s;
  }

  lemma ConcatCons(s: seq<string>, x: string, t: seq<string>)
    ensures s + ([x] + t) == (s + [x]) + t
  {
  }

  lemma ConsConcat(x: string, s: seq<string>, t: seq<string>)
    ensures [x] + (s + t) == ([x] + s) + t
  {
  }

  lemma {:induction false} LinesUnlines(lines: seq<string>)
    requires forall i :: 0 <= i < |lines| ==> NoNewline(lines[i])
    ensures Lines(Unlines(lines)) == lines
  {
    if lines != [] {
      LinesUnlines(lines[1..]);
      LinesCons(lines[0], Unlines(lines[1..]));
    }
  }

  lemma UnlinesCons(line: string, lines: seq<string>)
    ensures Unlines([line] + lines) == line + "\n" + Unlines(lines)
  {
    assert ([line] + lines)[1..] == lines;
  }

  /** A newline where there is none at the end. */
  function Closed(s: string): string { if EndsLine(s) then s else s + "\n" }

  lemma ClosedCons(first: string, rest: string)
    ensures first + "\n" + Closed(rest) == Closed(first + "\n" + rest)
  {
  }

  lemma LastLine(s: string)
    requires s != "" && IndexOf(s, '\n') == |s|
    ensures Unlines(Lines(s)) == Closed(s)
  {
    assert s[..|s|] == s;
    assert Lines(s) == [s];
    UnlinesOne(s);
  }

  lemma CutAt(s: string, i: nat)
    requires i < |s|
    ensures s == s[..i] + [s[i]] + s[i + 1..]
  {
  }

  /** Splitting a text into lines loses nothing. */
  lemma {:induction false} UnlinesLines(s: string)
    ensures Unlines(Lines(s)) == Closed(s)
    decreases |s|
  {
    if s == "" {
    } else if IndexOf(s, '\n') == |s| {
      LastLine(s);
    } else {
      var first, rest := s[..IndexOf(s, '\n')], s[IndexOf(s, '\n') + 1..];
      UnlinesLines(rest);
      LinesFirst(s);
      CutAt(s, IndexOf(s, '\n'));
      UnlinesCons(first, Lines(rest));
      ClosedCons(first, rest);
    }
  }

  lemma {:induction false} UnlinesAppend(a: seq<string>, b: seq<string>)
    ensures Unlines(a + b) == Unlines(a) + Unlines(b)
  {
    if a == [] {
      assert a + b == b;
    } else {
      UnlinesAppend(a[1..], b);
      assert (a + b)[1..] == a[1..] + b;
    }
  }

  lemma UnlinesSnoc(lines: seq<string>, line: string)
    ensures Unlines(lines + [line]) == Unlines(lines) + (line + "\n")
  {
    UnlinesAppend(lines, [line]);
    UnlinesOne(line);
  }

  lemma UnlinesOne(line: string)
    ensures Unlines([line]) == line + "\n"
  {
    assert Unlines([line][1..]) == "";
  }
}
