/** Python's line and whitespace handling, as the generator and the healer use it. */
module Text {

  lemma Regroup<T>(a: seq<T>, b: seq<T>, c: seq<T>)
    ensures a + (b + c) == a + b + c
  {}

  /** Cut at two places, a string has its separator in the longer front and in the longer back. */
  lemma TwoCuts(c: char, a: string, x: string, b: string, y: string)
    requires a + [c] + x == b + [c] + y && |a| < |b|
    ensures c in b && c in x
  {
    var s, t := a + [c] + x, b + [c] + y;
    assert s[|a|] == c && t[|b|] == c;
    assert t[|a|] == b[|a|] && s[|b|] == x[|b| - |a| - 1];
  }

  /** A string is cut in one way only at the first, or the last, of its separators. */
  lemma CutAt(c: char, a: string, x: string, b: string, y: string)
    requires (c !in a && c !in b) || (c !in x && c !in y)
    requires a + [c] + x == b + [c] + y
    ensures a == b && x == y
  {
    if |a| < |b| { TwoCuts(c, a, x, b, y); }
    if |b| < |a| { TwoCuts(c, b, y, a, x); }
    var s, t := a + [c] + x, b + [c] + y;
    assert a == s[..|a|] && b == t[..|b|] && x == s[|a| + 1..] && y == t[|b| + 1..];
  }

  /** The line boundaries of `str.splitlines`. */
  predicate IsBreak(c: char) {
    c == '\n' || c == '\r' || '\U{0B}' <= c <= '\U{0C}' || '\U{1C}' <= c <= '\U{1E}'
    || c == '\U{85}' || '\U{2028}' <= c <= '\U{2029}'
  }

  predicate IsSpace(c: char) {
    || IsBreak(c) || c == ' ' || c == '\t' || c == '\U{1F}' || c == '\U{A0}' || c == '\U{1680}'
    || '\U{2000}' <= c <= '\U{200A}' || c == '\U{202F}' || c == '\U{205F}' || c == '\U{3000}'
  }

  predicate OneLine(s: string) { forall c | c in s :: !IsBreak(c) }

  function LStrip(s: string): string { if s != "" && IsSpace(s[0]) then LStrip(s[1..]) else s }

  function RStrip(s: string): string
    decreases |s|
  {
    if s != "" && IsSpace(s[|s| - 1]) then RStrip(s[..|s| - 1]) else s
  }

  function Strip(s: string): string { RStrip(LStrip(s)) }

  /** How much of a non-empty text its first line takes, terminator included. */
  function FirstLine(s: string): (n: nat)
    requires s != ""
    ensures 0 < n <= |s|
  {
    if IsBreak(s[0]) then if s[0] == '\r' && |s| > 1 && s[1] == '\n' then 2 else 1
    else if |s| == 1 then 1
    else 1 + FirstLine(s[1..])
  }

  /** `splitlines(keepends=True)` */
  function SplitKeep(s: string): seq<string>
    decreases |s|
  {
    if s == "" then [] else [s[..FirstLine(s)]] + SplitKeep(s[FirstLine(s)..])
  }

  function DropBreak(line: string): string {
    if |line| >= 2 && line[|line| - 2] == '\r' && line[|line| - 1] == '\n' then line[..|line| - 2]
    else if line != "" && IsBreak(line[|line| - 1]) then line[..|line| - 1]
    else line
  }

  /** `splitlines()` */
  function SplitLines(s: string): (r: seq<string>)
    decreases |s|
  {
    if s == "" then [] else [DropBreak(s[..FirstLine(s)])] + SplitLines(s[FirstLine(s)..])
  }

  function Concat(lines: seq<string>): string {
    if lines == [] then "" else lines[0] + Concat(lines[1..])
  }

  /** `"\n".join(lines)` */
  function JoinLines(lines: seq<string>): string {
    if lines == [] then "" else if |lines| == 1 then lines[0] else lines[0] + "\n" + JoinLines(lines[1..])
  }

  lemma {:induction false} SplitKeepLosesNothing(s: string)
    ensures Concat(SplitKeep(s)) == s
    decreases |s|
  {
    if s != "" { SplitKeepLosesNothing(s[FirstLine(s)..]); }
  }

  lemma {:induction false} ConcatAppend(a: seq<string>, b: seq<string>)
    ensures Concat(a + b) == Concat(a) + Concat(b)
  {
    if a == [] { assert a + b == b; } else {
      assert (a + b)[1..] == a[1..] + b;
      ConcatAppend(a[1..], b);
    }
  }

  lemma ConcatCons(line: string, rest: seq<string>)
    ensures Concat([line] + rest) == line + Concat(rest)
  {
    assert ([line] + rest)[1..] == rest;
  }

  /** Putting a line in place k. */
  lemma ConcatAround(lines: seq<string>, k: nat, line: string)
    requires k < |lines|
    ensures Concat(lines[k := line]) == Concat(lines[..k]) + line + Concat(lines[k + 1..])
  {
    var front, back := lines[..k], lines[k + 1..];
    assert lines[k := line] == front + ([line] + back);
    ConcatAppend(front, [line] + back);
    ConcatCons(line, back);
    Regroup(Concat(front), line, Concat(back));
  }

  lemma {:induction false} FirstLineOf(line: string, rest: string)
    requires OneLine(line)
    ensures FirstLine(line + "\n" + rest) == |line| + 1
  {
    var s := line + "\n" + rest;
    if line != "" {
      assert line[0] in line && s[0] == line[0];
      assert s[1..] == line[1..] + "\n" + rest;
      FirstLineOf(line[1..], rest);
    }
  }

  /** Splitting what was joined gives the lines back. */
  lemma {:induction false} SplitJoined(lines: seq<string>)
    requires lines != [] && forall l | l in lines :: OneLine(l)
    ensures SplitLines(JoinLines(lines) + "\n") == lines
  {
    var l := lines[0];
    assert l in lines;
    var rest := if |lines| == 1 then "" else JoinLines(lines[1..]) + "\n";
    var s := JoinLines(lines) + "\n";
    assert s == l + "\n" + rest;
    FirstLineOf(l, rest);
    assert s[..|l| + 1] == l + "\n" && s[|l| + 1..] == rest;
    assert l != "" ==> l[|l| - 1] in l;
    assert IsBreak('\r');
    assert DropBreak(l + "\n") == l;
    if |lines| > 1 {
      assert forall m | m in lines[1..] :: m in lines;
      SplitJoined(lines[1..]);
    }
    assert lines == [l] + lines[1..];
  }

  lemma {:induction false} JoinAppend(a: seq<string>, b: seq<string>)
    requires a != [] && b != []
    ensures JoinLines(a + b) == JoinLines(a) + "\n" + JoinLines(b)
  {
    assert (a + b)[1..] == a[1..] + b;
    if |a| == 1 { assert a[1..] + b == b; } else { JoinAppend(a[1..], b); }
  }

  /** Trailing blank lines disappear under `rstrip`. */
  lemma {:induction false} RStripBlankLines(lines: seq<string>, blanks: nat)
    requires lines != [] && lines[|lines| - 1] != ""
    requires !IsSpace(lines[|lines| - 1][|lines[|lines| - 1]| - 1])
    ensures RStrip(JoinLines(lines + seq(blanks, _ => ""))) == JoinLines(lines)
  {
    var last := lines[|lines| - 1];
    if blanks == 0 {
      assert lines + seq(blanks, _ => "") == lines;
      JoinEndsWith(lines);
    } else {
      var less := lines + seq(blanks - 1, _ => "");
      assert lines + seq(blanks, _ => "") == less + [""];
      JoinAppend(less, [""]);
      var s := JoinLines(less) + "\n";
      assert JoinLines(less + [""]) == s;
      assert s[|s| - 1] == '\n' && s[..|s| - 1] == JoinLines(less);
      RStripBlankLines(lines, blanks - 1);
    }
  }

  lemma {:induction false} JoinEndsWith(lines: seq<string>)
    requires lines != [] && lines[|lines| - 1] != ""
    ensures var j, last := JoinLines(lines), lines[|lines| - 1];
      j != "" && j[|j| - 1] == last[|last| - 1]
  {
    if |lines| > 1 { JoinEndsWith(lines[1..]); }
  }

  // ----- lower case, for ASCII letters -----

  function LowerChar(c: char): char { if 'A' <= c <= 'Z' then 'a' + (c - 'A') else c }

  function Lower(s: string): string { seq(|s|, i requires 0 <= i < |s| => LowerChar(s[i])) }
}
