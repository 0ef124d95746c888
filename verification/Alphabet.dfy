/** The character classes of the system's patterns, and ASCII case, spelled out. */
module Alphabet {
  import opened Text

  const CAPITALS := "ABCDEFGHIJKLMNOPQRSTUVWXYZ"
  const SMALL := "abcdefghijklmnopqrstuvwxyz"
  const DIGITS := "0123456789"

  ghost predicate OnlyOf(s: string, alphabet: string) { forall c | c in s :: c in alphabet }

  lemma OneMoreOf(c: char, s: string, alphabet: string)
    requires c in alphabet && OnlyOf(s, alphabet)
    ensures OnlyOf([c] + s, alphabet)
  {}

  lemma LettersAt(k: nat)
    requires k < 26
    ensures SMALL[k] == 'a' + k as char && CAPITALS[k] == 'A' + k as char
  {}

  lemma CapitalIff(c: char)
    ensures c in CAPITALS <==> 'A' <= c <= 'Z'
  {}

  lemma SmallIff(c: char)
    ensures c in SMALL <==> 'a' <= c <= 'z'
  {}

  lemma DigitIff(c: char)
    ensures c in DIGITS <==> '0' <= c <= '9'
  {}

  /** Lower-casing takes each capital to the small letter at its place and leaves every other character alone. */
  lemma LowerCharTold(c: char)
    ensures c !in CAPITALS ==> LowerChar(c) == c
    ensures forall i | 0 <= i < 26 :: c == CAPITALS[i] ==> LowerChar(c) == SMALL[i]
  {
    CapitalIff(c);
  }

  // ----- lines and blanks -----

  const BREAKS := "\n\U{0B}\U{0C}\r\U{1C}\U{1D}\U{1E}\U{85}\U{2028}\U{2029}"
  const BLANKS := " \t\U{1F}\U{A0}\U{1680}\U{2000}\U{2001}\U{2002}\U{2003}\U{2004}\U{2005}\U{2006}\U{2007}\U{2008}\U{2009}\U{200A}\U{202F}\U{205F}\U{3000}"

  lemma BreakIff(c: char)
    ensures IsBreak(c) <==> c in BREAKS
  {}

  lemma SpaceIff(c: char)
    ensures IsSpace(c) <==> c in BLANKS || c in BREAKS
  {}

  ghost predicate Blank(s: string) { OnlyOf(s, BLANKS + BREAKS) }

  /** No blank at either end. */
  ghost predicate Trim(s: string) { s != "" ==> !Blank(s[..1]) && !Blank(s[|s| - 1..]) }

  lemma {:induction false} LStripTold(s: string) returns (front: string)
    ensures s == front + LStrip(s) && Blank(front)
    ensures LStrip(s) != "" ==> !IsSpace(LStrip(s)[0])
  {
    front := "";
    if s != "" && IsSpace(s[0]) {
      var rest := LStripTold(s[1..]);
      SpaceIff(s[0]);
      front := [s[0]] + rest;
    }
  }

  lemma {:induction false} RStripTold(s: string) returns (back: string)
    ensures s == RStrip(s) + back && Blank(back)
    ensures RStrip(s) != "" ==> RStrip(s)[0] == s[0] && !IsSpace(RStrip(s)[|RStrip(s)| - 1])
    decreases |s|
  {
    back := "";
    if s != "" && IsSpace(s[|s| - 1]) {
      var rest := RStripTold(s[..|s| - 1]);
      SpaceIff(s[|s| - 1]);
      back := rest + [s[|s| - 1]];
    }
  }

  /** Stripping takes the blanks off both ends and nothing else. */
  lemma StripTold(s: string) returns (front: string, back: string)
    ensures s == front + Strip(s) + back && Blank(front) && Blank(back) && Trim(Strip(s))
  {
    front := LStripTold(s);
    back := RStripTold(LStrip(s));
    var t := Strip(s);
    if t != "" {
      SpaceIff(t[0]);
      SpaceIff(t[|t| - 1]);
      assert t[0] in t[..1] && t[|t| - 1] in t[|t| - 1..];
    }
  }

  ghost predicate LowerOf(s: string, t: string) {
    |t| == |s| && forall i | 0 <= i < |s| ::
      if s[i] in CAPITALS then exists k :: 0 <= k < 26 && s[i] == CAPITALS[k] && t[i] == SMALL[k] else t[i] == s[i]
  }

  lemma LowerTold(s: string)
    ensures LowerOf(s, Lower(s))
  {
    forall i | 0 <= i < |s| && s[i] in CAPITALS ensures exists k :: 0 <= k < 26 && s[i] == CAPITALS[k] && Lower(s)[i] == SMALL[k] {
      var k :| 0 <= k < 26 && s[i] == CAPITALS[k];
      LowerCharTold(s[i]);
      assert Lower(s)[i] == SMALL[k];
    }
    forall i | 0 <= i < |s| && s[i] !in CAPITALS ensures Lower(s)[i] == s[i] { LowerCharTold(s[i]); }
  }

  /** What may end a line: a line break, with `\r\n` counting as one. */
  ghost predicate Ending(e: string) { (|e| == 1 && e[0] in BREAKS) || e == "\r\n" }

  /** A line and its ending, where something follows it or not. */
  ghost predicate LineTold(line: string, bare: string, rest: string) {
    && OnlyLine(bare)
    && if line == bare then line != "" && rest == ""
       else |bare| < |line| && bare == line[..|bare|] && Ending(line[|bare|..])
            && (line[|bare|..] == "\r" ==> rest == "" || rest[0] != '\n')
  }

  ghost predicate OnlyLine(s: string) { forall c | c in s :: c !in BREAKS }

  lemma LineGrows(c: char, line: string, bare: string, rest: string)
    requires c !in BREAKS && line != "" && LineTold(line, bare, rest)
    ensures LineTold([c] + line, [c] + bare, rest)
  {
    if line != bare { assert ([c] + line)[|bare| + 1..] == line[|bare|..]; }
  }

  lemma {:induction false} FirstLineTold(s: string)
    requires s != ""
    ensures LineTold(s[..FirstLine(s)], DropBreak(s[..FirstLine(s)]), s[FirstLine(s)..])
  {
    var n := FirstLine(s);
    BreakIff(s[0]);
    if !IsBreak(s[0]) && |s| > 1 {
      var t := s[1..];
      var line := t[..FirstLine(t)];
      FirstLineTold(t);
      assert s[..n] == [s[0]] + line && s[n..] == t[FirstLine(t)..];
      Prefixed(s[0], line);
      LineGrows(s[0], line, DropBreak(line), s[n..]);
    }
  }

  lemma Prefixed(c: char, line: string)
    requires !IsBreak(c) && line != ""
    ensures DropBreak([c] + line) == [c] + DropBreak(line)
  {
    assert IsBreak('\r');
    var s := [c] + line;
    assert s[|s| - 1] == line[|line| - 1];
    assert |line| >= 2 ==> s[|s| - 2] == line[|line| - 2];
  }

  /** Each piece is a line with its ending, the last one perhaps without, and the bare lines are the pieces without theirs. */
  ghost predicate AllLines(kept: seq<string>, bare: seq<string>) {
    |bare| == |kept| && forall k | 0 <= k < |kept| :: LineTold(kept[k], bare[k], Concat(kept[k + 1..]))
  }

  lemma OneMoreLine(line: string, bareLine: string, kept: seq<string>, bare: seq<string>)
    requires AllLines(kept, bare) && LineTold(line, bareLine, Concat(kept))
    ensures AllLines([line] + kept, [bareLine] + bare)
  {
    var all, allBare := [line] + kept, [bareLine] + bare;
    forall k | 0 <= k < |all| ensures LineTold(all[k], allBare[k], Concat(all[k + 1..])) {
      if k == 0 { assert all[1..] == kept; } else { assert all[k + 1..] == kept[k..] && LineTold(kept[k - 1], bare[k - 1], Concat(kept[k - 1 + 1..])); }
    }
  }

  /** Splitting into lines cuts the text behind each ending and loses nothing. */
  lemma {:induction false} LinesTold(s: string)
    ensures Concat(SplitKeep(s)) == s && AllLines(SplitKeep(s), SplitLines(s))
    decreases |s|
  {
    SplitKeepLosesNothing(s);
    if s != "" {
      var rest := s[FirstLine(s)..];
      FirstLineTold(s);
      LinesTold(rest);
      OneMoreLine(s[..FirstLine(s)], DropBreak(s[..FirstLine(s)]), SplitKeep(rest), SplitLines(rest));
    }
  }
}
