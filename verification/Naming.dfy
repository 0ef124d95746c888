/** Names the generator makes: accessor names on a page object
    (engine/generator/page_objects.py:107-137) and spec file names
    (engine/generator/pipeline.py:108-140). */
module Naming {
  import A = Alphabet
  import opened Counting
  import opened Sorting
  import opened Text
  import opened Wrappers

  // ----- decimal strings -----

  function Digit(n: nat): char
    requires n < 10
  {
    '0' + n as char
  }

  function Decimal(n: nat): (s: string)
    ensures s != "" && forall c | c in s :: '0' <= c <= '9'
  {
    if n < 10 then [Digit(n)] else Decimal(n / 10) + [Digit(n % 10)]
  }

  /** Where a character first stands. */
  ghost function Place(c: char, table: string): nat {
    if table == "" || table[0] == c then 0 else 1 + Place(c, table[1..])
  }

  /** What a string of digits denotes. */
  ghost function ValueOf(s: string): nat {
    if s == "" then 0 else 10 * ValueOf(s[..|s| - 1]) + Place(s[|s| - 1], A.DIGITS)
  }

  lemma {:induction false} PlaceAt(table: string, n: nat)
    requires n < |table| && forall i | 0 <= i < n :: table[i] != table[n]
    ensures Place(table[n], table) == n
  {
    if n > 0 {
      assert table[0] != table[n];
      PlaceAt(table[1..], n - 1);
    }
  }

  lemma DigitTold(n: nat)
    requires n < 10
    ensures Digit(n) == A.DIGITS[n] && Place(Digit(n), A.DIGITS) == n
  {
    assert forall i | 0 <= i < 10 :: A.DIGITS[i] == '0' + i as char;
    PlaceAt(A.DIGITS, n);
  }

  /** A number is written in decimal digits, without a leading zero. */
  lemma {:induction false} DecimalTold(n: nat)
    ensures ValueOf(Decimal(n)) == n && A.OnlyOf(Decimal(n), A.DIGITS)
    ensures n > 0 ==> Decimal(n)[0] != '0'
  {
    DigitTold(n % 10);
    if n >= 10 {
      DecimalTold(n / 10);
      assert Decimal(n)[..|Decimal(n)| - 1] == Decimal(n / 10);
    }
  }

  lemma {:induction false} DecimalInjective(a: nat, b: nat)
    requires Decimal(a) == Decimal(b)
    ensures a == b
  {
    assert Decimal(a)[|Decimal(a)| - 1] == Digit(a % 10) && Decimal(b)[|Decimal(b)| - 1] == Digit(b % 10);
    assert a % 10 == b % 10;
    if a >= 10 && b >= 10 {
      assert Decimal(a / 10) == Decimal(a)[..|Decimal(a)| - 1] && Decimal(b / 10) == Decimal(b)[..|Decimal(b)| - 1];
      DecimalInjective(a / 10, b / 10);
    } else {
      assert |Decimal(a)| == 1 <==> a < 10;
      assert |Decimal(b)| == 1 <==> b < 10;
    }
  }

  lemma SameStem(s: string, a: nat, b: nat)
    requires s + Decimal(a) == s + Decimal(b)
    ensures a == b
  {
    assert (s + Decimal(a))[|s|..] == Decimal(a) && (s + Decimal(b))[|s|..] == Decimal(b);
    DecimalInjective(a, b);
  }

  // ----- accessor names -----

  predicate Upper(c: char) { 'A' <= c <= 'Z' }
  predicate Alnum(c: char) { Upper(c) || 'a' <= c <= 'z' || '0' <= c <= '9' }

  function UpperChar(c: char): char { if 'a' <= c <= 'z' then 'A' + (c - 'a') else c }

  function Run(s: string): (n: nat)
    ensures n <= |s| && forall i | 0 <= i < n :: Alnum(s[i])
  {
    if s == "" || !Alnum(s[0]) then 0 else 1 + Run(s[1..])
  }

  /** The maximal runs of letters and digits, in lower case. */
  function Words(s: string): (r: seq<string>)
    ensures forall w | w in r :: w != "" && forall c | c in w :: Alnum(c)
    decreases |s|
  {
    if s == "" then []
    else if Run(s) == 0 then Words(s[1..])
    else
      var w := Lower(s[..Run(s)]);
      [w] + Words(s[Run(s)..])
  }

  function Capitalize(w: string): string
    requires w != ""
  {
    [UpperChar(w[0])] + Lower(w[1..])
  }

  function Capitalized(ws: seq<string>): (r: string)
    requires forall w | w in ws :: IsWord(w)
    ensures forall c | c in r :: Alnum(c)
  {
    if ws == [] then ""
    else
      assert ws[0] in ws && IsWord(ws[0]) && ws[0][0] in ws[0];
      assert forall c | c in ws[0][1..] :: c in ws[0];
      assert forall w | w in ws[1..] :: w in ws;
      Capitalize(ws[0]) + Capitalized(ws[1..])
  }

  datatype Element = Element(id: string, role: string, accessibleName: Option<string>)

  function RoleSuffix(role: string): (suffix: string)
    ensures forall c | c in suffix :: Alnum(c)
  {
    var r := Lower(role);
    if r == "button" || r == "tab" || r == "menuitem" then "Button"
    else if r == "link" then "Link"
    else if r == "textbox" || r == "searchbox" then "Field"
    else if r == "checkbox" || r == "switch" || r == "radio" then "Toggle"
    else "Locator"
  }

  predicate IsIdentifier(s: string) {
    s != "" && !('0' <= s[0] <= '9') && forall c | c in s :: Alnum(c) || c == '_'
  }

  predicate IsWord(w: string) { w != "" && forall c | c in w :: Alnum(c) }

  lemma ElementIsWord()
    ensures IsWord("element")
  {}

  function Parts(base: string): (r: seq<string>)
    ensures r != [] && forall w | w in r :: IsWord(w)
  {
    ElementIsWord();
    if Words(base) == [] then ["element"] else Words(base)
  }

  function Camel(parts: seq<string>): (r: string)
    requires parts != [] && forall w | w in parts :: IsWord(w)
    ensures IsWord(r)
  {
    assert IsWord(parts[0]);
    assert forall w | w in parts[1..] :: w in parts && IsWord(w);
    parts[0] + Capitalized(parts[1..])
  }

  /** The name before any suffix search. */
  function BaseName(e: Element): (name: string)
    ensures IsIdentifier(name)
  {
    var base :=
      if e.accessibleName.Some? && e.accessibleName.value != "" then e.accessibleName.value
      else if e.role != "" then e.role else "element";
    var camel := Camel(Parts(base));
    var safe := if '0' <= camel[0] <= '9' then "_" + camel else camel;
    safe + RoleSuffix(e.role)
  }

  // ----- what the base name says -----

  const WORD_CHARS := A.CAPITALS + A.SMALL + A.DIGITS

  lemma WordCharIff(c: char)
    ensures Alnum(c) <==> c in WORD_CHARS
  {
    A.CapitalIff(c);
    A.SmallIff(c);
    A.DigitIff(c);
  }

  ghost predicate Wordless(s: string) { forall c | c in s :: c !in WORD_CHARS }

  /** A text begins with a gap and then a longest stretch of letters and digits, in lower case here. */
  ghost predicate Begins(s: string, gap: string, word: string, rest: string, lowered: string) {
    && s == gap + word + rest && Wordless(gap) && word != "" && A.OnlyOf(word, WORD_CHARS)
    && (rest != "" ==> rest[0] !in WORD_CHARS) && lowered == Lower(word)
  }

  /** The text is its words in turn. */
  ghost predicate WordsOf(s: string, words: seq<string>)
    decreases |words|
  {
    if words == [] then Wordless(s)
    else exists gap, word, rest :: Begins(s, gap, word, rest, words[0]) && WordsOf(rest, words[1..])
  }

  lemma {:induction false} RunTold(s: string)
    ensures A.OnlyOf(s[..Run(s)], WORD_CHARS) && (Run(s) < |s| ==> s[Run(s)] !in WORD_CHARS)
  {
    if s != "" {
      WordCharIff(s[0]);
      if Alnum(s[0]) {
        RunTold(s[1..]);
        A.OneMoreOf(s[0], s[1..][..Run(s[1..])], WORD_CHARS);
        assert s[..Run(s)] == [s[0]] + s[1..][..Run(s[1..])];
      }
    }
  }

  lemma FirstWord(s: string)
    requires Run(s) > 0
    ensures Begins(s, "", s[..Run(s)], s[Run(s)..], Lower(s[..Run(s)]))
  {
    RunTold(s);
    assert s == "" + s[..Run(s)] + s[Run(s)..];
  }

  lemma {:induction false} WordsTold(s: string)
    ensures WordsOf(s, Words(s))
    decreases |s|
  {
    if s != "" {
      if Run(s) == 0 {
        WordCharIff(s[0]);
        WordsTold(s[1..]);
        GapBefore(s[0], s[1..], Words(s[1..]));
        assert s == [s[0]] + s[1..];
      } else {
        FirstWord(s);
        WordsTold(s[Run(s)..]);
        var words, rest := Words(s), s[Run(s)..];
        assert words[0] == Lower(s[..Run(s)]) && words[1..] == Words(rest);
        assert Begins(s, "", s[..Run(s)], rest, words[0]);
      }
    }
  }

  lemma GapBefore(c: char, s: string, words: seq<string>)
    requires c !in WORD_CHARS && WordsOf(s, words)
    ensures WordsOf([c] + s, words)
  {
    if words != [] {
      var gap, word, rest :| Begins(s, gap, word, rest, words[0]) && WordsOf(rest, words[1..]);
      assert [c] + s == ([c] + gap) + word + rest;
      assert Begins([c] + s, [c] + gap, word, rest, words[0]);
    }
  }

  /** The capital of a small letter; any other character as it is. */
  ghost predicate CapitalChar(c: char, d: char) {
    if c in A.SMALL then exists k :: 0 <= k < 26 && c == A.SMALL[k] && d == A.CAPITALS[k] else d == c
  }

  lemma UpperCharTold(c: char)
    ensures CapitalChar(c, UpperChar(c))
  {
    A.SmallIff(c);
    if 'a' <= c <= 'z' {
      var k := c as int - 'a' as int;
      A.LettersAt(k);
      assert c == A.SMALL[k] && UpperChar(c) == A.CAPITALS[k];
    }
  }

  /** A word with its first letter, if it starts with one, in upper case. */
  ghost predicate CapitalOf(w: string, c: string) { |c| == |w| > 0 && CapitalChar(w[0], c[0]) && c[1..] == w[1..] }

  /** The first part as it is and each later one capitalised. */
  ghost predicate CamelOf(parts: seq<string>, r: string)
    decreases |parts|
  {
    if |parts| <= 1 then parts == [r]
    else exists front, last :: r == front + last && CamelOf(parts[..|parts| - 1], front) && CapitalOf(parts[|parts| - 1], last)
  }

  ghost predicate LowerCase(w: string) { Lower(w) == w }

  lemma CapitalizeTold(w: string)
    requires w != "" && LowerCase(w)
    ensures CapitalOf(w, Capitalize(w))
  {
    UpperCharTold(w[0]);
    assert Lower(w)[1..] == Lower(w[1..]);
  }

  ghost predicate AllWords(ws: seq<string>) { forall w | w in ws :: IsWord(w) }

  lemma {:induction false} CapitalizedLast(ws: seq<string>, w: string)
    requires AllWords(ws) && IsWord(w)
    ensures AllWords(ws + [w]) && Capitalized(ws + [w]) == Capitalized(ws) + Capitalize(w)
  {
    if ws == [] {
      assert ws + [w] == [w] && [w][1..] == [];
    } else {
      assert (ws + [w])[1..] == ws[1..] + [w];
      CapitalizedLast(ws[1..], w);
    }
  }

  lemma CamelGrows(parts: seq<string>, last: string)
    requires AllWords(parts) && parts != [] && IsWord(last)
    ensures AllWords(parts + [last]) && Camel(parts + [last]) == Camel(parts) + Capitalize(last)
  {
    assert (parts + [last])[1..] == parts[1..] + [last];
    CapitalizedLast(parts[1..], last);
  }

  lemma CamelOfNext(parts: seq<string>, front: string, last: string, c: string)
    requires parts != [] && CamelOf(parts, front) && CapitalOf(last, c)
    ensures CamelOf(parts + [last], front + c)
  {
    var all := parts + [last];
    assert all[..|all| - 1] == parts && all[|all| - 1] == last;
  }

  lemma CamelNext(parts: seq<string>, last: string)
    requires AllWords(parts) && parts != [] && IsWord(last) && LowerCase(last) && CamelOf(parts, Camel(parts))
    ensures AllWords(parts + [last]) && CamelOf(parts + [last], Camel(parts + [last]))
  {
    CamelGrows(parts, last);
    CapitalizeTold(last);
    CamelOfNext(parts, Camel(parts), last, Capitalize(last));
  }

  lemma {:induction false} CamelTold(parts: seq<string>)
    requires AllWords(parts) && parts != [] && forall w | w in parts :: LowerCase(w)
    ensures CamelOf(parts, Camel(parts))
    decreases |parts|
  {
    var n := |parts| - 1;
    if n > 0 {
      CamelTold(parts[..n]);
      CamelNext(parts[..n], parts[n]);
      assert parts == parts[..n] + [parts[n]];
    } else {
      assert parts == [parts[0]] && parts[1..] == [] && Capitalized([]) == "";
      assert Camel(parts) == parts[0];
    }
  }

  lemma {:induction false} WordsLower(s: string)
    ensures forall w | w in Words(s) :: LowerCase(w)
    decreases |s|
  {
    if s != "" {
      if Run(s) == 0 { WordsLower(s[1..]); }
      else {
        WordsLower(s[Run(s)..]);
        LowerTwice(s[..Run(s)]);
      }
    }
  }

  lemma LowerTwice(s: string)
    ensures Lower(Lower(s)) == Lower(s)
  {}

  /** What a role is called in a name, whatever its case. */
  lemma RoleSuffixTold(role: string)
    ensures var s, r := RoleSuffix(role), Lower(role);
      && (s == "Button" <==> r in {"button", "tab", "menuitem"}) && (s == "Link" <==> r in {"link"})
      && (s == "Field" <==> r in {"textbox", "searchbox"}) && (s == "Toggle" <==> r in {"checkbox", "switch", "radio"})
      && s in {"Button", "Link", "Field", "Toggle", "Locator"}
  {}

  /** The text a name is made of: the accessible name, for want of one the role, for want of that a stock word. */
  ghost predicate NamedAfter(e: Element, text: string) {
    || (e.accessibleName == Some(text) && text != "")
    || (e.accessibleName in {Some(""), None} && if e.role == "" then text == "element" else text == e.role)
  }

  lemma NamedIff(e: Element)
    ensures Named(e) <==> exists name: string :: name != "" && e.accessibleName == Some(name)
  {
    if Named(e) { assert e.accessibleName == Some(e.accessibleName.value); }
  }

  /** A base name is the words of the element's text in camel case, behind an underscore where they start with a digit,
      and its role's suffix. */
  lemma BaseNameTold(e: Element) returns (text: string, words: seq<string>, camel: string)
    ensures NamedAfter(e, text) && WordsOf(text, words)
    ensures CamelOf(if words == [] then ["element"] else words, camel) && camel != ""
    ensures BaseName(e) == (if camel[0] in A.DIGITS then "_" + camel else camel) + RoleSuffix(e.role)
  {
    text :=
      if e.accessibleName.Some? && e.accessibleName.value != "" then e.accessibleName.value
      else if e.role != "" then e.role else "element";
    words := Words(text);
    camel := Camel(Parts(text));
    WordsTold(text);
    WordsLower(text);
    assert Lower("element") == "element";
    CamelTold(Parts(text));
    A.DigitIff(camel[0]);
  }

  /** Elements come by role, then by name, where none counts as an empty one, then by id. */
  lemma ElementLeTold(a: Element, b: Element)
    ensures var n, m := if a.accessibleName == None then "" else a.accessibleName.value, if b.accessibleName == None then "" else b.accessibleName.value;
      ElementLe(a, b) <==>
        if a.role != b.role then Earlier(a.role, b.role) else if n != m then Earlier(n, m) else Earlier(a.id, b.id)
  {
    var k, l := ElementKey(a), ElementKey(b);
    PathLeFirst(k, l);
    PathLeFirst(k[1..], l[1..]);
    PathLeFirst(k[2..], l[2..]);
    assert k[1..][1..] == k[2..] && l[1..][1..] == l[2..] && k[2..][1..] == [] && l[2..][1..] == [];
  }

  /** An identifier is letters, digits and underscores, no digit first. */
  lemma IdentifierIff(s: string)
    ensures IsIdentifier(s) <==> s != "" && s[0] !in A.DIGITS && A.OnlyOf(s, WORD_CHARS + "_")
  {
    forall c ensures (Alnum(c) <==> c in WORD_CHARS) && ('0' <= c <= '9' <==> c in A.DIGITS) {
      WordCharIff(c);
      A.DigitIff(c);
    }
  }

  /** The names the search has already found taken, all different. */
  lemma {:induction false} TakenBelow(name: string, used: set<string>, k: nat) returns (taken: set<string>)
    requires k >= 2 && forall j: nat | 2 <= j < k :: name + Decimal(j) in used
    ensures taken <= used && |taken| == k - 2
    ensures forall j: nat | j >= k :: name + Decimal(j) !in taken
  {
    taken := {};
    if k > 2 {
      var rest := TakenBelow(name, used, k - 1);
      taken := rest + {name + Decimal(k - 1)};
      forall j: nat | j >= k ensures name + Decimal(j) != name + Decimal(k - 1) {
        if name + Decimal(j) == name + Decimal(k - 1) { SameStem(name, j, k - 1); }
      }
    }
  }

  /** Pigeonhole: the search cannot outlast the names already used. */
  lemma SearchEnds(name: string, used: set<string>, k: nat)
    requires k >= 2 && forall j: nat | 2 <= j < k :: name + Decimal(j) in used
    ensures k - 2 <= |used|
  {
    var taken := TakenBelow(name, used, k);
    assert |used - taken| == |used| - |taken|;
  }

  /** The first free index from `k` on. */
  function FreeIndex(name: string, used: set<string>, k: nat): (r: nat)
    requires k >= 2 && forall j: nat | 2 <= j < k :: name + Decimal(j) in used
    ensures r >= k && name + Decimal(r) !in used && forall j: nat | 2 <= j < r :: name + Decimal(j) in used
    decreases |used| + 2 - k
  {
    if name + Decimal(k) in used then
      SearchEnds(name, used, k + 1);
      FreeIndex(name, used, k + 1)
    else k
  }

  /** The base name, or the base name with the least index from 2 that is free. */
  function Free(name: string, used: set<string>): string {
    if name in used then name + Decimal(FreeIndex(name, used, 2)) else name
  }

  /** The chosen name is new, it is the base name whenever that is free, and no smaller index would do. */
  lemma FreeIsLeast(name: string, used: set<string>)
    ensures Free(name, used) !in used
    ensures name !in used ==> Free(name, used) == name
    ensures name in used ==>
      exists k: nat :: k >= 2 && Free(name, used) == name + Decimal(k) && forall j: nat | 2 <= j < k :: name + Decimal(j) in used
    ensures IsIdentifier(name) ==> IsIdentifier(Free(name, used))
  {}

  method AccessorName(e: Element, used: set<string>) returns (name: string, after: set<string>)
    ensures name == Free(BaseName(e), used) && after == used + {name}
  {
    name := BaseName(e);
    if name in used {
      var idx := 2;
      while name + Decimal(idx) in used
        invariant idx >= 2 && forall j: nat | 2 <= j < idx :: name + Decimal(j) in used
        invariant FreeIndex(name, used, 2) == FreeIndex(name, used, idx)
        decreases |used| + 2 - idx
      {
        SearchEnds(name, used, idx + 1);
        idx := idx + 1;
      }
      name := name + Decimal(idx);
    }
    after := used + {name};
  }

  predicate Named(e: Element) { e.accessibleName.Some? && e.accessibleName.value != "" }

  /** The rest of a page: each named element gets a name avoiding the earlier ones, nameless ones are skipped. */
  function PageFrom(els: seq<Element>, i: nat, used: set<string>, names: seq<string>, skipped: seq<string>): (seq<string>, seq<string>)
    requires i <= |els|
    decreases |els| - i
  {
    if i == |els| then (names, skipped)
    else if !Named(els[i]) then PageFrom(els, i + 1, used, names, skipped + [els[i].id])
    else
      var name := Free(BaseName(els[i]), used);
      PageFrom(els, i + 1, used + {name}, names + [name], skipped)
  }

  /** Accessor names on a page are pairwise different legal identifiers, and no element is lost. */
  lemma {:induction false} AccessorsDistinct(els: seq<Element>, i: nat, used: set<string>, names: seq<string>, skipped: seq<string>)
    requires i <= |els| && NoDup(names) && forall n | n in names :: n in used && IsIdentifier(n)
    ensures var (allNames, allSkipped) := PageFrom(els, i, used, names, skipped);
      && NoDup(allNames) && (forall n | n in allNames :: IsIdentifier(n))
      && |allNames| + |allSkipped| == |names| + |skipped| + |els| - i
    decreases |els| - i
  {
    if i < |els| {
      if Named(els[i]) {
        var name := Free(BaseName(els[i]), used);
        FreeIsLeast(BaseName(els[i]), used);
        AccessorsDistinct(els, i + 1, used + {name}, names + [name], skipped);
      } else {
        AccessorsDistinct(els, i + 1, used, names, skipped + [els[i].id]);
      }
    }
  }

  /** Elements are taken by role, name and id. */
  function ElementKey(e: Element): seq<string> {
    [e.role, if e.accessibleName.Some? then e.accessibleName.value else "", e.id]
  }

  predicate ElementLe(a: Element, b: Element) { PathLe(ElementKey(a), ElementKey(b)) }

  /** The accessors of one page and the elements skipped because they have no name. */
  function Page(els: seq<Element>): (seq<string>, seq<string>) { PageFrom(SortBy(ElementLe, els), 0, {}, [], []) }

  /** A page's accessors do not depend on the order in which its elements were found. */
  lemma PageForgetsOrder(els: seq<Element>, found: seq<Element>)
    requires multiset(els) == multiset(found) && forall a, b | a in els && b in els :: ElementKey(a) == ElementKey(b) ==> a == b
    ensures Page(els) == Page(found)
  {
    forall x, y ensures ElementLe(x, y) || ElementLe(y, x) { PathLeTotal(ElementKey(x), ElementKey(y)); }
    forall x, y, z | ElementLe(x, y) && ElementLe(y, z) ensures ElementLe(x, z) {
      PathLeTrans(ElementKey(x), ElementKey(y), ElementKey(z));
    }
    forall x, y | x in els && y in els && ElementLe(x, y) && ElementLe(y, x) ensures x == y {
      PathLeAntisym(ElementKey(x), ElementKey(y));
    }
    SortForgetsOrder(ElementLe, els, found);
  }

  method PageAccessors(found: seq<Element>) returns (names: seq<string>, skipped: seq<string>)
    ensures (names, skipped) == Page(found)
    ensures NoDup(names) && |names| + |skipped| == |found|
  {
    var els := SortBy(ElementLe, found);
    var used: set<string> := {};
    names, skipped := [], [];
    AccessorsDistinct(els, 0, used, names, skipped);
    var i := 0;
    while i < |els|
      invariant 0 <= i <= |els|
      invariant PageFrom(els, i, used, names, skipped) == PageFrom(els, 0, {}, [], [])
    {
      var e := els[i];
      i := i + 1;
      if !Named(e) {
        skipped := skipped + [e.id];
        continue;
      }
      var name;
      name, used := AccessorName(e, used);
      names := names + [name];
    }
  }

  // ----- spec file names -----

  function Is(s: string): string -> bool { (t: string) => t == s }

  /** The k-th flow with a slug: the first keeps the plain name. */
  function Stem(s: string, k: nat): string { if k <= 1 then s else s + "_" + Decimal(k) }

  function SpecPath(s: string, k: nat): string { Stem(s, k) + ".spec.ts" }

  function PathAt(slugs: seq<string>, i: nat): string
    requires i < |slugs|
  {
    SpecPath(slugs[i], Count(Is(slugs[i]), slugs[..i + 1]))
  }

  /** The first flow with a slug has the slug's path, each later one its number behind an underscore. */
  lemma PathTold(slugs: seq<string>, i: nat)
    requires i < |slugs|
    ensures var k := Count(Is(slugs[i]), slugs[..i + 1]);
      && k >= 1 && (k == 1 <==> slugs[i] !in slugs[..i])
      && PathAt(slugs, i) == if slugs[i] !in slugs[..i] then slugs[i] + ".spec.ts" else slugs[i] + "_" + Decimal(k) + ".spec.ts"
  {
    CountNext(Is(slugs[i]), slugs, i);
    CountPositive(slugs[..i], slugs[i]);
  }

  function PlainPath(s: string): string { s + ".spec.ts" }

  lemma PlainPathsDiffer(s: string, t: string)
    requires PlainPath(s) == PlainPath(t)
    ensures s == t
  {
    assert PlainPath(s)[..|s|] == s && PlainPath(t)[..|t|] == t;
  }

  /** `used_paths` counts how often each plain path has come up. */
  ghost predicate Tracks(used: map<string, nat>, slugs: seq<string>) {
    forall s :: (PlainPath(s) in used <==> Count(Is(s), slugs) > 0) && (PlainPath(s) in used ==> used[PlainPath(s)] == Count(Is(s), slugs))
  }

  lemma TracksNext(used: map<string, nat>, slugs: seq<string>, i: nat)
    requires i < |slugs| && Tracks(used, slugs[..i])
    ensures Tracks(used[PlainPath(slugs[i]) := Count(Is(slugs[i]), slugs[..i + 1])], slugs[..i + 1])
    ensures Count(Is(slugs[i]), slugs[..i + 1]) == if PlainPath(slugs[i]) in used then used[PlainPath(slugs[i])] + 1 else 1
  {
    forall s ensures Count(Is(s), slugs[..i + 1]) == Count(Is(s), slugs[..i]) + if s == slugs[i] then 1 else 0 {
      CountNext(Is(s), slugs, i);
    }
    forall s | PlainPath(s) == PlainPath(slugs[i]) ensures s == slugs[i] { PlainPathsDiffer(s, slugs[i]); }
  }

  method NameSpecs(slugs: seq<string>) returns (paths: seq<string>)
    ensures |paths| == |slugs| && forall i | 0 <= i < |slugs| :: paths[i] == PathAt(slugs, i)
  {
    var used: map<string, nat> := map[];
    paths := [];
    for i := 0 to |slugs|
      invariant |paths| == i && forall j | 0 <= j < i :: paths[j] == PathAt(slugs, j)
      invariant Tracks(used, slugs[..i])
    {
      var s := slugs[i];
      var key := PlainPath(s);
      TracksNext(used, slugs, i);
      var path := key;
      if key in used {
        used := used[key := used[key] + 1];
        path := s + "_" + Decimal(used[key]) + ".spec.ts";
      } else {
        used := used[key := 1];
      }
      paths := paths + [path];
    }
  }

  lemma {:induction false} CountGrows(slugs: seq<string>, s: string, i: nat, j: nat)
    requires i <= j <= |slugs|
    ensures Count(Is(s), slugs[..i]) <= Count(Is(s), slugs[..j])
    decreases j
  {
    if i < j {
      CountNext(Is(s), slugs, j - 1);
      CountGrows(slugs, s, i, j - 1);
    }
  }

  lemma CountLater(slugs: seq<string>, i: nat, j: nat)
    requires i < j < |slugs| && slugs[i] == slugs[j]
    ensures Count(Is(slugs[i]), slugs[..i + 1]) < Count(Is(slugs[j]), slugs[..j + 1])
  {
    CountGrows(slugs, slugs[i], i + 1, j);
    CountNext(Is(slugs[j]), slugs, j);
  }

  /** The k-th occurrence of a slug that occurs at least k times. */
  lemma {:induction false} Occurrence(slugs: seq<string>, s: string, k: nat) returns (i: nat)
    requires 1 <= k <= Count(Is(s), slugs)
    ensures i < |slugs| && slugs[i] == s && Count(Is(s), slugs[..i + 1]) == k
    decreases |slugs|
  {
    var n := |slugs| - 1;
    CountNext(Is(s), slugs, n);
    assert slugs[..n + 1] == slugs;
    if slugs[n] == s && Count(Is(s), slugs) == k {
      i := n;
    } else {
      i := Occurrence(slugs[..n], s, k);
      assert slugs[..n][..i + 1] == slugs[..i + 1];
    }
  }

  lemma StemPath(s: string, k: nat, t: string, m: nat)
    ensures SpecPath(s, k) == SpecPath(t, m) <==> Stem(s, k) == Stem(t, m)
  {
    assert SpecPath(s, k)[..|SpecPath(s, k)| - 8] == Stem(s, k) && SpecPath(t, m)[..|SpecPath(t, m)| - 8] == Stem(t, m);
  }

  /** A decimal suffix is what follows the last underscore. */
  lemma SuffixUnique(s: string, k: nat, t: string, m: nat)
    requires s + "_" + Decimal(k) == t + "_" + Decimal(m)
    ensures s == t && k == m
  {
    CutAt('_', s, Decimal(k), t, Decimal(m));
    DecimalInjective(k, m);
  }

  /** Some flow's own slug is what a repeated slug is renamed to. */
  ghost predicate Collides(slugs: seq<string>) {
    exists s, t, k: nat :: Collision(slugs, s, t, k)
  }

  ghost predicate Collision(slugs: seq<string>, s: string, t: string, k: nat) {
    2 <= k <= Count(Is(s), slugs) && t in slugs && t == s + "_" + Decimal(k)
  }

  lemma {:induction false} CountPositive(slugs: seq<string>, s: string)
    ensures Count(Is(s), slugs) > 0 <==> s in slugs
  {
    if slugs != [] { CountPositive(slugs[1..], s); }
  }

  lemma EqualPathsCollide(slugs: seq<string>, i: nat, j: nat)
    requires i < j < |slugs| && PathAt(slugs, i) == PathAt(slugs, j)
    ensures Collides(slugs)
  {
    var s, t := slugs[i], slugs[j];
    var k, m := Count(Is(s), slugs[..i + 1]), Count(Is(t), slugs[..j + 1]);
    StemPath(s, k, t, m);
    assert slugs[..|slugs|] == slugs;
    CountGrows(slugs, s, i + 1, |slugs|);
    CountGrows(slugs, t, j + 1, |slugs|);
    CountNext(Is(s), slugs, i);
    CountNext(Is(t), slugs, j);
    if s == t { CountLater(slugs, i, j); }
    if k > 1 && m > 1 {
      SuffixUnique(s, k, t, m);
    } else if k > 1 {
      assert Collision(slugs, s, t, k);
    } else if m > 1 {
      assert Collision(slugs, t, s, m);
    }
  }

  lemma CollisionRepeatsPath(slugs: seq<string>, s: string, t: string, k: nat)
    requires Collision(slugs, s, t, k)
    ensures exists i: nat, j: nat :: i < j < |slugs| && PathAt(slugs, i) == PathAt(slugs, j)
  {
    CountPositive(slugs, t);
    var i := Occurrence(slugs, s, k);
    var j := Occurrence(slugs, t, 1);
    assert PathAt(slugs, i) == PathAt(slugs, j);
    assert |t| > |s|;
  }

  /** Spec paths are pairwise different exactly when no slug equals another one plus an index it would be given. */
  lemma SpecPathsDistinctIff(slugs: seq<string>)
    ensures (forall i, j | 0 <= i < j < |slugs| :: PathAt(slugs, i) != PathAt(slugs, j)) <==> !Collides(slugs)
  {
    forall i: nat, j: nat | i < j < |slugs| && PathAt(slugs, i) == PathAt(slugs, j) ensures Collides(slugs) {
      EqualPathsCollide(slugs, i, j);
    }
    if s, t, k: nat :| Collision(slugs, s, t, k) { CollisionRepeatsPath(slugs, s, t, k); }
  }

  /** Two flows with one slug and a third already carrying the suffixed name. */
  lemma SuffixedSlugClashes(s: string)
    ensures PathAt([s, s, s + "_2"], 1) == PathAt([s, s, s + "_2"], 2)
  {
    var slugs := [s, s, s + "_2"];
    assert slugs[..2] == [s, s] && slugs[..3] == slugs && slugs[1..] == [s, s + "_2"] && [s, s][1..] == [s] && [s, s + "_2"][1..] == [s + "_2"];
    CountOne(Is(s), s);
    CountOne(Is(s + "_2"), s + "_2");
    assert Count(Is(s), [s, s]) == 2 && Count(Is(s + "_2"), slugs) == 1;
    assert Decimal(2) == "2";
    assert s + "_" + "2" == s + "_2";
  }
}
