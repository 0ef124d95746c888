/** engine/generator/plan_md.py: the renderer, the reader that takes the spec list out of the
    previous generation's summary, and the round trip between them. */
module PlanMarkdown {
  import opened Sorting
  import opened Text
  import opened PlanDocument
  import Naming
  import opened Wrappers

  // ----- the reader -----

  predicate IsItem(line: string) { "- `" <= line && line != "" && line[|line| - 1] == '`' }

  /** `line[3:-1]` */
  function Inner(line: string): string { if |line| >= 4 then line[3..|line| - 1] else "" }

  /** One line of the reader's loop: whether the section is open afterwards, and what the line yields. */
  function Advance(heading: string, raw: string, inside: bool): (bool, seq<string>) {
    var line := Strip(raw);
    if "### " <= line then (line == heading, [])
    else if "## " <= line then (false, [])
    else (inside, if inside && IsItem(line) then [Inner(line)] else [])
  }

  /** Reads the bullets under one heading; the source's reader looks for `### Specs`. */
  function Read(heading: string, lines: seq<string>, inside: bool): seq<string> {
    if lines == [] then []
    else
      var (open, items) := Advance(heading, lines[0], inside);
      items + Read(heading, lines[1..], open)
  }

  /** The reader's loop from line `i` on, with what it has gathered. */
  function Scan(heading: string, lines: seq<string>, i: nat, inside: bool, out: seq<string>): seq<string>
    requires i <= |lines|
    decreases |lines| - i
  {
    if i == |lines| then out
    else
      var (open, items) := Advance(heading, lines[i], inside);
      Scan(heading, lines, i + 1, open, out + items)
  }

  lemma {:induction false} ScanReads(heading: string, lines: seq<string>, i: nat, inside: bool, out: seq<string>)
    requires i <= |lines|
    ensures Scan(heading, lines, i, inside, out) == out + Read(heading, lines[i..], inside)
    decreases |lines| - i
  {
    if i < |lines| {
      var (open, items) := Advance(heading, lines[i], inside);
      assert lines[i..][1..] == lines[i + 1..];
      ScanReads(heading, lines, i + 1, open, out + items);
      assert out + items + Read(heading, lines[i + 1..], open) == out + (items + Read(heading, lines[i + 1..], open));
    }
  }

  method ReadPriorSpecPaths(text: Option<string>) returns (out: seq<string>)
    ensures out == if text.None? then [] else Read("### Specs", SplitLines(text.value), false)
  {
    out := [];
    if text.None? { return; }
    var lines := SplitLines(text.value);
    ScanReads("### Specs", lines, 0, false, []);
    assert lines[0..] == lines;
    var inSpecs := false;
    var i := 0;
    while i < |lines|
      invariant 0 <= i <= |lines|
      invariant Scan("### Specs", lines, i, inSpecs, out) == Scan("### Specs", lines, 0, false, [])
    {
      var line := Strip(lines[i]);
      assert out + [] == out;
      i := i + 1;
      if "### " <= line {
        inSpecs := line == "### Specs";
        continue;
      }
      if "## " <= line {
        inSpecs := false;
        continue;
      }
      if !inSpecs { continue; }
      if IsItem(line) { out := out + [Inner(line)]; }
    }
  }

  // ----- what the reader finds in any text -----

  /** A line that ends a section: a heading of the second or third level. */
  ghost predicate IsHeading(raw: string) { "### " <= Strip(raw) || "## " <= Strip(raw) }

  /** A bullet with a quoted path; one backtick may close its own quotation. */
  ghost predicate Quotes(raw: string, path: string) {
    Strip(raw) == "- `" + path + "`" || (Strip(raw) == "- `" && path == "")
  }

  ghost predicate NoHeading(lines: seq<string>, i: nat, k: nat)
    requires k <= |lines|
  {
    forall j | i <= j < k :: !IsHeading(lines[j])
  }

  /** Line `k` is in the section: the last heading before it is the section's, or the text began in it. */
  ghost predicate Within(heading: string, lines: seq<string>, inside: bool, k: nat)
    requires k <= |lines|
  {
    || (inside && NoHeading(lines, 0, k))
    || exists h :: Opens(heading, lines, h, k)
  }

  ghost predicate ListsAt(heading: string, lines: seq<string>, inside: bool, path: string, k: nat) {
    k < |lines| && Within(heading, lines, inside, k) && Quotes(lines[k], path)
  }

  ghost predicate Lists(heading: string, lines: seq<string>, inside: bool, path: string) {
    exists k :: ListsAt(heading, lines, inside, path, k)
  }

  lemma ItemIff(raw: string, path: string)
    ensures Quotes(raw, path) <==> IsItem(Strip(raw)) && path == Inner(Strip(raw))
    ensures Quotes(raw, path) ==> !IsHeading(raw)
  {
    var line := Strip(raw);
    if Quotes(raw, path) && |line| >= 4 { assert line[3..|line| - 1] == path; }
    if IsItem(line) && |line| >= 4 { assert line == "- `" + line[3..|line| - 1] + "`"; }
    if IsItem(line) && |line| < 4 { assert line == "- `"; }
    assert Quotes(raw, path) ==> line[0] == '-';
    assert IsHeading(raw) ==> line[0] == '#';
  }

  lemma AdvanceTold(heading: string, raw: string, inside: bool, path: string)
    requires "### " <= heading
    ensures var (open, items) := Advance(heading, raw, inside);
      && (open <==> Strip(raw) == heading || (inside && !IsHeading(raw)))
      && (path in items <==> inside && Quotes(raw, path))
  {
    ItemIff(raw, path);
  }

  lemma ShiftNoHeading(first: string, rest: seq<string>, i: nat, k: nat)
    requires k <= |rest|
    ensures NoHeading([first] + rest, i + 1, k + 1) <==> NoHeading(rest, i, k)
  {
    var lines := [first] + rest;
    assert forall j | 0 <= j < |rest| :: lines[j + 1] == rest[j];
    if NoHeading(lines, i + 1, k + 1) {
      forall j | i <= j < k ensures !IsHeading(rest[j]) { assert !IsHeading(lines[j + 1]); }
    }
    if NoHeading(rest, i, k) {
      forall j | i + 1 <= j < k + 1 ensures !IsHeading(lines[j]) { assert lines[j] == rest[j - 1]; }
    }
  }

  lemma NoHeadingFrom(lines: seq<string>, k: nat)
    requires 1 <= k <= |lines|
    ensures NoHeading(lines, 0, k) <==> !IsHeading(lines[0]) && NoHeading(lines, 1, k)
  {
    if NoHeading(lines, 1, k) && !IsHeading(lines[0]) {
      forall j | 0 <= j < k ensures !IsHeading(lines[j]) { if j > 0 { assert !IsHeading(lines[j]); } }
    }
    if NoHeading(lines, 0, k) { assert !IsHeading(lines[0]); }
  }

  /** Line `h` is the section's heading, and no other one comes before line `k`. */
  ghost predicate Opens(heading: string, lines: seq<string>, h: nat, k: nat)
    requires k <= |lines|
  {
    h < k && Strip(lines[h]) == heading && NoHeading(lines, h + 1, k)
  }

  lemma OpensNext(heading: string, first: string, rest: seq<string>, h: nat, k: nat)
    requires k <= |rest|
    ensures Opens(heading, [first] + rest, h + 1, k + 1) <==> Opens(heading, rest, h, k)
  {
    ShiftNoHeading(first, rest, h + 1, k);
  }

  lemma OpensFirst(heading: string, first: string, rest: seq<string>, k: nat)
    requires k <= |rest|
    ensures Opens(heading, [first] + rest, 0, k + 1) <==> Strip(first) == heading && NoHeading(rest, 0, k)
  {
    ShiftNoHeading(first, rest, 0, k);
  }

  lemma WithinNext(heading: string, first: string, rest: seq<string>, inside: bool, k: nat)
    requires "### " <= heading && k <= |rest|
    ensures Within(heading, [first] + rest, inside, k + 1) <==> Within(heading, rest, Advance(heading, first, inside).0, k)
  {
    var lines := [first] + rest;
    AdvanceTold(heading, first, inside, "");
    NoHeadingFrom(lines, k + 1);
    ShiftNoHeading(first, rest, 0, k);
    OpensFirst(heading, first, rest, k);
    var next := k + 1;
    if h: nat :| Opens(heading, lines, h, next) {
      if h > 0 { OpensNext(heading, first, rest, h - 1, k); }
    }
    if h: nat :| Opens(heading, rest, h, k) { OpensNext(heading, first, rest, h, k); }
  }

  lemma ListsAtNext(heading: string, first: string, rest: seq<string>, inside: bool, path: string, k: nat)
    requires "### " <= heading
    ensures ListsAt(heading, [first] + rest, inside, path, k + 1) <==>
      ListsAt(heading, rest, Advance(heading, first, inside).0, path, k)
  {
    if k < |rest| {
      WithinNext(heading, first, rest, inside, k);
      assert ([first] + rest)[k + 1] == rest[k];
    }
  }

  lemma ListsAtFirst(heading: string, first: string, rest: seq<string>, inside: bool, path: string)
    requires "### " <= heading
    ensures ListsAt(heading, [first] + rest, inside, path, 0) <==> path in Advance(heading, first, inside).1
  {
    AdvanceTold(heading, first, inside, path);
    assert Within(heading, [first] + rest, inside, 0) <==> inside;
  }

  lemma ListsNext(heading: string, first: string, rest: seq<string>, inside: bool, path: string)
    requires "### " <= heading
    ensures Lists(heading, [first] + rest, inside, path) <==>
      path in Advance(heading, first, inside).1 || Lists(heading, rest, Advance(heading, first, inside).0, path)
  {
    var open := Advance(heading, first, inside).0;
    ListsAtFirst(heading, first, rest, inside, path);
    if k: nat :| ListsAt(heading, [first] + rest, inside, path, k) {
      if k > 0 { ListsAtNext(heading, first, rest, inside, path, k - 1); }
    }
    if k: nat :| ListsAt(heading, rest, open, path, k) { ListsAtNext(heading, first, rest, inside, path, k); }
  }

  /** In any text the reader finds the quoted paths of the bullets whose last heading before them is the one looked for. */
  lemma {:induction false} ReadIff(heading: string, lines: seq<string>, inside: bool, path: string)
    requires "### " <= heading
    ensures path in Read(heading, lines, inside) <==> Lists(heading, lines, inside, path)
  {
    if lines != [] {
      assert lines == [lines[0]] + lines[1..];
      ListsNext(heading, lines[0], lines[1..], inside, path);
      ReadIff(heading, lines[1..], Advance(heading, lines[0], inside).0, path);
    }
  }

  // ----- reading what was rendered -----

  function Item(line: string): seq<string> { if IsItem(line) then [Inner(line)] else [] }

  function Items(body: seq<string>): seq<string> {
    if body == [] then [] else Item(body[0]) + Items(body[1..])
  }

  /** What the blocks list under a heading. */
  function ItemsUnder(heading: string, blocks: seq<Block>): seq<string> {
    if blocks == [] then []
    else (if blocks[0].title == heading then Items(blocks[0].body) else []) + ItemsUnder(heading, blocks[1..])
  }

  lemma StripTidy(line: string)
    requires Tidy(line)
    ensures Strip(line) == line
  {}

  lemma BodyAdvance(heading: string, line: string, inside: bool)
    requires BodyLine(line)
    ensures Advance(heading, line, inside) == (inside, if inside then Item(line) else [])
  {
    StripTidy(line);
  }

  lemma TitleAdvance(heading: string, title: string, inside: bool)
    requires Tidy(title) && ("## " <= title || "### " <= title) && "### " <= heading
    ensures Advance(heading, title, inside) == (title == heading, [])
  {
    StripTidy(title);
    assert "### "[2] == '#' && "## "[2] == ' ';
  }

  lemma ReadCons(heading: string, line: string, rest: seq<string>, inside: bool)
    ensures Read(heading, [line] + rest, inside) ==
      Advance(heading, line, inside).1 + Read(heading, rest, Advance(heading, line, inside).0)
  {
    assert ([line] + rest)[1..] == rest;
  }

  /** Before the first heading the reader is outside every section. */
  lemma {:induction false} SkipQuiet(heading: string, lines: seq<string>, rest: seq<string>)
    requires TidyLines(lines) && forall l | l in lines :: !OpensSection(l)
    ensures Read(heading, lines + rest, false) == Read(heading, rest, false)
  {
    if lines == [] {
      assert lines + rest == rest;
    } else {
      assert lines[0] in lines;
      StripTidy(lines[0]);
      assert (lines + rest)[1..] == lines[1..] + rest;
      SkipQuiet(heading, lines[1..], rest);
    }
  }

  lemma ReadInsideCons(heading: string, line: string, more: seq<string>, rest: seq<string>)
    requires BodyLine(line) && Read(heading, more + rest, true) == Items(more) + Read(heading, rest, true)
    ensures Read(heading, [line] + (more + rest), true) == (Item(line) + Items(more)) + Read(heading, rest, true)
  {
    BodyAdvance(heading, line, true);
    ReadCons(heading, line, more + rest, true);
  }

  lemma ReadInsideStep(heading: string, body: seq<string>, rest: seq<string>)
    requires body != [] && BodyLine(body[0])
    requires Read(heading, body[1..] + rest, true) == Items(body[1..]) + Read(heading, rest, true)
    ensures Read(heading, body + rest, true) == Items(body) + Read(heading, rest, true)
  {
    ReadInsideCons(heading, body[0], body[1..], rest);
    assert body + rest == [body[0]] + (body[1..] + rest);
  }

  lemma {:induction false} ReadInside(heading: string, body: seq<string>, rest: seq<string>)
    requires PlainBody(body)
    ensures Read(heading, body + rest, true) == Items(body) + Read(heading, rest, true)
  {
    if body == [] {
      assert body + rest == rest && [] + Read(heading, rest, true) == Read(heading, rest, true);
    } else {
      ReadInside(heading, body[1..], rest);
      ReadInsideStep(heading, body, rest);
    }
  }

  lemma ReadBody(heading: string, body: seq<string>, rest: seq<string>, inside: bool)
    requires PlainBody(body)
    ensures Read(heading, body + rest, inside) == (if inside then Items(body) else []) + Read(heading, rest, inside)
  {
    if inside {
      ReadInside(heading, body, rest);
    } else {
      forall l | l in body ensures Tidy(l) && !OpensSection(l) { assert BodyLine(l); }
      SkipQuiet(heading, body, rest);
    }
  }

  /** Every heading starts afresh, so a section's bullets are found whatever surrounds it. */
  lemma {:induction false} ReadBlocks(heading: string, blocks: seq<Block>, inside: bool)
    requires TidyBlocks(blocks) && "### " <= heading
    ensures Read(heading, Lines(blocks), inside) == ItemsUnder(heading, blocks)
  {
    if blocks != [] {
      var b, rest := blocks[0], Lines(blocks[1..]);
      assert b in blocks;
      TitleAdvance(heading, b.title, inside);
      assert Lines(blocks) == [b.title] + (b.body + rest);
      assert ([b.title] + (b.body + rest))[1..] == b.body + rest;
      ReadBody(heading, b.body, rest, b.title == heading);
      ReadBlocks(heading, blocks[1..], b.title == heading);
    }
  }

  lemma {:induction false} BulletItems(paths: seq<string>)
    ensures Items(Bullets(paths)) == paths
  {
    if paths != [] {
      var l := Bullet(paths[0]);
      assert l[..3] == "- `" && Inner(l) == paths[0];
      assert Bullets(paths)[1..] == Bullets(paths[1..]);
      BulletItems(paths[1..]);
    }
  }

  lemma {:induction false} ItemsConcat(a: seq<string>, b: seq<string>)
    ensures Items(a + b) == Items(a) + Items(b)
  {
    if a == [] { assert a + b == b; } else {
      assert (a + b)[1..] == a[1..] + b;
      ItemsConcat(a[1..], b);
    }
  }

  lemma ListedItems(paths: seq<string>, blanks: seq<string>)
    requires blanks == [""] || blanks == ["", ""]
    ensures Items([""] + Bullets(paths) + blanks) == paths
  {
    ItemsConcat([""] + Bullets(paths), blanks);
    ItemsConcat([""], Bullets(paths));
    BulletItems(paths);
    assert [""][1..] == [] && ["", ""][1..] == [""];
  }

  lemma {:induction false} ItemsUnderConcat(heading: string, a: seq<Block>, b: seq<Block>)
    ensures ItemsUnder(heading, a + b) == ItemsUnder(heading, a) + ItemsUnder(heading, b)
  {
    if a == [] { assert a + b == b; } else {
      assert (a + b)[1..] == a[1..] + b;
      ItemsUnderConcat(heading, a[1..], b);
    }
  }

  lemma SectionItems(heading: string, title: string, paths: seq<string>, blanks: seq<string>)
    requires blanks == [""] || blanks == ["", ""]
    ensures ItemsUnder(heading, Section(title, paths, blanks)) == if title == heading then paths else []
  {
    ListedItems(paths, blanks);
    if paths != [] { assert Section(title, paths, blanks)[1..] == []; }
  }

  lemma DiffItems(heading: string, added: seq<string>, removed: seq<string>)
    requires heading != "## Diff vs previous generation"
    ensures ItemsUnder(heading, DiffBlocks(added, removed)) ==
      if heading == "### Added" then added else if heading == "### Removed" then removed else []
  {
    var blanks := if removed == [] then ["", ""] else [""];
    var head := DiffHead(added != [] || removed != []);
    ItemsUnderConcat(heading, head, Section("### Added", added, blanks) + Section("### Removed", removed, [""]));
    ItemsUnderConcat(heading, Section("### Added", added, blanks), Section("### Removed", removed, [""]));
    SectionItems(heading, "### Added", added, blanks);
    SectionItems(heading, "### Removed", removed, [""]);
    assert head[1..] == [];
    assert "### Added"[4] == 'A' && "### Removed"[4] == 'R';
  }

  lemma {:induction false} LinesTidy(blocks: seq<Block>)
    requires TidyBlocks(blocks)
    ensures TidyLines(Lines(blocks))
  {
    if blocks != [] {
      assert TidyBlock(blocks[0]);
      LinesTidy(blocks[1..]);
    }
  }

  /** A document without its trailing blank lines. */
  lemma {:induction false} TrimBlanks(lines: seq<string>) returns (core: seq<string>, blanks: nat)
    requires lines != [] && lines[0] != ""
    ensures core != [] && core[|core| - 1] != "" && lines == core + seq(blanks, _ => "")
    decreases |lines|
  {
    var n := |lines| - 1;
    if lines[n] != "" {
      core, blanks := lines, 0;
      assert lines == core + seq(0, _ => "");
    } else {
      var fewer;
      core, fewer := TrimBlanks(lines[..n]);
      blanks := fewer + 1;
      assert lines == lines[..n] + [""];
      assert seq(blanks, _ => "") == seq(fewer, _ => "") + [""];
    }
  }

  lemma {:induction false} BlanksReadNothing(heading: string, blanks: nat, inside: bool)
    ensures Read(heading, seq(blanks, _ => ""), inside) == []
  {
    if blanks > 0 {
      assert seq(blanks, _ => "")[1..] == seq(blanks - 1, _ => "");
      BlanksReadNothing(heading, blanks - 1, inside);
      StripTidy("");
      assert !IsItem("");
    }
  }

  lemma {:induction false} TrailingBlanks(heading: string, core: seq<string>, blanks: nat, inside: bool)
    ensures Read(heading, core + seq(blanks, _ => ""), inside) == Read(heading, core, inside)
  {
    if core == [] {
      assert core + seq(blanks, _ => "") == seq(blanks, _ => "");
      BlanksReadNothing(heading, blanks, inside);
    } else {
      assert (core + seq(blanks, _ => ""))[1..] == core[1..] + seq(blanks, _ => "");
      TrailingBlanks(heading, core[1..], blanks, Advance(heading, core[0], inside).0);
    }
  }

  /** Joining, stripping and splitting keep what the reader sees of tidy lines. */
  lemma TextKeepsLines(heading: string, lines: seq<string>)
    requires lines != [] && lines[0] != "" && TidyLines(lines)
    ensures Read(heading, SplitLines(RStrip(JoinLines(lines)) + "\n"), false) == Read(heading, lines, false)
  {
    var core, blanks := TrimBlanks(lines);
    forall l | l in core ensures Tidy(l) { assert l in core + seq(blanks, _ => ""); }
    assert core[|core| - 1] in core;
    RStripBlankLines(core, blanks);
    SplitJoined(core);
    TrailingBlanks(heading, core, blanks, false);
  }

  /** Whatever section is read back from a document is what its blocks list there. */
  lemma ReadText(heading: string, top: seq<string>, blocks: seq<Block>)
    requires Quiet(top) && TidyBlocks(blocks) && "### " <= heading
    ensures Read(heading, SplitLines(RStrip(JoinLines(top + Lines(blocks))) + "\n"), false) == ItemsUnder(heading, blocks)
  {
    LinesTidy(blocks);
    assert TidyLines(top + Lines(blocks)) by {
      forall l | l in top + Lines(blocks) ensures Tidy(l) {}
    }
    assert (top + Lines(blocks))[0] == top[0];
    TextKeepsLines(heading, top + Lines(blocks));
    SkipQuiet(heading, top, Lines(blocks));
    ReadBlocks(heading, blocks, false);
  }

  lemma ReadRendered(heading: string, i: Inputs)
    requires NewlineFree(i) && "### " <= heading
    ensures Read(heading, SplitLines(Render(i)), false) == ItemsUnder(heading, Blocks(i))
  {
    BlocksTidy(i);
    PreambleQuiet();
    ReadText(heading, Preamble(), Blocks(i));
  }

  lemma {:induction false} NoItemsUnderOthers(heading: string, blocks: seq<Block>)
    requires forall b | b in blocks :: b.title != heading
    ensures ItemsUnder(heading, blocks) == []
  {
    if blocks != [] { NoItemsUnderOthers(heading, blocks[1..]); }
  }

  function Pick(heading: string, title: string, paths: seq<string>): seq<string> { if title == heading then paths else [] }

  lemma ThenSection(heading: string, before: seq<Block>, title: string, paths: seq<string>)
    ensures ItemsUnder(heading, before + Section(title, paths, [""])) == ItemsUnder(heading, before) + Pick(heading, title, paths)
  {
    ItemsUnderConcat(heading, before, Section(title, paths, [""]));
    SectionItems(heading, title, paths, [""]);
  }

  /** Three lists and what follows them, after blocks under other headings. */
  lemma ThreeLists(heading: string, a: seq<Block>, t1: string, p1: seq<string>, t2: string, p2: seq<string>, t3: string, p3: seq<string>, e: seq<Block>)
    requires forall b | b in a :: b.title != heading
    ensures ItemsUnder(heading, a + Section(t1, p1, [""]) + Section(t2, p2, [""]) + Section(t3, p3, [""]) + e) ==
      [] + Pick(heading, t1, p1) + Pick(heading, t2, p2) + Pick(heading, t3, p3) + ItemsUnder(heading, e)
  {
    NoItemsUnderOthers(heading, a);
    ThenSection(heading, a, t1, p1);
    var b := a + Section(t1, p1, [""]);
    ThenSection(heading, b, t2, p2);
    var c := b + Section(t2, p2, [""]);
    ThenSection(heading, c, t3, p3);
    ItemsUnderConcat(heading, c + Section(t3, p3, [""]), e);
  }

  lemma TitlesDiffer()
    ensures "### Specs" != "### Page objects" && "### Specs" != "### Fixtures"
    ensures "### Added" !in {"### Specs", "### Page objects", "### Fixtures", "### Removed"}
    ensures "### Removed" !in {"### Specs", "### Page objects", "### Fixtures"}
  {
    assert "### Specs"[4] == 'S' && "### Added"[4] == 'A' && "### Removed"[4] == 'R' && "### Page objects"[4] == 'P' && "### Fixtures"[4] == 'F';
  }

  /** Everything a section's reader finds in the rendered text. */
  lemma SectionRead(heading: string, i: Inputs)
    requires NewlineFree(i) && "### " <= heading
    ensures Read(heading, SplitLines(Render(i)), false) ==
      [] + Pick(heading, "### Specs", SortBy(StrLe, i.specPaths)) + Pick(heading, "### Page objects", SortBy(StrLe, i.pageObjectPaths))
      + Pick(heading, "### Fixtures", SortBy(StrLe, i.fixturePaths)) + ItemsUnder(heading, Diff(i.priorSpecPaths, i.specPaths))
  {
    ReadRendered(heading, i);
    HeadTitles(heading, i);
    ThreeLists(heading, [Summary(i), Flows(i), Block("## Files", [""])], "### Specs", SortBy(StrLe, i.specPaths),
      "### Page objects", SortBy(StrLe, i.pageObjectPaths), "### Fixtures", SortBy(StrLe, i.fixturePaths),
      Diff(i.priorSpecPaths, i.specPaths));
  }

  lemma HeadTitles(heading: string, i: Inputs)
    requires "### " <= heading
    ensures forall b | b in [Summary(i), Flows(i), Block("## Files", [""])] :: b.title != heading
  {
    assert "### "[2] == '#' && "## Summary"[2] == ' ' && "## Flows"[2] == ' ' && "## Files"[2] == ' ';
  }

  /** The reader gives back exactly the sorted spec paths, past every other heading and list. */
  lemma RoundTrip(i: Inputs)
    requires NewlineFree(i)
    ensures Read("### Specs", SplitLines(Render(i)), false) == SortBy(StrLe, i.specPaths)
  {
    SectionRead("### Specs", i);
    TitlesDiffer();
    DiffRead("### Specs", i.priorSpecPaths, i.specPaths);
  }

  lemma DiffRead(heading: string, prior: seq<string>, current: seq<string>)
    requires heading == "### Specs" || ((heading == "### Added" || heading == "### Removed") && prior != [])
    ensures ItemsUnder(heading, Diff(prior, current)) ==
      if heading == "### Added" then SortBy(StrLe, Without(current, prior))
      else if heading == "### Removed" then SortBy(StrLe, Without(prior, current))
      else []
  {
    TitlesDiffer();
    assert "## Diff vs previous generation"[2] == ' ' && "### Specs"[2] == "### Added"[2] == "### Removed"[2] == '#';
    DiffItems(heading, SortBy(StrLe, Without(current, prior)), SortBy(StrLe, Without(prior, current)));
  }

  lemma ChangesRead(heading: string, i: Inputs)
    requires NewlineFree(i) && i.priorSpecPaths != [] && (heading == "### Added" || heading == "### Removed")
    ensures Read(heading, SplitLines(Render(i)), false) ==
      SortBy(StrLe, if heading == "### Added" then Without(i.specPaths, i.priorSpecPaths) else Without(i.priorSpecPaths, i.specPaths))
  {
    SectionRead(heading, i);
    TitlesDiffer();
    DiffRead(heading, i.priorSpecPaths, i.specPaths);
  }

  /** The diff section accounts for the change: previous specs, less those listed as removed, plus those
      listed as added, are the current specs. */
  lemma DiffAccounts(i: Inputs)
    requires NewlineFree(i) && i.priorSpecPaths != []
    ensures var added := Read("### Added", SplitLines(Render(i)), false);
      var removed := Read("### Removed", SplitLines(Render(i)), false);
      forall p :: p in i.specPaths <==> (p in i.priorSpecPaths && p !in removed) || p in added
  {
    ChangesRead("### Added", i);
    ChangesRead("### Removed", i);
    var a, r := Without(i.specPaths, i.priorSpecPaths), Without(i.priorSpecPaths, i.specPaths);
    forall p ensures (p in SortBy(StrLe, a) <==> p in a) && (p in SortBy(StrLe, r) <==> p in r) {
      SameElements(SortBy(StrLe, a), a, p);
      SameElements(SortBy(StrLe, r), r, p);
    }
  }

  // ----- the renderer -----

  lemma {:induction false} LinesConcat(a: seq<Block>, b: seq<Block>)
    ensures Lines(a + b) == Lines(a) + Lines(b)
  {
    if a == [] { assert a + b == b; } else {
      assert (a + b)[1..] == a[1..] + b;
      LinesConcat(a[1..], b);
    }
  }

  lemma OneBlock(b: Block)
    ensures Lines([b]) == [b.title] + b.body
  {
    assert [b][1..] == [];
  }

  lemma LinesOnTop(top: seq<string>, a: seq<Block>, b: seq<Block>)
    ensures top + Lines(a + b) == top + Lines(a) + Lines(b)
  {
    LinesConcat(a, b);
    Regroup(top, Lines(a), Lines(b));
  }

  lemma SevenPieces(top: seq<string>, a: Block, b: Block, c: Block, d: seq<Block>, e: seq<Block>, f: seq<Block>, g: seq<Block>)
    ensures top + Lines([a, b, c] + d + e + f + g)
         == top + Lines([a]) + Lines([b]) + Lines([c]) + Lines(d) + Lines(e) + Lines(f) + Lines(g)
  {
    LinesOnTop(top, [a, b, c] + d + e + f, g);
    LinesOnTop(top, [a, b, c] + d + e, f);
    LinesOnTop(top, [a, b, c] + d, e);
    LinesOnTop(top, [a, b, c], d);
    assert [a, b, c] == [a] + [b] + [c];
    LinesOnTop(top, [a] + [b], [c]);
    LinesOnTop(top, [a], [b]);
  }

  /** The bullets after `i` of a list, on top of the lines so far. */
  function AddBullets(lines: seq<string>, paths: seq<string>, i: nat): seq<string>
    requires i <= |paths|
    decreases |paths| - i
  {
    if i == |paths| then lines else AddBullets(lines + [Bullet(paths[i])], paths, i + 1)
  }

  lemma {:induction false} AddBulletsAppends(lines: seq<string>, paths: seq<string>, i: nat)
    requires i <= |paths|
    ensures AddBullets(lines, paths, i) == lines + Bullets(paths[i..])
    decreases |paths| - i
  {
    if i < |paths| {
      assert paths[i..][1..] == paths[i + 1..];
      AddBulletsAppends(lines + [Bullet(paths[i])], paths, i + 1);
    }
  }

  method AppendSection(lines: seq<string>, title: string, paths: seq<string>, blanks: seq<string>) returns (more: seq<string>)
    ensures more == lines + Lines(Section(title, paths, blanks))
  {
    more := lines;
    if paths == [] { return; }
    more := more + [title, ""];
    ghost var start := more;
    AddBulletsAppends(start, paths, 0);
    var i := 0;
    while i < |paths|
      invariant 0 <= i <= |paths|
      invariant AddBullets(more, paths, i) == AddBullets(start, paths, 0)
    {
      more := more + [Bullet(paths[i])];
      i := i + 1;
    }
    more := more + blanks;
    assert paths[0..] == paths;
    OneBlock(Block(title, [""] + Bullets(paths) + blanks));
  }

  function AddRows(lines: seq<string>, flows: seq<Flow>, i: nat): seq<string>
    requires i <= |flows|
    decreases |flows| - i
  {
    if i == |flows| then lines else AddRows(lines + [FlowRow(flows[i])], flows, i + 1)
  }

  lemma {:induction false} AddRowsAppends(lines: seq<string>, flows: seq<Flow>, i: nat)
    requires i <= |flows|
    ensures AddRows(lines, flows, i) == lines + FlowRows(flows[i..])
    decreases |flows| - i
  {
    if i < |flows| {
      assert flows[i..][1..] == flows[i + 1..];
      AddRowsAppends(lines + [FlowRow(flows[i])], flows, i + 1);
    }
  }

  method AppendRows(lines: seq<string>, flows: seq<Flow>) returns (more: seq<string>)
    ensures more == lines + FlowRows(flows)
  {
    more := lines;
    AddRowsAppends(lines, flows, 0);
    assert flows[0..] == flows;
    var i := 0;
    while i < |flows|
      invariant 0 <= i <= |flows|
      invariant AddRows(more, flows, i) == AddRows(lines, flows, 0)
    {
      more := more + [FlowRow(flows[i])];
      i := i + 1;
    }
  }

  method AppendFlows(lines: seq<string>, i: Inputs) returns (more: seq<string>)
    ensures more == lines + Lines([Flows(i)])
  {
    more := lines + ["## Flows", ""];
    if i.flows == [] {
      more := more + ["_No flows in the plan._"];
    } else {
      more := more + [TableHead(), "|---|---|---:|---|---|"];
      more := AppendRows(more, SortBy(FlowLe, i.flows));
    }
    more := more + [""];
    OneBlock(Flows(i));
  }

  lemma DiffPieces(top: seq<string>, head: seq<Block>, added: seq<Block>, removed: seq<Block>)
    ensures top + Lines(head + (added + removed)) == top + Lines(head) + Lines(added) + Lines(removed)
  {
    LinesOnTop(top, head, added + removed);
    LinesOnTop(top + Lines(head), added, removed);
  }

  method AppendDiffHead(lines: seq<string>, changed: bool) returns (more: seq<string>)
    ensures more == lines + Lines(DiffHead(changed))
  {
    more := lines + ["## Diff vs previous generation", ""];
    if !changed { more := more + ["_No changes vs previous generation._", ""]; }
    OneBlock(DiffHead(changed)[0]);
  }

  method AppendDiff(lines: seq<string>, added: seq<string>, removed: seq<string>) returns (more: seq<string>)
    ensures more == lines + Lines(DiffBlocks(added, removed))
  {
    ghost var head := DiffHead(added != [] || removed != []);
    var blanks := if removed == [] then ["", ""] else [""];
    more := AppendDiffHead(lines, added != [] || removed != []);
    more := AppendSection(more, "### Added", added, blanks);
    more := AppendSection(more, "### Removed", removed, [""]);
    DiffPieces(lines, head, Section("### Added", added, blanks), Section("### Removed", removed, [""]));
  }

  method AppendFiles(lines: seq<string>, specs: seq<string>, pages: seq<string>, fixtures: seq<string>, diff: bool, added: seq<string>, removed: seq<string>)
    returns (more: seq<string>)
    ensures more == lines + Lines(Section("### Specs", specs, [""])) + Lines(Section("### Page objects", pages, [""]))
      + Lines(Section("### Fixtures", fixtures, [""])) + Lines(if diff then DiffBlocks(added, removed) else [])
  {
    more := AppendSection(lines, "### Specs", specs, [""]);
    more := AppendSection(more, "### Page objects", pages, [""]);
    more := AppendSection(more, "### Fixtures", fixtures, [""]);
    if diff {
      more := AppendDiff(more, added, removed);
    } else {
      assert more + [] == more;
    }
  }

  method AppendSummary(lines: seq<string>, i: Inputs) returns (more: seq<string>)
    ensures more == lines + Lines([Summary(i)])
  {
    more := lines + ["## Summary"];
    more := more + [""];
    more := more + [Labelled("- Plan ID: `", i.planId, "`")];
    more := more + [Labelled("- Run ID: `", i.runId, "`")];
    more := more + [Labelled("- Target: `", i.targetUrl, "`")];
    more := more + [Labelled("- Specs generated: **", Naming.Decimal(|i.specPaths|), "**")];
    more := more + [Labelled("- Page objects " + "generated: **", Naming.Decimal(|i.pageObjectPaths|), "**")];
    more := more + [Labelled("- Fixtures generated: **", Naming.Decimal(|i.fixturePaths|), "**")];
    more := more + [Labelled("- Brittleness audit " + "warnings: **", Naming.Decimal(i.auditWarnings), "**")];
    more := more + [""];
    OneBlock(Summary(i));
  }

  method AppendTop(top: seq<string>, i: Inputs) returns (lines: seq<string>)
    ensures lines == top + Lines([Summary(i)]) + Lines([Flows(i)]) + Lines([Block("## Files", [""])])
  {
    lines := AppendSummary(top, i);
    lines := AppendFlows(lines, i);
    OneBlock(Block("## Files", [""]));
    lines := lines + ["## Files", ""];
  }

  method RenderGeneratedPlanMd(i: Inputs) returns (text: string)
    ensures text == Render(i)
  {
    var lines := AppendTop(Preamble(), i);
    lines := AppendFiles(lines, SortBy(StrLe, i.specPaths), SortBy(StrLe, i.pageObjectPaths), SortBy(StrLe, i.fixturePaths),
      i.priorSpecPaths != [], SortBy(StrLe, Without(i.specPaths, i.priorSpecPaths)), SortBy(StrLe, Without(i.priorSpecPaths, i.specPaths)));
    DocumentPieces(i);
    text := RStrip(JoinLines(lines)) + "\n";
  }

  lemma DocumentPieces(i: Inputs)
    ensures Document(i) ==
      Preamble() + Lines([Summary(i)]) + Lines([Flows(i)]) + Lines([Block("## Files", [""])])
      + Lines(Section("### Specs", SortBy(StrLe, i.specPaths), [""]))
      + Lines(Section("### Page objects", SortBy(StrLe, i.pageObjectPaths), [""]))
      + Lines(Section("### Fixtures", SortBy(StrLe, i.fixturePaths), [""])) + Lines(Diff(i.priorSpecPaths, i.specPaths))
  {
    SevenPieces(Preamble(), Summary(i), Flows(i), Block("## Files", [""]), PathList("### Specs", i.specPaths),
      PathList("### Page objects", i.pageObjectPaths), PathList("### Fixtures", i.fixturePaths), Diff(i.priorSpecPaths, i.specPaths));
  }
}
