/** The Markdown summary of engine/generator/plan_md.py as blocks of lines, and the proof
    that every line of it is tidy.  Paths are in posix form. */
module PlanDocument {
  import opened Sorting
  import opened Text
  import Naming

  /** `confidence` is the number already formatted to two places. */
  datatype Flow = Flow(id: string, priority: string, source: string, confidence: string, extractor: string, name: string)

  datatype Inputs = Inputs(
    planId: string, runId: string, targetUrl: string, flows: seq<Flow>, specPaths: seq<string>,
    pageObjectPaths: seq<string>, fixturePaths: seq<string>, auditWarnings: nat, priorSpecPaths: seq<string>)

  // ----- the document as blocks of lines -----

  /** A heading and the lines up to the next one. */
  datatype Block = Block(title: string, body: seq<string>)

  function Lines(blocks: seq<Block>): seq<string> {
    if blocks == [] then [] else [blocks[0].title] + blocks[0].body + Lines(blocks[1..])
  }

  function Bullet(path: string): string { "- `" + path + "`" }

  function Bullets(paths: seq<string>): seq<string> {
    if paths == [] then [] else [Bullet(paths[0])] + Bullets(paths[1..])
  }

  predicate FlowLe(a: Flow, b: Flow) { PathLe([a.priority, a.name, a.id], [b.priority, b.name, b.id]) }

  function FlowCells(f: Flow): string {
    f.priority + " | " + f.source + " | " + f.confidence + " | `" + (if f.extractor == "" then "-" else f.extractor) + "` | " + f.name
  }

  function FlowRow(f: Flow): string { Labelled("| ", FlowCells(f), " |") }

  function FlowRows(flows: seq<Flow>): seq<string> {
    if flows == [] then [] else [FlowRow(flows[0])] + FlowRows(flows[1..])
  }

  function Preamble(): seq<string> {
    ["<!-- SentinelQA Generated \U{2014} " + "do not edit by hand. -->",
     "<!-- Re-run `sentinel generate` " + "to regenerate; manual edits " + "will be overwritten. -->",
     "", "# SentinelQA \U{2014} " + "generated plan", ""]
  }

  function Labelled(tag: string, x: string, close: string): string { tag + x + close }

  function Summary(i: Inputs): Block {
    Block("## Summary", [
      "",
      Labelled("- Plan ID: `", i.planId, "`"),
      Labelled("- Run ID: `", i.runId, "`"),
      Labelled("- Target: `", i.targetUrl, "`"),
      Labelled("- Specs generated: **", Naming.Decimal(|i.specPaths|), "**"),
      Labelled("- Page objects " + "generated: **", Naming.Decimal(|i.pageObjectPaths|), "**"),
      Labelled("- Fixtures generated: **", Naming.Decimal(|i.fixturePaths|), "**"),
      Labelled("- Brittleness audit " + "warnings: **", Naming.Decimal(i.auditWarnings), "**"),
      ""])
  }

  function TableHead(): string { "| Priority | Source | Confidence " + "| Extractor | Name |" }

  function Flows(i: Inputs): Block {
    Block("## Flows",
      [""] + (if i.flows == [] then ["_No flows in the plan._"]
              else [TableHead(), "|---|---|---:|---|---|"] + FlowRows(SortBy(FlowLe, i.flows)))
      + [""])
  }

  function Section(title: string, paths: seq<string>, blanks: seq<string>): seq<Block> {
    if paths == [] then [] else [Block(title, [""] + Bullets(paths) + blanks)]
  }

  function PathList(title: string, paths: seq<string>): seq<Block> { Section(title, SortBy(StrLe, paths), [""]) }

  /** The elements of `a` that are not in `b`, each once, in some order. */
  function Without(a: seq<string>, b: seq<string>): (r: seq<string>)
    ensures forall x :: x in r <==> x in a && x !in b
  {
    if a == [] then [] else (if a[0] in b || a[0] in a[1..] then [] else [a[0]]) + Without(a[1..], b)
  }

  function DiffHead(changed: bool): seq<Block> {
    [Block("## Diff vs previous generation", if changed then [""] else ["", "_No changes vs previous generation._", ""])]
  }

  function DiffBlocks(added: seq<string>, removed: seq<string>): seq<Block> {
    DiffHead(added != [] || removed != [])
    + (Section("### Added", added, if removed == [] then ["", ""] else [""]) + Section("### Removed", removed, [""]))
  }

  function Diff(prior: seq<string>, current: seq<string>): seq<Block> {
    if prior == [] then []
    else DiffBlocks(SortBy(StrLe, Without(current, prior)), SortBy(StrLe, Without(prior, current)))
  }

  function Blocks(i: Inputs): seq<Block> {
    [Summary(i), Flows(i), Block("## Files", [""])]
    + PathList("### Specs", i.specPaths) + PathList("### Page objects", i.pageObjectPaths)
    + PathList("### Fixtures", i.fixturePaths) + Diff(i.priorSpecPaths, i.specPaths)
  }

  function Document(i: Inputs): seq<string> { Preamble() + Lines(Blocks(i)) }

  function Render(i: Inputs): string { RStrip(JoinLines(Document(i))) + "\n" }

  // ----- every line is tidy -----

  /** One line, with no blank at either end, so that stripping leaves it alone. */
  ghost predicate Tidy(line: string) {
    OneLine(line) && (line == "" || (!IsSpace(line[0]) && !IsSpace(line[|line| - 1])))
  }

  ghost predicate BodyLine(l: string) { Tidy(l) && (l == "" || l[0] != '#') }

  ghost predicate PlainBody(body: seq<string>) { forall l | l in body :: BodyLine(l) }

  ghost predicate TidyBlock(b: Block) {
    Tidy(b.title) && ("## " <= b.title || "### " <= b.title) && PlainBody(b.body)
  }

  ghost predicate TidyBlocks(blocks: seq<Block>) { forall b | b in blocks :: TidyBlock(b) }

  ghost predicate OpensSection(line: string) { "### " <= line }

  ghost predicate OneLines(s: seq<string>) { forall x | x in s :: OneLine(x) }

  /** No field brings a line break of its own. */
  ghost predicate NewlineFree(i: Inputs) {
    && OneLine(i.planId) && OneLine(i.runId) && OneLine(i.targetUrl)
    && OneLines(i.specPaths) && OneLines(i.pageObjectPaths) && OneLines(i.fixturePaths) && OneLines(i.priorSpecPaths)
    && forall f | f in i.flows :: FlowClean(f)
  }

  lemma Wrapped(tag: string, x: string, close: string)
    requires OneLine(tag) && OneLine(x) && OneLine(close) && tag != "" && close != ""
    requires !IsSpace(tag[0]) && tag[0] != '#' && !IsSpace(close[|close| - 1])
    ensures BodyLine(Labelled(tag, x, close))
  {}

  lemma OneLineConcat(a: string, b: string)
    requires OneLine(a) && OneLine(b)
    ensures OneLine(a + b)
  {}

  lemma PlainConcat(a: seq<string>, b: seq<string>)
    requires PlainBody(a) && PlainBody(b)
    ensures PlainBody(a + b)
  {}

  lemma PlainThree(a: string, b: string, c: string)
    requires BodyLine(a) && BodyLine(b) && BodyLine(c)
    ensures PlainBody([a, b, c])
  {}

  lemma PlainNine(a: string, b: string, c: string, d: string, e: string, f: string, g: string, h: string, i: string)
    requires BodyLine(a) && BodyLine(b) && BodyLine(c) && BodyLine(d) && BodyLine(e) && BodyLine(f)
    requires BodyLine(g) && BodyLine(h) && BodyLine(i)
    ensures PlainBody([a, b, c, d, e, f, g, h, i])
  {
    PlainThree(a, b, c);
    PlainThree(d, e, f);
    PlainThree(g, h, i);
    PlainConcat([a, b, c], [d, e, f]);
    PlainConcat([a, b, c] + [d, e, f], [g, h, i]);
    assert [a, b, c, d, e, f, g, h, i] == [a, b, c] + [d, e, f] + [g, h, i];
  }

  /** The front of a line of the summary. */
  ghost predicate Tag(s: string) { OneLine(s) && s != "" && !IsSpace(s[0]) && s[0] != '#' }

  lemma TagConcat(a: string, b: string)
    requires Tag(a) && OneLine(b)
    ensures Tag(a + b)
  {}

  lemma NameTags()
    ensures Tag("- Plan ID: `") && Tag("- Run ID: `") && Tag("- Target: `")
  {}

  lemma SpecTag()
    ensures Tag("- Specs generated: **")
  {}

  lemma PageObjectTag()
    ensures Tag("- Page objects " + "generated: **")
  {
    TagConcat("- Page objects ", "generated: **");
  }

  lemma FixtureTag()
    ensures Tag("- Fixtures generated: **")
  {}

  lemma WarningTag()
    ensures Tag("- Brittleness audit " + "warnings: **")
  {
    TagConcat("- Brittleness audit ", "warnings: **");
  }

  lemma NameTidy(tag: string, name: string)
    requires Tag(tag) && OneLine(name)
    ensures BodyLine(Labelled(tag, name, "`"))
  {
    Wrapped(tag, name, "`");
  }

  lemma CountTidy(tag: string, n: nat)
    requires Tag(tag)
    ensures BodyLine(Labelled(tag, Naming.Decimal(n), "**"))
  {
    Wrapped(tag, Naming.Decimal(n), "**");
  }

  lemma SummaryTitleTidy()
    ensures Tidy("## Summary") && "## " <= "## Summary"
  {}

  /** Seven lines between two blank ones. */
  lemma SummaryBlockTidy(title: string, a: string, b: string, c: string, d: string, e: string, f: string, g: string)
    requires Tidy(title) && "## " <= title
    requires BodyLine(a) && BodyLine(b) && BodyLine(c) && BodyLine(d) && BodyLine(e) && BodyLine(f) && BodyLine(g)
    ensures TidyBlock(Block(title, ["", a, b, c, d, e, f, g, ""]))
  {
    PlainNine("", a, b, c, d, e, f, g, "");
  }

  lemma SummaryTidy(i: Inputs)
    requires NewlineFree(i)
    ensures TidyBlock(Summary(i))
  {
    NameTags();
    NameTidy("- Plan ID: `", i.planId);
    NameTidy("- Run ID: `", i.runId);
    NameTidy("- Target: `", i.targetUrl);
    SpecTag();
    CountTidy("- Specs generated: **", |i.specPaths|);
    PageObjectTag();
    CountTidy("- Page objects " + "generated: **", |i.pageObjectPaths|);
    FixtureTag();
    CountTidy("- Fixtures generated: **", |i.fixturePaths|);
    WarningTag();
    CountTidy("- Brittleness audit " + "warnings: **", i.auditWarnings);
    SummaryTitleTidy();
    SummaryBlockTidy("## Summary", Labelled("- Plan ID: `", i.planId, "`"), Labelled("- Run ID: `", i.runId, "`"), Labelled("- Target: `", i.targetUrl, "`"),
      Labelled("- Specs generated: **", Naming.Decimal(|i.specPaths|), "**"), Labelled("- Page objects " + "generated: **", Naming.Decimal(|i.pageObjectPaths|), "**"),
      Labelled("- Fixtures generated: **", Naming.Decimal(|i.fixturePaths|), "**"), Labelled("- Brittleness audit " + "warnings: **", Naming.Decimal(i.auditWarnings), "**"));
  }

  ghost predicate FlowClean(f: Flow) {
    OneLine(f.priority) && OneLine(f.source) && OneLine(f.confidence) && OneLine(f.extractor) && OneLine(f.name)
  }

  lemma JoinedTo(a: string, sep: string, b: string) returns (s: string)
    requires OneLine(a) && OneLine(sep) && OneLine(b)
    ensures s == a + sep + b && OneLine(s)
  {
    s := a + sep + b;
  }

  lemma CellsOneLine(f: Flow)
    requires FlowClean(f)
    ensures OneLine(FlowCells(f))
  {
    var extractor := if f.extractor == "" then "-" else f.extractor;
    var a := JoinedTo(f.priority, " | ", f.source);
    var b := JoinedTo(a, " | ", f.confidence);
    var c := JoinedTo(b, " | `", extractor);
    var d := JoinedTo(c, "` | ", f.name);
  }

  lemma RowTidy(f: Flow)
    requires FlowClean(f)
    ensures BodyLine(FlowRow(f))
  {
    CellsOneLine(f);
    Wrapped("| ", FlowCells(f), " |");
  }

  lemma {:induction false} RowsTidy(flows: seq<Flow>)
    requires forall f | f in flows :: FlowClean(f)
    ensures PlainBody(FlowRows(flows))
  {
    if flows != [] {
      RowTidy(flows[0]);
      RowsTidy(flows[1..]);
      PlainConcat([FlowRow(flows[0])], FlowRows(flows[1..]));
    }
  }

  lemma HeadFrontTidy()
    ensures OneLine("| Priority | Source | Confidence ")
  {}

  lemma HeadBackTidy()
    ensures OneLine("| Extractor | Name |")
  {}

  lemma TableHeadTidy()
    ensures BodyLine(TableHead())
  {
    HeadFrontTidy();
    HeadBackTidy();
    OneLineConcat("| Priority | Source | Confidence ", "| Extractor | Name |");
  }

  lemma RuleTidy()
    ensures BodyLine("|---|---|---:|---|---|")
  {}

  lemma NoFlowsTidy()
    ensures BodyLine("_No flows in the plan._")
  {}

  lemma PlainTwo(a: string, b: string)
    requires BodyLine(a) && BodyLine(b)
    ensures PlainBody([a]) && PlainBody([a, b])
  {}

  /** A table body between two blank lines, or one line instead. */
  lemma TableBody(head: string, rule: string, rows: seq<string>, instead: string, empty: bool)
    requires BodyLine(head) && BodyLine(rule) && BodyLine(instead) && PlainBody(rows)
    ensures PlainBody([""] + (if empty then [instead] else [head, rule] + rows) + [""])
  {
    PlainTwo(head, rule);
    PlainTwo(instead, "");
    PlainTwo("", "");
    PlainConcat([head, rule], rows);
    var middle := if empty then [instead] else [head, rule] + rows;
    PlainConcat([""], middle);
    PlainConcat([""] + middle, [""]);
  }

  lemma SortedRowsTidy(i: Inputs)
    requires NewlineFree(i)
    ensures PlainBody(FlowRows(SortBy(FlowLe, i.flows)))
  {
    var sorted := SortBy(FlowLe, i.flows);
    forall f | f in sorted ensures FlowClean(f) { SameElements(sorted, i.flows, f); }
    RowsTidy(sorted);
  }

  lemma FlowsTitleTidy()
    ensures Tidy("## Flows") && "## " <= "## Flows"
  {}

  lemma FlowsTidy(i: Inputs)
    requires NewlineFree(i)
    ensures TidyBlock(Flows(i))
  {
    SortedRowsTidy(i);
    TableHeadTidy();
    RuleTidy();
    NoFlowsTidy();
    TableBody(TableHead(), "|---|---|---:|---|---|", FlowRows(SortBy(FlowLe, i.flows)), "_No flows in the plan._", i.flows == []);
    FlowsTitleTidy();
  }

  lemma {:induction false} BulletsTidy(paths: seq<string>)
    requires OneLines(paths)
    ensures PlainBody(Bullets(paths))
  {
    if paths != [] {
      Wrapped("- `", paths[0], "`");
      BulletsTidy(paths[1..]);
      PlainConcat([Bullet(paths[0])], Bullets(paths[1..]));
    }
  }

  lemma SectionTidy(title: string, paths: seq<string>, blanks: seq<string>)
    requires OneLines(paths) && Tidy(title) && "### " <= title && (blanks == [""] || blanks == ["", ""])
    ensures TidyBlocks(Section(title, paths, blanks))
  {
    BulletsTidy(paths);
    PlainConcat([""], Bullets(paths));
    PlainConcat([""] + Bullets(paths), blanks);
  }

  lemma SortedOneLines(paths: seq<string>)
    requires OneLines(paths)
    ensures OneLines(SortBy(StrLe, paths))
  {
    forall x | x in SortBy(StrLe, paths) ensures OneLine(x) { SameElements(SortBy(StrLe, paths), paths, x); }
  }

  lemma NoChangesTidy()
    ensures BodyLine("_No changes vs previous generation._")
  {}

  lemma DiffTitleTidy()
    ensures Tidy("## Diff vs previous generation")
  {}

  lemma DiffHeadTidy(changed: bool)
    ensures TidyBlocks(DiffHead(changed))
  {
    DiffTitleTidy();
    NoChangesTidy();
    PlainThree("", "_No changes vs previous generation._", "");
  }

  lemma DiffTidy(added: seq<string>, removed: seq<string>)
    requires OneLines(added) && OneLines(removed)
    ensures TidyBlocks(DiffBlocks(added, removed))
  {
    DiffHeadTidy(added != [] || removed != []);
    assert Tidy("### Added") && Tidy("### Removed");
    SectionTidy("### Added", added, if removed == [] then ["", ""] else [""]);
    SectionTidy("### Removed", removed, [""]);
  }

  lemma ListTidy(title: string, paths: seq<string>)
    requires OneLines(paths) && Tidy(title) && "### " <= title
    ensures TidyBlocks(PathList(title, paths))
  {
    SortedOneLines(paths);
    SectionTidy(title, SortBy(StrLe, paths), [""]);
  }

  lemma FilesTidy()
    ensures Tidy("## Files")
  {}

  lemma TitlesTidy()
    ensures Tidy("### Specs") && Tidy("### Page objects") && Tidy("### Fixtures")
  {}

  lemma TidyConcat(a: seq<Block>, b: seq<Block>)
    requires TidyBlocks(a) && TidyBlocks(b)
    ensures TidyBlocks(a + b)
  {}

  lemma HeadBlocksTidy(i: Inputs)
    requires NewlineFree(i)
    ensures TidyBlocks([Summary(i), Flows(i), Block("## Files", [""])])
  {
    SummaryTidy(i);
    FlowsTidy(i);
    FilesTidy();
    PlainTwo("", "");
  }

  lemma DiffBlocksTidy(i: Inputs)
    requires NewlineFree(i)
    ensures TidyBlocks(Diff(i.priorSpecPaths, i.specPaths))
  {
    SortedOneLines(Without(i.specPaths, i.priorSpecPaths));
    SortedOneLines(Without(i.priorSpecPaths, i.specPaths));
    if i.priorSpecPaths != [] {
      DiffTidy(SortBy(StrLe, Without(i.specPaths, i.priorSpecPaths)), SortBy(StrLe, Without(i.priorSpecPaths, i.specPaths)));
    }
  }

  lemma BlocksTidy(i: Inputs)
    requires NewlineFree(i)
    ensures TidyBlocks(Blocks(i))
  {
    HeadBlocksTidy(i);
    TitlesTidy();
    ListTidy("### Specs", i.specPaths);
    ListTidy("### Page objects", i.pageObjectPaths);
    ListTidy("### Fixtures", i.fixturePaths);
    DiffBlocksTidy(i);
    var a := [Summary(i), Flows(i), Block("## Files", [""])];
    var b, c, d := PathList("### Specs", i.specPaths), PathList("### Page objects", i.pageObjectPaths), PathList("### Fixtures", i.fixturePaths);
    TidyConcat(a, b);
    TidyConcat(a + b, c);
    TidyConcat(a + b + c, d);
    TidyConcat(a + b + c + d, Diff(i.priorSpecPaths, i.specPaths));
  }

  lemma BannerFront()
    ensures Tag("<!-- SentinelQA Generated \U{2014} ")
  {}

  lemma BannerBack()
    ensures OneLine("do not edit by hand. -->")
  {}

  lemma BannerTidy()
    ensures BodyLine("<!-- SentinelQA Generated \U{2014} " + "do not edit by hand. -->")
  {
    BannerFront();
    BannerBack();
    TagConcat("<!-- SentinelQA Generated \U{2014} ", "do not edit by hand. -->");
  }

  lemma NoticeTidy()
    ensures BodyLine("<!-- Re-run `sentinel generate` " + "to regenerate; manual edits " + "will be overwritten. -->")
  {
    NoticeFront();
    OneLineConcat("<!-- Re-run `sentinel generate` " + "to regenerate; manual edits ", "will be overwritten. -->");
  }

  lemma NoticeFront()
    ensures OneLine("<!-- Re-run `sentinel generate` " + "to regenerate; manual edits ")
  {
    OneLineConcat("<!-- Re-run `sentinel generate` ", "to regenerate; manual edits ");
  }

  lemma TopTitleTidy()
    ensures Tidy("# SentinelQA \U{2014} " + "generated plan")
  {
    OneLineConcat("# SentinelQA \U{2014} ", "generated plan");
  }

  ghost predicate TidyLines(lines: seq<string>) { forall l | l in lines :: Tidy(l) }

  /** Lines before the first heading: tidy, and none opens a section. */
  ghost predicate Quiet(lines: seq<string>) {
    TidyLines(lines) && lines != [] && lines[0] != "" && forall l | l in lines :: !OpensSection(l)
  }

  lemma QuietFive(a: string, b: string, c: string, d: string, e: string)
    requires Tidy(a) && Tidy(b) && Tidy(c) && Tidy(d) && Tidy(e) && a != ""
    requires !("### " <= a) && !("### " <= b) && !("### " <= c) && !("### " <= d) && !("### " <= e)
    ensures Quiet([a, b, c, d, e])
  {
    var l := [a, b, c, d, e];
    forall x | x in l ensures Tidy(x) && !OpensSection(x) {
      assert x == a || x == b || x == c || x == d || x == e;
    }
  }

  lemma BannerQuiet()
    ensures !("### " <= "<!-- SentinelQA Generated \U{2014} " + "do not edit by hand. -->")
    ensures !("### " <= "<!-- Re-run `sentinel generate` " + "to regenerate; manual edits " + "will be overwritten. -->")
    ensures !("### " <= "# SentinelQA \U{2014} " + "generated plan")
  {
    assert "### "[0] == '#' && "### "[1] == '#';
  }

  lemma PreambleQuiet()
    ensures Quiet(Preamble())
  {
    BannerTidy();
    NoticeTidy();
    TopTitleTidy();
    BannerQuiet();
    QuietFive("<!-- SentinelQA Generated \U{2014} " + "do not edit by hand. -->",
      "<!-- Re-run `sentinel generate` " + "to regenerate; manual edits " + "will be overwritten. -->",
      "", "# SentinelQA \U{2014} " + "generated plan", "");
  }
}
