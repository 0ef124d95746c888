/** What the Markdown summary says besides its file lists (engine/generator/plan_md.py:37-72): the counts at its head and
    the table of flows, as they are read back from the text. */
module PlanTable {
  import opened Sorting
  import opened Text
  import opened PlanDocument
  import opened PlanMarkdown
  import Naming

  // ----- the lines of the text -----

  /** The lines of the text are those of the document, but for blank ones at its end. */
  lemma RenderedLines(i: Inputs) returns (blanks: nat)
    requires NewlineFree(i)
    ensures Document(i) == SplitLines(Render(i)) + seq(blanks, _ => "")
  {
    BlocksTidy(i);
    PreambleQuiet();
    LinesTidy(Blocks(i));
    var lines := Document(i);
    assert lines[0] == Preamble()[0];
    forall l | l in lines ensures Tidy(l) {}
    var core;
    core, blanks := TrimBlanks(lines);
    forall l | l in core ensures Tidy(l) { assert l in core + seq(blanks, _ => ""); }
    assert core[|core| - 1] in core;
    RStripBlankLines(core, blanks);
    SplitJoined(core);
  }

  /** Behind a line that is not blank the text has everything before it. */
  lemma LineRead(i: Inputs, before: seq<string>, line: string, after: seq<string>)
    requires NewlineFree(i) && Document(i) == before + [line] + after && line != ""
    ensures before + [line] <= SplitLines(Render(i))
  {
    var blanks := RenderedLines(i);
    var text := SplitLines(Render(i));
    assert Document(i)[|before|] == line;
    assert Document(i) == text + seq(blanks, _ => "");
    assert (before + [line] + after)[..|before| + 1] == before + [line];
  }

  /** What follows the file lists' heading, which is never blank. */
  lemma TopIsRead(i: Inputs)
    requires NewlineFree(i)
    ensures Preamble() + Lines([Summary(i)]) + Lines([Flows(i)]) + ["## Files"] <= SplitLines(Render(i))
  {
    DocumentPieces(i);
    OneBlock(Block("## Files", [""]));
    var before := Preamble() + Lines([Summary(i)]) + Lines([Flows(i)]);
    var specs := Lines(Section("### Specs", SortBy(StrLe, i.specPaths), [""]));
    var pages := Lines(Section("### Page objects", SortBy(StrLe, i.pageObjectPaths), [""]));
    var fixtures := Lines(Section("### Fixtures", SortBy(StrLe, i.fixturePaths), [""]));
    var diff := Lines(Diff(i.priorSpecPaths, i.specPaths));
    Rearranged(before, "## Files", "", specs, pages, fixtures, diff);
    LineRead(i, before, "## Files", [""] + specs + pages + fixtures + diff);
  }

  lemma Rearranged(before: seq<string>, x: string, y: string, a: seq<string>, b: seq<string>, c: seq<string>, d: seq<string>)
    ensures before + ([x] + [y]) + a + b + c + d == before + [x] + ([y] + a + b + c + d)
  {}

  // ----- the counts -----

  ghost predicate CountsTold(text: seq<string>, at: nat, i: Inputs) {
    && at + 8 < |text| && text[at] == "## Summary"
    && text[at + 2] == "- Plan ID: `" + i.planId + "`" && text[at + 3] == "- Run ID: `" + i.runId + "`"
    && text[at + 4] == "- Target: `" + i.targetUrl + "`"
    && text[at + 5] == "- Specs generated: **" + Naming.Decimal(|i.specPaths|) + "**"
    && text[at + 6] == PAGE_OBJECTS + Naming.Decimal(|i.pageObjectPaths|) + "**"
    && text[at + 7] == "- Fixtures generated: **" + Naming.Decimal(|i.fixturePaths|) + "**"
    && text[at + 8] == WARNINGS + Naming.Decimal(i.auditWarnings) + "**"
  }

  const PAGE_OBJECTS := "- Page objects " + "generated: **"
  const WARNINGS := "- Brittleness audit " + "warnings: **"

  /** A section stands in the text as it stands in the document. */
  ghost predicate SectionAt(text: seq<string>, at: nat, title: string, body: seq<string>) {
    at + 1 + |body| <= |text| && text[at] == title && forall k | 0 <= k < |body| :: text[at + 1 + k] == body[k]
  }

  lemma SectionPlaced(before: seq<string>, title: string, body: seq<string>, after: seq<string>, text: seq<string>)
    requires before + ([title] + body) + after <= text
    ensures SectionAt(text, |before|, title, body)
  {
    var all := before + ([title] + body) + after;
    assert all[|before|] == title;
    forall k | 0 <= k < |body| ensures text[|before| + 1 + k] == body[k] { assert all[|before| + 1 + k] == ([title] + body)[1 + k]; }
  }

  lemma SummaryPlaced(i: Inputs)
    requires NewlineFree(i)
    ensures SectionAt(SplitLines(Render(i)), |Preamble()|, "## Summary", Summary(i).body)
  {
    TopIsRead(i);
    OneBlock(Summary(i));
    Regroup(Preamble() + (["## Summary"] + Summary(i).body), Lines([Flows(i)]), ["## Files"]);
    SectionPlaced(Preamble(), "## Summary", Summary(i).body, Lines([Flows(i)]) + ["## Files"], SplitLines(Render(i)));
  }

  /** The head of the text names the plan, the run and the target, and counts what was generated. */
  lemma SummaryRead(i: Inputs) returns (at: nat)
    requires NewlineFree(i)
    ensures CountsTold(SplitLines(Render(i)), at, i)
  {
    at := |Preamble()|;
    SummaryPlaced(i);
    SummaryLines(SplitLines(Render(i)), at, i, Summary(i).body);
  }

  lemma SummaryLines(text: seq<string>, at: nat, i: Inputs, body: seq<string>)
    requires body == Summary(i).body && SectionAt(text, at, "## Summary", body)
    ensures CountsTold(text, at, i)
  {
    assert text[at + 1 + 1] == body[1] && text[at + 1 + 2] == body[2] && text[at + 1 + 3] == body[3] && text[at + 1 + 4] == body[4];
    assert text[at + 1 + 5] == body[5] && text[at + 1 + 6] == body[6] && text[at + 1 + 7] == body[7];
  }

  // ----- the note of no change -----

  const NO_CHANGES := "_No changes vs previous generation._"

  lemma NothingWithout(a: seq<string>, b: seq<string>)
    requires forall x | x in a :: x in b
    ensures SortBy(StrLe, Without(a, b)) == []
  {
    if Without(a, b) != [] { assert Without(a, b)[0] in Without(a, b); }
  }

  lemma UnchangedBlocks()
    ensures Lines(DiffBlocks([], [])) == ["## Diff vs previous generation", ""] + [NO_CHANGES] + [""]
  {
    assert DiffBlocks([], []) == [DiffHead(false)[0]];
    OneBlock(DiffHead(false)[0]);
  }

  /** When the specs are those of the previous generation, the text says so. */
  lemma NoChangesRead(i: Inputs)
    requires NewlineFree(i) && i.priorSpecPaths != [] && forall p :: p in i.specPaths <==> p in i.priorSpecPaths
    ensures NO_CHANGES in SplitLines(Render(i))
  {
    NothingWithout(i.specPaths, i.priorSpecPaths);
    NothingWithout(i.priorSpecPaths, i.specPaths);
    UnchangedBlocks();
    DocumentPieces(i);
    var front := Preamble() + Lines([Summary(i)]) + Lines([Flows(i)]) + Lines([Block("## Files", [""])])
      + Lines(Section("### Specs", SortBy(StrLe, i.specPaths), [""]))
      + Lines(Section("### Page objects", SortBy(StrLe, i.pageObjectPaths), [""]))
      + Lines(Section("### Fixtures", SortBy(StrLe, i.fixturePaths), [""]));
    var before := front + ["## Diff vs previous generation", ""];
    Around(front, ["## Diff vs previous generation", ""], NO_CHANGES, [""]);
    LineRead(i, before, NO_CHANGES, [""]);
    assert (before + [NO_CHANGES])[|before|] == NO_CHANGES;
  }

  lemma Around(a: seq<string>, b: seq<string>, x: string, c: seq<string>)
    ensures a + (b + [x] + c) == a + b + [x] + c
  {}

  // ----- the table -----

  /** What stands between the bars of a line. */
  ghost function Cells(line: string): seq<string> {
    if line == "" then [""]
    else if line[0] == '|' then [""] + Cells(line[1..])
    else [[line[0]] + Cells(line[1..])[0]] + Cells(line[1..])[1..]
  }

  lemma {:induction false} OneCell(cell: string)
    requires '|' !in cell
    ensures Cells(cell) == [cell]
  {
    if cell != "" {
      OneCell(cell[1..]);
      assert [cell[0]] + cell[1..] == cell;
    }
  }

  lemma {:induction false} CellsMeet(line: string, rest: string)
    ensures Cells(line + "|" + rest) == Cells(line) + Cells(rest)
  {
    if line == "" {
      assert (line + "|" + rest)[1..] == rest;
    } else {
      assert (line + "|" + rest)[1..] == line[1..] + "|" + rest;
      CellsMeet(line[1..], rest);
    }
  }

  ghost function Longer(cells: seq<string>, more: string): seq<string>
    requires cells != []
  {
    cells[..|cells| - 1] + [cells[|cells| - 1] + more]
  }

  lemma LongerBehind(cell: string, cells: seq<string>, more: string)
    requires cells != []
    ensures Longer([cell] + cells, more) == [cell] + Longer(cells, more)
  {}

  lemma LongerOnly(c: char, cell: string, more: string)
    ensures Longer([[c] + cell], more) == [[c] + (cell + more)]
  {
    assert [c] + cell + more == [c] + (cell + more);
  }

  /** One character in front of the first of some cells, the last of which grows. */
  lemma GrowsBehind(c: char, cells: seq<string>, more: string)
    requires cells != []
    ensures [[c] + Longer(cells, more)[0]] + Longer(cells, more)[1..] == Longer([[c] + cells[0]] + cells[1..], more)
  {
    if |cells| == 1 {
      LongerOnly(c, cells[0], more);
      assert cells[1..] == [] && cells == [cells[0]];
    } else {
      LongerBehind(cells[0], cells[1..], more);
      LongerBehind([c] + cells[0], cells[1..], more);
      assert cells == [cells[0]] + cells[1..];
    }
  }

  lemma {:induction false} LastCellGrows(line: string, more: string)
    requires '|' !in more
    ensures Cells(line) != [] && Cells(line + more) == Longer(Cells(line), more)
    decreases |line|
  {
    if line == "" {
      OneCell(more);
      assert line + more == more;
    } else {
      assert (line + more)[1..] == line[1..] + more;
      LastCellGrows(line[1..], more);
      if line[0] == '|' { LongerBehind("", Cells(line[1..]), more); } else { GrowsBehind(line[0], Cells(line[1..]), more); }
    }
  }

  /** A row so far, its cells so far and the text of its last cell. */
  ghost predicate RowSoFar(line: string, cells: seq<string>, last: string) { Cells(line) == cells + [" " + last] }

  lemma NextCell(line: string, cells: seq<string>, last: string, next: string)
    requires RowSoFar(line, cells, last) && '|' !in next
    ensures RowSoFar(line + " | " + next, cells + [" " + last + " "], next)
  {
    LastCellGrows(line, " ");
    OneCell(" " + next);
    CellsMeet(line + " ", " " + next);
    assert line + " | " + next == line + " " + "|" + (" " + next);
  }

  lemma LastCell(line: string, cells: seq<string>, last: string)
    requires RowSoFar(line, cells, last)
    ensures Cells(line + " |") == cells + [" " + last + " "] + [""]
  {
    LastCellGrows(line, " ");
    CellsMeet(line + " ", "");
    assert line + " |" == line + " " + "|" + "";
  }

  lemma FirstCell(a: string)
    requires '|' !in a
    ensures RowSoFar("| " + a, [""], a)
  {
    OneCell(" " + a);
    CellsMeet("", " " + a);
    assert "| " + a == "" + "|" + (" " + a);
  }

  lemma SevenCells(a: string, b: string, c: string, d: string, e: string)
    ensures [""] + [a] + [b] + [c] + [d] + [e] + [""] == ["", a, b, c, d, e, ""]
  {}

  /** A line of five cells, each between blanks. */
  lemma FiveCells(a: string, b: string, c: string, d: string, e: string)
    requires '|' !in a && '|' !in b && '|' !in c && '|' !in d && '|' !in e
    ensures Cells("| " + a + " | " + b + " | " + c + " | " + d + " | " + e + " |")
      == ["", " " + a + " ", " " + b + " ", " " + c + " ", " " + d + " ", " " + e + " ", ""]
  {
    FirstCell(a);
    var l1, c1 := "| " + a, [""];
    NextCell(l1, c1, a, b);
    var l2, c2 := l1 + " | " + b, c1 + [" " + a + " "];
    NextCell(l2, c2, b, c);
    var l3, c3 := l2 + " | " + c, c2 + [" " + b + " "];
    NextCell(l3, c3, c, d);
    var l4, c4 := l3 + " | " + d, c3 + [" " + c + " "];
    NextCell(l4, c4, d, e);
    LastCell(l4 + " | " + e, c4 + [" " + d + " "], e);
    SevenCells(" " + a + " ", " " + b + " ", " " + c + " ", " " + d + " ", " " + e + " ");
  }

  ghost predicate BarFree(f: Flow) {
    '|' !in f.priority && '|' !in f.source && '|' !in f.confidence && '|' !in f.extractor && '|' !in f.name
  }

  /** The cells of a flow's row, under the headings of the table. */
  ghost function RowCells(f: Flow): seq<string> {
    ["", " " + f.priority + " ", " " + f.source + " ", " " + f.confidence + " ",
     " `" + (if |f.extractor| > 0 then f.extractor else "-") + "` ", " " + f.name + " ", ""]
  }

  lemma RowRead(f: Flow)
    requires BarFree(f)
    ensures Cells(FlowRow(f)) == RowCells(f)
  {
    var quoted := "`" + (if f.extractor == "" then "-" else f.extractor) + "`";
    FiveCells(f.priority, f.source, f.confidence, quoted, f.name);
    assert FlowRow(f) == "| " + f.priority + " | " + f.source + " | " + f.confidence + " | " + quoted + " | " + f.name + " |";
    assert " " + quoted + " " == " `" + (if f.extractor == "" then "-" else f.extractor) + "` ";
  }

  const HEADINGS := ["", " " + "Priority" + " ", " " + "Source" + " ", " " + "Confidence" + " ", " " + "Extractor" + " ", " " + "Name" + " ", ""]

  lemma HeadPieces()
    ensures TableHead() == "| " + "Priority" + " | " + "Source" + " | " + "Confidence" + " | " + "Extractor" + " | " + "Name" + " |"
  {
    assert "| " + "Priority" + " | " + "Source" + " | " + "Confidence" + " " == "| Priority | Source | Confidence ";
    assert "| " + "Extractor" + " | " + "Name" + " |" == "| Extractor | Name |";
    var front := "| " + "Priority" + " | " + "Source" + " | " + "Confidence";
    Halves(front, "Extractor", "Name");
  }

  lemma Halves(front: string, d: string, e: string)
    ensures front + " " + ("| " + d + " | " + e + " |") == front + " | " + d + " | " + e + " |"
  {}

  lemma HeadRead()
    ensures Cells(TableHead()) == HEADINGS
  {
    HeadPieces();
    FiveCells("Priority", "Source", "Confidence", "Extractor", "Name");
  }

  /** By priority, then name, then id. */
  ghost predicate NoLater(f: Flow, g: Flow) {
    if f.priority != g.priority then Earlier(f.priority, g.priority)
    else if f.name != g.name then Earlier(f.name, g.name) else Earlier(f.id, g.id)
  }

  lemma FlowLeTold(f: Flow, g: Flow)
    ensures FlowLe(f, g) <==> NoLater(f, g)
  {
    var k, l := [f.priority, f.name, f.id], [g.priority, g.name, g.id];
    PathLeFirst(k, l);
    PathLeFirst(k[1..], l[1..]);
    PathLeFirst(k[2..], l[2..]);
    assert k[1..][1..] == k[2..] && l[1..][1..] == l[2..] && k[2..][1..] == [] && l[2..][1..] == [];
  }

  lemma FlowsInOrder(flows: seq<Flow>)
    ensures forall j, k | 0 <= j < k < |flows| :: NoLater(SortBy(FlowLe, flows)[j], SortBy(FlowLe, flows)[k])
  {
    forall f, g ensures FlowLe(f, g) || FlowLe(g, f) { PathLeTotal([f.priority, f.name, f.id], [g.priority, g.name, g.id]); }
    forall f, g, h | FlowLe(f, g) && FlowLe(g, h) ensures FlowLe(f, h) {
      PathLeTrans([f.priority, f.name, f.id], [g.priority, g.name, g.id], [h.priority, h.name, h.id]);
    }
    SortBySorted(FlowLe, flows);
    forall j, k | 0 <= j < k < |flows| ensures NoLater(SortBy(FlowLe, flows)[j], SortBy(FlowLe, flows)[k]) {
      FlowLeTold(SortBy(FlowLe, flows)[j], SortBy(FlowLe, flows)[k]);
    }
  }

  lemma {:induction false} RowsAt(flows: seq<Flow>)
    ensures |FlowRows(flows)| == |flows| && forall k | 0 <= k < |flows| :: FlowRows(flows)[k] == FlowRow(flows[k])
  {
    if flows != [] { RowsAt(flows[1..]); }
  }

  lemma FlowsPlaced(i: Inputs) returns (at: nat)
    requires NewlineFree(i)
    ensures SectionAt(SplitLines(Render(i)), at, "## Flows", Flows(i).body)
  {
    TopIsRead(i);
    OneBlock(Flows(i));
    at := |Preamble() + Lines([Summary(i)])|;
    SectionPlaced(Preamble() + Lines([Summary(i)]), "## Flows", Flows(i).body, ["## Files"], SplitLines(Render(i)));
  }

  /** Under the headings one row a flow, each value in its own column; in place of a table, one line that says there is none. */
  ghost predicate TableTold(text: seq<string>, at: nat, flows: seq<Flow>) {
    && at + 3 + |flows| < |text| && text[at] == "## Flows"
    && (flows == [] ==> text[at + 2] == "_No flows in the plan._")
    && (flows != [] ==> Cells(text[at + 2]) == HEADINGS)
    && forall k | 0 <= k < |flows| :: Cells(text[at + 4 + k]) == RowCells(flows[k])
  }

  lemma TablePlaced(text: seq<string>, at: nat, flows: seq<Flow>, body: seq<string>)
    requires body == [""] + (if flows == [] then ["_No flows in the plan._"] else [TableHead(), "|---|---|---:|---|---|"] + FlowRows(flows)) + [""]
    requires forall f | f in flows :: BarFree(f)
    requires SectionAt(text, at, "## Flows", body)
    ensures TableTold(text, at, flows)
  {
    RowsAt(flows);
    HeadRead();
    assert text[at + 1 + 1] == body[1];
    forall k | 0 <= k < |flows| ensures Cells(text[at + 4 + k]) == RowCells(flows[k]) {
      assert body[3 + k] == FlowRow(flows[k]) && text[at + 1 + (3 + k)] == body[3 + k];
      assert flows[k] in flows;
      RowRead(flows[k]);
    }
  }

  /** The table of flows read back: every flow of the plan once, in the order of priority, name and id. */
  lemma TableRoundTrip(i: Inputs) returns (at: nat, flows: seq<Flow>)
    requires NewlineFree(i) && forall f | f in i.flows :: BarFree(f)
    ensures multiset(flows) == multiset(i.flows) && forall j, k | 0 <= j < k < |flows| :: NoLater(flows[j], flows[k])
    ensures TableTold(SplitLines(Render(i)), at, flows)
  {
    flows := SortBy(FlowLe, i.flows);
    FlowsInOrder(i.flows);
    at := FlowsPlaced(i);
    forall f | f in flows ensures BarFree(f) { SameElements(flows, i.flows, f); }
    TablePlaced(SplitLines(Render(i)), at, flows, Flows(i).body);
  }
}
