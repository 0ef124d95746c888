/** scripts/diff_runs.py: run artifacts are compared after dropping volatile
    fields and replacing every run id found by a leftmost non-overlapping scan.
    The scan is written out by hand; `json.loads` and `json.dumps` are opaque. */
module DiffRuns {
  import opened Alphabet
  import opened Wrappers

  // ----- RUN-[A-Z0-9]{12}, substituted in strings -----

  const RUN_ID_PLACEHOLDER := "RUN-XXXXXXXXXXXX"

  predicate IdChar(c: char) { 'A' <= c <= 'Z' || '0' <= c <= '9' }

  predicate AllIdChars(s: string) { forall c | c in s :: IdChar(c) }

  predicate MatchAt(s: string) {
    |s| >= 16 && s[..4] == "RUN-" && AllIdChars(s[4..16])
  }

  function Substitute(s: string): string {
    if s == [] then []
    else if MatchAt(s) then RUN_ID_PLACEHOLDER + Substitute(s[16..])
    else [s[0]] + Substitute(s[1..])
  }

  /** `s` begins with a run id: the prefix and twelve capitals or digits. */
  ghost predicate BeginsWithId(s: string) {
    exists id, rest :: s == "RUN-" + id + rest && |id| == 12 && OnlyOf(id, CAPITALS + DIGITS)
  }

  lemma IdCharIff(c: char)
    ensures IdChar(c) <==> c in CAPITALS + DIGITS
  {
    CapitalIff(c);
    DigitIff(c);
  }

  lemma MatchIff(s: string)
    ensures MatchAt(s) <==> BeginsWithId(s)
  {
    forall c ensures IdChar(c) <==> c in CAPITALS + DIGITS { IdCharIff(c); }
    if MatchAt(s) { assert s == "RUN-" + s[4..16] + s[16..] && OnlyOf(s[4..16], CAPITALS + DIGITS); }
    if id, rest :| s == "RUN-" + id + rest && |id| == 12 && OnlyOf(id, CAPITALS + DIGITS) {
      assert s[..4] == "RUN-" && s[4..16] == id;
    }
  }

  /** `t` is `s` with each id that the scan of `s` finds replaced by some valid id. */
  ghost predicate Renamed(s: string, t: string) {
    if s == [] then t == []
    else if MatchAt(s) then MatchAt(t) && Renamed(s[16..], t[16..])
    else t != [] && s[0] == t[0] && Renamed(s[1..], t[1..])
  }

  lemma DashEndsRun(t: string, n: nat)
    requires |t| >= 4 && t[..4] == "RUN-" && n <= |t| && AllIdChars(t[..n])
    ensures n <= 3
  {
    assert t[3] == t[..4][3] == '-';
    assert forall k | 0 <= k < n :: IdChar(t[k]) by {
      forall k | 0 <= k < n ensures IdChar(t[k]) { assert t[..n][k] == t[k]; }
    }
  }

  /** Inside a run of id characters a renaming changes nothing: the dash of an id ends the run,
      and the three letters before it are the same in every id. */
  lemma {:induction false} IdRunsAgree(s: string, t: string, n: nat)
    requires Renamed(s, t) && n <= 12 && n <= |t| && AllIdChars(t[..n])
    ensures n <= |s| && s[..n] == t[..n]
  {
    if n > 0 {
      if MatchAt(s) {
        DashEndsRun(t, n);
        assert s[..n] == s[..4][..n] && t[..n] == t[..4][..n];
      } else {
        assert t[1..][..n - 1] == t[..n][1..];
        IdRunsAgree(s[1..], t[1..], n - 1);
        assert s[..n] == [s[0]] + s[1..][..n - 1] && t[..n] == [t[0]] + t[1..][..n - 1];
      }
    }
  }

  /** Where `t` does not start an id, a renaming copies one character. */
  lemma PlainStep(s: string, t: string)
    requires Renamed(s, t) && t != [] && t[0] != 'R'
    ensures s != [] && s[0] == t[0] && Renamed(s[1..], t[1..])
  {
    assert |t| >= 4 ==> t[..4][0] == t[0];
  }

  /** An id of `t` that was not an id of `s` would have to be spelled out in `s` already. */
  lemma IdWasThere(s: string, t: string)
    requires s != [] && t != [] && s[0] == t[0] && Renamed(s[1..], t[1..]) && MatchAt(t)
    ensures MatchAt(s)
  {
    assert t[..4][0] == t[0] && t[..4][1] == t[1] && t[..4][2] == t[2] && t[..4][3] == t[3];
    PlainStep(s[1..], t[1..]);
    assert s[1..][1..] == s[2..] && t[1..][1..] == t[2..];
    PlainStep(s[2..], t[2..]);
    assert s[2..][1..] == s[3..] && t[2..][1..] == t[3..];
    PlainStep(s[3..], t[3..]);
    assert s[3..][1..] == s[4..] && t[3..][1..] == t[4..];
    assert t[4..][..12] == t[4..16];
    IdRunsAgree(s[4..], t[4..], 12);
    assert s[4..16] == s[4..][..12];
  }

  /** Renaming neither creates nor hides a match, not even one that overlaps a renamed id. */
  lemma MatchesAreStable(s: string, t: string)
    requires Renamed(s, t)
    ensures MatchAt(s) <==> MatchAt(t)
  {
    if MatchAt(t) && !MatchAt(s) { IdWasThere(s, t); }
  }

  lemma {:induction false} RenamedSameForm(s: string, t: string)
    requires Renamed(s, t)
    ensures Substitute(s) == Substitute(t)
  {
    if s != [] {
      MatchesAreStable(s, t);
      if MatchAt(s) { RenamedSameForm(s[16..], t[16..]); } else { RenamedSameForm(s[1..], t[1..]); }
    }
  }

  lemma {:induction false} SubstituteRenames(s: string)
    ensures Renamed(s, Substitute(s))
  {
    if s != [] {
      if MatchAt(s) {
        SubstituteRenames(s[16..]);
        var t := Substitute(s);
        assert t[..4] == "RUN-" && t[4..16] == "XXXXXXXXXXXX";
        assert t[16..] == Substitute(s[16..]);
      } else {
        SubstituteRenames(s[1..]);
        assert Substitute(s)[1..] == Substitute(s[1..]);
      }
    }
  }

  lemma {:induction false} SameFormRenamed(s: string, t: string)
    requires Substitute(s) == Substitute(t)
    ensures Renamed(s, t)
  {
    SubstituteRenames(s);
    SubstituteRenames(t);
    if s != [] && t != [] {
      MatchesAreStable(s, Substitute(s));
      MatchesAreStable(t, Substitute(t));
      if MatchAt(s) {
        assert Substitute(s)[16..] == Substitute(s[16..]) && Substitute(t)[16..] == Substitute(t[16..]);
        SameFormRenamed(s[16..], t[16..]);
      } else {
        assert Substitute(s)[1..] == Substitute(s[1..]) && Substitute(t)[1..] == Substitute(t[1..]);
        SameFormRenamed(s[1..], t[1..]);
      }
    }
  }

  /** Two strings have one normal form exactly when one is a renaming of the other. */
  lemma StringFormsAgree(s: string, t: string)
    ensures Substitute(s) == Substitute(t) <==> Renamed(s, t)
  {
    if Renamed(s, t) { RenamedSameForm(s, t); }
    if Substitute(s) == Substitute(t) { SameFormRenamed(s, t); }
  }

  // ----- JSON trees -----

  datatype Json =
    | Null | Bool(b: bool) | Number(literal: string) | Str(s: string)
    | Arr(items: seq<Json>) | Obj(fields: map<string, Json>)

  const VOLATILE_FIELDS: set<string> := {
    "run_id", "started_at", "finished_at", "generated_at", "ts", "decided_at", "duration_ms",
    "created_at", "updated_at"
  }

  const VOLATILE_TOP_LEVEL: set<string> := {"artifact_paths", "config_digest"}

  /** What every run stamps anew, and what `run.json` holds besides at its top level. */
  lemma FieldsStamped(k: string)
    ensures k in VOLATILE_FIELDS <==>
      || k in ["run_id", "ts", "duration_ms", "decided_at"]
      || exists event :: event in ["started", "finished", "generated", "created", "updated"] && k == event + "_at"
    ensures k in VOLATILE_TOP_LEVEL <==> k in ["artifact_paths", "config_digest"]
  {
    assert "started" + "_at" == "started_at" && "finished" + "_at" == "finished_at" && "generated" + "_at" == "generated_at";
    assert "created" + "_at" == "created_at" && "updated" + "_at" == "updated_at";
  }

  function NormalizeLine(s: string, strict: bool): string {
    if strict then s else Substitute(s)
  }

  function Normalize(v: Json, strict: bool): Json {
    match v
    case Obj(fields) => Obj(map k | k in fields && (strict || k !in VOLATILE_FIELDS) :: Normalize(fields[k], strict))
    case Arr(items) => Arr(seq(|items|, i requires 0 <= i < |items| => Normalize(items[i], strict)))
    case Str(s) => Str(NormalizeLine(s, strict))
    case _ => v
  }

  /** Equal up to renamed run ids in string values and the presence and value of volatile fields. */
  ghost predicate Alike(v: Json, w: Json) {
    match v
    case Obj(fields) =>
      && w.Obj?
      && (forall k :: k !in VOLATILE_FIELDS ==> (k in fields <==> k in w.fields))
      && (forall k | k in fields && k !in VOLATILE_FIELDS :: k in w.fields && Alike(fields[k], w.fields[k]))
    case Arr(items) =>
      w.Arr? && |items| == |w.items| && forall i | 0 <= i < |items| :: Alike(items[i], w.items[i])
    case Str(s) => w.Str? && Renamed(s, w.s)
    case _ => v == w
  }

  lemma {:induction false} ObjectFormsAgree(fields: map<string, Json>, w: Json)
    requires w.Obj?
    requires forall k | k in fields && k in w.fields && k !in VOLATILE_FIELDS ::
      Normalize(fields[k], false) == Normalize(w.fields[k], false) <==> Alike(fields[k], w.fields[k])
    ensures Normalize(Obj(fields), false) == Normalize(w, false) <==> Alike(Obj(fields), w)
  {
    var a, b := Normalize(Obj(fields), false).fields, Normalize(w, false).fields;
    assert forall k :: k in a <==> k in fields && k !in VOLATILE_FIELDS;
    assert forall k :: k in b <==> k in w.fields && k !in VOLATILE_FIELDS;
    if Alike(Obj(fields), w) { assert a == b; }
    if a == b {
      forall k | k !in VOLATILE_FIELDS ensures k in fields <==> k in w.fields { assert k in a <==> k in b; }
      forall k | k in fields && k !in VOLATILE_FIELDS ensures Alike(fields[k], w.fields[k]) {
        assert a[k] == b[k];
      }
    }
  }

  /** The normal form separates two trees exactly when they differ in something stable. */
  lemma {:induction false} NormalFormsAgree(v: Json, w: Json)
    ensures Normalize(v, false) == Normalize(w, false) <==> Alike(v, w)
    decreases v
  {
    match v
    case Obj(fields) =>
      if w.Obj? {
        forall k | k in fields && k in w.fields
          ensures Normalize(fields[k], false) == Normalize(w.fields[k], false) <==> Alike(fields[k], w.fields[k])
        {
          NormalFormsAgree(fields[k], w.fields[k]);
        }
        ObjectFormsAgree(fields, w);
      }
    case Arr(items) =>
      if w.Arr? && |items| == |w.items| {
        var a, b := Normalize(v, false).items, Normalize(w, false).items;
        forall i | 0 <= i < |items| ensures a[i] == b[i] <==> Alike(items[i], w.items[i]) {
          NormalFormsAgree(items[i], w.items[i]);
        }
        assert a == b <==> forall i | 0 <= i < |items| :: a[i] == b[i];
      } else if w.Arr? {
        assert |Normalize(v, false).items| != |Normalize(w, false).items|;
      }
    case Str(s) =>
      if w.Str? { StringFormsAgree(s, w.s); }
    case _ =>
  }

  /** Every tree is alike to its own normal form. */
  lemma {:induction false} NormalFormAlike(v: Json)
    ensures Alike(v, Normalize(v, false))
  {
    match v
    case Obj(fields) =>
      forall k | k in fields && k !in VOLATILE_FIELDS ensures Alike(fields[k], Normalize(fields[k], false)) {
        NormalFormAlike(fields[k]);
      }
    case Arr(items) =>
      forall i | 0 <= i < |items| ensures Alike(items[i], Normalize(items[i], false)) {
        NormalFormAlike(items[i]);
      }
    case Str(s) => SubstituteRenames(s);
    case _ =>
  }

  lemma NormalizeIdempotent(v: Json)
    ensures Normalize(Normalize(v, false), false) == Normalize(v, false)
  {
    NormalFormAlike(v);
    NormalFormsAgree(v, Normalize(v, false));
  }

  /** `--strict` compares the trees themselves. */
  lemma {:induction false} StrictKeepsAll(v: Json)
    ensures Normalize(v, true) == v
  {
    match v
    case Obj(fields) =>
      forall k | k in fields ensures Normalize(fields[k], true) == fields[k] { StrictKeepsAll(fields[k]); }
      assert Normalize(v, true).fields == fields;
    case Arr(items) =>
      forall i | 0 <= i < |items| ensures Normalize(items[i], true) == items[i] { StrictKeepsAll(items[i]); }
      assert Normalize(v, true).items == items;
    case _ =>
  }

  // ----- files and directories -----

  /** One artifact: its text and, as `json.loads` sees it, the document and the stripped non-blank rows. */
  datatype Artifact = Artifact(text: string, document: Option<Json>, rows: seq<Row>)

  datatype Row = Parsed(value: Json) | Raw(line: string)

  datatype Form = JsonForm(tree: Json) | TextForm(text: string) | LogForm(rows: seq<Row>)

  function FileName(path: seq<string>): string { if path == [] then "" else path[|path| - 1] }

  function NormalizeRow(row: Row, strict: bool): Row {
    match row
    case Parsed(v) => Parsed(Normalize(v, strict))
    case Raw(line) => Raw(NormalizeLine(line, strict))
  }

  function StripTopLevel(v: Json): Json {
    if v.Obj? then Obj(map k | k in v.fields && k !in VOLATILE_TOP_LEVEL :: v.fields[k]) else v
  }

  predicate IsJsonName(name: string) { |name| >= 5 && name[|name| - 5..] == ".json" }

  function NormalizeFile(path: seq<string>, a: Artifact, strict: bool): Form {
    var name := FileName(path);
    if name == "audit.log" then LogForm(seq(|a.rows|, i requires 0 <= i < |a.rows| => NormalizeRow(a.rows[i], strict)))
    else if IsJsonName(name) && a.document.Some? then
      JsonForm(Normalize(if name == "run.json" && !strict then StripTopLevel(a.document.value) else a.document.value, strict))
    else TextForm(NormalizeLine(a.text, strict))
  }

  ghost predicate RowsAlike(r: Row, s: Row) {
    match r
    case Parsed(v) => s.Parsed? && Alike(v, s.value)
    case Raw(line) => s.Raw? && Renamed(line, s.line)
  }

  ghost predicate EndsIn(name: string, ending: string) { exists stem: string :: name == stem + ending }

  lemma JsonNameIff(name: string)
    ensures IsJsonName(name) <==> EndsIn(name, ".json")
  {
    if IsJsonName(name) { assert name == name[..|name| - 5] + ".json"; }
    if stem: string :| name == stem + ".json" { assert name[|name| - 5..] == ".json"; }
  }

  lemma FileNameTold(dir: seq<string>, name: string)
    ensures FileName(dir + [name]) == name
  {}

  /** Run documents are compared without the fields that only a run's envelope has. */
  ghost predicate EnvelopesAlike(v: Json, w: Json) {
    if v.Obj? && w.Obj? then
      forall k | k !in VOLATILE_FIELDS && k !in VOLATILE_TOP_LEVEL ::
        (k in v.fields <==> k in w.fields) && (k in v.fields && k in w.fields ==> Alike(v.fields[k], w.fields[k]))
    else Alike(v, w)
  }

  lemma EnvelopesAlikeIff(v: Json, w: Json)
    ensures Alike(StripTopLevel(v), StripTopLevel(w)) <==> EnvelopesAlike(v, w)
  {
    if v.Obj? && w.Obj? {
      var a, b := StripTopLevel(v).fields, StripTopLevel(w).fields;
      forall k ensures (k in a <==> k in v.fields && k !in VOLATILE_TOP_LEVEL) && (k in b <==> k in w.fields && k !in VOLATILE_TOP_LEVEL) {}
    }
  }

  ghost predicate ArtifactsAlike(path: seq<string>, a: Artifact, b: Artifact) {
    var name := FileName(path);
    if name == "audit.log" then |a.rows| == |b.rows| && forall i | 0 <= i < |a.rows| :: RowsAlike(a.rows[i], b.rows[i])
    else if EndsIn(name, ".json") && a.document.Some? && b.document.Some? then
      if name == "run.json" then EnvelopesAlike(a.document.value, b.document.value)
      else Alike(a.document.value, b.document.value)
    else !(EndsIn(name, ".json") && (a.document.Some? || b.document.Some?)) && Renamed(a.text, b.text)
  }

  lemma FileFormsAgree(path: seq<string>, a: Artifact, b: Artifact)
    ensures NormalizeFile(path, a, false) == NormalizeFile(path, b, false) <==> ArtifactsAlike(path, a, b)
  {
    var name := FileName(path);
    JsonNameIff(name);
    if name == "audit.log" {
      RowFormsAgree(path, a, b);
    } else if IsJsonName(name) && a.document.Some? && b.document.Some? {
      NormalFormsAgree(a.document.value, b.document.value);
      NormalFormsAgree(StripTopLevel(a.document.value), StripTopLevel(b.document.value));
      EnvelopesAlikeIff(a.document.value, b.document.value);
    } else {
      StringFormsAgree(a.text, b.text);
    }
  }

  /** In strict mode a file is compared as it is: its log rows, its document if it is one, else its text. */
  lemma StrictFormsAgree(path: seq<string>, a: Artifact, b: Artifact)
    ensures NormalizeFile(path, a, true) == NormalizeFile(path, b, true) <==>
      if FileName(path) == "audit.log" then a.rows == b.rows
      else if EndsIn(FileName(path), ".json") && (a.document.Some? || b.document.Some?) then a.document == b.document
      else a.text == b.text
  {
    JsonNameIff(FileName(path));
    if a.document.Some? { StrictKeepsAll(a.document.value); }
    if b.document.Some? { StrictKeepsAll(b.document.value); }
    if FileName(path) == "audit.log" {
      StrictRows(path, a);
      StrictRows(path, b);
    }
  }

  lemma StrictRows(path: seq<string>, a: Artifact)
    requires FileName(path) == "audit.log"
    ensures NormalizeFile(path, a, true) == LogForm(a.rows)
  {
    forall i | 0 <= i < |a.rows| ensures NormalizeRow(a.rows[i], true) == a.rows[i] {
      if a.rows[i].Parsed? { StrictKeepsAll(a.rows[i].value); }
    }
  }

  lemma RowFormsAgree(path: seq<string>, a: Artifact, b: Artifact)
    requires FileName(path) == "audit.log"
    ensures NormalizeFile(path, a, false) == NormalizeFile(path, b, false) <==> ArtifactsAlike(path, a, b)
  {
    var p, q := NormalizeFile(path, a, false).rows, NormalizeFile(path, b, false).rows;
    if |p| == |q| {
      forall i | 0 <= i < |p| ensures p[i] == q[i] <==> RowsAlike(a.rows[i], b.rows[i]) {
        match (a.rows[i], b.rows[i])
        case (Parsed(v), Parsed(w)) => NormalFormsAgree(v, w);
        case (Raw(l), Raw(m)) => StringFormsAgree(l, m);
        case _ =>
      }
      assert p == q <==> forall i | 0 <= i < |p| :: p[i] == q[i];
    }
  }

  type Directory = map<seq<string>, Artifact>

  /** What a clean comparison promises: the same files, each alike. */
  ghost predicate RunsAlike(a: Directory, b: Directory) {
    a.Keys == b.Keys && forall p | p in a && p in b :: ArtifactsAlike(p, a[p], b[p])
  }

  /** A file of the first run that run `index` lacks, one that only run `index` has, or one whose forms differ. */
  datatype Diff = Missing(index: nat, path: seq<string>) | Extra(index: nat, path: seq<string>) | Differs(index: nat, path: seq<string>)

  /** What there is to say about one path of two directories. */
  function Compare(a: Directory, b: Directory, index: nat, p: seq<string>, strict: bool): seq<Diff> {
    if p in a && p !in b then [Missing(index, p)]
    else if p in b && p !in a then [Extra(index, p)]
    else if p in a && NormalizeFile(p, a[p], strict) != NormalizeFile(p, b[p], strict) then [Differs(index, p)]
    else []
  }

  function PairReport(a: Directory, b: Directory, index: nat, listing: seq<seq<string>>, strict: bool): seq<Diff> {
    if listing == [] then [] else PairReport(a, b, index, listing[..|listing| - 1], strict) + Compare(a, b, index, listing[|listing| - 1], strict)
  }

  /** What a difference claims, told from its kind. */
  predicate Claims(a: Directory, b: Directory, index: nat, strict: bool, d: Diff) {
    d.index == index &&
    match d
    case Missing(_, p) => p in a && p !in b
    case Extra(_, p) => p in b && p !in a
    case Differs(_, p) => p in a && p in b && NormalizeFile(p, a[p], strict) != NormalizeFile(p, b[p], strict)
  }

  lemma {:induction false} PairReportHolds(a: Directory, b: Directory, index: nat, listing: seq<seq<string>>, strict: bool, d: Diff)
    ensures d in PairReport(a, b, index, listing, strict) <==> d.path in listing && Claims(a, b, index, strict, d)
  {
    if listing != [] {
      var n := |listing| - 1;
      PairReportHolds(a, b, index, listing[..n], strict, d);
      assert listing == listing[..n] + [listing[n]];
      assert d in Compare(a, b, index, listing[n], strict) <==> d.path == listing[n] && Claims(a, b, index, strict, d);
    }
  }

  method DiffPair(a: Directory, b: Directory, index: nat, listing: seq<seq<string>>, strict: bool) returns (diffs: seq<Diff>)
    requires forall p | p in a || p in b :: p in listing
    ensures forall d :: d in diffs <==> Claims(a, b, index, strict, d)
  {
    diffs := [];
    for i := 0 to |listing|
      invariant diffs == PairReport(a, b, index, listing[..i], strict)
    {
      var p := listing[i];
      assert listing[..i + 1][..i] == listing[..i];
      if p in a && p !in b { diffs := diffs + [Missing(index, p)]; }
      else if p in b && p !in a { diffs := diffs + [Extra(index, p)]; }
      else if p in a && NormalizeFile(p, a[p], strict) != NormalizeFile(p, b[p], strict) { diffs := diffs + [Differs(index, p)]; }
    }
    assert listing[..|listing|] == listing;
    forall d ensures d in diffs <==> Claims(a, b, index, strict, d) { PairReportHolds(a, b, index, listing, strict, d); }
  }

  /** Two runs with nothing to tell them apart. */
  ghost predicate SameForms(a: Directory, b: Directory, strict: bool) {
    a.Keys == b.Keys && forall p | p in a && p in b :: NormalizeFile(p, a[p], strict) == NormalizeFile(p, b[p], strict)
  }

  lemma NothingClaimed(a: Directory, b: Directory, index: nat, strict: bool)
    ensures (forall d :: !Claims(a, b, index, strict, d)) <==> SameForms(a, b, strict)
  {
    if forall d :: !Claims(a, b, index, strict, d) {
      forall p ensures p in a <==> p in b { assert !Claims(a, b, index, strict, Missing(index, p)) && !Claims(a, b, index, strict, Extra(index, p)); }
      forall p | p in a && p in b ensures NormalizeFile(p, a[p], strict) == NormalizeFile(p, b[p], strict) {
        assert !Claims(a, b, index, strict, Differs(index, p));
      }
    }
  }

  /** Compares every later run with the first, and reports exactly what is missing, extra or different; `listing` has
      every file of every run, in some order. */
  method DiffDirectories(dirs: seq<Directory>, listing: seq<seq<string>>, strict: bool) returns (diffs: seq<Diff>)
    requires |dirs| >= 2
    requires forall d, p | d in dirs && p in d :: p in listing
    ensures forall d :: d in diffs <==> 1 <= d.index < |dirs| && Claims(dirs[0], dirs[d.index], d.index, strict, d)
  {
    diffs := [];
    for i := 1 to |dirs|
      invariant forall d :: d in diffs <==> 1 <= d.index < i && Claims(dirs[0], dirs[d.index], d.index, strict, d)
    {
      var some := DiffPair(dirs[0], dirs[i], i, listing, strict);
      diffs := diffs + some;
    }
  }

  /** The report is empty exactly when every run has the first one's files, each alike; in strict mode, each with
      the same form. */
  lemma CleanIff(dirs: seq<Directory>, diffs: seq<Diff>, strict: bool)
    requires |dirs| >= 2 && forall d :: d in diffs <==> 1 <= d.index < |dirs| && Claims(dirs[0], dirs[d.index], d.index, strict, d)
    ensures diffs == [] <==> forall d | d in dirs :: SameForms(dirs[0], d, strict)
    ensures !strict ==> (diffs == [] <==> forall d | d in dirs :: RunsAlike(dirs[0], d))
  {
    forall d ensures SameForms(dirs[0], d, false) <==> RunsAlike(dirs[0], d) { FormsAreAlike(dirs[0], d); }
    forall i | 1 <= i < |dirs| ensures (forall d :: !Claims(dirs[0], dirs[i], i, strict, d)) <==> SameForms(dirs[0], dirs[i], strict) {
      NothingClaimed(dirs[0], dirs[i], i, strict);
    }
    if diffs == [] {
      forall i | 1 <= i < |dirs| ensures SameForms(dirs[0], dirs[i], strict) {
        forall d ensures !Claims(dirs[0], dirs[i], i, strict, d) { assert d !in diffs; }
      }
    } else {
      var d := diffs[0];
      assert d in diffs && dirs[d.index] in dirs && Claims(dirs[0], dirs[d.index], d.index, strict, d);
    }
  }

  lemma FormsAreAlike(a: Directory, b: Directory)
    ensures SameForms(a, b, false) <==> RunsAlike(a, b)
  {
    forall p | p in a && p in b
      ensures NormalizeFile(p, a[p], false) == NormalizeFile(p, b[p], false) <==> ArtifactsAlike(p, a[p], b[p])
    {
      FileFormsAgree(p, a[p], b[p]);
    }
  }
}
