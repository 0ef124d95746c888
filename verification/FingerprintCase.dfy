/** The fingerprint on a system that orders paths without regard to case (engine/cache/fingerprint.py:167, 180-183): the
    documentation promises one digest on Windows and macOS; exactly when both orders feed the same stream. */
module FingerprintCase {
  import opened Sorting
  import opened Text
  import opened Fingerprint

  /** Two orders without ties sort a list alike exactly when they order its elements alike. */
  lemma SameSortIff<T(!new)>(le: (T, T) -> bool, le': (T, T) -> bool, s: seq<T>)
    requires Ordering(le) && Ordering(le') && KeysDistinct(le, s) && KeysDistinct(le', s)
    ensures SortBy(le, s) == SortBy(le', s) <==> forall x, y | x in s && y in s :: le(x, y) <==> le'(x, y)
  {
    var a, b := SortBy(le, s), SortBy(le', s);
    SortBySorted(le, s);
    SortBySorted(le', s);
    forall x ensures x in a <==> x in s { SameElements(a, s, x); }
    if a == b {
      forall x, y | x in s && y in s ensures le(x, y) <==> le'(x, y) { BothSorted(le, le', s, a, x, y); }
    }
    if forall x, y | x in s && y in s :: le(x, y) <==> le'(x, y) {
      assert Sorted(le', a) by {
        forall i, j | 0 <= i < j < |a| ensures le'(a[i], a[j]) { assert a[i] in s && a[j] in s; }
      }
      SortedUnique(le', a, b);
    }
  }

  lemma BothSorted<T(!new)>(le: (T, T) -> bool, le': (T, T) -> bool, s: seq<T>, a: seq<T>, x: T, y: T)
    requires Ordering(le) && Ordering(le') && KeysDistinct(le, s) && KeysDistinct(le', s)
    requires Sorted(le, a) && Sorted(le', a) && x in a && y in a && x in s && y in s
    ensures le(x, y) <==> le'(x, y)
  {
    var i :| 0 <= i < |a| && a[i] == x;
    var j :| 0 <= j < |a| && a[j] == y;
    if i < j { assert le(x, y) && le'(x, y); }
    if j < i { assert le(y, x) && le'(y, x); }
  }

  // ----- paths without case -----

  function Folded(path: Path): Path { seq(|path|, i requires 0 <= i < |path| => Lower(path[i])) }

  predicate CaselessLe(a: Entry, b: Entry) { PathLe(Folded(a.path), Folded(b.path)) }

  /** The same walk, sorted as such a system sorts. */
  function CaselessFiles(rules: Rules, root: seq<Node>): seq<Entry> { SortBy(CaselessLe, Collect(rules, [], root)) }

  /** No two files have paths that differ in case only, as on such a system. */
  ghost predicate NoTwins(files: seq<Entry>) {
    forall a, b | a in files && b in files :: Folded(a.path) == Folded(b.path) ==> a == b
  }

  lemma CaselessOrdering()
    ensures Ordering(CaselessLe)
  {
    forall a, b ensures CaselessLe(a, b) || CaselessLe(b, a) { PathLeTotal(Folded(a.path), Folded(b.path)); }
    forall a, b, c | CaselessLe(a, b) && CaselessLe(b, c) ensures CaselessLe(a, c) {
      PathLeTrans(Folded(a.path), Folded(b.path), Folded(c.path));
    }
  }

  lemma CaselessDistinct(files: seq<Entry>)
    requires NoTwins(files)
    ensures KeysDistinct(CaselessLe, files)
  {
    forall a, b | a in files && b in files && CaselessLe(a, b) && CaselessLe(b, a) ensures a == b {
      PathLeAntisym(Folded(a.path), Folded(b.path));
    }
  }

  lemma PathsClean(rules: Rules, root: seq<Node>, e: Entry)
    requires WellFormed(root) && e in Collect(rules, [], root)
    ensures CleanPath(e.path)
  {
    assert [] + e.path == e.path;
    CollectIsHasFile(rules, [], root, e.path, e.content);
    HasFileClean(rules, root, e.path, e.content);
  }

  /** Lists of one walk's files that feed the same stream are the same. */
  lemma SameStreamSameList(rules: Rules, sha: Bytes -> string, root: seq<Node>, a: seq<Entry>, b: seq<Entry>)
    requires WellFormed(root) && HexDigest(sha) && Stream(sha, a) == Stream(sha, b)
    requires multiset(a) == multiset(Collect(rules, [], root)) == multiset(b)
    ensures a == b
  {
    var files := Collect(rules, [], root);
    forall e ensures e in a + b ==> e in files {
      SameElements(a, files, e);
      SameElements(b, files, e);
    }
    forall e | e in a + b ensures CleanPath(e.path) { PathsClean(rules, root, e); }
    StreamInjective(sha, a, b);
    PathsDistinct(rules, [], root);
    forall i | 0 <= i < |a| ensures a[i] == b[i] { assert a[i] in a + b && b[i] in a + b; }
  }

  /** A tree has one stream, whether its paths are sorted with case or without, exactly when no two of its files stand
      the other way round without it. */
  lemma OneStreamIff(rules: Rules, sha: Bytes -> string, root: seq<Node>)
    requires WellFormed(root) && HexDigest(sha) && NoTwins(Collect(rules, [], root))
    ensures Stream(sha, SourceFiles(rules, root)) == Stream(sha, CaselessFiles(rules, root)) <==>
      forall a, b | a in Collect(rules, [], root) && b in Collect(rules, [], root) :: EntryLe(a, b) <==> CaselessLe(a, b)
  {
    var files := Collect(rules, [], root);
    EntryOrdering();
    CaselessOrdering();
    CollectDistinct(rules, root);
    CaselessDistinct(files);
    SameSortIff(EntryLe, CaselessLe, files);
    if Stream(sha, SourceFiles(rules, root)) == Stream(sha, CaselessFiles(rules, root)) {
      SameStreamSameList(rules, sha, root, SourceFiles(rules, root), CaselessFiles(rules, root));
    }
  }

  /** A capital comes before every small letter only where case counts. */
  lemma CapitalsStandFirst(x: Bytes, y: Bytes)
    ensures var a, b := Entry(["B.py"], x), Entry(["a.py"], y); EntryLe(a, b) && !CaselessLe(a, b)
  {
    assert Folded(["B.py"])[0] == Lower("B.py") && Folded(["a.py"])[0] == Lower("a.py");
    assert Lower("B.py")[0] == 'b' && Lower("a.py")[0] == 'a' && "B.py"[0] == 'B' && "a.py"[0] == 'a';
  }
}
