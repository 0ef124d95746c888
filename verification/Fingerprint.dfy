/** engine/cache/fingerprint.py: the source walk with an explicit stack, and the
    framed byte stream that is hashed.  SHA-256 is an opaque function to 64 characters. */
module Fingerprint {
  import opened Sorting
  import opened Text

  type Bytes = seq<bv8>
  type Path = seq<string>

  /** A directory as scanned: its entries in whatever order the system gives, and directories that cannot be listed apart. */
  datatype Node =
    | File(name: string, content: Bytes)
    | Dir(name: string, listing: seq<Node>)
    | Unlistable(name: string)
    | Other(name: string)

  datatype Rules = Rules(suffixes: set<string>, basenames: set<string>, excludes: set<string>)

  // ----- which files count -----

  function LastDot(name: string, n: nat): (i: int)
    requires n <= |name|
    ensures -1 <= i < n
    ensures i >= 0 ==> name[i] == '.'
    ensures forall k | i < k < n :: name[k] != '.'
  {
    if n == 0 then -1 else if name[n - 1] == '.' then n - 1 else LastDot(name, n - 1)
  }

  predicate Included(rules: Rules, name: string) {
    || name in rules.basenames
    || (var dot := LastDot(name, |name|); dot >= 0 && Lower(name[dot..]) in rules.suffixes)
  }

  lemma LastDotIs(name: string, stem: string, ext: string)
    requires name == stem + "." + ext && '.' !in ext
    ensures LastDot(name, |name|) == |stem| && name[|stem|..] == "." + ext
  {
    assert name[|stem|] == '.';
    forall k | |stem| < k < |name| ensures name[k] != '.' { assert name[k] == ext[k - |stem| - 1]; }
  }

  lemma LastDotCuts(name: string) returns (stem: string, ext: string)
    requires LastDot(name, |name|) >= 0
    ensures name == stem + "." + ext && '.' !in ext && name[LastDot(name, |name|)..] == "." + ext
  {
    var dot := LastDot(name, |name|);
    stem, ext := name[..dot], name[dot + 1..];
  }

  ghost predicate Suffixed(rules: Rules, name: string, stem: string, ext: string) {
    name == stem + "." + ext && '.' !in ext && Lower("." + ext) in rules.suffixes
  }

  /** A file counts by its whole name, or by what follows its last dot, the dot included, whatever the case. */
  lemma IncludedIff(rules: Rules, name: string)
    ensures Included(rules, name) <==> name in rules.basenames || exists stem, ext :: Suffixed(rules, name, stem, ext)
  {
    if LastDot(name, |name|) >= 0 {
      var stem, ext := LastDotCuts(name);
      assert Suffixed(rules, name, stem, ext) <==> Lower(name[LastDot(name, |name|)..]) in rules.suffixes;
    }
    if stem, ext :| Suffixed(rules, name, stem, ext) { LastDotIs(name, stem, ext); }
  }

  /** The tree holds an included file with this content at this path, outside excluded directories. */
  ghost predicate HasFile(rules: Rules, nodes: seq<Node>, path: Path, content: Bytes)
    decreases |path|
  {
    if path == [] then false
    else if |path| == 1 then File(path[0], content) in nodes && Included(rules, path[0])
    else
      path[0] !in rules.excludes &&
      exists d :: d in nodes && d.Dir? && d.name == path[0] && HasFile(rules, d.listing, path[1..], content)
  }

  /** Two trees with the same included files, however listed. */
  ghost predicate SameFiles(rules: Rules, t: seq<Node>, u: seq<Node>) {
    forall path, content :: HasFile(rules, t, path, content) <==> HasFile(rules, u, path, content)
  }

  // ----- the files in walk order -----

  datatype Entry = Entry(path: Path, content: Bytes)

  function Below(rules: Rules, dir: Path, node: Node): seq<Entry>
    decreases node, 0
  {
    match node
    case File(name, content) => if Included(rules, name) then [Entry(dir + [name], content)] else []
    case Dir(name, listing) =>
      if name in rules.excludes then [] else Collect(rules, dir + [name], listing)
    case _ => []
  }

  function Collect(rules: Rules, dir: Path, nodes: seq<Node>): seq<Entry>
    decreases nodes, 1
  {
    if nodes == [] then [] else Below(rules, dir, nodes[0]) + Collect(rules, dir, nodes[1..])
  }

  lemma {:induction false} CollectMember(rules: Rules, dir: Path, nodes: seq<Node>, e: Entry)
    ensures e in Collect(rules, dir, nodes) <==> exists n :: n in nodes && e in Below(rules, dir, n)
  {
    if nodes != [] {
      CollectMember(rules, dir, nodes[1..], e);
      assert forall n :: n in nodes <==> n == nodes[0] || n in nodes[1..];
      if e in Below(rules, dir, nodes[0]) { assert nodes[0] in nodes; }
    }
  }

  /** The walk collects exactly the files the tree has. */
  lemma {:induction false} CollectIsHasFile(rules: Rules, dir: Path, nodes: seq<Node>, path: Path, content: Bytes)
    ensures Entry(dir + path, content) in Collect(rules, dir, nodes) <==> HasFile(rules, nodes, path, content)
    decreases nodes
  {
    var e := Entry(dir + path, content);
    CollectMember(rules, dir, nodes, e);
    forall n | n in nodes
      ensures e in Below(rules, dir, n) <==>
        (path == [n.name] && n == File(n.name, content) && Included(rules, n.name))
        || (|path| > 1 && n.Dir? && n.name == path[0] && n.name !in rules.excludes
            && HasFile(rules, n.listing, path[1..], content))
    {
      BelowIsHasFile(rules, dir, n, path, content);
    }
  }

  lemma {:induction false} BelowIsHasFile(rules: Rules, dir: Path, n: Node, path: Path, content: Bytes)
    ensures Entry(dir + path, content) in Below(rules, dir, n) <==>
      (path == [n.name] && n == File(n.name, content) && Included(rules, n.name))
      || (|path| > 1 && n.Dir? && n.name == path[0] && n.name !in rules.excludes
          && HasFile(rules, n.listing, path[1..], content))
    decreases n
  {
    var e := Entry(dir + path, content);
    match n
    case File(name, c) =>
      if dir + path == dir + [name] { assert path == (dir + path)[|dir|..] == (dir + [name])[|dir|..] == [name]; }
    case Dir(name, listing) =>
      if name !in rules.excludes {
        if path != [] && path[0] == name {
          assert dir + path == (dir + [name]) + path[1..];
          CollectIsHasFile(rules, dir + [name], listing, path[1..], content);
        } else {
          PathsStayBelow(rules, dir + [name], listing);
          PrefixHead(dir, name, path);
        }
      }
    case _ =>
  }

  lemma {:induction false} PathsStayBelow(rules: Rules, dir: Path, nodes: seq<Node>)
    ensures forall e | e in Collect(rules, dir, nodes) :: dir <= e.path && |dir| < |e.path|
    decreases nodes
  {
    if nodes != [] {
      PathsStayBelow(rules, dir, nodes[1..]);
      match nodes[0]
      case Dir(name, listing) =>
        PathsStayBelow(rules, dir + [name], listing);
      case _ =>
    }
  }

  lemma PrefixHead(dir: Path, name: string, path: Path)
    ensures dir + [name] <= dir + path ==> path != [] && path[0] == name
  {
    if dir + [name] <= dir + path { assert (dir + path)[|dir|] == (dir + [name])[|dir|]; }
  }

  // ----- each file once -----

  /** Names differ within a directory; no name is empty or holds a slash or a NUL. */
  ghost predicate WellFormed(nodes: seq<Node>)
    decreases nodes
  {
    && (forall i, j | 0 <= i < j < |nodes| :: nodes[i].name != nodes[j].name)
    && (forall n | n in nodes :: n.name != "" && '/' !in n.name && '\0' !in n.name)
    && (forall n | n in nodes && n.Dir? :: WellFormed(n.listing))
  }

  ghost predicate PathsDiffer(s: seq<Entry>) {
    forall i, j | 0 <= i < j < |s| :: s[i].path != s[j].path
  }

  lemma PathsDifferConcat(a: seq<Entry>, b: seq<Entry>)
    requires PathsDiffer(a) && PathsDiffer(b) && forall e, f | e in a && f in b :: e.path != f.path
    ensures PathsDiffer(a + b)
  {
    forall i, j | 0 <= i < j < |a + b| ensures (a + b)[i].path != (a + b)[j].path {
      if i < |a| <= j { assert a[i] in a && b[j - |a|] in b; }
    }
  }

  /** No path is collected twice. */
  lemma {:induction false} PathsDistinct(rules: Rules, dir: Path, nodes: seq<Node>)
    requires WellFormed(nodes)
    ensures PathsDiffer(Collect(rules, dir, nodes))
    decreases nodes
  {
    if nodes != [] {
      var head, tail := Below(rules, dir, nodes[0]), Collect(rules, dir, nodes[1..]);
      assert forall n | n in nodes[1..] :: n in nodes;
      PathsDistinct(rules, dir, nodes[1..]);
      if nodes[0].Dir? {
        assert nodes[0] in nodes;
        PathsDistinct(rules, dir + [nodes[0].name], nodes[0].listing);
      }
      forall e, f | e in head && f in tail ensures e.path != f.path { HeadApart(rules, dir, nodes, e, f); }
      PathsDifferConcat(head, tail);
    }
  }

  lemma BelowStartsWithName(rules: Rules, dir: Path, n: Node, e: Entry)
    requires e in Below(rules, dir, n)
    ensures |e.path| > |dir| && e.path[|dir|] == n.name
  {
    if n.Dir? { PathsStayBelow(rules, dir + [n.name], n.listing); assert (dir + [n.name])[|dir|] == n.name; }
  }

  lemma HeadApart(rules: Rules, dir: Path, nodes: seq<Node>, e: Entry, f: Entry)
    requires WellFormed(nodes) && nodes != []
    requires e in Below(rules, dir, nodes[0]) && f in Collect(rules, dir, nodes[1..])
    ensures e.path != f.path
  {
    CollectMember(rules, dir, nodes[1..], f);
    var n :| n in nodes[1..] && f in Below(rules, dir, n);
    BelowStartsWithName(rules, dir, nodes[0], e);
    BelowStartsWithName(rules, dir, n, f);
  }

  // ----- the sorted list -----

  predicate EntryLe(a: Entry, b: Entry) { PathLe(a.path, b.path) }

  lemma EntryOrdering()
    ensures Ordering(EntryLe)
  {
    forall a, b ensures EntryLe(a, b) || EntryLe(b, a) { PathLeTotal(a.path, b.path); }
    forall a, b, c | EntryLe(a, b) && EntryLe(b, c) ensures EntryLe(a, c) { PathLeTrans(a.path, b.path, c.path); }
  }

  function SourceFiles(rules: Rules, root: seq<Node>): seq<Entry> {
    SortBy(EntryLe, Collect(rules, [], root))
  }

  lemma SourceFilesMember(rules: Rules, root: seq<Node>, e: Entry)
    ensures e in SourceFiles(rules, root) <==> HasFile(rules, root, e.path, e.content)
  {
    SameElements(SourceFiles(rules, root), Collect(rules, [], root), e);
    assert [] + e.path == e.path;
    CollectIsHasFile(rules, [], root, e.path, e.content);
  }

  /** The files come by path, component by component. */
  lemma FilesInOrder(rules: Rules, root: seq<Node>, i: nat, j: nat)
    requires i < j < |SourceFiles(rules, root)|
    ensures PathEarlier(SourceFiles(rules, root)[i].path, SourceFiles(rules, root)[j].path)
  {
    EntryOrdering();
    SortBySorted(EntryLe, Collect(rules, [], root));
    PathLeIff(SourceFiles(rules, root)[i].path, SourceFiles(rules, root)[j].path);
  }

  lemma CollectDistinct(rules: Rules, root: seq<Node>)
    requires WellFormed(root)
    ensures NoDup(Collect(rules, [], root)) && KeysDistinct(EntryLe, Collect(rules, [], root))
  {
    var c := Collect(rules, [], root);
    PathsDistinct(rules, [], root);
    forall a, b | a in c && b in c && EntryLe(a, b) && EntryLe(b, a) ensures a == b {
      PathLeAntisym(a.path, b.path);
    }
  }

  /** The walk's result is the sorted list of the tree's files, each once; it depends on nothing else. */
  lemma SourceFilesDependOnContentsOnly(rules: Rules, t: seq<Node>, u: seq<Node>)
    requires WellFormed(t) && WellFormed(u)
    ensures NoDup(SourceFiles(rules, t)) && Sorted(EntryLe, SourceFiles(rules, t))
    ensures SourceFiles(rules, t) == SourceFiles(rules, u) <==> SameFiles(rules, t, u)
  {
    CollectDistinct(rules, t);
    CollectDistinct(rules, u);
    EntryOrdering();
    NoDupSort(EntryLe, Collect(rules, [], t));
    SortBySorted(EntryLe, Collect(rules, [], t));
    forall e: Entry
      ensures e in SourceFiles(rules, t) <==> HasFile(rules, t, e.path, e.content)
      ensures e in SourceFiles(rules, u) <==> HasFile(rules, u, e.path, e.content)
    {
      SourceFilesMember(rules, t, e);
      SourceFilesMember(rules, u, e);
    }
    if SourceFiles(rules, t) == SourceFiles(rules, u) { SameListSameFiles(rules, t, u); }
    if SameFiles(rules, t, u) { SameFilesSameList(rules, t, u); }
  }

  lemma SameListSameFiles(rules: Rules, t: seq<Node>, u: seq<Node>)
    requires SourceFiles(rules, t) == SourceFiles(rules, u)
    ensures SameFiles(rules, t, u)
  {
    forall path, content ensures HasFile(rules, t, path, content) <==> HasFile(rules, u, path, content) {
      SourceFilesMember(rules, t, Entry(path, content));
      SourceFilesMember(rules, u, Entry(path, content));
    }
  }

  lemma SameFilesSameList(rules: Rules, t: seq<Node>, u: seq<Node>)
    requires WellFormed(t) && WellFormed(u) && SameFiles(rules, t, u)
    ensures SourceFiles(rules, t) == SourceFiles(rules, u)
  {
    var a, b := Collect(rules, [], t), Collect(rules, [], u);
    CollectDistinct(rules, t);
    CollectDistinct(rules, u);
    EntryOrdering();
    forall e ensures e in a <==> e in b {
      SourceFilesMember(rules, t, e);
      SourceFilesMember(rules, u, e);
      SameElements(SourceFiles(rules, t), a, e);
      SameElements(SourceFiles(rules, u), b, e);
    }
    SameSetSameMultiset(a, b);
    SortForgetsOrder(EntryLe, a, b);
  }

  // ----- the framed stream -----

  function Posix(path: Path): string {
    if path == [] then "" else if |path| == 1 then path[0] else path[0] + "/" + Posix(path[1..])
  }

  /** One record: path, NUL, 64 characters, newline. */
  function Record(rel: string, hash: string): string { rel + "\0" + hash + "\n" }

  function Stream(sha: Bytes -> string, files: seq<Entry>): string {
    if files == [] then "" else Record(Posix(files[0].path), sha(files[0].content)) + Stream(sha, files[1..])
  }

  ghost predicate HexDigest(sha: Bytes -> string) { forall b :: |sha(b)| == 64 }

  /** The frame is unambiguous: record by record, path and hash can be read back. */
  lemma RecordsCut(r: string, h: string, x: string, r': string, h': string, y: string)
    requires '\0' !in r && '\0' !in r' && |h| == |h'| && Record(r, h) + x == Record(r', h') + y
    ensures r == r' && h == h' && x == y
  {
    assert Record(r, h) + x == r + ['\0'] + (h + "\n" + x);
    assert Record(r', h') + y == r' + ['\0'] + (h' + "\n" + y);
    CutAt('\0', r, h + "\n" + x, r', h' + "\n" + y);
    var s := h + "\n" + x;
    assert h == s[..|h|] == h' && x == s[|h| + 1..] == y;
  }

  ghost predicate CleanPath(path: Path) {
    path != [] && forall name | name in path :: name != "" && '/' !in name && '\0' !in name
  }

  lemma {:induction false} PosixNulFree(path: Path)
    requires CleanPath(path)
    ensures '\0' !in Posix(path) && Posix(path) != ""
  {
    assert path[0] in path;
    if |path| > 1 {
      assert forall name | name in path[1..] :: name in path;
      PosixNulFree(path[1..]);
    }
  }

  lemma {:induction false} PosixInjective(p: Path, q: Path)
    requires CleanPath(p) && CleanPath(q) && Posix(p) == Posix(q)
    ensures p == q
  {
    assert p[0] in p && q[0] in q;
    if |p| > 1 { assert Posix(p)[|p[0]|] == '/'; }
    if |q| > 1 { assert Posix(q)[|q[0]|] == '/'; }
    if |p| > 1 && |q| > 1 {
      assert forall name | name in p[1..] :: name in p;
      assert forall name | name in q[1..] :: name in q;
      assert Posix(p) == p[0] + ['/'] + Posix(p[1..]) && Posix(q) == q[0] + ['/'] + Posix(q[1..]);
      CutAt('/', p[0], Posix(p[1..]), q[0], Posix(q[1..]));
      PosixInjective(p[1..], q[1..]);
      assert p == [p[0]] + p[1..] && q == [q[0]] + q[1..];
    } else {
      assert '/' in Posix(p) <==> |p| > 1;
      assert '/' in Posix(q) <==> |q| > 1;
    }
  }

  /** Equal streams list the same paths with the same hashes. */
  lemma {:induction false} StreamInjective(sha: Bytes -> string, a: seq<Entry>, b: seq<Entry>)
    requires HexDigest(sha) && Stream(sha, a) == Stream(sha, b)
    requires forall e | e in a + b :: CleanPath(e.path)
    ensures |a| == |b| && forall i | 0 <= i < |a| :: a[i].path == b[i].path && sha(a[i].content) == sha(b[i].content)
    decreases |a|
  {
    if a != [] && b != [] {
      assert a[0] in a + b && b[0] in a + b;
      assert forall e | e in a[1..] + b[1..] :: e in a + b;
      PosixNulFree(a[0].path);
      PosixNulFree(b[0].path);
      RecordsCut(Posix(a[0].path), sha(a[0].content), Stream(sha, a[1..]),
                 Posix(b[0].path), sha(b[0].content), Stream(sha, b[1..]));
      PosixInjective(a[0].path, b[0].path);
      StreamInjective(sha, a[1..], b[1..]);
    }
  }

  lemma {:induction false} HasFileClean(rules: Rules, nodes: seq<Node>, path: Path, content: Bytes)
    requires WellFormed(nodes) && HasFile(rules, nodes, path, content)
    ensures CleanPath(path)
    decreases |path|
  {
    if |path| > 1 {
      var d :| d in nodes && d.Dir? && d.name == path[0] && HasFile(rules, d.listing, path[1..], content);
      HasFileClean(rules, d.listing, path[1..], content);
      assert path == [path[0]] + path[1..];
    }
  }

  /** The file hash gives no two of these files' different contents one digest. */
  ghost predicate TellsApart(sha: Bytes -> string, files: seq<Entry>) {
    forall e, f | e in files && f in files :: sha(e.content) == sha(f.content) ==> e.content == f.content
  }

  /** The fingerprint's input identifies the tree: same files give one stream, and one stream gives
      the same files as far as the file hash can tell contents apart. */
  lemma StreamIdentifiesTree(rules: Rules, sha: Bytes -> string, t: seq<Node>, u: seq<Node>)
    requires WellFormed(t) && WellFormed(u) && HexDigest(sha)
    requires TellsApart(sha, SourceFiles(rules, t) + SourceFiles(rules, u))
    ensures Stream(sha, SourceFiles(rules, t)) == Stream(sha, SourceFiles(rules, u)) <==> SameFiles(rules, t, u)
  {
    var a, b := SourceFiles(rules, t), SourceFiles(rules, u);
    SourceFilesDependOnContentsOnly(rules, t, u);
    if Stream(sha, a) == Stream(sha, b) {
      forall e: Entry | e in a + b ensures CleanPath(e.path) {
        SourceFilesMember(rules, t, e);
        SourceFilesMember(rules, u, e);
        if e in a { HasFileClean(rules, t, e.path, e.content); } else { HasFileClean(rules, u, e.path, e.content); }
      }
      StreamInjective(sha, a, b);
      forall i | 0 <= i < |a| ensures a[i] == b[i] { assert a[i] in a + b && b[i] in a + b; }
      assert a == b;
    }
  }

  // ----- the walk -----

  /** A directory waiting on the stack: its path, and its entries if it can be listed. */
  datatype Pending = Pending(path: Path, node: Node)

  function CollectStack(rules: Rules, stack: seq<Pending>): seq<Entry> {
    if stack == [] then []
    else
      var top := stack[|stack| - 1];
      CollectStack(rules, stack[..|stack| - 1]) + if top.node.Dir? then Collect(rules, top.path, top.node.listing) else []
  }

  function Size(nodes: seq<Node>): nat
    decreases nodes, 1
  {
    if nodes == [] then 0 else NodeSize(nodes[0]) + Size(nodes[1..])
  }

  function NodeSize(n: Node): nat
    decreases n, 0
  {
    1 + if n.Dir? then Size(n.listing) else 0
  }

  function StackSize(stack: seq<Pending>): nat {
    if stack == [] then 0 else StackSize(stack[..|stack| - 1]) + NodeSize(stack[|stack| - 1].node)
  }

  lemma PushCollects(rules: Rules, stack: seq<Pending>, p: Pending)
    ensures CollectStack(rules, stack + [p]) ==
      CollectStack(rules, stack) + if p.node.Dir? then Collect(rules, p.path, p.node.listing) else []
    ensures StackSize(stack + [p]) == StackSize(stack) + NodeSize(p.node)
  {
    assert (stack + [p])[..|stack|] == stack;
  }

  /** The scan of one directory: files go to `out`, directories not excluded go on the stack. */
  method ScanDirectory(rules: Rules, dir: Path, entries: seq<Node>, out: seq<Entry>, stack: seq<Pending>)
    returns (out': seq<Entry>, stack': seq<Pending>)
    ensures multiset(out' + CollectStack(rules, stack')) == multiset(out + CollectStack(rules, stack) + Collect(rules, dir, entries))
    ensures StackSize(stack') <= StackSize(stack) + Size(entries)
  {
    out', stack' := out, stack;
    var i := 0;
    assert entries[0..] == entries;
    while i < |entries|
      invariant 0 <= i <= |entries|
      invariant multiset(out') + multiset(CollectStack(rules, stack')) + multiset(Collect(rules, dir, entries[i..]))
             == multiset(out) + multiset(CollectStack(rules, stack)) + multiset(Collect(rules, dir, entries))
      invariant StackSize(stack') + Size(entries[i..]) <= StackSize(stack) + Size(entries)
    {
      var entry := entries[i];
      assert entries[i..][1..] == entries[i + 1..];
      assert Collect(rules, dir, entries[i..]) == Below(rules, dir, entry) + Collect(rules, dir, entries[i + 1..]);
      i := i + 1;
      if entry.Dir? || entry.Unlistable? {
        if entry.name in rules.excludes { continue; }
        PushCollects(rules, stack', Pending(dir + [entry.name], entry));
        stack' := stack' + [Pending(dir + [entry.name], entry)];
        continue;
      }
      if entry.File? && Included(rules, entry.name) {
        out' := out' + [Entry(dir + [entry.name], entry.content)];
      }
    }
    assert entries[i..] == [];
  }

  function Entries(root: Node): seq<Node> { if root.Dir? then root.listing else [] }

  /** Whatever order the walk met the files in, sorting leaves one list. */
  lemma WalkOrderForgotten(rules: Rules, out: seq<Entry>, root: seq<Node>)
    requires WellFormed(root) && multiset(out) == multiset(Collect(rules, [], root))
    ensures SortBy(EntryLe, out) == SourceFiles(rules, root)
  {
    CollectDistinct(rules, root);
    EntryOrdering();
    SortForgetsOrder(EntryLe, Collect(rules, [], root), out);
  }

  lemma PopCollects(rules: Rules, out: seq<Entry>, stack: seq<Pending>)
    requires stack != []
    ensures var top, rest := stack[|stack| - 1], stack[..|stack| - 1];
      && multiset(out + CollectStack(rules, stack))
         == multiset(out + CollectStack(rules, rest) + Collect(rules, top.path, Entries(top.node)))
      && StackSize(stack) == StackSize(rest) + 1 + Size(Entries(top.node))
  {
    var top, rest := stack[|stack| - 1], stack[..|stack| - 1];
    assert stack == rest + [top];
    PushCollects(rules, rest, top);
  }

  method IterSourceFiles(rules: Rules, root: Node) returns (files: seq<Entry>)
    requires root.Dir? || root.Unlistable?
    ensures multiset(files) == multiset(Collect(rules, [], Entries(root)))
    ensures WellFormed(Entries(root)) ==> files == SourceFiles(rules, Entries(root))
  {
    var out: seq<Entry> := [];
    var stack := [Pending([], root)];
    ghost var all := multiset(Collect(rules, [], Entries(root)));
    PopCollects(rules, [], stack);
    while stack != []
      invariant multiset(out + CollectStack(rules, stack)) == all
      decreases StackSize(stack)
    {
      PopCollects(rules, out, stack);
      var current := stack[|stack| - 1];
      stack := stack[..|stack| - 1];
      out, stack := ScanDirectory(rules, current.path, Entries(current.node), out, stack);
    }
    assert out + CollectStack(rules, []) == out;
    files := SortBy(EntryLe, out);
    if WellFormed(Entries(root)) { WalkOrderForgotten(rules, out, Entries(root)); }
  }

  datatype SourceFingerprint = SourceFingerprint(hash: string, fileCount: nat, totalBytes: nat)

  ghost function TotalBytes(files: seq<Entry>): nat {
    if files == [] then 0 else TotalBytes(files[..|files| - 1]) + |files[|files| - 1].content|
  }

  lemma {:induction false} StreamAppend(sha: Bytes -> string, a: seq<Entry>, e: Entry)
    ensures Stream(sha, a + [e]) == Stream(sha, a) + Record(Posix(e.path), sha(e.content))
  {
    if a == [] {
      assert a + [e] == [e] && Stream(sha, [e][1..]) == "";
    } else {
      assert (a + [e])[1..] == a[1..] + [e];
      StreamAppend(sha, a[1..], e);
    }
  }

  lemma PrefixGrows(sha: Bytes -> string, files: seq<Entry>, i: nat)
    requires i < |files|
    ensures Stream(sha, files[..i + 1]) == Stream(sha, files[..i]) + Record(Posix(files[i].path), sha(files[i].content))
    ensures TotalBytes(files[..i + 1]) == TotalBytes(files[..i]) + |files[i].content|
  {
    assert files[..i + 1] == files[..i] + [files[i]];
    assert files[..i + 1][..i] == files[..i];
    StreamAppend(sha, files[..i], files[i]);
  }

  /** `sha` hashes file contents and `digest` the framed stream; both are SHA-256 to hex. */
  method ComputeFingerprint(rules: Rules, root: Node, sha: Bytes -> string, digest: string -> string)
    returns (r: SourceFingerprint)
    requires root.Dir? || root.Unlistable?
    ensures WellFormed(Entries(root)) ==>
      var files := SourceFiles(rules, Entries(root));
      r == SourceFingerprint(digest(Stream(sha, files)), |files|, TotalBytes(files))
  {
    var files := IterSourceFiles(rules, root);
    var fed := "";
    var totalBytes: nat := 0;
    var i := 0;
    while i < |files|
      invariant 0 <= i <= |files|
      invariant fed == Stream(sha, files[..i]) && totalBytes == TotalBytes(files[..i])
    {
      PrefixGrows(sha, files, i);
      fed := fed + Record(Posix(files[i].path), sha(files[i].content));
      totalBytes := totalBytes + |files[i].content|;
      i := i + 1;
    }
    assert files[..i] == files;
    r := SourceFingerprint(digest(fed), |files|, totalBytes);
  }
}
