/** engine/cache/store.py: a namespaced byte cache on disk.  Paths are lists of
    components below the store's root. */
module Store {
  import A = Alphabet
  import opened Sorting
  import opened Wrappers

  datatype Result<+T> = Ok(value: T) | CacheError

  type Path = seq<string>
  type Bytes = seq<bv8>

  // ----- keys and where they live -----

  predicate Lower(c: char) { 'a' <= c <= 'z' || '0' <= c <= '9' }

  predicate KeyChar(c: char) { Lower(c) || 'A' <= c <= 'Z' || c in "._:-" }

  /** `$` in both patterns also matches before one trailing newline. */
  function Chomp(s: string): string {
    if s != [] && s[|s| - 1] == '\n' then s[..|s| - 1] else s
  }

  predicate ValidNamespace(ns: string) {
    var n := Chomp(ns);
    n != [] && Lower(n[0]) && forall c | c in n :: Lower(c) || c in "._-"
  }

  predicate ValidKey(key: string) {
    var k := Chomp(key);
    k != [] && forall c | c in k :: KeyChar(c)
  }

  predicate Valid(ns: string, key: string) { ValidNamespace(ns) && ValidKey(key) }

  const KEY_CHARS := A.CAPITALS + A.SMALL + A.DIGITS + "._:-"
  const NAMESPACE_STARTS := A.SMALL + A.DIGITS
  const NAMESPACE_CHARS := NAMESPACE_STARTS + "._-"

  /** What the patterns accept: such a text, on its own or with one newline behind it. */
  ghost predicate Matches(s: string, body: string) { s == body || s == body + "\n" }

  ghost predicate KeyBody(k: string) { k != "" && A.OnlyOf(k, KEY_CHARS) }

  ghost predicate KeyTold(key: string) { exists k: string :: Matches(key, k) && KeyBody(k) }

  ghost predicate NamespaceBody(n: string) { n != "" && n[0] in NAMESPACE_STARTS && A.OnlyOf(n, NAMESPACE_CHARS) }

  ghost predicate NamespaceTold(ns: string) { exists n: string :: Matches(ns, n) && NamespaceBody(n) }

  lemma ChompTold(s: string, body: string)
    requires '\n' !in body
    ensures Chomp(s) == body <==> Matches(s, body)
  {}

  lemma LowerIff(c: char)
    ensures Lower(c) <==> c in NAMESPACE_STARTS
    ensures Lower(c) || c in "._-" <==> c in NAMESPACE_CHARS
  {
    A.SmallIff(c);
    A.DigitIff(c);
  }

  lemma KeyCharIff(c: char)
    ensures KeyChar(c) <==> c in KEY_CHARS
  {
    LowerIff(c);
    A.CapitalIff(c);
  }

  lemma KeyBodyIff(k: string)
    ensures KeyBody(k) <==> k != "" && forall c | c in k :: KeyChar(c)
    ensures KeyBody(k) ==> '\n' !in k
  {
    forall c ensures KeyChar(c) <==> c in KEY_CHARS { KeyCharIff(c); }
    assert !KeyChar('\n');
  }

  lemma NamespaceBodyIff(n: string)
    ensures NamespaceBody(n) <==> n != "" && Lower(n[0]) && forall c | c in n :: Lower(c) || c in "._-"
    ensures NamespaceBody(n) ==> '\n' !in n
  {
    forall c ensures Lower(c) <==> c in NAMESPACE_STARTS { LowerIff(c); }
    forall c ensures Lower(c) || c in "._-" <==> c in NAMESPACE_CHARS { LowerIff(c); }
    assert !Lower('\n');
  }

  /** A key is letters, digits, dots, underscores, colons and hyphens. */
  lemma KeyIff(key: string)
    ensures ValidKey(key) <==> KeyTold(key)
  {
    KeyBodyIff(Chomp(key));
    if k :| Matches(key, k) && KeyBody(k) {
      KeyBodyIff(k);
      ChompTold(key, k);
    }
    if ValidKey(key) { assert Matches(key, Chomp(key)); }
  }

  /** A namespace starts with a small letter or a digit. */
  lemma NamespaceIff(ns: string)
    ensures ValidNamespace(ns) <==> NamespaceTold(ns)
  {
    NamespaceBodyIff(Chomp(ns));
    if n :| Matches(ns, n) && NamespaceBody(n) {
      NamespaceBodyIff(n);
      ChompTold(ns, n);
    }
    if ValidNamespace(ns) { assert Matches(ns, Chomp(ns)); }
  }

  function Shard(key: string): string { if |key| < 2 then key else key[..2] }

  function Rest(key: string): string { if |key| < 2 then "" else key[2..] }

  function FileName(key: string): string { (if Rest(key) == "" then "_" else Rest(key)) + ".bin" }

  /** What a path denotes: `.` stays put and `..` climbs. */
  function Resolve(done: Path, parts: Path): Path
    decreases parts
  {
    if parts == [] then done
    else if parts[0] == "." then Resolve(done, parts[1..])
    else if parts[0] == ".." then Resolve(if done == [] then [] else done[..|done| - 1], parts[1..])
    else Resolve(done + [parts[0]], parts[1..])
  }

  function Location(ns: string, key: string): Path {
    Resolve([], [ns, Shard(key), FileName(key)])
  }

  predicate Climbs(key: string) { |key| >= 2 && key[..2] == ".." }

  /** Keys that the sharding keeps apart. */
  predicate Regular(key: string) { |key| >= 3 && !Climbs(key) }

  lemma NamespaceIsPlain(ns: string)
    requires ValidNamespace(ns)
    ensures ns != "." && ns != ".."
  {
    assert ns[0] == Chomp(ns)[0];
  }

  lemma FileNameIsPlain(key: string)
    ensures FileName(key) != "." && FileName(key) != ".."
  {
    assert |FileName(key)| >= 5;
  }

  lemma ResolveLast(done: Path, name: string)
    requires name != "." && name != ".."
    ensures Resolve(done, [name]) == done + [name]
  {
    assert [name][1..] == [];
    assert Resolve(done + [name], []) == done + [name];
  }

  lemma LocationShape(ns: string, key: string)
    requires ValidNamespace(ns)
    ensures Location(ns, key) ==
      if Shard(key) == "." then [ns, FileName(key)]
      else if Shard(key) == ".." then [FileName(key)]
      else [ns, Shard(key), FileName(key)]
  {
    NamespaceIsPlain(ns);
    FileNameIsPlain(key);
    var parts := [ns, Shard(key), FileName(key)];
    assert parts[1..] == [Shard(key), FileName(key)];
    assert [Shard(key), FileName(key)][1..] == [FileName(key)];
    assert [] + [ns] == [ns] && [ns][..0] == [];
    ResolveLast([ns], FileName(key));
    ResolveLast([], FileName(key));
    ResolveLast([ns, Shard(key)], FileName(key));
    assert [ns] + [Shard(key)] == [ns, Shard(key)];
    assert Resolve([], parts) == Resolve([] + [ns], parts[1..]) == Resolve([ns], [Shard(key), FileName(key)]);
    var two := [Shard(key), FileName(key)];
    assert Resolve([ns], two) ==
      if two[0] == "." then Resolve([ns], two[1..])
      else if two[0] == ".." then Resolve([ns][..0], two[1..])
      else Resolve([ns] + [two[0]], two[1..]);
  }

  /** Where each pair is kept: the first two characters name a directory, the rest a file. */
  lemma LocationTold(ns: string, key: string)
    requires Valid(ns, key)
    ensures |key| >= 3 && key[..2] != ".." ==> Location(ns, key) == [ns, key[..2], key[2..] + ".bin"]
    ensures |key| >= 3 && key[..2] == ".." ==> Location(ns, key) == [key[2..] + ".bin"]
    ensures |key| <= 2 && key != "." && key != ".." ==> Location(ns, key) == [ns, key, "_.bin"]
    ensures key == "." ==> Location(ns, key) == [ns, "_.bin"]
    ensures key == ".." ==> Location(ns, key) == ["_.bin"]
  {
    LocationShape(ns, key);
    if |key| == 2 { assert key[..2] == key && key[2..] == ""; }
    assert |key| >= 3 ==> key[2..] != "";
    assert "_" + ".bin" == "_.bin";
  }

  /** The two ways distinct pairs share a file. */
  predicate Clash(ns: string, key: string, ns': string, key': string) {
    || (Climbs(key) && Climbs(key') && FileName(key) == FileName(key'))
    || (ns == ns' && |key| == 2 && key' == key + "_")
    || (ns == ns' && |key'| == 2 && key == key' + "_")
  }

  lemma FileNamesAgree(key: string, key': string)
    requires Shard(key) == Shard(key') && FileName(key) == FileName(key')
    ensures key == key' || (|key| == 2 && key' == key + "_") || (|key'| == 2 && key == key' + "_")
  {
    var r := if Rest(key) == "" then "_" else Rest(key);
    var r' := if Rest(key') == "" then "_" else Rest(key');
    assert r == FileName(key)[..|FileName(key)| - 4] && r' == FileName(key')[..|FileName(key')| - 4];
    assert key == Shard(key) + Rest(key) && key' == Shard(key') + Rest(key');
  }

  /** Two valid pairs share a file exactly when they are equal or clash. */
  lemma SharedFileIff(ns: string, key: string, ns': string, key': string)
    requires Valid(ns, key) && Valid(ns', key')
    ensures Location(ns, key) == Location(ns', key') <==> (ns == ns' && key == key') || Clash(ns, key, ns', key')
  {
    LocationShape(ns, key);
    LocationShape(ns', key');
    var a, b := Location(ns, key), Location(ns', key');
    if a == b {
      assert |a| == |b| && a[|a| - 1] == b[|b| - 1] && a[0] == b[0];
      if |a| == 3 {
        assert a[1] == b[1];
        FileNamesAgree(key, key');
      }
    }
    LongerKey(key, key');
    LongerKey(key', key);
  }

  lemma LongerKey(key: string, key': string)
    ensures |key| == 2 && key' == key + "_" ==> Shard(key') == Shard(key) && FileName(key') == FileName(key)
  {
    if |key| == 2 && key' == key + "_" { assert key'[..2] == key && key'[2..] == "_"; }
  }

  /** In particular regular keys never share one. */
  lemma RegularKeysApart(ns: string, key: string, ns': string, key': string)
    requires Valid(ns, key) && Valid(ns', key') && Regular(key) && Regular(key')
    ensures Location(ns, key) == Location(ns', key') ==> ns == ns' && key == key'
  {
    SharedFileIff(ns, key, ns', key');
  }

  // ----- the store as a map from pairs to bytes -----

  predicate IsBin(name: string) { |name| > 4 && name[|name| - 4..] == ".bin" }

  /** A suffix needs a stem: `.bin` alone is a hidden file without one. */
  lemma BinIff(name: string)
    ensures IsBin(name) <==> exists stem :: stem != "" && name == stem + ".bin"
  {
    if IsBin(name) {
      var stem := name[..|name| - 4];
      assert stem != "" && name == stem + ".bin";
    }
    if stem :| stem != "" && name == stem + ".bin" { assert name[|name| - 4..] == ".bin"; }
  }

  /** Paths of regular entries, and the pair each one holds. */
  predicate IsEntry(p: Path) {
    && |p| == 3 && ValidNamespace(p[0]) && |p[1]| == 2 && IsBin(p[2])
    && ValidKey(KeyAt(p)) && Regular(KeyAt(p))
  }

  function KeyAt(p: Path): string
    requires |p| == 3 && IsBin(p[2])
  {
    p[1] + p[2][..|p[2]| - 4]
  }

  lemma EntryOfKey(ns: string, key: string)
    requires Valid(ns, key) && Regular(key)
    ensures var p := Location(ns, key); IsEntry(p) && p[0] == ns && KeyAt(p) == key
  {
    LocationShape(ns, key);
    assert Shard(key) != "." && Shard(key) != "..";
    assert FileName(key) == key[2..] + ".bin";
    assert FileName(key)[..|FileName(key)| - 4] == key[2..];
    assert key[..2] + key[2..] == key;
  }

  ghost function FileSize(files: map<Path, Bytes>, p: Path): nat { if p in files then |files[p]| else 0 }

  ghost function SizeOf(s: set<Path>, files: map<Path, Bytes>): nat {
    if s == {} then 0 else var p :| p in s; FileSize(files, p) + SizeOf(s - {p}, files)
  }

  lemma {:induction false} SizeWithout(s: set<Path>, files: map<Path, Bytes>, p: Path)
    requires p in s
    ensures SizeOf(s, files) == FileSize(files, p) + SizeOf(s - {p}, files)
  {
    var q :| q in s && SizeOf(s, files) == FileSize(files, q) + SizeOf(s - {q}, files);
    if q != p {
      SizeWithout(s - {q}, files, p);
      SizeWithout(s - {p}, files, q);
      assert s - {q} - {p} == s - {p} - {q};
    }
  }

  /** The live regular pairs on a disk. */
  ghost function ViewOf(files: map<Path, Bytes>): map<(string, string), Bytes> {
    map pair: (string, string) |
      pair in (set p | p in files && IsEntry(p) :: (p[0], KeyAt(p))) && Location(pair.0, pair.1) in files
      :: files[Location(pair.0, pair.1)]
  }

  lemma ViewAt(files: map<Path, Bytes>, pair: (string, string))
    ensures pair in ViewOf(files) <==> Valid(pair.0, pair.1) && Regular(pair.1) && Location(pair.0, pair.1) in files
    ensures pair in ViewOf(files) ==> ViewOf(files)[pair] == files[Location(pair.0, pair.1)]
  {
    if Valid(pair.0, pair.1) && Regular(pair.1) { EntryOfKey(pair.0, pair.1); }
  }

  /** Two maps agree but for one key. */
  ghost predicate AgreeOff<K(!new), V>(a: map<K, V>, b: map<K, V>, at: K) {
    forall k | k != at :: (k in a <==> k in b) && (k in a && k in b ==> a[k] == b[k])
  }

  /** Changing one regular entry leaves every other regular pair's file alone. */
  lemma OtherFileKept(files: map<Path, Bytes>, now: map<Path, Bytes>, ns: string, key: string, pair: (string, string))
    requires Valid(ns, key) && Regular(key) && pair != (ns, key) && AgreeOff(now, files, Location(ns, key))
    ensures pair in ViewOf(now) <==> pair in ViewOf(files)
    ensures pair in ViewOf(now) && pair in ViewOf(files) ==> ViewOf(now)[pair] == ViewOf(files)[pair]
  {
    ViewAt(now, pair);
    ViewAt(files, pair);
    if Valid(pair.0, pair.1) && Regular(pair.1) { RegularKeysApart(ns, key, pair.0, pair.1); }
  }

  lemma MapWith<K(!new), V>(a: map<K, V>, b: map<K, V>, at: K, value: V)
    requires AgreeOff(a, b, at) && at in a && a[at] == value
    ensures a == b[at := value]
  {
    assert a.Keys == b.Keys + {at};
  }

  lemma MapWithout<K(!new), V>(a: map<K, V>, b: map<K, V>, at: K)
    requires AgreeOff(a, b, at) && at !in a
    ensures a == b - {at}
  {
    assert a.Keys == b.Keys - {at};
  }

  lemma OthersKept(files: map<Path, Bytes>, now: map<Path, Bytes>, ns: string, key: string)
    requires Valid(ns, key) && Regular(key) && AgreeOff(now, files, Location(ns, key))
    ensures AgreeOff(ViewOf(now), ViewOf(files), (ns, key))
  {
    forall pair | pair != (ns, key)
      ensures (pair in ViewOf(now) <==> pair in ViewOf(files)) && (pair in ViewOf(now) && pair in ViewOf(files) ==> ViewOf(now)[pair] == ViewOf(files)[pair])
    {
      OtherFileKept(files, now, ns, key, pair);
    }
  }

  lemma ViewAfterPut(files: map<Path, Bytes>, ns: string, key: string, value: Bytes)
    requires Valid(ns, key) && Regular(key)
    ensures ViewOf(files[Location(ns, key) := value]) == ViewOf(files)[(ns, key) := value]
  {
    var now := files[Location(ns, key) := value];
    ViewAt(now, (ns, key));
    OthersKept(files, now, ns, key);
    MapWith(ViewOf(now), ViewOf(files), (ns, key), value);
  }

  lemma ViewAfterDelete(files: map<Path, Bytes>, ns: string, key: string)
    requires Valid(ns, key) && Regular(key)
    ensures ViewOf(files - {Location(ns, key)}) == ViewOf(files) - {(ns, key)}
  {
    var now := files - {Location(ns, key)};
    ViewAt(now, (ns, key));
    OthersKept(files, now, ns, key);
    MapWithout(ViewOf(now), ViewOf(files), (ns, key));
  }

  // ----- statistics -----

  datatype CacheStats = CacheStats(entries: nat, bytes: nat)

  ghost function StatsOf(s: set<Path>, files: map<Path, Bytes>): CacheStats { CacheStats(|s|, SizeOf(s, files)) }

  predicate InNamespace(ns: string, p: Path) { |p| == 3 && p[0] == ns && IsBin(p[2]) }

  ghost function BinFiles(ns: string, files: map<Path, Bytes>): set<Path> {
    set p | p in files && InNamespace(ns, p)
  }

  /** `listing` names every file once, in some order. */
  ghost predicate Lists(listing: seq<Path>, files: map<Path, Bytes>) {
    multiset(listing) == multiset(files.Keys)
  }

  lemma ListedOnce(listing: seq<Path>, files: map<Path, Bytes>)
    requires Lists(listing, files)
    ensures NoDup(listing) && forall p :: p in listing <==> p in files
  {
    forall p ensures p in listing <==> p in files {
      assert p in listing <==> p in multiset(listing);
      assert p in files.Keys <==> p in multiset(files.Keys);
    }
    NoDupMultiset(listing);
  }

  function Bumped(was: CacheStats, ns: string, p: Path, files: map<Path, Bytes>): CacheStats
    requires p in files
  {
    if InNamespace(ns, p) then CacheStats(was.entries + 1, was.bytes + |files[p]|) else was
  }

  /** What the walk has counted after `i` files. */
  function Tally(ns: string, listing: seq<Path>, i: nat, files: map<Path, Bytes>): CacheStats
    requires i <= |listing| && forall p | p in listing :: p in files
  {
    if i == 0 then CacheStats(0, 0) else Bumped(Tally(ns, listing, i - 1, files), ns, listing[i - 1], files)
  }

  function Counted(ns: string, listing: seq<Path>, i: nat): set<Path>
    requires i <= |listing|
  {
    set p | p in listing[..i] && InNamespace(ns, p)
  }

  lemma CountedNext(ns: string, listing: seq<Path>, i: nat)
    requires i < |listing| && NoDup(listing)
    ensures Counted(ns, listing, i + 1) == Counted(ns, listing, i) + if InNamespace(ns, listing[i]) then {listing[i]} else {}
    ensures listing[i] !in Counted(ns, listing, i)
  {
    assert listing[..i + 1] == listing[..i] + [listing[i]];
  }

  lemma StatsWith(s: set<Path>, files: map<Path, Bytes>, p: Path)
    requires p !in s && p in files
    ensures StatsOf(s + {p}, files) == CacheStats(|s| + 1, SizeOf(s, files) + |files[p]|)
  {
    SizeWithout(s + {p}, files, p);
    assert s + {p} - {p} == s;
  }

  lemma NextStats(ns: string, listing: seq<Path>, i: nat, files: map<Path, Bytes>)
    requires i < |listing| && NoDup(listing) && listing[i] in files
    ensures StatsOf(Counted(ns, listing, i + 1), files) == Bumped(StatsOf(Counted(ns, listing, i), files), ns, listing[i], files)
  {
    CountedNext(ns, listing, i);
    if InNamespace(ns, listing[i]) {
      StatsWith(Counted(ns, listing, i), files, listing[i]);
    } else {
      assert Counted(ns, listing, i + 1) == Counted(ns, listing, i);
    }
  }

  lemma {:induction false} TallyIsStats(ns: string, listing: seq<Path>, i: nat, files: map<Path, Bytes>)
    requires i <= |listing| && NoDup(listing) && forall p | p in listing :: p in files
    ensures Tally(ns, listing, i, files) == StatsOf(Counted(ns, listing, i), files)
  {
    if i > 0 {
      TallyIsStats(ns, listing, i - 1, files);
      NextStats(ns, listing, i - 1, files);
    }
  }

  lemma CountedAll(ns: string, listing: seq<Path>, files: map<Path, Bytes>)
    requires Lists(listing, files)
    ensures Counted(ns, listing, |listing|) == BinFiles(ns, files)
  {
    ListedOnce(listing, files);
    assert listing[..|listing|] == listing;
  }

  class CacheStore {
    var files: map<Path, Bytes>

    constructor ()
      ensures files == map[]
    {
      files := map[];
    }

    ghost function View(): map<(string, string), Bytes>
      reads this
    {
      ViewOf(files)
    }

    method Get(ns: string, key: string) returns (r: Result<Option<Bytes>>)
      ensures r.CacheError? <==> !Valid(ns, key)
      ensures r.Ok? ==> r.value == if Location(ns, key) in files then Some(files[Location(ns, key)]) else None
      ensures r.Ok? && Regular(key) ==> r.value == if (ns, key) in View() then Some(View()[(ns, key)]) else None
    {
      if !Valid(ns, key) { return CacheError; }
      var path := Location(ns, key);
      ViewAt(files, (ns, key));
      r := Ok(if path in files then Some(files[path]) else None);
    }

    /** Another pair sees the write only if it clashes; regular pairs never do. */
    method Put(ns: string, key: string, value: Bytes) returns (r: Result<Path>)
      modifies this
      ensures r.CacheError? <==> !Valid(ns, key)
      ensures r.CacheError? ==> files == old(files)
      ensures r.Ok? ==> r.value == Location(ns, key) && files == old(files)[Location(ns, key) := value]
      ensures r.Ok? && Regular(key) ==> View() == old(View())[(ns, key) := value]
    {
      if !Valid(ns, key) { return CacheError; }
      var path := Location(ns, key);
      if Regular(key) { ViewAfterPut(files, ns, key, value); }
      files := files[path := value];
      r := Ok(path);
    }

    method Delete(ns: string, key: string) returns (r: Result<bool>)
      modifies this
      ensures r.CacheError? <==> !Valid(ns, key)
      ensures r.CacheError? ==> files == old(files)
      ensures r.Ok? ==> r.value == (Location(ns, key) in old(files)) && files == old(files) - {Location(ns, key)}
      ensures r.Ok? && Regular(key) ==> View() == old(View()) - {(ns, key)}
    {
      if !Valid(ns, key) { return CacheError; }
      var path := Location(ns, key);
      if Regular(key) { ViewAfterDelete(files, ns, key); }
      r := Ok(path in files);
      files := files - {path};
    }

    /** `listing` is what walking the directories yields, in any order. */
    method Stats(ns: string, listing: seq<Path>) returns (r: Result<CacheStats>)
      requires Lists(listing, files)
      ensures r.CacheError? <==> !ValidNamespace(ns)
      ensures r.Ok? ==> r.value == StatsOf(BinFiles(ns, files), files)
    {
      if !ValidNamespace(ns) { return CacheError; }
      var stats := CountFiles(ns, listing, files);
      r := Ok(stats);
    }
  }

  method CountFiles(ns: string, listing: seq<Path>, files: map<Path, Bytes>) returns (stats: CacheStats)
    requires Lists(listing, files)
    ensures stats == StatsOf(BinFiles(ns, files), files)
  {
    ListedOnce(listing, files);
    var entries: nat, total: nat := 0, 0;
    for i := 0 to |listing|
      invariant CacheStats(entries, total) == Tally(ns, listing, i, files)
    {
      if InNamespace(ns, listing[i]) {
        entries := entries + 1;
        total := total + |files[listing[i]]|;
      }
    }
    TallyIsStats(ns, listing, |listing|, files);
    CountedAll(ns, listing, files);
    stats := CacheStats(entries, total);
  }
}
