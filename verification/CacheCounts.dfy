/** What `stats` counts (engine/cache/store.py:56-64, 101-121): files, and exactly when that is the number of keys. */
module CacheCounts {
  import opened Store

  type Pair = (string, string)

  predicate AllValid(live: set<Pair>) { forall pair | pair in live :: Valid(pair.0, pair.1) }

  function Locations(live: set<Pair>): set<Path> { set pair | pair in live :: Location(pair.0, pair.1) }

  predicate IsBinFile(p: Path) { p != [] && IsBin(p[|p| - 1]) }

  ghost function Bins(files: map<Path, Bytes>): set<Path> { set p | p in files && IsBinFile(p) }

  /** The `.bin` files on disk are those of the pairs put and not deleted since. */
  ghost predicate Holds(files: map<Path, Bytes>, live: set<Pair>) { Bins(files) == Locations(live) }

  /** Deleting a key's file deletes it for whoever shares it. */
  function Remaining(live: set<Pair>, ns: string, key: string): set<Pair> {
    set pair | pair in live && Location(pair.0, pair.1) != Location(ns, key)
  }

  lemma LocationIsBin(ns: string, key: string)
    requires Valid(ns, key)
    ensures IsBinFile(Location(ns, key))
  {
    LocationShape(ns, key);
    assert IsBin(FileName(key));
  }

  lemma LocationsWith(live: set<Pair>, pair: Pair)
    ensures Locations(live + {pair}) == Locations(live) + {Location(pair.0, pair.1)}
  {}

  lemma BinsWith(files: map<Path, Bytes>, p: Path, value: Bytes)
    requires IsBinFile(p)
    ensures Bins(files[p := value]) == Bins(files) + {p}
  {}

  lemma PutHolds(files: map<Path, Bytes>, live: set<Pair>, ns: string, key: string, value: Bytes)
    requires Holds(files, live) && Valid(ns, key)
    ensures Holds(files[Location(ns, key) := value], live + {(ns, key)})
  {
    LocationIsBin(ns, key);
    LocationsWith(live, (ns, key));
    BinsWith(files, Location(ns, key), value);
  }

  lemma DeleteHolds(files: map<Path, Bytes>, live: set<Pair>, ns: string, key: string)
    requires Holds(files, live)
    ensures Holds(files - {Location(ns, key)}, Remaining(live, ns, key))
  {
    assert Locations(Remaining(live, ns, key)) == Locations(live) - {Location(ns, key)};
    assert Bins(files - {Location(ns, key)}) == Bins(files) - {Location(ns, key)};
  }

  // ----- counting -----

  function KeysOf(live: set<Pair>, ns: string): set<string> { set pair | pair in live && pair.0 == ns :: pair.1 }

  /** Keys whose file lies in a directory that the walk looks into. */
  predicate Walked(key: string) { Shard(key) != "." && Shard(key) != ".." }

  function FilesOf(ns: string, keys: set<string>): set<Path> { set key | key in keys && Walked(key) :: Location(ns, key) }

  /** The files counted are those of the namespace's own keys, but for `.` and keys that begin with `..`. */
  lemma CountsOwnFiles(ns: string, files: map<Path, Bytes>, live: set<Pair>)
    requires ValidNamespace(ns) && AllValid(live) && Holds(files, live)
    ensures BinFiles(ns, files) == FilesOf(ns, KeysOf(live, ns))
  {
    forall p ensures p in BinFiles(ns, files) <==> p in FilesOf(ns, KeysOf(live, ns)) {
      if p in BinFiles(ns, files) {
        assert p in Locations(live);
        var pair :| pair in live && Location(pair.0, pair.1) == p;
        LocationShape(pair.0, pair.1);
        assert pair.1 in KeysOf(live, ns);
      }
      if key :| key in KeysOf(live, ns) && Walked(key) && Location(ns, key) == p {
        LocationShape(ns, key);
        LocationIsBin(ns, key);
        assert (ns, key) in live && p in Locations(live);
      }
    }
  }

  ghost predicate Apart(ns: string, keys: set<string>) {
    forall k, l | k in keys && l in keys && k != l :: Location(ns, k) != Location(ns, l)
  }

  /** Each key has a file of its own that is counted. */
  ghost predicate OneEach(ns: string, keys: set<string>) { Apart(ns, keys) && forall key | key in keys :: Walked(key) }

  lemma FilesWith(ns: string, keys: set<string>, k: string)
    ensures FilesOf(ns, keys + {k}) == if Walked(k) then FilesOf(ns, keys) + {Location(ns, k)} else FilesOf(ns, keys)
  {}

  lemma OneEachWith(ns: string, keys: set<string>, k: string)
    requires k !in keys
    ensures OneEach(ns, keys + {k}) <==> OneEach(ns, keys) && Walked(k) && Location(ns, k) !in FilesOf(ns, keys)
  {
    var more := keys + {k};
    if OneEach(ns, more) {
      assert k in more && forall l | l in keys :: l in more;
    } else if OneEach(ns, keys) && Walked(k) && Location(ns, k) !in FilesOf(ns, keys) {
      forall l | l in keys ensures Location(ns, l) != Location(ns, k) { assert Location(ns, l) in FilesOf(ns, keys); }
    }
  }

  lemma {:induction false} FilesCount(ns: string, keys: set<string>)
    ensures |FilesOf(ns, keys)| <= |keys| && (|FilesOf(ns, keys)| == |keys| <==> OneEach(ns, keys))
    decreases keys
  {
    if keys != {} {
      var k :| k in keys;
      FilesCount(ns, keys - {k});
      FilesWith(ns, keys - {k}, k);
      OneEachWith(ns, keys - {k}, k);
      assert keys - {k} + {k} == keys;
    }
  }

  lemma WalkedIff(key: string)
    ensures Walked(key) <==> key != "." && !Climbs(key)
  {}

  /** No key of two characters stands beside the same key with `_` after it. */
  predicate Unpaired(keys: set<string>) { forall key | key in keys && |key| == 2 :: key + "_" !in keys }

  lemma WalkedApart(ns: string, k: string, l: string)
    requires Valid(ns, k) && Valid(ns, l) && Walked(k) && k != l
    ensures Location(ns, k) == Location(ns, l) <==> (|k| == 2 && l == k + "_") || (|l| == 2 && k == l + "_")
  {
    WalkedIff(k);
    SharedFileIff(ns, k, ns, l);
  }

  lemma ApartIff(ns: string, keys: set<string>)
    requires forall key | key in keys :: Valid(ns, key) && Walked(key)
    ensures Apart(ns, keys) <==> Unpaired(keys)
  {
    if Unpaired(keys) {
      forall k, l | k in keys && l in keys && k != l ensures Location(ns, k) != Location(ns, l) { WalkedApart(ns, k, l); }
    } else {
      var key :| key in keys && |key| == 2 && key + "_" in keys;
      WalkedApart(ns, key, key + "_");
    }
  }

  /** `stats` reports as many entries as the namespace has keys exactly when none of these is `.` or begins with `..`,
      and no key of two characters stands beside the same key with `_` after it; else it reports fewer. */
  lemma CountIsKeysIff(ns: string, files: map<Path, Bytes>, live: set<Pair>)
    requires ValidNamespace(ns) && AllValid(live) && Holds(files, live)
    ensures var entries, keys := StatsOf(BinFiles(ns, files), files).entries, KeysOf(live, ns);
      && entries <= |keys|
      && (entries == |keys| <==> Unpaired(keys) && forall key | key in keys :: key != "." && !Climbs(key))
  {
    var keys := KeysOf(live, ns);
    CountsOwnFiles(ns, files, live);
    FilesCount(ns, keys);
    forall key | key in keys ensures Valid(ns, key) && (Walked(key) <==> key != "." && !Climbs(key)) {
      assert (ns, key) in live;
      WalkedIff(key);
    }
    if forall key | key in keys :: Walked(key) { ApartIff(ns, keys); }
  }

  // ----- after any history -----

  datatype Op = Put(ns: string, key: string, value: Bytes) | Delete(ns: string, key: string)

  predicate AllAccepted(ops: seq<Op>) { forall op | op in ops :: Valid(op.ns, op.key) }

  function FilesAfter(ops: seq<Op>): map<Path, Bytes> {
    if ops == [] then map[]
    else
      var before, op := FilesAfter(ops[..|ops| - 1]), ops[|ops| - 1];
      if op.Put? then before[Location(op.ns, op.key) := op.value] else before - {Location(op.ns, op.key)}
  }

  /** The pairs put and not deleted since, by themselves or with a pair that shares their file. */
  function LiveAfter(ops: seq<Op>): set<Pair> {
    if ops == [] then {}
    else
      var before, op := LiveAfter(ops[..|ops| - 1]), ops[|ops| - 1];
      if op.Put? then before + {(op.ns, op.key)} else Remaining(before, op.ns, op.key)
  }

  lemma {:induction false} HistoryHolds(ops: seq<Op>)
    requires AllAccepted(ops)
    ensures Holds(FilesAfter(ops), LiveAfter(ops)) && AllValid(LiveAfter(ops))
  {
    if ops == [] {
      assert Bins(map[]) == Locations({});
    } else {
      var front, op := ops[..|ops| - 1], ops[|ops| - 1];
      assert op in ops && forall o | o in front :: o in ops;
      HistoryHolds(front);
      if op.Put? {
        PutHolds(FilesAfter(front), LiveAfter(front), op.ns, op.key, op.value);
      } else {
        DeleteHolds(FilesAfter(front), LiveAfter(front), op.ns, op.key);
      }
    }
  }

  /** After any puts and deletions `stats` reports at most the live keys of a namespace, and as many exactly under that condition. */
  lemma StatsCountKeysIff(ops: seq<Op>, ns: string)
    requires AllAccepted(ops) && ValidNamespace(ns)
    ensures var entries, keys := StatsOf(BinFiles(ns, FilesAfter(ops)), FilesAfter(ops)).entries, KeysOf(LiveAfter(ops), ns);
      && entries <= |keys|
      && (entries == |keys| <==> Unpaired(keys) && forall key | key in keys :: key != "." && !Climbs(key))
  {
    HistoryHolds(ops);
    CountIsKeysIff(ns, FilesAfter(ops), LiveAfter(ops));
  }
}
