/** The order of the vault's listing (engine/auth/vault.py:313-335): by file name, and exactly when that is by
    entry name, and by host and name as documented. */
module VaultListing {
  import opened Sorting
  import opened Wrappers
  import opened V = Vault

  // ----- a common suffix in the lexicographic order -----

  lemma StrReflexive(s: string)
    ensures StrLe(s, s)
  {
    StrLeTotal(s, s);
  }

  /** A common ending matters only when one string begins the other. */
  lemma {:induction false} CommonEnd(a: string, b: string, m: string)
    requires !(a <= b) && !(b <= a)
    ensures StrLe(a + m, b + m) <==> StrLe(a, b)
  {
    assert (a + m)[1..] == a[1..] + m && (b + m)[1..] == b[1..] + m;
    if a[0] == b[0] {
      assert a == [a[0]] + a[1..] && b == [b[0]] + b[1..];
      CommonEnd(a[1..], b[1..], m);
    }
  }

  lemma PrefixIsLess(n: string, longer: string)
    requires n < longer
    ensures StrLe(n, longer) && !StrLe(longer, n)
  {
    assert longer == n + longer[|n|..] && n == n + "";
    CommonFront(n, "", longer[|n|..]);
    CommonFront(n, longer[|n|..], "");
  }

  // ----- file order against name order -----

  /** The longer name's file comes before the file of the name it begins with. */
  predicate Jumps(n: string, longer: string) {
    n < longer && !StrLe(META_SUFFIX, longer[|n|..] + META_SUFFIX)
  }

  predicate ByName(a: Slot, b: Slot) { PathLe([a.dir, a.name], [b.dir, b.name]) }

  lemma PairOrder(d: string, s: string, e: string, t: string)
    ensures PathLe([d, s], [e, t]) <==> if d == e then StrLe(s, t) else StrLe(d, e)
  {
    assert [d, s][1..] == [s] && [e, t][1..] == [t] && [s][1..] == [] && [t][1..] == [];
    if s == t { StrReflexive(s); }
    assert PathLe([s], [t]) <==> StrLe(s, t);
  }

  lemma PrefixOrder(n: string, longer: string)
    requires n < longer
    ensures StrLe(n + META_SUFFIX, longer + META_SUFFIX) <==> !Jumps(n, longer)
  {
    var r := longer[|n|..];
    assert longer + META_SUFFIX == n + (r + META_SUFFIX);
    CommonFront(n, META_SUFFIX, r + META_SUFFIX);
  }

  lemma NameFileOrder(a: string, b: string)
    requires a != b
    ensures StrLe(a + META_SUFFIX, b + META_SUFFIX) && !StrLe(b, a) ==> !Jumps(a, b)
    ensures StrLe(a + META_SUFFIX, b + META_SUFFIX) && !StrLe(a, b) <==> Jumps(b, a)
  {
    if a <= b {
      PrefixIsLess(a, b);
      PrefixOrder(a, b);
    } else if b <= a {
      PrefixIsLess(b, a);
      PrefixOrder(b, a);
      DifferentFiles(a, b);
    } else {
      CommonEnd(a, b, META_SUFFIX);
    }
  }

  lemma DifferentFiles(a: string, b: string)
    requires a != b
    ensures !StrLe(a + META_SUFFIX, b + META_SUFFIX) || !StrLe(b + META_SUFFIX, a + META_SUFFIX)
    ensures StrLe(a + META_SUFFIX, b + META_SUFFIX) || StrLe(b + META_SUFFIX, a + META_SUFFIX)
  {
    var s, t := a + META_SUFFIX, b + META_SUFFIX;
    assert s[..|s| - |META_SUFFIX|] == a && t[..|t| - |META_SUFFIX|] == b;
    if StrLe(s, t) && StrLe(t, s) { StrLeAntisym(s, t); }
    StrLeTotal(s, t);
  }

  /** Two files stand the other way round than their names exactly when they share a directory and one jumps. */
  lemma OutOfNameOrderIff(a: Slot, b: Slot)
    requires a != b
    ensures FileLe(a, b) && !ByName(a, b) <==> a.dir == b.dir && Jumps(b.name, a.name)
  {
    PairOrder(a.dir, a.name, b.dir, b.name);
    PairOrder(a.dir, a.name + META_SUFFIX, b.dir, b.name + META_SUFFIX);
    if a.dir == b.dir { NameFileOrder(a.name, b.name); }
  }

  /** In a listing, what does not come after another file comes before it. */
  lemma Places(slots: seq<Slot>, p: Slot, q: Slot) returns (i: nat, j: nat)
    requires Sorted(FileLe, slots) && p in slots && q in slots && !FileLe(q, p)
    ensures i < j < |slots| && slots[i] == p && slots[j] == q
  {
    i :| 0 <= i < |slots| && slots[i] == p;
    j :| 0 <= j < |slots| && slots[j] == q;
    PathLeTotal(FileKey(p), FileKey(p));
  }

  /** The listing is in order of directory and entry name exactly when no directory holds a name and a longer
      one that jumps it. */
  lemma ListedByNameIff(slots: seq<Slot>, out: seq<Metadata>, m: map<Slot, Metadata>)
    requires Listing(slots, out, m)
    ensures Sorted(ByName, slots) <==>
      forall n, longer | n in m && longer in m && n.dir == longer.dir :: !Jumps(n.name, longer.name)
  {
    forall i, j | 0 <= i < j < |slots| ensures ByName(slots[i], slots[j]) <==> !(slots[i].dir == slots[j].dir && Jumps(slots[j].name, slots[i].name)) {
      assert FileLe(slots[i], slots[j]);
      OutOfNameOrderIff(slots[i], slots[j]);
    }
    forall n, longer | n in m && longer in m && n.dir == longer.dir && Jumps(n.name, longer.name)
      ensures exists i, j :: 0 <= i < j < |slots| && slots[i] == longer && slots[j] == n
    {
      JumperComesFirst(slots, out, m, n, longer);
    }
  }

  lemma JumperComesFirst(slots: seq<Slot>, out: seq<Metadata>, m: map<Slot, Metadata>, n: Slot, longer: Slot)
    requires Listing(slots, out, m) && n in m && longer in m && n.dir == longer.dir && Jumps(n.name, longer.name)
    ensures exists i, j :: 0 <= i < j < |slots| && slots[i] == longer && slots[j] == n
  {
    PrefixOrder(n.name, longer.name);
    PairOrder(n.dir, n.name + META_SUFFIX, longer.dir, longer.name + META_SUFFIX);
    var i, j := Places(slots, longer, n);
  }

  // ----- as documented: by host, then name -----

  predicate Documented(a: Metadata, b: Metadata) { PathLe([a.host, a.name], [b.host, b.name]) }

  /** What the vault's invariant says of its sidecars. */
  ghost predicate Filed(m: map<Slot, Metadata>) { forall slot | slot in m :: slot == SlotOf(m[slot].host, m[slot].name) }

  lemma InvFiles(s: State)
    requires Inv(s)
    ensures Filed(s.sidecars)
  {
    forall slot | slot in s.sidecars ensures slot == SlotOf(s.sidecars[slot].host, s.sidecars[slot].name) {
      assert Sealed(slot, s.entries[slot]);
    }
  }

  /** Why two listed entries may stand against the documented order: their slugs or their files order their
      hosts the other way, or one name of a host jumps another. */
  predicate Misplaced(a: Metadata, b: Metadata) {
    var p, q := SlotOf(a.host, a.name), SlotOf(b.host, b.name);
    if a.host == b.host then Jumps(b.name, a.name)
    else StrLe(b.host, a.host) && (if p.dir == q.dir then StrLe(a.name + META_SUFFIX, b.name + META_SUFFIX) else StrLe(p.dir, q.dir))
  }

  lemma MisplacedIff(a: Metadata, b: Metadata)
    requires SlotOf(a.host, a.name) != SlotOf(b.host, b.name)
    ensures FileLe(SlotOf(a.host, a.name), SlotOf(b.host, b.name)) && !Documented(a, b) <==> Misplaced(a, b)
  {
    var p, q := SlotOf(a.host, a.name), SlotOf(b.host, b.name);
    PairOrder(a.host, a.name, b.host, b.name);
    PairOrder(p.dir, a.name + META_SUFFIX, q.dir, b.name + META_SUFFIX);
    StrLeTotal(a.host, b.host);
    if a.host == b.host {
      NameFileOrder(a.name, b.name);
    } else if StrLe(a.host, b.host) && StrLe(b.host, a.host) {
      StrLeAntisym(a.host, b.host);
    }
  }

  ghost predicate NoneMisplaced(m: map<Slot, Metadata>) { forall p, q | p in m && q in m && p != q :: !Misplaced(m[p], m[q]) }

  /** The listing is in the documented order exactly when no two entries are misplaced. */
  lemma ListedAsDocumentedIff(slots: seq<Slot>, out: seq<Metadata>, m: map<Slot, Metadata>)
    requires Listing(slots, out, m) && Filed(m)
    ensures Sorted(Documented, out) <==> NoneMisplaced(m)
  {
    forall i, j | 0 <= i < j < |out| ensures Documented(out[i], out[j]) <==> !Misplaced(out[i], out[j]) {
      assert slots[i] != slots[j] && FileLe(slots[i], slots[j]);
      MisplacedIff(out[i], out[j]);
    }
    forall p, q | p in m && q in m && p != q && Misplaced(m[p], m[q])
      ensures exists i, j :: 0 <= i < j < |out| && Misplaced(out[i], out[j])
    {
      MisplacedIsListed(slots, out, m, p, q);
    }
  }

  lemma MisplacedIsListed(slots: seq<Slot>, out: seq<Metadata>, m: map<Slot, Metadata>, p: Slot, q: Slot)
    requires Listing(slots, out, m) && Filed(m) && p in m && q in m && p != q && Misplaced(m[p], m[q])
    ensures exists i, j :: 0 <= i < j < |out| && Misplaced(out[i], out[j])
  {
    MisplacedIff(m[p], m[q]);
    if FileLe(q, p) { FileKeyInjective(p, q); }
    var i, j := Places(slots, p, q);
    assert out[i] == m[p] && out[j] == m[q];
  }

  // ----- every vault a history can reach -----

  lemma ReachableIsFiled(ops: seq<Op>)
    requires forall op | op in ops :: Sound(op)
    ensures Filed(Play(EMPTY, ops).sidecars)
  {
    SidecarsMatch(ops);
    InvFiles(Play(EMPTY, ops));
  }

  /** After any history the listing is in the documented order exactly when no two stored entries are misplaced. */
  lemma VaultListedAsDocumentedIff(ops: seq<Op>, slots: seq<Slot>, out: seq<Metadata>)
    requires forall op | op in ops :: Sound(op)
    requires Listing(slots, out, Play(EMPTY, ops).sidecars)
    ensures Sorted(Documented, out) <==> NoneMisplaced(Play(EMPTY, ops).sidecars)
  {
    ReachableIsFiled(ops);
    ListedAsDocumentedIff(slots, out, Play(EMPTY, ops).sidecars);
  }

  /** Every host is stored under its own name. */
  ghost predicate OwnSlugs(m: map<Slot, Metadata>) { forall p | p in m :: HostSlug(m[p].host) == m[p].host }

  lemma OwnSlugsMisplaced(a: Metadata, b: Metadata)
    requires HostSlug(a.host) == a.host && HostSlug(b.host) == b.host
    ensures Misplaced(a, b) <==> a.host == b.host && Jumps(b.name, a.name)
  {
    if StrLe(a.host, b.host) && StrLe(b.host, a.host) { StrLeAntisym(a.host, b.host); }
  }

  /** With such hosts only, exactly when no name of a host jumps another name of that host. */
  lemma OwnSlugsListedIff(ops: seq<Op>, slots: seq<Slot>, out: seq<Metadata>)
    requires forall op | op in ops :: Sound(op)
    requires Listing(slots, out, Play(EMPTY, ops).sidecars) && OwnSlugs(Play(EMPTY, ops).sidecars)
    ensures var m := Play(EMPTY, ops).sidecars;
      Sorted(Documented, out) <==> forall p, q | p in m && q in m && m[p].host == m[q].host :: !Jumps(m[p].name, m[q].name)
  {
    var m := Play(EMPTY, ops).sidecars;
    VaultListedAsDocumentedIff(ops, slots, out);
    forall p, q | p in m && q in m ensures Misplaced(m[p], m[q]) <==> m[p].host == m[q].host && Jumps(m[q].name, m[p].name) {
      OwnSlugsMisplaced(m[p], m[q]);
    }
  }

  // ----- a vault that shows it -----

  /** Two entries of one host, stored one after the other, whose names jump. */
  function JumpingHistory(e: Entry, longer: Entry, minted: Key): seq<Op> { [Put(e, false, minted), Put(longer, false, minted)] }

  lemma StoredBoth(e: Entry, longer: Entry, minted: Key)
    requires e.host == longer.host && ValidName(e.name) && ValidName(longer.name) && e.name != longer.name
    ensures Play(EMPTY, JumpingHistory(e, longer, minted)).sidecars ==
      map[SlotOf(e.host, e.name) := MetadataOf(e), SlotOf(longer.host, longer.name) := MetadataOf(longer)]
  {
    var ops := JumpingHistory(e, longer, minted);
    assert ops[1..] == [Put(longer, false, minted)] && ops[1..][1..] == [];
    var s := Step(EMPTY, ops[0]).0;
    assert Play(s, ops[1..]) == Play(Step(s, ops[1]).0, []);
  }

  /** Its only listing puts the longer name first, against the documented order. */
  lemma JumpingIsListedFirst(e: Entry, longer: Entry, minted: Key)
    requires e.host == longer.host && ValidName(e.name) && ValidName(longer.name) && Jumps(e.name, longer.name)
    ensures var m := Play(EMPTY, JumpingHistory(e, longer, minted)).sidecars;
      Listing([SlotOf(longer.host, longer.name), SlotOf(e.host, e.name)], [MetadataOf(longer), MetadataOf(e)], m)
    ensures !Documented(MetadataOf(longer), MetadataOf(e))
  {
    var p, q := SlotOf(e.host, e.name), SlotOf(longer.host, longer.name);
    StoredBoth(e, longer, minted);
    MisplacedIff(MetadataOf(longer), MetadataOf(e));
    assert FileLe(q, p);
  }

  /** A dash jumps, and so does a dot with a letter before `j`; a letter does not. */
  lemma SomeJump()
    ensures Jumps("a", "a-b") && Jumps("a", "a.b") && !Jumps("a", "ab")
  {
    assert "a-b"[1..] == "-b" && "a.b"[1..] == ".b" && "ab"[1..] == "b";
    var dash, dot, letter := "-b" + META_SUFFIX, ".b" + META_SUFFIX, "b" + META_SUFFIX;
    assert META_SUFFIX[0] == '.' && META_SUFFIX[1..][0] == 'j';
    assert dash[0] == '-' && dot[0] == '.' && dot[1..][0] == 'b' && letter[0] == 'b';
  }
}
