/** engine/auth/vault.py: the encrypted session vault.  The directory tree is two maps from
    (host directory, entry name), one for ciphertexts and one for metadata sidecars; the AEAD is ideal. */
module Vault {
  import A = Alphabet
  import opened Sorting
  import opened Text
  import opened Wrappers

  type Time = int
  type Key = nat

  const SCHEMA_VERSION := "1.0.0"

  datatype Entry = Entry(
    name: string, host: string, storageState: string, createdAt: Time, expiresAt: Time, lastUsedAt: Option<Time>,
    cookiesCount: nat, localStorageKeys: nat, capturedBy: string)

  /** The public view: no storage state. */
  datatype Metadata = Metadata(
    name: string, host: string, createdAt: Time, expiresAt: Time, lastUsedAt: Option<Time>,
    cookiesCount: nat, localStorageKeys: nat)

  datatype Envelope = Envelope(
    schemaVersion: string, name: string, host: string, storageState: string, createdAt: Time, expiresAt: Time,
    lastUsedAt: Option<Time>, cookiesCount: nat, localStorageKeys: nat, capturedBy: string)

  /** What was sealed, under which key and associated data. */
  datatype Blob = Blob(key: Key, associatedData: string, plaintext: Envelope)

  // ----- names, slugs, associated data -----

  predicate Alnum(c: char) { 'a' <= c <= 'z' || 'A' <= c <= 'Z' || '0' <= c <= '9' }

  predicate ValidName(name: string) {
    1 <= |name| <= 128 && Alnum(name[0]) && forall c | c in name :: Alnum(c) || c == '.' || c == '_' || c == '-'
  }

  function SlugChar(c: char): char {
    if 'a' <= c <= 'z' || '0' <= c <= '9' || c == '.' || c == '_' || c == '-' then c else '_'
  }

  function Canonical(host: string): string { Lower(Strip(host)) }

  function HostSlug(host: string): string {
    var lowered := Canonical(host);
    var slug := seq(|lowered|, i requires 0 <= i < |lowered| => SlugChar(lowered[i]));
    if slug == "" then "unknown" else if slug[0] == '.' then "__" + slug else slug
  }

  const NAME_STARTS := A.CAPITALS + A.SMALL + A.DIGITS
  const SLUG_CHARS := A.SMALL + A.DIGITS + "._-"

  ghost predicate NameTold(name: string) {
    1 <= |name| <= 128 && name[0] in NAME_STARTS && A.OnlyOf(name, NAME_STARTS + "._-")
  }

  lemma NameCharIff(c: char)
    ensures Alnum(c) <==> c in NAME_STARTS
    ensures Alnum(c) || c == '.' || c == '_' || c == '-' <==> c in NAME_STARTS + "._-"
  {
    A.CapitalIff(c);
    A.SmallIff(c);
    A.DigitIff(c);
  }

  /** An entry name is 1 to 128 letters, digits, dots, underscores and hyphens, a letter or digit first. */
  lemma NameIff(name: string)
    ensures ValidName(name) <==> NameTold(name)
  {
    forall c ensures (Alnum(c) <==> c in NAME_STARTS) && (Alnum(c) || c == '.' || c == '_' || c == '-' <==> c in NAME_STARTS + "._-") {
      NameCharIff(c);
    }
  }

  lemma SlugCharTold(c: char)
    ensures SlugChar(c) == if c in SLUG_CHARS then c else '_'
  {
    A.SmallIff(c);
    A.DigitIff(c);
  }

  /** A host's directory: its lower-case text with every character outside the safe ones replaced, never hidden and never empty. */
  lemma SlugTold(host: string) returns (body: string)
    ensures var lowered := Lower(Strip(host));
      |body| == |lowered| && forall i | 0 <= i < |body| :: body[i] == if lowered[i] in SLUG_CHARS then lowered[i] else '_'
    ensures body == "" ==> HostSlug(host) == "unknown"
    ensures "." <= body ==> HostSlug(host) == "__" + body
    ensures body != "" && body[0] != '.' ==> HostSlug(host) == body
    ensures A.OnlyOf(HostSlug(host), SLUG_CHARS) && HostSlug(host) != "" && HostSlug(host)[0] != '.'
  {
    var lowered := Lower(Strip(host));
    body := seq(|lowered|, i requires 0 <= i < |lowered| => SlugChar(lowered[i]));
    forall c ensures SlugChar(c) == (if c in SLUG_CHARS then c else '_') && SlugChar(c) in SLUG_CHARS { SlugCharTold(c); }
    assert HostSlug(host) == if body == "" then "unknown" else if body[0] == '.' then "__" + body else body;
    forall c | c in "unknown" + "__" ensures c in SLUG_CHARS { SlugCharTold(c); }
  }

  function AssociatedData(host: string, name: string): string { SCHEMA_VERSION + ":" + host + ":" + name }

  /** Entry names hold no colon, so the associated data names one host and one entry. */
  lemma AssociatedDataInjective(host: string, name: string, host': string, name': string)
    requires ValidName(name) && ValidName(name')
    requires AssociatedData(host, name) == AssociatedData(host', name')
    ensures host == host' && name == name'
  {
    var a, b := AssociatedData(host, name), AssociatedData(host', name');
    var front, front' := SCHEMA_VERSION + ":" + host, SCHEMA_VERSION + ":" + host';
    assert a == front + [':'] + name && b == front' + [':'] + name';
    CutAt(':', front, name, front', name');
    assert front[|SCHEMA_VERSION| + 1..] == host && front'[|SCHEMA_VERSION| + 1..] == host';
  }

  // ----- envelopes -----

  function EnvelopeOf(e: Entry): Envelope {
    Envelope(SCHEMA_VERSION, e.name, e.host, e.storageState, e.createdAt, e.expiresAt, e.lastUsedAt,
             e.cookiesCount, e.localStorageKeys, e.capturedBy)
  }

  function EntryOf(v: Envelope): Entry {
    Entry(v.name, v.host, v.storageState, v.createdAt, v.expiresAt, v.lastUsedAt,
          v.cookiesCount, v.localStorageKeys, if v.capturedBy == "" then "cli" else v.capturedBy)
  }

  function MetadataOf(e: Entry): Metadata {
    Metadata(e.name, e.host, e.createdAt, e.expiresAt, e.lastUsedAt, e.cookiesCount, e.localStorageKeys)
  }

  /** An envelope gives its entry back unless the entry names no capturer, which the entry record forbids; then
      the command line stands in. */
  lemma EnvelopeRoundTrip(e: Entry)
    ensures EntryOf(EnvelopeOf(e)) == e <==> e.capturedBy != ""
    ensures e.capturedBy == "" ==> EntryOf(EnvelopeOf(e)) == e.(capturedBy := "cli")
  {
    assert EntryOf(EnvelopeOf(e)).capturedBy != "";
  }

  // ----- the vault as a value -----

  datatype Slot = Slot(dir: string, name: string)

  function SlotOf(host: string, name: string): Slot { Slot(HostSlug(host), name) }

  datatype State = State(entries: map<Slot, Blob>, sidecars: map<Slot, Metadata>, key: Option<Key>)

  datatype Refusal =
    | BadName | AlreadyExists | NotFound | HostNotAllowed | NoKey | Integrity | SchemaMismatch | HostMismatch | Expired

  datatype Reply = Stored | Found(entry: Entry) | Removed(any: bool) | Counted(n: nat) | Done | Refused(why: Refusal)

  function Seal(key: Key, e: Entry): Blob { Blob(key, AssociatedData(e.host, e.name), EnvelopeOf(e)) }

  /** Decryption succeeds with the sealing key and the sealing associated data only. */
  function Unseal(key: Key, b: Blob, associatedData: string): Option<Envelope> {
    if b.key == key && b.associatedData == associatedData then Some(b.plaintext) else None
  }

  function Written(s: State, key: Key, e: Entry): State {
    var slot := SlotOf(e.host, e.name);
    State(s.entries[slot := Seal(key, e)], s.sidecars[slot := MetadataOf(e)], Some(key))
  }

  /** `minted` is the key a fresh keyring would make. */
  function PutStep(s: State, e: Entry, force: bool, minted: Key): (State, Reply) {
    if !ValidName(e.name) then (s, Refused(BadName))
    else if SlotOf(e.host, e.name) in s.entries && !force then (s, Refused(AlreadyExists))
    else (Written(s, if s.key.Some? then s.key.value else minted, e), Stored)
  }

  predicate Allowed(host: string, allowed: seq<string>) { exists h | h in allowed :: Canonical(h) == Canonical(host) }

  function Lookup(s: State, host: string, name: string, allowed: seq<string>, now: Time): Reply {
    if !ValidName(name) then Refused(BadName)
    else if SlotOf(host, name) !in s.entries then Refused(NotFound)
    else if !Allowed(host, allowed) then Refused(HostNotAllowed)
    else if s.key.None? then Refused(NoKey)
    else
      var plain := Unseal(s.key.value, s.entries[SlotOf(host, name)], AssociatedData(host, name));
      if plain.None? then Refused(Integrity)
      else if plain.value.schemaVersion != SCHEMA_VERSION then Refused(SchemaMismatch)
      else if HostSlug(plain.value.host) != HostSlug(host) then Refused(HostMismatch)
      else if now >= plain.value.expiresAt then Refused(Expired)
      else Found(EntryOf(plain.value))
  }

  function GetStep(s: State, host: string, name: string, allowed: seq<string>, now: Time, touch: bool): (State, Reply) {
    var r := Lookup(s, host, name, allowed, now);
    if r.Found? && touch && s.key.Some? then
      var updated := r.entry.(lastUsedAt := Some(now));
      (Written(s, s.key.value, updated), Found(updated))
    else (s, r)
  }

  function RevokeStep(s: State, host: string, name: string): (State, Reply) {
    if !ValidName(name) then (s, Refused(BadName))
    else
      var slot := SlotOf(host, name);
      (State(s.entries - {slot}, s.sidecars - {slot}, s.key), Removed(slot in s.entries))
  }

  datatype Op =
    | Put(entry: Entry, force: bool, minted: Key)
    | Get(host: string, name: string, allowed: seq<string>, now: Time, touch: bool)
    | Revoke(host: string, name: string)
    | RevokeAll
    | ResetKey

  function Step(s: State, op: Op): (State, Reply) {
    match op
    case Put(e, force, minted) => PutStep(s, e, force, minted)
    case Get(host, name, allowed, now, touch) => GetStep(s, host, name, allowed, now, touch)
    case Revoke(host, name) => RevokeStep(s, host, name)
    case RevokeAll => (State(map[], map[], s.key), Counted(|s.entries|))
    case ResetKey => (s.(key := None), Done)
  }

  // ----- what every operation keeps -----

  /** An entry as its record type admits it. */
  predicate Sound(op: Op) { op.Put? ==> op.entry.capturedBy != "" }

  function Held(b: Blob): Entry { EntryOf(b.plaintext) }

  ghost predicate Sealed(slot: Slot, b: Blob) {
    b == Seal(b.key, Held(b)) && slot == SlotOf(Held(b).host, Held(b).name) && ValidName(Held(b).name)
  }

  /** Ciphertexts and sidecars cover the same slots, and each sidecar is its entry's public view. */
  ghost predicate Inv(s: State) {
    && s.entries.Keys == s.sidecars.Keys
    && (forall slot | slot in s.entries :: Sealed(slot, s.entries[slot]))
    && (forall slot | slot in s.entries :: s.sidecars[slot] == MetadataOf(Held(s.entries[slot])))
  }

  lemma WrittenKeepsInv(s: State, key: Key, e: Entry)
    requires Inv(s) && ValidName(e.name) && e.capturedBy != ""
    ensures Inv(Written(s, key, e)) && Held(Written(s, key, e).entries[SlotOf(e.host, e.name)]) == e
  {
    EnvelopeRoundTrip(e);
  }

  /** A lookup answers for hosts on the list only, up to blanks at either end and case, and says so exactly when a
      stored entry is asked for by another. */
  lemma OnlyAllowedHosts(s: State, host: string, name: string, allowed: seq<string>, now: Time)
    ensures var r := Lookup(s, host, name, allowed, now);
      && (r.Found? ==> exists h | h in allowed :: Lower(Strip(h)) == Lower(Strip(host)))
      && (r == Refused(HostNotAllowed) <==>
          ValidName(name) && SlotOf(host, name) in s.entries && forall h | h in allowed :: Lower(Strip(h)) != Lower(Strip(host)))
  {}

  /** Under the invariant a lookup finds the entry in the slot exactly when that entry was sealed for
      this very host; another host with the same slug fails the integrity check. */
  lemma LookupIff(s: State, host: string, name: string, allowed: seq<string>, now: Time)
    requires Inv(s)
    ensures var slot := SlotOf(host, name); var r := Lookup(s, host, name, allowed, now);
      && (r.Found? <==>
          && ValidName(name) && slot in s.entries && (exists h | h in allowed :: Lower(Strip(h)) == Lower(Strip(host)))
          && s.key == Some(s.entries[slot].key) && Held(s.entries[slot]).host == host && now < Held(s.entries[slot]).expiresAt)
      && (r.Found? ==> r.entry == Held(s.entries[slot]) && r.entry.host == host && r.entry.name == name)
      && (r == Refused(Integrity) <==>
          && ValidName(name) && slot in s.entries && (exists h | h in allowed :: Lower(Strip(h)) == Lower(Strip(host))) && s.key.Some?
          && (s.key.value != s.entries[slot].key || Held(s.entries[slot]).host != host))
      && r != Refused(SchemaMismatch) && r != Refused(HostMismatch)
  {
    var slot := SlotOf(host, name);
    if ValidName(name) && slot in s.entries {
      var b := s.entries[slot];
      assert Sealed(slot, b);
      if b.associatedData == AssociatedData(host, name) {
        AssociatedDataInjective(host, name, Held(b).host, Held(b).name);
      }
    }
  }

  lemma StepKeepsInv(s: State, op: Op)
    requires Inv(s) && Sound(op)
    ensures Inv(Step(s, op).0)
  {
    match op
    case Put(e, force, minted) =>
      if PutStep(s, e, force, minted).1.Stored? { WrittenKeepsInv(s, if s.key.Some? then s.key.value else minted, e); }
    case Get(host, name, allowed, now, touch) =>
      var r := Lookup(s, host, name, allowed, now);
      if r.Found? {
        LookupIff(s, host, name, allowed, now);
        WrittenKeepsInv(s, s.key.value, r.entry.(lastUsedAt := Some(now)));
      }
    case Revoke(host, name) =>
    case RevokeAll =>
    case ResetKey =>
  }

  // ----- whole histories -----

  function Play(s: State, ops: seq<Op>): State
    decreases |ops|
  {
    if ops == [] then s else Play(Step(s, ops[0]).0, ops[1..])
  }

  datatype Pair = Pair(host: string, name: string)

  /** The entry last stored under each (host, name), whatever happened to it since. */
  function LastPut(s: State, ops: seq<Op>, before: map<Pair, Entry>): map<Pair, Entry>
    decreases |ops|
  {
    if ops == [] then before
    else
      var after :=
        if ops[0].Put? && Step(s, ops[0]).1.Stored? then before[Pair(ops[0].entry.host, ops[0].entry.name) := ops[0].entry]
        else before;
      LastPut(Step(s, ops[0]).0, ops[1..], after)
  }

  /** Every entry in the vault is the one last put under its host and name, up to its last use. */
  ghost predicate Faithful(s: State, last: map<Pair, Entry>) {
    forall slot | slot in s.entries ::
      var e := Held(s.entries[slot]); var p := Pair(e.host, e.name);
      p in last && e == last[p].(lastUsedAt := e.lastUsedAt)
  }

  lemma WrittenFaithful(s: State, key: Key, e: Entry, last: map<Pair, Entry>)
    requires Inv(s) && ValidName(e.name) && e.capturedBy != ""
    requires forall slot | slot in s.entries && slot != SlotOf(e.host, e.name) ::
      var h := Held(s.entries[slot]); Pair(h.host, h.name) in last && h == last[Pair(h.host, h.name)].(lastUsedAt := h.lastUsedAt)
    requires Pair(e.host, e.name) in last && e == last[Pair(e.host, e.name)].(lastUsedAt := e.lastUsedAt)
    ensures Faithful(Written(s, key, e), last)
  {
    WrittenKeepsInv(s, key, e);
  }

  lemma PutFaithful(s: State, e: Entry, key: Key, last: map<Pair, Entry>)
    requires Inv(s) && Faithful(s, last) && ValidName(e.name) && e.capturedBy != ""
    ensures Faithful(Written(s, key, e), last[Pair(e.host, e.name) := e])
  {
    forall slot | slot in s.entries && slot != SlotOf(e.host, e.name)
      ensures Pair(Held(s.entries[slot]).host, Held(s.entries[slot]).name) != Pair(e.host, e.name) {
      assert Sealed(slot, s.entries[slot]);
    }
    WrittenFaithful(s, key, e, last[Pair(e.host, e.name) := e]);
  }

  lemma GetFaithful(s: State, host: string, name: string, allowed: seq<string>, now: Time, touch: bool, last: map<Pair, Entry>)
    requires Inv(s) && Faithful(s, last)
    ensures Faithful(GetStep(s, host, name, allowed, now, touch).0, last)
  {
    var r := Lookup(s, host, name, allowed, now);
    if r.Found? {
      LookupIff(s, host, name, allowed, now);
      assert Sealed(SlotOf(host, name), s.entries[SlotOf(host, name)]);
      WrittenFaithful(s, s.key.value, r.entry.(lastUsedAt := Some(now)), last);
    }
  }

  lemma StepFaithful(s: State, op: Op, last: map<Pair, Entry>)
    requires Inv(s) && Sound(op) && Faithful(s, last)
    ensures Faithful(Step(s, op).0,
      if op.Put? && Step(s, op).1.Stored? then last[Pair(op.entry.host, op.entry.name) := op.entry] else last)
  {
    match op
    case Put(e, force, minted) =>
      if PutStep(s, e, force, minted).1.Stored? { PutFaithful(s, e, if s.key.Some? then s.key.value else minted, last); }
    case Get(host, name, allowed, now, touch) => GetFaithful(s, host, name, allowed, now, touch, last);
    case Revoke(host, name) =>
    case RevokeAll =>
    case ResetKey =>
  }

  lemma {:induction false} PlayKeeps(s: State, ops: seq<Op>, last: map<Pair, Entry>)
    requires Inv(s) && Faithful(s, last) && forall op | op in ops :: Sound(op)
    ensures Inv(Play(s, ops)) && Faithful(Play(s, ops), LastPut(s, ops, last))
    decreases |ops|
  {
    if ops != [] {
      var op, s' := ops[0], Step(s, ops[0]).0;
      assert op in ops;
      StepKeepsInv(s, op);
      StepFaithful(s, op, last);
      PlayKeeps(s', ops[1..], if op.Put? && Step(s, op).1.Stored? then last[Pair(op.entry.host, op.entry.name) := op.entry] else last);
    }
  }

  const EMPTY := State(map[], map[], None)

  /** After any history, a lookup either refuses or returns the entry last put under exactly this host
      and name, changed in nothing but its last use, even when hosts share a directory. */
  lemma GetReturnsLastPut(ops: seq<Op>, host: string, name: string, allowed: seq<string>, now: Time)
    requires forall op | op in ops :: Sound(op)
    ensures var r := Lookup(Play(EMPTY, ops), host, name, allowed, now); var last := LastPut(EMPTY, ops, map[]);
      r.Found? ==> Pair(host, name) in last && r.entry == last[Pair(host, name)].(lastUsedAt := r.entry.lastUsedAt)
  {
    PlayKeeps(EMPTY, ops, map[]);
    LookupIff(Play(EMPTY, ops), host, name, allowed, now);
  }

  /** Ciphertexts and sidecars stay in step through any history. */
  lemma SidecarsMatch(ops: seq<Op>)
    requires forall op | op in ops :: Sound(op)
    ensures Inv(Play(EMPTY, ops))
  {
    PlayKeeps(EMPTY, ops, map[]);
  }

  /** What was stored is there to read, until it expires. */
  lemma PutThenGet(s: State, e: Entry, force: bool, minted: Key, allowed: seq<string>, now: Time)
    requires Inv(s) && e.capturedBy != "" && PutStep(s, e, force, minted).1.Stored?
    ensures Lookup(PutStep(s, e, force, minted).0, e.host, e.name, allowed, now) ==
      if forall h | h in allowed :: Lower(Strip(h)) != Lower(Strip(e.host)) then Refused(HostNotAllowed)
      else if now >= e.expiresAt then Refused(Expired) else Found(e)
  {
    EnvelopeRoundTrip(e);
  }

  /** Two hosts with one slug have one slot between them: storing the second for a name hides the first. */
  lemma SharedSlugHides(s: State, e: Entry, minted: Key, host: string, allowed: seq<string>, now: Time)
    requires Inv(s) && e.capturedBy != "" && ValidName(e.name)
    requires host != e.host && HostSlug(host) == HostSlug(e.host) && Allowed(host, allowed)
    ensures Lookup(PutStep(s, e, true, minted).0, host, e.name, allowed, now) == Refused(Integrity)
  {
    var s' := PutStep(s, e, true, minted).0;
    WrittenKeepsInv(s, if s.key.Some? then s.key.value else minted, e);
    LookupIff(s', host, e.name, allowed, now);
  }

  lemma LookupReadsOneSlot(s: State, s': State, host: string, name: string, allowed: seq<string>, now: Time)
    requires s.key == s'.key && (SlotOf(host, name) in s.entries <==> SlotOf(host, name) in s'.entries)
    requires SlotOf(host, name) in s.entries ==> s.entries[SlotOf(host, name)] == s'.entries[SlotOf(host, name)]
    ensures Lookup(s, host, name, allowed, now) == Lookup(s', host, name, allowed, now)
  {}

  /** After a revocation nothing is found for any host sharing the slug, and other slots are as they were. */
  lemma RevokeRemoves(s: State, host: string, name: string, host': string, name': string, allowed: seq<string>, now: Time)
    requires ValidName(name) && ValidName(name')
    ensures Lookup(RevokeStep(s, host, name).0, host', name', allowed, now) ==
      if SlotOf(host', name') == SlotOf(host, name) then Refused(NotFound) else Lookup(s, host', name', allowed, now)
  {
    if SlotOf(host', name') != SlotOf(host, name) {
      LookupReadsOneSlot(RevokeStep(s, host, name).0, s, host', name', allowed, now);
    }
  }

  // ----- listing -----

  const META_SUFFIX := ".json.meta"

  function FileKey(slot: Slot): seq<string> { [slot.dir, slot.name + META_SUFFIX] }

  predicate FileLe(a: Slot, b: Slot) { PathLe(FileKey(a), FileKey(b)) }

  ghost predicate Listing(slots: seq<Slot>, out: seq<Metadata>, m: map<Slot, Metadata>) {
    && NoDup(slots) && Sorted(FileLe, slots) && (forall slot :: slot in slots <==> slot in m)
    && |out| == |slots| && forall i | 0 <= i < |out| :: slots[i] in m && out[i] == m[slots[i]]
  }

  lemma FileOrdering()
    ensures Ordering(FileLe)
  {
    forall x, y ensures FileLe(x, y) || FileLe(y, x) { PathLeTotal(FileKey(x), FileKey(y)); }
    forall x, y, z | FileLe(x, y) && FileLe(y, z) ensures FileLe(x, z) { PathLeTrans(FileKey(x), FileKey(y), FileKey(z)); }
  }

  lemma FileKeyInjective(a: Slot, b: Slot)
    requires FileLe(a, b) && FileLe(b, a)
    ensures a == b
  {
    PathLeAntisym(FileKey(a), FileKey(b));
    assert FileKey(a)[0] == FileKey(b)[0] && FileKey(a)[1] == FileKey(b)[1];
    var s, t := a.name + META_SUFFIX, b.name + META_SUFFIX;
    assert s[..|s| - |META_SUFFIX|] == a.name && t[..|t| - |META_SUFFIX|] == b.name;
  }

  /** The listing is a function of the directory tree. */
  lemma ListingUnique(slots: seq<Slot>, out: seq<Metadata>, slots': seq<Slot>, out': seq<Metadata>, m: map<Slot, Metadata>)
    requires Listing(slots, out, m) && Listing(slots', out', m)
    ensures out == out'
  {
    SameSetSameMultiset(slots, slots');
    FileOrdering();
    forall x, y | x in slots && y in slots && FileLe(x, y) && FileLe(y, x) ensures x == y { FileKeyInjective(x, y); }
    SortedUnique(FileLe, slots, slots');
  }

  method SortedSlots(m: map<Slot, Metadata>) returns (slots: seq<Slot>)
    ensures NoDup(slots) && Sorted(FileLe, slots) && forall slot :: slot in slots <==> slot in m
  {
    var all := Enumerate(m.Keys);
    slots := SortBy(FileLe, all);
    FileOrdering();
    SortBySorted(FileLe, all);
    NoDupSort(FileLe, all);
    forall slot ensures slot in slots <==> slot in m { SameElements(slots, all, slot); }
  }

  // ----- the vault -----

  class Vault {
    var entries: map<Slot, Blob>
    var sidecars: map<Slot, Metadata>
    var key: Option<Key>

    constructor ()
      ensures Snapshot() == EMPTY
    {
      entries, sidecars, key := map[], map[], None;
    }

    function Snapshot(): State
      reads this
    {
      State(entries, sidecars, key)
    }

    method Put(e: Entry, force: bool, minted: Key) returns (r: Reply)
      modifies this
      ensures (Snapshot(), r) == PutStep(old(Snapshot()), e, force, minted)
      ensures r == Refused(AlreadyExists) <==> ValidName(e.name) && !force && SlotOf(e.host, e.name) in old(entries)
    {
      if !ValidName(e.name) { return Refused(BadName); }
      var target := SlotOf(e.host, e.name);
      if target in entries && !force { return Refused(AlreadyExists); }
      if key.None? { key := Some(minted); }
      entries := entries[target := Seal(key.value, e)];
      sidecars := sidecars[target := MetadataOf(e)];
      r := Stored;
    }

    method Get(host: string, name: string, allowed: seq<string>, now: Time, touch: bool) returns (r: Reply)
      modifies this
      ensures (Snapshot(), r) == GetStep(old(Snapshot()), host, name, allowed, now, touch)
      ensures r.Found? ==> exists h | h in allowed :: Lower(Strip(h)) == Lower(Strip(host))
      ensures r == Refused(HostNotAllowed) <==>
        ValidName(name) && SlotOf(host, name) in old(entries) && forall h | h in allowed :: Lower(Strip(h)) != Lower(Strip(host))
    {
      OnlyAllowedHosts(Snapshot(), host, name, allowed, now);
      if !ValidName(name) { return Refused(BadName); }
      var target := SlotOf(host, name);
      if target !in entries { return Refused(NotFound); }
      if !Allowed(host, allowed) { return Refused(HostNotAllowed); }
      if key.None? { return Refused(NoKey); }
      var plain := Unseal(key.value, entries[target], AssociatedData(host, name));
      if plain.None? { return Refused(Integrity); }
      if plain.value.schemaVersion != SCHEMA_VERSION { return Refused(SchemaMismatch); }
      var entry := EntryOf(plain.value);
      if HostSlug(entry.host) != HostSlug(host) { return Refused(HostMismatch); }
      if now >= entry.expiresAt { return Refused(Expired); }
      if touch {
        entry := entry.(lastUsedAt := Some(now));
        RewriteEnvelope(key.value, entry);
      }
      r := Found(entry);
    }

    method RewriteEnvelope(k: Key, e: Entry)
      requires key == Some(k)
      modifies this
      ensures Snapshot() == Written(old(Snapshot()), k, e)
    {
      var target := SlotOf(e.host, e.name);
      entries := entries[target := Seal(k, e)];
      sidecars := sidecars[target := MetadataOf(e)];
    }

    method Revoke(host: string, name: string) returns (r: Reply)
      modifies this
      ensures (Snapshot(), r) == RevokeStep(old(Snapshot()), host, name)
    {
      if !ValidName(name) { return Refused(BadName); }
      var target := SlotOf(host, name);
      var removed := false;
      if target in entries {
        entries := entries - {target};
        removed := true;
      }
      if target in sidecars { sidecars := sidecars - {target}; }
      assert entries == old(entries) - {target} && sidecars == old(sidecars) - {target};
      r := Removed(removed);
    }

    /** Unlinks the files one at a time, in whatever order the directories list them. */
    method RevokeAll() returns (removed: nat)
      modifies this
      ensures (Snapshot(), Counted(removed)) == Step(old(Snapshot()), Op.RevokeAll)
    {
      removed := 0;
      while entries != map[]
        invariant removed + |entries| == |old(entries)|
        invariant sidecars == old(sidecars) && key == old(key)
        decreases |entries|
      {
        var slot :| slot in entries;
        assert (entries - {slot}).Keys == entries.Keys - {slot};
        entries := entries - {slot};
        removed := removed + 1;
      }
      while sidecars != map[]
        invariant entries == map[] && key == old(key)
        decreases |sidecars|
      {
        var slot :| slot in sidecars;
        assert (sidecars - {slot}).Keys == sidecars.Keys - {slot};
        sidecars := sidecars - {slot};
      }
    }

    method List() returns (out: seq<Metadata>)
      ensures exists slots :: Listing(slots, out, sidecars)
    {
      var files := SortedSlots(sidecars);
      out := [];
      for i := 0 to |files|
        invariant |out| == i && forall k | 0 <= k < i :: files[k] in sidecars && out[k] == sidecars[files[k]]
      {
        assert files[i] in files;
        out := out + [sidecars[files[i]]];
      }
      assert Listing(files, out, sidecars);
    }
  }
}
