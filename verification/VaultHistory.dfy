/** The vault over whole histories (engine/auth/vault.py:156-236, 242-311): with its encryption ideal it is a plain
    map from slots to entries, and a lookup finds an entry exactly when that map's slot was last written for its host. */
module VaultHistory {
  import opened Text
  import opened Wrappers
  import opened V = Vault

  /** Who holds a slot: the entry as last written, and the key of that time. */
  datatype Held = Held(entry: Entry, key: Key)

  datatype Plain = Plain(slots: map<Slot, Held>, key: Option<Key>)

  predicate Opens(p: Plain, host: string, name: string, allowed: seq<string>, now: Time) {
    var slot := SlotOf(host, name);
    && ValidName(name) && slot in p.slots && (exists h | h in allowed :: Lower(Strip(h)) == Lower(Strip(host)))
    && p.key == Some(p.slots[slot].key) && p.slots[slot].entry.host == host && now < p.slots[slot].entry.expiresAt
  }

  function PlainStep(p: Plain, op: Op): Plain {
    match op
    case Put(e, force, minted) =>
      if !ValidName(e.name) || (SlotOf(e.host, e.name) in p.slots && !force) then p
      else
        var key := if p.key.Some? then p.key.value else minted;
        Plain(p.slots[SlotOf(e.host, e.name) := Held(e, key)], Some(key))
    case Get(host, name, allowed, now, touch) =>
      var slot := SlotOf(host, name);
      if touch && Opens(p, host, name, allowed, now) then
        p.(slots := p.slots[slot := Held(p.slots[slot].entry.(lastUsedAt := Some(now)), p.slots[slot].key)])
      else p
    case Revoke(host, name) => if ValidName(name) then p.(slots := p.slots - {SlotOf(host, name)}) else p
    case RevokeAll => p.(slots := map[])
    case ResetKey => p.(key := None)
  }

  function PlainPlay(p: Plain, ops: seq<Op>): Plain
    decreases |ops|
  {
    if ops == [] then p else PlainPlay(PlainStep(p, ops[0]), ops[1..])
  }

  function PlainOf(s: State): Plain {
    Plain(map slot | slot in s.entries :: Held(V.Held(s.entries[slot]), s.entries[slot].key), s.key)
  }

  lemma WrittenIsPlain(s: State, key: Key, e: Entry)
    requires e.capturedBy != ""
    ensures PlainOf(Written(s, key, e)) == Plain(PlainOf(s).slots[SlotOf(e.host, e.name) := Held(e, key)], Some(key))
  {
    EnvelopeRoundTrip(e);
  }

  lemma OpensIsFound(s: State, host: string, name: string, allowed: seq<string>, now: Time)
    requires Inv(s)
    ensures Lookup(s, host, name, allowed, now).Found? <==> Opens(PlainOf(s), host, name, allowed, now)
    ensures Lookup(s, host, name, allowed, now).Found? ==>
      Lookup(s, host, name, allowed, now).entry == PlainOf(s).slots[SlotOf(host, name)].entry
      && Lookup(s, host, name, allowed, now).entry.name == name
  {
    LookupIff(s, host, name, allowed, now);
  }

  lemma GetRefines(s: State, host: string, name: string, allowed: seq<string>, now: Time, touch: bool)
    requires Inv(s)
    ensures PlainOf(GetStep(s, host, name, allowed, now, touch).0) == PlainStep(PlainOf(s), Get(host, name, allowed, now, touch))
  {
    OpensIsFound(s, host, name, allowed, now);
    if Lookup(s, host, name, allowed, now).Found? && touch {
      var slot := SlotOf(host, name);
      var e := Lookup(s, host, name, allowed, now).entry.(lastUsedAt := Some(now));
      assert Sealed(slot, s.entries[slot]);
      WrittenIsPlain(s, s.key.value, e);
    }
  }

  lemma PutRefines(s: State, e: Entry, force: bool, minted: Key)
    requires e.capturedBy != ""
    ensures PlainOf(PutStep(s, e, force, minted).0) == PlainStep(PlainOf(s), Put(e, force, minted))
  {
    WrittenIsPlain(s, if s.key.Some? then s.key.value else minted, e);
  }

  lemma RevokeRefines(s: State, host: string, name: string)
    ensures PlainOf(RevokeStep(s, host, name).0) == PlainStep(PlainOf(s), Revoke(host, name))
  {
    if ValidName(name) { assert PlainOf(RevokeStep(s, host, name).0).slots == PlainOf(s).slots - {SlotOf(host, name)}; }
  }

  /** Each operation does to the plain map what it does to the files. */
  lemma StepRefines(s: State, op: Op)
    requires Inv(s) && Sound(op)
    ensures PlainOf(Step(s, op).0) == PlainStep(PlainOf(s), op)
  {
    match op
    case Put(e, force, minted) => PutRefines(s, e, force, minted);
    case Get(host, name, allowed, now, touch) => GetRefines(s, host, name, allowed, now, touch);
    case Revoke(host, name) => RevokeRefines(s, host, name);
    case RevokeAll =>
    case ResetKey =>
  }

  lemma {:induction false} PlayRefines(s: State, ops: seq<Op>)
    requires Inv(s) && forall op | op in ops :: Sound(op)
    ensures PlainOf(Play(s, ops)) == PlainPlay(PlainOf(s), ops) && Inv(Play(s, ops))
    decreases |ops|
  {
    if ops != [] {
      assert ops[0] in ops;
      StepKeepsInv(s, ops[0]);
      StepRefines(s, ops[0]);
      PlayRefines(Step(s, ops[0]).0, ops[1..]);
    }
  }

  /** After any history a lookup finds an entry exactly when the plain map opens for it: its slot was last written
      for this host and not emptied since, under the key still in use, the host is allowed and time is left; and
      then it finds what the map holds. */
  lemma FoundIff(ops: seq<Op>, host: string, name: string, allowed: seq<string>, now: Time)
    requires forall op | op in ops :: Sound(op)
    ensures var r := Lookup(Play(EMPTY, ops), host, name, allowed, now);
      var p := PlainPlay(Plain(map[], None), ops);
      && (r.Found? <==> Opens(p, host, name, allowed, now))
      && (r.Found? ==> r.entry == p.slots[SlotOf(host, name)].entry)
  {
    PlayRefines(EMPTY, ops);
    assert PlainOf(EMPTY) == Plain(map[], None);
    OpensIsFound(Play(EMPTY, ops), host, name, allowed, now);
  }

  lemma LookupTold(s: State, host: string, name: string, allowed: seq<string>, now: Time)
    requires Inv(s)
    ensures var r, slot := Lookup(s, host, name, allowed, now), SlotOf(host, name);
      var listed := exists h | h in allowed :: Lower(Strip(h)) == Lower(Strip(host));
      && (r == Refused(BadName) <==> !ValidName(name))
      && (r == Refused(NotFound) <==> ValidName(name) && slot !in s.entries)
      && (r == Refused(HostNotAllowed) <==> ValidName(name) && slot in s.entries && !listed)
      && (r == Refused(NoKey) <==> ValidName(name) && slot in s.entries && listed && s.key.None?)
  {
    OnlyAllowedHosts(s, host, name, allowed, now);
  }

  /** Why a lookup after any history refuses: the name, no entry, a host not on the list, or no key. */
  lemma RefusedIff(ops: seq<Op>, host: string, name: string, allowed: seq<string>, now: Time)
    requires forall op | op in ops :: Sound(op)
    ensures var r, slot := Lookup(Play(EMPTY, ops), host, name, allowed, now), SlotOf(host, name);
      var p := PlainPlay(Plain(map[], None), ops);
      var listed := exists h | h in allowed :: Lower(Strip(h)) == Lower(Strip(host));
      && (r == Refused(BadName) <==> !ValidName(name))
      && (r == Refused(NotFound) <==> ValidName(name) && slot !in p.slots)
      && (r == Refused(HostNotAllowed) <==> ValidName(name) && slot in p.slots && !listed)
      && (r == Refused(NoKey) <==> ValidName(name) && slot in p.slots && listed && p.key.None?)
  {
    PlayRefines(EMPTY, ops);
    assert PlainOf(EMPTY) == Plain(map[], None);
    LookupTold(Play(EMPTY, ops), host, name, allowed, now);
  }

  /** And, past all that, a broken seal or an entry out of time; a lookup refuses for no other reason. */
  lemma BrokenOrExpiredIff(ops: seq<Op>, host: string, name: string, allowed: seq<string>, now: Time)
    requires forall op | op in ops :: Sound(op)
    ensures var r, slot := Lookup(Play(EMPTY, ops), host, name, allowed, now), SlotOf(host, name);
      var p := PlainPlay(Plain(map[], None), ops);
      var reached := ValidName(name) && slot in p.slots && p.key.Some? && exists h | h in allowed :: Lower(Strip(h)) == Lower(Strip(host));
      && (r == Refused(Integrity) <==> reached && (p.slots[slot].key != p.key.value || p.slots[slot].entry.host != host))
      && (r == Refused(Expired) <==>
          reached && p.slots[slot].key == p.key.value && p.slots[slot].entry.host == host && now >= p.slots[slot].entry.expiresAt)
      && r != Refused(SchemaMismatch) && r != Refused(HostMismatch)
  {
    PlayRefines(EMPTY, ops);
    assert PlainOf(EMPTY) == Plain(map[], None);
    var s := Play(EMPTY, ops);
    LookupIff(s, host, name, allowed, now);
    OpensIsFound(s, host, name, allowed, now);
    LookupTold(s, host, name, allowed, now);
  }
}
