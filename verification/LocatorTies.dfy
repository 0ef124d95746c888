/** Which of several equally good candidates a locator repair records, and exactly when the order in which the
    page lists them shows (engine/healer/locator_repair.py:121-137, 237-243). */
module LocatorTies {
  import opened Sorting
  import opened Wrappers
  import opened LocatorRepair

  /** A candidate as good as the chosen one. */
  predicate TopTied(env: Env, d: Descriptor, cs: seq<Candidate>, c: Candidate) {
    Best(env, d, cs).Some? && c in cs && Score(env, d, c).0 > 0.0 && Better(ScoredOf(env, d, c), Best(env, d, cs).value)
  }

  // ----- the first listed wins -----

  lemma SortHead(x: Scored, rest: seq<Scored>)
    ensures SortBy(Better, [x] + rest)[0] ==
      if rest == [] || Better(x, SortBy(Better, rest)[0]) then x else SortBy(Better, rest)[0]
  {
    assert ([x] + rest)[1..] == rest && ([x] + rest)[0] == x;
    var sorted := SortBy(Better, rest);
    assert SortBy(Better, [x] + rest) == Insert(Better, x, sorted);
  }

  lemma BestCons(env: Env, d: Descriptor, c: Candidate, rest: seq<Candidate>)
    ensures Best(env, d, [c] + rest) ==
      if Score(env, d, c).0 > 0.0 && (Best(env, d, rest).None? || Better(ScoredOf(env, d, c), Best(env, d, rest).value))
      then Some(ScoredOf(env, d, c)) else Best(env, d, rest)
  {
    assert ([c] + rest)[1..] == rest && ([c] + rest)[0] == c;
    var scored := ScoreAll(env, d, rest);
    if Score(env, d, c).0 > 0.0 {
      assert ScoreAll(env, d, [c] + rest) == [ScoredOf(env, d, c)] + scored;
      SortHead(ScoredOf(env, d, c), scored);
    } else {
      assert ScoreAll(env, d, [c] + rest) == scored;
    }
  }

  /** The choice stands before every other candidate as good as it. */
  lemma {:induction false} TiesGoToTheFirst(env: Env, d: Descriptor, cs: seq<Candidate>) returns (k: nat)
    requires Best(env, d, cs).Some?
    ensures k < |cs| && Best(env, d, cs) == Some(ScoredOf(env, d, cs[k]))
    ensures forall j | 0 <= j < k :: !TopTied(env, d, cs, cs[j])
  {
    var c, rest := cs[0], cs[1..];
    assert cs == [c] + rest;
    BestCons(env, d, c, rest);
    if Best(env, d, cs) == Some(ScoredOf(env, d, c)) {
      k := 0;
    } else {
      var i := TiesGoToTheFirst(env, d, rest);
      k := i + 1;
      forall j | 0 <= j < k ensures !TopTied(env, d, cs, cs[j]) {
        if j > 0 { assert cs[j] == rest[j - 1]; }
      }
    }
  }

  // ----- when the listing shows -----

  lemma TopTiedForgetsOrder(env: Env, d: Descriptor, cs: seq<Candidate>, ds: seq<Candidate>, c: Candidate)
    requires multiset(cs) == multiset(ds)
    ensures TopTied(env, d, cs, c) <==> TopTied(env, d, ds, c)
  {
    forall x ensures x in cs <==> x in ds { SameElements(cs, ds, x); }
    OrderDoesNotMatter(env, d, cs, ds);
  }

  lemma BestIsTied(env: Env, d: Descriptor, cs: seq<Candidate>)
    requires Best(env, d, cs).Some?
    ensures TopTied(env, d, cs, Best(env, d, cs).value.candidate)
  {
    BestIsBest(env, d, cs);
    StrLeTotal(Best(env, d, cs).value.candidate.accessibleName, Best(env, d, cs).value.candidate.accessibleName);
  }

  /** Any of the tied candidates is chosen under some listing: the one that puts it first. */
  lemma MovedToFront(env: Env, d: Descriptor, cs: seq<Candidate>, c: Candidate) returns (ds: seq<Candidate>)
    requires TopTied(env, d, cs, c)
    ensures multiset(ds) == multiset(cs) && Best(env, d, ds) == Some(ScoredOf(env, d, c))
  {
    var i :| 0 <= i < |cs| && cs[i] == c;
    ds := [c] + (cs[..i] + cs[i + 1..]);
    assert cs == cs[..i] + [c] + cs[i + 1..];
    TopTiedForgetsOrder(env, d, cs, ds, c);
    var k := TiesGoToTheFirst(env, d, ds);
    assert ds[0] == c;
  }

  ghost predicate TiesAreOne(env: Env, d: Descriptor, cs: seq<Candidate>) {
    forall a, b | TopTied(env, d, cs, a) && TopTied(env, d, cs, b) :: a == b
  }

  /** Every listing of the candidates leads to one choice exactly when all that tie at the top are equal. */
  lemma BestStaysIff(env: Env, d: Descriptor, cs: seq<Candidate>)
    ensures (forall ds | multiset(ds) == multiset(cs) :: Best(env, d, ds) == Best(env, d, cs)) <==> TiesAreOne(env, d, cs)
  {
    if TiesAreOne(env, d, cs) {
      forall ds | multiset(ds) == multiset(cs) ensures Best(env, d, ds) == Best(env, d, cs) { OneTieOneChoice(env, d, cs, ds); }
    } else {
      var ds := OtherChoice(env, d, cs);
    }
  }

  lemma OneTieOneChoice(env: Env, d: Descriptor, cs: seq<Candidate>, ds: seq<Candidate>)
    requires multiset(ds) == multiset(cs) && TiesAreOne(env, d, cs)
    ensures Best(env, d, ds) == Best(env, d, cs)
  {
    forall x ensures x in cs <==> x in ds { SameElements(cs, ds, x); }
    OrderDoesNotMatter(env, d, cs, ds);
    BestIsBest(env, d, cs);
    BestIsBest(env, d, ds);
    if Best(env, d, ds).Some? {
      BestIsTied(env, d, cs);
      BestIsTied(env, d, ds);
      TopTiedForgetsOrder(env, d, cs, ds, Best(env, d, ds).value.candidate);
    }
  }

  lemma OtherChoice(env: Env, d: Descriptor, cs: seq<Candidate>) returns (ds: seq<Candidate>)
    requires !TiesAreOne(env, d, cs)
    ensures multiset(ds) == multiset(cs) && Best(env, d, cs).Some? && Best(env, d, ds).Some?
    ensures Best(env, d, ds).value.candidate != Best(env, d, cs).value.candidate
  {
    var a, b :| TopTied(env, d, cs, a) && TopTied(env, d, cs, b) && a != b;
    ds := MovedToFront(env, d, cs, if a == Best(env, d, cs).value.candidate then b else a);
  }

  lemma DescriptorTellsCandidate(a: Candidate, b: Candidate)
    ensures DescriptorOf(a) == DescriptorOf(b) <==> a == b
  {}

  /** A proposal, recorded descriptor included, is the same for every listing exactly when all candidates that
      tie at the top are equal. */
  lemma ProposalStaysIff(env: Env, source: string, locatorLine: int, d: Descriptor, cs: seq<Candidate>, threshold: real)
    requires SpansInside(env) && Propose(env, source, locatorLine, d, cs, threshold).Proposed?
    ensures (forall ds | multiset(ds) == multiset(cs) ::
        Propose(env, source, locatorLine, d, ds, threshold) == Propose(env, source, locatorLine, d, cs, threshold))
      <==> TiesAreOne(env, d, cs)
  {
    BestStaysIff(env, d, cs);
    if !TiesAreOne(env, d, cs) {
      var ds := OtherChoice(env, d, cs);
      ProposalTellsChoice(env, source, locatorLine, d, cs, ds, threshold);
    } else {
      forall ds | multiset(ds) == multiset(cs)
        ensures Propose(env, source, locatorLine, d, ds, threshold) == Propose(env, source, locatorLine, d, cs, threshold)
      {
        SameChoiceSameOutcome(env, source, locatorLine, d, cs, ds, threshold);
      }
    }
  }

  lemma SameChoiceSameOutcome(env: Env, source: string, locatorLine: int, d: Descriptor, cs: seq<Candidate>, ds: seq<Candidate>, threshold: real)
    requires SpansInside(env) && Best(env, d, ds) == Best(env, d, cs)
    ensures Propose(env, source, locatorLine, d, ds, threshold) == Propose(env, source, locatorLine, d, cs, threshold)
  {}

  lemma ProposalTellsChoice(env: Env, source: string, locatorLine: int, d: Descriptor, cs: seq<Candidate>, ds: seq<Candidate>, threshold: real)
    requires SpansInside(env) && Propose(env, source, locatorLine, d, cs, threshold).Proposed?
    requires Best(env, d, cs).Some? && Best(env, d, ds).Some? && Best(env, d, ds).value.candidate != Best(env, d, cs).value.candidate
    ensures Propose(env, source, locatorLine, d, ds, threshold) != Propose(env, source, locatorLine, d, cs, threshold)
  {
    DescriptorTellsCandidate(Best(env, d, ds).value.candidate, Best(env, d, cs).value.candidate);
  }
}
