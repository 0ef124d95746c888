/** The windowed flake rate and runs that started at the same time, which the query may return in either order
    (engine/persistence/flake_db.py:192-210): exactly when that shows in the rate. */
module FlakeWindow {
  import opened Counting
  import opened Sorting
  import opened FlakeDb

  lemma RankingsPermute(t: Tables, m: string, x: string, a: seq<string>, b: seq<string>)
    requires Ranking(t, m, x, a) && Ranking(t, m, x, b)
    ensures multiset(a) == multiset(b) && |a| == |b|
  {
    SameSetSameMultiset(a, b);
    MultisetSize(a, b);
  }

  // ----- leading rows -----

  lemma {:induction false} CountAtMost<T>(p: T -> bool, s: seq<T>)
    ensures Count(p, s) <= |s|
  {
    if s != [] { CountAtMost(p, s[1..]); }
  }

  lemma {:induction false} CountAll<T>(p: T -> bool, s: seq<T>)
    requires forall x | x in s :: p(x)
    ensures Count(p, s) == |s|
  {
    if s != [] {
      assert s[0] in s;
      CountAll(p, s[1..]);
    }
  }

  /** Where whatever precedes a row that satisfies `p` satisfies it too, the rows that do are the leading ones. */
  ghost predicate Leading<T>(p: T -> bool, rows: seq<T>) {
    forall i, j | 0 <= i < j < |rows| && p(rows[j]) :: p(rows[i])
  }

  lemma {:induction false} LeadingCount<T>(p: T -> bool, rows: seq<T>)
    requires Leading(p, rows)
    ensures Count(p, rows) <= |rows| && forall i | 0 <= i < |rows| :: p(rows[i]) <==> i < Count(p, rows)
  {
    if rows != [] {
      assert forall i | 0 <= i < |rows[1..]| :: rows[1..][i] == rows[i + 1];
      LeadingCount(p, rows[1..]);
      CountAtMost(p, rows);
      if !p(rows[0]) { CountNone(p, rows); }
    }
  }

  /** The runs that start later than `cut`, and those that start no earlier. */
  function Later(t: Tables, cut: string): string -> bool { (run: string) => !StrLe(Start(t, run), cut) }
  function NoEarlier(t: Tables, cut: string): string -> bool { (run: string) => StrLe(cut, Start(t, run)) }

  lemma RankedLeading(t: Tables, m: string, x: string, rows: seq<string>, cut: string)
    requires Ranking(t, m, x, rows)
    ensures Leading(Later(t, cut), rows) && Leading(NoEarlier(t, cut), rows)
  {
    forall i, j | 0 <= i < j < |rows| && Later(t, cut)(rows[j]) ensures Later(t, cut)(rows[i]) {
      if StrLe(Start(t, rows[i]), cut) { StrLeTrans(Start(t, rows[j]), Start(t, rows[i]), cut); }
    }
    forall i, j | 0 <= i < j < |rows| && NoEarlier(t, cut)(rows[j]) ensures NoEarlier(t, cut)(rows[i]) {
      StrLeTrans(cut, Start(t, rows[j]), Start(t, rows[i]));
    }
  }

  /** Any ranking: first the runs later than `cut`, then those that start at it, as far as `e`. */
  lemma RankedParts(t: Tables, m: string, x: string, rows: seq<string>, cut: string, k: nat, e: nat)
    requires Ranking(t, m, x, rows) && k == Count(Later(t, cut), rows) && e == Count(NoEarlier(t, cut), rows)
    ensures k <= |rows| && e <= |rows|
    ensures forall i | 0 <= i < |rows| :: i < k <==> !StrLe(Start(t, rows[i]), cut)
    ensures forall i | k <= i < e :: Start(t, rows[i]) == cut
  {
    RankedLeading(t, m, x, rows, cut);
    LeadingCount(Later(t, cut), rows);
    LeadingCount(NoEarlier(t, cut), rows);
    forall i | k <= i < e ensures Start(t, rows[i]) == cut {
      assert NoEarlier(t, cut)(rows[i]) && !Later(t, cut)(rows[i]);
      StrLeAntisym(cut, Start(t, rows[i]));
    }
  }

  // ----- runs tied at the edge of the window -----

  /** The window ends inside a tie. */
  predicate Cuts(t: Tables, rows: seq<string>, window: int) {
    0 < window < |rows| && Start(t, rows[window - 1]) == Start(t, rows[window])
  }

  /** The runs tied at the edge all failed, or none did. */
  ghost predicate Uniform(t: Tables, m: string, x: string, rows: seq<string>, cut: string) {
    forall r, s | r in rows && s in rows && Start(t, r) == cut == Start(t, s) :: FailedIn(t, m, x, r) == FailedIn(t, m, x, s)
  }

  ghost predicate EdgeAgrees(t: Tables, m: string, x: string, rows: seq<string>, window: int) {
    Cuts(t, rows, window) ==> Uniform(t, m, x, rows, Start(t, rows[window]))
  }

  /** What a window counts that ends inside a tie of runs of one kind. */
  lemma EdgeCount(p: string -> bool, rows: seq<string>, k: nat, w: nat, kind: bool)
    requires k <= w <= |rows| && forall i | k <= i < w :: p(rows[i]) == kind
    ensures Count(p, rows[..w]) == Count(p, rows[..k]) + if kind then w - k else 0
  {
    assert rows[..w] == rows[..k] + rows[k..w];
    CountConcat(p, rows[..k], rows[k..w]);
    if kind { CountAll(p, rows[k..w]); } else { CountNone(p, rows[k..w]); }
  }

  /** Two rankings agree on the runs that start later than `cut`. */
  lemma LaterAgree(t: Tables, m: string, x: string, a: seq<string>, b: seq<string>, cut: string, k: nat)
    requires Ranking(t, m, x, a) && Ranking(t, m, x, b) && k == Count(Later(t, cut), a) == Count(Later(t, cut), b)
    ensures k <= |a| && k <= |b| && Count(Failing(t, m, x), a[..k]) == Count(Failing(t, m, x), b[..k])
  {
    RankedParts(t, m, x, a, cut, k, Count(NoEarlier(t, cut), a));
    RankedParts(t, m, x, b, cut, k, Count(NoEarlier(t, cut), b));
    forall run ensures run in a[..k] <==> run in b[..k] {
      LeadingMember(a, k, cut, t, run);
      LeadingMember(b, k, cut, t, run);
      assert run in a <==> run in b;
    }
    SameSetSameMultiset(a[..k], b[..k]);
    CountPermuted(Failing(t, m, x), a[..k], b[..k]);
  }

  lemma LeadingMember(rows: seq<string>, k: nat, cut: string, t: Tables, run: string)
    requires k <= |rows| && forall i | 0 <= i < |rows| :: i < k <==> !StrLe(Start(t, rows[i]), cut)
    ensures run in rows[..k] <==> run in rows && !StrLe(Start(t, run), cut)
  {
    if run in rows && !StrLe(Start(t, run), cut) {
      var i :| 0 <= i < |rows| && rows[i] == run;
      assert rows[..k][i] == run;
    }
  }

  /** A window that ends at or inside the runs that start at `cut`. */
  lemma EdgeWindow(t: Tables, m: string, x: string, a: seq<string>, b: seq<string>, cut: string, w: nat, kind: bool)
    requires Ranking(t, m, x, a) && Ranking(t, m, x, b)
    requires Count(Later(t, cut), a) <= w <= Count(NoEarlier(t, cut), a)
    requires forall run | run in a && Start(t, run) == cut :: FailedIn(t, m, x, run) == kind
    ensures w <= |a| && w <= |b| && Count(Failing(t, m, x), a[..w]) == Count(Failing(t, m, x), b[..w])
  {
    var k, e := Count(Later(t, cut), a), Count(NoEarlier(t, cut), a);
    RankingsPermute(t, m, x, a, b);
    CountPermuted(Later(t, cut), a, b);
    CountPermuted(NoEarlier(t, cut), a, b);
    RankedParts(t, m, x, a, cut, k, e);
    RankedParts(t, m, x, b, cut, k, e);
    LaterAgree(t, m, x, a, b, cut, k);
    forall i | k <= i < w ensures Failing(t, m, x)(a[i]) == kind && Failing(t, m, x)(b[i]) == kind { assert b[i] in a; }
    EdgeCount(Failing(t, m, x), a, k, w, kind);
    EdgeCount(Failing(t, m, x), b, k, w, kind);
  }

  lemma EdgePlace(t: Tables, m: string, x: string, a: seq<string>, w: nat)
    requires Ranking(t, m, x, a) && 0 < w < |a|
    ensures var cut := Start(t, a[w]);
      Count(Later(t, cut), a) <= w < Count(NoEarlier(t, cut), a)
      && (!Cuts(t, a, w) ==> Count(Later(t, cut), a) == w)
  {
    var cut := Start(t, a[w]);
    StrLeTotal(cut, cut);
    RankedLeading(t, m, x, a, cut);
    LeadingCount(Later(t, cut), a);
    LeadingCount(NoEarlier(t, cut), a);
    assert !Later(t, cut)(a[w]) && NoEarlier(t, cut)(a[w]);
    if !Later(t, cut)(a[w - 1]) { StrLeAntisym(cut, Start(t, a[w - 1])); }
  }

  lemma AgreedEdgeForgetsTies(t: Tables, m: string, x: string, a: seq<string>, b: seq<string>, window: int)
    requires Ranking(t, m, x, a) && Ranking(t, m, x, b) && EdgeAgrees(t, m, x, a, window)
    ensures StatOver(t, m, x, a, window) == StatOver(t, m, x, b, window)
  {
    RankingsPermute(t, m, x, a, b);
    if 0 < window < |a| {
      var cut := Start(t, a[window]);
      EdgePlace(t, m, x, a, window);
      if Cuts(t, a, window) {
        EdgeWindow(t, m, x, a, b, cut, window, FailedIn(t, m, x, a[window]));
      } else {
        CountPermuted(Later(t, cut), a, b);
        LaterAgree(t, m, x, a, b, cut, window);
      }
    } else if window != 0 {
      CountPermuted(Failing(t, m, x), a, b);
    }
  }

  // ----- a tie that shows -----

  function Swap<T>(s: seq<T>, i: nat, j: nat): seq<T>
    requires i < |s| && j < |s|
  {
    s[i := s[j]][j := s[i]]
  }

  lemma CountUpdate<T>(p: T -> bool, s: seq<T>, i: nat, x: T)
    requires i < |s|
    ensures Count(p, s[i := x]) == Count(p, s) - (if p(s[i]) then 1 else 0) + if p(x) then 1 else 0
  {
    var front, back := s[..i], s[i + 1..];
    assert s == front + ([s[i]] + back) && s[i := x] == front + ([x] + back);
    CountConcat(p, front, [s[i]] + back);
    CountConcat(p, front, [x] + back);
    assert ([s[i]] + back)[1..] == back && ([x] + back)[1..] == back;
  }

  lemma SwapRanks(t: Tables, m: string, x: string, a: seq<string>, i: nat, j: nat)
    requires Ranking(t, m, x, a) && i < |a| && j < |a| && Start(t, a[i]) == Start(t, a[j])
    ensures Ranking(t, m, x, Swap(a, i, j))
  {
    var b := Swap(a, i, j);
    forall k | 0 <= k < |a| ensures Start(t, b[k]) == Start(t, a[k]) {}
    forall run ensures run in b <==> run in a {
      if run in a {
        var k :| 0 <= k < |a| && a[k] == run;
        assert b[if k == i then j else if k == j then i else k] == run;
      }
    }
  }

  /** Swapping a failed and an unfailed run across the edge changes the count. */
  lemma SwapShows(t: Tables, m: string, x: string, a: seq<string>, w: nat, i: nat, j: nat)
    requires Ranking(t, m, x, a) && i < w <= j < |a| && Start(t, a[i]) == Start(t, a[j])
    requires FailedIn(t, m, x, a[i]) != FailedIn(t, m, x, a[j])
    ensures Ranking(t, m, x, Swap(a, i, j)) && StatOver(t, m, x, Swap(a, i, j), w) != StatOver(t, m, x, a, w)
  {
    SwapRanks(t, m, x, a, i, j);
    assert Swap(a, i, j)[..w] == a[..w][i := a[j]];
    CountUpdate(Failing(t, m, x), a[..w], i, a[j]);
  }

  lemma MixedEdgeShows(t: Tables, m: string, x: string, a: seq<string>, w: nat) returns (b: seq<string>)
    requires Ranking(t, m, x, a) && Cuts(t, a, w) && !Uniform(t, m, x, a, Start(t, a[w]))
    ensures Ranking(t, m, x, b) && StatOver(t, m, x, b, w) != StatOver(t, m, x, a, w)
  {
    var kind := FailedIn(t, m, x, a[w]);
    var r :| r in a && Start(t, r) == Start(t, a[w]) && FailedIn(t, m, x, r) != kind;
    var q :| 0 <= q < |a| && a[q] == r;
    var i := if FailedIn(t, m, x, a[w - 1]) != kind || q >= w then w - 1 else q;
    var j := if FailedIn(t, m, x, a[i]) != kind then w else q;
    SwapShows(t, m, x, a, w, i, j);
    b := Swap(a, i, j);
  }

  /** The windowed stat is the same for every order of tied runs exactly when the runs tied at the window's edge
      all failed or none did. */
  lemma WindowStaysIff(t: Tables, m: string, x: string, a: seq<string>, window: int)
    requires Ranking(t, m, x, a)
    ensures (forall b | Ranking(t, m, x, b) :: StatOver(t, m, x, b, window) == StatOver(t, m, x, a, window)) <==>
      EdgeAgrees(t, m, x, a, window)
  {
    if EdgeAgrees(t, m, x, a, window) {
      forall b | Ranking(t, m, x, b) ensures StatOver(t, m, x, b, window) == StatOver(t, m, x, a, window) {
        AgreedEdgeForgetsTies(t, m, x, a, b, window);
      }
    } else {
      var b := MixedEdgeShows(t, m, x, a, window);
    }
  }
}
