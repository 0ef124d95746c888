/** The list of flakiest tests and the order in which the query returns its groups
    (engine/persistence/flake_db.py:212-247). */
module FlakeTop {
  import opened Sorting
  import opened FlakeDb

  /** Two different elements in opposite orders, the first of them within the prefix. */
  lemma SwappedPrefixesDiffer<T>(s: seq<T>, r: seq<T>, n: nat, i: nat, k: nat, p: nat, q: nat)
    requires NoDup(s) && NoDup(r) && i < n <= |s| == |r|
    requires i < k < |s| && p < q < |r| && r[p] == s[k] && r[q] == s[i]
    ensures s[..n] != r[..n]
  {
    if i == q {
      assert s[p] != s[k];
      assert s[..n][p] != r[..n][p];
    } else {
      assert r[i] != r[q];
      assert s[..n][i] != r[..n][i];
    }
  }

  lemma StatsPermute(t: Tables, a: seq<Test>, b: seq<Test>, minRuns: int)
    requires Grouping(t, a) && Grouping(t, b)
    ensures multiset(StatsOf(t, a, minRuns)) == multiset(StatsOf(t, b, minRuns)) && NoDup(StatsOf(t, a, minRuns))
  {
    var s, r := StatsOf(t, a, minRuns), StatsOf(t, b, minRuns);
    StatsOfNoDup(t, a, minRuns);
    StatsOfNoDup(t, b, minRuns);
    forall x ensures x in s <==> x in r {
      StatsOfHolds(t, a, minRuns, x);
      StatsOfHolds(t, b, minRuns, x);
    }
    SameSetSameMultiset(s, r);
  }

  /** No test in the list ties with another one that has enough runs. */
  ghost predicate Settled(t: Tables, a: seq<Test>, limit: int, minRuns: int) {
    forall x, y | x in Top(t, a, limit, minRuns) && y in StatsOf(t, a, minRuns) && StatLe(x, y) && StatLe(y, x) :: x == y
  }

  lemma SlicePrefix<T>(s: seq<T>, limit: int)
    ensures |Slice(s, limit)| <= |s| && Slice(s, limit) == s[..|Slice(s, limit)|]
  {}

  lemma UntiedSlice<T(!new)>(le: (T, T) -> bool, s: seq<T>, r: seq<T>, limit: int)
    requires Ordering(le) && multiset(s) == multiset(r)
    requires forall x, y | x in Slice(SortBy(le, s), limit) && y in s && le(x, y) && le(y, x) :: x == y
    ensures Slice(SortBy(le, s), limit) == Slice(SortBy(le, r), limit)
  {
    SlicePrefix(SortBy(le, s), limit);
    SlicePrefix(SortBy(le, r), limit);
    UntiedPrefix(le, s, r, |Slice(SortBy(le, s), limit)|);
  }

  lemma SettledForgetsOrder(t: Tables, a: seq<Test>, b: seq<Test>, limit: int, minRuns: int)
    requires Grouping(t, a) && Grouping(t, b) && Settled(t, a, limit, minRuns)
    ensures Top(t, a, limit, minRuns) == Top(t, b, limit, minRuns)
  {
    StatsPermute(t, a, b, minRuns);
    StatOrdering();
    UntiedSlice(StatLe, StatsOf(t, a, minRuns), StatsOf(t, b, minRuns), limit);
  }

  lemma StatsCons(t: Tables, v: FlakeStat, rest: seq<Test>, minRuns: int)
    requires v == Aggregate(t, v.moduleName, v.testId) && v.runs >= minRuns
    ensures StatsOf(t, [Test(v.moduleName, v.testId)] + rest, minRuns) == [v] + StatsOf(t, rest, minRuns)
  {
    var g := Test(v.moduleName, v.testId);
    assert ([g] + rest)[0] == g && ([g] + rest)[1..] == rest;
  }

  /** The same groups with one of them moved to the front. */
  lemma MoveGroup(t: Tables, a: seq<Test>, minRuns: int, v: FlakeStat) returns (b: seq<Test>, rest: seq<Test>)
    requires Grouping(t, a) && v in StatsOf(t, a, minRuns)
    ensures Grouping(t, b) && StatsOf(t, b, minRuns) == [v] + StatsOf(t, rest, minRuns)
  {
    StatsOfHolds(t, a, minRuns, v);
    var k :| 0 <= k < |a| && a[k] == Test(v.moduleName, v.testId);
    rest := a[..k] + a[k + 1..];
    b := [a[k]] + rest;
    FrontPermutes(a, k);
    NoDupPermutes(a, b);
    StatsCons(t, v, rest, minRuns);
  }

  /** Putting a test's group first puts it before whatever it ties with. */
  lemma GroupedFirst(t: Tables, a: seq<Test>, minRuns: int, v: FlakeStat, u: FlakeStat) returns (b: seq<Test>, i: nat, j: nat)
    requires Grouping(t, a) && v in StatsOf(t, a, minRuns) && u in StatsOf(t, a, minRuns) && u != v && StatLe(v, u)
    ensures Grouping(t, b)
    ensures var r := SortBy(StatLe, StatsOf(t, b, minRuns)); i < j < |r| && r[i] == v && r[j] == u
  {
    var rest;
    b, rest := MoveGroup(t, a, minRuns, v);
    StatsPermute(t, a, b, minRuns);
    SameElements(StatsOf(t, a, minRuns), StatsOf(t, b, minRuns), u);
    i, j := FrontBeforeTies(StatLe, v, StatsOf(t, rest, minRuns), u);
  }

  /** Where two different elements stand, one of them within a prefix. */
  lemma TwoPlaces<T>(s: seq<T>, n: nat, x: T, y: T) returns (i: nat, k: nat)
    requires n <= |s| && x in s[..n] && y in s && x != y
    ensures i < n && i < k < |s| && ((s[i] == x && s[k] == y) || (s[i] == y && s[k] == x))
  {
    var p :| 0 <= p < n && s[..n][p] == x;
    var q :| 0 <= q < |s| && s[q] == y;
    i, k := if p < q then p else q, if p < q then q else p;
  }

  lemma TieShows(t: Tables, a: seq<Test>, limit: int, minRuns: int) returns (b: seq<Test>)
    requires Grouping(t, a) && !Settled(t, a, limit, minRuns)
    ensures Grouping(t, b) && Top(t, b, limit, minRuns) != Top(t, a, limit, minRuns)
  {
    var all := StatsOf(t, a, minRuns);
    StatsPermute(t, a, a, minRuns);
    var s, n := SortBy(StatLe, all), |Top(t, a, limit, minRuns)|;
    var x, y :| x in Top(t, a, limit, minRuns) && y in all && StatLe(x, y) && StatLe(y, x) && x != y;
    SlicePrefix(s, limit);
    SameElements(s, all, x);
    SameElements(s, all, y);
    var first, second := TwoPlaces(s, n, x, y);
    var p, q;
    b, p, q := GroupedFirst(t, a, minRuns, s[second], s[first]);
    StatsPermute(t, b, a, minRuns);
    SwappedSlicesDiffer(StatLe, all, StatsOf(t, b, minRuns), limit, first, second, p, q);
  }

  lemma SwappedSlicesDiffer<T>(le: (T, T) -> bool, all: seq<T>, other: seq<T>, limit: int, i: nat, k: nat, p: nat, q: nat)
    requires NoDup(all) && NoDup(other) && multiset(all) == multiset(other)
    requires i < k < |SortBy(le, all)| && i < |Slice(SortBy(le, all), limit)|
    requires p < q < |SortBy(le, other)| && SortBy(le, other)[p] == SortBy(le, all)[k] && SortBy(le, other)[q] == SortBy(le, all)[i]
    ensures Slice(SortBy(le, all), limit) != Slice(SortBy(le, other), limit)
  {
    var s, r := SortBy(le, all), SortBy(le, other);
    NoDupSort(le, all);
    NoDupSort(le, other);
    MultisetSize(s, r);
    SlicePrefix(s, limit);
    SlicePrefix(r, limit);
    SwappedPrefixesDiffer(s, r, |Slice(s, limit)|, i, k, p, q);
  }

  /** The list is the same for every order of the groups exactly when no test in it ties, in rate, failures and
      test id, with another module's. */
  lemma TopIgnoresGroupOrderIff(t: Tables, a: seq<Test>, limit: int, minRuns: int)
    requires Grouping(t, a)
    ensures (forall b | Grouping(t, b) :: Top(t, b, limit, minRuns) == Top(t, a, limit, minRuns)) <==> Settled(t, a, limit, minRuns)
  {
    if Settled(t, a, limit, minRuns) {
      forall b | Grouping(t, b) ensures Top(t, b, limit, minRuns) == Top(t, a, limit, minRuns) {
        SettledForgetsOrder(t, a, b, limit, minRuns);
      }
    } else {
      var b := TieShows(t, a, limit, minRuns);
    }
  }

  /** In particular when no two modules share a test id. */
  lemma TopIgnoresGroupOrder(t: Tables, a: seq<Test>, b: seq<Test>, limit: int, minRuns: int)
    requires Grouping(t, a) && Grouping(t, b)
    requires forall g, h | g in Tests(t) && h in Tests(t) :: g.testId == h.testId ==> g == h
    ensures Top(t, a, limit, minRuns) == Top(t, b, limit, minRuns)
  {
    forall x, y | x in Top(t, a, limit, minRuns) && y in StatsOf(t, a, minRuns) && StatLe(x, y) && StatLe(y, x) ensures x == y {
      SlicePrefix(SortBy(StatLe, StatsOf(t, a, minRuns)), limit);
      SameElements(SortBy(StatLe, StatsOf(t, a, minRuns)), StatsOf(t, a, minRuns), x);
      StatsOfHolds(t, a, minRuns, x);
      StatsOfHolds(t, a, minRuns, y);
      StrLeAntisym(x.testId, y.testId);
      assert Test(x.moduleName, x.testId) == Test(y.moduleName, y.testId);
    }
    SettledForgetsOrder(t, a, b, limit, minRuns);
  }

  /** A slice of the first `window` elements is the whole list's slice exactly when the window holds the limit or
      the whole list, or a negative limit drops everything. */
  lemma SliceTwice<T>(s: seq<T>, window: nat, limit: int)
    ensures Slice(Slice(s, window), limit) == Slice(s, limit) <==>
      |s| <= window || (if limit >= 0 then limit <= window else |s| + limit <= 0)
  {
    var head := Slice(s, window);
    assert |head| == if window < |s| then window else |s|;
    if 0 <= limit <= |head| { assert head[..limit] == s[..limit]; }
    assert |Slice(s, limit)| == if limit >= 0 then (if limit < |s| then limit else |s|) else if |s| + limit > 0 then |s| + limit else 0;
    assert |Slice(head, limit)| == if limit >= 0 then (if limit < |head| then limit else |head|) else if |head| + limit > 0 then |head| + limit else 0;
  }

  /** Considering only the `window` flakiest candidates before the limit, as the parameter's name and comment
      say, would give the same list exactly when the limit or the number of candidates is within the window,
      or a negative limit drops them all. */
  lemma WindowHarmlessIff(t: Tables, groups: seq<Test>, limit: int, minRuns: int, window: nat)
    ensures var n := |StatsOf(t, groups, minRuns)|;
      Slice(Slice(SortBy(StatLe, StatsOf(t, groups, minRuns)), window), limit) == Top(t, groups, limit, minRuns) <==>
        n <= window || (if limit >= 0 then limit <= window else n + limit <= 0)
  {
    SliceTwice(SortBy(StatLe, StatsOf(t, groups, minRuns)), window, limit);
  }
}
