/** Sorting by a key, as Python's `sorted` and `list.sort` do it: stable, and
    by comparison only.  The lemmas say when the result depends only on the
    multiset of elements. */
module Sorting {

  ghost predicate Sorted<T>(le: (T, T) -> bool, s: seq<T>) {
    forall i, j | 0 <= i < j < |s| :: le(s[i], s[j])
  }

  /** `le` compares keys, so it is total and transitive but may tie. */
  ghost predicate Ordering<T(!new)>(le: (T, T) -> bool) {
    && (forall x, y :: le(x, y) || le(y, x))
    && (forall x, y, z :: le(x, y) && le(y, z) ==> le(x, z))
  }

  /** No two different elements of `s` share a key. */
  ghost predicate KeysDistinct<T>(le: (T, T) -> bool, s: seq<T>) {
    forall x, y | x in s && y in s :: le(x, y) && le(y, x) ==> x == y
  }

  ghost predicate NoDup<T>(s: seq<T>) {
    forall i, j | 0 <= i < j < |s| :: s[i] != s[j]
  }

  function Insert<T>(le: (T, T) -> bool, x: T, s: seq<T>): (r: seq<T>)
    ensures multiset(r) == multiset(s) + multiset{x}
  {
    if s == [] then [x]
    else if le(x, s[0]) then [x] + s
    else
      assert s == [s[0]] + s[1..];
      [s[0]] + Insert(le, x, s[1..])
  }

  /** An element goes before the equal-keyed ones that followed it, so the sort is stable. */
  function SortBy<T>(le: (T, T) -> bool, s: seq<T>): (r: seq<T>)
    ensures multiset(r) == multiset(s)
    ensures |r| == |s|
  {
    if s == [] then []
    else
      assert s == [s[0]] + s[1..];
      var r := Insert(le, s[0], SortBy(le, s[1..]));
      MultisetSize(r, s);
      r
  }

  lemma MultisetSize<T>(a: seq<T>, b: seq<T>)
    requires multiset(a) == multiset(b)
    ensures |a| == |b|
  {
    assert |multiset(a)| == |a| && |multiset(b)| == |b|;
  }

  lemma SameElements<T>(a: seq<T>, b: seq<T>, x: T)
    requires multiset(a) == multiset(b)
    ensures x in a <==> x in b
  {
    assert x in a <==> x in multiset(a);
    assert x in b <==> x in multiset(b);
  }

  lemma {:induction false} InsertSorted<T(!new)>(le: (T, T) -> bool, x: T, s: seq<T>)
    requires Ordering(le) && Sorted(le, s)
    ensures Sorted(le, Insert(le, x, s))
  {
    if s != [] && !le(x, s[0]) {
      InsertSorted(le, x, s[1..]);
      var rest := Insert(le, x, s[1..]);
      forall y | y in rest ensures le(s[0], y) {
        assert y in multiset(rest);
        assert y == x || y in s[1..];
      }
    }
  }

  lemma {:induction false} SortBySorted<T(!new)>(le: (T, T) -> bool, s: seq<T>)
    requires Ordering(le)
    ensures Sorted(le, SortBy(le, s))
  {
    if s != [] {
      SortBySorted(le, s[1..]);
      InsertSorted(le, s[0], SortBy(le, s[1..]));
    }
  }

  lemma HeadLeast<T>(le: (T, T) -> bool, s: seq<T>, x: T)
    requires Sorted(le, s) && x in s && le(s[0], s[0])
    ensures le(s[0], x)
  {}

  lemma TailMultiset<T>(s: seq<T>)
    requires s != []
    ensures multiset(s[1..]) == multiset(s) - multiset{s[0]}
  {
    assert s == [s[0]] + s[1..];
  }

  /** A sorted list with distinct keys is determined by its multiset of elements. */
  lemma {:induction false} SortedUnique<T>(le: (T, T) -> bool, a: seq<T>, b: seq<T>)
    requires Sorted(le, a) && Sorted(le, b) && forall x | x in a :: le(x, x)
    requires multiset(a) == multiset(b) && KeysDistinct(le, a)
    ensures a == b
  {
    MultisetSize(a, b);
    if a != [] {
      SameElements(a, b, a[0]);
      SameElements(a, b, b[0]);
      HeadLeast(le, a, b[0]);
      HeadLeast(le, b, a[0]);
      TailMultiset(a);
      TailMultiset(b);
      SortedUnique(le, a[1..], b[1..]);
      assert a == [a[0]] + a[1..] && b == [b[0]] + b[1..];
    }
  }

  /** Sorting forgets the input order whenever keys are distinct. */
  lemma SortForgetsOrder<T(!new)>(le: (T, T) -> bool, a: seq<T>, b: seq<T>)
    requires Ordering(le) && multiset(a) == multiset(b) && KeysDistinct(le, a)
    ensures SortBy(le, a) == SortBy(le, b)
  {
    SortBySorted(le, a);
    SortBySorted(le, b);
    forall x | x in SortBy(le, a) ensures x in a { SameElements(SortBy(le, a), a, x); }
    SortedUnique(le, SortBy(le, a), SortBy(le, b));
  }

  /** Sorted lists of the same elements agree as far as those are not tied with others. */
  lemma {:induction false} PrefixesAgree<T>(le: (T, T) -> bool, a: seq<T>, b: seq<T>, n: nat)
    requires Sorted(le, a) && Sorted(le, b) && multiset(a) == multiset(b) && n <= |a| && forall x | x in a :: le(x, x)
    requires forall x, y | x in a[..n] && y in a && le(x, y) && le(y, x) :: x == y
    ensures |a| == |b| && a[..n] == b[..n]
  {
    MultisetSize(a, b);
    if n > 0 {
      SameElements(a, b, a[0]);
      SameElements(a, b, b[0]);
      HeadLeast(le, a, b[0]);
      HeadLeast(le, b, a[0]);
      assert a[0] in a[..n];
      TailMultiset(a);
      TailMultiset(b);
      assert a[1..][..n - 1] == a[..n][1..];
      PrefixesAgree(le, a[1..], b[1..], n - 1);
      assert a[..n] == [a[0]] + a[1..][..n - 1] && b[..n] == [b[0]] + b[1..][..n - 1];
    }
  }

  /** So sorting forgets the order as far as the result holds no ties. */
  lemma UntiedPrefix<T(!new)>(le: (T, T) -> bool, a: seq<T>, b: seq<T>, n: nat)
    requires Ordering(le) && multiset(a) == multiset(b) && n <= |a|
    requires forall x, y | x in SortBy(le, a)[..n] && y in a && le(x, y) && le(y, x) :: x == y
    ensures |SortBy(le, a)| == |SortBy(le, b)| && SortBy(le, a)[..n] == SortBy(le, b)[..n]
  {
    SortBySorted(le, a);
    SortBySorted(le, b);
    forall y | y in SortBy(le, a) ensures y in a { SameElements(SortBy(le, a), a, y); }
    PrefixesAgree(le, SortBy(le, a), SortBy(le, b), n);
  }

  /** An element is inserted before whatever it ties with. */
  lemma {:induction false} InsertedBefore<T>(le: (T, T) -> bool, v: T, s: seq<T>, u: T) returns (i: nat, j: nat)
    requires u in s && le(v, u)
    ensures i < j < |Insert(le, v, s)| && Insert(le, v, s)[i] == v && Insert(le, v, s)[j] == u
  {
    if le(v, s[0]) {
      var k :| 0 <= k < |s| && s[k] == u;
      i, j := 0, k + 1;
    } else {
      i, j := InsertedBefore(le, v, s[1..], u);
      i, j := i + 1, j + 1;
    }
  }

  /** What is listed first is sorted before what it ties with. */
  lemma FrontBeforeTies<T>(le: (T, T) -> bool, v: T, rest: seq<T>, u: T) returns (i: nat, j: nat)
    requires u in rest && le(v, u)
    ensures i < j < |SortBy(le, [v] + rest)| && SortBy(le, [v] + rest)[i] == v && SortBy(le, [v] + rest)[j] == u
  {
    assert ([v] + rest)[1..] == rest && ([v] + rest)[0] == v;
    SameElements(SortBy(le, rest), rest, u);
    i, j := InsertedBefore(le, v, SortBy(le, rest), u);
  }

  lemma FrontPermutes<T>(a: seq<T>, k: nat)
    requires k < |a|
    ensures multiset([a[k]] + (a[..k] + a[k + 1..])) == multiset(a)
  {
    assert a == a[..k] + [a[k]] + a[k + 1..];
  }

  lemma NoDupPermutes<T>(a: seq<T>, b: seq<T>)
    requires multiset(a) == multiset(b)
    ensures (NoDup(a) <==> NoDup(b)) && forall x :: x in a <==> x in b
  {
    forall x ensures x in a <==> x in b { SameElements(a, b, x); }
    NoDupMultiset(a);
    NoDupMultiset(b);
  }

  lemma NoDupMultiset<T>(a: seq<T>)
    ensures NoDup(a) <==> forall x | x in a :: multiset(a)[x] == 1
  {
    if a != [] {
      NoDupMultiset(a[1..]);
      assert a == [a[0]] + a[1..];
      assert multiset(a) == multiset{a[0]} + multiset(a[1..]);
      if NoDup(a) {
        assert NoDup(a[1..]);
        assert a[0] !in a[1..];
        forall x | x in a ensures multiset(a)[x] == 1 {
          assert a[0] !in multiset(a[1..]);
          if x != a[0] { assert x in a[1..]; }
        }
      }
      if forall x | x in a :: multiset(a)[x] == 1 {
        assert multiset(a)[a[0]] == 1;
        assert a[0] !in multiset(a[1..]);
        forall x | x in a[1..] ensures multiset(a[1..])[x] == 1 {
          assert x in a && x in multiset(a[1..]);
        }
      }
    }
  }

  lemma NoDupSort<T>(le: (T, T) -> bool, s: seq<T>)
    ensures NoDup(SortBy(le, s)) <==> NoDup(s)
  {
    NoDupMultiset(s);
    NoDupMultiset(SortBy(le, s));
    forall x ensures x in s <==> x in SortBy(le, s) { SameElements(s, SortBy(le, s), x); }
  }

  /** Two duplicate-free lists with the same elements are permutations of each other. */
  lemma {:induction false} SameSetSameMultiset<T>(a: seq<T>, b: seq<T>)
    requires NoDup(a) && NoDup(b) && forall x :: x in a <==> x in b
    ensures multiset(a) == multiset(b)
  {
    NoDupMultiset(a);
    NoDupMultiset(b);
    forall x ensures multiset(a)[x] == multiset(b)[x] {
      if x in a { assert x in b; } else { assert x !in multiset(a) && x !in multiset(b); }
    }
  }

  /** The elements of a set in some order. */
  method Enumerate<T(==)>(s: set<T>) returns (rows: seq<T>)
    ensures NoDup(rows) && forall x :: x in rows <==> x in s
  {
    var left := s;
    rows := [];
    while left != {}
      invariant left <= s && NoDup(rows)
      invariant forall x :: x in rows <==> x in s && x !in left
      decreases |left|
    {
      var x :| x in left;
      rows := rows + [x];
      left := left - {x};
    }
  }

  // ----- lexicographic order on sequences, as Python compares str and tuples -----

  predicate StrLe(a: string, b: string) {
    a == [] || (b != [] && (a[0] < b[0] || (a[0] == b[0] && StrLe(a[1..], b[1..]))))
  }

  /** `a` comes first: it is a front of `b`, or has the smaller character where they first differ. */
  ghost predicate Earlier(a: string, b: string) {
    a <= b || exists n :: 0 <= n < |a| && n < |b| && a[..n] == b[..n] && a[n] < b[n]
  }

  lemma {:induction false} StrLeIff(a: string, b: string)
    ensures StrLe(a, b) <==> Earlier(a, b)
  {
    if a != [] && b != [] && a[0] == b[0] {
      StrLeIff(a[1..], b[1..]);
      assert a == [a[0]] + a[1..] && b == [b[0]] + b[1..];
      assert a <= b <==> a[1..] <= b[1..];
      if n :| 0 <= n < |a| && n < |b| && a[..n] == b[..n] && a[n] < b[n] {
        assert a[1..][..n - 1] == a[..n][1..] && b[1..][..n - 1] == b[..n][1..];
        assert a[1..][n - 1] < b[1..][n - 1];
      }
      if m :| 0 <= m < |a[1..]| && m < |b[1..]| && a[1..][..m] == b[1..][..m] && a[1..][m] < b[1..][m] {
        assert a[..m + 1] == [a[0]] + a[1..][..m] && b[..m + 1] == [b[0]] + b[1..][..m];
        assert a[m + 1] < b[m + 1];
      }
    } else if a != [] && b != [] {
      if a[0] < b[0] { assert a[..0] == b[..0] && a[0] < b[0]; }
      if n :| 0 <= n < |a| && n < |b| && a[..n] == b[..n] && a[n] < b[n] {
        if n > 0 { assert a[..n][0] == b[..n][0]; }
      }
    }
  }

  lemma {:induction false} StrLeTotal(a: string, b: string)
    ensures StrLe(a, b) || StrLe(b, a)
  {
    if a != [] && b != [] { StrLeTotal(a[1..], b[1..]); }
  }

  lemma {:induction false} StrLeTrans(a: string, b: string, c: string)
    requires StrLe(a, b) && StrLe(b, c)
    ensures StrLe(a, c)
  {
    if a != [] && a[0] == b[0] == c[0] { StrLeTrans(a[1..], b[1..], c[1..]); }
  }

  lemma {:induction false} StrLeAntisym(a: string, b: string)
    requires StrLe(a, b) && StrLe(b, a)
    ensures a == b
  {
    if a != [] {
      StrLeAntisym(a[1..], b[1..]);
      assert a == [a[0]] + a[1..] && b == [b[0]] + b[1..];
    }
  }

  /** A common front does not matter. */
  lemma {:induction false} CommonFront(n: string, s: string, t: string)
    ensures StrLe(n + s, n + t) <==> StrLe(s, t)
  {
    if n == "" {
      assert n + s == s && n + t == t;
    } else {
      assert (n + s)[1..] == n[1..] + s && (n + t)[1..] == n[1..] + t;
      CommonFront(n[1..], s, t);
    }
  }

  lemma StrLeOrdering()
    ensures Ordering(StrLe)
    ensures forall x, y :: StrLe(x, y) && StrLe(y, x) ==> x == y
  {
    forall x, y ensures StrLe(x, y) || StrLe(y, x) { StrLeTotal(x, y); }
    forall x, y, z | StrLe(x, y) && StrLe(y, z) ensures StrLe(x, z) { StrLeTrans(x, y, z); }
    forall x, y | StrLe(x, y) && StrLe(y, x) ensures x == y { StrLeAntisym(x, y); }
  }

  /** Paths compare component by component. */
  predicate PathLe(a: seq<string>, b: seq<string>) {
    a == [] ||
    (b != [] && (if a[0] == b[0] then PathLe(a[1..], b[1..]) else StrLe(a[0], b[0])))
  }

  lemma PathLeFirst(a: seq<string>, b: seq<string>)
    ensures a != [] && b != [] && a[0] != b[0] ==> (PathLe(a, b) <==> Earlier(a[0], b[0]))
    ensures a != [] && b != [] && a[0] == b[0] ==> (PathLe(a, b) <==> PathLe(a[1..], b[1..]))
    ensures PathLe([], b) && (PathLe(a, []) <==> a == [])
  {
    if a != [] && b != [] { StrLeIff(a[0], b[0]); }
  }

  /** `a` comes first: it is a front of `b`, or has the earlier component where they first differ. */
  ghost predicate PathEarlier(a: seq<string>, b: seq<string>) {
    a <= b || exists n :: 0 <= n < |a| && n < |b| && a[..n] == b[..n] && a[n] != b[n] && Earlier(a[n], b[n])
  }

  lemma {:induction false} PathLeIff(a: seq<string>, b: seq<string>)
    ensures PathLe(a, b) <==> PathEarlier(a, b)
  {
    PathLeFirst(a, b);
    if a != [] && b != [] && a[0] == b[0] {
      PathLeIff(a[1..], b[1..]);
      SameHeadEarlier(a[0], a[1..], b[1..]);
      assert a == [a[0]] + a[1..] && b == [b[0]] + b[1..];
    } else if a != [] && b != [] {
      if Earlier(a[0], b[0]) { assert a[..0] == b[..0] && a[0] != b[0]; }
      if n :| 0 <= n < |a| && n < |b| && a[..n] == b[..n] && a[n] != b[n] && Earlier(a[n], b[n]) {
        if n > 0 { assert a[..n][0] == b[..n][0]; }
      }
    }
  }

  lemma SameHeadEarlier(x: string, a: seq<string>, b: seq<string>)
    ensures PathEarlier([x] + a, [x] + b) <==> PathEarlier(a, b)
  {
    var s, t := [x] + a, [x] + b;
    assert s[1..] == a && t[1..] == b;
    assert s <= t <==> a <= b;
    if n :| 0 <= n < |s| && n < |t| && s[..n] == t[..n] && s[n] != t[n] && Earlier(s[n], t[n]) {
      assert a[..n - 1] == s[..n][1..] && b[..n - 1] == t[..n][1..];
      assert a[n - 1] != b[n - 1];
    }
    if n :| 0 <= n < |a| && n < |b| && a[..n] == b[..n] && a[n] != b[n] && Earlier(a[n], b[n]) {
      assert s[..n + 1] == [x] + a[..n] && t[..n + 1] == [x] + b[..n];
      assert s[n + 1] != t[n + 1];
    }
  }

  lemma {:induction false} PathLeTotal(a: seq<string>, b: seq<string>)
    ensures PathLe(a, b) || PathLe(b, a)
  {
    if a != [] && b != [] { PathLeTotal(a[1..], b[1..]); StrLeTotal(a[0], b[0]); }
  }

  lemma {:induction false} PathLeTrans(a: seq<string>, b: seq<string>, c: seq<string>)
    requires PathLe(a, b) && PathLe(b, c)
    ensures PathLe(a, c)
  {
    if a != [] {
      if a[0] == b[0] == c[0] { PathLeTrans(a[1..], b[1..], c[1..]); }
      else if a[0] != b[0] && b[0] != c[0] {
        StrLeTrans(a[0], b[0], c[0]);
        if a[0] == c[0] { StrLeAntisym(a[0], b[0]); }
      }
    }
  }

  lemma {:induction false} PathLeAntisym(a: seq<string>, b: seq<string>)
    requires PathLe(a, b) && PathLe(b, a)
    ensures a == b
  {
    if a != [] {
      if a[0] != b[0] { StrLeAntisym(a[0], b[0]); }
      PathLeAntisym(a[1..], b[1..]);
      assert a == [a[0]] + a[1..] && b == [b[0]] + b[1..];
    }
  }
}
