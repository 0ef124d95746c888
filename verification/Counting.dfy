/** How many elements of a list satisfy a predicate. */
module Counting {
  import opened Sorting

  function Count<T>(p: T -> bool, xs: seq<T>): nat {
    if xs == [] then 0 else (if p(xs[0]) then 1 else 0) + Count(p, xs[1..])
  }

  lemma {:induction false} CountConcat<T>(p: T -> bool, a: seq<T>, b: seq<T>)
    ensures Count(p, a + b) == Count(p, a) + Count(p, b)
  {
    if a == [] { assert a + b == b; } else {
      assert (a + b)[1..] == a[1..] + b;
      CountConcat(p, a[1..], b);
    }
  }

  lemma {:induction false} CountInsert<T>(p: T -> bool, le: (T, T) -> bool, x: T, s: seq<T>)
    ensures Count(p, Insert(le, x, s)) == Count(p, [x] + s)
  {
    assert ([x] + s)[1..] == s;
    if s != [] && !le(x, s[0]) {
      var rest := Insert(le, x, s[1..]);
      assert ([s[0]] + rest)[1..] == rest && ([x] + s[1..])[1..] == s[1..];
      CountInsert(p, le, x, s[1..]);
    }
  }

  lemma {:induction false} CountSort<T>(p: T -> bool, le: (T, T) -> bool, s: seq<T>)
    ensures Count(p, SortBy(le, s)) == Count(p, s)
  {
    if s != [] {
      CountSort(p, le, s[1..]);
      var t := SortBy(le, s[1..]);
      CountInsert(p, le, s[0], t);
      assert ([s[0]] + t)[1..] == t;
    }
  }

  function Filter<T>(p: T -> bool, xs: seq<T>): seq<T> {
    if xs == [] then [] else if p(xs[0]) then [xs[0]] + Filter(p, xs[1..]) else Filter(p, xs[1..])
  }

  lemma {:induction false} FilterAppend<T>(p: T -> bool, s: seq<T>, x: T)
    ensures Filter(p, s + [x]) == if p(x) then Filter(p, s) + [x] else Filter(p, s)
  {
    if s == [] {
      assert s + [x] == [x] && [x][1..] == [];
    } else {
      assert (s + [x])[1..] == s[1..] + [x];
      FilterAppend(p, s[1..], x);
    }
  }

  lemma FilterNext<T>(p: T -> bool, s: seq<T>, n: nat)
    requires n < |s|
    ensures Filter(p, s[..n + 1]) == if p(s[n]) then Filter(p, s[..n]) + [s[n]] else Filter(p, s[..n])
  {
    assert s[..n + 1] == s[..n] + [s[n]];
    FilterAppend(p, s[..n], s[n]);
  }

  lemma {:induction false} InFilter<T>(p: T -> bool, s: seq<T>, x: T)
    ensures x in Filter(p, s) <==> x in s && p(x)
  {
    if s != [] { InFilter(p, s[1..], x); }
  }

  lemma {:induction false} CountFilter<T(!new)>(q: T -> bool, p: T -> bool, both: T -> bool, s: seq<T>)
    requires forall x :: both(x) <==> p(x) && q(x)
    ensures Count(q, Filter(p, s)) == Count(both, s)
  {
    if s != [] {
      CountFilter(q, p, both, s[1..]);
      if p(s[0]) { assert ([s[0]] + Filter(p, s[1..]))[1..] == Filter(p, s[1..]); }
    }
  }

  lemma {:induction false} CountNone<T>(p: T -> bool, s: seq<T>)
    requires forall x | x in s :: !p(x)
    ensures Count(p, s) == 0
  {
    if s != [] {
      assert s[0] in s;
      CountNone(p, s[1..]);
    }
  }

  lemma CountOne<T>(p: T -> bool, x: T)
    ensures Count(p, [x]) == if p(x) then 1 else 0
  {
    assert [x][1..] == [];
  }

  lemma CountAppend<T>(p: T -> bool, s: seq<T>, x: T)
    ensures Count(p, s + [x]) == Count(p, s) + if p(x) then 1 else 0
  {
    CountConcat(p, s, [x]);
    CountOne(p, x);
  }

  lemma CountNext<T>(p: T -> bool, s: seq<T>, n: nat)
    requires n < |s|
    ensures Count(p, s[..n + 1]) == Count(p, s[..n]) + if p(s[n]) then 1 else 0
  {
    assert s[..n + 1] == s[..n] + [s[n]];
    CountAppend(p, s[..n], s[n]);
  }

  /** Counts do not depend on order. */
  lemma CountPermuted(p: string -> bool, a: seq<string>, b: seq<string>)
    requires multiset(a) == multiset(b)
    ensures Count(p, a) == Count(p, b)
  {
    StrLeOrdering();
    SortForgetsOrder(StrLe, a, b);
    CountSort(p, StrLe, a);
    CountSort(p, StrLe, b);
  }

  function Satisfying<T(==)>(p: T -> bool, s: seq<T>): set<T> { set x | x in s && p(x) }

  function Elements<T(==)>(s: seq<T>): set<T> { set x | x in s }

  /** Without repetition, the count is the size of the set of elements counted. */
  lemma {:induction false} CountIsSize<T>(p: T -> bool, s: seq<T>)
    requires NoDup(s)
    ensures Count(p, s) == |Satisfying(p, s)|
  {
    if s != [] {
      CountIsSize(p, s[1..]);
      assert s[0] !in s[1..];
      var rest := Satisfying(p, s[1..]);
      assert Satisfying(p, s) == if p(s[0]) then rest + {s[0]} else rest;
    }
  }

  lemma {:induction false} NoDupSize<T>(s: seq<T>)
    requires NoDup(s)
    ensures |s| == |Elements(s)|
  {
    if s != [] {
      NoDupSize(s[1..]);
      assert Elements(s) == Elements(s[1..]) + {s[0]};
    }
  }
}
