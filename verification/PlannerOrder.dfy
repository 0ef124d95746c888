/** The plan depends on what the graph contains, not on how it is listed
    (engine/planner/core.py:22-26, 165-175, 435-436, 467-495). */
module PlannerOrder {
  import opened Sorting
  import opened Wrappers
  import opened Planner

  lemma KeyedOrdering<T(!new)>(le: (T, T) -> bool, key: T -> seq<string>)
    requires forall x, y :: le(x, y) == PathLe(key(x), key(y))
    ensures Ordering(le)
  {
    forall x, y ensures le(x, y) || le(y, x) { PathLeTotal(key(x), key(y)); }
    forall x, y, z | le(x, y) && le(y, z) ensures le(x, z) { PathLeTrans(key(x), key(y), key(z)); }
  }

  lemma KeyedSort<T(!new)>(le: (T, T) -> bool, key: T -> seq<string>, a: seq<T>, b: seq<T>)
    requires forall x, y :: le(x, y) == PathLe(key(x), key(y))
    requires forall x, y | x in a && y in a :: key(x) == key(y) ==> x == y
    requires multiset(a) == multiset(b)
    ensures SortBy(le, a) == SortBy(le, b)
  {
    KeyedOrdering(le, key);
    forall x, y | x in a && y in a && le(x, y) && le(y, x) ensures x == y { PathLeAntisym(key(x), key(y)); }
    SortForgetsOrder(le, a, b);
  }

  ghost predicate PathsNameRoutes(routes: seq<Route>) {
    forall r, q | r in routes && q in routes :: r.path == q.path ==> r == q
  }

  ghost predicate IdsNameForms(forms: seq<Form>) {
    forall f, h | f in forms && h in forms :: f.id == h.id ==> f == h
  }

  ghost predicate KeysNameEndpoints(endpoints: seq<Endpoint>) {
    forall d, e | d in endpoints && e in endpoints :: d.path == e.path && d.verb == e.verb && d.id == e.id ==> d == e
  }

  ghost predicate KeysNameRoutes(routes: seq<Route>) {
    forall r, q | r in routes && q in routes :: r.path == q.path && r.id == q.id ==> r == q
  }

  lemma RoutesForgetOrder(a: seq<Route>, b: seq<Route>)
    requires multiset(a) == multiset(b) && KeysNameRoutes(a)
    ensures SortBy(RouteLe, a) == SortBy(RouteLe, b)
    ensures AuthRequired(a) == AuthRequired(b)
  {
    forall x, y | x in a && y in a && RouteKey(x) == RouteKey(y) ensures x == y {
      assert RouteKey(x)[0] == RouteKey(y)[0] && RouteKey(x)[1] == RouteKey(y)[1];
    }
    KeyedSort(RouteLe, RouteKey, a, b);
    forall r ensures r in a <==> r in b { SameElements(a, b, r); }
  }

  lemma PathsForgetOrder(a: seq<Route>, b: seq<Route>)
    requires multiset(a) == multiset(b) && PathsNameRoutes(a)
    ensures SortBy(RouteByPath, a) == SortBy(RouteByPath, b)
  {
    forall x, y | x in a && y in a && RoutePath(x) == RoutePath(y) ensures x == y {
      assert RoutePath(x)[0] == RoutePath(y)[0];
    }
    KeyedSort(RouteByPath, RoutePath, a, b);
  }

  lemma FormsForgetOrder(a: seq<Form>, b: seq<Form>)
    requires multiset(a) == multiset(b) && IdsNameForms(a)
    ensures SortBy(FormLe, a) == SortBy(FormLe, b)
  {
    forall x, y | x in a && y in a && FormKey(x) == FormKey(y) ensures x == y {
      assert FormKey(x)[0] == FormKey(y)[0];
    }
    KeyedSort(FormLe, FormKey, a, b);
  }

  lemma EndpointsForgetOrder(a: seq<Endpoint>, b: seq<Endpoint>)
    requires multiset(a) == multiset(b) && KeysNameEndpoints(a)
    ensures SortBy(EndpointLe, a) == SortBy(EndpointLe, b)
  {
    forall x, y | x in a && y in a && EndpointKey(x) == EndpointKey(y) ensures x == y {
      assert EndpointKey(x)[0] == EndpointKey(y)[0] && EndpointKey(x)[1] == EndpointKey(y)[1] && EndpointKey(x)[2] == EndpointKey(y)[2];
    }
    KeyedSort(EndpointLe, EndpointKey, a, b);
  }

  // ----- two listings -----

  /** One graph listed twice, its routes told apart by path and id, forms by id, endpoints by path, method and id. */
  ghost predicate Relisted(g: Graph, h: Graph) {
    && g.id == h.id && g.boundaries == h.boundaries
    && multiset(g.routes) == multiset(h.routes) && KeysNameRoutes(g.routes)
    && multiset(g.forms) == multiset(h.forms) && IdsNameForms(g.forms)
    && multiset(g.endpoints) == multiset(h.endpoints) && KeysNameEndpoints(g.endpoints)
  }

  function RouteIdOfForm(routes: seq<Route>, form: Form): string
    requires routes != []
  {
    RouteOfForm(SortBy(RouteByPath, routes), form).id
  }

  /** Every form goes to one route id in both listings. */
  ghost predicate FormsStay(g: Graph, h: Graph) {
    g.routes != [] && h.routes != [] ==> forall f | f in g.forms :: RouteIdOfForm(g.routes, f) == RouteIdOfForm(h.routes, f)
  }

  lemma {:induction false} BucketsAgree(home: Form -> string, home': Form -> string, forms: seq<Form>, n: nat)
    requires n <= |forms| && forall f | f in forms :: home(f) == home'(f)
    ensures BucketInto(home, forms, n) == BucketInto(home', forms, n)
  {
    if n > 0 { BucketsAgree(home, home', forms, n - 1); }
  }

  lemma BucketsForgetOrder(g: Graph, h: Graph)
    requires Relisted(g, h) && FormsStay(g, h)
    ensures FormsByRoute(g.routes, g.forms) == FormsByRoute(h.routes, h.forms)
  {
    FormsForgetOrder(g.forms, h.forms);
    MultisetSize(g.routes, h.routes);
    MultisetSize(g.forms, h.forms);
    if g.routes != [] && g.forms != [] {
      var forms := SortBy(FormLe, g.forms);
      forall f | f in forms ensures f in g.forms { SameElements(forms, g.forms, f); }
      BucketsAgree(Home(SortBy(RouteByPath, g.routes)), Home(SortBy(RouteByPath, h.routes)), forms, |forms|);
    }
  }

  lemma SketchesForgetOrder(g: Graph, h: Graph, risk: RiskMap)
    requires Relisted(g, h) && FormsStay(g, h)
    ensures Sketches(g, risk) == Sketches(h, risk)
  {
    RoutesForgetOrder(g.routes, h.routes);
    EndpointsForgetOrder(g.endpoints, h.endpoints);
    BucketsForgetOrder(g, h);
    assert FactsOf(g, risk) == FactsOf(h, risk);
  }

  lemma SamePlan(slug: Slugs, start: nat, sketches: seq<Sketch>, g: Graph, h: Graph, risk: RiskMap, run: Run)
    requires g.id == h.id
    ensures Numbered(slug, start, sketches, g, risk, run) == Numbered(slug, start, sketches, h, risk, run)
  {}

  /** Where the listing moves no form to another route, it does not show in the plan: the same flows and
      cases, under the same ids, in the same order. */
  lemma FormsStayPlanStays(slug: Slugs, start: nat, g: Graph, h: Graph, risk: RiskMap, run: Run)
    requires Relisted(g, h) && FormsStay(g, h)
    ensures PlanOf(slug, start, g, risk, run) == PlanOf(slug, start, h, risk, run)
  {
    SketchesForgetOrder(g, h, risk);
    SamePlan(slug, start, Sketches(g, risk), g, h, risk, run);
  }

  /** In particular when no two routes share a path. */
  lemma PlanForgetsOrder(slug: Slugs, start: nat, g: Graph, h: Graph, risk: RiskMap, run: Run)
    requires Relisted(g, h) && PathsNameRoutes(g.routes)
    ensures PlanOf(slug, start, g, risk, run) == PlanOf(slug, start, h, risk, run)
  {
    PathsForgetOrder(g.routes, h.routes);
    FormsStayPlanStays(slug, start, g, h, risk, run);
  }

  // ----- which route a form goes to, in terms of the listing -----

  function FirstWithPath(routes: seq<Route>, path: string): Option<Route> {
    if routes == [] then None
    else if routes[0].path == path then Some(routes[0])
    else FirstWithPath(routes[1..], path)
  }

  lemma {:induction false} RoutesByPathIsFirst(routes: seq<Route>, n: nat, path: string)
    requires n <= |routes|
    ensures path in RoutesByPath(routes, n) <==> FirstWithPath(routes[..n], path).Some?
    ensures path in RoutesByPath(routes, n) ==> FirstWithPath(routes[..n], path) == Some(RoutesByPath(routes, n)[path])
  {
    if n > 0 {
      RoutesByPathIsFirst(routes, n - 1, path);
      RoutesByPathIsFirst(routes, n - 1, routes[n - 1].path);
      assert routes[..n] == routes[..n - 1] + [routes[n - 1]];
      FirstAppend(routes[..n - 1], routes[n - 1], path);
    }
  }

  lemma {:induction false} FirstAppend(routes: seq<Route>, r: Route, path: string)
    ensures FirstWithPath(routes + [r], path) ==
      if FirstWithPath(routes, path).Some? then FirstWithPath(routes, path)
      else if r.path == path then Some(r) else None
  {
    if routes != [] {
      assert (routes + [r])[1..] == routes[1..] + [r];
      FirstAppend(routes[1..], r, path);
    } else {
      assert (routes + [r])[1..] == [];
    }
  }

  lemma {:induction false} InsertKeepsFirst(x: Route, s: seq<Route>, path: string)
    ensures FirstWithPath(Insert(RouteByPath, x, s), path) == if x.path == path then Some(x) else FirstWithPath(s, path)
  {
    if s == [] {
      assert [x][1..] == [];
    } else if RouteByPath(x, s[0]) {
      assert ([x] + s)[1..] == s;
    } else {
      PathLeTotal(RoutePath(x), RoutePath(x));
      assert x.path != s[0].path;
      InsertKeepsFirst(x, s[1..], path);
      var rest := Insert(RouteByPath, x, s[1..]);
      assert ([s[0]] + rest)[1..] == rest;
    }
  }

  /** Sorting by path is stable, so the first route with a path stays the first. */
  lemma {:induction false} SortKeepsFirst(routes: seq<Route>, path: string)
    ensures FirstWithPath(SortBy(RouteByPath, routes), path) == FirstWithPath(routes, path)
  {
    if routes != [] {
      SortKeepsFirst(routes[1..], path);
      InsertKeepsFirst(routes[0], SortBy(RouteByPath, routes[1..]), path);
    }
  }

  lemma {:induction false} FirstIsListed(routes: seq<Route>, path: string)
    ensures FirstWithPath(routes, path).Some? ==>
      FirstWithPath(routes, path).value in routes && FirstWithPath(routes, path).value.path == path
    ensures FirstWithPath(routes, path).None? <==> forall r | r in routes :: r.path != path
  {
    if routes != [] {
      FirstIsListed(routes[1..], path);
      assert forall r :: r in routes <==> r == routes[0] || r in routes[1..];
    }
  }

  /** A form goes to the first listed route at its action path; failing that, to the first listed
      route at the least path.  So only routes that share a path make the listing matter. */
  lemma FormGoesToFirstListed(routes: seq<Route>, form: Form)
    requires routes != []
    ensures var to := RouteOfForm(SortBy(RouteByPath, routes), form);
      && to in routes
      && FirstWithPath(routes, to.path) == Some(to)
      && (to.path == TargetPath(form) || forall r | r in routes :: r.path != TargetPath(form) && StrLe(to.path, r.path))
  {
    var sorted, target := SortBy(RouteByPath, routes), TargetPath(form);
    var to := RouteOfForm(sorted, form);
    RoutesByPathIsFirst(sorted, |sorted|, target);
    assert sorted[..|sorted|] == sorted;
    SortKeepsFirst(routes, target);
    FirstIsListed(routes, target);
    if FirstWithPath(routes, target).None? {
      SortKeepsFirst(routes, to.path);
      assert FirstWithPath(sorted, to.path) == Some(to);
      SameElements(sorted, routes, to);
      KeyedOrdering(RouteByPath, RoutePath);
      SortBySorted(RouteByPath, routes);
      forall r | r in routes ensures StrLe(to.path, r.path) {
        SameElements(sorted, routes, r);
        assert RouteByPath(to, to);
        HeadLeast(RouteByPath, sorted, r);
        ByPathIsPath(to, r);
      }
    }
  }

  lemma ByPathIsPath(a: Route, b: Route)
    ensures RouteByPath(a, b) <==> StrLe(a.path, b.path)
  {
    var p, q := RoutePath(a), RoutePath(b);
    assert p[1..] == [] && q[1..] == [] && PathLe(p[1..], q[1..]);
    if p[0] == q[0] { StrLeTotal(a.path, a.path); }
    assert PathLe(p, q) <==> if p[0] == q[0] then PathLe(p[1..], q[1..]) else StrLe(p[0], q[0]);
  }

  function LeastPath(routes: seq<Route>): (p: string)
    requires routes != []
  {
    if |routes| == 1 || StrLe(routes[0].path, LeastPath(routes[1..])) then routes[0].path else LeastPath(routes[1..])
  }

  lemma {:induction false} LeastPathIsLeast(routes: seq<Route>)
    requires routes != []
    ensures (exists r :: r in routes && r.path == LeastPath(routes)) && forall r | r in routes :: StrLe(LeastPath(routes), r.path)
  {
    assert routes == [routes[0]] + routes[1..];
    StrLeTotal(routes[0].path, routes[0].path);
    if |routes| > 1 {
      LeastPathIsLeast(routes[1..]);
      var r :| r in routes[1..] && r.path == LeastPath(routes[1..]);
      StrLeTotal(routes[0].path, LeastPath(routes[1..]));
      forall q | q in routes ensures StrLe(LeastPath(routes), q.path) {
        if q in routes[1..] && LeastPath(routes) == routes[0].path {
          StrLeTrans(routes[0].path, LeastPath(routes[1..]), q.path);
        }
      }
    } else {
      assert forall q | q in routes :: q == routes[0];
    }
  }

  /** Where a form looks: at its action path if some route is there, else at the least path. */
  function FormPath(routes: seq<Route>, form: Form): string
    requires routes != []
  {
    if FirstWithPath(routes, TargetPath(form)).Some? then TargetPath(form) else LeastPath(routes)
  }

  /** A form's route is the first listed one at its path. */
  lemma RouteOfFormIsFirst(routes: seq<Route>, form: Form)
    requires routes != []
    ensures FirstWithPath(routes, FormPath(routes, form)) == Some(RouteOfForm(SortBy(RouteByPath, routes), form))
  {
    var to := RouteOfForm(SortBy(RouteByPath, routes), form);
    FormGoesToFirstListed(routes, form);
    FirstIsListed(routes, TargetPath(form));
    LeastPathIsLeast(routes);
    if FirstWithPath(routes, TargetPath(form)).None? {
      var r :| r in routes && r.path == LeastPath(routes);
      StrLeAntisym(to.path, LeastPath(routes));
    }
  }

  lemma FormPathForgetsOrder(a: seq<Route>, b: seq<Route>, form: Form)
    requires multiset(a) == multiset(b) && a != [] && b != []
    ensures FormPath(a, form) == FormPath(b, form)
  {
    forall r ensures r in a <==> r in b { SameElements(a, b, r); }
    FirstIsListed(a, TargetPath(form));
    FirstIsListed(b, TargetPath(form));
    LeastPathIsLeast(a);
    LeastPathIsLeast(b);
    StrLeAntisym(LeastPath(a), LeastPath(b));
  }
}
