/** Conservation: what the plan holds for each route, form and endpoint
    (engine/planner/core.py:6-16, 175-343). */
module PlannerCounts {
  import opened Counting
  import opened Sorting
  import opened Wrappers
  import opened Planner

  // ----- what a flow is about -----

  datatype Subject = SmokeOf(routeId: string) | BoundaryOf(routeId: string) | FormOf(formId: string) | EndpointOf(endpointId: string)

  predicate About(b: FlowBody, s: Subject) {
    match s
    case SmokeOf(id) => b.extractor == RouteSmoke && Some(id) in b.targets
    case BoundaryOf(id) => b.extractor == RouteAuthBoundary && Some(id) in b.targets
    case FormOf(id) => b.extractor == FormSubmit && FormIdTag(id) in b.tags
    case EndpointOf(id) => b.extractor == ApiContract && EndpointTag(id) in b.tags
  }

  function SketchAbout(s: Subject): Sketch -> bool { (sk: Sketch) => About(sk.body, s) }
  function FlowAbout(s: Subject): Flow -> bool { (f: Flow) => About(f.body, s) }
  function RouteHasId(id: string): Route -> bool { (r: Route) => r.id == id }
  function FormHasId(id: string): Form -> bool { (f: Form) => f.id == id }
  function EndpointHasId(id: string): Endpoint -> bool { (e: Endpoint) => e.id == id }

  function GoesTo(home: Form -> string, routeId: string): Form -> bool { (f: Form) => home(f) == routeId }

  /** Forms with this id that go to that route id. */
  function FormGoes(home: Form -> string, formId: string, routeId: string): Form -> bool {
    (f: Form) => f.id == formId && home(f) == routeId
  }

  lemma SmokeAbout(facts: Facts, route: Route, forms: seq<Form>, s: Subject)
    ensures About(SmokeSketch(facts, route, forms).body, s) <==> s == SmokeOf(route.id)
  {}

  lemma BoundaryAbout(facts: Facts, route: Route, s: Subject)
    ensures About(BoundarySketch(facts, route).body, s) <==> s == BoundaryOf(route.id)
  {}

  lemma FormAbout(facts: Facts, route: Route, form: Form, s: Subject)
    ensures About(FormSketch(facts, route, form).body, s) <==> s == FormOf(form.id)
  {}

  lemma ApiAbout(e: Endpoint, s: Subject)
    ensures About(ApiSketch(e).body, s) <==> s == EndpointOf(e.id)
  {}

  // ----- counts in the sketches -----

  lemma {:induction false} FormSketchesCount(facts: Facts, route: Route, forms: seq<Form>, s: Subject)
    ensures Count(SketchAbout(s), FormSketches(facts, route, forms)) ==
      if s.FormOf? then Count(FormHasId(s.formId), forms) else 0
  {
    if forms != [] {
      FormAbout(facts, route, forms[0], s);
      FormSketchesCount(facts, route, forms[1..], s);
      CountConcat(SketchAbout(s), [FormSketch(facts, route, forms[0])], FormSketches(facts, route, forms[1..]));
      CountOne(SketchAbout(s), FormSketch(facts, route, forms[0]));
    }
  }

  /** How many flows one route contributes to a subject. */
  function RouteShare(facts: Facts, route: Route, forms: seq<Form>, s: Subject): nat {
    match s
    case SmokeOf(id) => if route.id == id then 1 else 0
    case BoundaryOf(id) => if route.id == id && id in facts.authRequired then 1 else 0
    case FormOf(id) => Count(FormHasId(id), forms)
    case EndpointOf(id) => 0
  }

  lemma RouteSketchesCount(facts: Facts, route: Route, forms: seq<Form>, s: Subject)
    ensures Count(SketchAbout(s), RouteSketches(facts, route, forms)) == RouteShare(facts, route, forms, s)
  {
    var p, smoke, formPart := SketchAbout(s), [SmokeSketch(facts, route, forms)], FormSketches(facts, route, forms);
    var boundary := if route.id in facts.authRequired then [BoundarySketch(facts, route)] else [];
    assert RouteSketches(facts, route, forms) == smoke + boundary + formPart;
    CountConcat(p, smoke + boundary, formPart);
    CountConcat(p, smoke, boundary);
    CountOne(p, smoke[0]);
    SmokeAbout(facts, route, forms, s);
    FormSketchesCount(facts, route, forms, s);
    if boundary != [] {
      CountOne(p, boundary[0]);
      BoundaryAbout(facts, route, s);
    }
  }

  function RoutesShare(facts: Facts, routes: seq<Route>, m: map<string, seq<Form>>, s: Subject): nat {
    if routes == [] then 0
    else RouteShare(facts, routes[0], FormsAt(m, routes[0].id), s) + RoutesShare(facts, routes[1..], m, s)
  }

  lemma {:induction false} AllRoutesCount(facts: Facts, routes: seq<Route>, m: map<string, seq<Form>>, s: Subject)
    ensures Count(SketchAbout(s), AllRouteSketches(facts, routes, m)) == RoutesShare(facts, routes, m, s)
  {
    if routes != [] {
      var forms := FormsAt(m, routes[0].id);
      RouteSketchesCount(facts, routes[0], forms, s);
      AllRoutesCount(facts, routes[1..], m, s);
      CountConcat(SketchAbout(s), RouteSketches(facts, routes[0], forms), AllRouteSketches(facts, routes[1..], m));
    }
  }

  lemma {:induction false} ApiSketchesCount(endpoints: seq<Endpoint>, s: Subject)
    ensures Count(SketchAbout(s), ApiSketches(endpoints)) ==
      if s.EndpointOf? then Count(EndpointHasId(s.endpointId), endpoints) else 0
  {
    if endpoints != [] {
      ApiAbout(endpoints[0], s);
      ApiSketchesCount(endpoints[1..], s);
      CountConcat(SketchAbout(s), [ApiSketch(endpoints[0])], ApiSketches(endpoints[1..]));
      CountOne(SketchAbout(s), ApiSketch(endpoints[0]));
    }
  }

  lemma {:induction false} FlowsCount(slug: Slugs, start: nat, sketches: seq<Sketch>, s: Subject)
    ensures Count(FlowAbout(s), Flows(slug, start, sketches)) == Count(SketchAbout(s), sketches)
    decreases |sketches|
  {
    if sketches != [] {
      var front, last := sketches[..|sketches| - 1], sketches[|sketches| - 1];
      var flow := Flow(FlowId(slug, start, |front|), last.body);
      assert sketches == front + [last];
      FlowsCount(slug, start, front, s);
      FlowsAppend(slug, start, front, last);
      CountAppend(FlowAbout(s), Flows(slug, start, front), flow);
      CountAppend(SketchAbout(s), front, last);
    }
  }

  /** Sorting loses and gains nothing, so the plan's flows are counted by the sketches. */
  lemma PlanCount(slug: Slugs, start: nat, g: Graph, risk: RiskMap, run: Run, s: Subject)
    ensures Count(FlowAbout(s), PlanOf(slug, start, g, risk, run).flows) ==
      RoutesShare(FactsOf(g, risk), SortBy(RouteLe, g.routes), FormsByRoute(g.routes, g.forms), s)
      + if s.EndpointOf? then Count(EndpointHasId(s.endpointId), g.endpoints) else 0
  {
    var routePart := AllRouteSketches(FactsOf(g, risk), SortBy(RouteLe, g.routes), FormsByRoute(g.routes, g.forms));
    var apiPart := ApiSketches(SortBy(EndpointLe, g.endpoints));
    AllRoutesCount(FactsOf(g, risk), SortBy(RouteLe, g.routes), FormsByRoute(g.routes, g.forms), s);
    ApiSketchesCount(SortBy(EndpointLe, g.endpoints), s);
    if s.EndpointOf? { CountSort(EndpointHasId(s.endpointId), EndpointLe, g.endpoints); }
    CountConcat(SketchAbout(s), routePart, apiPart);
    PlanFlowsCount(slug, start, routePart + apiPart, g, risk, run, s);
  }

  lemma PlanFlowsCount(slug: Slugs, start: nat, sketches: seq<Sketch>, g: Graph, risk: RiskMap, run: Run, s: Subject)
    ensures Count(FlowAbout(s), Numbered(slug, start, sketches, g, risk, run).flows) == Count(SketchAbout(s), sketches)
  {
    FlowsCount(slug, start, sketches, s);
    CountSort(FlowAbout(s), FlowLe, Flows(slug, start, sketches));
  }

  // ----- routes -----

  ghost predicate DistinctRouteIds(routes: seq<Route>) {
    forall i, j | 0 <= i < j < |routes| :: routes[i].id != routes[j].id
  }

  lemma {:induction false} SharesOfRoute(facts: Facts, routes: seq<Route>, m: map<string, seq<Form>>, id: string)
    ensures RoutesShare(facts, routes, m, SmokeOf(id)) == Count(RouteHasId(id), routes)
    ensures RoutesShare(facts, routes, m, BoundaryOf(id)) == if id in facts.authRequired then Count(RouteHasId(id), routes) else 0
    ensures RoutesShare(facts, routes, m, EndpointOf(id)) == 0
  {
    if routes != [] { SharesOfRoute(facts, routes[1..], m, id); }
  }

  lemma {:induction false} CountDistinctRoute(routes: seq<Route>, r: Route)
    requires DistinctRouteIds(routes) && r in routes
    ensures Count(RouteHasId(r.id), routes) == 1
  {
    if routes[0] == r {
      CountNone(RouteHasId(r.id), routes[1..]);
    } else {
      assert r in routes[1..];
      CountDistinctRoute(routes[1..], r);
    }
  }

  /** Every route gets exactly one smoke flow, and one auth-boundary flow exactly when it needs authentication. */
  lemma RoutesConserved(slug: Slugs, start: nat, g: Graph, risk: RiskMap, run: Run, r: Route)
    requires DistinctRouteIds(g.routes) && r in g.routes
    ensures Count(FlowAbout(SmokeOf(r.id)), PlanOf(slug, start, g, risk, run).flows) == 1
    ensures Count(FlowAbout(BoundaryOf(r.id)), PlanOf(slug, start, g, risk, run).flows) == if r.authRequired then 1 else 0
  {
    PlanCount(slug, start, g, risk, run, SmokeOf(r.id));
    PlanCount(slug, start, g, risk, run, BoundaryOf(r.id));
    SharesOfRoute(FactsOf(g, risk), SortBy(RouteLe, g.routes), FormsByRoute(g.routes, g.forms), r.id);
    CountSort(RouteHasId(r.id), RouteLe, g.routes);
    CountDistinctRoute(g.routes, r);
    AuthIsOwn(g.routes, r);
  }

  lemma AuthIsOwn(routes: seq<Route>, r: Route)
    requires DistinctRouteIds(routes) && r in routes
    ensures r.id in AuthRequired(routes) <==> r.authRequired
  {}

  // ----- endpoints -----

  /** Every endpoint gets exactly one contract flow. */
  lemma EndpointsConserved(slug: Slugs, start: nat, g: Graph, risk: RiskMap, run: Run, e: Endpoint)
    requires forall i, j | 0 <= i < j < |g.endpoints| :: g.endpoints[i].id != g.endpoints[j].id
    requires e in g.endpoints
    ensures Count(FlowAbout(EndpointOf(e.id)), PlanOf(slug, start, g, risk, run).flows) == 1
  {
    PlanCount(slug, start, g, risk, run, EndpointOf(e.id));
    SharesOfRoute(FactsOf(g, risk), SortBy(RouteLe, g.routes), FormsByRoute(g.routes, g.forms), e.id);
    CountDistinctEndpoint(g.endpoints, e);
  }

  lemma {:induction false} CountDistinctEndpoint(endpoints: seq<Endpoint>, e: Endpoint)
    requires (forall i, j | 0 <= i < j < |endpoints| :: endpoints[i].id != endpoints[j].id) && e in endpoints
    ensures Count(EndpointHasId(e.id), endpoints) == 1
  {
    if endpoints[0] == e {
      CountNone(EndpointHasId(e.id), endpoints[1..]);
    } else {
      assert e in endpoints[1..];
      CountDistinctEndpoint(endpoints[1..], e);
    }
  }

  // ----- forms -----

  ghost predicate DistinctFormIds(forms: seq<Form>) {
    forall i, j | 0 <= i < j < |forms| :: forms[i].id != forms[j].id
  }

  /** The bucket of a route id: the forms that go there, in order. */
  lemma {:induction false} BucketIsFilter(home: Form -> string, forms: seq<Form>, n: nat, routeId: string)
    requires n <= |forms|
    ensures FormsAt(BucketInto(home, forms, n), routeId) == Filter(GoesTo(home, routeId), forms[..n])
  {
    if n > 0 {
      BucketIsFilter(home, forms, n - 1, routeId);
      FilterNext(GoesTo(home, routeId), forms, n - 1);
    }
  }

  lemma BucketOf(home: Form -> string, forms: seq<Form>, routeId: string)
    ensures FormsAt(BucketInto(home, forms, |forms|), routeId) == Filter(GoesTo(home, routeId), forms)
  {
    BucketIsFilter(home, forms, |forms|, routeId);
    assert forms[..|forms|] == forms;
  }

  lemma {:induction false} GoesOnce(home: Form -> string, forms: seq<Form>, f: Form, routeId: string)
    requires DistinctFormIds(forms) && f in forms
    ensures Count(FormGoes(home, f.id, routeId), forms) == if home(f) == routeId then 1 else 0
  {
    if forms[0] == f {
      CountNone(FormGoes(home, f.id, routeId), forms[1..]);
    } else {
      assert f in forms[1..];
      GoesOnce(home, forms[1..], f, routeId);
    }
  }

  lemma FormsAtCount(home: Form -> string, forms: seq<Form>, f: Form, routeId: string)
    requires DistinctFormIds(forms) && f in forms
    ensures Count(FormHasId(f.id), FormsAt(BucketInto(home, SortBy(FormLe, forms), |forms|), routeId)) == if home(f) == routeId then 1 else 0
  {
    var ordered := SortBy(FormLe, forms);
    BucketOf(home, ordered, routeId);
    CountFilter(FormHasId(f.id), GoesTo(home, routeId), FormGoes(home, f.id, routeId), ordered);
    CountSort(FormGoes(home, f.id, routeId), FormLe, forms);
    GoesOnce(home, forms, f, routeId);
  }

  /** The buckets hold the form once, under `home`. */
  ghost predicate HeldOnce(m: map<string, seq<Form>>, formId: string, home: string) {
    forall id :: Count(FormHasId(formId), FormsAt(m, id)) == if home == id then 1 else 0
  }

  lemma {:induction false} SharesOfForm(facts: Facts, routes: seq<Route>, m: map<string, seq<Form>>, formId: string, home: string)
    requires HeldOnce(m, formId, home)
    ensures RoutesShare(facts, routes, m, FormOf(formId)) == Count(RouteHasId(home), routes)
  {
    if routes != [] { SharesOfForm(facts, routes[1..], m, formId, home); }
  }

  lemma BucketsHoldOnce(routes: seq<Route>, forms: seq<Form>, f: Form)
    requires routes != [] && DistinctFormIds(forms) && f in forms
    ensures HeldOnce(FormsByRoute(routes, forms), f.id, RouteOfForm(SortBy(RouteByPath, routes), f).id)
  {
    forall id { FormsAtCount(Home(SortBy(RouteByPath, routes)), forms, f, id); }
  }

  /** A form is planned once for every route bearing the id of the route it is bucketed under; with no
      routes at all it is dropped. */
  lemma FormsPlanned(slug: Slugs, start: nat, g: Graph, risk: RiskMap, run: Run, f: Form)
    requires DistinctFormIds(g.forms) && f in g.forms
    ensures Count(FlowAbout(FormOf(f.id)), PlanOf(slug, start, g, risk, run).flows) ==
      if g.routes == [] then 0 else Count(RouteHasId(RouteOfForm(SortBy(RouteByPath, g.routes), f).id), g.routes)
  {
    PlanCount(slug, start, g, risk, run, FormOf(f.id));
    if g.routes != [] {
      BucketsHoldOnce(g.routes, g.forms, f);
      SharesOfForm(FactsOf(g, risk), SortBy(RouteLe, g.routes), FormsByRoute(g.routes, g.forms), f.id, RouteOfForm(SortBy(RouteByPath, g.routes), f).id);
      CountSort(RouteHasId(RouteOfForm(SortBy(RouteByPath, g.routes), f).id), RouteLe, g.routes);
    }
  }

  /** Every form gets exactly one form flow, if and only if the graph has a route. */
  lemma FormsConservedIff(slug: Slugs, start: nat, g: Graph, risk: RiskMap, run: Run, f: Form)
    requires DistinctRouteIds(g.routes) && DistinctFormIds(g.forms) && f in g.forms
    ensures Count(FlowAbout(FormOf(f.id)), PlanOf(slug, start, g, risk, run).flows) == 1 <==> g.routes != []
  {
    FormsPlanned(slug, start, g, risk, run, f);
    if g.routes != [] {
      RouteOfFormListed(g.routes, f);
      CountDistinctRoute(g.routes, RouteOfForm(SortBy(RouteByPath, g.routes), f));
    }
  }

  lemma {:induction false} IndexedIsListed(routes: seq<Route>, n: nat, path: string)
    requires n <= |routes| && path in RoutesByPath(routes, n)
    ensures RoutesByPath(routes, n)[path] in routes && RoutesByPath(routes, n)[path].path == path
  {
    if n > 0 && path in RoutesByPath(routes, n - 1) { IndexedIsListed(routes, n - 1, path); }
  }

  lemma RouteOfFormListed(routes: seq<Route>, f: Form)
    requires routes != []
    ensures RouteOfForm(SortBy(RouteByPath, routes), f) in routes
  {
    var sorted := SortBy(RouteByPath, routes);
    if TargetPath(f) in RoutesByPath(sorted, |sorted|) { IndexedIsListed(sorted, |sorted|, TargetPath(f)); }
    SameElements(sorted, routes, RouteOfForm(sorted, f));
  }

  // ----- the total -----

  function BucketTotal(m: map<string, seq<Form>>, routes: seq<Route>): nat {
    if routes == [] then 0 else |FormsAt(m, routes[0].id)| + BucketTotal(m, routes[1..])
  }

  lemma {:induction false} BucketsHold(home: Form -> string, forms: seq<Form>, n: nat, over: seq<Route>)
    requires 0 < n <= |forms|
    ensures BucketTotal(BucketInto(home, forms, n), over) ==
      BucketTotal(BucketInto(home, forms, n - 1), over) + Count(RouteHasId(home(forms[n - 1])), over)
  {
    if over != [] { BucketsHold(home, forms, n, over[1..]); }
  }

  lemma {:induction false} NoForms(over: seq<Route>)
    ensures BucketTotal(map[], over) == 0
  {
    if over != [] { NoForms(over[1..]); }
  }

  lemma {:induction false} BucketsHoldAll(home: Form -> string, forms: seq<Form>, n: nat, over: seq<Route>)
    requires n <= |forms| && forall f :: Count(RouteHasId(home(f)), over) == 1
    ensures BucketTotal(BucketInto(home, forms, n), over) == n
  {
    if n == 0 { NoForms(over); } else {
      BucketsHoldAll(home, forms, n - 1, over);
      BucketsHold(home, forms, n, over);
    }
  }

  function NeedsAuth(facts: Facts): Route -> bool { (r: Route) => r.id in facts.authRequired }

  lemma {:induction false} FormSketchesSize(facts: Facts, route: Route, forms: seq<Form>)
    ensures |FormSketches(facts, route, forms)| == |forms|
  {
    if forms != [] { FormSketchesSize(facts, route, forms[1..]); }
  }

  lemma {:induction false} RouteSketchesSize(facts: Facts, routes: seq<Route>, m: map<string, seq<Form>>)
    ensures |AllRouteSketches(facts, routes, m)| == |routes| + Count(NeedsAuth(facts), routes) + BucketTotal(m, routes)
  {
    if routes != [] {
      FormSketchesSize(facts, routes[0], FormsAt(m, routes[0].id));
      RouteSketchesSize(facts, routes[1..], m);
    }
  }

  lemma {:induction false} ApiSketchesSize(endpoints: seq<Endpoint>)
    ensures |ApiSketches(endpoints)| == |endpoints|
  {
    if endpoints != [] { ApiSketchesSize(endpoints[1..]); }
  }

  lemma SortKeepsDistinctIds(routes: seq<Route>)
    requires DistinctRouteIds(routes)
    ensures DistinctRouteIds(SortBy(RouteLe, routes))
  {
    var sorted := SortBy(RouteLe, routes);
    NoDupSort(RouteLe, routes);
    forall i, j | 0 <= i < j < |sorted| ensures sorted[i].id != sorted[j].id {
      SameElements(sorted, routes, sorted[i]);
      SameElements(sorted, routes, sorted[j]);
    }
  }

  lemma FormTotal(routes: seq<Route>, forms: seq<Form>)
    requires routes != [] && DistinctRouteIds(routes)
    ensures BucketTotal(FormsByRoute(routes, forms), SortBy(RouteLe, routes)) == |forms|
  {
    var over, byPath, ordered := SortBy(RouteLe, routes), SortBy(RouteByPath, routes), SortBy(FormLe, forms);
    SortKeepsDistinctIds(routes);
    forall f ensures Count(RouteHasId(Home(byPath)(f)), over) == 1 {
      RouteOfFormListed(routes, f);
      SameElements(over, routes, RouteOfForm(byPath, f));
      CountDistinctRoute(over, RouteOfForm(byPath, f));
    }
    if forms == [] { NoForms(over); } else { BucketsHoldAll(Home(byPath), ordered, |ordered|, over); }
  }

  /** Nothing else is planned: the flows number the routes, the protected routes, the forms and the endpoints. */
  lemma FlowTotal(slug: Slugs, start: nat, g: Graph, risk: RiskMap, run: Run)
    requires DistinctRouteIds(g.routes) && g.routes != []
    ensures |PlanOf(slug, start, g, risk, run).flows| ==
      |g.routes| + Count(NeedsAuth(FactsOf(g, risk)), g.routes) + |g.forms| + |g.endpoints|
  {
    var facts, m := FactsOf(g, risk), FormsByRoute(g.routes, g.forms);
    RouteSketchesSize(facts, SortBy(RouteLe, g.routes), m);
    ApiSketchesSize(SortBy(EndpointLe, g.endpoints));
    CountSort(NeedsAuth(facts), RouteLe, g.routes);
    FormTotal(g.routes, g.forms);
    SizeOfPlan(slug, start, Sketches(g, risk), g, risk, run);
  }

  lemma SizeOfPlan(slug: Slugs, start: nat, sketches: seq<Sketch>, g: Graph, risk: RiskMap, run: Run)
    ensures |Numbered(slug, start, sketches, g, risk, run).flows| == |sketches|
  {}
}
