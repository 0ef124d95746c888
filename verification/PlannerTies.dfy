/** When flows of a plan tie (engine/planner/core.py:175-333), in terms of the graph: so exactly which graphs have the
    same plan modulo ids on every run. */
module PlannerTies {
  import opened Sorting
  import opened Wrappers
  import opened Planner
  import opened PlannerOrder
  import opened PlannerCounts
  import opened PlannerCases
  import opened PlannerListing
  import opened PlannerIds

  // ----- what each sketch was made for -----

  datatype Origin = Smoke(route: Route) | Boundary(route: Route) | Submit(route: Route, form: Form) | Contract(endpoint: Endpoint)

  function Made(facts: Facts, m: map<string, seq<Form>>, o: Origin): Sketch {
    match o
    case Smoke(r) => SmokeSketch(facts, r, FormsAt(m, r.id))
    case Boundary(r) => BoundarySketch(facts, r)
    case Submit(r, f) => FormSketch(facts, r, f)
    case Contract(e) => ApiSketch(e)
  }

  predicate FromRoute(facts: Facts, r: Route, forms: seq<Form>, o: Origin) {
    o == Smoke(r) || (o == Boundary(r) && r.id in facts.authRequired) || (o.Submit? && o.route == r && o.form in forms)
  }

  ghost predicate Comes(facts: Facts, routes: seq<Route>, m: map<string, seq<Form>>, o: Origin) {
    exists r | r in routes :: FromRoute(facts, r, FormsAt(m, r.id), o)
  }

  lemma {:induction false} FormSketchesMade(facts: Facts, m: map<string, seq<Form>>, r: Route, forms: seq<Form>, sk: Sketch)
    ensures sk in FormSketches(facts, r, forms) <==> exists f | f in forms :: sk == Made(facts, m, Submit(r, f))
  {
    if forms != [] {
      FormSketchesMade(facts, m, r, forms[1..], sk);
      assert forall f :: f in forms <==> f == forms[0] || f in forms[1..];
      assert FormSketch(facts, r, forms[0]) == Made(facts, m, Submit(r, forms[0]));
    }
  }

  lemma RouteSketchesMade(facts: Facts, m: map<string, seq<Form>>, r: Route, sk: Sketch)
    ensures sk in RouteSketches(facts, r, FormsAt(m, r.id)) <==> exists o | FromRoute(facts, r, FormsAt(m, r.id), o) :: sk == Made(facts, m, o)
  {
    var forms := FormsAt(m, r.id);
    FormSketchesMade(facts, m, r, forms, sk);
    if sk in FormSketches(facts, r, forms) {
      var f :| f in forms && sk == Made(facts, m, Submit(r, f));
      assert FromRoute(facts, r, forms, Submit(r, f));
    }
    if sk == SmokeSketch(facts, r, forms) { assert FromRoute(facts, r, forms, Smoke(r)); }
    if r.id in facts.authRequired && sk == BoundarySketch(facts, r) { assert FromRoute(facts, r, forms, Boundary(r)); }
  }

  lemma {:induction false} RoutesMade(facts: Facts, routes: seq<Route>, m: map<string, seq<Form>>, sk: Sketch)
    ensures sk in AllRouteSketches(facts, routes, m) <==> exists o | Comes(facts, routes, m, o) :: sk == Made(facts, m, o)
  {
    if routes != [] {
      RouteSketchesMade(facts, m, routes[0], sk);
      RoutesMade(facts, routes[1..], m, sk);
      forall o ensures Comes(facts, routes, m, o) <==> FromRoute(facts, routes[0], FormsAt(m, routes[0].id), o) || Comes(facts, routes[1..], m, o) {
        if Comes(facts, routes[1..], m, o) {
          var r :| r in routes[1..] && FromRoute(facts, r, FormsAt(m, r.id), o);
          assert r in routes;
        }
      }
    }
  }

  lemma {:induction false} ApisMade(facts: Facts, m: map<string, seq<Form>>, endpoints: seq<Endpoint>, sk: Sketch)
    ensures sk in ApiSketches(endpoints) <==> exists e | e in endpoints :: sk == Made(facts, m, Contract(e))
  {
    if endpoints != [] {
      ApisMade(facts, m, endpoints[1..], sk);
      assert forall e :: e in endpoints <==> e == endpoints[0] || e in endpoints[1..];
      assert ApiSketch(endpoints[0]) == Made(facts, m, Contract(endpoints[0]));
    }
  }

  /** Every origin of a flow of the graph. */
  ghost predicate Of(g: Graph, risk: RiskMap, o: Origin) {
    if o.Contract? then o.endpoint in g.endpoints
    else Comes(FactsOf(g, risk), g.routes, FormsByRoute(g.routes, g.forms), o)
  }

  function MadeIn(g: Graph, risk: RiskMap, o: Origin): Sketch { Made(FactsOf(g, risk), FormsByRoute(g.routes, g.forms), o) }

  lemma ComesSorted(facts: Facts, routes: seq<Route>, m: map<string, seq<Form>>, o: Origin)
    ensures Comes(facts, SortBy(RouteLe, routes), m, o) <==> Comes(facts, routes, m, o)
  {
    forall r ensures r in SortBy(RouteLe, routes) <==> r in routes { SameElements(SortBy(RouteLe, routes), routes, r); }
  }

  lemma RouteSketchOf(facts: Facts, routes: seq<Route>, m: map<string, seq<Form>>, o: Origin)
    requires Comes(facts, routes, m, o)
    ensures Made(facts, m, o) in AllRouteSketches(facts, SortBy(RouteLe, routes), m)
  {
    ComesSorted(facts, routes, m, o);
    RoutesMade(facts, SortBy(RouteLe, routes), m, Made(facts, m, o));
  }

  lemma ApiSketchOf(facts: Facts, m: map<string, seq<Form>>, endpoints: seq<Endpoint>, e: Endpoint)
    requires e in endpoints
    ensures Made(facts, m, Contract(e)) in ApiSketches(SortBy(EndpointLe, endpoints))
  {
    SameElements(SortBy(EndpointLe, endpoints), endpoints, e);
    ApisMade(facts, m, SortBy(EndpointLe, endpoints), Made(facts, m, Contract(e)));
  }

  lemma SketchOf(g: Graph, risk: RiskMap, o: Origin)
    requires Of(g, risk, o)
    ensures MadeIn(g, risk, o) in Sketches(g, risk)
  {
    var facts, m := FactsOf(g, risk), FormsByRoute(g.routes, g.forms);
    if o.Contract? { ApiSketchOf(facts, m, g.endpoints, o.endpoint); } else { RouteSketchOf(facts, g.routes, m, o); }
  }

  lemma RouteOriginOf(facts: Facts, routes: seq<Route>, m: map<string, seq<Form>>, sk: Sketch) returns (o: Origin)
    requires sk in AllRouteSketches(facts, SortBy(RouteLe, routes), m)
    ensures Comes(facts, routes, m, o) && sk == Made(facts, m, o)
  {
    RoutesMade(facts, SortBy(RouteLe, routes), m, sk);
    o :| Comes(facts, SortBy(RouteLe, routes), m, o) && sk == Made(facts, m, o);
    ComesSorted(facts, routes, m, o);
  }

  lemma NotAContract(facts: Facts, routes: seq<Route>, m: map<string, seq<Form>>, o: Origin)
    requires Comes(facts, routes, m, o)
    ensures !o.Contract?
  {}

  lemma ApiOriginOf(facts: Facts, m: map<string, seq<Form>>, endpoints: seq<Endpoint>, sk: Sketch) returns (e: Endpoint)
    requires sk in ApiSketches(SortBy(EndpointLe, endpoints))
    ensures e in endpoints && sk == Made(facts, m, Contract(e))
  {
    ApisMade(facts, m, SortBy(EndpointLe, endpoints), sk);
    e :| e in SortBy(EndpointLe, endpoints) && sk == Made(facts, m, Contract(e));
    SameElements(SortBy(EndpointLe, endpoints), endpoints, e);
  }

  lemma OriginOf(g: Graph, risk: RiskMap, sk: Sketch) returns (o: Origin)
    requires sk in Sketches(g, risk)
    ensures Of(g, risk, o) && sk == MadeIn(g, risk, o)
  {
    var facts, m := FactsOf(g, risk), FormsByRoute(g.routes, g.forms);
    if sk in AllRouteSketches(facts, SortBy(RouteLe, g.routes), m) {
      o := RouteOriginOf(facts, g.routes, m, sk);
      NotAContract(facts, g.routes, m, o);
    } else {
      var e := ApiOriginOf(facts, m, g.endpoints, sk);
      o := Contract(e);
    }
  }

  // ----- which flows tie -----

  lemma KeyMeans(a: FlowBody, b: FlowBody)
    ensures BodyKey(a) == BodyKey(b) <==> a.priority == b.priority && a.risk == b.risk && a.name == b.name
  {
    var s, t := BodyKey(a), BodyKey(b);
    PriorityNames(a.priority, b.priority);
    MildnessNames(a.risk, b.risk);
    if s == t { assert s[0] == t[0] && s[1] == t[1] && s[2] == t[2]; }
  }

  function Label(o: Origin): string {
    match o
    case Smoke(_) => "smoke: "
    case Boundary(_) => "auth-boundary: "
    case Submit(_, _) => "submit form on "
    case Contract(_) => "api contract: "
  }

  function Subject(o: Origin): string {
    match o
    case Smoke(r) => r.path
    case Boundary(r) => r.path
    case Submit(r, _) => r.path
    case Contract(e) => e.verb + " " + e.path
  }

  lemma NameIsLabelled(facts: Facts, m: map<string, seq<Form>>, o: Origin)
    ensures Made(facts, m, o).body.name == Label(o) + Subject(o)
  {}

  predicate SameKind(a: Origin, b: Origin) {
    (a.Smoke? <==> b.Smoke?) && (a.Boundary? <==> b.Boundary?) && (a.Submit? <==> b.Submit?)
  }

  lemma LabelStarts(o: Origin)
    ensures |Label(o)| >= 2
    ensures Label(o)[0] == (if o.Smoke? || o.Submit? then 's' else 'a') && Label(o)[1] == (if o.Smoke? then 'm' else if o.Contract? then 'p' else 'u')
  {}

  lemma SameFront(front: string, x: string, y: string)
    ensures front + x == front + y <==> x == y
  {
    assert (front + x)[|front|..] == x && (front + y)[|front|..] == y;
  }

  lemma StartsAgree(a: string, x: string, b: string, y: string)
    requires |a| >= 2 && |b| >= 2 && a + x == b + y
    ensures a[0] == b[0] && a[1] == b[1]
  {
    assert (a + x)[0] == a[0] && (a + x)[1] == a[1] && (b + y)[0] == b[0] && (b + y)[1] == b[1];
  }

  /** The four kinds of name never meet. */
  lemma LabelsApart(a: Origin, b: Origin)
    requires Label(a) + Subject(a) == Label(b) + Subject(b)
    ensures SameKind(a, b) && Subject(a) == Subject(b)
  {
    LabelStarts(a);
    LabelStarts(b);
    StartsAgree(Label(a), Subject(a), Label(b), Subject(b));
    SameFront(Label(a), Subject(a), Subject(b));
  }

  // ----- the condition on the graph -----

  ghost predicate IdsNameRoutes(routes: seq<Route>) { forall r, q | r in routes && q in routes :: r.id == q.id ==> r == q }

  ghost predicate IdsNameEndpoints(endpoints: seq<Endpoint>) { forall d, e | d in endpoints && e in endpoints :: d.id == e.id ==> d == e }

  /** No two routes share a path and a risk. */
  ghost predicate RoutesUntied(facts: Facts, routes: seq<Route>) {
    forall r, q | r in routes && q in routes && r != q && r.path == q.path :: RiskOf(facts, r) != RiskOf(facts, q)
  }

  /** No two forms go to one route. */
  ghost predicate FormsUntied(routes: seq<Route>, forms: seq<Form>) {
    routes != [] ==> forall f, h | f in forms && h in forms && f != h :: RouteIdOfForm(routes, f) != RouteIdOfForm(routes, h)
  }

  predicate Guarded(e: Endpoint) { e.authStrategy != "none" }

  /** No two endpoints share verb and path unless one is protected and the other is not. */
  ghost predicate EndpointsUntied(endpoints: seq<Endpoint>) {
    forall d, e | d in endpoints && e in endpoints && d != e && d.verb + " " + d.path == e.verb + " " + e.path :: Guarded(d) != Guarded(e)
  }

  ghost predicate Untied(g: Graph, risk: RiskMap) {
    RoutesUntied(FactsOf(g, risk), g.routes) && FormsUntied(g.routes, g.forms) && EndpointsUntied(g.endpoints)
  }

  // ----- untied graphs make untied flows -----

  predicate Ties(a: FlowBody, b: FlowBody) { a.priority == b.priority && a.risk == b.risk && a.name == b.name }

  lemma RouteOrigin(facts: Facts, routes: seq<Route>, m: map<string, seq<Form>>, o: Origin)
    requires Comes(facts, routes, m, o)
    ensures !o.Contract? && o.route in routes && (o.Submit? ==> o.form in FormsAt(m, o.route.id))
    ensures Made(facts, m, o).body.risk == RiskOf(facts, o.route) && Subject(o) == o.route.path
  {}

  ghost predicate Single(forms: seq<Form>) { forall f, h | f in forms && h in forms :: f == h }

  /** Two flows of routes that tie come from one route, and from one form if they come from forms. */
  lemma RouteTies(facts: Facts, routes: seq<Route>, m: map<string, seq<Form>>, a: Origin, b: Origin)
    requires RoutesUntied(facts, routes) && Comes(facts, routes, m, a) && Comes(facts, routes, m, b) && SameKind(a, b)
    requires a.Submit? ==> Single(FormsAt(m, a.route.id))
    requires Subject(a) == Subject(b) && Made(facts, m, a).body.risk == Made(facts, m, b).body.risk
    ensures a == b
  {
    RouteOrigin(facts, routes, m, a);
    RouteOrigin(facts, routes, m, b);
  }

  lemma ContractTies(endpoints: seq<Endpoint>, d: Endpoint, e: Endpoint)
    requires EndpointsUntied(endpoints) && d in endpoints && e in endpoints
    requires d.verb + " " + d.path == e.verb + " " + e.path && ApiSketch(d).body.risk == ApiSketch(e).body.risk
    ensures d == e
  {}

  lemma OneFormAt(routes: seq<Route>, forms: seq<Form>, id: string)
    requires FormsUntied(routes, forms)
    ensures Single(FormsAt(FormsByRoute(routes, forms), id))
  {
    if routes != [] {
      var bucket := FormsAt(FormsByRoute(routes, forms), id);
      forall f | f in bucket ensures f in forms && RouteIdOfForm(routes, f) == id { BucketsHoldForms(routes, forms, id, f); }
    }
  }

  lemma UntiedOrigins(g: Graph, risk: RiskMap, a: Origin, b: Origin)
    requires Untied(g, risk) && Of(g, risk, a) && Of(g, risk, b) && Ties(MadeIn(g, risk, a).body, MadeIn(g, risk, b).body)
    ensures a == b
  {
    var facts, m := FactsOf(g, risk), FormsByRoute(g.routes, g.forms);
    NameIsLabelled(facts, m, a);
    NameIsLabelled(facts, m, b);
    LabelsApart(a, b);
    if a.Contract? {
      ContractTies(g.endpoints, a.endpoint, b.endpoint);
    } else {
      RouteOrigin(facts, g.routes, m, a);
      OneFormAt(g.routes, g.forms, a.route.id);
      RouteTies(facts, g.routes, m, a, b);
    }
  }

  lemma UntiedAgrees(g: Graph, risk: RiskMap)
    requires Untied(g, risk)
    ensures TiesAgree(Sketches(g, risk))
  {
    var sketches := Sketches(g, risk);
    forall i, j | 0 <= i < |sketches| && 0 <= j < |sketches| && BodyKey(sketches[i].body) == BodyKey(sketches[j].body)
      ensures sketches[i].body == sketches[j].body
    {
      KeyMeans(sketches[i].body, sketches[j].body);
      var a := OriginOf(g, risk, sketches[i]);
      var b := OriginOf(g, risk, sketches[j]);
      UntiedOrigins(g, risk, a, b);
    }
  }

  // ----- and tied ones do not -----

  lemma AgreedMembers(sketches: seq<Sketch>, a: Sketch, b: Sketch)
    requires TiesAgree(sketches) && a in sketches && b in sketches && Ties(a.body, b.body)
    ensures a.body == b.body
  {
    KeyMeans(a.body, b.body);
  }

  lemma AgreedBodies(g: Graph, risk: RiskMap, a: Origin, b: Origin)
    requires TiesAgree(Sketches(g, risk)) && Of(g, risk, a) && Of(g, risk, b) && Ties(MadeIn(g, risk, a).body, MadeIn(g, risk, b).body)
    ensures MadeIn(g, risk, a).body == MadeIn(g, risk, b).body
  {
    SketchOf(g, risk, a);
    SketchOf(g, risk, b);
    AgreedMembers(Sketches(g, risk), MadeIn(g, risk, a), MadeIn(g, risk, b));
  }

  lemma SmokeBodies(facts: Facts, r: Route, q: Route, forms: seq<Form>, forms': seq<Form>)
    requires r.path == q.path && RiskOf(facts, r) == RiskOf(facts, q)
    ensures Ties(SmokeSketch(facts, r, forms).body, SmokeSketch(facts, q, forms').body)
    ensures SmokeSketch(facts, r, forms).body == SmokeSketch(facts, q, forms').body ==> r.id == q.id
  {
    assert SmokeSketch(facts, r, forms).body.targets[0] == Some(r.id) && SmokeSketch(facts, q, forms').body.targets[0] == Some(q.id);
  }

  lemma SubmitBodies(facts: Facts, r: Route, f: Form, h: Form)
    ensures Ties(FormSketch(facts, r, f).body, FormSketch(facts, r, h).body)
    ensures FormSketch(facts, r, f).body == FormSketch(facts, r, h).body ==> f.id == h.id
  {
    FormAbout(facts, r, f, FormOf(f.id));
    FormAbout(facts, r, h, FormOf(f.id));
  }

  lemma ApiName(e: Endpoint)
    ensures ApiSketch(e).body.name == "api contract: " + (e.verb + " " + e.path)
  {}

  lemma ContractBodies(d: Endpoint, e: Endpoint)
    requires d.verb + " " + d.path == e.verb + " " + e.path && Guarded(d) == Guarded(e)
    ensures Ties(ApiSketch(d).body, ApiSketch(e).body)
    ensures ApiSketch(d).body == ApiSketch(e).body ==> d.id == e.id
  {
    ApiName(d);
    ApiName(e);
    ApiAbout(d, EndpointOf(d.id));
    ApiAbout(e, EndpointOf(d.id));
  }

  lemma SmokeIsOf(g: Graph, risk: RiskMap, r: Route)
    requires r in g.routes
    ensures Of(g, risk, Smoke(r))
  {
    assert FromRoute(FactsOf(g, risk), r, FormsAt(FormsByRoute(g.routes, g.forms), r.id), Smoke(r));
  }

  lemma AgreedRoutes(g: Graph, risk: RiskMap)
    requires TiesAgree(Sketches(g, risk)) && IdsNameRoutes(g.routes)
    ensures RoutesUntied(FactsOf(g, risk), g.routes)
  {
    var facts, m := FactsOf(g, risk), FormsByRoute(g.routes, g.forms);
    forall r, q | r in g.routes && q in g.routes && r != q && r.path == q.path ensures RiskOf(facts, r) != RiskOf(facts, q) {
      if RiskOf(facts, r) == RiskOf(facts, q) {
        SmokeIsOf(g, risk, r);
        SmokeIsOf(g, risk, q);
        SmokeBodies(facts, r, q, FormsAt(m, r.id), FormsAt(m, q.id));
        AgreedBodies(g, risk, Smoke(r), Smoke(q));
      }
    }
  }

  lemma SubmitIsOf(g: Graph, risk: RiskMap, r: Route, f: Form)
    requires r in g.routes && f in g.forms && RouteIdOfForm(g.routes, f) == r.id
    ensures Of(g, risk, Submit(r, f))
  {
    BucketsHoldForms(g.routes, g.forms, r.id, f);
    assert FromRoute(FactsOf(g, risk), r, FormsAt(FormsByRoute(g.routes, g.forms), r.id), Submit(r, f));
  }

  lemma AgreedFormPair(g: Graph, risk: RiskMap, f: Form, h: Form)
    requires TiesAgree(Sketches(g, risk)) && g.routes != [] && f in g.forms && h in g.forms
    requires RouteIdOfForm(g.routes, f) == RouteIdOfForm(g.routes, h)
    ensures f.id == h.id
  {
    var r := RouteOfForm(SortBy(RouteByPath, g.routes), f);
    RouteOfFormListed(g.routes, f);
    SubmitIsOf(g, risk, r, f);
    SubmitIsOf(g, risk, r, h);
    SubmitBodies(FactsOf(g, risk), r, f, h);
    AgreedBodies(g, risk, Submit(r, f), Submit(r, h));
  }

  lemma AgreedForms(g: Graph, risk: RiskMap)
    requires TiesAgree(Sketches(g, risk)) && IdsNameForms(g.forms)
    ensures FormsUntied(g.routes, g.forms)
  {
    if g.routes != [] {
      forall f, h | f in g.forms && h in g.forms && f != h ensures RouteIdOfForm(g.routes, f) != RouteIdOfForm(g.routes, h) {
        if RouteIdOfForm(g.routes, f) == RouteIdOfForm(g.routes, h) { AgreedFormPair(g, risk, f, h); }
      }
    }
  }

  lemma AgreedEndpoints(g: Graph, risk: RiskMap)
    requires TiesAgree(Sketches(g, risk)) && IdsNameEndpoints(g.endpoints)
    ensures EndpointsUntied(g.endpoints)
  {
    forall d, e | d in g.endpoints && e in g.endpoints && d != e && d.verb + " " + d.path == e.verb + " " + e.path
      ensures Guarded(d) != Guarded(e)
    {
      if Guarded(d) == Guarded(e) {
        ContractBodies(d, e);
        AgreedBodies(g, risk, Contract(d), Contract(e));
      }
    }
  }

  /** A graph has no two different flows that tie exactly when no two routes share a path and a risk, no two forms go to
      one route, and no two endpoints share verb, path and protection. */
  lemma UntiedIff(g: Graph, risk: RiskMap)
    requires IdsNameRoutes(g.routes) && IdsNameForms(g.forms) && IdsNameEndpoints(g.endpoints)
    ensures TiesAgree(Sketches(g, risk)) <==> Untied(g, risk)
  {
    if Untied(g, risk) {
      UntiedAgrees(g, risk);
    } else if TiesAgree(Sketches(g, risk)) {
      AgreedRoutes(g, risk);
      AgreedForms(g, risk);
      AgreedEndpoints(g, risk);
    }
  }

  /** The determinism contract: every run of the planner gives a graph the same plan modulo ids exactly when the graph is untied. */
  lemma ContractHoldsIff(g: Graph, risk: RiskMap, run: Run)
    requires IdsNameRoutes(g.routes) && IdsNameForms(g.forms) && IdsNameEndpoints(g.endpoints)
    ensures SameModuloIds(g, g, risk, run) <==> Untied(g, risk)
  {
    PlanIsFixedIff(g, risk, run);
    UntiedIff(g, risk);
  }

  lemma DistinctIdsName(g: Graph)
    ensures DistinctRouteIds(g.routes) ==> IdsNameRoutes(g.routes)
    ensures DistinctFormIds(g.forms) ==> IdsNameForms(g.forms)
  {}

  /** For two listings of one graph: each form must go to one route in both, too. */
  lemma ListingContractHoldsIff(g: Graph, h: Graph, risk: RiskMap, run: Run)
    requires Relisted(g, h) && g.routes != [] && DistinctRouteIds(g.routes) && DistinctFormIds(g.forms) && IdsNameEndpoints(g.endpoints)
    ensures SameModuloIds(g, h, risk, run) <==> FormsStay(g, h) && Untied(g, risk)
  {
    DistinctIdsName(g);
    ListingsAgreeIff(g, h, risk, run);
    UntiedIff(g, risk);
  }
}
