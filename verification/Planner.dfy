/** engine/planner/core.py, run with no flow extractors: the deterministic plan of a discovery graph. */
module Planner {
  import opened Sorting
  import opened Text
  import opened Wrappers

  // ----- what the planner reads -----

  datatype Route = Route(id: string, path: string, authRequired: bool)

  /** `action` is the path part of the form's action URL, when it has one. */
  datatype Form = Form(id: string, action: Option<string>, submitHandlerPresent: bool)
  datatype Endpoint = Endpoint(id: string, verb: string, path: string, authStrategy: string, source: string)
  datatype AuthBoundary = AuthBoundary(routeId: string, requiredRole: Option<string>)
  datatype Graph = Graph(
    id: string, routes: seq<Route>, forms: seq<Form>, endpoints: seq<Endpoint>, boundaries: seq<AuthBoundary>)

  datatype RouteRisk = RouteRisk(routeId: string, score: real)
  datatype RiskMap = RiskMap(id: string, entries: seq<RouteRisk>)
  datatype Run = Run(id: string, targetUrl: string)

  // ----- what it makes -----

  datatype Risk = Critical | High | Medium | Low
  datatype Priority = P0 | P1 | P2 | P3
  datatype Category = Login | Signup | Payment | Admin | Plain
  datatype Extractor = RouteSmoke | RouteAuthBoundary | FormSubmit | ApiContract
  datatype TestType = Functional | LlmAudit | Api

  /** The record keeps its tags sorted and without repetition, so they are a set. */
  datatype Tag =
    | SmokeTag | AuthBoundaryTag | SecurityTag | FormTag | ApiTag | LlmAuditCandidate
    | CategoryTag(category: Category) | FormIdTag(formId: string) | EndpointTag(endpointId: string) | SourceTag(source: string)

  /** A flow before its id is drawn; `targets` is the target route of each step. */
  datatype FlowBody = FlowBody(
    name: string, targets: seq<Option<string>>, priority: Priority, risk: Risk,
    requiredAuthRole: Option<string>, extractor: Extractor, tags: set<Tag>)
  datatype Flow = Flow(id: string, body: FlowBody)
  datatype TestCase = TestCase(id: string, flowId: string, testType: TestType)
  datatype TestPlan = TestPlan(
    id: string, runId: string, graphId: string, riskMapId: string, targetUrl: string,
    flows: seq<Flow>, testCases: seq<TestCase>, byModule: map<TestType, nat>, total: nat)

  // ----- risk, category, priority -----

  function BucketedRisk(score: real): Risk {
    if score >= 0.80 then Critical else if score >= 0.60 then High else if score >= 0.30 then Medium else Low
  }

  function PriorityForRisk(risk: Risk): Priority {
    match risk
    case Critical => P0
    case High => P1
    case Medium => P2
    case Low => P3
  }

  predicate Contains(text: string, needle: string) {
    needle <= text || (text != "" && Contains(text[1..], needle))
  }

  predicate HasAny(path: string, needles: seq<string>) {
    needles != [] && (Contains(Lower(path), needles[0]) || HasAny(path, needles[1..]))
  }

  function ClassifyRoute(path: string): Category {
    if HasAny(path, ["/login", "/sign-in", "/signin", "/log-in"]) then Login
    else if HasAny(path, ["/signup", "/sign-up", "/register", "/create-account"]) then Signup
    else if HasAny(path, ["/checkout", "/payment", "/pay", "/billing", "/subscribe"]) then Payment
    else if HasAny(path, ["/admin", "/manage", "/console", "/superuser"]) then Admin
    else Plain
  }

  function BumpForSensitive(category: Category, base: Priority): Priority {
    if category != Plain && base != P0 then P0 else base
  }

  /** The facts about the graph that every route is looked up in. */
  datatype Facts = Facts(scores: map<string, real>, authRequired: set<string>, boundaries: seq<AuthBoundary>)

  function RiskOf(facts: Facts, route: Route): Risk {
    BucketedRisk(if route.id in facts.scores then facts.scores[route.id] else 0.0)
  }

  function BasePriority(facts: Facts, route: Route): Priority {
    BumpForSensitive(ClassifyRoute(route.path), PriorityForRisk(RiskOf(facts, route)))
  }

  function RoleForRoute(routeId: string, boundaries: seq<AuthBoundary>): Option<string> {
    if boundaries == [] then None
    else if boundaries[0].routeId == routeId then boundaries[0].requiredRole
    else RoleForRoute(routeId, boundaries[1..])
  }

  function Scores(entries: seq<RouteRisk>, n: nat): map<string, real>
    requires n <= |entries|
  {
    if n == 0 then map[] else Scores(entries, n - 1)[entries[n - 1].routeId := entries[n - 1].score]
  }

  function AuthRequired(routes: seq<Route>): set<string> { set r | r in routes && r.authRequired :: r.id }

  function FactsOf(g: Graph, risk: RiskMap): Facts {
    Facts(Scores(risk.entries, |risk.entries|), AuthRequired(g.routes), g.boundaries)
  }

  // ----- sort keys: tuples compare component by component -----

  function RouteKey(r: Route): seq<string> { [r.path, r.id] }
  function RoutePath(r: Route): seq<string> { [r.path] }
  function FormKey(f: Form): seq<string> { [f.id] }
  function EndpointKey(e: Endpoint): seq<string> { [e.path, e.verb, e.id] }

  function PriorityName(p: Priority): string {
    match p
    case P0 => "P0"
    case P1 => "P1"
    case P2 => "P2"
    case P3 => "P3"
  }

  /** Digits that order as the negated risk weight does. */
  function Mildness(risk: Risk): string {
    match risk
    case Critical => "0"
    case High => "1"
    case Medium => "2"
    case Low => "3"
  }

  function FlowKey(f: Flow): seq<string> { [PriorityName(f.body.priority), Mildness(f.body.risk), f.body.name, f.id] }

  function TypeName(t: TestType): string {
    match t
    case Functional => "functional"
    case LlmAudit => "llm_audit"
    case Api => "api"
  }

  predicate RouteLe(a: Route, b: Route) { PathLe(RouteKey(a), RouteKey(b)) }
  predicate RouteByPath(a: Route, b: Route) { PathLe(RoutePath(a), RoutePath(b)) }
  predicate FormLe(a: Form, b: Form) { PathLe(FormKey(a), FormKey(b)) }
  predicate EndpointLe(a: Endpoint, b: Endpoint) { PathLe(EndpointKey(a), EndpointKey(b)) }
  predicate FlowLe(a: Flow, b: Flow) { PathLe(FlowKey(a), FlowKey(b)) }

  function Place(index: map<string, nat>, c: TestCase): nat {
    if c.flowId in index then index[c.flowId] else 0x4000_0000
  }

  predicate CaseLe(index: map<string, nat>, a: TestCase, b: TestCase) {
    if Place(index, a) != Place(index, b) then Place(index, a) < Place(index, b)
    else PathLe([TypeName(a.testType), a.id], [TypeName(b.testType), b.id])
  }

  // ----- forms find their routes -----

  /** The first route in the list with each path. */
  function RoutesByPath(routes: seq<Route>, n: nat): map<string, Route>
    requires n <= |routes|
  {
    if n == 0 then map[]
    else
      var m := RoutesByPath(routes, n - 1);
      if routes[n - 1].path in m then m else m[routes[n - 1].path := routes[n - 1]]
  }

  function TargetPath(form: Form): string {
    match form.action
    case None => ""
    case Some(path) => if path == "" then "/" else path
  }

  function RouteAt(routesByPath: map<string, Route>, fallback: Route, form: Form): Route {
    var target := TargetPath(form);
    if target in routesByPath then routesByPath[target] else fallback
  }

  /** Routes come sorted by path. */
  function RouteOfForm(routes: seq<Route>, form: Form): Route
    requires routes != []
  {
    RouteAt(RoutesByPath(routes, |routes|), routes[0], form)
  }

  function FormsAt(m: map<string, seq<Form>>, routeId: string): seq<Form> {
    if routeId in m then m[routeId] else []
  }

  /** The id of the route each form goes to. */
  function Home(routes: seq<Route>): Form -> string
    requires routes != []
  {
    (f: Form) => RouteOfForm(routes, f).id
  }

  function BucketInto(home: Form -> string, forms: seq<Form>, n: nat): map<string, seq<Form>>
    requires n <= |forms|
  {
    if n == 0 then map[]
    else
      var m, id := BucketInto(home, forms, n - 1), home(forms[n - 1]);
      m[id := FormsAt(m, id) + [forms[n - 1]]]
  }

  function FormsByRoute(routes: seq<Route>, forms: seq<Form>): map<string, seq<Form>> {
    if forms == [] || routes == [] then map[]
    else
      BucketInto(Home(SortBy(RouteByPath, routes)), SortBy(FormLe, forms), |forms|)
  }

  // ----- flows in the order they are made -----

  datatype Sketch = Sketch(body: FlowBody, testType: TestType)

  function CategoryTags(route: Route): set<Tag> {
    if ClassifyRoute(route.path) == Plain then {} else {CategoryTag(ClassifyRoute(route.path))}
  }

  predicate SomeUnhandled(forms: seq<Form>) { exists f | f in forms :: !f.submitHandlerPresent }

  function SmokeSketch(facts: Facts, route: Route, forms: seq<Form>): Sketch {
    Sketch(
      FlowBody(
        "smoke: " + route.path, [Some(route.id), Some(route.id)], BasePriority(facts, route), RiskOf(facts, route),
        None, RouteSmoke,
        {SmokeTag} + CategoryTags(route) + if SomeUnhandled(forms) then {LlmAuditCandidate} else {}),
      Functional)
  }

  function BoundarySketch(facts: Facts, route: Route): Sketch {
    Sketch(
      FlowBody(
        "auth-boundary: " + route.path, [Some(route.id), Some(route.id)],
        if ClassifyRoute(route.path) == Admin then BumpForSensitive(Admin, BasePriority(facts, route)) else BasePriority(facts, route),
        RiskOf(facts, route), RoleForRoute(route.id, facts.boundaries), RouteAuthBoundary,
        {AuthBoundaryTag, SecurityTag}),
      Functional)
  }

  function FormSketch(facts: Facts, route: Route, form: Form): Sketch {
    Sketch(
      FlowBody(
        "submit form on " + route.path, [Some(route.id), Some(route.id), Some(route.id)],
        if BasePriority(facts, route) == P0 then P0 else if ClassifyRoute(route.path) != Plain then P0 else P1,
        RiskOf(facts, route), RoleForRoute(route.id, facts.boundaries), FormSubmit,
        {FormTag, FormIdTag(form.id)} + CategoryTags(route) + if form.submitHandlerPresent then {} else {LlmAuditCandidate}),
      if form.submitHandlerPresent then Functional else LlmAudit)
  }

  function ApiSketch(e: Endpoint): Sketch {
    Sketch(
      FlowBody(
        "api contract: " + e.verb + " " + e.path, [None], P1, if e.authStrategy != "none" then High else Medium,
        None, ApiContract, {ApiTag, EndpointTag(e.id), SourceTag(e.source)}),
      Api)
  }

  function FormSketches(facts: Facts, route: Route, forms: seq<Form>): seq<Sketch> {
    if forms == [] then [] else [FormSketch(facts, route, forms[0])] + FormSketches(facts, route, forms[1..])
  }

  function RouteSketches(facts: Facts, route: Route, forms: seq<Form>): seq<Sketch> {
    [SmokeSketch(facts, route, forms)]
    + (if route.id in facts.authRequired then [BoundarySketch(facts, route)] else [])
    + FormSketches(facts, route, forms)
  }

  function AllRouteSketches(facts: Facts, routes: seq<Route>, formsByRoute: map<string, seq<Form>>): seq<Sketch> {
    if routes == [] then []
    else RouteSketches(facts, routes[0], FormsAt(formsByRoute, routes[0].id)) + AllRouteSketches(facts, routes[1..], formsByRoute)
  }

  function ApiSketches(endpoints: seq<Endpoint>): seq<Sketch> {
    if endpoints == [] then [] else [ApiSketch(endpoints[0])] + ApiSketches(endpoints[1..])
  }

  function Sketches(g: Graph, risk: RiskMap): seq<Sketch> {
    AllRouteSketches(FactsOf(g, risk), SortBy(RouteLe, g.routes), FormsByRoute(g.routes, g.forms))
    + ApiSketches(SortBy(EndpointLe, g.endpoints))
  }

  // ----- ids, and the finished plan -----

  /** The generator's k-th draw. */
  type Slugs = nat -> string

  function Id(kind: string, slug: string): string { kind + "-" + slug }

  function FlowId(slug: Slugs, start: nat, k: nat): string { Id("FLW", slug(start + 2 * k)) }

  function CaseId(slug: Slugs, start: nat, k: nat): string { Id("TC", slug(start + 2 * k + 1)) }

  /** Flow and test case ids are drawn in turn. */
  function Flows(slug: Slugs, start: nat, sketches: seq<Sketch>): seq<Flow> {
    seq(|sketches|, k requires 0 <= k < |sketches| => Flow(FlowId(slug, start, k), sketches[k].body))
  }

  function Cases(slug: Slugs, start: nat, sketches: seq<Sketch>): seq<TestCase> {
    seq(|sketches|, k requires 0 <= k < |sketches| =>
      TestCase(CaseId(slug, start, k), FlowId(slug, start, k), sketches[k].testType))
  }

  function FlowIndex(flows: seq<Flow>, n: nat): map<string, nat>
    requires n <= |flows|
  {
    if n == 0 then map[] else FlowIndex(flows, n - 1)[flows[n - 1].id := n - 1]
  }

  function OrderCases(flows: seq<Flow>, cases: seq<TestCase>): seq<TestCase> {
    SortBy((a, b) => CaseLe(FlowIndex(flows, |flows|), a, b), cases)
  }

  function CountOf(m: map<TestType, nat>, t: TestType): nat { if t in m then m[t] else 0 }

  function Coverage(cases: seq<TestCase>, n: nat): map<TestType, nat>
    requires n <= |cases|
  {
    if n == 0 then map[]
    else var m, t := Coverage(cases, n - 1), cases[n - 1].testType; m[t := CountOf(m, t) + 1]
  }

  function Assembled(id: string, flows: seq<Flow>, cases: seq<TestCase>, g: Graph, risk: RiskMap, run: Run): TestPlan {
    var flows' := SortBy(FlowLe, flows);
    var cases' := OrderCases(flows', cases);
    TestPlan(id, run.id, g.id, risk.id, run.targetUrl, flows', cases', Coverage(cases', |cases'|), |cases'|)
  }

  function Numbered(slug: Slugs, start: nat, sketches: seq<Sketch>, g: Graph, risk: RiskMap, run: Run): TestPlan {
    Assembled(Id("PLN", slug(start + 2 * |sketches|)), Flows(slug, start, sketches), Cases(slug, start, sketches), g, risk, run)
  }

  /** The whole plan, when the generator has already drawn `start` ids. */
  function PlanOf(slug: Slugs, start: nat, g: Graph, risk: RiskMap, run: Run): TestPlan {
    Numbered(slug, start, Sketches(g, risk), g, risk, run)
  }

  // ----- the planner -----

  method IndexByPath(routes: seq<Route>) returns (m: map<string, Route>)
    ensures m == RoutesByPath(routes, |routes|)
  {
    m := map[];
    for i := 0 to |routes|
      invariant m == RoutesByPath(routes, i)
    {
      if routes[i].path !in m { m := m[routes[i].path := routes[i]]; }
    }
  }

  method AttachForms(routes: seq<Route>, forms: seq<Form>) returns (out: map<string, seq<Form>>)
    requires routes != []
    ensures out == BucketInto(Home(routes), forms, |forms|)
  {
    var routesByPath := IndexByPath(routes);
    out := map[];
    for i := 0 to |forms|
      invariant out == BucketInto(Home(routes), forms, i)
    {
      var route := RouteAt(routesByPath, routes[0], forms[i]);
      out := out[route.id := FormsAt(out, route.id) + [forms[i]]];
    }
  }

  method BucketFormsByRoute(routes: seq<Route>, forms: seq<Form>) returns (out: map<string, seq<Form>>)
    ensures out == FormsByRoute(routes, forms)
  {
    out := map[];
    if forms == [] || routes == [] { return; }
    out := AttachForms(SortBy(RouteByPath, routes), SortBy(FormLe, forms));
  }

  method CoverageEstimate(cases: seq<TestCase>) returns (counts: map<TestType, nat>)
    ensures counts == Coverage(cases, |cases|)
  {
    counts := map[];
    for i := 0 to |cases|
      invariant counts == Coverage(cases, i)
    {
      counts := counts[cases[i].testType := CountOf(counts, cases[i].testType) + 1];
    }
  }

  method ScoreByRoute(entries: seq<RouteRisk>) returns (scores: map<string, real>)
    ensures scores == Scores(entries, |entries|)
  {
    scores := map[];
    for i := 0 to |entries|
      invariant scores == Scores(entries, i)
    {
      scores := scores[entries[i].routeId := entries[i].score];
    }
  }

  method Assemble(id: string, flows: seq<Flow>, cases: seq<TestCase>, g: Graph, risk: RiskMap, run: Run) returns (plan: TestPlan)
    ensures plan == Assembled(id, flows, cases, g, risk, run)
  {
    var orderedFlows := SortBy(FlowLe, flows);
    var orderedCases := OrderCases(orderedFlows, cases);
    var byModule := CoverageEstimate(orderedCases);
    plan := TestPlan(id, run.id, g.id, risk.id, run.targetUrl, orderedFlows, orderedCases, byModule, |orderedCases|);
  }

  lemma FlowsAppend(slug: Slugs, start: nat, sketches: seq<Sketch>, sk: Sketch)
    ensures Flows(slug, start, sketches + [sk]) == Flows(slug, start, sketches) + [Flow(FlowId(slug, start, |sketches|), sk.body)]
    ensures Cases(slug, start, sketches + [sk]) == Cases(slug, start, sketches)
      + [TestCase(CaseId(slug, start, |sketches|), FlowId(slug, start, |sketches|), sk.testType)]
  {}

  lemma NextRoute(facts: Facts, routes: seq<Route>, i: nat, formsByRoute: map<string, seq<Form>>)
    requires i < |routes|
    ensures AllRouteSketches(facts, routes[i..], formsByRoute)
      == RouteSketches(facts, routes[i], FormsAt(formsByRoute, routes[i].id)) + AllRouteSketches(facts, routes[i + 1..], formsByRoute)
  {
    assert routes[i..][1..] == routes[i + 1..] && routes[i..][0] == routes[i];
  }

  class DeterministicPlanner {
    const slug: Slugs
    var drawn: nat

    constructor (slug: Slugs)
      ensures this.slug == slug && drawn == 0
    {
      this.slug := slug;
      drawn := 0;
    }

    /** The ids so far are the ones the finished sketches take. */
    ghost predicate Emitted(done: seq<Sketch>, start: nat, flows: seq<Flow>, cases: seq<TestCase>)
      reads this
    {
      flows == Flows(slug, start, done) && cases == Cases(slug, start, done) && drawn == start + 2 * |done|
    }

    method NewId(kind: string) returns (id: string)
      modifies this
      ensures id == Id(kind, slug(old(drawn))) && drawn == old(drawn) + 1
    {
      id := kind + "-" + slug(drawn);
      drawn := drawn + 1;
    }

    /** One flow and the one test case that hangs off it. */
    method Emit(ghost done: seq<Sketch>, ghost start: nat, flows: seq<Flow>, cases: seq<TestCase>, sk: Sketch)
      returns (flows': seq<Flow>, cases': seq<TestCase>)
      requires Emitted(done, start, flows, cases)
      modifies this
      ensures Emitted(done + [sk], start, flows', cases')
    {
      FlowsAppend(slug, start, done, sk);
      var id := NewId("FLW");
      flows' := flows + [Flow(id, sk.body)];
      var caseId := NewId("TC");
      cases' := cases + [TestCase(caseId, id, sk.testType)];
    }

    method PlanForms(ghost done: seq<Sketch>, ghost start: nat, flows: seq<Flow>, cases: seq<TestCase>,
                     facts: Facts, route: Route, forms: seq<Form>)
      returns (flows': seq<Flow>, cases': seq<TestCase>)
      requires Emitted(done, start, flows, cases)
      modifies this
      ensures Emitted(done + FormSketches(facts, route, forms), start, flows', cases')
    {
      ghost var now, whole := done, done + FormSketches(facts, route, forms);
      flows', cases' := flows, cases;
      var i := 0;
      assert forms[0..] == forms;
      while i < |forms|
        invariant 0 <= i <= |forms|
        invariant Emitted(now, start, flows', cases')
        invariant now + FormSketches(facts, route, forms[i..]) == whole
      {
        var sk := FormSketch(facts, route, forms[i]);
        assert forms[i..][1..] == forms[i + 1..];
        flows', cases' := Emit(now, start, flows', cases', sk);
        now := now + [sk];
        i := i + 1;
      }
      assert now == whole;
    }

    /** The flows of one route: smoke, then the auth boundary, then one per form. */
    method PlanRoute(ghost done: seq<Sketch>, ghost start: nat, flows: seq<Flow>, cases: seq<TestCase>,
                     facts: Facts, route: Route, forms: seq<Form>)
      returns (flows': seq<Flow>, cases': seq<TestCase>)
      requires Emitted(done, start, flows, cases)
      modifies this
      ensures Emitted(done + RouteSketches(facts, route, forms), start, flows', cases')
    {
      ghost var now := done;
      flows', cases' := Emit(now, start, flows, cases, SmokeSketch(facts, route, forms));
      now := now + [SmokeSketch(facts, route, forms)];
      if route.id in facts.authRequired {
        flows', cases' := Emit(now, start, flows', cases', BoundarySketch(facts, route));
        now := now + [BoundarySketch(facts, route)];
      }
      flows', cases' := PlanForms(now, start, flows', cases', facts, route, forms);
      assert now + FormSketches(facts, route, forms) == done + RouteSketches(facts, route, forms);
    }

    method PlanRoutes(ghost start: nat, facts: Facts, routes: seq<Route>, formsByRoute: map<string, seq<Form>>)
      returns (flows: seq<Flow>, cases: seq<TestCase>)
      requires drawn == start
      modifies this
      ensures Emitted(AllRouteSketches(facts, routes, formsByRoute), start, flows, cases)
    {
      ghost var now: seq<Sketch> := [];
      ghost var whole := AllRouteSketches(facts, routes, formsByRoute);
      flows, cases := [], [];
      var i := 0;
      assert routes[0..] == routes && [] + whole == whole;
      while i < |routes|
        invariant 0 <= i <= |routes|
        invariant Emitted(now, start, flows, cases)
        invariant now + AllRouteSketches(facts, routes[i..], formsByRoute) == whole
      {
        var forms := FormsAt(formsByRoute, routes[i].id);
        NextRoute(facts, routes, i, formsByRoute);
        ghost var made := RouteSketches(facts, routes[i], forms);
        flows, cases := PlanRoute(now, start, flows, cases, facts, routes[i], forms);
        Regroup(now, made, AllRouteSketches(facts, routes[i + 1..], formsByRoute));
        now := now + made;
        i := i + 1;
      }
      assert now == whole;
    }

    method PlanEndpoints(ghost done: seq<Sketch>, ghost start: nat, flows: seq<Flow>, cases: seq<TestCase>,
                         endpoints: seq<Endpoint>)
      returns (flows': seq<Flow>, cases': seq<TestCase>)
      requires Emitted(done, start, flows, cases)
      modifies this
      ensures Emitted(done + ApiSketches(endpoints), start, flows', cases')
    {
      ghost var now, whole := done, done + ApiSketches(endpoints);
      flows', cases' := flows, cases;
      var i := 0;
      assert endpoints[0..] == endpoints;
      while i < |endpoints|
        invariant 0 <= i <= |endpoints|
        invariant Emitted(now, start, flows', cases')
        invariant now + ApiSketches(endpoints[i..]) == whole
      {
        assert endpoints[i..][1..] == endpoints[i + 1..];
        flows', cases' := Emit(now, start, flows', cases', ApiSketch(endpoints[i]));
        now := now + [ApiSketch(endpoints[i])];
        i := i + 1;
      }
      assert now == whole;
    }

    method MakeFlows(g: Graph, risk: RiskMap) returns (flows: seq<Flow>, cases: seq<TestCase>)
      modifies this
      ensures Emitted(Sketches(g, risk), old(drawn), flows, cases)
    {
      ghost var start := drawn;
      var scores := ScoreByRoute(risk.entries);
      var formsByRoute := BucketFormsByRoute(g.routes, g.forms);
      var facts := Facts(scores, AuthRequired(g.routes), g.boundaries);
      var routes, endpoints := SortBy(RouteLe, g.routes), SortBy(EndpointLe, g.endpoints);
      flows, cases := PlanRoutes(start, facts, routes, formsByRoute);
      flows, cases := PlanEndpoints(AllRouteSketches(facts, routes, formsByRoute), start, flows, cases, endpoints);
    }

    method Finish(ghost sketches: seq<Sketch>, ghost start: nat, flows: seq<Flow>, cases: seq<TestCase>,
                  g: Graph, risk: RiskMap, run: Run)
      returns (plan: TestPlan)
      requires Emitted(sketches, start, flows, cases)
      modifies this
      ensures plan == Numbered(slug, start, sketches, g, risk, run) && drawn == start + 2 * |sketches| + 1
    {
      var id := NewId("PLN");
      plan := Assemble(id, flows, cases, g, risk, run);
    }

    method Plan(g: Graph, risk: RiskMap, run: Run) returns (plan: TestPlan)
      modifies this
      ensures plan == PlanOf(slug, old(drawn), g, risk, run)
      ensures drawn == old(drawn) + 2 * |Sketches(g, risk)| + 1
    {
      ghost var start := drawn;
      var flows, cases := MakeFlows(g, risk);
      plan := Finish(Sketches(g, risk), start, flows, cases, g, risk, run);
    }
  }
}
