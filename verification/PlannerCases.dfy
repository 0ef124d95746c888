/** Order and contents of the finished plan: cases follow their flows, coverage adds up,
    urgent flows come first, audit candidates are marked (engine/planner/core.py:10-16, 185-189, 257-261, 330-343, 425-445). */
module PlannerCases {
  import opened Counting
  import opened Sorting
  import opened Wrappers
  import opened Planner
  import opened PlannerOrder
  import opened PlannerCounts

  // ----- each case sits at its flow's position -----

  /** The generator does not repeat itself in the `n` draws after the first `start`. */
  ghost predicate NoRepeats(slug: Slugs, start: nat, n: nat) {
    forall i: nat, j: nat | start <= i < start + n && start <= j < start + n :: slug(i) == slug(j) ==> i == j
  }

  ghost predicate DistinctIds(flows: seq<Flow>) {
    forall i, j | 0 <= i < |flows| && 0 <= j < |flows| :: flows[i].id == flows[j].id ==> i == j
  }

  function TypeFor(b: FlowBody): TestType {
    if b.extractor == ApiContract then Api
    else if b.extractor == FormSubmit && LlmAuditCandidate in b.tags then LlmAudit
    else Functional
  }

  /** Case k hangs off flow k. */
  ghost predicate Paired(flows: seq<Flow>, cases: seq<TestCase>) {
    |flows| == |cases| && forall k | 0 <= k < |flows| :: cases[k].flowId == flows[k].id && cases[k].testType == TypeFor(flows[k].body)
  }

  lemma FlowIdsDiffer(slug: Slugs, start: nat, sketches: seq<Sketch>)
    requires NoRepeats(slug, start, 2 * |sketches|)
    ensures DistinctIds(Flows(slug, start, sketches))
  {
    var flows := Flows(slug, start, sketches);
    forall i, j | 0 <= i < |flows| && 0 <= j < |flows| && flows[i].id == flows[j].id ensures i == j {
      assert FlowId(slug, start, i)[4..] == slug(start + 2 * i) && FlowId(slug, start, j)[4..] == slug(start + 2 * j);
    }
  }

  ghost predicate Typed(sketches: seq<Sketch>) {
    forall k | 0 <= k < |sketches| :: sketches[k].testType == TypeFor(sketches[k].body)
  }

  lemma {:induction false} FormSketchesTyped(facts: Facts, route: Route, forms: seq<Form>)
    ensures Typed(FormSketches(facts, route, forms))
  {
    if forms != [] {
      assert LlmAuditCandidate !in CategoryTags(route);
      FormSketchesTyped(facts, route, forms[1..]);
    }
  }

  lemma {:induction false} RoutesTyped(facts: Facts, routes: seq<Route>, m: map<string, seq<Form>>)
    ensures Typed(AllRouteSketches(facts, routes, m))
  {
    if routes != [] {
      FormSketchesTyped(facts, routes[0], FormsAt(m, routes[0].id));
      RoutesTyped(facts, routes[1..], m);
    }
  }

  lemma {:induction false} ApisTyped(endpoints: seq<Endpoint>)
    ensures Typed(ApiSketches(endpoints))
  {
    if endpoints != [] { ApisTyped(endpoints[1..]); }
  }

  lemma SketchesTyped(g: Graph, risk: RiskMap)
    ensures Typed(Sketches(g, risk))
  {
    RoutesTyped(FactsOf(g, risk), SortBy(RouteLe, g.routes), FormsByRoute(g.routes, g.forms));
    ApisTyped(SortBy(EndpointLe, g.endpoints));
  }

  lemma {:induction false} IndexIsPosition(flows: seq<Flow>, n: nat, i: nat)
    requires DistinctIds(flows) && i < n <= |flows|
    ensures flows[i].id in FlowIndex(flows, n) && FlowIndex(flows, n)[flows[i].id] == i
  {
    if i < n - 1 { IndexIsPosition(flows, n - 1, i); }
  }

  ghost function PositionOf(flows: seq<Flow>, f: Flow): (k: nat)
    requires f in flows
    ensures k < |flows| && flows[k] == f
  {
    var k :| 0 <= k < |flows| && flows[k] == f; k
  }

  /** The cases laid out in the order of `ordered`. */
  ghost function LaidOut(flows: seq<Flow>, cases: seq<TestCase>, ordered: seq<Flow>): (r: seq<TestCase>)
    requires Paired(flows, cases) && forall f | f in ordered :: f in flows
    ensures Paired(ordered, r)
    ensures forall i | 0 <= i < |r| :: r[i] == cases[PositionOf(flows, ordered[i])]
  {
    seq(|ordered|, i requires 0 <= i < |ordered| => assert ordered[i] in ordered; cases[PositionOf(flows, ordered[i])])
  }

  lemma LaidOutPermutes(flows: seq<Flow>, cases: seq<TestCase>, ordered: seq<Flow>)
    requires Paired(flows, cases) && DistinctIds(flows) && multiset(flows) == multiset(ordered)
    requires DistinctIds(ordered) && forall f | f in ordered :: f in flows
    ensures multiset(LaidOut(flows, cases, ordered)) == multiset(cases)
  {
    var r := LaidOut(flows, cases, ordered);
    forall i, j | 0 <= i < j < |r| ensures r[i] != r[j] { assert r[i].flowId != r[j].flowId; }
    forall i, j | 0 <= i < j < |cases| ensures cases[i] != cases[j] { assert cases[i].flowId != cases[j].flowId; }
    forall c ensures c in r <==> c in cases {
      if c in cases {
        var k :| 0 <= k < |cases| && cases[k] == c;
        SameElements(flows, ordered, flows[k]);
        var i := PositionOf(ordered, flows[k]);
        assert r[i] == cases[PositionOf(flows, ordered[i])];
        assert flows[PositionOf(flows, ordered[i])].id == flows[k].id;
      }
    }
    SameSetSameMultiset(r, cases);
  }

  lemma CaseOrdering(index: map<string, nat>)
    ensures Ordering((a, b) => CaseLe(index, a, b))
  {
    forall a, b ensures CaseLe(index, a, b) || CaseLe(index, b, a) {
      PathLeTotal([TypeName(a.testType), a.id], [TypeName(b.testType), b.id]);
    }
    forall a, b, c | CaseLe(index, a, b) && CaseLe(index, b, c) ensures CaseLe(index, a, c) {
      if Place(index, a) == Place(index, c) {
        PathLeTrans([TypeName(a.testType), a.id], [TypeName(b.testType), b.id], [TypeName(c.testType), c.id]);
      }
    }
  }

  lemma OrderIsLayout(flows: seq<Flow>, cases: seq<TestCase>, ordered: seq<Flow>)
    requires Paired(flows, cases) && DistinctIds(flows) && multiset(flows) == multiset(ordered)
    requires DistinctIds(ordered) && forall f | f in ordered :: f in flows
    ensures OrderCases(ordered, cases) == LaidOut(flows, cases, ordered)
  {
    var index, r := FlowIndex(ordered, |ordered|), LaidOut(flows, cases, ordered);
    var le := (a, b) => CaseLe(index, a, b);
    LaidOutPermutes(flows, cases, ordered);
    forall i | 0 <= i < |r| ensures Place(index, r[i]) == i { IndexIsPosition(ordered, |ordered|, i); }
    CaseOrdering(index);
    assert Sorted(le, r);
    SortBySorted(le, cases);
    forall x, y | x in r && y in r && le(x, y) && le(y, x) ensures x == y {
      assert Place(index, x) == Place(index, y);
    }
    SortedUnique(le, r, SortBy(le, cases));
  }

  lemma SortedIds(flows: seq<Flow>)
    requires DistinctIds(flows)
    ensures DistinctIds(SortBy(FlowLe, flows))
  {
    var ordered := SortBy(FlowLe, flows);
    NoDupSort(FlowLe, flows);
    forall i, j | 0 <= i < j < |ordered| ensures ordered[i].id != ordered[j].id {
      SameElements(ordered, flows, ordered[i]);
      SameElements(ordered, flows, ordered[j]);
    }
  }

  /** Each flow has exactly one test case: the one at the same place in the plan, of the type its flow
      calls for, provided the generator does not repeat itself within the plan. */
  lemma CasesFollowFlows(slug: Slugs, start: nat, g: Graph, risk: RiskMap, run: Run)
    ensures NoRepeats(slug, start, 2 * |Sketches(g, risk)|) ==>
      var plan := PlanOf(slug, start, g, risk, run);
      Paired(plan.flows, plan.testCases) && DistinctIds(plan.flows)
  {
    SketchesTyped(g, risk);
    if NoRepeats(slug, start, 2 * |Sketches(g, risk)|) { NumberedPaired(slug, start, Sketches(g, risk), g, risk, run); }
  }

  lemma NumberedPaired(slug: Slugs, start: nat, sketches: seq<Sketch>, g: Graph, risk: RiskMap, run: Run)
    requires NoRepeats(slug, start, 2 * |sketches|) && Typed(sketches)
    ensures Paired(Numbered(slug, start, sketches, g, risk, run).flows, Numbered(slug, start, sketches, g, risk, run).testCases)
    ensures DistinctIds(Numbered(slug, start, sketches, g, risk, run).flows)
  {
    var flows, cases := Flows(slug, start, sketches), Cases(slug, start, sketches);
    var ordered := SortBy(FlowLe, flows);
    FlowIdsDiffer(slug, start, sketches);
    SortedIds(flows);
    forall f | f in ordered ensures f in flows { SameElements(ordered, flows, f); }
    OrderIsLayout(flows, cases, ordered);
  }

  // ----- coverage -----

  function HasType(t: TestType): TestCase -> bool { (c: TestCase) => c.testType == t }

  lemma {:induction false} CoverageCounts(cases: seq<TestCase>, n: nat, t: TestType)
    requires n <= |cases|
    ensures CountOf(Coverage(cases, n), t) == Count(HasType(t), cases[..n])
  {
    if n > 0 {
      CoverageCounts(cases, n - 1, t);
      assert cases[..n] == cases[..n - 1] + [cases[n - 1]];
      CountConcat(HasType(t), cases[..n - 1], [cases[n - 1]]);
      CountOne(HasType(t), cases[n - 1]);
    }
  }

  lemma {:induction false} CoverageAddsUp(cases: seq<TestCase>, n: nat)
    requires n <= |cases|
    ensures CountOf(Coverage(cases, n), Functional) + CountOf(Coverage(cases, n), LlmAudit) + CountOf(Coverage(cases, n), Api) == n
  {
    if n > 0 {
      CoverageAddsUp(cases, n - 1);
      var m, t := Coverage(cases, n - 1), cases[n - 1].testType;
      assert forall u :: CountOf(Coverage(cases, n), u) == CountOf(m, u) + if u == t then 1 else 0;
      match t
      case Functional =>
      case LlmAudit =>
      case Api =>
    }
  }

  /** The estimate counts every case under its module, and the counts sum to the total. */
  lemma PlanCoverage(slug: Slugs, start: nat, g: Graph, risk: RiskMap, run: Run, t: TestType)
    ensures var plan := PlanOf(slug, start, g, risk, run);
      && CountOf(plan.byModule, t) == Count(HasType(t), plan.testCases)
      && CountOf(plan.byModule, Functional) + CountOf(plan.byModule, LlmAudit) + CountOf(plan.byModule, Api) == plan.total
      && plan.total == |plan.flows| == |plan.testCases|
  {
    NumberedCoverage(slug, start, Sketches(g, risk), g, risk, run, t);
  }

  lemma NumberedCoverage(slug: Slugs, start: nat, sketches: seq<Sketch>, g: Graph, risk: RiskMap, run: Run, t: TestType)
    ensures var plan := Numbered(slug, start, sketches, g, risk, run);
      && CountOf(plan.byModule, t) == Count(HasType(t), plan.testCases)
      && CountOf(plan.byModule, Functional) + CountOf(plan.byModule, LlmAudit) + CountOf(plan.byModule, Api) == plan.total
      && plan.total == |plan.flows| == |plan.testCases|
  {
    var cases := Numbered(slug, start, sketches, g, risk, run).testCases;
    CoverageCounts(cases, |cases|, t);
    CoverageAddsUp(cases, |cases|);
    assert cases[..|cases|] == cases;
  }

  // ----- urgent flows first -----

  function PriorityRank(p: Priority): nat {
    match p
    case P0 => 0
    case P1 => 1
    case P2 => 2
    case P3 => 3
  }

  function RiskWeight(risk: Risk): nat {
    match risk
    case Critical => 4
    case High => 3
    case Medium => 2
    case Low => 1
  }

  ghost predicate NoLessUrgent(a: FlowBody, b: FlowBody) {
    PriorityRank(a.priority) < PriorityRank(b.priority)
    || (a.priority == b.priority && RiskWeight(a.risk) > RiskWeight(b.risk))
    || (a.priority == b.priority && a.risk == b.risk && StrLe(a.name, b.name))
  }

  lemma PriorityNames(p: Priority, q: Priority)
    ensures StrLe(PriorityName(p), PriorityName(q)) <==> PriorityRank(p) <= PriorityRank(q)
    ensures PriorityName(p) == PriorityName(q) <==> p == q
  {
    var a, b := PriorityName(p), PriorityName(q);
    assert a[0] == b[0] && a[1..] == [a[1]] && b[1..] == [b[1]] && StrLe([], []);
    assert StrLe(a, b) <==> StrLe(a[1..], b[1..]);
  }

  lemma MildnessNames(p: Risk, q: Risk)
    ensures StrLe(Mildness(p), Mildness(q)) <==> RiskWeight(p) >= RiskWeight(q)
    ensures Mildness(p) == Mildness(q) <==> p == q
  {
    var a, b := Mildness(p), Mildness(q);
    assert a[1..] == "" && b[1..] == "";
  }

  lemma FlowOrderMeans(a: Flow, b: Flow)
    requires FlowLe(a, b)
    ensures NoLessUrgent(a.body, b.body)
  {
    var s, t := FlowKey(a), FlowKey(b);
    PriorityNames(a.body.priority, b.body.priority);
    MildnessNames(a.body.risk, b.body.risk);
    assert PathLe(s, t);
    if s[0] == t[0] {
      assert PathLe(s[1..], t[1..]);
      if s[1] == t[1] {
        assert PathLe(s[1..][1..], t[1..][1..]);
        if s[2] == t[2] { StrLeTotal(a.body.name, a.body.name); }
      }
    }
  }

  ghost predicate UrgencyOrdered(flows: seq<Flow>) {
    forall i, j | 0 <= i < j < |flows| :: NoLessUrgent(flows[i].body, flows[j].body)
  }

  lemma SortedByUrgency(flows: seq<Flow>)
    ensures UrgencyOrdered(SortBy(FlowLe, flows))
  {
    var sorted := SortBy(FlowLe, flows);
    KeyedOrdering(FlowLe, FlowKey);
    SortBySorted(FlowLe, flows);
    forall i, j | 0 <= i < j < |sorted| ensures NoLessUrgent(sorted[i].body, sorted[j].body) {
      FlowOrderMeans(sorted[i], sorted[j]);
    }
  }

  /** Flows are listed by priority, then by falling risk, then by name. */
  lemma UrgentFirst(slug: Slugs, start: nat, g: Graph, risk: RiskMap, run: Run)
    ensures UrgencyOrdered(PlanOf(slug, start, g, risk, run).flows)
  {
    SortedByUrgency(Flows(slug, start, Sketches(g, risk)));
  }

  /** A route's flows are P0 exactly when its path looks sensitive or its score is at least 0.80. */
  lemma TopPriorityIff(facts: Facts, route: Route)
    ensures BasePriority(facts, route) == P0 <==>
      ClassifyRoute(route.path) != Plain || (route.id in facts.scores && facts.scores[route.id] >= 0.80)
  {}

  // ----- audit candidates -----

  lemma BucketsHoldForms(routes: seq<Route>, forms: seq<Form>, routeId: string, f: Form)
    requires routes != []
    ensures f in FormsAt(FormsByRoute(routes, forms), routeId) <==>
      f in forms && RouteOfForm(SortBy(RouteByPath, routes), f).id == routeId
  {
    BucketOf(Home(SortBy(RouteByPath, routes)), SortBy(FormLe, forms), routeId);
    InFilter(GoesTo(Home(SortBy(RouteByPath, routes)), routeId), SortBy(FormLe, forms), f);
    SameElements(SortBy(FormLe, forms), forms, f);
  }

  /** Among the sketches, the smoke flows of a route id say whether a form there lacks a handler. */
  lemma {:induction false} SmokeMarked(facts: Facts, routes: seq<Route>, m: map<string, seq<Form>>, routeId: string, k: nat)
    requires k < |AllRouteSketches(facts, routes, m)|
    requires About(AllRouteSketches(facts, routes, m)[k].body, SmokeOf(routeId))
    ensures LlmAuditCandidate in AllRouteSketches(facts, routes, m)[k].body.tags <==> SomeUnhandled(FormsAt(m, routeId))
  {
    var r, forms := routes[0], FormsAt(m, routes[0].id);
    var first, rest := RouteSketches(facts, r, forms), AllRouteSketches(facts, routes[1..], m);
    assert AllRouteSketches(facts, routes, m) == first + rest;
    if k >= |first| {
      assert (first + rest)[k] == rest[k - |first|];
      SmokeMarked(facts, routes[1..], m, routeId, k - |first|);
    } else {
      assert (first + rest)[k] == first[k];
      OnlySmoke(facts, r, forms, routeId, k);
    }
  }

  lemma OnlySmoke(facts: Facts, r: Route, forms: seq<Form>, routeId: string, k: nat)
    requires k < |RouteSketches(facts, r, forms)| && About(RouteSketches(facts, r, forms)[k].body, SmokeOf(routeId))
    ensures r.id == routeId
    ensures LlmAuditCandidate in RouteSketches(facts, r, forms)[k].body.tags <==> SomeUnhandled(forms)
  {
    SmokeAbout(facts, r, forms, SmokeOf(routeId));
    assert LlmAuditCandidate !in CategoryTags(r);
    FormsAreForms(facts, r, forms);
  }

  lemma {:induction false} FormsAreForms(facts: Facts, r: Route, forms: seq<Form>)
    ensures forall k | 0 <= k < |FormSketches(facts, r, forms)| :: FormSketches(facts, r, forms)[k].body.extractor == FormSubmit
  {
    if forms != [] { FormsAreForms(facts, r, forms[1..]); }
  }

  lemma {:induction false} ApisAreApis(endpoints: seq<Endpoint>)
    ensures forall k | 0 <= k < |ApiSketches(endpoints)| :: ApiSketches(endpoints)[k].body.extractor == ApiContract
  {
    if endpoints != [] { ApisAreApis(endpoints[1..]); }
  }

  lemma PlanFlows(slug: Slugs, start: nat, g: Graph, risk: RiskMap, run: Run)
    ensures PlanOf(slug, start, g, risk, run).flows == SortBy(FlowLe, Flows(slug, start, Sketches(g, risk)))
  {}

  lemma SketchMarked(facts: Facts, routes: seq<Route>, m: map<string, seq<Form>>, apis: seq<Sketch>, routeId: string, k: nat)
    requires forall i | 0 <= i < |apis| :: apis[i].body.extractor == ApiContract
    requires var all := AllRouteSketches(facts, routes, m) + apis; k < |all| && About(all[k].body, SmokeOf(routeId))
    ensures LlmAuditCandidate in (AllRouteSketches(facts, routes, m) + apis)[k].body.tags <==> SomeUnhandled(FormsAt(m, routeId))
  {
    SmokeMarked(facts, routes, m, routeId, k);
  }

  lemma UnhandledIff(routes: seq<Route>, forms: seq<Form>, routeId: string)
    requires routes != []
    ensures SomeUnhandled(FormsAt(FormsByRoute(routes, forms), routeId)) <==>
      exists f | f in forms :: RouteOfForm(SortBy(RouteByPath, routes), f).id == routeId && !f.submitHandlerPresent
  {
    forall f: Form { BucketsHoldForms(routes, forms, routeId, f); }
  }

  lemma PlanFlowOrigin(slug: Slugs, start: nat, sketches: seq<Sketch>, flow: Flow) returns (k: nat)
    requires flow in SortBy(FlowLe, Flows(slug, start, sketches))
    ensures k < |sketches| && sketches[k].body == flow.body
  {
    var flows := Flows(slug, start, sketches);
    SameElements(SortBy(FlowLe, flows), flows, flow);
    k :| 0 <= k < |flows| && flows[k] == flow;
  }

  /** A smoke flow is an audit candidate exactly when some form bucketed under its route has no submit handler. */
  lemma AuditCandidatesAreMarked(slug: Slugs, start: nat, g: Graph, risk: RiskMap, run: Run, routeId: string, flow: Flow)
    requires g.routes != []
    requires flow in PlanOf(slug, start, g, risk, run).flows && About(flow.body, SmokeOf(routeId))
    ensures LlmAuditCandidate in flow.body.tags <==>
      exists f | f in g.forms :: RouteOfForm(SortBy(RouteByPath, g.routes), f).id == routeId && !f.submitHandlerPresent
  {
    PlanFlows(slug, start, g, risk, run);
    var k := PlanFlowOrigin(slug, start, Sketches(g, risk), flow);
    var apis := ApiSketches(SortBy(EndpointLe, g.endpoints));
    ApisAreApis(SortBy(EndpointLe, g.endpoints));
    SketchMarked(FactsOf(g, risk), SortBy(RouteLe, g.routes), FormsByRoute(g.routes, g.forms), apis, routeId, k);
    UnhandledIff(g.routes, g.forms, routeId);
  }

  lemma {:induction false} FormOrigin(facts: Facts, route: Route, forms: seq<Form>, k: nat) returns (form: Form)
    requires k < |FormSketches(facts, route, forms)|
    ensures form in forms && FormSketches(facts, route, forms)[k] == FormSketch(facts, route, form)
  {
    if k == 0 { form := forms[0]; } else { form := FormOrigin(facts, route, forms[1..], k - 1); }
  }

  lemma RouteFormOrigin(facts: Facts, route: Route, forms: seq<Form>, k: nat) returns (form: Form)
    requires k < |RouteSketches(facts, route, forms)| && RouteSketches(facts, route, forms)[k].body.extractor == FormSubmit
    ensures form in forms && RouteSketches(facts, route, forms)[k] == FormSketch(facts, route, form)
  {
    var lead := 1 + if route.id in facts.authRequired then 1 else 0;
    assert k >= lead;
    form := FormOrigin(facts, route, forms, k - lead);
  }

  /** Every form flow was made for a form in the bucket of some route. */
  lemma {:induction false} FormFlowOrigin(facts: Facts, routes: seq<Route>, m: map<string, seq<Form>>, k: nat) returns (route: Route, form: Form)
    requires k < |AllRouteSketches(facts, routes, m)| && AllRouteSketches(facts, routes, m)[k].body.extractor == FormSubmit
    ensures route in routes && form in FormsAt(m, route.id) && AllRouteSketches(facts, routes, m)[k] == FormSketch(facts, route, form)
  {
    var forms := FormsAt(m, routes[0].id);
    var first, rest := RouteSketches(facts, routes[0], forms), AllRouteSketches(facts, routes[1..], m);
    assert AllRouteSketches(facts, routes, m) == first + rest;
    if k >= |first| {
      assert (first + rest)[k] == rest[k - |first|];
      route, form := FormFlowOrigin(facts, routes[1..], m, k - |first|);
    } else {
      assert (first + rest)[k] == first[k];
      route := routes[0];
      form := RouteFormOrigin(facts, route, forms, k);
    }
  }

  /** The flow of a form bucketed under a route. */
  predicate FitsAt(routeId: string, f: Form, b: FlowBody) {
    b.targets == [Some(routeId), Some(routeId), Some(routeId)] && (LlmAuditCandidate in b.tags <==> !f.submitHandlerPresent)
  }

  lemma FormSketchFits(facts: Facts, route: Route, form: Form)
    ensures FitsAt(route.id, form, FormSketch(facts, route, form).body)
    ensures forall id :: About(FormSketch(facts, route, form).body, FormOf(id)) <==> id == form.id
  {
    assert LlmAuditCandidate !in CategoryTags(route);
    forall id ensures About(FormSketch(facts, route, form).body, FormOf(id)) <==> id == form.id {
      FormAbout(facts, route, form, FormOf(id));
    }
  }

  lemma FormSketchOrigin(facts: Facts, routes: seq<Route>, m: map<string, seq<Form>>, apis: seq<Sketch>, k: nat)
    returns (route: Route, form: Form)
    requires forall i | 0 <= i < |apis| :: apis[i].body.extractor == ApiContract
    requires var all := AllRouteSketches(facts, routes, m) + apis; k < |all| && all[k].body.extractor == FormSubmit
    ensures form in FormsAt(m, route.id) && FitsAt(route.id, form, (AllRouteSketches(facts, routes, m) + apis)[k].body)
    ensures forall id :: About((AllRouteSketches(facts, routes, m) + apis)[k].body, FormOf(id)) <==> id == form.id
  {
    route, form := FormFlowOrigin(facts, routes, m, k);
    FormSketchFits(facts, route, form);
  }

  lemma FormFlowMadeFor(slug: Slugs, start: nat, g: Graph, risk: RiskMap, flow: Flow) returns (route: Route, form: Form)
    requires flow in SortBy(FlowLe, Flows(slug, start, Sketches(g, risk))) && flow.body.extractor == FormSubmit
    ensures form in FormsAt(FormsByRoute(g.routes, g.forms), route.id) && FitsAt(route.id, form, flow.body)
    ensures forall id :: About(flow.body, FormOf(id)) <==> id == form.id
  {
    var k := PlanFlowOrigin(slug, start, Sketches(g, risk), flow);
    var apis := ApiSketches(SortBy(EndpointLe, g.endpoints));
    ApisAreApis(SortBy(EndpointLe, g.endpoints));
    route, form := FormSketchOrigin(FactsOf(g, risk), SortBy(RouteLe, g.routes), FormsByRoute(g.routes, g.forms), apis, k);
  }

  ghost predicate Fits(routes: seq<Route>, f: Form, b: FlowBody)
    requires routes != []
  {
    FitsAt(RouteOfForm(SortBy(RouteByPath, routes), f).id, f, b)
  }

  lemma SameIdSameForm(forms: seq<Form>, f: Form, h: Form)
    requires DistinctFormIds(forms) && f in forms && h in forms && f.id == h.id
    ensures f == h
  {}

  /** A body that fits a form bucketed under its route fits the one form it is about. */
  lemma BucketedFits(routes: seq<Route>, forms: seq<Form>, routeId: string, form: Form, f: Form, b: FlowBody)
    requires routes != [] && DistinctFormIds(forms) && f in forms && f.id == form.id
    requires form in FormsAt(FormsByRoute(routes, forms), routeId) && FitsAt(routeId, form, b)
    ensures Fits(routes, f, b)
  {
    BucketsHoldForms(routes, forms, routeId, form);
    SameIdSameForm(forms, f, form);
  }

  lemma FormFlowFits(slug: Slugs, start: nat, g: Graph, risk: RiskMap, f: Form, flow: Flow)
    requires g.routes != [] && DistinctFormIds(g.forms) && f in g.forms
    requires flow in SortBy(FlowLe, Flows(slug, start, Sketches(g, risk))) && About(flow.body, FormOf(f.id))
    ensures Fits(g.routes, f, flow.body)
  {
    var route, form := FormFlowMadeFor(slug, start, g, risk, flow);
    BucketedFits(g.routes, g.forms, route.id, form, f, flow.body);
  }

  /** A form's flow runs on the route the form is bucketed under, and is an audit candidate exactly when the
      form has no submit handler. */
  lemma FormFlowsFitTheirForm(slug: Slugs, start: nat, g: Graph, risk: RiskMap, run: Run, f: Form)
    requires g.routes != [] && DistinctFormIds(g.forms) && f in g.forms
    ensures forall flow | flow in PlanOf(slug, start, g, risk, run).flows && About(flow.body, FormOf(f.id)) :: Fits(g.routes, f, flow.body)
  {
    PlanFlows(slug, start, g, risk, run);
    var flows := SortBy(FlowLe, Flows(slug, start, Sketches(g, risk)));
    forall flow | flow in flows && About(flow.body, FormOf(f.id)) ensures Fits(g.routes, f, flow.body) {
      FormFlowFits(slug, start, g, risk, f, flow);
    }
  }

  /** The flows of one route share its risk; its auth-boundary flow is as urgent as its smoke flow, and its
      form flows are P0 exactly when that is, else P1. */
  lemma RouteFlowsShareUrgency(facts: Facts, route: Route, forms: seq<Form>, form: Form)
    ensures var smoke := SmokeSketch(facts, route, forms).body;
      var boundary, submit := BoundarySketch(facts, route).body, FormSketch(facts, route, form).body;
      && boundary.priority == smoke.priority && submit.priority == (if smoke.priority == P0 then P0 else P1)
      && boundary.risk == smoke.risk == submit.risk
  {}

  /** A higher score never makes a route less urgent. */
  lemma RiskIsMonotone(facts: Facts, route: Route, higher: real)
    requires route.id in facts.scores && facts.scores[route.id] <= higher
    ensures var raised := facts.(scores := facts.scores[route.id := higher]);
      && PriorityRank(BasePriority(raised, route)) <= PriorityRank(BasePriority(facts, route))
      && RiskWeight(RiskOf(raised, route)) >= RiskWeight(RiskOf(facts, route))
  {}

  /** A path carries a hint exactly when the hint occurs somewhere in it. */
  lemma {:induction false} ContainsIff(text: string, needle: string)
    ensures Contains(text, needle) <==> exists i | 0 <= i <= |text| :: needle <= text[i..]
  {
    assert text[0..] == text;
    if text != "" {
      ContainsIff(text[1..], needle);
      forall i | 0 <= i <= |text[1..]| ensures text[1..][i..] == text[i + 1..] {}
      if needle <= text {
        assert needle <= text[0..];
      } else if Contains(text[1..], needle) {
        var i :| 0 <= i <= |text[1..]| && needle <= text[1..][i..];
        assert needle <= text[i + 1..];
      }
      if i :| 0 < i <= |text| && needle <= text[i..] {
        assert needle <= text[1..][i - 1..];
      }
    }
  }
}
