/** The planner's rules, told of the finished plan from the graph and the risk map alone (engine/planner/core.py:6-16,
    56-127, 175-328): what every flow says of the route, form or endpoint it was made for. */
module PlannerRules {
  import opened Sorting
  import opened Text
  import opened Wrappers
  import opened Planner
  import opened PlannerCounts
  import opened PlannerCases
  import opened PlannerTies

  // ----- scores and risks -----

  /** The score a risk map gives a route: that of its last entry for it, if it has any. */
  ghost predicate LastScore(entries: seq<RouteRisk>, routeId: string, score: Option<real>) {
    match score
    case None => forall e | e in entries :: e.routeId != routeId
    case Some(x) =>
      exists k | 0 <= k < |entries| ::
        entries[k] == RouteRisk(routeId, x) && forall j | k < j < |entries| :: entries[j].routeId != routeId
  }

  ghost predicate Graded(score: Option<real>, risk: Risk) {
    && (risk == Critical <==> score.Some? && score.value >= 0.80)
    && (risk == High <==> score.Some? && 0.60 <= score.value < 0.80)
    && (risk == Medium <==> score.Some? && 0.30 <= score.value < 0.60)
    && (risk == Low <==> score.None? || score.value < 0.30)
  }

  ghost predicate RiskTold(entries: seq<RouteRisk>, routeId: string, risk: Risk) {
    exists score :: LastScore(entries, routeId, score) && Graded(score, risk)
  }

  lemma {:induction false} ScoresAreLast(entries: seq<RouteRisk>, n: nat, routeId: string)
    requires n <= |entries|
    ensures var m := Scores(entries, n);
      LastScore(entries[..n], routeId, if routeId in m then Some(m[routeId]) else None)
  {
    if n > 0 {
      ScoresAreLast(entries, n - 1, routeId);
      var front, m := entries[..n - 1], Scores(entries, n - 1);
      assert entries[..n] == front + [entries[n - 1]];
      if entries[n - 1].routeId == routeId {
        assert entries[..n][n - 1] == RouteRisk(routeId, entries[n - 1].score);
      } else if routeId in m {
        var k :| 0 <= k < |front| && front[k] == RouteRisk(routeId, m[routeId]) && forall j | k < j < |front| :: front[j].routeId != routeId;
        assert entries[..n][k] == RouteRisk(routeId, m[routeId]);
      }
    }
  }

  lemma RouteRiskTold(g: Graph, risk: RiskMap, r: Route)
    ensures RiskTold(risk.entries, r.id, RiskOf(FactsOf(g, risk), r))
  {
    var m := Scores(risk.entries, |risk.entries|);
    ScoresAreLast(risk.entries, |risk.entries|, r.id);
    assert risk.entries[..|risk.entries|] == risk.entries;
    var score := if r.id in m then Some(m[r.id]) else None;
    assert LastScore(risk.entries, r.id, score) && Graded(score, RiskOf(FactsOf(g, risk), r));
  }

  // ----- sensitive paths -----

  /** Some hint stands somewhere in the lower-cased path. */
  ghost predicate Hinted(path: string, hints: seq<string>) { exists hint | hint in hints :: Occurs(Lower(path), hint) }

  ghost predicate Occurs(text: string, hint: string) { exists a, b :: text == a + hint + b }

  /** Login before signup before payment before admin. */
  ghost predicate Classified(path: string, c: Category) {
    var login := Hinted(path, ["/login", "/sign-in", "/signin", "/log-in"]);
    var signup := Hinted(path, ["/signup", "/sign-up", "/register", "/create-account"]);
    var payment := Hinted(path, ["/checkout", "/payment", "/pay", "/billing", "/subscribe"]);
    var admin := Hinted(path, ["/admin", "/manage", "/console", "/superuser"]);
    && (c == Login <==> login) && (c == Signup <==> !login && signup) && (c == Payment <==> !login && !signup && payment)
    && (c == Admin <==> !login && !signup && !payment && admin)
  }

  lemma ContainsMeans(text: string, needle: string)
    ensures Contains(text, needle) <==> Occurs(text, needle)
  {
    ContainsIff(text, needle);
    if Contains(text, needle) {
      var i :| 0 <= i <= |text| && needle <= text[i..];
      assert text == text[..i] + needle + text[i + |needle|..];
    }
    if a, b :| text == a + needle + b {
      assert text[|a|..] == needle + b;
    }
  }

  lemma {:induction false} HasAnyMeans(path: string, needles: seq<string>)
    ensures HasAny(path, needles) <==> Hinted(path, needles)
  {
    if needles != [] {
      HasAnyMeans(path, needles[1..]);
      ContainsMeans(Lower(path), needles[0]);
      assert forall n :: n in needles <==> n == needles[0] || n in needles[1..];
    }
  }

  lemma RouteClassified(path: string)
    ensures Classified(path, ClassifyRoute(path))
  {
    HasAnyMeans(path, ["/login", "/sign-in", "/signin", "/log-in"]);
    HasAnyMeans(path, ["/signup", "/sign-up", "/register", "/create-account"]);
    HasAnyMeans(path, ["/checkout", "/payment", "/pay", "/billing", "/subscribe"]);
    HasAnyMeans(path, ["/admin", "/manage", "/console", "/superuser"]);
  }

  // ----- what a flow says -----

  /** Most urgent on a sensitive path or at critical risk, else as the risk has it. */
  ghost predicate Urgent(c: Category, risk: Risk, p: Priority) {
    && (p == P0 <==> c != Plain || risk == Critical)
    && (p == P1 <==> c == Plain && risk == High)
    && (p == P2 <==> c == Plain && risk == Medium)
    && (p == P3 <==> c == Plain && risk == Low)
  }

  /** The role of the first boundary of the route. */
  ghost predicate RoleTold(boundaries: seq<AuthBoundary>, routeId: string, role: Option<string>) {
    || (role == None && forall b | b in boundaries :: b.routeId != routeId)
    || exists k | 0 <= k < |boundaries| ::
         boundaries[k] == AuthBoundary(routeId, role) && forall j | 0 <= j < k :: boundaries[j].routeId != routeId
  }

  lemma {:induction false} RoleIsFirst(routeId: string, boundaries: seq<AuthBoundary>)
    ensures RoleTold(boundaries, routeId, RoleForRoute(routeId, boundaries))
  {
    if boundaries != [] && boundaries[0].routeId != routeId {
      RoleIsFirst(routeId, boundaries[1..]);
      var role := RoleForRoute(routeId, boundaries[1..]);
      if k :| 0 <= k < |boundaries[1..]| && boundaries[1..][k] == AuthBoundary(routeId, role)
              && forall j | 0 <= j < k :: boundaries[1..][j].routeId != routeId {
        assert boundaries[k + 1] == AuthBoundary(routeId, role);
        assert forall j | 0 <= j < k + 1 :: boundaries[j].routeId != routeId;
      }
    } else if boundaries != [] {
      assert boundaries[0] == AuthBoundary(routeId, boundaries[0].requiredRole);
    }
  }

  ghost predicate SmokeTold(g: Graph, risk: RiskMap, r: Route, b: FlowBody) {
    && b.name == "smoke: " + r.path && b.targets == [Some(r.id), Some(r.id)] && b.requiredAuthRole == None
    && RiskTold(risk.entries, r.id, b.risk)
    && exists c :: Classified(r.path, c) && Urgent(c, b.risk, b.priority)
         && SmokeTag in b.tags && (forall d :: CategoryTag(d) in b.tags <==> d == c != Plain)
  }

  ghost predicate BoundaryTold(g: Graph, risk: RiskMap, r: Route, b: FlowBody) {
    && b.name == "auth-boundary: " + r.path && b.targets == [Some(r.id), Some(r.id)]
    && RoleTold(g.boundaries, r.id, b.requiredAuthRole) && RiskTold(risk.entries, r.id, b.risk)
    && b.tags == {AuthBoundaryTag, SecurityTag}
    && (exists q :: q in g.routes && q.id == r.id && q.authRequired)
    && exists c :: Classified(r.path, c) && Urgent(c, b.risk, b.priority)
  }

  /** At least P1. */
  ghost predicate SubmitTold(g: Graph, risk: RiskMap, r: Route, f: Form, b: FlowBody) {
    && f in g.forms && b.name == "submit form on " + r.path && b.targets == [Some(r.id), Some(r.id), Some(r.id)]
    && RoleTold(g.boundaries, r.id, b.requiredAuthRole) && RiskTold(risk.entries, r.id, b.risk)
    && exists c :: Classified(r.path, c) && (b.priority == if c != Plain || b.risk == Critical then P0 else P1)
         && FormTag in b.tags && FormIdTag(f.id) in b.tags && (forall d :: CategoryTag(d) in b.tags <==> d == c != Plain)
         && (LlmAuditCandidate in b.tags <==> !f.submitHandlerPresent)
  }

  ghost predicate ContractTold(e: Endpoint, b: FlowBody) {
    && b.name == "api contract: " + e.verb + " " + e.path && b.targets == [None] && b.requiredAuthRole == None
    && b.priority == P1 && b.risk == (if e.authStrategy != "none" then High else Medium)
    && b.tags == {ApiTag, EndpointTag(e.id), SourceTag(e.source)}
  }

  ghost predicate FlowTold(g: Graph, risk: RiskMap, b: FlowBody) {
    match b.extractor
    case RouteSmoke => exists r | r in g.routes :: SmokeTold(g, risk, r, b)
    case RouteAuthBoundary => exists r | r in g.routes :: BoundaryTold(g, risk, r, b)
    case FormSubmit => exists r, f | r in g.routes && f in g.forms :: SubmitTold(g, risk, r, f, b)
    case ApiContract => exists e | e in g.endpoints :: ContractTold(e, b)
  }

  // ----- every flow of the plan -----

  lemma SmokeIsTold(g: Graph, risk: RiskMap, r: Route, forms: seq<Form>)
    ensures SmokeTold(g, risk, r, SmokeSketch(FactsOf(g, risk), r, forms).body)
  {
    RouteRiskTold(g, risk, r);
    RouteClassified(r.path);
    assert Urgent(ClassifyRoute(r.path), RiskOf(FactsOf(g, risk), r), BasePriority(FactsOf(g, risk), r));
  }

  lemma BoundaryIsTold(g: Graph, risk: RiskMap, r: Route)
    requires r.id in FactsOf(g, risk).authRequired
    ensures BoundaryTold(g, risk, r, BoundarySketch(FactsOf(g, risk), r).body)
  {
    RouteRiskTold(g, risk, r);
    RouteClassified(r.path);
    RoleIsFirst(r.id, g.boundaries);
    assert Urgent(ClassifyRoute(r.path), RiskOf(FactsOf(g, risk), r), BoundarySketch(FactsOf(g, risk), r).body.priority);
  }

  lemma SubmitIsTold(g: Graph, risk: RiskMap, r: Route, f: Form)
    requires f in g.forms
    ensures SubmitTold(g, risk, r, f, FormSketch(FactsOf(g, risk), r, f).body)
  {
    RouteRiskTold(g, risk, r);
    RouteClassified(r.path);
    RoleIsFirst(r.id, g.boundaries);
    assert Classified(r.path, ClassifyRoute(r.path));
  }

  lemma FormOfGraph(g: Graph, risk: RiskMap, o: Origin)
    requires Of(g, risk, o) && !o.Contract?
    ensures o.route in g.routes && (o.Submit? ==> o.form in g.forms) && (o.Boundary? ==> o.route.id in FactsOf(g, risk).authRequired)
  {
    RouteOrigin(FactsOf(g, risk), g.routes, FormsByRoute(g.routes, g.forms), o);
    if o.Submit? { BucketsHoldForms(g.routes, g.forms, o.route.id, o.form); }
  }

  lemma OriginTold(g: Graph, risk: RiskMap, o: Origin)
    requires Of(g, risk, o)
    ensures FlowTold(g, risk, MadeIn(g, risk, o).body)
  {
    match o
    case Contract(e) => assert ContractTold(e, MadeIn(g, risk, o).body);
    case Smoke(r) =>
      FormOfGraph(g, risk, o);
      SmokeIsTold(g, risk, r, FormsAt(FormsByRoute(g.routes, g.forms), r.id));
    case Boundary(r) =>
      FormOfGraph(g, risk, o);
      BoundaryIsTold(g, risk, r);
    case Submit(r, f) =>
      FormOfGraph(g, risk, o);
      SubmitIsTold(g, risk, r, f);
  }

  /** Every flow of every plan says what the rules have it say. */
  lemma EveryFlowTold(slug: Slugs, start: nat, g: Graph, risk: RiskMap, run: Run, flow: Flow)
    requires flow in PlanOf(slug, start, g, risk, run).flows
    ensures FlowTold(g, risk, flow.body)
  {
    PlanFlows(slug, start, g, risk, run);
    var k := PlanFlowOrigin(slug, start, Sketches(g, risk), flow);
    var o := OriginOf(g, risk, Sketches(g, risk)[k]);
    OriginTold(g, risk, o);
  }

  // ----- orders, ids and the head of the plan -----

  /** Where a form submits: nowhere known, to the path of its action, or to the root for an action without a path. */
  lemma TargetTold(form: Form)
    ensures form.action == None ==> TargetPath(form) == ""
    ensures form.action == Some("") ==> TargetPath(form) == "/"
    ensures forall path :: form.action == Some(path) && path != "" ==> TargetPath(form) == path
  {}

  lemma TwoParts(a: string, b: string, c: string, d: string)
    ensures PathLe([a, b], [c, d]) <==> if a != c then Earlier(a, c) else Earlier(b, d)
  {
    PathLeFirst([a, b], [c, d]);
    PathLeFirst([b], [d]);
    assert [a, b][1..] == [b] && [c, d][1..] == [d] && [b][1..] == [] && [d][1..] == [];
  }

  /** Routes are taken by path and id, forms by id, endpoints by path, verb and id. */
  lemma OrdersTold(q: Route, r: Route, f: Form, h: Form, d: Endpoint, e: Endpoint)
    ensures RouteLe(q, r) <==> if q.path != r.path then Earlier(q.path, r.path) else Earlier(q.id, r.id)
    ensures FormLe(f, h) <==> Earlier(f.id, h.id)
    ensures EndpointLe(d, e) <==>
      if d.path != e.path then Earlier(d.path, e.path) else if d.verb != e.verb then Earlier(d.verb, e.verb) else Earlier(d.id, e.id)
  {
    TwoParts(q.path, q.id, r.path, r.id);
    PathLeFirst([f.id], [h.id]);
    assert [f.id][1..] == [] && [h.id][1..] == [];
    PathLeFirst([d.path, d.verb, d.id], [e.path, e.verb, e.id]);
    assert [d.path, d.verb, d.id][1..] == [d.verb, d.id] && [e.path, e.verb, e.id][1..] == [e.verb, e.id];
    TwoParts(d.verb, d.id, e.verb, e.id);
  }

  /** Test cases of flows in one place: API checks, then functional tests, then audits, then by id. */
  lemma CaseLeTold(index: map<string, nat>, a: TestCase, b: TestCase)
    requires a.flowId in index && b.flowId in index
    ensures CaseLe(index, a, b) <==>
      if index[a.flowId] != index[b.flowId] then index[a.flowId] < index[b.flowId]
      else if a.testType != b.testType then a.testType == Api || b.testType == LlmAudit
      else Earlier(a.id, b.id)
  {
    TwoParts(TypeName(a.testType), a.id, TypeName(b.testType), b.id);
    assert Earlier("api", "functional") && Earlier("functional", "llm_audit") && Earlier("api", "llm_audit") by {
      assert "api"[0] < "functional"[0] && "functional"[0] < "llm_audit"[0];
      assert "api"[..0] == "functional"[..0] == "llm_audit"[..0];
    }
    assert !Earlier("functional", "api") && !Earlier("llm_audit", "functional") && !Earlier("llm_audit", "api") by {
      StrLeIff("functional", "api");
      StrLeIff("llm_audit", "functional");
      StrLeIff("llm_audit", "api");
    }
  }

  lemma AssembledHead(id: string, flows: seq<Flow>, cases: seq<TestCase>, g: Graph, risk: RiskMap, run: Run, slug: Slugs, start: nat)
    requires id == Id("PLN", slug(start + 2 * |flows|))
    ensures HeadTold(Assembled(id, flows, cases, g, risk, run), slug, start, g, risk, run)
  {}

  lemma NumberedHead(slug: Slugs, start: nat, sketches: seq<Sketch>, g: Graph, risk: RiskMap, run: Run)
    ensures HeadTold(Numbered(slug, start, sketches, g, risk, run), slug, start, g, risk, run)
  {
    AssembledHead(Id("PLN", slug(start + 2 * |sketches|)), Flows(slug, start, sketches), Cases(slug, start, sketches), g, risk, run, slug, start);
  }

  /** The plan names its run, graph and risk map; its id is drawn after those of its flows and cases. */
  ghost predicate HeadTold(p: TestPlan, slug: Slugs, start: nat, g: Graph, risk: RiskMap, run: Run) {
    && p.runId == run.id && p.targetUrl == run.targetUrl && p.graphId == g.id && p.riskMapId == risk.id
    && p.id == Id("PLN", slug(start + 2 * |p.flows|))
  }

  lemma PlanHead(slug: Slugs, start: nat, g: Graph, risk: RiskMap, run: Run)
    ensures HeadTold(PlanOf(slug, start, g, risk, run), slug, start, g, risk, run)
  {
    NumberedHead(slug, start, Sketches(g, risk), g, risk, run);
  }

  lemma DrawnIds(slug: Slugs, start: nat, k: nat)
    ensures FlowId(slug, start, k) == "FLW-" + slug(start + 2 * k) && CaseId(slug, start, k) == "TC-" + slug(start + 2 * k + 1)
    ensures Id("PLN", slug(k)) == "PLN-" + slug(k)
  {
    assert "FLW" + "-" == "FLW-" && "TC" + "-" == "TC-" && "PLN" + "-" == "PLN-";
  }

  lemma DrawnFor(slug: Slugs, start: nat, sketches: seq<Sketch>, flow: Flow) returns (k: nat)
    requires flow in SortBy(FlowLe, Flows(slug, start, sketches))
    ensures k < |sketches| && flow.id == FlowId(slug, start, k)
  {
    var flows := Flows(slug, start, sketches);
    SameElements(SortBy(FlowLe, flows), flows, flow);
    k :| 0 <= k < |flows| && flows[k] == flow;
  }

  /** Every flow has one of the ids drawn for flows. */
  lemma IdsTold(slug: Slugs, start: nat, g: Graph, risk: RiskMap, run: Run, flow: Flow) returns (k: nat)
    requires flow in PlanOf(slug, start, g, risk, run).flows
    ensures k < |Sketches(g, risk)| && flow.id == "FLW-" + slug(start + 2 * k)
  {
    PlanFlows(slug, start, g, risk, run);
    k := DrawnFor(slug, start, Sketches(g, risk), flow);
    DrawnIds(slug, start, k);
  }
}
