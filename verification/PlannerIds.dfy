/** The planner's determinism contract (engine/planner/core.py:22-26, 330-341): the same graph gives the same plan
    modulo ids.  Flows that tie in priority, risk and name come in the order of their random ids. */
module PlannerIds {
  import opened Sorting
  import opened Wrappers
  import Naming
  import opened Planner
  import opened PlannerOrder
  import opened PlannerCounts
  import opened PlannerCases
  import opened PlannerListing

  // ----- a plan without its ids -----

  /** What is left of a plan when every drawn id is taken out; case k belongs to flow k. */
  datatype Outline = Outline(
    runId: string, graphId: string, riskMapId: string, targetUrl: string,
    bodies: seq<FlowBody>, types: seq<TestType>, byModule: map<TestType, nat>, total: nat)

  function Bodies(flows: seq<Flow>): seq<FlowBody> { seq(|flows|, k requires 0 <= k < |flows| => flows[k].body) }

  function Types(cases: seq<TestCase>): seq<TestType> { seq(|cases|, k requires 0 <= k < |cases| => cases[k].testType) }

  function OutlineOf(plan: TestPlan): Outline {
    Outline(plan.runId, plan.graphId, plan.riskMapId, plan.targetUrl, Bodies(plan.flows), Types(plan.testCases), plan.byModule, plan.total)
  }

  function SketchBodies(sketches: seq<Sketch>): seq<FlowBody> {
    seq(|sketches|, k requires 0 <= k < |sketches| => sketches[k].body)
  }

  /** The part of the sort key that comes before the id. */
  function BodyKey(b: FlowBody): seq<string> { [PriorityName(b.priority), Mildness(b.risk), b.name] }

  predicate BodyLe(a: FlowBody, b: FlowBody) { PathLe(BodyKey(a), BodyKey(b)) }

  /** No two sketches tie in priority, risk and name without being the same. */
  ghost predicate TiesAgree(sketches: seq<Sketch>) {
    forall i, j | 0 <= i < |sketches| && 0 <= j < |sketches| ::
      BodyKey(sketches[i].body) == BodyKey(sketches[j].body) ==> sketches[i].body == sketches[j].body
  }

  // ----- sorting by a key with an id at its end -----

  lemma OneComponent(x: string, y: string)
    ensures PathLe([x], [y]) <==> StrLe(x, y)
  {
    StrLeTotal(x, x);
    assert [x][1..] == [] && [y][1..] == [];
  }

  /** Appended ids matter only between equal keys. */
  lemma {:induction false} KeyThenId(a: seq<string>, b: seq<string>, x: string, y: string)
    requires |a| == |b|
    ensures PathLe(a + [x], b + [y]) <==> if a == b then StrLe(x, y) else PathLe(a, b)
  {
    if a == [] {
      assert a + [x] == [x] && b + [y] == [y];
      OneComponent(x, y);
    } else {
      assert (a + [x])[1..] == a[1..] + [x] && (b + [y])[1..] == b[1..] + [y];
      assert a == [a[0]] + a[1..] && b == [b[0]] + b[1..];
      KeyThenId(a[1..], b[1..], x, y);
    }
  }

  lemma FlowOrder(f: Flow, h: Flow)
    ensures FlowLe(f, h) <==> if BodyKey(f.body) == BodyKey(h.body) then StrLe(f.id, h.id) else BodyLe(f.body, h.body)
  {
    assert FlowKey(f) == BodyKey(f.body) + [f.id] && FlowKey(h) == BodyKey(h.body) + [h.id];
    KeyThenId(BodyKey(f.body), BodyKey(h.body), f.id, h.id);
  }

  lemma BodiesCons(f: Flow, s: seq<Flow>)
    ensures Bodies([f] + s) == [f.body] + Bodies(s) && multiset(Bodies([f] + s)) == multiset(Bodies(s)) + multiset{f.body}
  {
    assert Bodies([f] + s) == [f.body] + Bodies(s);
  }

  lemma {:induction false} BodiesInsert(f: Flow, s: seq<Flow>)
    ensures multiset(Bodies(Insert(FlowLe, f, s))) == multiset(Bodies(s)) + multiset{f.body}
  {
    if s == [] || FlowLe(f, s[0]) {
      BodiesCons(f, s);
      assert s == [] ==> [f] + s == [f];
    } else {
      BodiesInsert(f, s[1..]);
      BodiesCons(s[0], Insert(FlowLe, f, s[1..]));
      BodiesCons(s[0], s[1..]);
      assert s == [s[0]] + s[1..];
    }
  }

  lemma {:induction false} BodiesSort(s: seq<Flow>)
    ensures multiset(Bodies(SortBy(FlowLe, s))) == multiset(Bodies(s))
  {
    if s != [] {
      BodiesSort(s[1..]);
      BodiesInsert(s[0], SortBy(FlowLe, s[1..]));
      BodiesCons(s[0], s[1..]);
      assert s == [s[0]] + s[1..];
    }
  }

  lemma SortedBodies(flows: seq<Flow>)
    ensures Sorted(BodyLe, Bodies(SortBy(FlowLe, flows)))
  {
    var sorted := SortBy(FlowLe, flows);
    KeyedOrdering(FlowLe, FlowKey);
    SortBySorted(FlowLe, flows);
    forall i, j | 0 <= i < j < |sorted| ensures BodyLe(sorted[i].body, sorted[j].body) {
      assert FlowLe(sorted[i], sorted[j]);
      FlowOrder(sorted[i], sorted[j]);
      PathLeTotal(BodyKey(sorted[i].body), BodyKey(sorted[j].body));
    }
  }

  /** Without ties the bodies come in one order, whatever the ids. */
  lemma UntiedBodies(slug: Slugs, start: nat, sketches: seq<Sketch>)
    requires TiesAgree(sketches)
    ensures Bodies(SortBy(FlowLe, Flows(slug, start, sketches))) == SortBy(BodyLe, SketchBodies(sketches))
  {
    var flows, bodies := Flows(slug, start, sketches), SketchBodies(sketches);
    var mine, sorted := Bodies(SortBy(FlowLe, flows)), SortBy(BodyLe, bodies);
    assert Bodies(flows) == bodies;
    BodiesSort(flows);
    SortedBodies(flows);
    KeyedOrdering(BodyLe, BodyKey);
    SortBySorted(BodyLe, bodies);
    forall x, y | x in mine && y in mine && BodyLe(x, y) && BodyLe(y, x) ensures x == y {
      PathLeAntisym(BodyKey(x), BodyKey(y));
      SameElements(mine, bodies, x);
      SameElements(mine, bodies, y);
    }
    SortedUnique(BodyLe, mine, sorted);
  }

  // ----- plans that agree -----

  lemma {:induction false} CoverageOfTypes(a: seq<TestCase>, b: seq<TestCase>, n: nat)
    requires n <= |a| && n <= |b| && forall k | 0 <= k < n :: a[k].testType == b[k].testType
    ensures Coverage(a, n) == Coverage(b, n)
  {
    if n > 0 { CoverageOfTypes(a, b, n - 1); }
  }

  lemma PairedTypes(flows: seq<Flow>, cases: seq<TestCase>, flows': seq<Flow>, cases': seq<TestCase>)
    requires Paired(flows, cases) && Paired(flows', cases') && Bodies(flows) == Bodies(flows')
    ensures |cases| == |cases'| && Types(cases) == Types(cases') && Coverage(cases, |cases|) == Coverage(cases', |cases'|)
  {
    assert |Bodies(flows)| == |flows| && |Bodies(flows')| == |flows'|;
    forall k | 0 <= k < |cases| ensures cases[k].testType == cases'[k].testType {
      assert Bodies(flows)[k] == Bodies(flows')[k];
    }
    CoverageOfTypes(cases, cases', |cases|);
  }

  lemma NumberedOutline(slug: Slugs, start: nat, sketches: seq<Sketch>, g: Graph, risk: RiskMap, run: Run)
    ensures var plan := Numbered(slug, start, sketches, g, risk, run);
      plan.flows == SortBy(FlowLe, Flows(slug, start, sketches)) &&
      OutlineOf(plan) == Outline(run.id, g.id, risk.id, run.targetUrl, Bodies(plan.flows), Types(plan.testCases),
                                 Coverage(plan.testCases, |plan.testCases|), |plan.testCases|)
  {}

  lemma SameBodiesSameOutline(slug: Slugs, start: nat, slug': Slugs, start': nat, sketches: seq<Sketch>, g: Graph, risk: RiskMap, run: Run)
    requires Typed(sketches) && NoRepeats(slug, start, 2 * |sketches|) && NoRepeats(slug', start', 2 * |sketches|)
    requires Bodies(SortBy(FlowLe, Flows(slug, start, sketches))) == Bodies(SortBy(FlowLe, Flows(slug', start', sketches)))
    ensures OutlineOf(Numbered(slug, start, sketches, g, risk, run)) == OutlineOf(Numbered(slug', start', sketches, g, risk, run))
  {
    var p, q := Numbered(slug, start, sketches, g, risk, run), Numbered(slug', start', sketches, g, risk, run);
    NumberedPaired(slug, start, sketches, g, risk, run);
    NumberedPaired(slug', start', sketches, g, risk, run);
    NumberedOutline(slug, start, sketches, g, risk, run);
    NumberedOutline(slug', start', sketches, g, risk, run);
    PairedTypes(p.flows, p.testCases, q.flows, q.testCases);
  }

  // ----- a tie that shows -----

  /** A generator whose least draw is the n-th. */
  function Favouring(n: nat): Slugs { (k: nat) => if k == n then "0" else "1" + Naming.Decimal(k) }

  lemma FavouringNoRepeats(n: nat, start: nat, size: nat)
    ensures NoRepeats(Favouring(n), start, size)
  {
    forall i: nat, j: nat | Favouring(n)(i) == Favouring(n)(j) ensures i == j {
      assert i != n ==> Favouring(n)(i)[0] == '1';
      assert j != n ==> Favouring(n)(j)[0] == '1';
      if i != n && j != n { Naming.SameStem("1", i, j); }
    }
  }

  lemma FavouredIsLeast(n: nat, k: nat)
    requires k != n
    ensures !StrLe(Id("FLW", Favouring(n)(k)), Id("FLW", Favouring(n)(n)))
  {
    var s, t := Favouring(n)(k), Favouring(n)(n);
    assert s[0] == '1' && t[0] == '0';
    assert Id("FLW", s) == "FLW-" + s && Id("FLW", t) == "FLW-" + t;
    CommonFront("FLW-", s, t);
  }

  /** The first body with a key. */
  ghost predicate FirstWithKey(bodies: seq<FlowBody>, p: nat, b: FlowBody) {
    p < |bodies| && bodies[p] == b && forall q | 0 <= q < p :: BodyKey(bodies[q]) != BodyKey(b)
  }

  lemma OneFirst(bodies: seq<FlowBody>, p: nat, b: FlowBody, q: nat, c: FlowBody)
    requires FirstWithKey(bodies, p, b) && FirstWithKey(bodies, q, c) && BodyKey(b) == BodyKey(c)
    ensures b == c
  {}

  lemma LeastOfItsKey(flows: seq<Flow>, f: Flow) returns (p: nat)
    requires f in flows && forall h | h in flows && h != f && BodyKey(h.body) == BodyKey(f.body) :: !StrLe(h.id, f.id)
    requires DistinctIds(flows)
    ensures FirstWithKey(Bodies(SortBy(FlowLe, flows)), p, f.body)
  {
    var sorted := SortBy(FlowLe, flows);
    SortedIds(flows);
    SameElements(sorted, flows, f);
    p :| 0 <= p < |sorted| && sorted[p] == f;
    KeyedOrdering(FlowLe, FlowKey);
    SortBySorted(FlowLe, flows);
    forall q | 0 <= q < p ensures BodyKey(sorted[q].body) != BodyKey(f.body) {
      assert FlowLe(sorted[q], f) && sorted[q].id != f.id;
      SameElements(sorted, flows, sorted[q]);
      FlowOrder(sorted[q], f);
    }
  }

  /** The generator decides which of the tied flows comes first. */
  lemma FavouredFirst(sketches: seq<Sketch>, i: nat) returns (p: nat)
    requires i < |sketches|
    ensures FirstWithKey(Bodies(SortBy(FlowLe, Flows(Favouring(2 * i), 0, sketches))), p, sketches[i].body)
  {
    var slug := Favouring(2 * i);
    var flows := Flows(slug, 0, sketches);
    FavouringNoRepeats(2 * i, 0, 2 * |sketches|);
    FlowIdsDiffer(slug, 0, sketches);
    assert flows[i] in flows;
    forall h | h in flows && h != flows[i] ensures !StrLe(h.id, flows[i].id) {
      var k :| 0 <= k < |flows| && flows[k] == h;
      FavouredIsLeast(2 * i, 2 * k);
    }
    p := LeastOfItsKey(flows, flows[i]);
  }

  lemma TieShows(sketches: seq<Sketch>, i: nat, j: nat)
    requires i < |sketches| && j < |sketches| && BodyKey(sketches[i].body) == BodyKey(sketches[j].body) && sketches[i].body != sketches[j].body
    ensures Bodies(SortBy(FlowLe, Flows(Favouring(2 * i), 0, sketches))) != Bodies(SortBy(FlowLe, Flows(Favouring(2 * j), 0, sketches)))
  {
    var p := FavouredFirst(sketches, i);
    var q := FavouredFirst(sketches, j);
    var a, b := Bodies(SortBy(FlowLe, Flows(Favouring(2 * i), 0, sketches))), Bodies(SortBy(FlowLe, Flows(Favouring(2 * j), 0, sketches)));
    if a == b { OneFirst(a, p, sketches[i].body, q, sketches[j].body); }
  }

  // ----- the contract -----

  /** Whatever ids two runs of the planner draw without repeating themselves, the plans for the two listings agree but for ids. */
  ghost predicate SameModuloIds(g: Graph, h: Graph, risk: RiskMap, run: Run) {
    forall slug: Slugs, start: nat, slug': Slugs, start': nat ::
      NoRepeats(slug, start, 2 * |Sketches(g, risk)|) && NoRepeats(slug', start', 2 * |Sketches(h, risk)|) ==>
        OutlineOf(PlanOf(slug, start, g, risk, run)) == OutlineOf(PlanOf(slug', start', h, risk, run))
  }

  lemma PlanIsNumbered(slug: Slugs, start: nat, g: Graph, risk: RiskMap, run: Run)
    ensures PlanOf(slug, start, g, risk, run) == Numbered(slug, start, Sketches(g, risk), g, risk, run)
    ensures OutlineOf(PlanOf(slug, start, g, risk, run)).bodies == Bodies(SortBy(FlowLe, Flows(slug, start, Sketches(g, risk))))
  {}

  lemma UntiedSketches(slug: Slugs, start: nat, slug': Slugs, start': nat, sketches: seq<Sketch>, g: Graph, h: Graph, risk: RiskMap, run: Run)
    requires Typed(sketches) && TiesAgree(sketches) && g.id == h.id
    requires NoRepeats(slug, start, 2 * |sketches|) && NoRepeats(slug', start', 2 * |sketches|)
    ensures OutlineOf(Numbered(slug, start, sketches, g, risk, run)) == OutlineOf(Numbered(slug', start', sketches, h, risk, run))
  {
    UntiedBodies(slug, start, sketches);
    UntiedBodies(slug', start', sketches);
    SameBodiesSameOutline(slug, start, slug', start', sketches, g, risk, run);
    SamePlan(slug', start', sketches, g, h, risk, run);
  }

  lemma UntiedIsSame(g: Graph, h: Graph, risk: RiskMap, run: Run)
    requires g.id == h.id && Sketches(g, risk) == Sketches(h, risk) && TiesAgree(Sketches(g, risk))
    ensures SameModuloIds(g, h, risk, run)
  {
    var sketches := Sketches(g, risk);
    SketchesTyped(g, risk);
    forall slug: Slugs, start: nat, slug': Slugs, start': nat
      | NoRepeats(slug, start, 2 * |sketches|) && NoRepeats(slug', start', 2 * |sketches|)
      ensures OutlineOf(PlanOf(slug, start, g, risk, run)) == OutlineOf(PlanOf(slug', start', h, risk, run))
    {
      PlanIsNumbered(slug, start, g, risk, run);
      PlanIsNumbered(slug', start', h, risk, run);
      UntiedSketches(slug, start, slug', start', sketches, g, h, risk, run);
    }
  }

  lemma SameOutline(slug: Slugs, start: nat, slug': Slugs, start': nat, g: Graph, h: Graph, risk: RiskMap, run: Run)
    requires SameModuloIds(g, h, risk, run)
    requires NoRepeats(slug, start, 2 * |Sketches(g, risk)|) && NoRepeats(slug', start', 2 * |Sketches(h, risk)|)
    ensures OutlineOf(PlanOf(slug, start, g, risk, run)) == OutlineOf(PlanOf(slug', start', h, risk, run))
  {}

  /** Two generators, one for each of two tied flows, against a third. */
  lemma TieIsAgreed(g: Graph, h: Graph, risk: RiskMap, run: Run, i: nat, j: nat)
    requires SameModuloIds(g, h, risk, run) && i < |Sketches(g, risk)| && j < |Sketches(g, risk)|
    ensures Bodies(SortBy(FlowLe, Flows(Favouring(2 * i), 0, Sketches(g, risk)))) == Bodies(SortBy(FlowLe, Flows(Favouring(2 * j), 0, Sketches(g, risk))))
  {
    FavouringNoRepeats(0, 0, 2 * |Sketches(h, risk)|);
    FavouringNoRepeats(2 * i, 0, 2 * |Sketches(g, risk)|);
    FavouringNoRepeats(2 * j, 0, 2 * |Sketches(g, risk)|);
    SameOutline(Favouring(2 * i), 0, Favouring(0), 0, g, h, risk, run);
    SameOutline(Favouring(2 * j), 0, Favouring(0), 0, g, h, risk, run);
    PlanIsNumbered(Favouring(2 * i), 0, g, risk, run);
    PlanIsNumbered(Favouring(2 * j), 0, g, risk, run);
  }

  lemma SameIsUntied(g: Graph, h: Graph, risk: RiskMap, run: Run)
    requires SameModuloIds(g, h, risk, run)
    ensures TiesAgree(Sketches(g, risk))
  {
    var sketches := Sketches(g, risk);
    forall i, j | 0 <= i < |sketches| && 0 <= j < |sketches| && BodyKey(sketches[i].body) == BodyKey(sketches[j].body)
      ensures sketches[i].body == sketches[j].body
    {
      TieIsAgreed(g, h, risk, run, i, j);
      if sketches[i].body != sketches[j].body { TieShows(sketches, i, j); }
    }
  }

  /** The contract for one graph: its plan is the same modulo ids exactly when no two different flows tie in
      priority, risk and name. */
  lemma PlanIsFixedIff(g: Graph, risk: RiskMap, run: Run)
    ensures SameModuloIds(g, g, risk, run) <==> TiesAgree(Sketches(g, risk))
  {
    if TiesAgree(Sketches(g, risk)) { UntiedIsSame(g, g, risk, run); }
    if SameModuloIds(g, g, risk, run) { SameIsUntied(g, g, risk, run); }
  }

  lemma SameOutlineSameRoute(g: Graph, h: Graph, risk: RiskMap, run: Run, f: Form)
    requires SameModuloIds(g, h, risk, run) && h.routes != [] && DistinctFormIds(h.forms) && f in h.forms
    requires g.routes != [] && DistinctRouteIds(g.routes) && DistinctFormIds(g.forms) && f in g.forms
    ensures RouteIdOfForm(g.routes, f) == RouteIdOfForm(h.routes, f)
  {
    var slug := Favouring(0);
    FavouringNoRepeats(0, 0, 2 * |Sketches(g, risk)|);
    FavouringNoRepeats(0, 0, 2 * |Sketches(h, risk)|);
    SameOutline(slug, 0, slug, 0, g, h, risk, run);
    var flow := PlanTellsRoute(slug, 0, g, risk, run, f);
    var p, q := PlanOf(slug, 0, g, risk, run).flows, PlanOf(slug, 0, h, risk, run).flows;
    var k :| 0 <= k < |p| && p[k] == flow;
    assert Bodies(p)[k] == Bodies(q)[k];
    FormFlowsFitTheirForm(slug, 0, h, risk, run, f);
    assert q[k] in q && Fits(h.routes, f, q[k].body);
    assert flow.body.targets[0] == Some(RouteIdOfForm(g.routes, f));
  }

  /** The contract for two listings of one graph: the plans agree modulo ids exactly when each form goes to one
      route in both and no two different flows tie. */
  lemma ListingsAgreeIff(g: Graph, h: Graph, risk: RiskMap, run: Run)
    requires Relisted(g, h) && g.routes != [] && DistinctRouteIds(g.routes) && DistinctFormIds(g.forms)
    ensures SameModuloIds(g, h, risk, run) <==> FormsStay(g, h) && TiesAgree(Sketches(g, risk))
  {
    MultisetSize(g.routes, h.routes);
    if FormsStay(g, h) && TiesAgree(Sketches(g, risk)) {
      SketchesForgetOrder(g, h, risk);
      UntiedIsSame(g, h, risk, run);
    }
    if SameModuloIds(g, h, risk, run) {
      SameIsUntied(g, h, risk, run);
      RelistedForms(g, h);
      forall f | f in g.forms ensures RouteIdOfForm(g.routes, f) == RouteIdOfForm(h.routes, f) {
        SameOutlineSameRoute(g, h, risk, run, f);
      }
    }
  }
}
