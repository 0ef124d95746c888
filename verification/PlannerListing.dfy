/** Exactly when the order in which a graph lists its routes shows in the plan
    (engine/planner/core.py:22-26, 249-295, 483-494). */
module PlannerListing {
  import opened Counting
  import opened Sorting
  import opened Wrappers
  import opened Planner
  import opened PlannerOrder
  import opened PlannerCounts
  import opened PlannerCases

  lemma {:induction false} CountedIsThere<T>(p: T -> bool, s: seq<T>) returns (x: T)
    requires Count(p, s) > 0
    ensures x in s && p(x)
  {
    if p(s[0]) { x := s[0]; } else { x := CountedIsThere(p, s[1..]); }
  }

  /** A form's flow tells which route the form went to. */
  lemma PlanTellsRoute(slug: Slugs, start: nat, g: Graph, risk: RiskMap, run: Run, f: Form) returns (flow: Flow)
    requires g.routes != [] && DistinctRouteIds(g.routes) && DistinctFormIds(g.forms) && f in g.forms
    ensures flow in PlanOf(slug, start, g, risk, run).flows && About(flow.body, FormOf(f.id)) && Fits(g.routes, f, flow.body)
  {
    FormsConservedIff(slug, start, g, risk, run, f);
    flow := CountedIsThere(FlowAbout(FormOf(f.id)), PlanOf(slug, start, g, risk, run).flows);
    FormFlowsFitTheirForm(slug, start, g, risk, run, f);
  }

  lemma SamePlanSameRoute(slug: Slugs, start: nat, g: Graph, h: Graph, risk: RiskMap, run: Run, f: Form)
    requires PlanOf(slug, start, g, risk, run).flows == PlanOf(slug, start, h, risk, run).flows
    requires g.routes != [] && DistinctRouteIds(g.routes) && DistinctFormIds(g.forms) && f in g.forms
    requires h.routes != [] && DistinctFormIds(h.forms) && f in h.forms
    ensures RouteIdOfForm(g.routes, f) == RouteIdOfForm(h.routes, f)
  {
    var flow := PlanTellsRoute(slug, start, g, risk, run, f);
    FormFlowsFitTheirForm(slug, start, h, risk, run, f);
    assert Fits(h.routes, f, flow.body);
    assert flow.body.targets[0] == Some(RouteIdOfForm(g.routes, f));
  }

  lemma RelistedForms(g: Graph, h: Graph)
    requires Relisted(g, h) && DistinctFormIds(g.forms)
    ensures DistinctFormIds(h.forms) && forall f :: f in g.forms <==> f in h.forms
  {
    forall f ensures f in g.forms <==> f in h.forms { SameElements(g.forms, h.forms, f); }
    forall i, j | 0 <= i < j < |g.forms| ensures g.forms[i] != g.forms[j] { assert g.forms[i].id != g.forms[j].id; }
    NoDupMultiset(g.forms);
    NoDupMultiset(h.forms);
    forall i, j | 0 <= i < j < |h.forms| ensures h.forms[i].id != h.forms[j].id {
      assert h.forms[i] in g.forms && h.forms[j] in g.forms && h.forms[i] != h.forms[j];
    }
  }

  /** Two listings of one graph give the same plan exactly when each form goes to one route in both. */
  lemma PlanStaysIff(slug: Slugs, start: nat, g: Graph, h: Graph, risk: RiskMap, run: Run)
    requires Relisted(g, h) && g.routes != [] && DistinctRouteIds(g.routes) && DistinctFormIds(g.forms)
    ensures PlanOf(slug, start, g, risk, run) == PlanOf(slug, start, h, risk, run) <==> FormsStay(g, h)
  {
    MultisetSize(g.routes, h.routes);
    if FormsStay(g, h) {
      FormsStayPlanStays(slug, start, g, h, risk, run);
    } else {
      var f :| f in g.forms && RouteIdOfForm(g.routes, f) != RouteIdOfForm(h.routes, f);
      RelistedForms(g, h);
      if PlanOf(slug, start, g, risk, run).flows == PlanOf(slug, start, h, risk, run).flows {
        SamePlanSameRoute(slug, start, g, h, risk, run, f);
      }
    }
  }

  /** In terms of the listings alone: the plans agree exactly when, at each path where some form looks, the
      same route is listed first. */
  lemma PlanStaysIffFirstListedStay(slug: Slugs, start: nat, g: Graph, h: Graph, risk: RiskMap, run: Run)
    requires Relisted(g, h) && g.routes != [] && DistinctRouteIds(g.routes) && DistinctFormIds(g.forms)
    ensures PlanOf(slug, start, g, risk, run) == PlanOf(slug, start, h, risk, run) <==>
      forall f | f in g.forms :: FirstWithPath(g.routes, FormPath(g.routes, f)) == FirstWithPath(h.routes, FormPath(g.routes, f))
  {
    MultisetSize(g.routes, h.routes);
    PlanStaysIff(slug, start, g, h, risk, run);
    forall f | f in g.forms
      ensures RouteIdOfForm(g.routes, f) == RouteIdOfForm(h.routes, f) <==>
        FirstWithPath(g.routes, FormPath(g.routes, f)) == FirstWithPath(h.routes, FormPath(g.routes, f))
    {
      RouteOfFormIsFirst(g.routes, f);
      RouteOfFormIsFirst(h.routes, f);
      FormPathForgetsOrder(g.routes, h.routes, f);
      RouteOfFormListed(g.routes, f);
      RouteOfFormListed(h.routes, f);
      SameElements(g.routes, h.routes, RouteOfForm(SortBy(RouteByPath, h.routes), f));
    }
  }

  /** Swapping two routes at one path changes the plan whenever a form looks there. */
  lemma SharedPathShows(slug: Slugs, start: nat, a: Route, b: Route, g: Graph, risk: RiskMap, run: Run, f: Form)
    requires g.routes == [a, b] && a.id != b.id && a.path == b.path == TargetPath(f)
    requires f in g.forms && DistinctFormIds(g.forms) && KeysNameEndpoints(g.endpoints)
    ensures PlanOf(slug, start, g, risk, run) != PlanOf(slug, start, g.(routes := [b, a]), risk, run)
  {
    var h := g.(routes := [b, a]);
    assert multiset(h.routes) == multiset{a, b} == multiset(g.routes);
    assert FirstWithPath([a, b], a.path) == Some(a) && FirstWithPath([b, a], a.path) == Some(b);
    PlanStaysIffFirstListedStay(slug, start, g, h, risk, run);
  }
}
