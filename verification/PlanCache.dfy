/** `build_execution_plan` and its cache (engine/orchestrator/run_lifecycle.py:359-413),
    on top of the byte store.  Registered hooks are taken to leave the plan alone. */
module PlanCache {
  import opened Sorting
  import opened Store
  import opened Text
  import opened Wrappers

  // ----- which modules run -----

  datatype Enabled = Enabled(
    functional: bool, api: bool, accessibility: bool, performance: bool,
    visual: bool, security: bool, chaos: bool, llmAudit: bool)

  function When(on: bool, name: string): seq<string> { if on then [name] else [] }

  function ModulesToRun(requested: Option<seq<string>>, on: Enabled): seq<string> {
    if requested.Some? then requested.value
    else
      When(on.functional, "functional") + When(on.api, "api") + When(on.accessibility, "accessibility")
      + When(on.performance, "performance") + When(on.visual, "visual") + When(on.security, "security")
      + When(on.chaos, "chaos") + When(on.llmAudit, "llm_audit")
  }

  lemma AddedWhen(before: seq<string>, on: bool, name: string, x: string)
    ensures x in before + When(on, name) <==> x in before || (on && x == name)
  {}

  lemma FirstFour(on: Enabled, x: string) returns (a: seq<string>)
    ensures a == When(on.functional, "functional") + When(on.api, "api") + When(on.accessibility, "accessibility") + When(on.performance, "performance")
    ensures x in a <==>
      (on.functional && x == "functional") || (on.api && x == "api") || (on.accessibility && x == "accessibility") || (on.performance && x == "performance")
  {
    a := When(on.functional, "functional");
    AddedWhen(a, on.api, "api", x);
    a := a + When(on.api, "api");
    AddedWhen(a, on.accessibility, "accessibility", x);
    a := a + When(on.accessibility, "accessibility");
    AddedWhen(a, on.performance, "performance", x);
    a := a + When(on.performance, "performance");
  }

  /** Without a request exactly the modules that are switched on run. */
  lemma ModulesTold(on: Enabled, x: string)
    ensures x in ModulesToRun(None, on) <==>
      || (on.functional && x == "functional") || (on.api && x == "api") || (on.accessibility && x == "accessibility")
      || (on.performance && x == "performance") || (on.visual && x == "visual") || (on.security && x == "security")
      || (on.chaos && x == "chaos") || (on.llmAudit && x == "llm_audit")
  {
    var a := FirstFour(on, x);
    AddedWhen(a, on.visual, "visual", x);
    a := a + When(on.visual, "visual");
    AddedWhen(a, on.security, "security", x);
    a := a + When(on.security, "security");
    AddedWhen(a, on.chaos, "chaos", x);
    a := a + When(on.chaos, "chaos");
    AddedWhen(a, on.llmAudit, "llm_audit", x);
  }

  // ----- the cache key -----

  function Join(sep: char, parts: seq<string>): string {
    if parts == [] then ""
    else if |parts| == 1 then parts[0]
    else parts[0] + [sep] + Join(sep, parts[1..])
  }

  function Dashed(s: string): string {
    if s == "" then "" else [if s[0] == ',' then '-' else s[0]] + Dashed(s[1..])
  }

  function Signature(modules: seq<string>): string {
    var sig := Join(',', modules);
    Dashed(if sig == "" then "all" else sig)
  }

  predicate Plain(name: string) { ',' !in name && '-' !in name }

  predicate AllPlain(names: seq<string>) { forall name | name in names :: Plain(name) }

  lemma {:induction false} DashedConcat(a: string, b: string)
    ensures Dashed(a + b) == Dashed(a) + Dashed(b)
  {
    if a == "" { assert a + b == b; } else {
      assert (a + b)[1..] == a[1..] + b;
      DashedConcat(a[1..], b);
    }
  }

  lemma {:induction false} DashedPlain(s: string)
    requires ',' !in s
    ensures Dashed(s) == s
  {
    if s != "" { DashedPlain(s[1..]); }
  }

  lemma {:induction false} DashedJoin(names: seq<string>)
    requires AllPlain(names)
    ensures Dashed(Join(',', names)) == Join('-', names)
  {
    if |names| >= 1 { assert names[0] in names; DashedPlain(names[0]); }
    if |names| > 1 {
      var rest := Join(',', names[1..]);
      DashedConcat(names[0] + ",", rest);
      DashedConcat(names[0], ",");
      DashedJoin(names[1..]);
      assert names[0] + [','] + rest == names[0] + "," + rest;
      assert Dashed(",") == "-";
    }
  }

  lemma JoinHasSeparator(sep: char, parts: seq<string>)
    requires |parts| > 1
    ensures sep in Join(sep, parts) && |Join(sep, parts)| > 0
  {
    assert Join(sep, parts)[|parts[0]|] == sep;
  }

  lemma {:induction false} JoinInjective(a: seq<string>, b: seq<string>)
    requires AllPlain(a) && AllPlain(b) && a != [] && b != [] && Join('-', a) == Join('-', b)
    ensures a == b
    decreases |a|
  {
    assert a[0] in a && b[0] in b;
    if |a| > 1 { JoinHasSeparator('-', a); }
    if |b| > 1 { JoinHasSeparator('-', b); }
    if |a| > 1 && |b| > 1 {
      CutAt('-', a[0], Join('-', a[1..]), b[0], Join('-', b[1..]));
      JoinInjective(a[1..], b[1..]);
      assert a == [a[0]] + a[1..] && b == [b[0]] + b[1..];
    }
  }

  /** The lists that all read as "every module". */
  predicate ReadsAsAll(modules: seq<string>) { modules == [] || modules == [""] || modules == ["all"] }

  lemma SignaturePlain(a: seq<string>)
    requires AllPlain(a)
    ensures Signature(a) == if ReadsAsAll(a) then "all" else Join('-', a)
    ensures !ReadsAsAll(a) ==> a != [] && Join('-', a) != "all"
  {
    DashedJoin(a);
    DashedPlain("all");
    if |a| > 1 {
      JoinHasSeparator('-', a);
      JoinHasSeparator(',', a);
    }
  }

  /** Among separator-free names the signature forgets nothing but the three spellings of "all". */
  lemma SignatureIff(a: seq<string>, b: seq<string>)
    requires AllPlain(a) && AllPlain(b)
    ensures Signature(a) == Signature(b) <==> a == b || (ReadsAsAll(a) && ReadsAsAll(b))
  {
    SignaturePlain(a);
    SignaturePlain(b);
    if Signature(a) == Signature(b) && !ReadsAsAll(a) && !ReadsAsAll(b) { JoinInjective(a, b); }
  }

  // ----- one run -----

  datatype Plan = Plan(modules: seq<string>, dryRun: bool, ci: bool)

  /** `json.dumps` to bytes and back, opaque. */
  datatype Codec = Codec(encode: Plan -> Bytes, decode: Bytes -> Plan)

  ghost predicate Lossless(c: Codec) { forall p :: c.decode(c.encode(p)) == p }

  /** A run as this step sees it; the fingerprint is absent when hashing the tree failed, and
      reading or writing the cache may fail quietly. */
  datatype Run = Run(
    fingerprint: Option<string>, modules: seq<string>, dryRun: bool, ci: bool, readable: bool, writable: bool)

  ghost predicate HashesAreHex(run: Run) { run.fingerprint.Some? ==> |run.fingerprint.value| == 64 }

  function Recompute(run: Run): Plan { Plan(SortBy(StrLe, run.modules), run.dryRun, run.ci) }

  /** The plan a run asks for: its modules sorted, as often as it names them, and its two flags. */
  ghost predicate OwnPlan(run: Run, plan: Plan) {
    && multiset(plan.modules) == multiset(run.modules) && Sorted(StrLe, plan.modules)
    && (plan.dryRun <==> run.dryRun) && (plan.ci <==> run.ci)
  }

  lemma OwnPlanIff(run: Run, plan: Plan)
    ensures plan == Recompute(run) <==> OwnPlan(run, plan)
  {
    StrLeOrdering();
    SortBySorted(StrLe, run.modules);
    if OwnPlan(run, plan) {
      forall x, y | StrLe(x, y) && StrLe(y, x) ensures x == y { StrLeAntisym(x, y); }
      SortedUnique(StrLe, plan.modules, SortBy(StrLe, run.modules));
    }
  }

  function PlanKey(hash: string, run: Run): string {
    "v1." + hash + "." + Signature(SortBy(StrLe, run.modules))
  }

  predicate UsesCache(run: Run) { run.fingerprint.Some? && !run.dryRun }

  lemma UsesCacheIff(run: Run)
    ensures UsesCache(run) <==> !run.dryRun && exists hash :: run.fingerprint == Some(hash)
  {
    if UsesCache(run) { assert run.fingerprint == Some(run.fingerprint.value); }
  }

  type View = map<(string, string), Bytes>

  datatype Built = Aborted | Built(plan: Plan, hit: Option<bool>, after: View)

  /** The step on the abstract store. */
  function Build(codec: Codec, view: View, run: Run): Built {
    if !UsesCache(run) then Built(Recompute(run), None, view)
    else
      var at := ("plan", PlanKey(run.fingerprint.value, run));
      if !Valid(at.0, at.1) then Aborted
      else if run.readable && at in view then Built(codec.decode(view[at]), Some(true), view)
      else Built(Recompute(run), Some(false), if run.writable then view[at := codec.encode(Recompute(run))] else view)
  }

  /** A dry run, or one whose tree could not be hashed, plans for itself and touches no cache; so does a miss, but for
      storing what it planned. */
  lemma BuildTold(codec: Codec, view: View, run: Run)
    ensures var built := Build(codec, view, run);
      && (run.dryRun || run.fingerprint.None? ==> built.Built? && built.hit == None && built.after == view)
      && (built.Built? && built.hit != Some(true) ==> OwnPlan(run, built.plan))
      && (built.Built? && built.hit == Some(true) ==> built.after == view)
  {
    UsesCacheIff(run);
    OwnPlanIff(run, Recompute(run));
  }

  lemma PlanKeyRegular(hash: string, run: Run)
    ensures Regular(PlanKey(hash, run))
  {
    assert PlanKey(hash, run)[..2] == "v1";
  }

  lemma KeysAgree(hash: string, run: Run, hash': string, run': Run)
    requires |hash| == |hash'|
    ensures PlanKey(hash, run) == PlanKey(hash', run') <==>
      hash == hash' && Signature(SortBy(StrLe, run.modules)) == Signature(SortBy(StrLe, run'.modules))
  {
    var k, k', n := PlanKey(hash, run), PlanKey(hash', run'), |hash|;
    assert k[3..3 + n] == hash && k'[3..3 + n] == hash';
    assert k[4 + n..] == Signature(SortBy(StrLe, run.modules)) && k'[4 + n..] == Signature(SortBy(StrLe, run'.modules));
  }

  /** Names the key was designed for. */
  predicate WellNamed(run: Run) {
    AllPlain(run.modules) && "" !in run.modules && "all" !in run.modules
  }

  lemma SortedWellNamed(run: Run)
    requires WellNamed(run)
    ensures AllPlain(SortBy(StrLe, run.modules))
    ensures ReadsAsAll(SortBy(StrLe, run.modules)) ==> SortBy(StrLe, run.modules) == []
  {
    var s := SortBy(StrLe, run.modules);
    forall name ensures name in s <==> name in run.modules { SameElements(s, run.modules, name); }
    assert forall i | 0 <= i < |s| :: s[i] in s;
  }

  /** For such names one key means one tree and one set of modules. */
  lemma SameKeySameInputs(hash: string, run: Run, hash': string, run': Run)
    requires |hash| == |hash'| && WellNamed(run) && WellNamed(run')
    ensures PlanKey(hash, run) == PlanKey(hash', run') <==>
      hash == hash' && SortBy(StrLe, run.modules) == SortBy(StrLe, run'.modules)
  {
    KeysAgree(hash, run, hash', run');
    SortedWellNamed(run);
    SortedWellNamed(run');
    SignatureIff(SortBy(StrLe, run.modules), SortBy(StrLe, run'.modules));
  }

  // ----- many runs sharing a cache -----

  /** Every cached plan was written by some earlier non-dry run under its own key. */
  ghost predicate Sound(codec: Codec, view: View, past: seq<Run>) {
    forall at | at in view && at.0 == "plan" ::
      exists run :: run in past && Wrote(codec, view, at, run)
  }

  ghost predicate Wrote(codec: Codec, view: View, at: (string, string), run: Run)
    requires at in view
  {
    UsesCache(run) && at.1 == PlanKey(run.fingerprint.value, run) && view[at] == codec.encode(Recompute(run))
  }

  lemma BuildKeepsSound(codec: Codec, view: View, past: seq<Run>, run: Run)
    requires Sound(codec, view, past) && Build(codec, view, run).Built?
    ensures Sound(codec, Build(codec, view, run).after, past + [run])
  {
    var after := Build(codec, view, run).after;
    forall at | at in after && at.0 == "plan"
      ensures exists r :: r in past + [run] && Wrote(codec, after, at, r)
    {
      if at in view && after[at] == view[at] {
        var r :| r in past && Wrote(codec, view, at, r);
        assert r in past + [run] && Wrote(codec, after, at, r);
      } else {
        assert run in past + [run] && Wrote(codec, after, at, run);
      }
    }
  }

  /** A hit is as good as recomputing exactly when the cached plan carries this run's `ci` flag,
      which the key leaves out. */
  lemma HitAgreesIff(codec: Codec, view: View, past: seq<Run>, run: Run)
    requires Lossless(codec) && Sound(codec, view, past)
    requires forall r | r in past + [run] :: HashesAreHex(r) && WellNamed(r)
    requires Build(codec, view, run).Built? && Build(codec, view, run).hit == Some(true)
    ensures Build(codec, view, run).plan == Recompute(run) <==>
      codec.decode(view[("plan", PlanKey(run.fingerprint.value, run))]).ci == run.ci
  {
    var at := ("plan", PlanKey(run.fingerprint.value, run));
    var r :| r in past && Wrote(codec, view, at, r);
    assert r in past + [run] && run in past + [run];
    SameKeySameInputs(run.fingerprint.value, run, r.fingerprint.value, r);
  }

  /** The cache as the next run finds it. */
  function After(codec: Codec, view: View, run: Run): View {
    var built := Build(codec, view, run);
    if built.Built? then built.after else view
  }

  /** The plans of a sequence of runs, each starting from the cache the previous one left. */
  function Plans(codec: Codec, view: View, runs: seq<Run>): seq<Built>
    decreases |runs|
  {
    if runs == [] then []
    else
      [Build(codec, view, runs[0])] + Plans(codec, After(codec, view, runs[0]), runs[1..])
  }

  lemma SoundWeakens(codec: Codec, view: View, past: seq<Run>, run: Run)
    requires Sound(codec, view, past)
    ensures Sound(codec, view, past + [run])
  {
    forall at | at in view && at.0 == "plan" ensures exists r :: r in past + [run] && Wrote(codec, view, at, r) {
      var r :| r in past && Wrote(codec, view, at, r);
      assert r in past + [run];
    }
  }

  lemma StepKeepsSound(codec: Codec, view: View, past: seq<Run>, run: Run)
    requires Sound(codec, view, past)
    ensures Sound(codec, After(codec, view, run), past + [run])
  {
    if Build(codec, view, run).Built? { BuildKeepsSound(codec, view, past, run); } else { SoundWeakens(codec, view, past, run); }
  }

  /** Runs with hashes and names the key was designed for, all with one `ci` flag. */
  ghost predicate AllAgree(runs: seq<Run>, ci: bool) {
    forall r | r in runs :: HashesAreHex(r) && WellNamed(r) && r.ci == ci
  }

  lemma SomeAgree(a: seq<Run>, b: seq<Run>, ci: bool)
    requires AllAgree(a + b, ci)
    ensures AllAgree(a, ci)
  {
    assert forall r | r in a :: r in a + b;
  }

  lemma BuiltAgrees(codec: Codec, view: View, past: seq<Run>, run: Run, ci: bool)
    requires Lossless(codec) && Sound(codec, view, past) && AllAgree(past + [run], ci)
    ensures Build(codec, view, run).Built? ==> Build(codec, view, run).plan == Recompute(run)
  {
    if Build(codec, view, run).Built? && Build(codec, view, run).hit == Some(true) {
      var at := ("plan", PlanKey(run.fingerprint.value, run));
      HitAgreesIff(codec, view, past, run);
      var r :| r in past && Wrote(codec, view, at, r);
      assert r in past + [run] && run in past + [run];
    }
  }

  ghost predicate Recomputed(built: seq<Built>, runs: seq<Run>) {
    |built| == |runs| && forall i | 0 <= i < |runs| && built[i].Built? :: built[i].plan == Recompute(runs[i])
  }

  lemma RecomputedNext(codec: Codec, view: View, runs: seq<Run>)
    requires runs != [] && Recomputed(Plans(codec, After(codec, view, runs[0]), runs[1..]), runs[1..])
    requires Build(codec, view, runs[0]).Built? ==> Build(codec, view, runs[0]).plan == Recompute(runs[0])
    ensures Recomputed(Plans(codec, view, runs), runs)
  {
    assert Plans(codec, view, runs)[1..] == Plans(codec, After(codec, view, runs[0]), runs[1..]);
  }

  lemma NextAgrees(codec: Codec, view: View, past: seq<Run>, runs: seq<Run>, ci: bool)
    requires Lossless(codec) && Sound(codec, view, past) && runs != [] && AllAgree(past + runs, ci)
    ensures Build(codec, view, runs[0]).Built? ==> Build(codec, view, runs[0]).plan == Recompute(runs[0])
    ensures Sound(codec, After(codec, view, runs[0]), past + [runs[0]]) && AllAgree((past + [runs[0]]) + runs[1..], ci)
  {
    assert past + runs == (past + [runs[0]]) + runs[1..];
    SomeAgree(past + [runs[0]], runs[1..], ci);
    BuiltAgrees(codec, view, past, runs[0], ci);
    StepKeepsSound(codec, view, past, runs[0]);
  }

  /** Runs that agree on `ci` never see a difference between a cached and a recomputed plan. */
  lemma {:induction false} CachedPlansAreRecomputed(codec: Codec, view: View, past: seq<Run>, runs: seq<Run>, ci: bool)
    requires Lossless(codec) && Sound(codec, view, past) && AllAgree(past + runs, ci)
    ensures Recomputed(Plans(codec, view, runs), runs)
    decreases |runs|
  {
    if runs != [] {
      NextAgrees(codec, view, past, runs, ci);
      CachedPlansAreRecomputed(codec, After(codec, view, runs[0]), past + [runs[0]], runs[1..], ci);
      RecomputedNext(codec, view, runs);
    }
  }

  lemma SortOne(x: string)
    ensures SortBy(StrLe, [x]) == [x]
  {
    assert [x][1..] == [] && SortBy(StrLe, []) == [];
  }

  lemma SortPair(x: string, y: string)
    requires StrLe(x, y)
    ensures SortBy(StrLe, [x, y]) == [x, y]
  {
    SortOne(y);
    assert [x, y][1..] == [y];
  }

  lemma SignatureOne(x: string)
    requires x != "" && ',' !in x
    ensures Signature([x]) == x
  {
    DashedPlain(x);
  }

  lemma SignaturePair(x: string, y: string)
    requires ',' !in x && ',' !in y
    ensures Signature([x, y]) == x + "-" + y
  {
    assert [x, y][1..] == [y];
    assert Join(',', [x, y]) == x + ("," + y);
    DashedConcat(x, "," + y);
    DashedConcat(",", y);
    DashedPlain(x);
    DashedPlain(y);
    assert Dashed(",") == "-";
    assert x + ("-" + y) == x + "-" + y;
  }

  /** Separators inside names, the name `all` and the `ci` flag each make two keys collide. */
  lemma KeysCollide(hash: string, ci: bool, dash: Run, pair: Run, all: Run, none: Run)
    requires dash.modules == ["a-b"] && pair.modules == ["a", "b"] && all.modules == ["all"] && none.modules == []
    ensures PlanKey(hash, dash) == PlanKey(hash, pair) && Recompute(dash) != Recompute(pair)
    ensures PlanKey(hash, all) == PlanKey(hash, none) && Recompute(all) != Recompute(none)
    ensures PlanKey(hash, pair.(ci := !pair.ci)) == PlanKey(hash, pair) && Recompute(pair.(ci := !pair.ci)) != Recompute(pair)
  {
    SortOne("a-b");
    SortOne("all");
    SortPair("a", "b");
    SignatureOne("a-b");
    SignaturePair("a", "b");
    SignatureOne("all");
    DashedPlain("all");
    assert "a" + "-" + "b" == "a-b";
  }

  // ----- the step on the context -----

  class PlanContext {
    var plan: Option<Plan>
    var planCacheHit: Option<bool>
    var planCacheKey: Option<string>

    constructor ()
      ensures plan == None && planCacheHit == None && planCacheKey == None
    {
      plan, planCacheHit, planCacheKey := None, None, None;
    }

    method BuildExecutionPlan(codec: Codec, store: CacheStore, run: Run) returns (ok: bool)
      requires planCacheHit == None
      modifies this, store
      ensures ok == Build(codec, old(store.View()), run).Built?
      ensures ok ==> plan.Some? && Built(plan.value, planCacheHit, store.View()) == Build(codec, old(store.View()), run)
      ensures !ok ==> plan == old(plan) && store.View() == old(store.View())
    {
      if UsesCache(run) {
        var key := PlanKey(run.fingerprint.value, run);
        PlanKeyRegular(run.fingerprint.value, run);
        planCacheKey := Some(key);
        var cached := store.Get("plan", key);
        if cached.CacheError? { return false; }
        if run.readable && cached.value.Some? {
          plan := Some(codec.decode(cached.value.value));
          planCacheHit := Some(true);
          return true;
        }
        planCacheHit := Some(false);
      }
      plan := Some(Recompute(run));
      if UsesCache(run) && planCacheHit == Some(false) && planCacheKey.Some? && run.writable {
        var _ := store.Put("plan", planCacheKey.value, codec.encode(plan.value));
      }
      ok := true;
    }
  }
}
