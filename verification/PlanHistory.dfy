/** The plan cache over any sequence of runs that share it (engine/orchestrator/run_lifecycle.py:359-413, 745-766):
    whose plan each run gets, and exactly when that is its own. */
module PlanHistory {
  import opened Sorting
  import opened Store
  import opened PlanCache
  import opened Wrappers

  // ----- a slot that some steps fill -----

  function Fold<S, E>(step: (S, E) -> S, start: S, es: seq<E>, n: nat): S
    requires n <= |es|
  {
    if n == 0 then start else step(Fold(step, start, es, n - 1), es[n - 1])
  }

  /** The run whose plan the first `n` runs leave in a slot: each of those the slot belongs to writes it that can
      write and found nothing there, or could not read. */
  function Writer(owns: Run -> bool, runs: seq<Run>, n: nat): (w: Option<nat>)
    requires n <= |runs|
    ensures w.Some? ==> w.value < n && owns(runs[w.value])
  {
    if n == 0 then None
    else
      var before := Writer(owns, runs, n - 1);
      if owns(runs[n - 1]) && runs[n - 1].writable && !(runs[n - 1].readable && before.Some?) then Some(n - 1) else before
  }

  /** A step writes the slot as `Writer` has it, or leaves it as it was. */
  ghost predicate Serves(step: (View, Run) -> View, owns: Run -> bool, value: Run -> Bytes, at: (string, string)) {
    forall view, run ::
      if owns(run) && run.writable && !(run.readable && at in view)
      then at in step(view, run) && step(view, run)[at] == value(run)
      else (at in step(view, run) <==> at in view) && (at in view ==> step(view, run)[at] == view[at])
  }

  lemma {:induction false} WriterFills(step: (View, Run) -> View, owns: Run -> bool, value: Run -> Bytes, at: (string, string), runs: seq<Run>, n: nat)
    requires n <= |runs| && Serves(step, owns, value, at)
    ensures var view := Fold(step, map[], runs, n); var w := Writer(owns, runs, n);
      (at in view <==> w.Some?) && (w.Some? ==> view[at] == value(runs[w.value]))
  {
    if n > 0 { WriterFills(step, owns, value, at, runs, n - 1); }
  }

  // ----- the cache after some runs -----

  function Leaves(codec: Codec): (View, Run) -> View { (view: View, run: Run) => After(codec, view, run) }

  /** What the i-th of some runs from an empty cache gets. */
  function BuiltAt(codec: Codec, runs: seq<Run>, i: nat): Built
    requires i < |runs|
  {
    Build(codec, Fold(Leaves(codec), map[], runs, i), runs[i])
  }

  predicate Owns(run: Run, key: string) {
    UsesCache(run) && Valid("plan", key) && PlanKey(run.fingerprint.value, run) == key
  }

  function OwnersOf(key: string): Run -> bool { (run: Run) => Owns(run, key) }

  function Encoded(codec: Codec): Run -> Bytes { (run: Run) => codec.encode(Recompute(run)) }

  lemma SameSlot(own: string, key: string)
    ensures ("plan", own) == ("plan", key) <==> own == key
  {}

  lemma RunsServe(codec: Codec, key: string)
    ensures Serves(Leaves(codec), OwnersOf(key), Encoded(codec), ("plan", key))
  {
    forall run: Run | UsesCache(run)
      ensures ("plan", PlanKey(run.fingerprint.value, run)) == ("plan", key) <==> PlanKey(run.fingerprint.value, run) == key
    {
      SameSlot(PlanKey(run.fingerprint.value, run), key);
    }
  }

  /** Which earlier run's plan a run is served, if any. */
  function ServedBy(runs: seq<Run>, i: nat): Option<nat>
    requires i < |runs|
  {
    if UsesCache(runs[i]) && runs[i].readable then Writer(OwnersOf(PlanKey(runs[i].fingerprint.value, runs[i])), runs, i) else None
  }

  lemma BuildServes(codec: Codec, view: View, run: Run)
    ensures Build(codec, view, run).Built? ==>
      Build(codec, view, run).plan ==
        if UsesCache(run) && run.readable && ("plan", PlanKey(run.fingerprint.value, run)) in view
        then codec.decode(view[("plan", PlanKey(run.fingerprint.value, run))]) else Recompute(run)
  {}

  /** Every plan of every sequence of runs from an empty cache: the run's own, or the one it is served. */
  lemma PlanIsServed(codec: Codec, runs: seq<Run>, i: nat)
    requires Lossless(codec) && i < |runs|
    ensures BuiltAt(codec, runs, i).Built? ==>
      BuiltAt(codec, runs, i).plan == Recompute(runs[if ServedBy(runs, i).Some? then ServedBy(runs, i).value else i])
  {
    BuildServes(codec, Fold(Leaves(codec), map[], runs, i), runs[i]);
    if UsesCache(runs[i]) {
      var key := PlanKey(runs[i].fingerprint.value, runs[i]);
      RunsServe(codec, key);
      WriterFills(Leaves(codec), OwnersOf(key), Encoded(codec), ("plan", key), runs, i);
    }
  }

  /** Whatever names, flags and failures: a run gets the plan it would recompute exactly when it is served none,
      or one of a run with the same sorted modules and the same `ci`. */
  lemma PlanRightIff(codec: Codec, runs: seq<Run>, i: nat)
    requires Lossless(codec) && i < |runs| && BuiltAt(codec, runs, i).Built?
    ensures BuiltAt(codec, runs, i).plan == Recompute(runs[i]) <==>
      (ServedBy(runs, i).Some? ==>
        var j := ServedBy(runs, i).value;
        SortBy(StrLe, runs[j].modules) == SortBy(StrLe, runs[i].modules) && runs[j].ci == runs[i].ci)
  {
    PlanIsServed(codec, runs, i);
  }

  /** Whatever else a key confuses, a dry run is never served a plan and its plan is never served: every plan says
      rightly whether it is a dry run's. */
  lemma DryRunsKeptApart(codec: Codec, runs: seq<Run>, i: nat)
    requires Lossless(codec) && i < |runs| && BuiltAt(codec, runs, i).Built?
    ensures BuiltAt(codec, runs, i).plan.dryRun <==> runs[i].dryRun
    ensures runs[i].dryRun ==>
      && OwnPlan(runs[i], BuiltAt(codec, runs, i).plan) && BuiltAt(codec, runs, i).hit == None
      && Fold(Leaves(codec), map[], runs, i + 1) == Fold(Leaves(codec), map[], runs, i)
  {
    PlanIsServed(codec, runs, i);
    UsesCacheIff(runs[i]);
    OwnPlanIff(runs[i], Recompute(runs[i]));
    var j := if ServedBy(runs, i).Some? then ServedBy(runs, i).value else i;
    UsesCacheIff(runs[j]);
    OwnPlanIff(runs[j], Recompute(runs[j]));
  }

  // ----- runs that take their modules from the configuration -----

  ghost predicate AllNamed(names: seq<string>) { AllPlain(names) && "" !in names && "all" !in names }

  lemma WhenNamed(before: seq<string>, on: bool, name: string)
    requires AllNamed(before) && Plain(name) && name != "" && name != "all"
    ensures AllNamed(before + When(on, name))
  {}

  function FirstModules(on: Enabled): seq<string> {
    When(on.functional, "functional") + When(on.api, "api") + When(on.accessibility, "accessibility") + When(on.performance, "performance")
  }

  lemma FirstNamed(on: Enabled)
    ensures AllNamed(FirstModules(on))
  {
    var a := When(on.functional, "functional");
    assert [] + a == a;
    WhenNamed([], on.functional, "functional");
    WhenNamed(a, on.api, "api");
    WhenNamed(a + When(on.api, "api"), on.accessibility, "accessibility");
    WhenNamed(a + When(on.api, "api") + When(on.accessibility, "accessibility"), on.performance, "performance");
  }

  lemma LastNamed(a: seq<string>, on: Enabled)
    requires AllNamed(a)
    ensures AllNamed(a + When(on.visual, "visual") + When(on.security, "security") + When(on.chaos, "chaos") + When(on.llmAudit, "llm_audit"))
  {
    WhenNamed(a, on.visual, "visual");
    var b := a + When(on.visual, "visual");
    WhenNamed(b, on.security, "security");
    var c := b + When(on.security, "security");
    WhenNamed(c, on.chaos, "chaos");
    WhenNamed(c + When(on.chaos, "chaos"), on.llmAudit, "llm_audit");
  }

  /** No configured set of modules can be mistaken for another. */
  lemma ConfiguredIsWellNamed(run: Run, on: Enabled)
    requires run.modules == ModulesToRun(None, on)
    ensures WellNamed(run)
  {
    FirstNamed(on);
    LastNamed(FirstModules(on), on);
  }

  /** So runs that request no modules of their own and agree on `ci` always get the plan they would recompute. */
  lemma ConfiguredPlansAreRecomputed(codec: Codec, runs: seq<Run>, ci: bool)
    requires Lossless(codec)
    requires forall r | r in runs :: HashesAreHex(r) && r.ci == ci && exists on :: r.modules == ModulesToRun(None, on)
    ensures Recomputed(Plans(codec, map[], runs), runs)
  {
    forall r | r in runs ensures WellNamed(r) {
      var on :| r.modules == ModulesToRun(None, on);
      ConfiguredIsWellNamed(r, on);
    }
    assert [] + runs == runs;
    CachedPlansAreRecomputed(codec, map[], [], runs, ci);
  }
}
