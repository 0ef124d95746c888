/** Step 10 of the run lifecycle (engine/orchestrator/run_lifecycle.py): modules
    run one by one or on a bounded thread pool, and their results are merged on
    the main thread.  The pool is a state machine; a schedule is any choice of
    enabled steps. */
module ModulePool {
  import opened Wrappers

  type Finding = string
  datatype ModuleResult = ModuleResult(id: string, status: string, findings: seq<Finding>)

  datatype Classification = Classification(category: string, confidence: real, rationale: string)

  datatype ModuleOutcome =
    | Skipped(name: string)
    | SucceededTyped(name: string, resultId: string, moduleStatus: string, findingCount: nat)
    | Succeeded(name: string, result: string)
    | Errored(name: string, message: string, errorType: string, cause: Classification)

  /** An exception: `known` for the three expected classes, `message` when the class carries one. */
  datatype Raised = Raised(typeName: string, known: bool, message: Option<string>, text: string)

  /** What calling the factory registered under a name does. */
  datatype Behaviour = NoFactory | Typed(result: ModuleResult) | Plain(text: string) | Raises(exc: Raised)

  /** The calls of one run: the i-th module name and what its call does. */
  datatype Batch = Batch(
    names: seq<string>, behaviours: seq<Behaviour>, categorize: (string, string, string) -> Classification)

  ghost predicate WellFormed(b: Batch) { |b.names| == |b.behaviours| }

  type Pair = (ModuleOutcome, Option<ModuleResult>)

  /** `_execute_one_module`: reads nothing that merging writes. */
  function ExecuteOne(b: Batch, i: nat): Pair
    requires WellFormed(b) && i < |b.names|
  {
    var name := b.names[i];
    match b.behaviours[i]
    case NoFactory => (Skipped(name), None)
    case Typed(r) => (SucceededTyped(name, r.id, r.status, |r.findings|), Some(r))
    case Plain(text) => (Succeeded(name, text), None)
    case Raises(exc) =>
      if exc.known then
        var message := if exc.message.Some? then exc.message.value else exc.text;
        (Errored(name, message, exc.typeName, b.categorize(name, exc.typeName, message)), None)
      else
        (Errored(name, exc.typeName + ": " + exc.text, exc.typeName, b.categorize(name, exc.typeName, exc.text)), None)
  }

  /** The fields of the context that merging writes. */
  datatype Merged = Merged(outcomes: seq<ModuleOutcome>, results: seq<ModuleResult>, findings: seq<Finding>)

  function MergeOne(m: Merged, p: Pair): Merged {
    if p.1.Some? then Merged(m.outcomes + [p.0], m.results + [p.1.value], m.findings + p.1.value.findings)
    else m.(outcomes := m.outcomes + [p.0])
  }

  /** The sequential loop over the first `n` modules. */
  function Sequential(b: Batch, m: Merged, n: nat): Merged
    requires WellFormed(b) && n <= |b.names|
  {
    if n == 0 then m else MergeOne(Sequential(b, m, n - 1), ExecuteOne(b, n - 1))
  }

  // ----- what a run reports, told from the behaviours alone -----

  /** The message an exception is reported with, and the one it is classified by. */
  ghost predicate Told(e: Raised, message: string, classified: string) {
    && (!e.known ==> message == e.typeName + ": " + e.text && classified == e.text)
    && (e.known ==> message == classified == if e.message.Some? then e.message.value else e.text)
  }

  ghost predicate OutcomeFits(b: Batch, name: string, does: Behaviour, o: ModuleOutcome) {
    && o.name == name
    && (o.Skipped? <==> does.NoFactory?) && (o.Errored? <==> does.Raises?)
    && (does.Typed? ==> o == SucceededTyped(name, does.result.id, does.result.status, |does.result.findings|))
    && (does.Plain? ==> o == Succeeded(name, does.text))
    && (does.Raises? ==>
          && o.errorType == does.exc.typeName
          && exists classified :: Told(does.exc, o.message, classified) && o.cause == b.categorize(name, o.errorType, classified))
  }

  function TypedResults(behaviours: seq<Behaviour>): seq<ModuleResult> {
    if behaviours == [] then []
    else if behaviours[0].Typed? then [behaviours[0].result] + TypedResults(behaviours[1..])
    else TypedResults(behaviours[1..])
  }

  function AllFindings(results: seq<ModuleResult>): seq<Finding> {
    if results == [] then [] else results[0].findings + AllFindings(results[1..])
  }

  /** One outcome per module in input order; the typed results and their findings, all of them, in that order too. */
  ghost predicate Ran(b: Batch, before: Merged, after: Merged)
    requires WellFormed(b)
  {
    && before.outcomes <= after.outcomes && |after.outcomes| == |before.outcomes| + |b.names|
    && (forall i | 0 <= i < |b.names| :: OutcomeFits(b, b.names[i], b.behaviours[i], after.outcomes[|before.outcomes| + i]))
    && after.results == before.results + TypedResults(b.behaviours)
    && after.findings == before.findings + AllFindings(TypedResults(b.behaviours))
  }

  lemma ExecutedFits(b: Batch, i: nat)
    requires WellFormed(b) && i < |b.names|
    ensures OutcomeFits(b, b.names[i], b.behaviours[i], ExecuteOne(b, i).0)
    ensures ExecuteOne(b, i).1 == if b.behaviours[i].Typed? then Some(b.behaviours[i].result) else None
  {
    if b.behaviours[i].Raises? {
      var e := b.behaviours[i].exc;
      var classified := if e.known && e.message.Some? then e.message.value else e.text;
      assert Told(e, ExecuteOne(b, i).0.message, classified);
    }
  }

  lemma {:induction false} TypedAppend(behaviours: seq<Behaviour>, last: Behaviour)
    ensures TypedResults(behaviours + [last]) == TypedResults(behaviours) + if last.Typed? then [last.result] else []
  {
    if behaviours == [] {
      assert behaviours + [last] == [last] && [last][1..] == [];
    } else {
      assert (behaviours + [last])[1..] == behaviours[1..] + [last];
      TypedAppend(behaviours[1..], last);
    }
  }

  lemma {:induction false} FindingsAppend(results: seq<ModuleResult>, last: ModuleResult)
    ensures AllFindings(results + [last]) == AllFindings(results) + last.findings
  {
    if results == [] {
      assert results + [last] == [last] && [last][1..] == [];
    } else {
      assert (results + [last])[1..] == results[1..] + [last];
      FindingsAppend(results[1..], last);
    }
  }

  /** The first `n` modules of a batch. */
  function First(b: Batch, n: nat): Batch
    requires WellFormed(b) && n <= |b.names|
  {
    b.(names := b.names[..n], behaviours := b.behaviours[..n])
  }

  lemma MergedTyped(before: Merged, t: Merged, p: Pair, behaviours: seq<Behaviour>, last: Behaviour)
    requires t.results == before.results + TypedResults(behaviours) && t.findings == before.findings + AllFindings(TypedResults(behaviours))
    requires p.1 == if last.Typed? then Some(last.result) else None
    ensures MergeOne(t, p).results == before.results + TypedResults(behaviours + [last])
    ensures MergeOne(t, p).findings == before.findings + AllFindings(TypedResults(behaviours + [last]))
  {
    var typed := TypedResults(behaviours);
    TypedAppend(behaviours, last);
    if last.Typed? {
      FindingsAppend(typed, last.result);
    } else {
      assert typed + [] == typed;
    }
  }

  lemma MergedOutcomes(b: Batch, n: nat, m: Merged, t: Merged)
    requires WellFormed(b) && n < |b.names| && Ran(First(b, n), m, t)
    ensures var after := MergeOne(t, ExecuteOne(b, n)).outcomes;
      && m.outcomes <= after && |after| == |m.outcomes| + n + 1
      && forall i | 0 <= i < n + 1 :: OutcomeFits(b, b.names[i], b.behaviours[i], after[|m.outcomes| + i])
  {
    var after := MergeOne(t, ExecuteOne(b, n)).outcomes;
    ExecutedFits(b, n);
    assert after == t.outcomes + [ExecuteOne(b, n).0];
    forall i | 0 <= i < n ensures OutcomeFits(b, b.names[i], b.behaviours[i], after[|m.outcomes| + i]) {
      assert OutcomeFits(First(b, n), b.names[..n][i], b.behaviours[..n][i], t.outcomes[|m.outcomes| + i]);
    }
  }

  lemma RanOneMore(b: Batch, n: nat, m: Merged, t: Merged)
    requires WellFormed(b) && n < |b.names| && Ran(First(b, n), m, t)
    ensures Ran(First(b, n + 1), m, MergeOne(t, ExecuteOne(b, n)))
  {
    var c, after := First(b, n + 1), MergeOne(t, ExecuteOne(b, n));
    MergedOutcomes(b, n, m, t);
    ExecutedFits(b, n);
    MergedTyped(m, t, ExecuteOne(b, n), b.behaviours[..n], b.behaviours[n]);
    assert b.behaviours[..n + 1] == b.behaviours[..n] + [b.behaviours[n]];
    forall i | 0 <= i < |c.names| ensures OutcomeFits(c, c.names[i], c.behaviours[i], after.outcomes[|m.outcomes| + i]) {
      assert OutcomeFits(b, b.names[i], b.behaviours[i], after.outcomes[|m.outcomes| + i]);
    }
  }

  /** The sequential loop reports just that. */
  lemma {:induction false} SequentialRan(b: Batch, m: Merged, n: nat)
    requires WellFormed(b) && n <= |b.names|
    ensures Ran(First(b, n), m, Sequential(b, m, n))
  {
    if n > 0 {
      SequentialRan(b, m, n - 1);
      RanOneMore(b, n - 1, m, Sequential(b, m, n - 1));
    }
  }

  lemma BatchRan(b: Batch, m: Merged)
    requires WellFormed(b)
    ensures Ran(b, m, Sequential(b, m, |b.names|))
  {
    SequentialRan(b, m, |b.names|);
    assert First(b, |b.names|) == b;
  }

  // ----- the pool as a state machine -----

  datatype Pool = Pool(
    submitted: nat, queue: seq<nat>, running: set<nat>, done: map<nat, Pair>, merged: nat, ctx: Merged)

  datatype Step = Submit | Start | Finish(i: nat) | Merge

  function Fresh(m: Merged): Pool { Pool(0, [], {}, map[], 0, m) }

  /** Submitting and merging happen on the main thread, in that order; workers start and finish in between. */
  predicate Enabled(b: Batch, workers: nat, s: Pool, step: Step) {
    match step
    case Submit => s.submitted < |b.names|
    case Start => s.queue != [] && |s.running| < workers
    case Finish(i) => i in s.running
    case Merge => s.submitted == |b.names| && s.merged < |b.names| && s.merged in s.done
  }

  function Next(b: Batch, workers: nat, s: Pool, step: Step): Pool
    requires WellFormed(b) && Enabled(b, workers, s, step) && forall i | i in s.running :: i < |b.names|
  {
    match step
    case Submit => s.(submitted := s.submitted + 1, queue := s.queue + [s.submitted])
    case Start => s.(queue := s.queue[1..], running := s.running + {s.queue[0]})
    case Finish(i) => s.(running := s.running - {i}, done := s.done[i := ExecuteOne(b, i)])
    case Merge => s.(merged := s.merged + 1, ctx := MergeOne(s.ctx, s.done[s.merged]))
  }

  /** Every submitted call is in exactly one of the three places, and the queue keeps input order. */
  ghost predicate Placed(s: Pool) {
    && (forall i :: i in s.queue || i in s.running || i in s.done <==> 0 <= i < s.submitted)
    && (forall i | i in s.queue :: i !in s.running && i !in s.done)
    && (forall i | i in s.running :: i !in s.done)
    && (forall j, k | 0 <= j < k < |s.queue| :: s.queue[j] < s.queue[k])
  }

  /** The context is the sequential one for the calls merged so far. */
  ghost predicate Inv(b: Batch, workers: nat, m: Merged, s: Pool) {
    && WellFormed(b) && s.merged <= |b.names| && s.submitted <= |b.names| && |s.running| <= workers
    && Placed(s)
    && (forall i | i in s.done :: i < |b.names| && s.done[i] == ExecuteOne(b, i))
    && (s.merged > 0 ==> s.submitted == |b.names|)
    && (forall i | 0 <= i < s.merged :: i in s.done)
    && s.ctx == Sequential(b, m, s.merged)
  }

  lemma FreshInv(b: Batch, workers: nat, m: Merged)
    requires WellFormed(b)
    ensures Inv(b, workers, m, Fresh(m))
  {}

  lemma SubmitPlaces(s: Pool)
    requires Placed(s)
    ensures Placed(s.(submitted := s.submitted + 1, queue := s.queue + [s.submitted]))
  {
    var q := s.queue + [s.submitted];
    assert forall i :: i in q <==> i in s.queue || i == s.submitted;
    forall j, k | 0 <= j < k < |q| ensures q[j] < q[k] {
      assert q[j] == s.queue[j];
      assert s.queue[j] in s.queue;
    }
  }

  lemma StartPlaces(s: Pool)
    requires Placed(s) && s.queue != []
    ensures Placed(s.(queue := s.queue[1..], running := s.running + {s.queue[0]}))
  {
    assert s.queue == [s.queue[0]] + s.queue[1..];
    assert forall i :: i in s.queue <==> i in s.queue[1..] || i == s.queue[0];
  }

  lemma FinishPlaces(s: Pool, i: nat, p: Pair)
    requires Placed(s) && i in s.running
    ensures Placed(s.(running := s.running - {i}, done := s.done[i := p]))
  {}

  lemma MergeKeepsInv(b: Batch, workers: nat, m: Merged, s: Pool)
    requires Inv(b, workers, m, s) && Enabled(b, workers, s, Merge)
    ensures Inv(b, workers, m, Next(b, workers, s, Merge))
  {
    assert s.done[s.merged] == ExecuteOne(b, s.merged);
  }

  lemma FinishKeepsInv(b: Batch, workers: nat, m: Merged, s: Pool, i: nat)
    requires Inv(b, workers, m, s) && i in s.running
    ensures Inv(b, workers, m, Next(b, workers, s, Finish(i)))
  {
    FinishPlaces(s, i, ExecuteOne(b, i));
  }

  lemma NextKeepsInv(b: Batch, workers: nat, m: Merged, s: Pool, step: Step)
    requires Inv(b, workers, m, s) && Enabled(b, workers, s, step)
    ensures Inv(b, workers, m, Next(b, workers, s, step))
  {
    match step
    case Submit => SubmitPlaces(s);
    case Start => StartPlaces(s);
    case Finish(i) => FinishKeepsInv(b, workers, m, s, i);
    case Merge => MergeKeepsInv(b, workers, m, s);
  }

  /** Steps still to come: every step uses at least one up. */
  function Remaining(b: Batch, s: Pool): int {
    4 * (|b.names| - s.submitted) + 3 * |s.queue| + 2 * |s.running| + (|b.names| - s.merged)
  }

  lemma NextProgresses(b: Batch, workers: nat, m: Merged, s: Pool, step: Step)
    requires Inv(b, workers, m, s) && Enabled(b, workers, s, step)
    ensures Remaining(b, s) > Remaining(b, Next(b, workers, s, step)) >= 0
  {
    NextKeepsInv(b, workers, m, s, step);
    match step
    case Submit =>
    case Start => assert s.queue[0] in s.queue;
    case Finish(i) =>
    case Merge =>
  }

  /** No deadlock: until everything is merged some step is enabled. */
  lemma SomeStepEnabled(b: Batch, workers: nat, m: Merged, s: Pool)
    requires Inv(b, workers, m, s) && workers >= 1 && s.merged < |b.names|
    ensures exists step :: Enabled(b, workers, s, step)
  {
    if s.submitted < |b.names| {
      assert Enabled(b, workers, s, Submit);
    } else if s.merged in s.done {
      assert Enabled(b, workers, s, Merge);
    } else if s.running != {} {
      var i :| i in s.running;
      assert Enabled(b, workers, s, Finish(i));
    } else {
      assert s.merged in s.queue;
      assert Enabled(b, workers, s, Start);
    }
  }

  // ----- whole runs -----

  /** The state after a schedule, if every step of it was enabled in turn. */
  function Play(b: Batch, workers: nat, s: Pool, schedule: seq<Step>): Option<Pool>
    requires WellFormed(b)
    decreases |schedule|
  {
    if schedule == [] then Some(s)
    else if Enabled(b, workers, s, schedule[0]) && forall i | i in s.running :: i < |b.names| then
      Play(b, workers, Next(b, workers, s, schedule[0]), schedule[1..])
    else None
  }

  lemma {:induction false} PlayKeepsInv(b: Batch, workers: nat, m: Merged, s: Pool, schedule: seq<Step>)
    requires Inv(b, workers, m, s) && Play(b, workers, s, schedule).Some?
    ensures Inv(b, workers, m, Play(b, workers, s, schedule).value)
    ensures |schedule| + Remaining(b, Play(b, workers, s, schedule).value) <= Remaining(b, s)
    decreases |schedule|
  {
    if schedule != [] {
      NextKeepsInv(b, workers, m, s, schedule[0]);
      NextProgresses(b, workers, m, s, schedule[0]);
      PlayKeepsInv(b, workers, m, Next(b, workers, s, schedule[0]), schedule[1..]);
    }
  }

  /** Every interleaving: never too many at once, never stuck, never longer than 5n steps,
      and when it cannot go on the context is exactly the sequential one. */
  lemma EveryInterleaving(b: Batch, workers: nat, m: Merged, schedule: seq<Step>)
    requires WellFormed(b) && workers >= 1 && Play(b, workers, Fresh(m), schedule).Some?
    ensures var s := Play(b, workers, Fresh(m), schedule).value;
      && |s.running| <= workers
      && |schedule| <= 5 * |b.names|
      && s.merged <= |b.names| && s.ctx == Sequential(b, m, s.merged)
      && (s.merged < |b.names| <==> exists step :: Enabled(b, workers, s, step))
  {
    FreshInv(b, workers, m);
    PlayKeepsInv(b, workers, m, Fresh(m), schedule);
    var s := Play(b, workers, Fresh(m), schedule).value;
    if s.merged < |b.names| { SomeStepEnabled(b, workers, m, s); } else { NothingLeft(b, workers, m, s); }
  }

  lemma EmptyOrInhabited<T>(q: seq<T>)
    ensures q == [] || exists x :: x in q
  {
    if q != [] { assert q[0] in q; }
  }

  lemma NothingLeft(b: Batch, workers: nat, m: Merged, s: Pool)
    requires Inv(b, workers, m, s) && s.merged == |b.names|
    ensures forall step :: !Enabled(b, workers, s, step)
  {
    assert s.submitted <= s.merged;
    assert forall i | i in s.running :: i in s.done;
    assert s.running == {};
    assert forall i | i in s.queue :: i in s.done;
    EmptyOrInhabited(s.queue);
  }

  // ----- the context and the two execution paths -----

  function FinishSteps(running: set<nat>, n: nat): (r: seq<Step>)
    ensures forall step :: step in r <==> step.Finish? && step.i in running && step.i < n
  {
    if n == 0 then [] else FinishSteps(running, n - 1) + if n - 1 in running then [Finish(n - 1)] else []
  }

  function EnabledSteps(b: Batch, workers: nat, s: Pool): (r: seq<Step>)
    requires forall i | i in s.running :: i < |b.names|
    ensures forall step :: step in r <==> Enabled(b, workers, s, step)
  {
    (if Enabled(b, workers, s, Submit) then [Submit] else [])
    + (if Enabled(b, workers, s, Start) then [Start] else [])
    + FinishSteps(s.running, |b.names|)
    + (if Enabled(b, workers, s, Merge) then [Merge] else [])
  }

  class LifecycleContext {
    var moduleOutcomes: seq<ModuleOutcome>
    var typedModuleResults: seq<ModuleResult>
    var typedFindings: seq<Finding>

    constructor ()
      ensures View() == Merged([], [], [])
    {
      moduleOutcomes, typedModuleResults, typedFindings := [], [], [];
    }

    function View(): Merged
      reads this
    {
      Merged(moduleOutcomes, typedModuleResults, typedFindings)
    }

    method MergeModuleResult(pair: Pair)
      modifies this
      ensures View() == MergeOne(old(View()), pair)
    {
      moduleOutcomes := moduleOutcomes + [pair.0];
      if pair.1.Some? {
        typedModuleResults := typedModuleResults + [pair.1.value];
        typedFindings := typedFindings + pair.1.value.findings;
      }
    }

    /** `pick` is the operating system: it chooses among the enabled steps, arbitrarily. */
    method RunModules(b: Batch, moduleConcurrency: int, pick: nat -> nat)
      requires WellFormed(b)
      modifies this
      ensures View() == Sequential(b, old(View()), |b.names|) && Ran(b, old(View()), View())
    {
      var n := |b.names|;
      BatchRan(b, View());
      if n == 0 { return; }
      var least := if moduleConcurrency < n then moduleConcurrency else n;
      var concurrency := if 1 < least then least else 1;
      if concurrency == 1 {
        var i := 0;
        while i < n
          invariant 0 <= i <= n
          invariant View() == Sequential(b, old(View()), i)
        {
          MergeModuleResult(ExecuteOne(b, i));
          i := i + 1;
        }
        return;
      }
      RunOnPool(b, concurrency, pick);
    }

    method RunOnPool(b: Batch, workers: nat, pick: nat -> nat)
      requires WellFormed(b) && workers >= 1
      modifies this
      ensures View() == Sequential(b, old(View()), |b.names|) && Ran(b, old(View()), View())
    {
      ghost var m := View();
      BatchRan(b, m);
      var s := Fresh(View());
      var turn := 0;
      FreshInv(b, workers, m);
      while s.merged < |b.names|
        invariant Inv(b, workers, m, s) && s.ctx == View()
        decreases Remaining(b, s)
      {
        var steps := EnabledSteps(b, workers, s);
        SomeStepEnabled(b, workers, m, s);
        var step := steps[pick(turn) % |steps|];
        NextKeepsInv(b, workers, m, s, step);
        NextProgresses(b, workers, m, s, step);
        if step == Merge { MergeModuleResult(s.done[s.merged]); }
        s := Next(b, workers, s, step);
        turn := turn + 1;
      }
    }
  }
}
