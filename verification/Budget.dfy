/** engine/llm/budget.py: one spending cap per run with optional caps per caller.
    Reals stand for floats. */
module Budget {
  import opened Sorting
  import opened Wrappers

  datatype Caller = Planner | Analyzer | Healer | Doctor | Test

  datatype LlmUsage = LlmUsage(inputTokens: int, outputTokens: int, costUsd: real, requests: int)

  const NOTHING := LlmUsage(0, 0, 0.0, 0)

  function Plus(a: LlmUsage, b: LlmUsage): LlmUsage {
    LlmUsage(a.inputTokens + b.inputTokens, a.outputTokens + b.outputTokens, a.costUsd + b.costUsd, a.requests + b.requests)
  }

  datatype Caps = Caps(run: real, planner: Option<real>, analyzer: Option<real>, healer: Option<real>)

  function CapFor(caps: Caps, caller: Caller): real {
    match caller
    case Planner => if caps.planner.Some? then caps.planner.value else caps.run
    case Analyzer => if caps.analyzer.Some? then caps.analyzer.value else caps.run
    case Healer => if caps.healer.Some? then caps.healer.value else caps.run
    case _ => caps.run
  }

  /** Planner, analyzer and healer may have a cap of their own; everyone else has the run's. */
  lemma CapTold(caps: Caps)
    ensures caps.planner.Some? ==> CapFor(caps, Planner) == caps.planner.value
    ensures caps.analyzer.Some? ==> CapFor(caps, Analyzer) == caps.analyzer.value
    ensures caps.healer.Some? ==> CapFor(caps, Healer) == caps.healer.value
    ensures caps.planner.None? ==> CapFor(caps, Planner) == caps.run
    ensures caps.analyzer.None? ==> CapFor(caps, Analyzer) == caps.run
    ensures caps.healer.None? ==> CapFor(caps, Healer) == caps.run
    ensures CapFor(caps, Doctor) == CapFor(caps, Test) == caps.run
  {}

  type Usage = map<Caller, LlmUsage>

  function UsageFor(u: Usage, c: Caller): LlmUsage { if c in u then u[c] else NOTHING }

  const CALLERS := [Planner, Analyzer, Healer, Doctor, Test]

  function SumOver(u: Usage, callers: seq<Caller>): LlmUsage {
    if callers == [] then NOTHING
    else Plus(SumOver(u, callers[..|callers| - 1]), UsageFor(u, callers[|callers| - 1]))
  }

  /** Callers without a record count as nothing. */
  function Total(u: Usage): LlmUsage { SumOver(u, CALLERS) }

  datatype Verdict = Passed | CallerCapExceeded(projected: real, cap: real) | RunCapExceeded(projected: real, cap: real)

  function Check(caps: Caps, u: Usage, caller: Caller, estimate: real): Verdict {
    var projected := UsageFor(u, caller).costUsd + estimate;
    if projected > CapFor(caps, caller) then CallerCapExceeded(projected, CapFor(caps, caller))
    else
      var totalProjected := Total(u).costUsd + estimate;
      if totalProjected > caps.run then RunCapExceeded(totalProjected, caps.run) else Passed
  }

  function Spend(u: Usage, caller: Caller, inputTokens: int, outputTokens: int, cost: real): Usage {
    u[caller := Plus(UsageFor(u, caller), LlmUsage(inputTokens, outputTokens, cost, 1))]
  }

  lemma PlusMoves(a: LlmUsage, b: LlmUsage, v: LlmUsage)
    ensures Plus(Plus(a, v), b) == Plus(Plus(a, b), v) && Plus(a, Plus(b, v)) == Plus(Plus(a, b), v)
  {}

  lemma {:induction false} UpdateAddsOnce(u: Usage, callers: seq<Caller>, caller: Caller, v: LlmUsage)
    requires NoDup(callers)
    ensures SumOver(u[caller := Plus(UsageFor(u, caller), v)], callers) ==
      if caller in callers then Plus(SumOver(u, callers), v) else SumOver(u, callers)
    decreases |callers|
  {
    if callers != [] {
      var n := |callers| - 1;
      assert callers == callers[..n] + [callers[n]];
      UpdateAddsOnce(u, callers[..n], caller, v);
      PlusMoves(SumOver(u, callers[..n]), UsageFor(u, callers[n]), v);
    }
  }

  lemma {:induction false} EmptyTotal(callers: seq<Caller>)
    ensures SumOver(map[], callers) == NOTHING
    decreases |callers|
  {
    if callers != [] { EmptyTotal(callers[..|callers| - 1]); }
  }

  /** Adding to one caller adds to the total. */
  lemma UpdateAdds(u: Usage, caller: Caller, v: LlmUsage)
    ensures Total(u[caller := Plus(UsageFor(u, caller), v)]) == Plus(Total(u), v)
  {
    UpdateAddsOnce(u, CALLERS, caller, v);
    assert CALLERS[0] == Planner && CALLERS[1] == Analyzer && CALLERS[2] == Healer && CALLERS[3] == Doctor && CALLERS[4] == Test;
  }

  // ----- calls in flight -----

  /** Checks and bookings of many calls, interleaved as concurrent callers may interleave them. */
  datatype Event =
    | Checked(id: nat, caller: Caller, estimate: real)
    | Added(id: nat, inputTokens: int, outputTokens: int, cost: real)

  /** A call between its check and its booking: what others have booked meanwhile, in all and under its own caller. */
  datatype Pending = Pending(caller: Caller, estimate: real, between: real, betweenSame: real)

  datatype Ledger = Ledger(usage: Usage, pending: map<nat, Pending>)

  predicate Legal(caps: Caps, l: Ledger, e: Event) {
    match e
    case Checked(id, caller, estimate) => id !in l.pending && Check(caps, l.usage, caller, estimate) == Passed
    case Added(id, _, _, _) => id in l.pending
  }

  function Booked(p: Pending, caller: Caller, cost: real): Pending {
    p.(between := p.between + cost, betweenSame := p.betweenSame + if p.caller == caller then cost else 0.0)
  }

  function Next(caps: Caps, l: Ledger, e: Event): Ledger
    requires Legal(caps, l, e)
  {
    match e
    case Checked(id, caller, estimate) => l.(pending := l.pending[id := Pending(caller, estimate, 0.0, 0.0)])
    case Added(id, inputTokens, outputTokens, cost) =>
      var caller := l.pending[id].caller;
      Ledger(Spend(l.usage, caller, inputTokens, outputTokens, cost),
             map k | k in l.pending && k != id :: Booked(l.pending[k], caller, cost))
  }

  /** Every pending call still fits, apart from what was booked since its check. */
  ghost predicate Inv(caps: Caps, l: Ledger) {
    forall id | id in l.pending ::
      var p := l.pending[id];
      && Total(l.usage).costUsd + p.estimate <= caps.run + p.between
      && UsageFor(l.usage, p.caller).costUsd + p.estimate <= CapFor(caps, p.caller) + p.betweenSame
  }

  /** A booking overshoots either cap by at most its own excess over the estimate, plus what was
      booked between its check and itself. */
  ghost predicate Bounded(caps: Caps, before: Ledger, e: Event, after: Ledger)
    requires e.Added? && e.id in before.pending
  {
    var p := before.pending[e.id];
    && Total(after.usage).costUsd <= caps.run + (e.cost - p.estimate) + p.between
    && UsageFor(after.usage, p.caller).costUsd <= CapFor(caps, p.caller) + (e.cost - p.estimate) + p.betweenSame
  }

  lemma NextKeepsInv(caps: Caps, l: Ledger, e: Event)
    requires Inv(caps, l) && Legal(caps, l, e)
    ensures Inv(caps, Next(caps, l, e))
    ensures e.Added? ==> Bounded(caps, l, e, Next(caps, l, e))
    ensures e.Added? ==> forall c | c != l.pending[e.id].caller :: UsageFor(Next(caps, l, e).usage, c) == UsageFor(l.usage, c)
  {
    if e.Added? { UpdateAdds(l.usage, l.pending[e.id].caller, LlmUsage(e.inputTokens, e.outputTokens, e.cost, 1)); }
  }

  function Play(caps: Caps, l: Ledger, run: seq<Event>): Option<Ledger>
    decreases |run|
  {
    if run == [] then Some(l)
    else if Legal(caps, l, run[0]) then Play(caps, Next(caps, l, run[0]), run[1..])
    else None
  }

  lemma {:induction false} PlayKeepsInv(caps: Caps, l: Ledger, run: seq<Event>)
    requires Inv(caps, l) && Play(caps, l, run).Some?
    ensures Inv(caps, Play(caps, l, run).value)
    decreases |run|
  {
    if run != [] {
      NextKeepsInv(caps, l, run[0]);
      PlayKeepsInv(caps, Next(caps, l, run[0]), run[1..]);
    }
  }

  /** Every booking of every interleaved run is bounded. */
  lemma EveryBookingBounded(caps: Caps, run: seq<Event>, last: Event)
    requires Play(caps, Ledger(map[], map[]), run).Some?
    requires last.Added? && Legal(caps, Play(caps, Ledger(map[], map[]), run).value, last)
    ensures var l := Play(caps, Ledger(map[], map[]), run).value; Bounded(caps, l, last, Next(caps, l, last))
  {
    PlayKeepsInv(caps, Ledger(map[], map[]), run);
    NextKeepsInv(caps, Play(caps, Ledger(map[], map[]), run).value, last);
  }

  /** What the bookings of a run cost, in all or those of one caller's calls. */
  function Cost(caps: Caps, l: Ledger, run: seq<Event>, of: Option<Caller>): real
    requires Play(caps, l, run).Some?
    decreases |run|
  {
    if run == [] then 0.0
    else
      var rest := Cost(caps, Next(caps, l, run[0]), run[1..], of);
      if run[0].Added? && (of.None? || l.pending[run[0].id].caller == of.value) then run[0].cost + rest else rest
  }

  /** A pending call's record holds what it was checked with and what was booked since, all told and for its caller. */
  lemma {:induction false} PendingTold(caps: Caps, l: Ledger, run: seq<Event>, id: nat)
    requires Play(caps, l, run).Some? && id in l.pending && forall e | e in run && e.Added? :: e.id != id
    ensures var p, end := l.pending[id], Play(caps, l, run).value;
      id in end.pending && end.pending[id] == Pending(p.caller, p.estimate,
        p.between + Cost(caps, l, run, None), p.betweenSame + Cost(caps, l, run, Some(p.caller)))
    decreases |run|
  {
    if run != [] {
      assert run[0] in run && forall e | e in run[1..] :: e in run;
      PendingTold(caps, Next(caps, l, run[0]), run[1..], id);
    }
  }

  /** A call checked after one run and booked after another overshoots each cap by at most its own excess over its
      estimate plus what the second run booked. */
  lemma OvershootTold(caps: Caps, run: seq<Event>, check: Event, meanwhile: seq<Event>, book: Event)
    requires check.Checked? && book.Added? && check.id == book.id && forall e | e in meanwhile && e.Added? :: e.id != check.id
    requires Play(caps, Ledger(map[], map[]), run).Some? && Legal(caps, Play(caps, Ledger(map[], map[]), run).value, check)
    requires Play(caps, Next(caps, Play(caps, Ledger(map[], map[]), run).value, check), meanwhile).Some?
    ensures var l := Next(caps, Play(caps, Ledger(map[], map[]), run).value, check);
      var before := Play(caps, l, meanwhile).value;
      && Legal(caps, before, book)
      && Total(Next(caps, before, book).usage).costUsd <= caps.run + book.cost - check.estimate + Cost(caps, l, meanwhile, None)
      && UsageFor(Next(caps, before, book).usage, check.caller).costUsd
         <= CapFor(caps, check.caller) + book.cost - check.estimate + Cost(caps, l, meanwhile, Some(check.caller))
  {
    var l0 := Play(caps, Ledger(map[], map[]), run).value;
    var l := Next(caps, l0, check);
    PlayKeepsInv(caps, Ledger(map[], map[]), run);
    NextKeepsInv(caps, l0, check);
    PlayKeepsInv(caps, l, meanwhile);
    PendingTold(caps, l, meanwhile, check.id);
    NextKeepsInv(caps, Play(caps, l, meanwhile).value, book);
  }

  // ----- calls one at a time -----

  datatype Call = Call(caller: Caller, estimate: real, inputTokens: int, outputTokens: int, cost: real)

  /** Each call is checked and booked before the next one is checked. */
  ghost predicate AllPass(caps: Caps, u: Usage, calls: seq<Call>)
    decreases |calls|
  {
    calls == [] || (Check(caps, u, calls[0].caller, calls[0].estimate) == Passed && AllPass(caps, After(u, calls[..1]), calls[1..]))
  }

  function After(u: Usage, calls: seq<Call>): Usage
    decreases |calls|
  {
    if calls == [] then u
    else After(Spend(u, calls[0].caller, calls[0].inputTokens, calls[0].outputTokens, calls[0].cost), calls[1..])
  }

  /** The excess of a caller's last call over its estimate; what it already had when it makes none. */
  function Excess(caps: Caps, u: Usage, calls: seq<Call>, c: Caller): real
    decreases |calls|
  {
    if calls == [] then UsageFor(u, c).costUsd - CapFor(caps, c)
    else
      var last := calls[|calls| - 1];
      if last.caller == c then last.cost - last.estimate else Excess(caps, u, calls[..|calls| - 1], c)
  }

  lemma {:induction false} AfterLast(u: Usage, calls: seq<Call>, last: Call)
    ensures After(u, calls + [last]) == Spend(After(u, calls), last.caller, last.inputTokens, last.outputTokens, last.cost)
    decreases |calls|
  {
    if calls == [] { assert calls + [last] == [last]; } else {
      assert (calls + [last])[1..] == calls[1..] + [last];
      AfterLast(After(u, calls[..1]), calls[1..], last);
      assert After(u, calls[..1]) == Spend(u, calls[0].caller, calls[0].inputTokens, calls[0].outputTokens, calls[0].cost);
    }
  }

  lemma {:induction false} AllPassLast(caps: Caps, u: Usage, calls: seq<Call>, last: Call)
    requires AllPass(caps, u, calls + [last])
    ensures AllPass(caps, u, calls) && Check(caps, After(u, calls), last.caller, last.estimate) == Passed
    decreases |calls|
  {
    if calls == [] { assert calls + [last] == [last]; } else {
      assert (calls + [last])[1..] == calls[1..] + [last] && (calls + [last])[..1] == calls[..1];
      AllPassLast(caps, After(u, calls[..1]), calls[1..], last);
      assert After(u, calls[..1]) == Spend(u, calls[0].caller, calls[0].inputTokens, calls[0].outputTokens, calls[0].cost);
    }
  }

  /** Calls one at a time: the run overshoots by at most the last call's excess, and each caller by its own last excess. */
  lemma {:induction false} CallsOneAtATime(caps: Caps, calls: seq<Call>, c: Caller)
    requires AllPass(caps, map[], calls) && calls != []
    ensures Total(After(map[], calls)).costUsd <= caps.run + calls[|calls| - 1].cost - calls[|calls| - 1].estimate
    ensures UsageFor(After(map[], calls), c).costUsd <= CapFor(caps, c) + Excess(caps, map[], calls, c)
    decreases |calls|
  {
    var n := |calls| - 1;
    var before, last := After(map[], calls[..n]), calls[n];
    assert calls == calls[..n] + [last];
    AllPassLast(caps, map[], calls[..n], last);
    AfterLast(map[], calls[..n], last);
    UpdateAdds(before, last.caller, LlmUsage(last.inputTokens, last.outputTokens, last.cost, 1));
    if last.caller != c && n > 0 { CallsOneAtATime(caps, calls[..n], c); }
  }

  /** If no call costs more than its estimate, no cap is ever passed. */
  lemma {:induction false} HonestEstimatesKeepCaps(caps: Caps, calls: seq<Call>, c: Caller)
    requires AllPass(caps, map[], calls) && forall call | call in calls :: call.cost <= call.estimate
    requires CapFor(caps, c) >= 0.0 && caps.run >= 0.0
    ensures Total(After(map[], calls)).costUsd <= caps.run
    ensures UsageFor(After(map[], calls), c).costUsd <= CapFor(caps, c)
  {
    if calls == [] {
      EmptyTotal(CALLERS);
    } else {
      assert calls[|calls| - 1] in calls;
      CallsOneAtATime(caps, calls, c);
      ExcessHonest(caps, calls, c);
    }
  }

  lemma {:induction false} ExcessHonest(caps: Caps, calls: seq<Call>, c: Caller)
    requires forall call | call in calls :: call.cost <= call.estimate
    requires CapFor(caps, c) >= 0.0
    ensures Excess(caps, map[], calls, c) <= 0.0
    decreases |calls|
  {
    if calls != [] {
      assert calls[|calls| - 1] in calls;
      assert forall call | call in calls[..|calls| - 1] :: call in calls;
      ExcessHonest(caps, calls[..|calls| - 1], c);
    }
  }

  /** Two calls checked before either is booked can pass the cap although both estimates were exact. */
  lemma InFlightCallsOvershoot(cap: real)
    requires cap > 0.0
    ensures var caps := Caps(cap, None, None, None);
      var a := Ledger(map[], map[]);
      Legal(caps, a, Checked(0, Planner, cap)) &&
      (var b := Next(caps, a, Checked(0, Planner, cap));
       Legal(caps, b, Checked(1, Analyzer, cap)) &&
       (var c := Next(caps, b, Checked(1, Analyzer, cap));
        Legal(caps, c, Added(0, 0, 0, cap)) &&
        (var d := Next(caps, c, Added(0, 0, 0, cap));
         Legal(caps, d, Added(1, 0, 0, cap)) &&
         Total(Next(caps, d, Added(1, 0, 0, cap)).usage).costUsd == cap + cap)))
  {
    EmptyTotal(CALLERS);
    UpdateAdds(map[], Planner, LlmUsage(0, 0, cap, 1));
    UpdateAdds(Spend(map[], Planner, 0, 0, cap), Analyzer, LlmUsage(0, 0, cap, 1));
  }

  // ----- the class -----

  class LlmBudget {
    const caps: Caps
    var byCaller: Usage

    constructor (caps: Caps)
      ensures this.caps == caps && byCaller == map[]
    {
      this.caps := caps;
      byCaller := map[];
    }

    /** Sums the recorded callers in whatever order they come. */
    method TotalUsage() returns (out: LlmUsage)
      ensures out == Total(byCaller)
    {
      out := NOTHING;
      var todo := byCaller.Keys;
      ghost var done: Usage := map[];
      EmptyTotal(CALLERS);
      while todo != {}
        invariant todo <= byCaller.Keys && done == byCaller - todo
        invariant out == Total(done)
      {
        var c :| c in todo;
        UpdateAdds(done, c, byCaller[c]);
        assert Plus(UsageFor(done, c), byCaller[c]) == byCaller[c];
        done := done[c := byCaller[c]];
        assert done == byCaller - (todo - {c});
        out := Plus(out, byCaller[c]);
        todo := todo - {c};
      }
      assert byCaller - {} == byCaller;
    }

    method PreCheck(caller: Caller, estimate: real) returns (v: Verdict)
      ensures v == Check(caps, byCaller, caller, estimate)
    {
      var cap := CapFor(caps, caller);
      var projected := UsageFor(byCaller, caller).costUsd + estimate;
      if projected > cap { return CallerCapExceeded(projected, cap); }
      var total := TotalUsage();
      var totalProjected := total.costUsd + estimate;
      if totalProjected > caps.run { return RunCapExceeded(totalProjected, caps.run); }
      v := Passed;
    }

    method Add(caller: Caller, inputTokens: int, outputTokens: int, cost: real)
      modifies this
      ensures byCaller == Spend(old(byCaller), caller, inputTokens, outputTokens, cost)
      ensures Total(byCaller) == Plus(Total(old(byCaller)), LlmUsage(inputTokens, outputTokens, cost, 1))
    {
      UpdateAdds(byCaller, caller, LlmUsage(inputTokens, outputTokens, cost, 1));
      byCaller := byCaller[caller := Plus(UsageFor(byCaller, caller), LlmUsage(inputTokens, outputTokens, cost, 1))];
    }
  }
}
