/** When calls in flight respect the caps of engine/llm/budget.py:148-184: exactly while what is spent and what
    is still estimated fit together. */
module BudgetInFlight {
  import opened Budget
  import opened Wrappers

  /** The whole run, or one caller. */
  type Scope = Option<Caller>

  predicate In(scope: Scope, c: Caller) { scope.None? || scope.value == c }

  function Spent(u: Usage, scope: Scope): real { if scope.None? then Total(u).costUsd else UsageFor(u, scope.value).costUsd }

  function CapOf(caps: Caps, scope: Scope): real { if scope.None? then caps.run else CapFor(caps, scope.value) }

  // ----- estimates still out -----

  ghost function SumOf(ids: set<nat>, pending: map<nat, Pending>): real
    requires ids <= pending.Keys
  {
    if ids == {} then 0.0 else var id :| id in ids; pending[id].estimate + SumOf(ids - {id}, pending)
  }

  lemma {:induction false} SumWithout(ids: set<nat>, pending: map<nat, Pending>, id: nat)
    requires ids <= pending.Keys && id in ids
    ensures SumOf(ids, pending) == pending[id].estimate + SumOf(ids - {id}, pending)
  {
    var first :| first in ids && SumOf(ids, pending) == pending[first].estimate + SumOf(ids - {first}, pending);
    if first != id {
      SumWithout(ids - {first}, pending, id);
      SumWithout(ids - {id}, pending, first);
      assert ids - {first} - {id} == ids - {id} - {first};
    }
  }

  lemma {:induction false} SumAgrees(ids: set<nat>, p: map<nat, Pending>, q: map<nat, Pending>)
    requires ids <= p.Keys && ids <= q.Keys && forall id | id in ids :: p[id].estimate == q[id].estimate
    ensures SumOf(ids, p) == SumOf(ids, q)
  {
    if ids != {} {
      var id :| id in ids;
      SumWithout(ids, p, id);
      SumWithout(ids, q, id);
      SumAgrees(ids - {id}, p, q);
    }
  }

  lemma {:induction false} SumNonNegative(ids: set<nat>, pending: map<nat, Pending>)
    requires ids <= pending.Keys && forall id | id in ids :: pending[id].estimate >= 0.0
    ensures SumOf(ids, pending) >= 0.0
  {
    if ids != {} {
      var id :| id in ids;
      SumWithout(ids, pending, id);
      SumNonNegative(ids - {id}, pending);
    }
  }

  ghost function Out(l: Ledger, scope: Scope): set<nat> { set id | id in l.pending && In(scope, l.pending[id].caller) }

  /** Spent and still estimated. */
  ghost function Committed(l: Ledger, scope: Scope): real { Spent(l.usage, scope) + SumOf(Out(l, scope), l.pending) }

  ghost predicate NonNegative(l: Ledger) { forall id | id in l.pending :: l.pending[id].estimate >= 0.0 }

  // ----- completions -----

  /** Bookings of pending calls, none above its estimate. */
  ghost predicate Honest(caps: Caps, l: Ledger, run: seq<Event>)
    decreases |run|
  {
    run == [] ||
    (run[0].Added? && Legal(caps, l, run[0]) && run[0].cost <= l.pending[run[0].id].estimate && Honest(caps, Next(caps, l, run[0]), run[1..]))
  }

  /** A booking moves its estimate from the one sum to the other, as its cost. */
  lemma AddedCommits(caps: Caps, l: Ledger, e: Event, scope: Scope)
    requires e.Added? && Legal(caps, l, e)
    ensures var p := l.pending[e.id];
      Committed(Next(caps, l, e), scope) == Committed(l, scope) + if In(scope, p.caller) then e.cost - p.estimate else 0.0
  {
    var p, t := l.pending[e.id], Next(caps, l, e);
    UpdateAdds(l.usage, p.caller, LlmUsage(e.inputTokens, e.outputTokens, e.cost, 1));
    assert Out(t, scope) == Out(l, scope) - {e.id};
    SumAgrees(Out(t, scope), l.pending, t.pending);
    if In(scope, p.caller) { SumWithout(Out(l, scope), l.pending, e.id); } else { assert Out(t, scope) == Out(l, scope); }
  }

  lemma {:induction false} HonestStaysWithin(caps: Caps, l: Ledger, run: seq<Event>, scope: Scope)
    requires Honest(caps, l, run) && NonNegative(l)
    ensures Play(caps, l, run).Some?
    ensures Spent(Play(caps, l, run).value.usage, scope) <= Committed(l, scope)
    decreases |run|
  {
    if run == [] {
      SumNonNegative(Out(l, scope), l.pending);
    } else {
      AddedCommits(caps, l, run[0], scope);
      HonestStaysWithin(caps, Next(caps, l, run[0]), run[1..], scope);
    }
  }

  /** Every pending call booked at exactly its estimate. */
  lemma {:induction false} AllAtEstimate(caps: Caps, l: Ledger, scope: Scope) returns (run: seq<Event>)
    ensures Honest(caps, l, run) && Play(caps, l, run).Some?
    ensures Spent(Play(caps, l, run).value.usage, scope) == Committed(l, scope)
    decreases l.pending.Keys
  {
    if l.pending.Keys == {} {
      run := [];
      assert Out(l, scope) == {};
    } else {
      var id :| id in l.pending;
      var e := Added(id, 0, 0, l.pending[id].estimate);
      var t := Next(caps, l, e);
      AddedCommits(caps, l, e, scope);
      assert t.pending.Keys == l.pending.Keys - {id};
      var rest := AllAtEstimate(caps, t, scope);
      run := [e] + rest;
      assert run[1..] == rest;
    }
  }

  /** Every honest completion keeps the cap. */
  ghost predicate CompletionsFit(caps: Caps, l: Ledger, scope: Scope) {
    forall run :: Honest(caps, l, run) && Play(caps, l, run).Some? ==>
      Spent(Play(caps, l, run).value.usage, scope) <= CapOf(caps, scope)
  }

  /** Every honest completion of the calls in flight keeps the run's cap, or a caller's, exactly when what is
      spent and what is estimated for the pending calls fit it together. */
  lemma InFlightFitsIff(caps: Caps, l: Ledger, scope: Scope)
    requires NonNegative(l)
    ensures CompletionsFit(caps, l, scope) <==> Committed(l, scope) <= CapOf(caps, scope)
  {
    if Committed(l, scope) <= CapOf(caps, scope) {
      forall run | Honest(caps, l, run) && Play(caps, l, run).Some?
        ensures Spent(Play(caps, l, run).value.usage, scope) <= CapOf(caps, scope)
      {
        HonestStaysWithin(caps, l, run, scope);
      }
    } else {
      var run := AllAtEstimate(caps, l, scope);
    }
  }

  // ----- whole runs -----

  ghost predicate Sensible(run: seq<Event>) { forall e | e in run :: e.Checked? ==> e.estimate >= 0.0 }

  lemma {:induction false} PrefixPlays(caps: Caps, l: Ledger, run: seq<Event>, k: nat)
    requires k <= |run| && Play(caps, l, run).Some? && NonNegative(l) && Sensible(run)
    ensures Play(caps, l, run[..k]).Some? && NonNegative(Play(caps, l, run[..k]).value)
    decreases |run|
  {
    if k > 0 {
      assert run[0] in run && forall e | e in run[1..] :: e in run;
      assert run[..k][1..] == run[1..][..k - 1];
      PrefixPlays(caps, Next(caps, l, run[0]), run[1..], k - 1);
    }
  }

  const NOTHING_YET := Ledger(map[], map[])

  /** At no point of a run of interleaved calls can honest bookings of the calls then pending pass the cap,
      exactly when at every point what is spent and estimated fits it. */
  lemma RunFitsIff(caps: Caps, run: seq<Event>, scope: Scope)
    requires Play(caps, NOTHING_YET, run).Some? && Sensible(run)
    ensures forall k | 0 <= k <= |run| :: Play(caps, NOTHING_YET, run[..k]).Some?
    ensures (forall k | 0 <= k <= |run| :: CompletionsFit(caps, Play(caps, NOTHING_YET, run[..k]).value, scope))
      <==> forall k | 0 <= k <= |run| :: Committed(Play(caps, NOTHING_YET, run[..k]).value, scope) <= CapOf(caps, scope)
  {
    forall k | 0 <= k <= |run|
      ensures Play(caps, NOTHING_YET, run[..k]).Some?
      ensures var l := Play(caps, NOTHING_YET, run[..k]).value;
        CompletionsFit(caps, l, scope) <==> Committed(l, scope) <= CapOf(caps, scope)
    {
      PrefixPlays(caps, NOTHING_YET, run, k);
      InFlightFitsIff(caps, Play(caps, NOTHING_YET, run[..k]).value, scope);
    }
  }

  /** So the check falls short by what is pending: passing it keeps the cap safe in every honest completion
      exactly when the estimates already out leave room too. */
  lemma PassingCheckFitsIff(caps: Caps, l: Ledger, id: nat, caller: Caller, estimate: real, scope: Scope)
    requires NonNegative(l) && estimate >= 0.0 && Legal(caps, l, Checked(id, caller, estimate))
    ensures CompletionsFit(caps, Next(caps, l, Checked(id, caller, estimate)), scope) <==>
      Committed(l, scope) + (if In(scope, caller) then estimate else 0.0) <= CapOf(caps, scope)
  {
    var t := Next(caps, l, Checked(id, caller, estimate));
    InFlightFitsIff(caps, t, scope);
    SumAgrees(Out(l, scope), l.pending, t.pending);
    if In(scope, caller) {
      SumWithout(Out(t, scope), t.pending, id);
      assert Out(t, scope) - {id} == Out(l, scope);
    } else {
      assert Out(t, scope) == Out(l, scope);
    }
  }
}
