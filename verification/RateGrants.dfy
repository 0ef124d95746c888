/** When the rate limiter grants at all (engine/llm/rate_limit.py:17-54, 66-96): the first call to a provider
    succeeds, a provider is ever granted, and how long to wait. */
module RateGrants {
  import opened Wrappers
  import opened RateLimit

  // ----- one bucket -----

  /** A bucket that can still grant a token. */
  predicate Live(b: Bucket) { b.capacity >= 1 && (b.tokens >= 1.0 || b.ratePerMinute > 0.0) }

  lemma EarnsOneToken(rate: real, elapsed: real)
    requires rate > 0.0 && elapsed >= 60.0 / rate
    ensures Earned(rate, elapsed) >= 1.0
  {
    EarnedMonotone(rate, 60.0 / rate, elapsed);
    assert Earned(rate, 60.0 / rate) == rate / 60.0 * (60.0 / rate) == 1.0;
  }

  /** A new bucket is full, so it grants whatever its capacity covers. */
  lemma FullGrantsIff(capacity: int, rate: real, created: real, a: Attempt)
    requires rate >= 0.0 && a.now >= created
    ensures Grants(Full(capacity, rate, created), a) <==> a.tokens <= capacity
  {
    EarnedNonNegative(rate, a.now - created);
  }

  /** A live bucket grants a token once it has earned one, however little is left. */
  lemma LiveGrants(b: Bucket, now: real)
    requires Sane(b) && Live(b) && now >= b.lastRefill && (b.tokens < 1.0 ==> now - b.lastRefill >= 60.0 / b.ratePerMinute)
    ensures Grants(b, Attempt(now, 1))
  {
    if b.tokens < 1.0 {
      EarnsOneToken(b.ratePerMinute, now - b.lastRefill);
      assert 60.0 / b.ratePerMinute > 0.0;
    } else {
      EarnedNonNegative(b.ratePerMinute, now - b.lastRefill);
    }
  }

  lemma DeadRefuses(b: Bucket, now: real)
    requires Sane(b) && !Live(b)
    ensures !Grants(b, Attempt(now, 1)) && !Live(Consume(b, Attempt(now, 1)))
  {
    if b.ratePerMinute == 0.0 { assert Earned(b.ratePerMinute, now - b.lastRefill) == 0.0; }
  }

  ghost predicate Singles(run: seq<Attempt>) { forall a | a in run :: a.tokens == 1 }

  lemma {:induction false} DeadStaysDead(b: Bucket, run: seq<Attempt>)
    requires Sane(b) && !Live(b) && Singles(run)
    ensures true !in Outcomes(b, run)
    decreases |run|
  {
    if run != [] {
      var a := run[0];
      assert a in run && a == Attempt(a.now, 1) && Singles(run[1..]);
      DeadRefuses(b, a.now);
      ConsumeSane(b, a);
      DeadStaysDead(Consume(b, a), run[1..]);
    }
  }

  lemma OneAttempt(b: Bucket, a: Attempt)
    requires a.now >= b.lastRefill && a.tokens >= 0
    ensures Monotonic(b.lastRefill, [a]) && Outcomes(b, [a]) == [Grants(b, a)]
  {
    assert [a][1..] == [] && Monotonic(a.now, []);
    assert Outcomes(Consume(b, a), []) == [];
  }

  /** Some run of single calls is granted something exactly when the capacity is at least 1 and there is a token, or a
      positive rate to earn one. */
  lemma EverGrantsIff(b: Bucket)
    requires Sane(b)
    ensures (exists run :: Singles(run) && Monotonic(b.lastRefill, run) && true in Outcomes(b, run)) <==> Live(b)
  {
    if Live(b) {
      var now := if b.tokens >= 1.0 then b.lastRefill else b.lastRefill + 60.0 / b.ratePerMinute;
      if b.tokens < 1.0 { assert 60.0 / b.ratePerMinute > 0.0; }
      LiveGrants(b, now);
      OneAttempt(b, Attempt(now, 1));
      assert Singles([Attempt(now, 1)]) && Outcomes(b, [Attempt(now, 1)])[0];
    } else if run :| Singles(run) && Monotonic(b.lastRefill, run) && true in Outcomes(b, run) {
      DeadStaysDead(b, run);
    }
  }

  /** Whatever was asked before, a call `60 / rate` after the last one is granted, if the capacity allows any. */
  lemma WaitingSuffices(b: Bucket, before: seq<Attempt>, now: real)
    requires Sane(b) && b.capacity >= 1 && b.ratePerMinute > 0.0 && Monotonic(b.lastRefill, before)
    requires now >= LastTime(b.lastRefill, before) + 60.0 / b.ratePerMinute
    ensures Grants(Run(b, before), Attempt(now, 1))
  {
    RunSane(b, before);
    assert 60.0 / b.ratePerMinute > 0.0;
    LiveGrants(Run(b, before), now);
  }

  // ----- a provider -----

  /** The bucket a provider's next call meets, made on first use. */
  function Met(d: Defaults, b: Option<Bucket>, created: real): Bucket {
    if b.Some? then b.value else Full(d.capacity, d.ratePerMinute, created)
  }

  lemma MetLive(d: Defaults, b: Option<Bucket>, created: real, created': real)
    ensures Live(Met(d, b, created)) <==> Live(Met(d, b, created'))
  {}

  /** A policy lets its provider through exactly when its capacity, given or its rate without the fraction, is at least 1. */
  lemma PolicyLiveIff(rate: real, capacity: Option<int>, created: real)
    ensures Live(PolicyBucket(rate, capacity, created)) <==> if capacity.Some? then capacity.value >= 1 else rate >= 1.0
  {}

  lemma SinglesAttempts(run: seq<Event>)
    requires OnlyEnforces(run)
    ensures Singles(Attempts(run))
  {
    if run != [] {
      assert run[0] in run && forall e | e in run[1..] :: e in run;
      SinglesAttempts(run[1..]);
    }
  }

  lemma AloneDead(d: Defaults, b: Option<Bucket>, run: seq<Event>, from: real)
    requires d.capacity >= 0 && d.ratePerMinute >= 0.0 && Kept(b, from) && OnlyEnforces(run) && !Live(Met(d, b, from))
    ensures true !in Alone(d, b, run)
  {
    if run != [] {
      assert run[0] in run;
      var bucket := Met(d, b, run[0].created);
      MetLive(d, b, from, run[0].created);
      assert Alone(d, b, run) == Alone(d, Some(bucket), run);
      AloneIsBucket(d, bucket, run);
      SinglesAttempts(run);
      DeadStaysDead(bucket, Attempts(run));
    }
  }

  /** One call, made when the provider's bucket has had time to earn a token. */
  function Waited(d: Defaults, b: Option<Bucket>, p: string, from: real): Event {
    var bucket := Met(d, b, from);
    Enforce(p, from, if bucket.tokens >= 1.0 || bucket.ratePerMinute <= 0.0 then from else from + 60.0 / bucket.ratePerMinute)
  }

  lemma WaitedGranted(d: Defaults, b: Option<Bucket>, p: string, from: real)
    requires d.capacity >= 0 && d.ratePerMinute >= 0.0 && Kept(b, from) && Live(Met(d, b, from))
    ensures Touch(d, b, Waited(d, b, p, from)).1 && Waited(d, b, p, from).now >= from
  {
    var bucket, e := Met(d, b, from), Waited(d, b, p, from);
    if bucket.tokens < 1.0 { assert 60.0 / bucket.ratePerMinute > 0.0; }
    LiveGrants(bucket, e.now);
  }

  /** Traffic in which `p` only calls, after `before`. */
  ghost predicate Calls(before: seq<Event>, window: seq<Event>, p: string, from: real) {
    Ticks(EndOf(from, Project(before, p)), Project(window, p)) && OnlyEnforces(Project(window, p))
  }

  lemma OneCall(d: Defaults, m: map<string, Bucket>, before: seq<Event>, e: Event, from: real)
    requires e.Enforce? && EndOf(from, Project(before, e.provider)) <= e.created <= e.now
    ensures Calls(before, [e], e.provider, from) && OutcomesOf(d, m, [e], e.provider) == [Touch(d, Lookup(m, e.provider), e).1]
  {
    assert [e][1..] == [];
    assert Project([e], e.provider) == [e];
    assert OnlyEnforces([e]) && Ticks(e.now, []);
    assert OutcomesOf(d, Apply(d, m, e), [], e.provider) == [];
  }

  /** After any traffic of any providers, some further traffic in which its policy is not replaced grants a provider
      something exactly when the bucket it meets is live; else it is refused for ever. */
  lemma ProviderGrantedIff(d: Defaults, before: seq<Event>, p: string, from: real)
    requires d.capacity >= 0 && d.ratePerMinute >= 0.0 && Ticks(from, Project(before, p))
    ensures var m := ApplyAll(d, map[], before);
      (exists window :: Calls(before, window, p, from) && true in OutcomesOf(d, m, window, p)) <==> Live(Met(d, Lookup(m, p), from))
  {
    var m, until := ApplyAll(d, map[], before), EndOf(from, Project(before, p));
    ReachableIsKept(d, map[], before, p, from);
    MetLive(d, Lookup(m, p), from, until);
    if Live(Met(d, Lookup(m, p), until)) {
      var e := Waited(d, Lookup(m, p), p, until);
      WaitedGranted(d, Lookup(m, p), p, until);
      OneCall(d, m, before, e, from);
      assert OutcomesOf(d, m, [e], p)[0];
    } else {
      forall window | Calls(before, window, p, from) ensures true !in OutcomesOf(d, m, window, p) {
        ProvidersAreIndependent(d, m, window, p);
        AloneDead(d, Lookup(m, p), Project(window, p), until);
      }
    }
  }
}
