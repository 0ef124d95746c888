/** engine/llm/rate_limit.py: one token bucket per provider.  Clock readings are
    arguments; reals stand for floats. */
module RateLimit {
  import opened Wrappers

  // ----- one bucket, as a value -----

  datatype Bucket = Bucket(capacity: int, ratePerMinute: real, tokens: real, lastRefill: real)

  function Full(capacity: int, ratePerMinute: real, created: real): Bucket {
    Bucket(capacity, ratePerMinute, capacity as real, created)
  }

  function Min(a: real, b: real): real { if a < b then a else b }

  function Earned(ratePerMinute: real, elapsed: real): real { ratePerMinute / 60.0 * elapsed }

  function Refill(b: Bucket, now: real): Bucket {
    if now - b.lastRefill <= 0.0 then b
    else b.(tokens := Min(b.capacity as real, b.tokens + Earned(b.ratePerMinute, now - b.lastRefill)), lastRefill := now)
  }

  datatype Attempt = Attempt(now: real, tokens: int)

  predicate Grants(b: Bucket, a: Attempt) { Refill(b, a.now).tokens >= a.tokens as real }

  function Consume(b: Bucket, a: Attempt): Bucket {
    var r := Refill(b, a.now);
    if Grants(b, a) then r.(tokens := r.tokens - a.tokens as real) else r
  }

  function Run(b: Bucket, run: seq<Attempt>): Bucket
    decreases |run|
  {
    if run == [] then b else Run(Consume(b, run[0]), run[1..])
  }

  function Outcomes(b: Bucket, run: seq<Attempt>): (r: seq<bool>)
    ensures |r| == |run|
    decreases |run|
  {
    if run == [] then [] else [Grants(b, run[0])] + Outcomes(Consume(b, run[0]), run[1..])
  }

  /** Tokens granted over a run. */
  function Granted(b: Bucket, run: seq<Attempt>): int
    decreases |run|
  {
    if run == [] then 0 else (if Grants(b, run[0]) then run[0].tokens else 0) + Granted(Consume(b, run[0]), run[1..])
  }

  ghost predicate Sane(b: Bucket) { b.ratePerMinute >= 0.0 && 0.0 <= b.tokens <= b.capacity as real }

  /** A monotonic clock, and requests for a non-negative number of tokens. */
  ghost predicate Monotonic(from: real, run: seq<Attempt>)
    decreases |run|
  {
    run == [] || (run[0].now >= from && run[0].tokens >= 0 && Monotonic(run[0].now, run[1..]))
  }

  function LastTime(from: real, run: seq<Attempt>): real
    decreases |run|
  {
    if run == [] then from else LastTime(run[0].now, run[1..])
  }

  lemma EarnedAdds(rate: real, a: real, b: real)
    ensures Earned(rate, a + b) == Earned(rate, a) + Earned(rate, b)
  {}

  lemma EarnedNonNegative(rate: real, a: real)
    requires rate >= 0.0 && a >= 0.0
    ensures Earned(rate, a) >= 0.0
  {}

  lemma ConsumeSane(b: Bucket, a: Attempt)
    requires Sane(b) && a.tokens >= 0
    ensures Sane(Consume(b, a))
  {
    if a.now > b.lastRefill { EarnedNonNegative(b.ratePerMinute, a.now - b.lastRefill); }
  }

  /** What is granted and what is left never exceed what was there plus what was earned. */
  lemma {:induction false} TokensConserved(b: Bucket, run: seq<Attempt>)
    requires Sane(b) && Monotonic(b.lastRefill, run)
    ensures Granted(b, run) as real + Run(b, run).tokens
         <= b.tokens + Earned(b.ratePerMinute, LastTime(b.lastRefill, run) - b.lastRefill)
    ensures Sane(Run(b, run)) && LastTime(b.lastRefill, run) >= b.lastRefill
    decreases |run|
  {
    if run == [] {
      assert Earned(b.ratePerMinute, 0.0) == 0.0;
    } else {
      var c := Consume(b, run[0]);
      ConsumeSane(b, run[0]);
      TokensConserved(c, run[1..]);
      EarnedAdds(b.ratePerMinute, run[0].now - b.lastRefill, LastTime(run[0].now, run[1..]) - run[0].now);
      EarnedNonNegative(b.ratePerMinute, run[0].now - b.lastRefill);
    }
  }

  lemma {:induction false} RunSane(b: Bucket, run: seq<Attempt>)
    requires Sane(b) && Monotonic(b.lastRefill, run)
    ensures Sane(Run(b, run)) && Run(b, run).lastRefill == LastTime(b.lastRefill, run)
    ensures Run(b, run).capacity == b.capacity && Run(b, run).ratePerMinute == b.ratePerMinute
    decreases |run|
  {
    if run != [] {
      ConsumeSane(b, run[0]);
      RunSane(Consume(b, run[0]), run[1..]);
    }
  }

  lemma {:induction false} MonotonicSplit(from: real, a: seq<Attempt>, c: seq<Attempt>)
    requires Monotonic(from, a + c)
    ensures Monotonic(from, a) && Monotonic(LastTime(from, a), c)
    decreases |a|
  {
    if a == [] { assert a + c == c; } else {
      assert (a + c)[1..] == a[1..] + c;
      MonotonicSplit(a[0].now, a[1..], c);
    }
  }

  /** Refilling just before the first attempt changes nothing. */
  lemma RefillFirst(s: Bucket, window: seq<Attempt>)
    requires Sane(s) && window != [] && window[0].now >= s.lastRefill
    ensures var t := Refill(s, window[0].now);
      && Sane(t) && t.lastRefill == window[0].now && t.capacity == s.capacity && t.ratePerMinute == s.ratePerMinute
      && Granted(s, window) == Granted(t, window)
  {
    var t := Refill(s, window[0].now);
    if window[0].now > s.lastRefill { EarnedNonNegative(s.ratePerMinute, window[0].now - s.lastRefill); }
    assert Refill(t, window[0].now) == t;
    assert Consume(s, window[0]) == Consume(t, window[0]) && Grants(s, window[0]) == Grants(t, window[0]);
  }

  lemma EarnedMonotone(rate: real, a: real, b: real)
    requires rate >= 0.0 && a <= b
    ensures Earned(rate, a) <= Earned(rate, b)
  {
    EarnedAdds(rate, a, b - a);
    EarnedNonNegative(rate, b - a);
  }

  lemma WindowFrom(t: Bucket, window: seq<Attempt>, d: real)
    requires Sane(t) && Monotonic(t.lastRefill, window) && LastTime(t.lastRefill, window) - t.lastRefill <= d
    ensures Granted(t, window) as real <= t.capacity as real + Earned(t.ratePerMinute, d)
  {
    TokensConserved(t, window);
    EarnedMonotone(t.ratePerMinute, LastTime(t.lastRefill, window) - t.lastRefill, d);
  }

  /** In any window of any run the bucket grants at most its capacity plus what the window earns. */
  lemma WindowBound(b: Bucket, before: seq<Attempt>, window: seq<Attempt>, d: real)
    requires Sane(b) && Monotonic(b.lastRefill, before + window) && window != []
    requires LastTime(window[0].now, window) - window[0].now <= d
    ensures Granted(Run(b, before), window) as real <= b.capacity as real + Earned(b.ratePerMinute, d)
  {
    MonotonicSplit(b.lastRefill, before, window);
    RunSane(b, before);
    RefillFirst(Run(b, before), window);
    WindowFrom(Refill(Run(b, before), window[0].now), window, d);
  }

  /** Refilling on the way makes no difference to a later refill. */
  lemma RefillTwice(b: Bucket, early: real, late: real)
    requires b.ratePerMinute >= 0.0 && b.lastRefill <= early <= late && b.tokens <= b.capacity as real
    ensures Refill(Refill(b, early), late) == Refill(b, late)
  {
    EarnedAdds(b.ratePerMinute, early - b.lastRefill, late - early);
    EarnedNonNegative(b.ratePerMinute, early - b.lastRefill);
    EarnedNonNegative(b.ratePerMinute, late - early);
  }

  /** The elements to keep. */
  function Thin<T>(s: seq<T>, keep: seq<bool>): seq<T>
    requires |keep| == |s|
  {
    if s == [] then [] else (if keep[0] then [s[0]] else []) + Thin(s[1..], keep[1..])
  }

  lemma {:induction false} ThinCons<T>(s: seq<T>, keep: seq<bool>)
    requires |keep| == |s| && s != []
    ensures keep[0] ==> Thin(s, keep) == [s[0]] + Thin(s[1..], keep[1..])
    ensures !keep[0] ==> Thin(s, keep) == Thin(s[1..], keep[1..])
  {}

  /** `b` is what `c` becomes by refilling alone. */
  ghost predicate Refilled(b: Bucket, c: Bucket) { Sane(c) && c.lastRefill <= b.lastRefill && b == Refill(c, b.lastRefill) }

  lemma MissedStep(b: Bucket, c: Bucket, a: Attempt)
    requires Refilled(b, c) && a.now >= b.lastRefill && a.tokens >= 0
    ensures Grants(b, a) == Grants(c, a) && Consume(b, a) == Consume(c, a) && Consume(b, a).lastRefill == a.now
    ensures Refilled(Consume(b, a), Consume(c, a)) && (!Grants(b, a) ==> Refilled(Consume(b, a), c))
  {
    RefillTwice(c, b.lastRefill, a.now);
    ConsumeSane(c, a);
  }

  lemma OutcomesCons(b: Bucket, run: seq<Attempt>)
    requires run != []
    ensures Outcomes(b, run)[0] == Grants(b, run[0]) && Outcomes(b, run)[1..] == Outcomes(Consume(b, run[0]), run[1..])
  {}

  lemma OutcomesKept(c: Bucket, a: Attempt, rest: seq<Attempt>)
    ensures Outcomes(c, [a] + rest) == [Grants(c, a)] + Outcomes(Consume(c, a), rest)
  {
    assert ([a] + rest)[0] == a && ([a] + rest)[1..] == rest;
  }

  /** A bucket that missed refused attempts behaves as one that saw them. */
  lemma {:induction false} MissedRefusals(b: Bucket, c: Bucket, run: seq<Attempt>, keep: seq<bool>)
    requires Refilled(b, c) && Monotonic(b.lastRefill, run)
    requires |keep| == |run| && forall i | 0 <= i < |run| && !keep[i] :: !Outcomes(b, run)[i]
    ensures Outcomes(c, Thin(run, keep)) == Thin(Outcomes(b, run), keep)
    decreases |run|
  {
    if run != [] {
      var a, rest := run[0], Outcomes(b, run)[1..];
      MissedStep(b, c, a);
      OutcomesCons(b, run);
      forall i | 0 <= i < |rest| && !keep[1..][i] ensures !rest[i] { assert !keep[i + 1] && !Outcomes(b, run)[i + 1]; }
      ThinCons(run, keep);
      ThinCons(Outcomes(b, run), keep);
      MissedRefusals(Consume(b, a), if keep[0] then Consume(c, a) else c, run[1..], keep[1..]);
      if keep[0] { OutcomesKept(c, a, Thin(run[1..], keep[1..])); }
    }
  }

  /** Deleting any of the refused attempts of a run changes no other outcome. */
  lemma RefusalsLeaveNoTrace(b: Bucket, run: seq<Attempt>, keep: seq<bool>)
    requires Sane(b) && Monotonic(b.lastRefill, run)
    requires |keep| == |run| && forall i | 0 <= i < |run| && !keep[i] :: !Outcomes(b, run)[i]
    ensures Outcomes(b, Thin(run, keep)) == Thin(Outcomes(b, run), keep)
  {
    MissedRefusals(b, b, run, keep);
  }

  // ----- one bucket per provider -----

  datatype Event =
    | Enforce(provider: string, created: real, now: real)
    | SetPolicy(provider: string, created: real, ratePerMinute: real, capacity: Option<int>)

  datatype Defaults = Defaults(capacity: int, ratePerMinute: real)

  /** `int()` truncates toward zero. */
  function Truncate(x: real): int { if x >= 0.0 then x.Floor else -((-x).Floor) }

  /** Toward zero: by less than one, and never past it. */
  lemma TruncateTold(x: real)
    ensures var n := Truncate(x) as real; (x >= 0.0 ==> 0.0 <= n <= x < n + 1.0) && (x <= 0.0 ==> n - 1.0 < x <= n <= 0.0)
  {}

  function PolicyBucket(ratePerMinute: real, capacity: Option<int>, created: real): Bucket {
    Full(if capacity.Some? then capacity.value else Truncate(ratePerMinute), ratePerMinute, created)
  }

  /** What an event does to its own provider's bucket, made on first use. */
  function Touch(d: Defaults, b: Option<Bucket>, e: Event): (Bucket, bool) {
    match e
    case SetPolicy(_, created, rate, capacity) => (PolicyBucket(rate, capacity, created), true)
    case Enforce(_, created, now) =>
      var bucket := if b.Some? then b.value else Full(d.capacity, d.ratePerMinute, created);
      (Consume(bucket, Attempt(now, 1)), Grants(bucket, Attempt(now, 1)))
  }

  function Lookup(m: map<string, Bucket>, p: string): Option<Bucket> { if p in m then Some(m[p]) else None }

  function Apply(d: Defaults, m: map<string, Bucket>, e: Event): map<string, Bucket> {
    m[e.provider := Touch(d, Lookup(m, e.provider), e).0]
  }

  /** The outcomes of `p`'s events in an interleaved run. */
  function OutcomesOf(d: Defaults, m: map<string, Bucket>, run: seq<Event>, p: string): seq<bool>
    decreases |run|
  {
    if run == [] then []
    else
      (if run[0].provider == p then [Touch(d, Lookup(m, p), run[0]).1] else [])
      + OutcomesOf(d, Apply(d, m, run[0]), run[1..], p)
  }

  function Project(run: seq<Event>, p: string): seq<Event>
    decreases |run|
  {
    if run == [] then [] else (if run[0].provider == p then [run[0]] else []) + Project(run[1..], p)
  }

  /** A provider on its own. */
  function Alone(d: Defaults, b: Option<Bucket>, run: seq<Event>): seq<bool>
    decreases |run|
  {
    if run == [] then [] else [Touch(d, b, run[0]).1] + Alone(d, Some(Touch(d, b, run[0]).0), run[1..])
  }

  /** Other providers' traffic is invisible: an interleaved run, seen by one provider, is that provider's own run. */
  lemma {:induction false} ProvidersAreIndependent(d: Defaults, m: map<string, Bucket>, run: seq<Event>, p: string)
    ensures OutcomesOf(d, m, run, p) == Alone(d, Lookup(m, p), Project(run, p))
    decreases |run|
  {
    if run != [] {
      ProvidersAreIndependent(d, Apply(d, m, run[0]), run[1..], p);
      if run[0].provider == p {
        assert Project(run, p)[1..] == Project(run[1..], p);
        assert Lookup(Apply(d, m, run[0]), p) == Some(Touch(d, Lookup(m, p), run[0]).0);
      } else {
        assert Project(run, p) == Project(run[1..], p);
        assert Lookup(Apply(d, m, run[0]), p) == Lookup(m, p);
      }
    }
  }

  function CountTrue(s: seq<bool>): nat { if s == [] then 0 else (if s[0] then 1 else 0) + CountTrue(s[1..]) }

  ghost predicate OnlyEnforces(run: seq<Event>) { forall e | e in run :: e.Enforce? }

  function Attempts(run: seq<Event>): seq<Attempt>
    requires OnlyEnforces(run)
  {
    if run == [] then []
    else
      assert run[0] in run;
      assert forall e | e in run[1..] :: e in run;
      [Attempt(run[0].now, 1)] + Attempts(run[1..])
  }

  lemma {:induction false} AloneIsBucket(d: Defaults, b: Bucket, run: seq<Event>)
    requires OnlyEnforces(run)
    ensures Alone(d, Some(b), run) == Outcomes(b, Attempts(run))
    ensures CountTrue(Alone(d, Some(b), run)) == Granted(b, Attempts(run))
    decreases |run|
  {
    if run != [] {
      assert run[0] in run;
      assert forall e | e in run[1..] :: e in run;
      AloneIsBucket(d, Consume(b, Attempt(run[0].now, 1)), run[1..]);
      assert Alone(d, Some(b), run)[1..] == Alone(d, Some(Consume(b, Attempt(run[0].now, 1))), run[1..]);
    }
  }

  // ----- whole runs from an empty limiter -----

  function ApplyAll(d: Defaults, m: map<string, Bucket>, run: seq<Event>): map<string, Bucket>
    decreases |run|
  {
    if run == [] then m else ApplyAll(d, Apply(d, m, run[0]), run[1..])
  }

  function TimeOf(e: Event): real { if e.Enforce? then e.now else e.created }

  /** A monotonic clock, and policies with no negative number in them. */
  ghost predicate Ticks(from: real, run: seq<Event>)
    decreases |run|
  {
    run == [] ||
    (var e := run[0];
     && from <= e.created <= TimeOf(e)
     && (e.SetPolicy? ==> e.ratePerMinute >= 0.0 && (e.capacity.Some? ==> e.capacity.value >= 0))
     && Ticks(TimeOf(e), run[1..]))
  }

  function EndOf(from: real, run: seq<Event>): real
    decreases |run|
  {
    if run == [] then from else EndOf(TimeOf(run[0]), run[1..])
  }

  /** A bucket as a run leaves it at the time `until`. */
  ghost predicate Kept(b: Option<Bucket>, until: real) { b.Some? ==> Sane(b.value) && b.value.lastRefill <= until }

  lemma TouchKeeps(d: Defaults, b: Option<Bucket>, e: Event, from: real)
    requires d.capacity >= 0 && d.ratePerMinute >= 0.0 && Kept(b, from) && Ticks(from, [e])
    ensures Kept(Some(Touch(d, b, e).0), TimeOf(e))
  {
    if e.Enforce? {
      var bucket := if b.Some? then b.value else Full(d.capacity, d.ratePerMinute, e.created);
      ConsumeSane(bucket, Attempt(e.now, 1));
    }
  }

  /** Every bucket a run can reach is between empty and full, and was last refilled in the past. */
  lemma {:induction false} ReachableIsKept(d: Defaults, m: map<string, Bucket>, run: seq<Event>, p: string, from: real)
    requires d.capacity >= 0 && d.ratePerMinute >= 0.0 && Kept(Lookup(m, p), from) && Ticks(from, Project(run, p))
    ensures Kept(Lookup(ApplyAll(d, m, run), p), EndOf(from, Project(run, p)))
    decreases |run|
  {
    if run != [] {
      var e := run[0];
      if e.provider == p {
        assert Project(run, p)[1..] == Project(run[1..], p) && Project(run, p)[0] == e;
        TouchKeeps(d, Lookup(m, p), e, from);
        ReachableIsKept(d, Apply(d, m, e), run[1..], p, TimeOf(e));
      } else {
        assert Project(run, p) == Project(run[1..], p);
        assert Lookup(Apply(d, m, e), p) == Lookup(m, p);
        ReachableIsKept(d, Apply(d, m, e), run[1..], p, from);
      }
    }
  }

  lemma {:induction false} ProjectConcat(a: seq<Event>, b: seq<Event>, p: string)
    ensures Project(a + b, p) == Project(a, p) + Project(b, p)
    decreases |a|
  {
    if a == [] { assert a + b == b; } else {
      assert (a + b)[0] == a[0] && (a + b)[1..] == a[1..] + b;
      ProjectConcat(a[1..], b, p);
      var head := if a[0].provider == p then [a[0]] else [];
      assert Project(a + b, p) == head + Project(a[1..] + b, p);
      assert Project(a, p) == head + Project(a[1..], p);
    }
  }

  lemma {:induction false} TicksSplit(from: real, a: seq<Event>, b: seq<Event>)
    requires Ticks(from, a + b)
    ensures Ticks(from, a) && Ticks(EndOf(from, a), b)
    decreases |a|
  {
    if a == [] { assert a + b == b; } else {
      assert (a + b)[1..] == a[1..] + b;
      TicksSplit(TimeOf(a[0]), a[1..], b);
    }
  }

  lemma {:induction false} OutcomesSplit(d: Defaults, m: map<string, Bucket>, a: seq<Event>, b: seq<Event>, p: string)
    ensures OutcomesOf(d, m, a + b, p) == OutcomesOf(d, m, a, p) + OutcomesOf(d, ApplyAll(d, m, a), b, p)
    decreases |a|
  {
    if a == [] { assert a + b == b; } else {
      assert (a + b)[1..] == a[1..] + b;
      OutcomesSplit(d, Apply(d, m, a[0]), a[1..], b, p);
    }
  }

  lemma {:induction false} TickingAttempts(from: real, start: real, run: seq<Event>)
    requires OnlyEnforces(run) && Ticks(from, run) && start <= from
    ensures Monotonic(start, Attempts(run))
    decreases |run|
  {
    if run != [] {
      assert run[0] in run && forall e | e in run[1..] :: e in run;
      TickingAttempts(TimeOf(run[0]), TimeOf(run[0]), run[1..]);
      assert Attempts(run)[1..] == Attempts(run[1..]);
    }
  }

  /** The capacity and rate a provider is held to: its own bucket's, or the defaults until it has one. */
  function Held(d: Defaults, b: Option<Bucket>): Defaults { if b.Some? then Defaults(b.value.capacity, b.value.ratePerMinute) else d }

  lemma AloneIsBounded(d: Defaults, b: Option<Bucket>, run: seq<Event>, from: real, t: real)
    requires d.capacity >= 0 && d.ratePerMinute >= 0.0 && Kept(b, from) && OnlyEnforces(run) && Ticks(from, run) && run != []
    requires EndOf(from, run) - TimeOf(run[0]) <= t
    ensures CountTrue(Alone(d, b, run)) as real <= Held(d, b).capacity as real + Earned(Held(d, b).ratePerMinute, t)
  {
    assert run[0] in run;
    var bucket := if b.Some? then b.value else Full(d.capacity, d.ratePerMinute, run[0].created);
    assert Alone(d, b, run) == Alone(d, Some(bucket), run);
    var a := Attempts(run);
    AloneIsBucket(d, bucket, run);
    FirstTick(from, bucket.lastRefill, run);
    LastAttempt(run, from);
    assert [] + a == a;
    WindowBound(bucket, [], a, t);
  }

  lemma FirstTick(from: real, start: real, run: seq<Event>)
    requires OnlyEnforces(run) && Ticks(from, run) && run != [] && start <= run[0].created
    ensures Monotonic(start, Attempts(run))
  {
    assert run[0] in run && forall e | e in run[1..] :: e in run;
    TickingAttempts(TimeOf(run[0]), TimeOf(run[0]), run[1..]);
    assert Attempts(run)[1..] == Attempts(run[1..]);
  }

  lemma {:induction false} LastAttempt(run: seq<Event>, from: real)
    requires OnlyEnforces(run)
    ensures LastTime(from, Attempts(run)) == EndOf(from, run)
    ensures run != [] ==> Attempts(run) != [] && Attempts(run)[0].now == TimeOf(run[0]) && LastTime(Attempts(run)[0].now, Attempts(run)) == EndOf(from, run)
    decreases |run|
  {
    if run != [] {
      assert run[0] in run && forall e | e in run[1..] :: e in run;
      LastAttempt(run[1..], TimeOf(run[0]));
      assert Attempts(run)[1..] == Attempts(run[1..]);
    }
  }

  /** However many providers share a limiter that starts empty, and whatever came before: over any stretch of
      traffic lasting `t` in which its policy is not replaced, a provider is granted at most its capacity plus
      its rate times `t`, its first use included. */
  lemma EveryProviderIsBounded(d: Defaults, before: seq<Event>, window: seq<Event>, p: string, from: real, t: real)
    requires d.capacity >= 0 && d.ratePerMinute >= 0.0 && Ticks(from, Project(before + window, p))
    requires var w := Project(window, p); OnlyEnforces(w) && w != [] && EndOf(from, w) - TimeOf(w[0]) <= t
    ensures var m := ApplyAll(d, map[], before); var held := Held(d, Lookup(m, p));
      && OutcomesOf(d, map[], before + window, p) == OutcomesOf(d, map[], before, p) + OutcomesOf(d, m, window, p)
      && CountTrue(OutcomesOf(d, m, window, p)) as real <= held.capacity as real + Earned(held.ratePerMinute, t)
  {
    var m, w := ApplyAll(d, map[], before), Project(window, p);
    ProjectConcat(before, window, p);
    TicksSplit(from, Project(before, p), w);
    ReachableIsKept(d, map[], before, p, from);
    OutcomesSplit(d, map[], before, window, p);
    ProvidersAreIndependent(d, m, window, p);
    var until := EndOf(from, Project(before, p));
    assert EndOf(until, w) == EndOf(from, w);
    AloneIsBounded(d, Lookup(m, p), w, until, t);
  }

  // ----- the classes -----

  class TokenBucket {
    const capacity: int
    const ratePerMinute: real
    var tokens: real
    var lastRefill: real

    constructor (capacity: int, ratePerMinute: real, now: real)
      ensures View() == Full(capacity, ratePerMinute, now)
    {
      this.capacity := capacity;
      this.ratePerMinute := ratePerMinute;
      tokens := capacity as real;
      lastRefill := now;
    }

    function View(): Bucket
      reads this
    {
      Bucket(capacity, ratePerMinute, tokens, lastRefill)
    }

    method RefillTo(now: real)
      modifies this
      ensures View() == Refill(old(View()), now)
    {
      var elapsed := now - lastRefill;
      if elapsed <= 0.0 { return; }
      var added := ratePerMinute / 60.0 * elapsed;
      tokens := if capacity as real < tokens + added then capacity as real else tokens + added;
      lastRefill := now;
    }

    method TryConsume(now: real, amount: int) returns (granted: bool)
      modifies this
      ensures granted == Grants(old(View()), Attempt(now, amount))
      ensures View() == Consume(old(View()), Attempt(now, amount))
    {
      RefillTo(now);
      if tokens < amount as real { return false; }
      tokens := tokens - amount as real;
      granted := true;
    }
  }

  class LlmRateLimit {
    const defaults: Defaults
    var buckets: map<string, TokenBucket>

    constructor (defaults: Defaults)
      ensures Valid() && this.defaults == defaults && View() == map[]
    {
      this.defaults := defaults;
      buckets := map[];
    }

    /** No two providers share a bucket. */
    ghost predicate Valid()
      reads this
    {
      forall p, q | p in buckets && q in buckets && p != q :: buckets[p] != buckets[q]
    }

    ghost function View(): map<string, Bucket>
      reads this, buckets.Values
    {
      map p | p in buckets :: buckets[p].View()
    }

    method BucketFor(provider: string, created: real) returns (bucket: TokenBucket)
      requires Valid()
      modifies this
      ensures Valid() && provider in buckets && buckets[provider] == bucket
      ensures forall p | p in buckets && p != provider :: p in old(buckets) && buckets[p] == old(buckets[p])
      ensures forall p | p in old(buckets) :: p in buckets && buckets[p] == old(buckets[p])
      ensures provider !in old(buckets) ==>
        fresh(bucket) && bucket.View() == Full(defaults.capacity, defaults.ratePerMinute, created)
    {
      if provider in buckets { return buckets[provider]; }
      bucket := new TokenBucket(defaults.capacity, defaults.ratePerMinute, created);
      buckets := buckets[provider := bucket];
    }

    method SetPolicyFor(provider: string, ratePerMinute: real, capacity: Option<int>, created: real)
      requires Valid()
      modifies this
      ensures Valid()
      ensures View() == Apply(defaults, old(View()), SetPolicy(provider, created, ratePerMinute, capacity))
    {
      var bucket := new TokenBucket(if capacity.Some? then capacity.value else Truncate(ratePerMinute), ratePerMinute, created);
      buckets := buckets[provider := bucket];
    }

    /** False is the rate-limit error. */
    method EnforceFor(provider: string, created: real, now: real) returns (ok: bool)
      requires Valid()
      modifies this, buckets.Values
      ensures Valid()
      ensures ok == Touch(defaults, Lookup(old(View()), provider), Enforce(provider, created, now)).1
      ensures View() == Apply(defaults, old(View()), Enforce(provider, created, now))
    {
      var bucket := BucketFor(provider, created);
      ok := bucket.TryConsume(now, 1);
    }
  }
}
