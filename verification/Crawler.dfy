/** The crawl loop of engine/discovery/crawler.py: a breadth-first walk that
    marks a URL when it is popped, may queue a URL several times, and stops at
    a page cap, a depth cut and two filters. */
module Crawler {
  import opened Text
  import opened Wrappers

  type Url = string

  /** What one GET of a URL yields on a fixed site; a network error has no content type and no links. */
  datatype Response = Response(statusCode: int, contentType: Option<string>, links: seq<string>)

  datatype CrawlPolicy = CrawlPolicy(
    maxDepth: int, maxPages: int, respectRobots: bool, sameHostOnly: bool, extraAllowedHosts: seq<string>)

  /** One crawl: the site as seen from outside, the policy and the normalised base URL.
      `join` resolves an href against a page and normalises it. */
  datatype Env = Env(
    get: Url -> Response, join: (Url, string) -> Url, netloc: Url -> string, robotsAllow: Url -> bool,
    policy: CrawlPolicy, base: Url)

  datatype CrawlPage = CrawlPage(url: Url, depth: nat, response: Response)

  datatype CrawlResult = CrawlResult(pages: seq<CrawlPage>, robotsDisallowed: seq<Url>, skippedExternal: seq<Url>)

  datatype Verdict = External | Disallowed | Fetchable

  function Judge(env: Env, url: Url): Verdict {
    var host := env.netloc(url);
    if env.policy.sameHostOnly && host != env.netloc(env.base) && host !in env.policy.extraAllowedHosts then External
    else if env.policy.respectRobots && !env.robotsAllow(url) then Disallowed
    else Fetchable
  }

  predicate IsHtml(r: Response) {
    r.contentType.Some? && "text/html" <= r.contentType.value
  }

  function Targets(join: (Url, string) -> Url, url: Url, hrefs: seq<string>): (r: seq<Url>)
    ensures |r| == |hrefs|
  {
    if hrefs == [] then [] else [join(url, hrefs[0])] + Targets(join, url, hrefs[1..])
  }

  // ----- reachability, independent of the loop -----

  /** The links a crawler may follow from `url`. */
  function Links(env: Env, url: Url): seq<Url> {
    if Judge(env, url) == Fetchable && IsHtml(env.get(url)) then Targets(env.join, url, env.get(url).links) else []
  }

  /** The host filter, as the policy states it. */
  ghost predicate OnSite(env: Env, u: Url) {
    env.policy.sameHostOnly ==> env.netloc(u) == env.netloc(env.base) || env.netloc(u) in env.policy.extraAllowedHosts
  }

  /** A page that passes both filters, answers with HTML and has a link that leads to `v`. */
  ghost predicate Follows(env: Env, u: Url, v: Url) {
    && OnSite(env, u) && (env.policy.respectRobots ==> env.robotsAllow(u))
    && (exists rest :: env.get(u).contentType == Some("text/html" + rest))
    && exists l :: l in env.get(u).links && v == env.join(u, l)
  }

  lemma {:induction false} TargetsMember(join: (Url, string) -> Url, url: Url, hrefs: seq<string>, v: Url)
    ensures v in Targets(join, url, hrefs) <==> exists l :: l in hrefs && v == join(url, l)
  {
    if hrefs != [] {
      TargetsMember(join, url, hrefs[1..], v);
      assert forall l :: l in hrefs <==> l == hrefs[0] || l in hrefs[1..];
    }
  }

  lemma HtmlIff(r: Response)
    ensures IsHtml(r) <==> exists rest :: r.contentType == Some("text/html" + rest)
  {
    if IsHtml(r) { assert r.contentType.value == "text/html" + r.contentType.value[|"text/html"|..]; }
  }

  lemma LinksIff(env: Env, u: Url, v: Url)
    ensures v in Links(env, u) <==> Follows(env, u, v)
  {
    HtmlIff(env.get(u));
    TargetsMember(env.join, u, env.get(u).links, v);
  }

  /** A chain of hops from the base URL, each a link of the fetched HTML page before it. */
  ghost predicate Chain(env: Env, hops: seq<Url>) {
    && hops != [] && hops[0] == env.base
    && forall i | 0 <= i < |hops| - 1 :: Follows(env, hops[i], hops[i + 1])
  }

  ghost predicate ReachableIn(env: Env, url: Url, n: nat) {
    exists hops :: Chain(env, hops) && hops[|hops| - 1] == url && |hops| == n + 1
  }

  ghost predicate Distance(env: Env, url: Url, n: nat) {
    ReachableIn(env, url, n) && forall m: nat | m < n :: !ReachableIn(env, url, m)
  }

  lemma ReachBase(env: Env)
    ensures forall u :: ReachableIn(env, u, 0) <==> u == env.base
  {
    assert Chain(env, [env.base]);
    assert ReachableIn(env, env.base, 0);
  }

  lemma ReachStep(env: Env, u: Url, n: nat, v: Url)
    requires ReachableIn(env, u, n) && v in Links(env, u)
    ensures ReachableIn(env, v, n + 1)
  {
    LinksIff(env, u, v);
    var hops :| Chain(env, hops) && hops[|hops| - 1] == u && |hops| == n + 1;
    assert Chain(env, hops + [v]) && (hops + [v])[n + 1] == v;
  }

  lemma ReachBack(env: Env, v: Url, n: nat) returns (u: Url)
    requires ReachableIn(env, v, n + 1)
    ensures ReachableIn(env, u, n) && v in Links(env, u)
  {
    var hops :| Chain(env, hops) && hops[|hops| - 1] == v && |hops| == n + 2;
    u := hops[n];
    LinksIff(env, u, v);
    assert Follows(env, hops[n], hops[n + 1]);
    assert Chain(env, hops[..n + 1]) && hops[..n + 1][n] == u;
  }

  // ----- the loop as a transition function -----

  datatype Frontier = Frontier(
    seen: set<Url>, queue: seq<(Url, nat)>, pages: seq<CrawlPage>, robots: seq<Url>, external: seq<Url>)

  function Start(env: Env): Frontier {
    Frontier({}, [(env.base, 0)], [], [], [])
  }

  function Unseen(seen: set<Url>, targets: seq<Url>, depth: nat): (r: seq<(Url, nat)>)
    ensures forall e | e in r :: e.1 == depth && e.0 in targets && e.0 !in seen
    ensures forall v | v in targets && v !in seen :: (v, depth) in r
  {
    if targets == [] then []
    else
      (if targets[0] in seen then [] else [(targets[0], depth)]) + Unseen(seen, targets[1..], depth)
  }

  /** The links queued when `url` is popped for the first time at `depth`. */
  function Discovered(env: Env, seen: set<Url>, url: Url, depth: nat): (r: seq<(Url, nat)>)
    requires Judge(env, url) == Fetchable
    ensures forall e | e in r :: e.1 == depth + 1 && e.0 in Links(env, url) && depth < env.policy.maxDepth
    ensures depth < env.policy.maxDepth ==> forall v | v in Links(env, url) && v !in seen :: (v, depth + 1) in r
  {
    var response := env.get(url);
    if depth < env.policy.maxDepth && IsHtml(response)
    then Unseen(seen, Targets(env.join, url, response.links), depth + 1) else []
  }

  function Step(env: Env, s: Frontier): Frontier
    requires s.queue != []
  {
    var (url, depth) := s.queue[0];
    var rest := s.queue[1..];
    if url in s.seen then s.(queue := rest)
    else
      var seen := s.seen + {url};
      match Judge(env, url)
      case External => s.(seen := seen, queue := rest, external := s.external + [url])
      case Disallowed => s.(seen := seen, queue := rest, robots := s.robots + [url])
      case Fetchable =>
        s.(seen := seen, queue := rest + Discovered(env, seen, url, depth),
           pages := s.pages + [CrawlPage(url, depth, env.get(url))])
  }

  /** Filtered pops leave the page count alone, so pages come first in the measure. */
  function Run(env: Env, cap: int, s: Frontier): Frontier
    decreases if cap > |s.pages| then cap - |s.pages| else 0, |s.queue|
  {
    if s.queue == [] || |s.pages| >= cap then s else Run(env, cap, Step(env, s))
  }

  function Outcome(s: Frontier): CrawlResult {
    CrawlResult(s.pages, s.robots, s.external)
  }

  // ----- the invariant: `dist` is the depth at which each seen URL was popped -----

  ghost predicate Queued(s: Frontier, v: Url, n: int) {
    exists e :: e in s.queue && e.0 == v && e.1 <= n
  }

  ghost predicate Covered(s: Frontier, dist: map<Url, nat>, v: Url, n: int) {
    (v in dist && dist[v] <= n) || Queued(s, v, n)
  }

  ghost predicate QueueOk(env: Env, s: Frontier, dist: map<Url, nat>) {
    && (forall i, j | 0 <= i < j < |s.queue| :: s.queue[i].1 <= s.queue[j].1 <= s.queue[0].1 + 1)
    && (forall e | e in s.queue :: ReachableIn(env, e.0, e.1) && (e.1 > 0 ==> e.1 <= env.policy.maxDepth))
    && (forall e, u | e in s.queue && u in dist :: dist[u] <= e.1)
  }

  ghost predicate DistOk(env: Env, s: Frontier, dist: map<Url, nat>) {
    && dist.Keys == s.seen
    && (forall u | u in dist :: Distance(env, u, dist[u]) && (dist[u] > 0 ==> dist[u] <= env.policy.maxDepth))
    && Covered(s, dist, env.base, 0)
    && (forall u, v | u in dist && dist[u] < env.policy.maxDepth && v in Links(env, u) :: Covered(s, dist, v, dist[u] + 1))
  }

  ghost predicate Recorded(env: Env, s: Frontier, dist: map<Url, nat>) {
    && (forall p | p in s.pages ::
          p.url in dist && p.depth == dist[p.url] && p.response == env.get(p.url) && Judge(env, p.url) == Fetchable)
    && (forall u | u in s.robots :: u in dist && Judge(env, u) == Disallowed)
    && (forall u | u in s.external :: u in dist && Judge(env, u) == External)
    && (forall u | u in dist ::
          match Judge(env, u)
          case External => u in s.external
          case Disallowed => u in s.robots
          case Fetchable => exists p :: p in s.pages && p.url == u)
  }

  ghost predicate Orderly(s: Frontier) {
    && (forall i, j | 0 <= i < j < |s.pages| :: s.pages[i].url != s.pages[j].url && s.pages[i].depth <= s.pages[j].depth)
    && (forall i, j | 0 <= i < j < |s.robots| :: s.robots[i] != s.robots[j])
    && (forall i, j | 0 <= i < j < |s.external| :: s.external[i] != s.external[j])
  }

  ghost predicate Inv(env: Env, s: Frontier, dist: map<Url, nat>) {
    QueueOk(env, s, dist) && DistOk(env, s, dist) && Recorded(env, s, dist) && Orderly(s)
  }

  ghost predicate Within(env: Env, n: nat) { n == 0 || n <= env.policy.maxDepth }

  /** Every URL within the depth cut is already popped unless something at most as far is still queued. */
  lemma {:induction false} Frontline(env: Env, s: Frontier, dist: map<Url, nat>, u: Url, n: nat)
    requires DistOk(env, s, dist) && ReachableIn(env, u, n) && Within(env, n)
    ensures (u in dist && dist[u] <= n) || exists e :: e in s.queue && e.1 <= n
    decreases n
  {
    if n == 0 {
      ReachBase(env);
    } else {
      var w := ReachBack(env, u, n - 1);
      Frontline(env, s, dist, w, n - 1);
      if w in dist && dist[w] <= n - 1 {
        assert Covered(s, dist, u, dist[w] + 1);
      }
    }
  }

  /** So the popped depth is least: nothing nearer can still be waiting. */
  lemma PopIsDistance(env: Env, s: Frontier, dist: map<Url, nat>)
    requires QueueOk(env, s, dist) && DistOk(env, s, dist) && s.queue != [] && s.queue[0].0 !in s.seen
    ensures Distance(env, s.queue[0].0, s.queue[0].1)
  {
    var (url, depth) := s.queue[0];
    assert s.queue[0] in s.queue;
    assert forall e | e in s.queue :: e.1 >= depth;
    forall m: nat | m < depth && ReachableIn(env, url, m) ensures false {
      Frontline(env, s, dist, url, m);
    }
  }

  function Popped(s: Frontier, dist: map<Url, nat>): map<Url, nat>
    requires s.queue != []
  {
    if s.queue[0].0 in s.seen then dist else dist[s.queue[0].0 := s.queue[0].1]
  }

  /** Appending entries one hop deeper than the head keeps the queue in order. */
  lemma QueueGrows(q: seq<(Url, nat)>, found: seq<(Url, nat)>)
    requires q != [] && forall i, j | 0 <= i < j < |q| :: q[i].1 <= q[j].1 <= q[0].1 + 1
    requires forall e | e in found :: e.1 == q[0].1 + 1
    ensures var t := q[1..] + found;
      forall i, j | 0 <= i < j < |t| :: t[i].1 <= t[j].1 <= t[0].1 + 1
  {
    var t := q[1..] + found;
    forall i | 0 <= i < |t| ensures q[0].1 <= t[i].1 <= q[0].1 + 1 {
      if i < |q| - 1 { assert t[i] == q[i + 1]; } else { assert t[i] in found; }
    }
    forall i, j | 0 <= i < j < |t| ensures t[i].1 <= t[j].1 {
      if j < |q| - 1 { assert t[i] == q[i + 1] && t[j] == q[j + 1]; }
      else { assert t[j] in found; }
    }
  }

  lemma NewEntries(env: Env, s: Frontier) returns (found: seq<(Url, nat)>)
    requires s.queue != []
    ensures Step(env, s).queue == s.queue[1..] + found
    ensures var (url, depth) := s.queue[0];
      forall e | e in found :: e.1 == depth + 1 && e.0 in Links(env, url) && depth < env.policy.maxDepth
  {
    var (url, depth) := s.queue[0];
    found := [];
    if url !in s.seen && Judge(env, url) == Fetchable {
      found := Discovered(env, s.seen + {url}, url, depth);
    }
  }

  lemma EntriesStayReachable(env: Env, s: Frontier, found: seq<(Url, nat)>)
    requires s.queue != []
    requires forall i, j | 0 <= i < j < |s.queue| :: s.queue[i].1 <= s.queue[j].1
    requires forall e | e in s.queue :: ReachableIn(env, e.0, e.1) && (e.1 > 0 ==> e.1 <= env.policy.maxDepth)
    requires var (url, depth) := s.queue[0];
      forall e | e in found :: e.1 == depth + 1 && e.0 in Links(env, url) && depth < env.policy.maxDepth
    ensures forall e | e in s.queue[1..] + found :: s.queue[0].1 <= e.1
    ensures forall e | e in s.queue[1..] + found :: ReachableIn(env, e.0, e.1) && (e.1 > 0 ==> e.1 <= env.policy.maxDepth)
  {
    assert s.queue[0] in s.queue;
    forall e | e in s.queue[1..] + found
      ensures s.queue[0].1 <= e.1 && ReachableIn(env, e.0, e.1) && (e.1 > 0 ==> e.1 <= env.policy.maxDepth)
    {
      if e in found { ReachStep(env, s.queue[0].0, s.queue[0].1, e.0); } else { assert e in s.queue; }
    }
  }

  lemma StepQueue(env: Env, s: Frontier, dist: map<Url, nat>)
    requires QueueOk(env, s, dist) && s.queue != []
    ensures QueueOk(env, Step(env, s), Popped(s, dist))
  {
    var found := NewEntries(env, s);
    QueueGrows(s.queue, found);
    EntriesStayReachable(env, s, found);
    assert s.queue[0] in s.queue;
    assert forall u | u in dist :: dist[u] <= s.queue[0].1;
  }

  /** What was covered stays covered; the popped entry itself is covered by its own distance. */
  lemma StepCovers(env: Env, s: Frontier, dist: map<Url, nat>, v: Url, n: int)
    requires QueueOk(env, s, dist) && DistOk(env, s, dist) && s.queue != [] && Covered(s, dist, v, n)
    ensures Covered(Step(env, s), Popped(s, dist), v, n)
  {
    var t := Step(env, s);
    if !(v in dist && dist[v] <= n) {
      var e :| e in s.queue && e.0 == v && e.1 <= n;
      if e != s.queue[0] {
        assert e in s.queue[1..];
        assert e in t.queue;
      }
    }
  }

  /** The links of a page fetched above the depth cut are all popped or queued. */
  lemma LinkCovered(env: Env, s: Frontier, dist: map<Url, nat>, v: Url)
    requires QueueOk(env, s, dist) && DistOk(env, s, dist) && s.queue != [] && s.queue[0].0 !in s.seen
    requires s.queue[0].1 < env.policy.maxDepth && v in Links(env, s.queue[0].0)
    ensures Covered(Step(env, s), Popped(s, dist), v, s.queue[0].1 + 1)
  {
    var (url, depth) := s.queue[0];
    var t := Step(env, s);
    assert s.queue[0] in s.queue;
    if v in s.seen {
      assert dist[v] <= depth;
    } else if v != url {
      assert (v, depth + 1) in t.queue;
    }
  }

  lemma LinksStayCovered(env: Env, s: Frontier, dist: map<Url, nat>, u: Url, v: Url)
    requires QueueOk(env, s, dist) && DistOk(env, s, dist) && s.queue != []
    requires u in Popped(s, dist) && Popped(s, dist)[u] < env.policy.maxDepth && v in Links(env, u)
    ensures Covered(Step(env, s), Popped(s, dist), v, Popped(s, dist)[u] + 1)
  {
    if u in dist {
      StepCovers(env, s, dist, v, dist[u] + 1);
    } else {
      LinkCovered(env, s, dist, v);
    }
  }

  lemma PoppedDistances(env: Env, s: Frontier, dist: map<Url, nat>)
    requires QueueOk(env, s, dist) && DistOk(env, s, dist) && s.queue != []
    ensures Popped(s, dist).Keys == Step(env, s).seen
    ensures forall u | u in Popped(s, dist) ::
      Distance(env, u, Popped(s, dist)[u]) && (Popped(s, dist)[u] > 0 ==> Popped(s, dist)[u] <= env.policy.maxDepth)
  {
    assert s.queue[0] in s.queue;
    if s.queue[0].0 !in s.seen { PopIsDistance(env, s, dist); }
  }

  lemma StepDist(env: Env, s: Frontier, dist: map<Url, nat>)
    requires QueueOk(env, s, dist) && DistOk(env, s, dist) && s.queue != []
    ensures DistOk(env, Step(env, s), Popped(s, dist))
  {
    var t, dist' := Step(env, s), Popped(s, dist);
    forall u, v | u in dist' && dist'[u] < env.policy.maxDepth && v in Links(env, u) ensures Covered(t, dist', v, dist'[u] + 1) {
      LinksStayCovered(env, s, dist, u, v);
    }
    PoppedDistances(env, s, dist);
    StepCovers(env, s, dist, env.base, 0);
  }

  lemma FetchedStaysRecorded(env: Env, s: Frontier, dist: map<Url, nat>, u: Url)
    requires Recorded(env, s, dist) && s.queue != [] && u in Popped(s, dist) && Judge(env, u) == Fetchable
    requires dist.Keys == s.seen
    ensures exists p :: p in Step(env, s).pages && p.url == u
  {
    var (url, depth) := s.queue[0];
    if u in dist {
      var p :| p in s.pages && p.url == u;
      assert p in Step(env, s).pages;
    } else {
      assert CrawlPage(url, depth, env.get(url)) in Step(env, s).pages;
    }
  }

  lemma StepRecords(env: Env, s: Frontier, dist: map<Url, nat>)
    requires dist.Keys == s.seen && Recorded(env, s, dist) && s.queue != []
    ensures Recorded(env, Step(env, s), Popped(s, dist))
  {
    forall u | u in Popped(s, dist) && Judge(env, u) == Fetchable
      ensures exists p :: p in Step(env, s).pages && p.url == u
    {
      FetchedStaysRecorded(env, s, dist, u);
    }
  }

  /** The popped URL is in none of the lists yet, and no recorded page is deeper. */
  lemma PoppedIsNew(env: Env, s: Frontier, dist: map<Url, nat>)
    requires QueueOk(env, s, dist) && dist.Keys == s.seen && Recorded(env, s, dist) && s.queue != []
    requires s.queue[0].0 !in s.seen
    ensures forall p | p in s.pages :: p.url != s.queue[0].0 && p.depth <= s.queue[0].1
    ensures s.queue[0].0 !in s.robots && s.queue[0].0 !in s.external
  {
    assert s.queue[0] in s.queue;
    forall p | p in s.pages ensures p.url != s.queue[0].0 && p.depth <= s.queue[0].1 {
      assert p.url in dist;
    }
  }

  lemma StepOrderly(env: Env, s: Frontier)
    requires Orderly(s) && s.queue != []
    requires s.queue[0].0 !in s.seen ==>
      (forall p | p in s.pages :: p.url != s.queue[0].0 && p.depth <= s.queue[0].1) &&
      s.queue[0].0 !in s.robots && s.queue[0].0 !in s.external
    ensures Orderly(Step(env, s))
  {
    var t := Step(env, s);
    assert t.pages == s.pages || t.pages == s.pages + [CrawlPage(s.queue[0].0, s.queue[0].1, env.get(s.queue[0].0))];
    assert t.robots == s.robots || t.robots == s.robots + [s.queue[0].0];
    assert t.external == s.external || t.external == s.external + [s.queue[0].0];
  }

  lemma StepKeepsInv(env: Env, s: Frontier, dist: map<Url, nat>)
    requires Inv(env, s, dist) && s.queue != []
    ensures Inv(env, Step(env, s), Popped(s, dist))
  {
    StepQueue(env, s, dist);
    StepDist(env, s, dist);
    StepRecords(env, s, dist);
    if s.queue[0].0 !in s.seen { PoppedIsNew(env, s, dist); }
    StepOrderly(env, s);
  }

  lemma StartInv(env: Env)
    ensures Inv(env, Start(env), map[])
  {
    ReachBase(env);
    assert (env.base, 0) in Start(env).queue;
    assert Queued(Start(env), env.base, 0);
  }

  // ----- what the result says about the site -----

  ghost predicate Listed(r: CrawlResult, u: Url) {
    (exists p :: p in r.pages && p.url == u) || u in r.robotsDisallowed || u in r.skippedExternal
  }

  /** The three lists are disjoint and duplicate-free, and sorted out by the two filters. */
  ghost predicate Classified(env: Env, r: CrawlResult) {
    && (forall p | p in r.pages ::
          OnSite(env, p.url) && (env.policy.respectRobots ==> env.robotsAllow(p.url)) && p.response == env.get(p.url))
    && (forall u | u in r.robotsDisallowed :: OnSite(env, u) && env.policy.respectRobots && !env.robotsAllow(u))
    && (forall u | u in r.skippedExternal :: !OnSite(env, u))
    && (forall i, j | 0 <= i < j < |r.pages| :: r.pages[i].url != r.pages[j].url)
    && (forall i, j | 0 <= i < j < |r.robotsDisallowed| :: r.robotsDisallowed[i] != r.robotsDisallowed[j])
    && (forall i, j | 0 <= i < j < |r.skippedExternal| :: r.skippedExternal[i] != r.skippedExternal[j])
  }

  /** Breadth first: least depths, in order, and nothing nearer than a recorded page is missing. */
  ghost predicate BreadthFirst(env: Env, r: CrawlResult) {
    && (forall p | p in r.pages :: Distance(env, p.url, p.depth) && Within(env, p.depth))
    && (forall i, j | 0 <= i < j < |r.pages| :: r.pages[i].depth <= r.pages[j].depth)
    && (forall u | Listed(r, u) :: exists n: nat :: Within(env, n) && ReachableIn(env, u, n))
    && (forall p, u, n: nat | p in r.pages && n < p.depth && ReachableIn(env, u, n) :: Listed(r, u))
  }

  /** Everything within the depth cut is listed. */
  ghost predicate Complete(env: Env, r: CrawlResult) {
    forall u, n: nat | Within(env, n) && ReachableIn(env, u, n) :: Listed(r, u)
  }

  lemma ListedIsSeen(env: Env, s: Frontier, dist: map<Url, nat>, u: Url)
    requires Recorded(env, s, dist)
    ensures Listed(Outcome(s), u) <==> u in dist
  {
    if u in dist { assert Judge(env, u).External? || Judge(env, u).Disallowed? || Judge(env, u).Fetchable?; }
  }

  /** Whatever is nearer than a popped URL has itself been popped. */
  lemma NearerIsSeen(env: Env, s: Frontier, dist: map<Url, nat>)
    requires Inv(env, s, dist)
    ensures forall u, v, n: nat | u in dist && n < dist[u] && ReachableIn(env, v, n) :: v in dist
  {
    forall u, v, n: nat | u in dist && n < dist[u] && ReachableIn(env, v, n) ensures v in dist {
      Frontline(env, s, dist, v, n);
      assert forall e | e in s.queue :: dist[u] <= e.1;
    }
  }

  lemma InvClassifies(env: Env, s: Frontier, dist: map<Url, nat>)
    requires Inv(env, s, dist)
    ensures Classified(env, Outcome(s))
  {}

  lemma InvGivesBreadthFirst(env: Env, s: Frontier, dist: map<Url, nat>)
    requires Inv(env, s, dist)
    ensures BreadthFirst(env, Outcome(s))
  {
    forall u ensures Listed(Outcome(s), u) <==> u in dist { ListedIsSeen(env, s, dist, u); }
    NearerIsSeen(env, s, dist);
    forall u | Listed(Outcome(s), u) ensures exists n: nat :: Within(env, n) && ReachableIn(env, u, n) {
      assert Within(env, dist[u]);
    }
  }

  lemma {:induction false} NothingNewQueued(env: Env, s: Frontier, dist: map<Url, nat>, u: Url, n: nat)
    requires QueueOk(env, s, dist) && DistOk(env, s, dist) && ReachableIn(env, u, n) && Within(env, n)
    requires forall e | e in s.queue :: e.0 in s.seen
    ensures u in dist && dist[u] <= n
    decreases n
  {
    if n == 0 {
      ReachBase(env);
    } else {
      var w := ReachBack(env, u, n - 1);
      NothingNewQueued(env, s, dist, w, n - 1);
      assert Covered(s, dist, u, dist[w] + 1);
    }
  }

  /** Everything within the depth cut is listed exactly when nothing new is left in the queue. */
  lemma CompleteIff(env: Env, s: Frontier, dist: map<Url, nat>)
    requires Inv(env, s, dist)
    ensures Complete(env, Outcome(s)) <==> forall e | e in s.queue :: e.0 in s.seen
  {
    forall u ensures Listed(Outcome(s), u) <==> u in dist { ListedIsSeen(env, s, dist, u); }
    if forall e | e in s.queue :: e.0 in s.seen {
      forall u, n: nat | Within(env, n) && ReachableIn(env, u, n) ensures Listed(Outcome(s), u) {
        NothingNewQueued(env, s, dist, u, n);
      }
    } else {
      var e :| e in s.queue && e.0 !in s.seen;
      assert Within(env, e.1) && ReachableIn(env, e.0, e.1) && !Listed(Outcome(s), e.0);
    }
  }

  lemma {:induction false} RunKeepsInv(env: Env, cap: int, s: Frontier, dist: map<Url, nat>) returns (last: map<Url, nat>)
    requires Inv(env, s, dist)
    ensures Inv(env, Run(env, cap, s), last)
    decreases if cap > |s.pages| then cap - |s.pages| else 0, |s.queue|
  {
    if s.queue == [] || |s.pages| >= cap {
      last := dist;
    } else {
      StepKeepsInv(env, s, dist);
      last := RunKeepsInv(env, cap, Step(env, s), Popped(s, dist));
    }
  }

  lemma {:induction false} RunStops(env: Env, cap: int, s: Frontier)
    requires |s.pages| <= cap || s.pages == []
    ensures var t := Run(env, cap, s);
      (t.queue == [] || |t.pages| >= cap) && (|t.pages| <= cap || t.pages == [])
    decreases if cap > |s.pages| then cap - |s.pages| else 0, |s.queue|
  {
    if s.queue != [] && |s.pages| < cap { RunStops(env, cap, Step(env, s)); }
  }

  // ----- the page cap -----

  lemma {:induction false} RunOnlyAppends(env: Env, cap: int, s: Frontier)
    ensures s.pages <= Run(env, cap, s).pages && s.robots <= Run(env, cap, s).robots && s.external <= Run(env, cap, s).external
    decreases if cap > |s.pages| then cap - |s.pages| else 0, |s.queue|
  {
    if s.queue != [] && |s.pages| < cap { RunOnlyAppends(env, cap, Step(env, s)); }
  }

  ghost predicate Extends(r: CrawlResult, more: CrawlResult) {
    r.pages <= more.pages && r.robotsDisallowed <= more.robotsDisallowed && r.skippedExternal <= more.skippedExternal
  }

  /** Raising `max_pages` only extends the three lists. */
  lemma {:induction false} CapOnlyTruncates(env: Env, cap: int, more: int, s: Frontier)
    requires cap <= more
    ensures Extends(Outcome(Run(env, cap, s)), Outcome(Run(env, more, s)))
    ensures |Run(env, cap, s).pages| < cap ==> Run(env, cap, s) == Run(env, more, s)
    decreases if cap > |s.pages| then cap - |s.pages| else 0, |s.queue|
  {
    if s.queue == [] {
    } else if |s.pages| >= cap {
      RunOnlyAppends(env, more, s);
    } else {
      CapOnlyTruncates(env, cap, more, Step(env, s));
    }
  }

  lemma {:induction false} CapIsOnlyTheGuard(env: Env, m: int, cap: int, s: Frontier)
    ensures Run(env.(policy := env.policy.(maxPages := m)), cap, s) == Run(env, cap, s)
    decreases if cap > |s.pages| then cap - |s.pages| else 0, |s.queue|
  {
    var wider := env.(policy := env.policy.(maxPages := m));
    if s.queue != [] && |s.pages| < cap {
      assert Step(wider, s) == Step(env, s);
      CapIsOnlyTheGuard(env, m, cap, Step(env, s));
    }
  }

  /** Two crawls of one site that differ only in `max_pages`. */
  lemma RaisingMaxPages(env: Env, m: int)
    requires env.policy.maxPages <= m
    ensures var wider := env.(policy := env.policy.(maxPages := m));
      Extends(Outcome(Run(env, env.policy.maxPages, Start(env))), Outcome(Run(wider, wider.policy.maxPages, Start(wider))))
  {
    CapOnlyTruncates(env, env.policy.maxPages, m, Start(env));
    CapIsOnlyTheGuard(env, m, m, Start(env));
    assert Start(env.(policy := env.policy.(maxPages := m))) == Start(env);
  }

  // ----- the loop -----

  lemma CrawlIsBreadthFirst(env: Env)
    ensures var last := Run(env, env.policy.maxPages, Start(env)); var r := Outcome(last);
      && BreadthFirst(env, r) && Classified(env, r)
      && (Complete(env, r) <==> forall e | e in last.queue :: e.0 in last.seen)
      && (|r.pages| < env.policy.maxPages ==> last.queue == [])
      && (|r.pages| <= env.policy.maxPages || r.pages == [])
  {
    StartInv(env);
    var dist := RunKeepsInv(env, env.policy.maxPages, Start(env), map[]);
    InvClassifies(env, Run(env, env.policy.maxPages, Start(env)), dist);
    InvGivesBreadthFirst(env, Run(env, env.policy.maxPages, Start(env)), dist);
    CompleteIff(env, Run(env, env.policy.maxPages, Start(env)), dist);
    RunStops(env, env.policy.maxPages, Start(env));
  }

  method Crawl(env: Env) returns (result: CrawlResult)
    ensures result == Outcome(Run(env, env.policy.maxPages, Start(env)))
    ensures BreadthFirst(env, result) && Classified(env, result)
    ensures |result.pages| < env.policy.maxPages || Run(env, env.policy.maxPages, Start(env)).queue == [] ==> Complete(env, result)
    ensures |result.pages| <= env.policy.maxPages || result.pages == []
  {
    var seen: set<Url> := {};
    var queue: seq<(Url, nat)> := [(env.base, 0)];
    var pages: seq<CrawlPage> := [];
    var robots: seq<Url> := [];
    var external: seq<Url> := [];
    while queue != [] && |pages| < env.policy.maxPages
      invariant Run(env, env.policy.maxPages, Frontier(seen, queue, pages, robots, external))
             == Run(env, env.policy.maxPages, Start(env))
      decreases env.policy.maxPages - |pages|, |queue|
    {
      ghost var before := Frontier(seen, queue, pages, robots, external);
      var (url, depth) := queue[0];
      queue := queue[1..];
      if url in seen { continue; }
      seen := seen + {url};
      var verdict := Judge(env, url);
      if verdict == External {
        external := external + [url];
        continue;
      }
      if verdict == Disallowed {
        robots := robots + [url];
        continue;
      }
      var page := CrawlPage(url, depth, env.get(url));
      pages := pages + [page];
      if depth < env.policy.maxDepth && IsHtml(page.response) {
        queue := EnqueueLinks(env, seen, queue, page);
      }
      assert Frontier(seen, queue, pages, robots, external) == Step(env, before);
    }
    result := CrawlResult(pages, robots, external);
    CrawlIsBreadthFirst(env);
  }

  lemma {:induction false} TargetsConcat(join: (Url, string) -> Url, url: Url, a: seq<string>, b: seq<string>)
    ensures Targets(join, url, a + b) == Targets(join, url, a) + Targets(join, url, b)
  {
    if a == [] {
      assert a + b == b;
    } else {
      assert (a + b)[1..] == a[1..] + b;
      TargetsConcat(join, url, a[1..], b);
    }
  }

  lemma {:induction false} UnseenConcat(seen: set<Url>, a: seq<Url>, b: seq<Url>, depth: nat)
    ensures Unseen(seen, a + b, depth) == Unseen(seen, a, depth) + Unseen(seen, b, depth)
  {
    if a == [] {
      assert a + b == b;
    } else {
      assert (a + b)[1..] == a[1..] + b;
      UnseenConcat(seen, a[1..], b, depth);
    }
  }

  lemma UnseenPrefix(env: Env, seen: set<Url>, url: Url, links: seq<string>, i: nat, depth: nat)
    requires i < |links|
    ensures Unseen(seen, Targets(env.join, url, links[..i + 1]), depth)
         == Unseen(seen, Targets(env.join, url, links[..i]), depth)
            + if env.join(url, links[i]) in seen then [] else [(env.join(url, links[i]), depth)]
  {
    assert links[..i + 1] == links[..i] + [links[i]];
    TargetsConcat(env.join, url, links[..i], [links[i]]);
    UnseenConcat(seen, Targets(env.join, url, links[..i]), Targets(env.join, url, [links[i]]), depth);
  }

  /** The queue after the first `i` links of a page. */
  function Enqueued(env: Env, seen: set<Url>, queue: seq<(Url, nat)>, page: CrawlPage, i: nat): seq<(Url, nat)>
    requires i <= |page.response.links|
  {
    queue + Unseen(seen, Targets(env.join, page.url, page.response.links[..i]), page.depth + 1)
  }

  lemma NextEnqueued(env: Env, seen: set<Url>, queue: seq<(Url, nat)>, page: CrawlPage, i: nat)
    requires i < |page.response.links|
    ensures var candidate := env.join(page.url, page.response.links[i]);
      Enqueued(env, seen, queue, page, i + 1) ==
        if candidate in seen then Enqueued(env, seen, queue, page, i)
        else Enqueued(env, seen, queue, page, i) + [(candidate, page.depth + 1)]
  {
    var before, candidate := Unseen(seen, Targets(env.join, page.url, page.response.links[..i]), page.depth + 1), env.join(page.url, page.response.links[i]);
    UnseenPrefix(env, seen, page.url, page.response.links, i, page.depth + 1);
    Regroup(queue, before, [(candidate, page.depth + 1)]);
    assert before + [] == before;
  }

  /** The inner loop: every link not yet popped is queued, even if already waiting. */
  method EnqueueLinks(env: Env, seen: set<Url>, queue: seq<(Url, nat)>, page: CrawlPage)
    returns (longer: seq<(Url, nat)>)
    ensures longer == queue + Unseen(seen, Targets(env.join, page.url, page.response.links), page.depth + 1)
  {
    longer := queue;
    var links := page.response.links;
    assert links[..0] == [] && queue + [] == queue && links[..|links|] == links;
    var i := 0;
    while i < |links|
      invariant 0 <= i <= |links|
      invariant longer == Enqueued(env, seen, queue, page, i)
    {
      var candidate := env.join(page.url, links[i]);
      NextEnqueued(env, seen, queue, page, i);
      i := i + 1;
      if candidate in seen { continue; }
      longer := longer + [(candidate, page.depth + 1)];
    }
  }
}
