# SentinelQA engine: a verified model

SentinelQA crawls a web application, plans and generates browser tests for it, runs them and keeps
the results. This project models the stateful and algorithmic parts of its engine in Dafny and proves
what they promise over whole runs.

| file | models |
|---|---|
| `Crawler.dfy` | the crawl loop: breadth-first search with mark-on-pop, duplicate queue entries, a depth cut, a page cap, a host filter and a robots filter |
| `ModulePool.dfy` | running modules on a bounded thread pool, as a state machine over submit, start, finish and merge |
| `CacheStore.dfy`, `CacheCounts.dfy` | the sharded byte cache, and what its statistics count |
| `CacheWrites.dfy`, `CacheOverlap.dfy`, `CacheReaders.dfy` | the cache's write, rename and clean-up protocol at the level of names and inodes; which puts may overlap; readers that take their time |
| `PlanCache.dfy`, `PlanHistory.dfy` | the execution-plan step and its cache, over runs that share one store |
| `Fingerprint.dfy`, `FingerprintCase.dfy` | the stack walk over a source tree and the framed stream that is hashed, also where paths sort without case |
| `RateLimit.dfy`, `RateGrants.dfy`, `Budget.dfy`, `BudgetInFlight.dfy` | token buckets per provider, how much they grant at most and when they grant at all; the spending caps per run and per caller, for calls one at a time and in flight |
| `Planner.dfy`, `PlannerOrder.dfy`, `PlannerCounts.dfy`, `PlannerCases.dfy`, `PlannerRules.dfy` | the deterministic test planner, what it promises, and what its rules make of every flow |
| `PlannerListing.dfy`, `PlannerIds.dfy`, `PlannerTies.dfy` | its determinism: the order of listing, the random ids, and which flows tie |
| `Naming.dfy` | accessor names on page objects and spec file names |
| `PlanDocument.dfy`, `PlanMarkdown.dfy`, `PlanTable.dfy` | the generated-plan Markdown: renderer, reader, their round trip, and the counts and the table of flows read back |
| `Vault.dfy`, `VaultHistory.dfy`, `VaultListing.dfy` | the encrypted session vault over arbitrary histories, and its listing |
| `FlakeDb.dfy`, `FlakeWindow.dfy`, `FlakeTop.dfy` | the flake database: foreign keys, windowed rates, the flakiest tests |
| `DiffRuns.dfy` | normalisation of run artifacts before comparison |
| `LocatorRepair.dfy`, `LocatorTies.dfy` | locator repair proposals, ties among candidates, and the auto-apply gate |
| `Sorting.dfy`, `Counting.dfy`, `Text.dfy`, `Alphabet.dfy`, `Wrappers.dfy` | stable sorting, counting, Python's line and whitespace handling, the character classes of the system's patterns, optional values |

Code that updates state is a class or a method with loops, each proved equal to a specification
function; the theorems are about those functions. Pure code is functions and lemmas. Reals stand for
floats. Every place that sorts by a key uses the one stable `SortBy`, so that ties fall as Python's do.
The small functions that theorems are stated through, such as filters, rules, patterns and orders, have lemmas that say the
same in other terms: from the fields they read, by cutting strings in parts, or with the alphabets spelled out. Most of these
lemmas have names in `Told` or `Iff`.

Where the code does less than its documentation or its callers may expect, the model keeps the code and
states exactly when the promise holds:

- Cache paths (`engine/cache/store.py:56-64`): `ab` and `ab_` share a file, and keys that begin with `..`
  leave their namespace; `SharedFileIff` gives every clash, and `StatsCountKeysIff` says exactly when the statistics count the keys.
- `CacheStore.put` is called atomic and thread-safe (`engine/cache/store.py:10-14`, `78-91`). Readers, quick or slow, are safe from
  a put exactly when no other put of its key is still writing (`ReaderSafeIff`, `SlowReaderSafeIff`), and the put keeps its own
  temporary file exactly when none is pending, not even one that has renamed and is cleaning up (`KeepsTempIff`).
- The fingerprint's documentation promises one digest on Windows and macOS (`engine/cache/fingerprint.py:180-183`). Where paths sort
  without case, that holds exactly for trees no two files of which then stand the other way round (`OneStreamIff`), as `B.py` and
  `a.py` do (`CapitalsStandFirst`).
- The first call to a provider is said always to succeed (`engine/llm/rate_limit.py:27-28`); it does exactly when its capacity is at
  least 1 (`FullGrantsIff`). A policy of less than one call a minute without a capacity gets capacity 0 (`PolicyLiveIff`) and is
  refused for ever (`ProviderGrantedIff`).
- The plan-cache key leaves out the `ci` flag and cannot tell `a-b` from `a` and `b`, or a module named
  `all` from none (`KeysCollide`). Over any sequence of runs, `PlanRightIff` says exactly which get their own plan; runs that
  take their modules from the configuration and agree on `ci` all do (`ConfiguredPlansAreRecomputed`).
- The budget's hard cap (`engine/llm/budget.py:107-114`) holds for calls made one at a time; two calls checked before either is
  booked can pass it with exact estimates (`InFlightCallsOvershoot`). For calls in flight it holds exactly while what is spent
  and what is estimated for the pending calls fit it together (`InFlightFitsIff`, `RunFitsIff`, `PassingCheckFitsIff`).
- Forms of a graph without routes are dropped (`FormsConservedIff`); the planner's rules promise a flow for every form. A form
  without a submit handler gets an `llm_audit` case, not a functional one.
- The planner promises one plan for one graph modulo ids (`engine/planner/core.py:22-26`), but flows that tie in priority, risk and
  name come in the order of their random ids. The promise holds exactly when no two routes share a path and a risk, no two forms go
  to one route, and no two endpoints share verb, path and protection (`ContractHoldsIff`).
- With the same ids drawn, the same graph listed differently gives the same plan exactly when, at each path where some form looks, the
  same route is listed first (`PlanStaysIffFirstListedStay`); routes that share a path can break that (`SharedPathShows`).
- Spec file names can repeat: slugs `a`, `a` and `a_2` give `a_2.spec.ts` twice (`SpecPathsDistinctIff`).
- A locator repair that would not change its line is refused, because the proposal record wants a diff
  (`engine/healer/models.py:72`, `ProposedIff`); the recorded descriptor is the same for every listing of the candidates exactly
  when all that tie at the top are equal (`ProposalStaysIff`).
- The vault's listing is documented as sorted by host and name, but sorted by directory and file name. `ListedByNameIff` and, after any
  history, `VaultListedAsDocumentedIff` say exactly when that comes to the same; for hosts that are their own slugs it is when no name
  of a host jumps another (`OwnSlugsListedIff`). `JumpingIsListedFirst` gives vaults where it does not: any two
  names of one host of which the longer jumps the shorter, as `a-b` and `a.b` do `a` (`SomeJump`). Hosts that share a slug share a
  slot: storing one hides the other (`SharedSlugHides`).
- `record_outcomes` is not all-or-nothing within its connection: rows before a refused one stay visible, uncommitted, until the
  next write commits or closing loses them (`OutcomesAreLastAccepted`, `RefusedBatchIsNotDurable`).
- Runs that started at the same time may come in either order; that shows in a windowed rate exactly when some of those at the window's
  edge failed and some did not (`WindowStaysIff`).
- `top_flaky` ignores its `window`; that makes no difference exactly when the limit, or the number of candidates, is within it, or a
  negative limit drops every candidate (`WindowHarmlessIff`). Its answer depends on the order of the query's groups exactly when a
  listed test ties with another module's (`TopIgnoresGroupOrderIff`).

Some small facts beside the results only spell definitions out: `TopPriorityIff`, `RouteFlowsShareUrgency`, `RiskIsMonotone` and
`RevokeRemoves`.

## Model

| member | source | states |
|---|---|---|
| `Crawler.Crawl` | engine/discovery/crawler.py:220-274 | the deque loop ends on every site, records least depths in order, stays within the page cap, and misses nothing within the depth cut when it stopped below the cap or with an empty queue; with `same_host_only` exactly other hosts than the base's and the extra ones are listed as external, of the rest with `respect_robots` those robots.txt forbids as disallowed, and what passes both is a page |
| `Crawler.EnqueueLinks` | engine/discovery/crawler.py:263-268 | the inner loop queues exactly the links not yet popped, one hop deeper, even if already queued |
| `Crawler.LinksIff` | engine/discovery/crawler.py:253-268 | a link is followed if and only if its page passes both filters, answers with a content type that starts with `text/html`, and has an entry that joins to it; distances are counted over such links |
| `Crawler.CrawlIsBreadthFirst` | engine/discovery/crawler.py:240-274 | every page's depth is the least number of hops from the base URL through fetched HTML pages, depths never decrease, no URL is in two lists or twice in one, and every URL reachable within `max_depth` is listed if and only if nothing new is left in the queue |
| `Crawler.CompleteIff` | engine/discovery/crawler.py:246-268 | the same condition at any point of the loop |
| `Crawler.StepKeepsInv` | engine/discovery/crawler.py:246-268 | one iteration keeps the queue ordered and reachable, the popped distances least, and their links popped or queued |
| `Crawler.Frontline` | engine/discovery/crawler.py:263-268 | a URL reachable within the depth cut is popped already or something at most as far is queued |
| `Crawler.PopIsDistance` | engine/discovery/crawler.py:247-250 | the depth of a first pop is the URL's distance |
| `Crawler.RunStops` | engine/discovery/crawler.py:246 | the loop stops only with an empty queue or at the cap |
| `Crawler.CapOnlyTruncates` | engine/discovery/crawler.py:246 | from any state a larger cap only extends the three lists, and ends in the same state when the smaller cap was not reached |
| `Crawler.RaisingMaxPages` | engine/discovery/crawler.py:246-274 | two crawls differing only in `max_pages`: each list of the smaller one is a prefix of the larger one's |
| `ModulePool.LifecycleContext.RunModules` | engine/orchestrator/run_lifecycle.py:415-447 | whichever path is taken and however the system schedules it, the context gains one outcome a name, in input order: skipped exactly without a factory, errored exactly on an exception, with its message, type and classification, succeeded otherwise; the typed results and all their findings are appended in that order |
| `ModulePool.LifecycleContext.RunOnPool` | engine/orchestrator/run_lifecycle.py:437-447 | the thread-pool path terminates and leaves the context so for every choice among enabled steps |
| `ModulePool.LifecycleContext.MergeModuleResult` | engine/orchestrator/run_lifecycle.py:527-544 | appends the outcome, and the typed result with its findings when there is one |
| `ModulePool.SequentialRan` | engine/orchestrator/run_lifecycle.py:452-544 | the sequential loop does so to any context |
| `ModulePool.EveryInterleaving` | engine/orchestrator/run_lifecycle.py:426-447 | in any schedule at most `workers` modules run, at most 5n steps happen, the context is the sequential one for the merged prefix, and a step is enabled if and only if something is unmerged |
| `ModulePool.NextKeepsInv` | engine/orchestrator/run_lifecycle.py:441-447 | every submit, start, finish and merge keeps each call in exactly one place and the context sequential |
| `ModulePool.NextProgresses` | engine/orchestrator/run_lifecycle.py:441-447 | every step uses up a bounded measure |
| `ModulePool.SomeStepEnabled` | engine/orchestrator/run_lifecycle.py:441-447 | no deadlock before everything is merged |
| `ModulePool.PlayKeepsInv` | engine/orchestrator/run_lifecycle.py:441-447 | the invariant and the step bound hold after any schedule |
| `Store.SharedFileIff` | engine/cache/store.py:50-64 | two valid (namespace, key) pairs share a file if and only if they are equal or are one of the two clashing forms |
| `Store.RegularKeysApart` | engine/cache/store.py:56-64 | for keys of three or more characters not starting with `..` the path is injective |
| `Store.KeyIff` | engine/cache/store.py:25 | a key is accepted if and only if it is a non-empty text of letters, digits, dots, underscores, colons and hyphens, one newline behind it allowed |
| `Store.NamespaceIff` | engine/cache/store.py:24 | a namespace likewise, of small letters, digits, dots, underscores and hyphens, a letter or digit first |
| `Store.LocationTold` | engine/cache/store.py:56-64 | the file of every accepted pair, by the length of the key and its first characters |
| `Store.BinIff` | engine/cache/store.py:115 | a file is counted by its suffix if and only if its name is something and `.bin` |
| `Store.CacheStore.Get` | engine/cache/store.py:69-76 | invalid names are errors; otherwise the file's content, which for regular keys is the map's value |
| `Store.CacheStore.Put` | engine/cache/store.py:78-91 | the whole new disk; for regular keys the map gains exactly this pair |
| `Store.CacheStore.Delete` | engine/cache/store.py:93-99 | whether a file was there, the whole new disk; for regular keys the map loses exactly this pair |
| `Store.CacheStore.Stats` | engine/cache/store.py:101-121 | the number and total size of the namespace's `.bin` files, whatever order the directories list them in |
| `CacheCounts.CountsOwnFiles` | engine/cache/store.py:109-121 | the files counted are those of the namespace's own live keys, save `.` and keys that begin with `..`, whatever other namespaces hold |
| `CacheCounts.HistoryHolds` | engine/cache/store.py:56-64 | after any puts and deletions the `.bin` files on disk are exactly those of the keys put and not deleted since |
| `CacheCounts.StatsCountKeysIff` | engine/cache/store.py:101-121 | after any puts and deletions `stats` counts at most the live keys of a namespace, and as many if and only if none is `.` or begins with `..` and no two-character key stands beside itself with `_` |
| `Store.ViewAfterPut` | engine/cache/store.py:56-64 | writing a regular key's file changes no other regular pair |
| `CacheWrites.StepKeepsInv` | engine/cache/store.py:78-91 | every step of every put, failures, crashes and clean-up included, keeps what each writing put has written in its own inode |
| `CacheWrites.StepShowsWholeValues` | engine/cache/store.py:81-90 | a step either leaves what a reader sees or shows the whole new value |
| `CacheWrites.ReadersSeeWholeValues` | engine/cache/store.py:10-14 | over any run in which no two puts of one key write at the same time, readers see the last value wholly put, also after crashes |
| `CacheReaders.SlowReadersSeeWholeValues` | engine/cache/store.py:69-76 | a reader that opens the entry in one step and reads it piece by piece over any further steps gets the last value wholly put when it opened |
| `CacheReaders.MomentsSame` | engine/cache/store.py:81-86 | the bytes of an opened entry never change over any run that keeps the discipline |
| `CacheReaders.SlowReaderSafeIff` | engine/cache/store.py:69-91 | beginning a put is safe for such readers, too, if and only if no put of the path is still writing |
| `CacheOverlap.Tears` | engine/cache/store.py:83-86 | a put begun while another of its path is writing: for any value there is a run in which the first's rename shows any long enough part of the second's value |
| `CacheOverlap.ReaderSafeIff` | engine/cache/store.py:81-91 | beginning a put is safe for readers, for every value and continuation, if and only if no put of the path is still writing |
| `CacheOverlap.KeepsTempIff` | engine/cache/store.py:83-90 | the put keeps its temporary file until its rename, for every value and continuation, if and only if no put of the path is pending, clean-up included |
| `CacheOverlap.LonePutCompletes` | engine/cache/store.py:81-91 | with no other put of the path pending, opening, writing, renaming and looking are all possible and change exactly this entry, to the whole value, whatever a crash left under the temporary name; nothing temporary remains |
| `CacheOverlap.LonePutFails` | engine/cache/store.py:81-90 | a put that fails after any number of bytes cleans up and leaves every entry, its own included, as it was |
| `CacheOverlap.LonePutCrashes` | engine/cache/store.py:81-91 | a put that crashes after any number of bytes leaves every entry as it was and only its temporary file behind, which the next put of the path takes over |
| `PlanCache.SignatureIff` | engine/orchestrator/run_lifecycle.py:364-368 | for separator-free names two module lists have one signature if and only if they are equal or both read as all |
| `PlanCache.SameKeySameInputs` | engine/orchestrator/run_lifecycle.py:364-374 | for well-named runs one key means one source hash and one sorted module list |
| `PlanCache.HitAgreesIff` | engine/orchestrator/run_lifecycle.py:375-387 | a hit equals recomputing if and only if the cached plan has this run's `ci` flag |
| `PlanCache.CachedPlansAreRecomputed` | engine/orchestrator/run_lifecycle.py:359-413 | over any sequence of well-named runs agreeing on `ci` and sharing a cache, every plan equals the recomputed one |
| `PlanCache.BuildKeepsSound` | engine/orchestrator/run_lifecycle.py:373-410 | every cached plan was written by an earlier non-dry run under its own key |
| `PlanCache.OwnPlanIff` | engine/orchestrator/run_lifecycle.py:364-392 | the recomputed plan is the one with the requested modules in order, each as often as named, and this run's two flags |
| `PlanCache.ModulesTold` | engine/orchestrator/run_lifecycle.py:745-766 | without a request a module runs if and only if its switch is on |
| `PlanCache.BuildTold` | engine/orchestrator/run_lifecycle.py:370-392 | a dry run, or a run whose tree could not be hashed, plans for itself and touches no cache; a miss plans for itself; a hit writes nothing |
| `PlanHistory.PlanIsServed` | engine/orchestrator/run_lifecycle.py:359-410 | over any sequence of runs from an empty cache each plan is the run's own or that of the run whose plan its key was left with |
| `PlanHistory.PlanRightIff` | engine/orchestrator/run_lifecycle.py:359-410 | whatever names, flags and cache failures, a run gets the plan it would recompute if and only if it is served none or one with the same sorted modules and `ci` |
| `PlanHistory.DryRunsKeptApart` | engine/orchestrator/run_lifecycle.py:370-410 | over any sequence of runs, whatever names, flags and failures, a plan says that it is a dry run's if and only if it is served to a dry run, and dry runs leave the cache alone |
| `PlanHistory.ConfiguredIsWellNamed` | engine/orchestrator/run_lifecycle.py:745-766 | no configured set of modules has a name the key cannot tell |
| `PlanHistory.ConfiguredPlansAreRecomputed` | engine/orchestrator/run_lifecycle.py:359-413 | runs that request no modules of their own and agree on `ci` always get the plan they would recompute |
| `PlanCache.KeysCollide` | engine/orchestrator/run_lifecycle.py:364-374 | the three ways distinct plans get one key |
| `PlanCache.PlanContext.BuildExecutionPlan` | engine/orchestrator/run_lifecycle.py:359-413 | plan, hit flag and store after the step are those of the abstract step; an invalid key aborts and changes neither plan nor store |
| `Fingerprint.IterSourceFiles` | engine/cache/fingerprint.py:136-168 | the stack walk collects each file of the tree once, and its sorted result is `SourceFiles` |
| `Fingerprint.ScanDirectory` | engine/cache/fingerprint.py:147-166 | one scan moves a directory's included files to the output and its other directories to the stack, losing none |
| `Fingerprint.CollectIsHasFile` | engine/cache/fingerprint.py:153-166 | what is collected is exactly the included files with no excluded directory on their path |
| `Fingerprint.IncludedIff` | engine/cache/fingerprint.py:127-133 | a file counts if and only if its whole name is listed, or what follows its last dot, dot included, in lower case |
| `Fingerprint.PathsDistinct` | engine/cache/fingerprint.py:145-166 | no path is collected twice |
| `Fingerprint.SourceFilesDependOnContentsOnly` | engine/cache/fingerprint.py:145-168 | two trees give one list if and only if they hold the same included files, however their directories are listed |
| `Fingerprint.FilesInOrder` | engine/cache/fingerprint.py:167-168 | the files come by path, compared component by component |
| `Fingerprint.RecordsCut` | engine/cache/fingerprint.py:200-204 | a record can be read back: path, hash and what follows |
| `Fingerprint.StreamInjective` | engine/cache/fingerprint.py:198-204 | equal streams list the same paths with the same hashes |
| `Fingerprint.StreamIdentifiesTree` | engine/cache/fingerprint.py:178-204 | two trees feed the digest one stream if and only if they hold the same files, as far as the file hash tells contents apart |
| `Fingerprint.ComputeFingerprint` | engine/cache/fingerprint.py:171-210 | the digest of the framed stream of the tree's files, their number and their total size |
| `FingerprintCase.OneStreamIff` | engine/cache/fingerprint.py:167-183 | sorting paths with case and without feeds the digest one stream if and only if no two of the tree's files stand the other way round without case |
| `RateLimit.TokenBucket.RefillTo` | engine/llm/rate_limit.py:33-39 | refilling as specified, never past the capacity, never backwards in time |
| `RateLimit.TokenBucket.TryConsume` | engine/llm/rate_limit.py:41-53 | grants exactly when the refilled bucket holds enough, and takes that many |
| `RateLimit.LlmRateLimit.BucketFor` | engine/llm/rate_limit.py:69-77 | the provider's bucket, made full on first use, every other provider's left alone |
| `RateLimit.LlmRateLimit.SetPolicyFor` | engine/llm/rate_limit.py:79-90 | replaces one provider's bucket by a full one under the policy |
| `RateLimit.LlmRateLimit.EnforceFor` | engine/llm/rate_limit.py:92-96 | one token from the provider's bucket, or the rate-limit error |
| `RateLimit.TokensConserved` | engine/llm/rate_limit.py:33-53 | tokens granted plus tokens left never exceed what was there plus what was earned |
| `RateLimit.WindowBound` | engine/llm/rate_limit.py:33-53 | in any window of length d of any run at most capacity + rate/60·d tokens are granted |
| `RateLimit.RefusalsLeaveNoTrace` | engine/llm/rate_limit.py:41-53 | deleting any of the refused attempts of a run changes no other outcome |
| `RateLimit.ProvidersAreIndependent` | engine/llm/rate_limit.py:69-96 | an interleaved run seen by one provider is that provider's own run |
| `RateLimit.ReachableIsKept` | engine/llm/rate_limit.py:69-96 | every bucket a run can reach holds between nothing and its capacity and was refilled in the past |
| `RateLimit.EveryProviderIsBounded` | engine/llm/rate_limit.py:69-96 | in any stretch of any interleaved run from an empty limiter a provider whose policy is not replaced meanwhile is granted at most capacity plus rate times time, first use included |
| `RateGrants.FullGrantsIff` | engine/llm/rate_limit.py:25-30 | the first call for n tokens succeeds if and only if the capacity is at least n |
| `RateGrants.EverGrantsIff` | engine/llm/rate_limit.py:33-53 | some run of single calls is granted one if and only if the capacity is at least 1 and there is a token or a positive rate |
| `RateGrants.WaitingSuffices` | engine/llm/rate_limit.py:33-53 | whatever was asked before, a call 60/rate seconds after the last is granted when the capacity is at least 1 |
| `RateGrants.PolicyLiveIff` | engine/llm/rate_limit.py:79-90 | a policy lets its provider through if and only if its capacity, given or its rate cut to an integer, is at least 1 |
| `RateLimit.TruncateTold` | engine/llm/rate_limit.py:79-90 | a policy's rate is cut toward zero, by less than one |
| `RateGrants.ProviderGrantedIff` | engine/llm/rate_limit.py:69-96 | after any interleaved run from an empty limiter, some further traffic grants a provider something if and only if the bucket its next call meets can still grant |
| `Budget.LlmBudget.TotalUsage` | engine/llm/budget.py:125-134 | the sum over callers, whatever order the records come in |
| `Budget.LlmBudget.PreCheck` | engine/llm/budget.py:148-169 | caller cap first, then run cap, with the projected amounts |
| `Budget.CapTold` | engine/llm/budget.py:136-143 | planner, analyzer and healer have their own cap when they are given one; everyone else has the run's |
| `Budget.LlmBudget.Add` | engine/llm/budget.py:171-184 | one caller's usage and the total each grow by the call, no other caller's changes |
| `Budget.UpdateAdds` | engine/llm/budget.py:125-134 | adding to one caller adds to the total |
| `Budget.NextKeepsInv` | engine/llm/budget.py:148-184 | every check and booking of interleaved calls keeps each pending call within the caps up to what was booked since its check |
| `Budget.EveryBookingBounded` | engine/llm/budget.py:148-184 | any booking of any interleaved run overshoots either cap by at most its own excess plus what was booked in between |
| `Budget.OvershootTold` | engine/llm/budget.py:148-184 | a call checked after any run and booked after any further one overshoots the run's cap and its caller's by at most its own excess plus the sum of what was booked, in all or for the caller, between the two |
| `Budget.CallsOneAtATime` | engine/llm/budget.py:148-184 | without interleaving the run cap is passed by at most the last call's (actual − estimate), each caller's by its own last excess |
| `Budget.HonestEstimatesKeepCaps` | engine/llm/budget.py:148-184 | with actual ≤ estimate no cap is ever passed |
| `Budget.InFlightCallsOvershoot` | engine/llm/budget.py:148-184 | for every positive cap, two calls checked before either is booked spend twice the cap with exact estimates |
| `BudgetInFlight.InFlightFitsIff` | engine/llm/budget.py:148-184 | every honest completion of the calls in flight keeps the run's cap, or a caller's, if and only if what is spent and what is estimated for the pending calls fit it together |
| `BudgetInFlight.RunFitsIff` | engine/llm/budget.py:148-184 | at no point of an interleaved run can honest bookings of the calls then pending pass the cap, if and only if that sum fits at every point |
| `BudgetInFlight.PassingCheckFitsIff` | engine/llm/budget.py:148-169 | a call that passes the check leaves every honest completion within the cap if and only if the estimates already out leave room for its own |
| `Planner.DeterministicPlanner.Plan` | engine/planner/core.py:144-358 | the loops, sorts and id draws give the plan that the theorems below are about, and advance the generator by two ids per flow and one for the plan |
| `PlannerRules.EveryFlowTold` | engine/planner/core.py:175-328 | every flow of every plan, from the graph and the risk map alone: its risk is critical from 0.80 of the route's last score, high from 0.60, medium from 0.30, else low; a smoke or boundary flow is P0 exactly on a sensitive path or at critical risk, else P1, P2, P3 as the risk falls; a form flow is P0 or P1 likewise; boundary and form flows carry the role of the route's first boundary; a contract flow is P1, and high exactly with an authentication strategy; with each its name, targets and tags |
| `PlannerRules.RouteClassified` | engine/planner/core.py:92-109 | a path is sensitive if and only if one of the listed hints occurs somewhere in its lower-case text; login goes before signup, payment and admin |
| `PlannerRules.RouteRiskTold` | engine/planner/core.py:77-83 | a route's risk by the four cutoffs, from the last entry the risk map has for it |
| `PlannerRules.RoleIsFirst` | engine/planner/core.py:413-422 | a route's role is that of its first boundary |
| `PlannerRules.OrdersTold` | engine/planner/core.py:164-333 | routes are taken by path and id, forms by id, endpoints by path, verb and id |
| `PlannerRules.PlanHead` | engine/planner/core.py:335-358 | the plan names its run, target, graph and risk map, and its id is drawn after those of its flows and cases |
| `PlannerRules.IdsTold` | engine/planner/core.py:364-410 | every flow has one of the ids drawn for flows |
| `Planner.DeterministicPlanner.PlanRoute` | engine/planner/core.py:175-295 | per route a smoke flow, an auth-boundary flow if required, then one flow per form, each with its case |
| `Planner.DeterministicPlanner.Emit` | engine/planner/core.py:364-410 | a flow and its case take the next two ids and refer to each other |
| `Planner.DeterministicPlanner.PlanEndpoints` | engine/planner/core.py:307-328 | one contract flow per endpoint after the routes' flows |
| `Planner.BucketFormsByRoute` | engine/planner/core.py:467-495 | the dictionaries built by the loops are the specified buckets |
| `Planner.CoverageEstimate` | engine/planner/core.py:439-445 | the counting loop is the specified count |
| `PlannerTies.ContractHoldsIff` | engine/planner/core.py:22-26 | every run of the planner, whatever ids it draws without repeating itself, gives a graph the same plan modulo ids if and only if no two routes share path and risk, no two forms go to one route and no two endpoints share verb, path and protection |
| `PlannerTies.ListingContractHoldsIff` | engine/planner/core.py:22-26 | two listings of one graph give the same plan modulo ids if and only if, besides, each form goes to one route in both |
| `PlannerTies.UntiedIff` | engine/planner/core.py:175-333 | that condition on the graph holds if and only if no two different flows tie in priority, risk and name |
| `PlannerIds.PlanIsFixedIff` | engine/planner/core.py:330-341 | the plan is the same modulo ids for all draws if and only if no two different flows tie |
| `PlannerIds.ListingsAgreeIff` | engine/planner/core.py:330-341 | the same for two listings, in which each form must go to one route |
| `PlannerIds.UntiedBodies` | engine/planner/core.py:330-333 | without ties the flows come in the order of priority, risk and name, whatever their ids |
| `PlannerIds.TieShows` | engine/planner/core.py:330-333 | for any two different flows that tie, two generators put the flows in different orders |
| `PlannerOrder.FormsStayPlanStays` | engine/planner/core.py:154-358 | under one draw of ids, relisting routes, forms and endpoints leaves flows, cases, ids and order identical wherever it moves no form to another route |
| `PlannerOrder.PlanForgetsOrder` | engine/planner/core.py:154-358 | in particular when no two routes share a path |
| `PlannerListing.PlanStaysIff` | engine/planner/core.py:154-358 | under one draw of ids, two listings of one graph with distinct ids give one plan if and only if each form goes to one route in both |
| `PlannerListing.PlanStaysIffFirstListedStay` | engine/planner/core.py:483-494 | the same in terms of the listings: at each path where some form looks, the same route is listed first |
| `PlannerListing.SharedPathShows` | engine/planner/core.py:483-494 | swapping two routes at one path changes the plan whenever a form looks there |
| `PlannerOrder.SketchesForgetOrder` | engine/planner/core.py:154-175 | the flows before ids are drawn are the same wherever no form moves |
| `PlannerOrder.FormGoesToFirstListed` | engine/planner/core.py:483-494 | a form goes to the first listed route at its action path, else to the first listed route at the least path |
| `PlannerOrder.SortKeepsFirst` | engine/planner/core.py:483-486 | sorting by path keeps the first route at each path first |
| `PlannerOrder.RouteOfFormIsFirst` | engine/planner/core.py:483-494 | a form's route is the first listed one at its action path, or at the least path when no route is there |
| `PlannerCounts.PlanCount` | engine/planner/core.py:175-333 | the final sorts lose and gain no flow about any subject |
| `PlannerCounts.RoutesConserved` | engine/planner/core.py:180-245 | each route has exactly one smoke flow, and one auth-boundary flow if and only if it needs authentication |
| `PlannerCounts.FormsPlanned` | engine/planner/core.py:249-295 | a form is planned once per route bearing its bucket's id, and not at all without routes |
| `PlannerCounts.FormsConservedIff` | engine/planner/core.py:160-165 | with distinct ids a form has exactly one form flow if and only if there is a route |
| `PlannerCounts.EndpointsConserved` | engine/planner/core.py:309-328 | each endpoint has exactly one contract flow |
| `PlannerCounts.FlowTotal` | engine/planner/core.py:175-333 | nothing else is planned: the flows number routes, protected routes, forms and endpoints together |
| `PlannerCases.CasesFollowFlows` | engine/planner/core.py:330-341 | each flow has exactly one case, at the same position, pointing at it and of the type the flow calls for |
| `PlannerCases.PlanCoverage` | engine/planner/core.py:343 | coverage counts each case under its module and sums to the total, which is the number of flows and of cases |
| `PlannerCases.UrgentFirst` | engine/planner/core.py:330-333 | flows come by priority, then falling risk, then name |
| `PlannerCases.AuditCandidatesAreMarked` | engine/planner/core.py:185-189 | a smoke flow is an audit candidate if and only if a form bucketed under its route has no submit handler |
| `PlannerCases.FormFlowsFitTheirForm` | engine/planner/core.py:249-295 | a form's flow runs on the route the form is bucketed under and is an audit candidate if and only if the form has no submit handler |
| `PlannerCases.ContainsIff` | engine/planner/core.py:92-94 | a path carries a hint if and only if the hint occurs somewhere in it |
| `Naming.AccessorName` | engine/generator/page_objects.py:107-124 | the base name, or with the least free index, and the set grown by it |
| `Naming.BaseNameTold` | engine/generator/page_objects.py:107-118 | a base name is the words of the accessible name, for want of one of the role, in camel case, behind an underscore where they start with a digit, and the role's suffix |
| `Naming.WordsTold` | engine/generator/page_objects.py:109-113 | the words are the longest stretches of letters and digits, in turn and in lower case |
| `Naming.CamelTold` | engine/generator/page_objects.py:113 | the first word stays as it is and each later one gets its first letter in upper case |
| `Naming.RoleSuffixTold` | engine/generator/page_objects.py:127-137 | which roles get which suffix, whatever their case |
| `Naming.SearchEnds` | engine/generator/page_objects.py:118-121 | pigeonhole: the search tries at most as many indices as there are used names |
| `Naming.DecimalInjective` | engine/generator/page_objects.py:120-122 | different indices give different suffixes |
| `Naming.DecimalTold` | engine/generator/page_objects.py:119-124 | an index is written in decimal digits that denote it, without a leading zero |
| `Naming.FreeIsLeast` | engine/generator/page_objects.py:118-122 | the name is new, unchanged if it was free, and no smaller index was |
| `Naming.AccessorsDistinct` | engine/generator/page_objects.py:229-239 | a page's accessors are pairwise different identifiers and every element is named or skipped |
| `Naming.PageAccessors` | engine/generator/page_objects.py:229-239 | the sort and the loop over a page's elements compute those names |
| `Naming.PageForgetsOrder` | engine/generator/page_objects.py:229-239 | a page's accessors do not depend on the order in which its elements were found |
| `Naming.ElementLeTold` | engine/generator/page_objects.py:232 | elements are taken by role, name and id |
| `Naming.NameSpecs` | engine/generator/pipeline.py:112-140 | the k-th flow with a slug gets the slug's name with suffix `_k` |
| `Naming.PathTold` | engine/generator/pipeline.py:108-140 | the first flow with a slug has the slug's path, each later one its number behind an underscore |
| `Naming.SpecPathsDistinctIff` | engine/generator/pipeline.py:118-130 | spec paths are pairwise different if and only if no slug equals another one plus an index that one is given |
| `Naming.SuffixedSlugClashes` | engine/generator/pipeline.py:118-130 | slugs s, s, s_2 give one path twice |
| `PlanMarkdown.RenderGeneratedPlanMd` | engine/generator/plan_md.py:37-124 | appending the heads line by line and the rows and bullets in loops gives the document of blocks, joined and stripped |
| `PlanMarkdown.ReadPriorSpecPaths` | engine/generator/plan_md.py:127-157 | the flag-and-list loop reads the bullets under the specs heading |
| `PlanMarkdown.ReadBlocks` | engine/generator/plan_md.py:144-156 | reading tidy blocks gives exactly the bullets of those under the heading |
| `PlanMarkdown.ReadIff` | engine/generator/plan_md.py:144-156 | in any text, rendered or not, the reader finds a path if and only if some bullet quotes it whose last heading before it is the one looked for |
| `PlanMarkdown.RoundTrip` | engine/generator/plan_md.py:37-157 | for newline-free fields, reading the rendered text gives the sorted spec paths |
| `PlanTable.TableRoundTrip` | engine/generator/plan_md.py:59-70 | for fields without newlines and bars, the table read back from the rendered text has every flow once, by priority, name and id, each value under its own heading |
| `PlanTable.SummaryRead` | engine/generator/plan_md.py:48-57 | the rendered text names plan, run and target and gives the four counts, each on its own line |
| `PlanTable.NoChangesRead` | engine/generator/plan_md.py:94-111 | when the specs are those of the previous generation, the rendered text says so |
| `PlanMarkdown.DiffAccounts` | engine/generator/plan_md.py:94-124 | prior specs less the removed ones plus the added ones, as read from the text, are the current specs |
| `Text.SplitJoined` | engine/generator/plan_md.py:102-144 | splitting what was joined gives the lines back |
| `Alphabet.LinesTold` | engine/healer/locator_repair.py:185 | splitting any text loses nothing, cuts it behind each line ending and nowhere else, and the bare lines are the pieces without their endings |
| `Alphabet.StripTold` | engine/generator/plan_md.py:145 | stripping takes the blanks off both ends of a text and nothing else |
| `Vault.Vault.Put` | engine/auth/vault.py:156-181 | refusals in the source's order, else ciphertext and sidecar replaced together under the existing or a new key |
| `Vault.Vault.Get` | engine/auth/vault.py:242-311 | the refusals in the source's order, else the entry, with its last use rewritten when touched; an entry is handed out only if some allowed host is the asked one up to outer blanks and case, and a host mismatch is reported exactly when the name is valid, the slot is stored and there is none |
| `Vault.OnlyAllowedHosts` | engine/auth/vault.py:262-276 | the same of a lookup in any state |
| `Vault.NameIff` | engine/auth/vault.py:73-106 | an entry name is accepted if and only if it is 1 to 128 letters, digits, dots, underscores and hyphens, a letter or digit first |
| `Vault.SlugTold` | engine/auth/vault.py:87-99 | a host's directory is its lower-case text with every unsafe character replaced; it is never empty and never hidden |
| `Vault.Vault.Revoke` | engine/auth/vault.py:183-209 | both files of the slot are gone, and whether there was a ciphertext |
| `Vault.Vault.RevokeAll` | engine/auth/vault.py:211-236 | every file is gone, the ciphertexts counted, the key kept |
| `Vault.Vault.List` | engine/auth/vault.py:313-335 | every sidecar once, by directory and file name |
| `Vault.AssociatedDataInjective` | engine/auth/vault.py:120-121 | for valid names the associated data determines host and name |
| `Vault.EnvelopeRoundTrip` | engine/auth/vault.py:369-405 | an envelope gives its entry back if and only if the entry names its capturer; else the command line stands in |
| `Vault.LookupIff` | engine/auth/vault.py:258-311 | an entry is found if and only if its slot was sealed for this very host, with the current key, the host allowed and the time not past; another host on the slot fails integrity; the schema and slug checks never fire |
| `Vault.StepKeepsInv` | engine/auth/vault.py:156-236 | every operation keeps ciphertexts and sidecars in step, each sidecar its entry's public view |
| `Vault.SidecarsMatch` | engine/auth/vault.py:313-322 | the same after any history from an empty vault |
| `Vault.GetReturnsLastPut` | engine/auth/vault.py:242-311 | after any history a lookup refuses or returns the entry last put under exactly this host and name, but for its last use |
| `Vault.PutThenGet` | engine/auth/vault.py:156-311 | what was stored is found until it expires, if the host is allowed |
| `Vault.SharedSlugHides` | engine/auth/vault.py:87-99 | storing under a host hides the entry of another host with the same slug |
| `Vault.ListingUnique` | engine/auth/vault.py:327-335 | the listing is a function of the directory tree |
| `VaultHistory.StepRefines` | engine/auth/vault.py:156-311 | every operation does to a plain map of entries what it does to the encrypted files |
| `VaultHistory.FoundIff` | engine/auth/vault.py:242-311 | after any history an entry is found if and only if its slot was last written for this host and not emptied since, under the key in use, the host allowed and time left |
| `VaultHistory.RefusedIff` | engine/auth/vault.py:256-276 | after any history: exactly when a lookup refuses for the name, for want of an entry, for the host or for want of a key |
| `VaultHistory.BrokenOrExpiredIff` | engine/auth/vault.py:277-311 | and exactly when for a broken seal or an entry out of time; it refuses for no other reason |
| `VaultListing.ListedByNameIff` | engine/auth/vault.py:327-328 | the listing is in order of directory and entry name if and only if no directory holds a name and a longer one whose file comes first |
| `VaultListing.OutOfNameOrderIff` | engine/auth/vault.py:327-328 | two files stand against their names if and only if they share a directory and one name so jumps the other |
| `VaultListing.VaultListedAsDocumentedIff` | engine/auth/vault.py:313-328 | after any history the listing is in order of host and name if and only if no two stored entries are misplaced: hosts that their slugs or files order the other way, or a name of one host that jumps another |
| `VaultListing.OwnSlugsListedIff` | engine/auth/vault.py:313-328 | after any history with hosts that are their own slugs, if and only if no name of a host jumps another name of that host |
| `VaultListing.JumpingIsListedFirst` | engine/auth/vault.py:313-328 | storing two names of one host of which the longer jumps gives a vault listed against the documented order |
| `FlakeDb.FlakeDb.RecordRun` | engine/persistence/flake_db.py:136-154 | inserts or patches one run and commits; outcomes stay |
| `FlakeDb.FlakeDb.RecordOutcome` | engine/persistence/flake_db.py:156-171 | refused without effect when the run is unknown, else replaces one row and commits |
| `FlakeDb.FlakeDb.RecordOutcomes` | engine/persistence/flake_db.py:173-186 | the batch takes effect up to the first unknown run, commits if and only if there is none |
| `FlakeDb.FlakeDb.FlakeRate` | engine/persistence/flake_db.py:192-210 | counts rows and failures among the window's leading rows of some valid ranking |
| `FlakeDb.FlakeDb.TopFlaky` | engine/persistence/flake_db.py:212-247 | filter, sort and slice of the aggregates in whatever order the groups come; of any two listed tests the first has the larger ratio of failures to runs, at equal ratios no fewer failures, at equal failures the smaller id; each is counted over the tables and has enough runs; nothing eligible left out has a larger ratio than one listed, by the same tie rule |
| `FlakeDb.StepKeepsInv` | engine/persistence/flake_db.py:76-86 | every write, refused or not, and reopening keep every outcome tied to an existing run |
| `FlakeDb.PlayKeepsInv` | engine/persistence/flake_db.py:76-186 | the same over any history |
| `FlakeDb.OutcomesAreLastAccepted` | engine/persistence/flake_db.py:136-186 | over any history, closings included, the outcomes seen and the committed ones are those accepted and not lost, the last per key; recording runs never changes one |
| `FlakeDb.BulkTakesPrefix` | engine/persistence/flake_db.py:178-186 | a batch takes effect up to its first unknown run and is refused if and only if it has one |
| `FlakeDb.RefusedIff` | engine/persistence/flake_db.py:156-186 | a write is refused if and only if it names a run that was never recorded |
| `FlakeDb.RefusedBatchIsNotDurable` | engine/persistence/flake_db.py:178-186 | after a refused batch its prefix is visible and is lost on reopening |
| `FlakeDb.NewestShiftsWindow` | engine/persistence/flake_db.py:195-209 | an outcome in a strictly newest run changes the windowed failures by the new failure less the evicted one |
| `FlakeWindow.WindowStaysIff` | engine/persistence/flake_db.py:192-210 | the stat is the same for every order of tied runs if and only if the window does not end inside a tie, or the runs tied at its edge all failed or none did |
| `FlakeDb.WholeWindowIsAggregate` | engine/persistence/flake_db.py:192-230 | a window covering every row gives the aggregate of the flakiest list |
| `FlakeDb.TopIsFlakiest` | engine/persistence/flake_db.py:231-247 | the list is ordered, holds only aggregates with enough runs, and leaves out none that the order puts before one listed |
| `FlakeDb.TopIsFlakiestByTables` | engine/persistence/flake_db.py:219-247 | the same from the tables alone, ratios compared by cross-multiplication |
| `FlakeDb.StatLeMeans` | engine/persistence/flake_db.py:243-247 | the order is the larger ratio first, then more failures, then the smaller id |
| `FlakeDb.TopFills` | engine/persistence/flake_db.py:247 | for a limit of zero or more the list is as long as the limit and the tests allow |
| `FlakeTop.TopIgnoresGroupOrderIff` | engine/persistence/flake_db.py:219-247 | the list is the same for every order of the groups if and only if no listed test ties, in rate, failures and id, with another module's |
| `FlakeTop.TopIgnoresGroupOrder` | engine/persistence/flake_db.py:219-247 | in particular when no two modules share a test id |
| `FlakeTop.WindowHarmlessIff` | engine/persistence/flake_db.py:212-247 | cutting the candidates to `window` before the limit would change nothing if and only if the limit or their number is within it, or a negative limit drops them all |
| `DiffRuns.MatchesAreStable` | scripts/diff_runs.py:59-60 | renaming run ids neither creates nor hides a match |
| `DiffRuns.MatchIff` | scripts/diff_runs.py:59 | a run id is `RUN-` and twelve capitals or digits |
| `DiffRuns.FieldsStamped` | scripts/diff_runs.py:34-52 | the fields left out of every comparison, and those left out of a run's envelope |
| `DiffRuns.StringFormsAgree` | scripts/diff_runs.py:77-80 | two strings have one normal form if and only if one is a renaming of the other |
| `DiffRuns.NormalFormsAgree` | scripts/diff_runs.py:63-81 | two JSON trees have one normal form if and only if they differ only in run ids within strings and in volatile fields |
| `DiffRuns.NormalizeIdempotent` | scripts/diff_runs.py:63-81 | normalising twice is normalising once |
| `DiffRuns.StrictKeepsAll` | scripts/diff_runs.py:63-81 | strict mode compares the trees themselves |
| `DiffRuns.FileFormsAgree` | scripts/diff_runs.py:84-121 | the same for a whole artifact, by its file name: log rows, run envelopes without their own fields, JSON documents, or text |
| `DiffRuns.StrictFormsAgree` | scripts/diff_runs.py:84-121 | in strict mode two artifacts have one form if and only if their log rows, their documents or their texts are equal |
| `DiffRuns.DiffDirectories` | scripts/diff_runs.py:128-165 | the report names exactly the files that are missing, extra or differ in form, run by run |
| `DiffRuns.DiffPair` | scripts/diff_runs.py:138-164 | the same for one pair of runs |
| `DiffRuns.CleanIff` | scripts/diff_runs.py:138-165 | the report is empty if and only if every run has the first one's files, each alike (in strict mode: each with the same form) |
| `LocatorRepair.BestCandidate` | engine/healer/locator_repair.py:121-137 | the loop and in-place sort pick the specified candidate |
| `LocatorRepair.BestIsBest` | engine/healer/locator_repair.py:85-137 | the choice scores highest, least name among equals; there is none if and only if no role matches |
| `LocatorRepair.BestTold` | engine/healer/locator_repair.py:121-137 | of the candidates with the role none scores higher than the choice, and none that scores as high has a smaller name |
| `LocatorRepair.ScoreTold` | engine/healer/locator_repair.py:85-118 | the six grades of a candidate, each exactly by what it takes: another role, only the role, a similar name, a similar name in one landmark, the name, the name in one landmark |
| `LocatorRepair.OrderDoesNotMatter` | engine/healer/locator_repair.py:121-137 | candidates with the same members give the same confidence, name and rationale |
| `LocatorTies.TiesGoToTheFirst` | engine/healer/locator_repair.py:133-136 | the choice stands before every other candidate as good as it, in any list |
| `LocatorTies.BestStaysIff` | engine/healer/locator_repair.py:121-137 | every listing of the candidates leads to one choice if and only if all that tie at the top are equal |
| `LocatorTies.ProposalStaysIff` | engine/healer/locator_repair.py:178-243 | the same for the whole proposal, recorded descriptor included |
| `LocatorRepair.ProposedIff` | engine/healer/locator_repair.py:178-244 | there is a proposal if and only if some candidate has the role, the line can be edited, the chosen name changes it and no assertion is lost |
| `LocatorRepair.EditTouchesOneLine` | engine/healer/locator_repair.py:185-195 | the edit replaces the target line only, and changes the text if and only if it changes that line |
| `LocatorRepair.ProposalTold` | engine/healer/locator_repair.py:140-243 | a proposal quotes the numbered line and what becomes of it, both without newlines; its source is the text with that line's argument replaced by the chosen name between slashes; its descriptor records the candidate |
| `LocatorRepair.ProposeLocatorRepair` | engine/healer/locator_repair.py:166-244 | overwriting one slot of the copied lines gives the specified outcome |
| `LocatorRepair.ConfidentIffExact` | engine/healer/locator_repair.py:94-118 | confidence reaches 0.9 if and only if some candidate has the descriptor's role and name, and then the choice is one |
| `LocatorRepair.AutoAppliedIff` | engine/healer/gating.py:49-109 | with both thresholds at 0.9, exactly when a locator edit is applied unattended |
| `LocatorRepair.GateOpensIff` | engine/healer/gating.py:49-109 | for every kind of repair, mode and flag: exactly when it is applied, and which closed gate is named otherwise |

## Left out

- HTTP, redirects, retries, the crawler's own request pacing and HTML parsing: a site is a function from URL to response, robots a predicate.
- URL normalisation and joining: a function parameter of the crawl.
- SHA-256 and AES-GCM: hashing is a function parameter, assumed injective only on the files at hand; sealing is ideal; keys and nonces are not modelled beyond equality.
- Floating point: reals, so two rates or costs that only rounding makes equal stay different.
- Path separators: paths are lists of components.
- UTF-8, Unicode normalisation and case folding outside ASCII: strings are sequences of characters, `lower()` acts on ASCII letters.
- JSON text, datetime formats and Pydantic length limits: trees and values instead of text, inverse pairs assumed.
- sqlite, the OS keyring and its failures, real directories, permissions: tables and files are maps; parent directories always exist, also for cache keys that climb with `..`.
- Files that vanish or cannot be read during a walk or a comparison; directories that cannot be listed are modelled.
- Crashes between the vault's ciphertext and sidecar writes.
- Lifecycle hooks, and with them changes they might make to the plan.
- Planner.DeterministicPlanner.Plan: without flow extractors, because they are a table of rules of their own; `flows_by_route_id`, an index over the same flows, step wordings and placeholder file paths are not modelled.
- Random ids: the planner takes its generator as a function from draw number to slug, which the order theorems leave arbitrary, and which the case theorem and the contract theorems take not to repeat itself within a plan.
- LocatorRepair.ProposeLocatorRepair: the span of the `name:` argument, the escaping of names, string similarity and the assertion count are parameters, because regular expressions and difflib are not modelled (the run-id matcher is).
- Spec slugs from flow names, template rendering, page-object class names: slugs are given; a flow that renders to nothing takes no part.
- The wording and order of messages in the comparison report, and comparison of single files, which is the same per-file step.
- The vault's plaintext export (a lookup without touch) and its empty-directory pruning.
- Vault.Vault.List: one sort by directory and file name stands for the two nested sorted loops; corrupt sidecars, which are skipped, do not arise.
- `pathlib` suffixes follow Python 3.11.
- Provider adapters, prompts, login flows, MFA detection, the reporter, the CLI and configuration tables: plumbing.
