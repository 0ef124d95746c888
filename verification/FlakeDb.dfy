/** engine/persistence/flake_db.py: outcomes of tests across runs.  The two tables are maps keyed by their
    primary keys; a query that leaves an order open is met by any order that satisfies it. */
module FlakeDb {
  import opened Counting
  import opened Sorting

  datatype Status = Passed | Failed | Skipped | Errored

  datatype RunRow = RunRow(startedAt: string, status: string)

  datatype Outcome = Outcome(runId: string, moduleName: string, testId: string, status: Status, durationMs: int)

  datatype Key = Key(runId: string, moduleName: string, testId: string)
  datatype Row = Row(status: Status, durationMs: int)

  datatype Tables = Tables(runs: map<string, RunRow>, outcomes: map<Key, Row>)

  /** What this connection sees, and what has been committed. */
  datatype Db = Db(now: Tables, saved: Tables)

  // ----- writes -----

  function KeyOf(o: Outcome): Key { Key(o.runId, o.moduleName, o.testId) }

  function Inserted(t: Tables, o: Outcome): Tables { t.(outcomes := t.outcomes[KeyOf(o) := Row(o.status, o.durationMs)]) }

  function Commit(t: Tables): Db { Db(t, t) }

  function RecordRun(db: Db, id: string, startedAt: string, status: string): Db {
    Commit(db.now.(runs := db.now.runs[id := RunRow(startedAt, status)]))
  }

  /** The flag says that the foreign key was refused. */
  function RecordOutcome(db: Db, o: Outcome): (Db, bool) {
    if o.runId in db.now.runs then (Commit(Inserted(db.now, o)), false) else (db, true)
  }

  function Bulk(t: Tables, os: seq<Outcome>): (Tables, bool)
    decreases |os|
  {
    if os == [] then (t, false) else if os[0].runId !in t.runs then (t, true) else Bulk(Inserted(t, os[0]), os[1..])
  }

  /** A refused row ends the batch: earlier rows stay visible but are not committed. */
  function RecordOutcomes(db: Db, os: seq<Outcome>): (Db, bool) {
    if os == [] then (db, false)
    else
      var (t, refused) := Bulk(db.now, os);
      (if refused then db.(now := t) else Commit(t), refused)
  }

  datatype Op =
    | Run(id: string, startedAt: string, status: string)
    | One(outcome: Outcome)
    | Many(outcomes: seq<Outcome>)
    | Reopen

  function Step(db: Db, op: Op): Db {
    match op
    case Run(id, startedAt, status) => RecordRun(db, id, startedAt, status)
    case One(o) => RecordOutcome(db, o).0
    case Many(os) => RecordOutcomes(db, os).0
    case Reopen => Commit(db.saved)
  }

  function Play(db: Db, ops: seq<Op>): Db
    decreases |ops|
  {
    if ops == [] then db else Play(Step(db, ops[0]), ops[1..])
  }

  /** Every outcome's run exists. */
  ghost predicate Linked(t: Tables) { forall k | k in t.outcomes :: k.runId in t.runs }

  ghost predicate Inv(db: Db) { Linked(db.now) && Linked(db.saved) && db.now.runs == db.saved.runs }

  lemma {:induction false} BulkKeeps(t: Tables, os: seq<Outcome>)
    requires Linked(t)
    ensures Linked(Bulk(t, os).0) && Bulk(t, os).0.runs == t.runs
    decreases |os|
  {
    if os != [] && os[0].runId in t.runs { BulkKeeps(Inserted(t, os[0]), os[1..]); }
  }

  /** Every write, refused or not, keeps every outcome tied to a run. */
  lemma StepKeepsInv(db: Db, op: Op)
    requires Inv(db)
    ensures Inv(Step(db, op))
  {
    if op.Many? { BulkKeeps(db.now, op.outcomes); }
  }

  lemma {:induction false} PlayKeepsInv(db: Db, ops: seq<Op>)
    requires Inv(db)
    ensures Inv(Play(db, ops))
    decreases |ops|
  {
    if ops != [] {
      StepKeepsInv(db, ops[0]);
      PlayKeepsInv(Step(db, ops[0]), ops[1..]);
    }
  }

  // ----- what the outcome table holds -----

  function Applied(m: map<Key, Row>, os: seq<Outcome>): map<Key, Row>
    decreases |os|
  {
    if os == [] then m else Applied(m[KeyOf(os[0]) := Row(os[0].status, os[0].durationMs)], os[1..])
  }

  /** How many outcomes of a batch come before the first whose run is unknown. */
  function Known(runs: set<string>, os: seq<Outcome>): (n: nat)
    ensures n <= |os| && (forall i | 0 <= i < n :: os[i].runId in runs) && (n < |os| ==> os[n].runId !in runs)
  {
    if os == [] || os[0].runId !in runs then 0 else 1 + Known(runs, os[1..])
  }

  /** The outcomes written so far, in order: committed ones, then those of refused batches since the last commit. */
  datatype Log = Log(kept: seq<Outcome>, loose: seq<Outcome>)

  /** A write that goes through commits whatever is loose; a refused batch adds its known prefix to that; closing loses it. */
  function LogStep(runs: set<string>, log: Log, op: Op): Log {
    match op
    case Run(_, _, _) => Log(log.kept + log.loose, [])
    case One(o) => if o.runId in runs then Log(log.kept + log.loose + [o], []) else log
    case Many(os) =>
      if os == [] then log
      else if Known(runs, os) == |os| then Log(log.kept + log.loose + os, [])
      else log.(loose := log.loose + os[..Known(runs, os)])
    case Reopen => log.(loose := [])
  }

  function LogOf(runs: set<string>, log: Log, ops: seq<Op>): Log
    decreases |ops|
  {
    if ops == [] then log
    else LogOf(if ops[0].Run? then runs + {ops[0].id} else runs, LogStep(runs, log, ops[0]), ops[1..])
  }

  lemma {:induction false} AppliedConcat(m: map<Key, Row>, a: seq<Outcome>, b: seq<Outcome>)
    ensures Applied(m, a + b) == Applied(Applied(m, a), b)
    decreases |a|
  {
    if a == [] { assert a + b == b; } else {
      assert (a + b)[1..] == a[1..] + b;
      AppliedConcat(m[KeyOf(a[0]) := Row(a[0].status, a[0].durationMs)], a[1..], b);
    }
  }

  /** A batch takes effect up to its first unknown run, and is refused exactly when it has one. */
  lemma {:induction false} BulkTakesPrefix(t: Tables, os: seq<Outcome>)
    ensures Bulk(t, os).0 == Tables(t.runs, Applied(t.outcomes, os[..Known(t.runs.Keys, os)]))
    ensures Bulk(t, os).1 <==> exists o | o in os :: o.runId !in t.runs
    decreases |os|
  {
    if os != [] && os[0].runId in t.runs {
      BulkTakesPrefix(Inserted(t, os[0]), os[1..]);
      var n := Known(t.runs.Keys, os);
      assert os[..n][1..] == os[1..][..n - 1];
      assert forall o :: o in os <==> o == os[0] || o in os[1..];
    } else if os != [] {
      assert os[0] in os;
    }
  }

  /** A write is refused exactly when it names a run that was never recorded. */
  lemma RefusedIff(db: Db, o: Outcome, os: seq<Outcome>)
    ensures RecordOutcome(db, o).1 <==> o.runId !in db.now.runs
    ensures RecordOutcomes(db, os).1 <==> exists x | x in os :: x.runId !in db.now.runs
  {
    BulkTakesPrefix(db.now, os);
  }

  ghost predicate Holds(db: Db, log: Log, m: map<Key, Row>) {
    db.saved.outcomes == Applied(m, log.kept) && db.now.outcomes == Applied(m, log.kept + log.loose)
  }

  lemma BatchLogs(db: Db, log: Log, m: map<Key, Row>, os: seq<Outcome>)
    requires Inv(db) && Holds(db, log, m) && os != []
    ensures Holds(Step(db, Many(os)), LogStep(db.now.runs.Keys, log, Many(os)), m)
    ensures Step(db, Many(os)).now.runs == db.now.runs
  {
    var n := Known(db.now.runs.Keys, os);
    BulkTakesPrefix(db.now, os);
    AppliedConcat(m, log.kept + log.loose, os[..n]);
    if n == |os| {
      assert os[..n] == os;
      assert log.kept + log.loose + os + [] == log.kept + log.loose + os;
    } else {
      assert os[n] in os;
      assert log.kept + log.loose + os[..n] == log.kept + (log.loose + os[..n]);
    }
  }

  lemma StepLogs(db: Db, log: Log, m: map<Key, Row>, op: Op)
    requires Inv(db) && Holds(db, log, m)
    ensures Holds(Step(db, op), LogStep(db.now.runs.Keys, log, op), m)
    ensures Step(db, op).now.runs.Keys == if op.Run? then db.now.runs.Keys + {op.id} else db.now.runs.Keys
  {
    match op
    case Run(id, startedAt, status) => assert log.kept + log.loose + [] == log.kept + log.loose;
    case One(o) =>
      AppliedConcat(m, log.kept + log.loose, [o]);
      assert [o][1..] == [] && log.kept + log.loose + [o] + [] == log.kept + log.loose + [o];
    case Many(os) => if os != [] { BatchLogs(db, log, m, os); }
    case Reopen => assert log.kept + [] == log.kept;
  }

  lemma {:induction false} PlayLogs(db: Db, log: Log, m: map<Key, Row>, ops: seq<Op>)
    requires Inv(db) && Holds(db, log, m)
    ensures Holds(Play(db, ops), LogOf(db.now.runs.Keys, log, ops), m)
    decreases |ops|
  {
    if ops != [] {
      StepLogs(db, log, m, ops[0]);
      StepKeepsInv(db, ops[0]);
      PlayLogs(Step(db, ops[0]), LogStep(db.now.runs.Keys, log, ops[0]), m, ops[1..]);
    }
  }

  /** Over any history, closings included, the outcomes a connection sees are those whose run was known when
      they came and that no closing lost, the last for each key; the committed ones are those before the loose
      rest.  In particular recording or re-recording a run never changes one. */
  lemma OutcomesAreLastAccepted(db: Db, ops: seq<Op>)
    requires Inv(db) && db.now == db.saved
    ensures var log := LogOf(db.now.runs.Keys, Log([], []), ops);
      && Play(db, ops).saved.outcomes == Applied(db.now.outcomes, log.kept)
      && Play(db, ops).now.outcomes == Applied(db.now.outcomes, log.kept + log.loose)
  {
    PlayLogs(db, Log([], []), db.now.outcomes, ops);
  }

  /** After a refused batch the rows before the refused one are visible, and gone on reopening. */
  lemma RefusedBatchIsNotDurable(db: Db, os: seq<Outcome>)
    requires db.now == db.saved && RecordOutcomes(db, os).1
    ensures Step(db, Many(os)).now.outcomes == Applied(db.now.outcomes, os[..Known(db.now.runs.Keys, os)])
    ensures Step(Step(db, Many(os)), Reopen) == db
  {
    BulkTakesPrefix(db.now, os);
  }

  // ----- the windowed rate -----

  datatype FlakeStat = FlakeStat(moduleName: string, testId: string, runs: nat, failures: nat)

  predicate HasRow(t: Tables, m: string, x: string, run: string) { Key(run, m, x) in t.outcomes && run in t.runs }

  predicate FailedIn(t: Tables, m: string, x: string, run: string) {
    HasRow(t, m, x, run) && t.outcomes[Key(run, m, x)].status == Failed
  }

  function Failing(t: Tables, m: string, x: string): string -> bool { (run: string) => FailedIn(t, m, x, run) }

  function Start(t: Tables, run: string): string { if run in t.runs then t.runs[run].startedAt else "" }

  /** An answer to `ORDER BY started_at DESC`: runs that tie may come in either order. */
  ghost predicate Ranking(t: Tables, m: string, x: string, rows: seq<string>) {
    && NoDup(rows) && (forall run :: run in rows <==> HasRow(t, m, x, run))
    && forall i, j | 0 <= i < j < |rows| :: StrLe(Start(t, rows[j]), Start(t, rows[i]))
  }

  /** `LIMIT`: a negative one is no limit. */
  function Limit<T>(rows: seq<T>, window: int): seq<T> {
    if 0 <= window < |rows| then rows[..window] else rows
  }

  function StatOver(t: Tables, m: string, x: string, rows: seq<string>, window: int): FlakeStat {
    var seen := Limit(rows, window);
    FlakeStat(m, x, |seen|, Count(Failing(t, m, x), seen))
  }

  lemma {:induction false} CountAgrees<T>(p: T -> bool, q: T -> bool, s: seq<T>)
    requires forall x | x in s :: p(x) == q(x)
    ensures Count(p, s) == Count(q, s)
  {
    if s != [] {
      assert s[0] in s;
      CountAgrees(p, q, s[1..]);
    }
  }

  /** `o` is the first outcome of its test in its run, and that run is strictly the newest for the test. */
  ghost predicate Newest(t: Tables, o: Outcome) {
    && o.runId in t.runs && KeyOf(o) !in t.outcomes
    && forall run | HasRow(t, o.moduleName, o.testId, run) :: !StrLe(Start(t, o.runId), Start(t, run))
  }

  lemma NewestIsFirst(t: Tables, o: Outcome, rows: seq<string>)
    requires Newest(t, o) && Ranking(Inserted(t, o), o.moduleName, o.testId, rows)
    ensures rows != [] && rows[0] == o.runId
  {
    var m, x, t' := o.moduleName, o.testId, Inserted(t, o);
    assert forall run :: HasRow(t', m, x, run) <==> HasRow(t, m, x, run) || run == o.runId;
    assert HasRow(t', m, x, o.runId);
    assert o.runId in rows;
    StrLeTotal(Start(t, rows[0]), Start(t, rows[0]));
    assert forall j | 0 <= j < |rows| :: StrLe(Start(t', rows[j]), Start(t', rows[0]));
    assert forall run :: Start(t', run) == Start(t, run);
    assert rows[0] in rows;
  }

  lemma NewestLeads(t: Tables, o: Outcome, rows: seq<string>)
    requires Newest(t, o) && Ranking(Inserted(t, o), o.moduleName, o.testId, rows)
    ensures rows != [] && rows[0] == o.runId && Ranking(t, o.moduleName, o.testId, rows[1..])
  {
    var m, x, t' := o.moduleName, o.testId, Inserted(t, o);
    NewestIsFirst(t, o, rows);
    var rest := rows[1..];
    forall run ensures run in rest <==> HasRow(t, m, x, run) {
      assert HasRow(t', m, x, run) <==> HasRow(t, m, x, run) || run == o.runId;
      assert run in rows <==> run == rows[0] || run in rest;
    }
  }

  /** Putting one element in front of a limited list brings it in and may push one out. */
  lemma ShiftCount(p: string -> bool, q: string -> bool, run: string, older: seq<string>, window: int)
    requires forall r | r in older :: p(r) == q(r)
    ensures Count(q, Limit([run] + older, window)) ==
      Count(p, Limit(older, window)) + (if window != 0 && q(run) then 1 else 0)
      - (if 0 < window <= |older| && p(older[window - 1]) then 1 else 0)
  {
    var kept := if 0 < window <= |older| then older[..window - 1] else older;
    if window != 0 {
      CountAgrees(p, q, kept);
      assert Limit([run] + older, window) == [run] + kept;
      CountConcat(q, [run], kept);
      CountOne(q, run);
      if 0 < window <= |older| {
        assert Limit(older, window) == kept + [older[window - 1]];
        CountAppend(p, kept, older[window - 1]);
      }
    }
  }

  /** A new outcome in a strictly newest run shifts the window by one: failures change by exactly the
      new failure less the evicted one. */
  lemma NewestShiftsWindow(t: Tables, o: Outcome, rows: seq<string>, window: int)
    requires Newest(t, o) && Ranking(Inserted(t, o), o.moduleName, o.testId, rows)
    ensures rows != [] && Ranking(t, o.moduleName, o.testId, rows[1..])
    ensures var older := rows[1..];
      StatOver(Inserted(t, o), o.moduleName, o.testId, rows, window).failures ==
        StatOver(t, o.moduleName, o.testId, older, window).failures
        + (if window != 0 && o.status == Failed then 1 else 0)
        - (if 0 < window <= |older| && FailedIn(t, o.moduleName, o.testId, older[window - 1]) then 1 else 0)
  {
    var m, x, t' := o.moduleName, o.testId, Inserted(t, o);
    NewestLeads(t, o, rows);
    var older := rows[1..];
    forall run | run in older ensures FailedIn(t, m, x, run) == FailedIn(t', m, x, run) {
      assert HasRow(t, m, x, run);
    }
    assert rows == [o.runId] + older;
    ShiftCount(Failing(t, m, x), Failing(t', m, x), o.runId, older, window);
  }

  // ----- the aggregate over all runs -----

  function RunsOf(t: Tables, m: string, x: string): set<string> {
    set k | k in t.outcomes.Keys && k.moduleName == m && k.testId == x && k.runId in t.runs :: k.runId
  }

  function FailedRunsOf(t: Tables, m: string, x: string): set<string> {
    set run | run in RunsOf(t, m, x) && FailedIn(t, m, x, run)
  }

  /** One row of `GROUP BY module, test_id`. */
  function Aggregate(t: Tables, m: string, x: string): FlakeStat {
    FlakeStat(m, x, |RunsOf(t, m, x)|, |FailedRunsOf(t, m, x)|)
  }

  lemma RunsOfHasRow(t: Tables, m: string, x: string, run: string)
    ensures run in RunsOf(t, m, x) <==> HasRow(t, m, x, run)
  {
    if HasRow(t, m, x, run) { assert Key(run, m, x) in t.outcomes.Keys; }
  }

  lemma RankedRuns(t: Tables, m: string, x: string, rows: seq<string>)
    requires Ranking(t, m, x, rows)
    ensures |RunsOf(t, m, x)| == |rows| && |FailedRunsOf(t, m, x)| == Count(Failing(t, m, x), rows)
  {
    forall run ensures run in RunsOf(t, m, x) <==> run in rows { RunsOfHasRow(t, m, x, run); }
    CountIsSize(Failing(t, m, x), rows);
    assert Satisfying(Failing(t, m, x), rows) == FailedRunsOf(t, m, x);
    NoDupSize(rows);
    assert Elements(rows) == RunsOf(t, m, x);
  }

  /** A window that covers every row gives the same stat as the all-time aggregate. */
  lemma WholeWindowIsAggregate(t: Tables, m: string, x: string, rows: seq<string>, window: int)
    requires Ranking(t, m, x, rows) && (window < 0 || window >= |rows|)
    ensures StatOver(t, m, x, rows, window) == Aggregate(t, m, x)
  {
    RankedRuns(t, m, x, rows);
  }

  // ----- the flakiest tests -----

  datatype Test = Test(moduleName: string, testId: string)

  function Tests(t: Tables): set<Test> {
    set k | k in t.outcomes.Keys && k.runId in t.runs :: Test(k.moduleName, k.testId)
  }

  function Rate(s: FlakeStat): real { if s.runs == 0 then 0.0 else s.failures as real / s.runs as real }

  predicate StatLe(a: FlakeStat, b: FlakeStat) {
    if Rate(a) != Rate(b) then Rate(a) > Rate(b)
    else if a.failures != b.failures then a.failures > b.failures
    else StrLe(a.testId, b.testId)
  }

  lemma StatOrdering()
    ensures Ordering(StatLe)
  {
    StrLeOrdering();
  }

  function StatsOf(t: Tables, groups: seq<Test>, minRuns: int): seq<FlakeStat> {
    if groups == [] then []
    else
      var s := Aggregate(t, groups[0].moduleName, groups[0].testId);
      (if s.runs >= minRuns then [s] else []) + StatsOf(t, groups[1..], minRuns)
  }

  /** `stats[:limit]`: a negative limit counts from the end. */
  function Slice<T>(s: seq<T>, limit: int): seq<T> {
    var stop := if limit >= 0 then limit else |s| + limit;
    if stop <= 0 then [] else if stop >= |s| then s else s[..stop]
  }

  /** The groups come in an order the query leaves open. */
  ghost predicate Grouping(t: Tables, groups: seq<Test>) {
    NoDup(groups) && forall g :: g in groups <==> g in Tests(t)
  }

  function Top(t: Tables, groups: seq<Test>, limit: int, minRuns: int): seq<FlakeStat> {
    Slice(SortBy(StatLe, StatsOf(t, groups, minRuns)), limit)
  }

  lemma {:induction false} StatsOfHolds(t: Tables, groups: seq<Test>, minRuns: int, s: FlakeStat)
    ensures s in StatsOf(t, groups, minRuns) <==>
      s == Aggregate(t, s.moduleName, s.testId) && s.runs >= minRuns && Test(s.moduleName, s.testId) in groups
  {
    if groups != [] {
      StatsOfHolds(t, groups[1..], minRuns, s);
      assert forall g :: g in groups <==> g == groups[0] || g in groups[1..];
    }
  }

  ghost predicate Eligible(t: Tables, minRuns: int, s: FlakeStat) {
    s == Aggregate(t, s.moduleName, s.testId) && s.runs >= minRuns && Test(s.moduleName, s.testId) in Tests(t)
  }

  /** A slice of a sorted list leaves out nothing that comes before what it holds. */
  lemma SliceOfSorted<T(!new)>(le: (T, T) -> bool, all: seq<T>, limit: int)
    requires Ordering(le)
    ensures var top := Slice(SortBy(le, all), limit);
      && Sorted(le, top) && (forall x | x in top :: x in all)
      && forall x, y | x in all && x !in top && y in top :: le(y, x)
  {
    var sorted, top := SortBy(le, all), Slice(SortBy(le, all), limit);
    SortBySorted(le, all);
    assert top == sorted[..|top|];
    forall x ensures x in sorted <==> x in all { SameElements(sorted, all, x); }
    forall x, y | x in all && x !in top && y in top ensures le(y, x) {
      var k :| 0 <= k < |sorted| && sorted[k] == x;
      var i :| 0 <= i < |top| && top[i] == y;
      assert k >= |top| && sorted[i] == y;
    }
  }

  // ----- the list, told from the tables alone -----

  /** The rows of a test whose run exists, and the failed ones among them. */
  function RowsOf(t: Tables, m: string, x: string): set<Key> {
    set k | k in t.outcomes.Keys && k.moduleName == m && k.testId == x && k.runId in t.runs
  }

  function FailedRows(t: Tables, m: string, x: string): set<Key> { set k | k in RowsOf(t, m, x) && t.outcomes[k].status == Failed }

  /** A test of which there is a row, counted row by row, with enough of them. */
  ghost predicate Counted(t: Tables, minRuns: int, s: FlakeStat) {
    && s.runs == |RowsOf(t, s.moduleName, s.testId)| && s.failures == |FailedRows(t, s.moduleName, s.testId)|
    && s.runs > 0 && s.runs >= minRuns
  }

  /** The larger share of failures, compared without division; then more failures; then the lesser test id. */
  ghost predicate Flakier(a: FlakeStat, b: FlakeStat) {
    || a.failures * b.runs > b.failures * a.runs
    || (a.failures * b.runs == b.failures * a.runs && a.failures > b.failures)
    || (a.failures * b.runs == b.failures * a.runs && a.failures == b.failures && StrLe(a.testId, b.testId))
  }

  /** Only tests that count, flakiest first, and none left out that is flakier than one listed. */
  ghost predicate Flakiest(t: Tables, minRuns: int, out: seq<FlakeStat>) {
    && (forall s | s in out :: Counted(t, minRuns, s))
    && (forall i, j | 0 <= i < j < |out| :: Flakier(out[i], out[j]))
    && (forall s, r | Counted(t, minRuns, s) && s !in out && r in out :: Flakier(r, s))
  }

  lemma {:induction false} RunIdsOf(keys: set<Key>, m: string, x: string)
    requires forall k | k in keys :: k.moduleName == m && k.testId == x
    ensures |set k | k in keys :: k.runId| == |keys|
    decreases keys
  {
    var runs := set k | k in keys :: k.runId;
    if keys != {} {
      var k :| k in keys;
      var rest := set j | j in keys - {k} :: j.runId;
      RunIdsOf(keys - {k}, m, x);
      assert runs == rest + {k.runId};
      assert k.runId !in rest;
    }
  }

  lemma AggregateCounts(t: Tables, m: string, x: string)
    ensures Aggregate(t, m, x).runs == |RowsOf(t, m, x)| && Aggregate(t, m, x).failures == |FailedRows(t, m, x)|
  {
    RunIdsOf(RowsOf(t, m, x), m, x);
    RunIdsOf(FailedRows(t, m, x), m, x);
    assert RunsOf(t, m, x) == set k | k in RowsOf(t, m, x) :: k.runId;
    forall run ensures run in FailedRunsOf(t, m, x) <==> run in (set k | k in FailedRows(t, m, x) :: k.runId) {
      if run in FailedRunsOf(t, m, x) { assert Key(run, m, x) in FailedRows(t, m, x); }
    }
    assert FailedRunsOf(t, m, x) == set k | k in FailedRows(t, m, x) :: k.runId;
  }

  lemma EligibleCounted(t: Tables, minRuns: int, s: FlakeStat)
    ensures Eligible(t, minRuns, s) <==> Counted(t, minRuns, s)
  {
    AggregateCounts(t, s.moduleName, s.testId);
    if Test(s.moduleName, s.testId) in Tests(t) {
      var k :| k in t.outcomes.Keys && k.runId in t.runs && Test(k.moduleName, k.testId) == Test(s.moduleName, s.testId);
      assert k in RowsOf(t, s.moduleName, s.testId);
    }
    if s.runs > 0 && s.runs == |RowsOf(t, s.moduleName, s.testId)| {
      var k :| k in RowsOf(t, s.moduleName, s.testId);
      assert Test(k.moduleName, k.testId) in Tests(t);
    }
  }

  lemma CrossMultiplied(a: nat, m: nat, b: nat, n: nat)
    requires m > 0 && n > 0
    ensures a as real / m as real > b as real / n as real <==> a * n > b * m
    ensures a as real / m as real == b as real / n as real <==> a * n == b * m
  {
    var p, q, x, y := a as real, b as real, m as real, n as real;
    var c, d := p / x, q / y;
    assert c * x == p && d * y == q;
    assert (a * n) as real == p * y == c * (x * y);
    assert (b * m) as real == q * x == d * (x * y);
    if c > d { assert c * (x * y) > d * (x * y); }
    if c < d { assert c * (x * y) < d * (x * y); }
  }

  lemma StatLeMeans(a: FlakeStat, b: FlakeStat)
    requires a.runs > 0 && b.runs > 0
    ensures StatLe(a, b) <==> Flakier(a, b)
  {
    CrossMultiplied(a.failures, a.runs, b.failures, b.runs);
  }

  lemma SortedTop(t: Tables, groups: seq<Test>, limit: int, minRuns: int)
    ensures Sorted(StatLe, Top(t, groups, limit, minRuns))
  {
    StatOrdering();
    SliceOfSorted(StatLe, StatsOf(t, groups, minRuns), limit);
  }

  lemma TopIsFlakiestByTables(t: Tables, groups: seq<Test>, limit: int, minRuns: int)
    requires Grouping(t, groups)
    ensures Flakiest(t, minRuns, Top(t, groups, limit, minRuns))
  {
    var out := Top(t, groups, limit, minRuns);
    forall s
      ensures s in out ==> Counted(t, minRuns, s)
      ensures Counted(t, minRuns, s) && s !in out ==> forall r | r in out :: StatLe(r, s)
    {
      TopIsFlakiest(t, groups, limit, minRuns, s);
      EligibleCounted(t, minRuns, s);
    }
    SortedTop(t, groups, limit, minRuns);
    forall i, j | 0 <= i < j < |out| ensures Flakier(out[i], out[j]) {
      assert out[i] in out && out[j] in out;
      StatLeMeans(out[i], out[j]);
    }
    forall s, r | Counted(t, minRuns, s) && s !in out && r in out ensures Flakier(r, s) { StatLeMeans(r, s); }
  }

  /** The list holds aggregates of tests with enough runs, flakiest first, and no test left out by the limit
      is flakier than one listed. */
  lemma TopIsFlakiest(t: Tables, groups: seq<Test>, limit: int, minRuns: int, s: FlakeStat)
    requires Grouping(t, groups)
    ensures Sorted(StatLe, Top(t, groups, limit, minRuns))
    ensures s in Top(t, groups, limit, minRuns) ==> Eligible(t, minRuns, s)
    ensures Eligible(t, minRuns, s) && s !in Top(t, groups, limit, minRuns) ==>
      forall r | r in Top(t, groups, limit, minRuns) :: StatLe(r, s)
  {
    StatOrdering();
    SliceOfSorted(StatLe, StatsOf(t, groups, minRuns), limit);
    StatsOfHolds(t, groups, minRuns, s);
  }

  lemma {:induction false} StatsOfNoDup(t: Tables, groups: seq<Test>, minRuns: int)
    requires NoDup(groups)
    ensures NoDup(StatsOf(t, groups, minRuns))
  {
    if groups != [] {
      StatsOfNoDup(t, groups[1..], minRuns);
      assert groups[0] !in groups[1..];
      StatsOfHolds(t, groups[1..], minRuns, Aggregate(t, groups[0].moduleName, groups[0].testId));
    }
  }

  /** With a limit of zero or more the list is as long as the limit and the tests allow. */
  lemma TopFills(t: Tables, groups: seq<Test>, limit: nat, minRuns: int)
    ensures |Top(t, groups, limit, minRuns)| ==
      if limit < |StatsOf(t, groups, minRuns)| then limit else |StatsOf(t, groups, minRuns)|
  {
    MultisetSize(SortBy(StatLe, StatsOf(t, groups, minRuns)), StatsOf(t, groups, minRuns));
  }

  // ----- the database -----

  predicate LaterFirst(t: Tables, a: string, b: string) {
    StrLe(Start(t, b), Start(t, a))
  }

  lemma LaterFirstOrdering(t: Tables)
    ensures Ordering((a, b) => LaterFirst(t, a, b))
  {
    StrLeOrdering();
  }

  lemma RankedIsRanking(t: Tables, m: string, x: string, all: seq<string>, ranked: seq<string>)
    requires NoDup(all) && (forall run :: run in all <==> run in RunsOf(t, m, x))
    requires ranked == SortBy((a, b) => LaterFirst(t, a, b), all)
    ensures Ranking(t, m, x, ranked)
  {
    var le := (a, b) => LaterFirst(t, a, b);
    LaterFirstOrdering(t);
    SortBySorted(le, all);
    NoDupSort(le, all);
    forall run ensures run in ranked <==> HasRow(t, m, x, run) {
      SameElements(ranked, all, run);
      RunsOfHasRow(t, m, x, run);
    }
    forall i, j | 0 <= i < j < |ranked| ensures StrLe(Start(t, ranked[j]), Start(t, ranked[i])) {
      assert le(ranked[i], ranked[j]);
    }
  }

  method RankRuns(t: Tables, m: string, x: string) returns (rows: seq<string>)
    ensures Ranking(t, m, x, rows)
  {
    var all := Enumerate(RunsOf(t, m, x));
    rows := SortBy((a, b) => LaterFirst(t, a, b), all);
    RankedIsRanking(t, m, x, all, rows);
  }

  method CountFailures(t: Tables, m: string, x: string, seen: seq<string>) returns (failures: nat)
    ensures failures == Count(Failing(t, m, x), seen)
  {
    ghost var p := Failing(t, m, x);
    failures := 0;
    assert seen[..|seen|] == seen;
    for i := 0 to |seen|
      invariant failures == Count(p, seen[..i])
    {
      CountNext(p, seen, i);
      if FailedIn(t, m, x, seen[i]) { failures := failures + 1; }
    }
  }

  lemma NextStat(t: Tables, groups: seq<Test>, minRuns: int, i: nat, stats: seq<FlakeStat>)
    requires i < |groups|
    ensures var s := Aggregate(t, groups[i].moduleName, groups[i].testId);
      stats + StatsOf(t, groups[i..], minRuns) ==
        (if s.runs >= minRuns then stats + [s] else stats) + StatsOf(t, groups[i + 1..], minRuns)
  {
    assert groups[i..][1..] == groups[i + 1..] && groups[i..][0] == groups[i];
  }

  /** One stat per group with enough runs. */
  method CollectStats(t: Tables, groups: seq<Test>, minRuns: int) returns (stats: seq<FlakeStat>)
    ensures stats == StatsOf(t, groups, minRuns)
  {
    stats := [];
    assert groups[0..] == groups;
    for i := 0 to |groups|
      invariant stats + StatsOf(t, groups[i..], minRuns) == StatsOf(t, groups, minRuns)
    {
      NextStat(t, groups, minRuns, i, stats);
      var s := Aggregate(t, groups[i].moduleName, groups[i].testId);
      if s.runs >= minRuns { stats := stats + [s]; }
    }
  }

  class FlakeDb {
    var tables: Tables
    var saved: Tables

    constructor ()
      ensures View() == Commit(Tables(map[], map[]))
    {
      tables, saved := Tables(map[], map[]), Tables(map[], map[]);
    }

    function View(): Db
      reads this
    {
      Db(tables, saved)
    }

    method RecordRun(id: string, startedAt: string, status: string)
      modifies this
      ensures View() == Step(old(View()), Run(id, startedAt, status))
    {
      tables := tables.(runs := tables.runs[id := RunRow(startedAt, status)]);
      saved := tables;
    }

    /** The insert statement on its own. */
    method Insert(o: Outcome) returns (refused: bool)
      modifies `tables
      ensures refused == (o.runId !in old(tables).runs)
      ensures tables == if refused then old(tables) else Inserted(old(tables), o)
    {
      if o.runId !in tables.runs { return true; }
      tables := tables.(outcomes := tables.outcomes[KeyOf(o) := Row(o.status, o.durationMs)]);
      refused := false;
    }

    method RecordOutcome(o: Outcome) returns (refused: bool)
      modifies this
      ensures View() == Step(old(View()), One(o)) && refused == (o.runId !in old(tables).runs)
    {
      refused := Insert(o);
      if refused { return; }
      saved := tables;
    }

    /** One statement per outcome, one commit for them all. */
    method RecordOutcomes(os: seq<Outcome>) returns (refused: bool)
      modifies this
      ensures View() == Step(old(View()), Many(os))
      ensures refused <==> exists o | o in os :: o.runId !in old(tables).runs
    {
      BulkTakesPrefix(tables, os);
      if os == [] { return false; }
      ghost var start := tables;
      var i := 0;
      assert os[0..] == os;
      while i < |os|
        invariant 0 <= i <= |os|
        invariant Bulk(tables, os[i..]) == Bulk(start, os)
        invariant saved == old(saved)
      {
        assert os[i..][1..] == os[i + 1..];
        refused := Insert(os[i]);
        if refused { return; }
        i := i + 1;
      }
      saved := tables;
      refused := false;
    }

    method FlakeRate(m: string, x: string, window: int) returns (stat: FlakeStat)
      ensures exists rows :: Ranking(tables, m, x, rows) && stat == StatOver(tables, m, x, rows, window)
    {
      var ranked := RankRuns(tables, m, x);
      var seen := Limit(ranked, window);
      var failures := CountFailures(tables, m, x, seen);
      stat := FlakeStat(m, x, |seen|, failures);
      assert Ranking(tables, m, x, ranked) && stat == StatOver(tables, m, x, ranked, window);
    }

    method TopFlaky(limit: int, minRuns: int) returns (out: seq<FlakeStat>)
      ensures exists groups :: Grouping(tables, groups) && out == Top(tables, groups, limit, minRuns)
      ensures Flakiest(tables, minRuns, out)
    {
      var pairs := Enumerate(Tests(tables));
      var stats := CollectStats(tables, pairs, minRuns);
      stats := SortBy(StatLe, stats);
      out := Slice(stats, limit);
      TopIsFlakiestByTables(tables, pairs, limit, minRuns);
      assert Grouping(tables, pairs) && out == Top(tables, pairs, limit, minRuns);
    }
  }
}
