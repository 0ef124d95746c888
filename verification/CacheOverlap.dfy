/** When a put may begin beside others (engine/cache/store.py:78-91): readers stay safe exactly when no put of
    the same path is still writing, and the put keeps its own temporary file exactly when none is pending. */
module CacheOverlap {
  import opened Store
  import opened CacheWrites
  import opened Wrappers

  lemma {:induction false} PlayConcat(d: Disk, a: seq<Step>, b: seq<Step>, strict: bool)
    requires Play(d, a, strict).Some?
    ensures Play(d, a + b, strict) == Play(Play(d, a, strict).value, b, strict)
    decreases |a|
  {
    if a == [] { assert a + b == b; } else {
      assert (a + b)[0] == a[0] && (a + b)[1..] == a[1..] + b;
      PlayConcat(Next(d, a[0]), a[1..], b, strict);
    }
  }

  lemma PlayOne(d: Disk, step: Step, strict: bool)
    requires Possible(d, step) && NoOverlap(d, step, strict)
    ensures Play(d, [step], strict) == Some(Next(d, step))
  {
    assert [step][1..] == [];
  }

  /** A put writes on until it has written `n` bytes. */
  function Writes(pid: Pid, n: nat): seq<Step> { seq(n, _ => Write(pid)) }

  /** What writing on does to the inode: it grows to the end of the written part. */
  ghost predicate WroteOn(d: Disk, t: Disk, pid: Pid, n: nat)
    requires pid in d.puts
  {
    var put := d.puts[pid];
    && t.names == d.names && t.puts == d.puts[pid := put.(written := n)]
    && put.inode in d.data && put.inode in t.data
    && (forall i | i in d.data && i != put.inode :: i in t.data && t.data[i] == d.data[i])
    && |t.data[put.inode]| == (if n > put.written && n > |d.data[put.inode]| then n else |d.data[put.inode]|)
  }

  /** The written part of the value is what the inode starts with. */
  ghost predicate StartsRight(d: Disk, pid: Pid) {
    pid in d.puts &&
    var put := d.puts[pid];
    put.inode in d.data && put.written <= |put.value| && put.value[..put.written] <= d.data[put.inode]
  }

  lemma OneWrite(d: Disk, pid: Pid)
    requires Possible(d, Write(pid)) && d.puts[pid].inode in d.data
    ensures WroteOn(d, Next(d, Write(pid)), pid, d.puts[pid].written + 1)
    ensures StartsRight(d, pid) ==> StartsRight(Next(d, Write(pid)), pid)
  {
    if StartsRight(d, pid) {
      var put := d.puts[pid];
      var c := Next(d, Write(pid)).data[put.inode];
      assert forall i | 0 <= i <= put.written :: put.value[..put.written + 1][i] == c[i];
    }
  }

  lemma {:induction false} WriteOn(d: Disk, pid: Pid, n: nat, strict: bool)
    requires At(d, pid, Writing) && d.puts[pid].written <= n <= |d.puts[pid].value| && d.puts[pid].inode in d.data
    ensures Play(d, Writes(pid, n - d.puts[pid].written), strict).Some?
    ensures WroteOn(d, Play(d, Writes(pid, n - d.puts[pid].written), strict).value, pid, n)
    ensures StartsRight(d, pid) ==> StartsRight(Play(d, Writes(pid, n - d.puts[pid].written), strict).value, pid)
    decreases n - d.puts[pid].written
  {
    var k := n - d.puts[pid].written;
    if k == 0 {
      assert d.puts[pid := d.puts[pid].(written := n)] == d.puts;
    } else {
      var t := Next(d, Write(pid));
      OneWrite(d, pid);
      WriteOn(t, pid, n, strict);
      assert Writes(pid, k)[1..] == Writes(pid, k - 1);
      assert t.puts[pid := t.puts[pid].(written := n)] == d.puts[pid := d.puts[pid].(written := n)];
    }
  }

  // ----- contents longer than any in sight -----

  lemma {:induction false} LongerThanAll(s: set<Bytes>) returns (n: nat)
    ensures forall c | c in s :: |c| < n
    decreases s
  {
    n := 0;
    if s != {} {
      var c :| c in s;
      n := LongerThanAll(s - {c});
      if |c| >= n { n := |c| + 1; }
    }
  }

  lemma {:induction false} FreshInode(s: set<Inode>) returns (i: Inode)
    ensures forall j | j in s :: j < i
    decreases s
  {
    i := 0;
    if s != {} {
      var j :| j in s;
      i := FreshInode(s - {j});
      assert forall k | k in s :: k == j || k in s - {j};
      if j >= i { i := j + 1; }
    }
  }

  // ----- what readers are shown -----

  /** Whatever value is put and however the run goes on, readers of the path are shown whole contents only. */
  ghost predicate ReaderSafe(d: Disk, path: Path, pid: Pid) {
    forall value, spare, run ::
      Possible(d, Begin(pid, path, value, spare)) && Play(Next(d, Begin(pid, path, value, spare)), run, false).Some? ==>
        Whole(d, [Begin(pid, path, value, spare)] + run, path, Read(d, path),
              Read(Play(Next(d, Begin(pid, path, value, spare)), run, false).value, path))
  }

  lemma ClearIsSafe(d: Disk, path: Path, pid: Pid)
    requires Inv(d) && EntryName(path) && Clear(d, path, false)
    ensures ReaderSafe(d, path, pid)
  {
    forall value, spare, run
      | Possible(d, Begin(pid, path, value, spare)) && Play(Next(d, Begin(pid, path, value, spare)), run, false).Some?
      ensures Whole(d, [Begin(pid, path, value, spare)] + run, path, Read(d, path),
                    Read(Play(Next(d, Begin(pid, path, value, spare)), run, false).value, path))
    {
      var begin := Begin(pid, path, value, spare);
      var all := [begin] + run;
      assert all[1..] == run;
      ReadersSeeWholeValues(d, all, path);
      AbstractIsWhole(d, all, path, Read(d, path));
    }
  }

  /** The first put finishes writing, the second writes `n` bytes over that, and the first renames. */
  function TearingRun(first: Put, firstPid: Pid, pid: Pid, n: nat): seq<Step>
    requires first.written <= |first.value|
  {
    Writes(firstPid, |first.value| - first.written) + (Writes(pid, n) + [Replace(firstPid)])
  }

  /** Two puts of one path hold one inode, the first with nothing left to write. */
  ghost predicate Shared(t: Disk, firstPid: Pid, pid: Pid, path: Path) {
    && At(t, firstPid, Writing) && At(t, pid, Writing) && firstPid != pid && EntryName(path)
    && t.puts[firstPid].path == path == t.puts[pid].path && t.puts[firstPid].written == |t.puts[firstPid].value|
    && t.puts[pid].inode in t.data && TempOf(path) in t.names && t.names[TempOf(path)] == t.puts[pid].inode
  }

  /** The part of the second value written so far takes the entry's place. */
  lemma SecondOverwrites(t: Disk, firstPid: Pid, pid: Pid, path: Path, n: nat)
    requires Shared(t, firstPid, pid, path) && t.puts[pid].written == 0 && |t.data[t.puts[pid].inode]| <= n <= |t.puts[pid].value|
    ensures var run := Writes(pid, n) + [Replace(firstPid)];
      Play(t, run, false).Some? && Read(Play(t, run, false).value, path) == Some(t.puts[pid].value[..n])
  {
    WriteOn(t, pid, n, false);
    var t2 := Play(t, Writes(pid, n), false).value;
    FullyOverwritten(t, t2, pid, n);
    Renamed(t2, firstPid, pid, path);
    PlayOne(t2, Replace(firstPid), false);
    PlayConcat(t, Writes(pid, n), [Replace(firstPid)], false);
  }

  /** A put begun while another of its path is writing truncates that one's file, if it is still there. */
  ghost predicate Joined(t: Disk, firstPid: Pid, first: Put, pid: Pid, value: Bytes) {
    && firstPid in t.puts && pid in t.puts && firstPid != pid && t.puts[firstPid] == first && EntryName(first.path)
    && t.puts[pid] == Put(first.path, value, t.puts[pid].inode, 0, Writing)
    && TempOf(first.path) in t.names && t.names[TempOf(first.path)] == t.puts[pid].inode
    && t.puts[pid].inode in t.data && t.data[t.puts[pid].inode] == [] && first.inode in t.data
  }

  lemma BeginJoins(d: Disk, firstPid: Pid, pid: Pid, value: Bytes, spare: Inode)
    requires Inv(d) && At(d, firstPid, Writing) && pid !in d.puts && spare !in d.data
    ensures var begin := Begin(pid, d.puts[firstPid].path, value, spare);
      d.puts[firstPid].written <= |d.puts[firstPid].value| && Possible(d, begin)
      && Joined(Next(d, begin), firstPid, d.puts[firstPid], pid, value)
  {
    assert Owned(d, firstPid);
  }

  lemma FinishedShares(t0: Disk, t1: Disk, firstPid: Pid, first: Put, pid: Pid, value: Bytes)
    requires Joined(t0, firstPid, first, pid, value) && first.stage == Writing && first.written <= |first.value|
    requires WroteOn(t0, t1, firstPid, |first.value|)
    ensures Shared(t1, firstPid, pid, first.path) && t1.puts[pid] == t0.puts[pid] && |t1.data[t1.puts[pid].inode]| <= |first.value|
  {}

  /** The first put then writes on to its end. */
  lemma FirstFinishes(d: Disk, firstPid: Pid, pid: Pid, value: Bytes, spare: Inode)
    requires Inv(d) && At(d, firstPid, Writing) && pid !in d.puts && spare !in d.data
    ensures var first := d.puts[firstPid]; var begin := Begin(pid, d.puts[firstPid].path, value, spare);
      first.written <= |first.value| && Possible(d, begin) &&
      var end := Play(Next(d, begin), Writes(firstPid, |first.value| - first.written), false);
      end.Some? && Shared(end.value, firstPid, pid, first.path) && end.value.puts[pid] == Next(d, begin).puts[pid]
      && |end.value.data[end.value.puts[pid].inode]| <= |first.value|
  {
    BeginJoins(d, firstPid, pid, value, spare);
    var t0, first := Next(d, Begin(pid, d.puts[firstPid].path, value, spare)), d.puts[firstPid];
    WriteOn(t0, firstPid, |first.value|, false);
    FinishedShares(t0, Play(t0, Writes(firstPid, |first.value| - first.written), false).value, firstPid, first, pid, value);
  }

  lemma Tears(d: Disk, firstPid: Pid, pid: Pid, value: Bytes, spare: Inode, n: nat)
    requires Inv(d) && At(d, firstPid, Writing) && pid !in d.puts && spare !in d.data
    requires |d.puts[firstPid].value| <= n <= |value|
    ensures var begin := Begin(pid, d.puts[firstPid].path, value, spare);
      d.puts[firstPid].written <= |d.puts[firstPid].value| && Possible(d, begin) &&
      var run := TearingRun(d.puts[firstPid], firstPid, pid, n);
      Play(Next(d, begin), run, false).Some?
      && Read(Play(Next(d, begin), run, false).value, d.puts[firstPid].path) == Some(value[..n])
  {
    var first := d.puts[firstPid];
    FirstFinishes(d, firstPid, pid, value, spare);
    var t0, a := Next(d, Begin(pid, first.path, value, spare)), Writes(firstPid, |first.value| - first.written);
    SecondOverwrites(Play(t0, a, false).value, firstPid, pid, first.path, n);
    PlayConcat(t0, a, Writes(pid, n) + [Replace(firstPid)], false);
  }

  lemma FullyOverwritten(t1: Disk, t2: Disk, pid: Pid, n: nat)
    requires At(t1, pid, Writing) && t1.puts[pid].written == 0 && WroteOn(t1, t2, pid, n) && StartsRight(t2, pid)
    requires |t1.data[t1.puts[pid].inode]| <= n <= |t1.puts[pid].value|
    ensures t2.data[t1.puts[pid].inode] == t1.puts[pid].value[..n]
  {
    var c, v := t2.data[t1.puts[pid].inode], t1.puts[pid].value;
    assert |c| == n && v[..n] <= c;
  }

  lemma Renamed(t: Disk, firstPid: Pid, pid: Pid, path: Path)
    requires Possible(t, Replace(firstPid)) && t.puts[firstPid].path == path && EntryName(path) && pid in t.puts
    requires TempOf(path) in t.names && t.names[TempOf(path)] == t.puts[pid].inode && t.puts[pid].inode in t.data
    ensures Read(Next(t, Replace(firstPid)), path) == Some(t.data[t.puts[pid].inode])
  {
    TempApart(path, path);
  }

  ghost function Seen(d: Disk, path: Path): set<Bytes> {
    (set pid | pid in d.puts :: d.puts[pid].value) + if Read(d, path).Some? then {Read(d, path).value} else {}
  }

  lemma TooLongIsTorn(d: Disk, run: seq<Step>, path: Path, n: nat, c: Bytes)
    requires (forall s | s in Seen(d, path) :: |s| < n) && |c| == n
    requires forall step | step in run && step.Begin? :: |step.value| == n + 1
    ensures !Whole(d, run, path, Read(d, path), Some(c))
  {
    assert forall pid | pid in d.puts :: d.puts[pid].value in Seen(d, path);
    assert Read(d, path).Some? ==> Read(d, path).value in Seen(d, path);
  }

  lemma WritingIsUnsafe(d: Disk, firstPid: Pid, pid: Pid)
    requires Inv(d) && At(d, firstPid, Writing) && pid !in d.puts
    ensures !ReaderSafe(d, d.puts[firstPid].path, pid)
  {
    var path := d.puts[firstPid].path;
    var n := LongerThanAll(Seen(d, path));
    var spare := FreshInode(d.data.Keys);
    var value := seq(n + 1, _ => 0 as bv8);
    assert d.puts[firstPid].value in Seen(d, path);
    Tears(d, firstPid, pid, value, spare, n);
    var begin, run := Begin(pid, path, value, spare), TearingRun(d.puts[firstPid], firstPid, pid, n);
    NoBegins(d.puts[firstPid], firstPid, pid, n);
    assert forall step | step in [begin] + run :: step == begin || step in run;
    TooLongIsTorn(d, [begin] + run, path, n, value[..n]);
  }

  lemma NoBegins(first: Put, firstPid: Pid, pid: Pid, n: nat)
    requires first.written <= |first.value|
    ensures forall step | step in TearingRun(first, firstPid, pid, n) :: !step.Begin?
  {}

  /** Beginning a put is safe for readers, whatever its value and however the run goes on, exactly when no put
      of the same path is still writing. */
  lemma ReaderSafeIff(d: Disk, path: Path, pid: Pid)
    requires Inv(d) && EntryName(path) && pid !in d.puts
    ensures ReaderSafe(d, path, pid) <==> forall other | other in d.puts && d.puts[other].path == path :: d.puts[other].stage != Writing
  {
    if Clear(d, path, false) {
      ClearIsSafe(d, path, pid);
    } else {
      var other :| other in d.puts && d.puts[other].path == path && d.puts[other].stage == Writing;
      WritingIsUnsafe(d, other, pid);
    }
  }

  // ----- whether the put keeps its temporary file -----

  /** Every put has its path to itself, and every writing one still has its temporary file. */
  ghost predicate Alone(d: Disk) {
    && Inv(d)
    && (forall pid, other | pid in d.puts && other in d.puts && pid != other :: d.puts[pid].path != d.puts[other].path)
    && (forall pid | At(d, pid, Writing) :: TempOf(d.puts[pid].path) in d.names)
  }

  lemma TempSurvives(d: Disk, step: Step, pid: Pid)
    requires Alone(d) && Possible(d, step) && NoOverlap(d, step, true) && At(Next(d, step), pid, Writing)
    ensures TempOf(Next(d, step).puts[pid].path) in Next(d, step).names
  {
    if !step.Begin? || step.pid != pid {
      assert At(d, pid, Writing);
      TempApart(d.puts[pid].path, d.puts[pid].path);
      if step.Replace? || step.Unlink? { TempApart(d.puts[pid].path, d.puts[step.pid].path); }
    }
  }

  lemma PathsStayApart(d: Disk, step: Step)
    requires Alone(d) && Possible(d, step) && NoOverlap(d, step, true)
    ensures var t := Next(d, step);
      forall pid, other | pid in t.puts && other in t.puts && pid != other :: t.puts[pid].path != t.puts[other].path
  {
    var t := Next(d, step);
    if step.Begin? {
      assert forall pid | pid in d.puts :: d.puts[pid].path != step.path;
    } else {
      assert forall pid | pid in t.puts :: pid in d.puts && t.puts[pid].path == d.puts[pid].path;
    }
  }

  lemma StepKeepsAlone(d: Disk, step: Step)
    requires Alone(d) && Possible(d, step) && NoOverlap(d, step, true)
    ensures Alone(Next(d, step))
  {
    StepKeepsInv(d, step);
    PathsStayApart(d, step);
    var t := Next(d, step);
    forall pid | At(t, pid, Writing) ensures TempOf(t.puts[pid].path) in t.names { TempSurvives(d, step, pid); }
  }

  lemma {:induction false} PlayKeepsAlone(d: Disk, run: seq<Step>)
    requires Alone(d) && Play(d, run, true).Some?
    ensures Alone(Play(d, run, true).value)
    decreases |run|
  {
    if run != [] {
      StepKeepsAlone(d, run[0]);
      PlayKeepsAlone(Next(d, run[0]), run[1..]);
    }
  }

  /** While the put writes, its temporary file is there for the rename. */
  ghost predicate KeepsTemp(d: Disk, path: Path, pid: Pid) {
    forall value, spare, run ::
      Possible(d, Begin(pid, path, value, spare)) && Play(Next(d, Begin(pid, path, value, spare)), run, true).Some? ==>
        var t := Play(Next(d, Begin(pid, path, value, spare)), run, true).value;
        At(t, pid, Writing) ==> TempOf(t.puts[pid].path) in t.names
  }

  /** How a put that is already under way comes to take the newcomer's temporary file. */
  function RobbingRun(other: Put, otherPid: Pid): seq<Step> {
    match other.stage
    case Writing => Writes(otherPid, if other.written <= |other.value| then |other.value| - other.written else 0) + [Replace(otherPid)]
    case Finishing => [Look(otherPid), Unlink(otherPid)]
    case Unlinking => [Unlink(otherPid)]
  }

  lemma RenameTakes(t: Disk, otherPid: Pid, pid: Pid, path: Path)
    requires Possible(t, Replace(otherPid)) && At(t, pid, Writing) && otherPid != pid && EntryName(path)
    requires t.puts[otherPid].path == path == t.puts[pid].path
    ensures var end := Play(t, [Replace(otherPid)], true);
      end.Some? && At(end.value, pid, Writing) && end.value.puts[pid].path == path && TempOf(path) !in end.value.names
  {
    PlayOne(t, Replace(otherPid), true);
    TempApart(path, path);
  }

  lemma JoinedIsRobbed(t0: Disk, otherPid: Pid, other: Put, pid: Pid)
    requires Joined(t0, otherPid, other, pid, []) && other.stage == Writing && other.written <= |other.value|
    ensures var end := Play(t0, RobbingRun(other, otherPid), true);
      end.Some? && At(end.value, pid, Writing) && end.value.puts[pid].path == other.path && TempOf(other.path) !in end.value.names
  {
    var a := Writes(otherPid, |other.value| - other.written);
    WriteOn(t0, otherPid, |other.value|, true);
    RenameTakes(Play(t0, a, true).value, otherPid, pid, other.path);
    PlayConcat(t0, a, [Replace(otherPid)], true);
  }

  lemma WritingRobs(d: Disk, otherPid: Pid, pid: Pid, spare: Inode)
    requires Inv(d) && At(d, otherPid, Writing) && pid !in d.puts && spare !in d.data
    ensures var path := d.puts[otherPid].path; var t0 := Next(d, Begin(pid, path, [], spare));
      var end := Play(t0, RobbingRun(d.puts[otherPid], otherPid), true);
      Possible(d, Begin(pid, path, [], spare)) && end.Some?
      && At(end.value, pid, Writing) && end.value.puts[pid].path == path && TempOf(path) !in end.value.names
  {
    BeginJoins(d, otherPid, pid, [], spare);
    JoinedIsRobbed(Next(d, Begin(pid, d.puts[otherPid].path, [], spare)), otherPid, d.puts[otherPid], pid);
  }

  lemma EndingRobs(d: Disk, otherPid: Pid, pid: Pid, spare: Inode)
    requires Inv(d) && otherPid in d.puts && d.puts[otherPid].stage != Writing && pid !in d.puts && spare !in d.data
    ensures var path := d.puts[otherPid].path; var t0 := Next(d, Begin(pid, path, [], spare));
      var end := Play(t0, RobbingRun(d.puts[otherPid], otherPid), true);
      Possible(d, Begin(pid, path, [], spare)) && end.Some?
      && At(end.value, pid, Writing) && end.value.puts[pid].path == path && TempOf(path) !in end.value.names
  {
    var other := d.puts[otherPid];
    var t0 := Next(d, Begin(pid, other.path, [], spare));
    if other.stage == Finishing {
      var t1 := Next(t0, Look(otherPid));
      PlayOne(t1, Unlink(otherPid), true);
      assert [Look(otherPid), Unlink(otherPid)][1..] == [Unlink(otherPid)];
    } else {
      PlayOne(t0, Unlink(otherPid), true);
    }
  }

  /** A put keeps its temporary file until its rename, whatever its value and however the run goes on,
      exactly when no put of the same path is pending, not even one past its rename. */
  lemma KeepsTempIff(d: Disk, path: Path, pid: Pid)
    requires Alone(d) && EntryName(path) && pid !in d.puts
    ensures KeepsTemp(d, path, pid) <==> forall other | other in d.puts :: d.puts[other].path != path
  {
    if Clear(d, path, true) {
      forall value, spare, run
        | Possible(d, Begin(pid, path, value, spare)) && Play(Next(d, Begin(pid, path, value, spare)), run, true).Some?
        ensures Alone(Play(Next(d, Begin(pid, path, value, spare)), run, true).value)
      {
        StepKeepsAlone(d, Begin(pid, path, value, spare));
        PlayKeepsAlone(Next(d, Begin(pid, path, value, spare)), run);
      }
    } else {
      var other :| other in d.puts && d.puts[other].path == path;
      var spare := FreshInode(d.data.Keys);
      if d.puts[other].stage == Writing { WritingRobs(d, other, pid, spare); } else { EndingRobs(d, other, pid, spare); }
    }
  }

  // ----- a put by itself -----

  /** Nothing changed but what `path` leads to and that its temporary name leads nowhere. */
  ghost predicate OnlyEntryChanged(d: Disk, t: Disk, path: Path) {
    && t.puts == d.puts && TempOf(path) !in t.names
    && (forall p | p != path && p != TempOf(path) :: (p in t.names <==> p in d.names) && Read(t, p) == Read(d, p))
  }

  /** All of the value written: the disk just before the rename, or before the exception. */
  ghost predicate Written(d: Disk, t: Disk, pid: Pid, path: Path, value: Bytes, n: nat) {
    && n <= |value| && At(t, pid, Writing) && t.puts == d.puts[pid := Put(path, value, t.puts[pid].inode, n, Writing)]
    && t.names == d.names[TempOf(path) := t.puts[pid].inode]
    && t.puts[pid].inode in t.data && t.data[t.puts[pid].inode] == value[..n]
    && (forall p | p in d.names && p != TempOf(path) :: d.names[p] != t.puts[pid].inode)
    && (forall i | i in d.data && i != t.puts[pid].inode :: i in t.data && t.data[i] == d.data[i])
  }

  function Opened(pid: Pid, path: Path, value: Bytes, spare: Inode, n: nat): seq<Step> {
    [Begin(pid, path, value, spare)] + Writes(pid, n)
  }

  /** Nobody else has a put of `path` pending. */
  ghost predicate MayBegin(d: Disk, pid: Pid, path: Path, spare: Inode) {
    Inv(d) && EntryName(path) && Clear(d, path, true) && pid !in d.puts && spare !in d.data
  }

  lemma BeginsAlone(d: Disk, pid: Pid, path: Path, value: Bytes, spare: Inode)
    requires MayBegin(d, pid, path, spare)
    ensures var begin := Begin(pid, path, value, spare);
      Possible(d, begin) && NoOverlap(d, begin, true) && Written(d, Next(d, begin), pid, path, value, 0)
  {}

  lemma WritesAlone(d: Disk, t: Disk, u: Disk, pid: Pid, path: Path, value: Bytes, n: nat)
    requires Written(d, t, pid, path, value, 0) && WroteOn(t, u, pid, n) && StartsRight(u, pid) && n <= |value|
    ensures Written(d, u, pid, path, value, n)
  {
    FullyOverwritten(t, u, pid, n);
    assert u.puts == d.puts[pid := Put(path, value, u.puts[pid].inode, n, Writing)];
    forall i | i in d.data && i != u.puts[pid].inode ensures i in u.data && u.data[i] == d.data[i] {
      assert i in t.data && t.data[i] == d.data[i];
    }
  }

  lemma WritesOut(d: Disk, pid: Pid, path: Path, value: Bytes, spare: Inode, n: nat)
    requires MayBegin(d, pid, path, spare) && n <= |value|
    ensures Play(d, Opened(pid, path, value, spare, n), true).Some?
    ensures Written(d, Play(d, Opened(pid, path, value, spare, n), true).value, pid, path, value, n)
  {
    var begin := Begin(pid, path, value, spare);
    BeginsAlone(d, pid, path, value, spare);
    var t := Next(d, begin);
    PlayOne(d, begin, true);
    WriteOn(t, pid, n, true);
    WritesAlone(d, t, Play(t, Writes(pid, n), true).value, pid, path, value, n);
    PlayConcat(d, [begin], Writes(pid, n), true);
  }

  lemma RenamesAlone(d: Disk, t: Disk, pid: Pid, path: Path, value: Bytes)
    requires Inv(d) && EntryName(path) && pid !in d.puts && Written(d, t, pid, path, value, |value|)
    ensures Possible(t, Replace(pid)) && Possible(Next(t, Replace(pid)), Look(pid))
    ensures var u := Next(Next(t, Replace(pid)), Look(pid)); Read(u, path) == Some(value) && OnlyEntryChanged(d, u, path)
  {
    TempApart(path, path);
    assert value[..|value|] == value;
  }

  lemma FailsAlone(d: Disk, t: Disk, pid: Pid, path: Path, value: Bytes, n: nat)
    requires Inv(d) && EntryName(path) && pid !in d.puts && Written(d, t, pid, path, value, n)
    ensures Possible(t, Fail(pid)) && Possible(Next(t, Fail(pid)), Look(pid)) && Possible(Next(Next(t, Fail(pid)), Look(pid)), Unlink(pid))
    ensures var u := Next(Next(Next(t, Fail(pid)), Look(pid)), Unlink(pid)); Read(u, path) == Read(d, path) && OnlyEntryChanged(d, u, path)
  {
    TempApart(path, path);
  }

  lemma PlayTwo(d: Disk, first: Step, second: Step)
    requires !first.Begin? && !second.Begin? && Possible(d, first) && Possible(Next(d, first), second)
    ensures Play(d, [first, second], true) == Some(Next(Next(d, first), second))
  {
    assert [first, second][1..] == [second];
    PlayOne(Next(d, first), second, true);
  }

  /** Nobody else writing its path, a put of a value writes, renames and looks, and then exactly its entry has changed,
      to the whole value; nothing temporary is left. */
  lemma LonePutCompletes(d: Disk, pid: Pid, path: Path, value: Bytes, spare: Inode)
    requires MayBegin(d, pid, path, spare)
    ensures var end := Play(d, Opened(pid, path, value, spare, |value|) + [Replace(pid), Look(pid)], true);
      end.Some? && Read(end.value, path) == Some(value) && OnlyEntryChanged(d, end.value, path)
  {
    var a := Opened(pid, path, value, spare, |value|);
    WritesOut(d, pid, path, value, spare, |value|);
    var t := Play(d, a, true).value;
    RenamesAlone(d, t, pid, path, value);
    PlayTwo(t, Replace(pid), Look(pid));
    PlayConcat(d, a, [Replace(pid), Look(pid)], true);
  }

  /** A put that fails after any number of bytes looks, unlinks and leaves every entry, its own included, as it was. */
  lemma LonePutFails(d: Disk, pid: Pid, path: Path, value: Bytes, spare: Inode, n: nat)
    requires MayBegin(d, pid, path, spare) && n <= |value|
    ensures var end := Play(d, Opened(pid, path, value, spare, n) + [Fail(pid), Look(pid), Unlink(pid)], true);
      end.Some? && Read(end.value, path) == Read(d, path) && OnlyEntryChanged(d, end.value, path)
  {
    var a, rest := Opened(pid, path, value, spare, n), [Fail(pid), Look(pid), Unlink(pid)];
    WritesOut(d, pid, path, value, spare, n);
    var t := Play(d, a, true).value;
    FailsAlone(d, t, pid, path, value, n);
    assert rest[1..] == [Look(pid), Unlink(pid)];
    PlayTwo(Next(t, Fail(pid)), Look(pid), Unlink(pid));
    PlayConcat(d, a, rest, true);
  }

  lemma CrashesAlone(d: Disk, t: Disk, pid: Pid, path: Path, value: Bytes, n: nat)
    requires Inv(d) && EntryName(path) && pid !in d.puts && Written(d, t, pid, path, value, n)
    ensures Possible(t, Crash(pid)) && Next(t, Crash(pid)).puts == d.puts && Next(t, Crash(pid)).names == t.names
    ensures forall p | p != TempOf(path) :: Read(Next(t, Crash(pid)), p) == Read(d, p)
  {
    assert Next(t, Crash(pid)).puts == d.puts;
  }

  /** A put that crashes after any number of bytes leaves every entry as it was, and only its temporary file behind, so
      that another put may begin. */
  lemma LonePutCrashes(d: Disk, pid: Pid, path: Path, value: Bytes, spare: Inode, n: nat)
    requires MayBegin(d, pid, path, spare) && n <= |value|
    ensures var end := Play(d, Opened(pid, path, value, spare, n) + [Crash(pid)], true);
      && end.Some? && end.value.puts == d.puts && Inv(end.value) && Clear(end.value, path, true)
      && (forall p | p != TempOf(path) :: Read(end.value, p) == Read(d, p)) && TempOf(path) in end.value.names
  {
    var a := Opened(pid, path, value, spare, n);
    WritesOut(d, pid, path, value, spare, n);
    var t := Play(d, a, true).value;
    CrashesAlone(d, t, pid, path, value, n);
    PlayOne(t, Crash(pid), true);
    PlayConcat(d, a, [Crash(pid)], true);
    StrictPlayKeepsInv(d, a + [Crash(pid)]);
  }

  lemma {:induction false} StrictPlayKeepsInv(d: Disk, run: seq<Step>)
    requires Inv(d) && Play(d, run, true).Some?
    ensures Inv(Play(d, run, true).value)
    decreases |run|
  {
    if run != [] {
      StepKeepsInv(d, run[0]);
      StrictPlayKeepsInv(Next(d, run[0]), run[1..]);
    }
  }
}
