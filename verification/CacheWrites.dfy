/** `CacheStore.put` taken apart (engine/cache/store.py:78-91): open the temporary
    file, write it piece by piece, rename it over the entry, clean up.  Several writers,
    readers, deletions and crashes interleave freely; files are directory entries
    pointing at inodes, so a rename moves the inode another writer may still hold. */
module CacheWrites {
  import opened Store
  import opened Wrappers

  type Inode = nat
  type Pid = nat

  /** Where a put is: writing its temporary file, past the rename or an exception, or about to unlink. */
  datatype Stage = Writing | Finishing | Unlinking

  /** A put in progress: how much of `value` it has written, through which inode. */
  datatype Put = Put(path: Path, value: Bytes, inode: Inode, written: nat, stage: Stage)

  datatype Disk = Disk(names: map<Path, Inode>, data: map<Inode, Bytes>, puts: map<Pid, Put>)

  /** `Look` and `Unlink` are the two halves of the clean-up that ends every put. */
  datatype Step =
    | Begin(pid: Pid, path: Path, value: Bytes, spare: Inode)
    | Write(pid: Pid)
    | Replace(pid: Pid)
    | Fail(pid: Pid)
    | Look(pid: Pid)
    | Unlink(pid: Pid)
    | Crash(pid: Pid)
    | Delete(path: Path)

  predicate EntryName(p: Path) { p != [] && IsBin(p[|p| - 1]) }

  function TempOf(p: Path): Path {
    if p == [] then [".tmp"] else p[..|p| - 1] + [p[|p| - 1] + ".tmp"]
  }

  lemma EndsApart(n: string, m: string)
    ensures IsBin(n) ==> n + ".tmp" != m || !IsBin(m)
    ensures n + ".tmp" == m + ".tmp" ==> n == m
  {
    var s, t := n + ".tmp", m + ".tmp";
    assert s[|s| - 1] == 'p' && (IsBin(m) ==> m[|m| - 1] == 'n');
    assert s[..|s| - 4] == n && t[..|t| - 4] == m;
  }

  lemma TempApart(p: Path, q: Path)
    requires EntryName(p) && EntryName(q)
    ensures !EntryName(TempOf(p)) && (TempOf(p) == TempOf(q) ==> p == q)
  {
    var n, m := p[|p| - 1], q[|q| - 1];
    EndsApart(n, n + ".tmp");
    EndsApart(n, m);
    assert TempOf(p)[|p| - 1] == n + ".tmp" && TempOf(q)[|q| - 1] == m + ".tmp";
    if TempOf(p) == TempOf(q) {
      assert p[..|p| - 1] == TempOf(p)[..|p| - 1] == q[..|q| - 1];
      assert p == p[..|p| - 1] + [n] && q == q[..|q| - 1] + [m];
    }
  }

  function Overwrite(content: Bytes, at: nat, b: bv8): Bytes {
    if at < |content| then content[at := b] else content + seq(at - |content|, _ => 0 as bv8) + [b]
  }

  predicate At(d: Disk, pid: Pid, stage: Stage) { pid in d.puts && d.puts[pid].stage == stage }

  predicate Possible(d: Disk, step: Step) {
    match step
    case Begin(pid, path, _, spare) =>
      pid !in d.puts && EntryName(path) && (TempOf(path) in d.names || spare !in d.data)
    case Write(pid) => At(d, pid, Writing) && d.puts[pid].written < |d.puts[pid].value|
    case Replace(pid) => At(d, pid, Writing) && d.puts[pid].written == |d.puts[pid].value|
    case Fail(pid) => At(d, pid, Writing)
    case Look(pid) => At(d, pid, Finishing)
    case Unlink(pid) => At(d, pid, Unlinking)
    case Crash(pid) => pid in d.puts
    case Delete(path) => EntryName(path)
  }

  /** A rename whose temporary file is gone raises; either way the clean-up comes next. */
  function Next(d: Disk, step: Step): Disk
    requires Possible(d, step)
  {
    match step
    case Begin(pid, path, value, spare) =>
      var tmp := TempOf(path);
      var inode := if tmp in d.names then d.names[tmp] else spare;
      Disk(d.names[tmp := inode], d.data[inode := []], d.puts[pid := Put(path, value, inode, 0, Writing)])
    case Write(pid) =>
      var put := d.puts[pid];
      var content := if put.inode in d.data then d.data[put.inode] else [];
      Disk(d.names, d.data[put.inode := Overwrite(content, put.written, put.value[put.written])],
           d.puts[pid := put.(written := put.written + 1)])
    case Replace(pid) =>
      var put := d.puts[pid];
      var tmp := TempOf(put.path);
      var names := if tmp in d.names then d.names[put.path := d.names[tmp]] - {tmp} else d.names;
      Disk(names, d.data, d.puts[pid := put.(stage := Finishing)])
    case Fail(pid) => d.(puts := d.puts[pid := d.puts[pid].(stage := Finishing)])
    case Look(pid) =>
      if TempOf(d.puts[pid].path) in d.names then d.(puts := d.puts[pid := d.puts[pid].(stage := Unlinking)])
      else d.(puts := d.puts - {pid})
    case Unlink(pid) => Disk(d.names - {TempOf(d.puts[pid].path)}, d.data, d.puts - {pid})
    case Crash(pid) => d.(puts := d.puts - {pid})
    case Delete(path) => d.(names := d.names - {path})
  }

  /** What a reader opening `path` now gets: nothing, or the whole current content. */
  function Read(d: Disk, path: Path): Option<Bytes> {
    if path in d.names && d.names[path] in d.data then Some(d.data[d.names[path]]) else None
  }

  /** No put of `path` is still writing; when `strict`, none is pending at all. */
  predicate Clear(d: Disk, path: Path, strict: bool) {
    forall pid | pid in d.puts && d.puts[pid].path == path :: !strict && d.puts[pid].stage != Writing
  }

  /** The discipline the store leaves to its callers, in its two strengths. */
  predicate NoOverlap(d: Disk, step: Step, strict: bool) { step.Begin? ==> Clear(d, step.path, strict) }

  /** What a writing put has written so far is what its inode holds, and nothing but its temporary name leads there. */
  ghost predicate Owned(d: Disk, pid: Pid)
    requires pid in d.puts
  {
    var put := d.puts[pid];
    && put.inode in d.data && put.written <= |put.value| && d.data[put.inode] == put.value[..put.written]
    && (forall p | p in d.names && d.names[p] == put.inode :: p == TempOf(put.path))
    && (TempOf(put.path) in d.names ==> d.names[TempOf(put.path)] == put.inode)
  }

  ghost predicate Inv(d: Disk) {
    && (forall p, q | p in d.names && q in d.names && d.names[p] == d.names[q] :: p == q)
    && (forall p | p in d.names :: d.names[p] in d.data)
    && (forall pid | pid in d.puts :: EntryName(d.puts[pid].path))
    && (forall pid | At(d, pid, Writing) :: Owned(d, pid))
    && (forall pid, other | At(d, pid, Writing) && At(d, other, Writing) && pid != other ::
        d.puts[pid].path != d.puts[other].path && d.puts[pid].inode != d.puts[other].inode)
  }

  /** The value a step makes visible at a path, if it changes that path at all. */
  function Visible(d: Disk, step: Step, path: Path, now: Option<Bytes>): Option<Bytes> {
    if step.Replace? && step.pid in d.puts && d.puts[step.pid].path == path && TempOf(path) in d.names then
      Some(d.puts[step.pid].value)
    else if step == Delete(path) then None
    else now
  }

  lemma BeginKeepsInv(d: Disk, step: Step)
    requires Inv(d) && step.Begin? && Possible(d, step) && NoOverlap(d, step, false)
    ensures Inv(Next(d, step))
  {
    var t := Next(d, step);
    forall pid | At(d, pid, Writing)
      ensures t.puts[pid] == d.puts[pid] && Owned(t, pid) && t.puts[pid].inode != t.puts[step.pid].inode
    {
      TempApart(d.puts[pid].path, step.path);
      assert Owned(d, pid);
    }
    assert Owned(t, step.pid);
  }

  lemma WriteKeepsInv(d: Disk, step: Step)
    requires Inv(d) && step.Write? && Possible(d, step)
    ensures Inv(Next(d, step))
  {
    var t := Next(d, step);
    var put := d.puts[step.pid];
    assert Owned(d, step.pid);
    assert put.value[..put.written + 1] == put.value[..put.written] + [put.value[put.written]];
    assert Owned(t, step.pid);
    forall pid | At(t, pid, Writing) && pid != step.pid ensures Owned(t, pid) {
      assert At(d, pid, Writing) && Owned(d, pid);
    }
  }

  lemma ReplaceKeepsInv(d: Disk, step: Step)
    requires Inv(d) && step.Replace? && Possible(d, step)
    ensures Inv(Next(d, step))
  {
    var t := Next(d, step);
    assert Owned(d, step.pid);
    TempApart(d.puts[step.pid].path, d.puts[step.pid].path);
    forall pid | At(t, pid, Writing) ensures Owned(t, pid) {
      assert At(d, pid, Writing) && Owned(d, pid);
      TempApart(d.puts[pid].path, d.puts[step.pid].path);
    }
  }

  /** A step that adds no name, writes nothing and leaves every put writing or not as it was, or ends it. */
  ghost predicate Shrinks(d: Disk, t: Disk) {
    && t.data == d.data
    && (forall p | p in t.names :: p in d.names && t.names[p] == d.names[p])
    && (forall pid | pid in t.puts :: pid in d.puts && t.puts[pid].path == d.puts[pid].path)
    && (forall pid | At(t, pid, Writing) :: t.puts[pid] == d.puts[pid])
  }

  lemma ShrinkingKeepsInv(d: Disk, t: Disk)
    requires Inv(d) && Shrinks(d, t)
    ensures Inv(t)
  {
    forall pid | At(t, pid, Writing) ensures At(d, pid, Writing) && Owned(t, pid) { assert Owned(d, pid); }
  }

  lemma OtherStepsKeepInv(d: Disk, step: Step)
    requires Inv(d) && !step.Begin? && !step.Write? && !step.Replace? && Possible(d, step)
    ensures Inv(Next(d, step))
  {
    ShrinkingKeepsInv(d, Next(d, step));
  }

  lemma StepKeepsInv(d: Disk, step: Step)
    requires Inv(d) && Possible(d, step) && NoOverlap(d, step, false)
    ensures Inv(Next(d, step))
  {
    match step
    case Begin(_, _, _, _) => BeginKeepsInv(d, step);
    case Write(_) => WriteKeepsInv(d, step);
    case Replace(_) => ReplaceKeepsInv(d, step);
    case _ => OtherStepsKeepInv(d, step);
  }

  lemma ReplaceShowsValue(d: Disk, pid: Pid, path: Path)
    requires Inv(d) && Possible(d, Replace(pid)) && EntryName(path)
    ensures Read(Next(d, Replace(pid)), path) == Visible(d, Replace(pid), path, Read(d, path))
  {
    var put := d.puts[pid];
    assert Owned(d, pid);
    TempApart(put.path, path);
    assert put.value[..|put.value|] == put.value;
  }

  /** Writing goes to a temporary file's inode, which no entry shares. */
  lemma WritesAreHidden(d: Disk, step: Step, path: Path)
    requires Inv(d) && Possible(d, step) && EntryName(path) && (step.Begin? || step.Write?)
    ensures Read(Next(d, step), path) == Read(d, path)
  {
    if step.Begin? {
      TempApart(step.path, path);
    } else {
      assert Owned(d, step.pid);
      TempApart(d.puts[step.pid].path, path);
    }
  }

  lemma RemovalShows(d: Disk, step: Step, path: Path)
    requires Inv(d) && Possible(d, step) && EntryName(path) && !step.Begin? && !step.Write? && !step.Replace?
    ensures Read(Next(d, step), path) == if step == Delete(path) then None else Read(d, path)
  {
    if step.Unlink? { TempApart(d.puts[step.pid].path, path); }
  }

  /** A step shows readers whole values only. */
  lemma StepShowsWholeValues(d: Disk, step: Step, path: Path)
    requires Inv(d) && Possible(d, step) && EntryName(path)
    ensures Read(Next(d, step), path) == Visible(d, step, path, Read(d, path))
  {
    match step
    case Replace(pid) => ReplaceShowsValue(d, pid, path);
    case Begin(_, _, _, _) => WritesAreHidden(d, step, path);
    case Write(_) => WritesAreHidden(d, step, path);
    case _ => RemovalShows(d, step, path);
  }

  // ----- whole runs -----

  /** The disk after a run, if every step was possible and kept the discipline. */
  function Play(d: Disk, run: seq<Step>, strict: bool): Option<Disk>
    decreases |run|
  {
    if run == [] then Some(d)
    else if Possible(d, run[0]) && NoOverlap(d, run[0], strict) then Play(Next(d, run[0]), run[1..], strict)
    else None
  }

  /** The store as a plain map: what the renames and deletions of a run leave at `path`. */
  function Abstract(d: Disk, run: seq<Step>, path: Path, now: Option<Bytes>): Option<Bytes>
    requires Play(d, run, false).Some?
    decreases |run|
  {
    if run == [] then now
    else Abstract(Next(d, run[0]), run[1..], path, Visible(d, run[0], path, now))
  }

  /** Over any run, crashes included, in which no two puts of one path write at the same time, a reader
      sees the last value wholly put, never part of one. */
  lemma {:induction false} ReadersSeeWholeValues(d: Disk, run: seq<Step>, path: Path)
    requires Inv(d) && EntryName(path) && Play(d, run, false).Some?
    ensures Inv(Play(d, run, false).value)
    ensures Read(Play(d, run, false).value, path) == Abstract(d, run, path, Read(d, path))
    decreases |run|
  {
    if run != [] {
      StepShowsWholeValues(d, run[0], path);
      StepKeepsInv(d, run[0]);
      ReadersSeeWholeValues(Next(d, run[0]), run[1..], path);
    }
  }

  /** Content that readers of `path` may be shown in a run: what was there, or the whole value of a put. */
  ghost predicate Whole(d: Disk, run: seq<Step>, path: Path, now: Option<Bytes>, c: Option<Bytes>) {
    || c == None || c == now
    || (exists pid :: pid in d.puts && d.puts[pid].path == path && c == Some(d.puts[pid].value))
    || (exists step :: step in run && step.Begin? && step.path == path && c == Some(step.value))
  }

  lemma {:induction false} AbstractIsWhole(d: Disk, run: seq<Step>, path: Path, now: Option<Bytes>)
    requires Play(d, run, false).Some?
    ensures Whole(d, run, path, now, Abstract(d, run, path, now))
    decreases |run|
  {
    if run != [] {
      var t, c := Next(d, run[0]), Abstract(d, run, path, now);
      AbstractIsWhole(t, run[1..], path, Visible(d, run[0], path, now));
      assert forall step | step in run[1..] :: step in run;
      if pid :| pid in t.puts && t.puts[pid].path == path && c == Some(t.puts[pid].value) {
        if pid !in d.puts || d.puts[pid].value != t.puts[pid].value || d.puts[pid].path != path { assert run[0] in run; }
      }
    }
  }
}
