/** Readers that open an entry and read it piece by piece while puts go on (engine/cache/store.py:10-14, 69-91):
    what was opened never changes, so they too see whole values, under the same condition. */
module CacheReaders {
  import opened Store
  import opened CacheWrites
  import opened CacheOverlap
  import opened Wrappers

  /** No temporary name leads to the inode and no put writes it. */
  ghost predicate Settled(d: Disk, inode: Inode) {
    && inode in d.data
    && (forall p | p in d.names && d.names[p] == inode :: EntryName(p))
    && (forall pid | At(d, pid, Writing) :: d.puts[pid].inode != inode)
  }

  lemma OpenedIsSettled(d: Disk, path: Path)
    requires Inv(d) && EntryName(path) && path in d.names
    ensures Settled(d, d.names[path])
  {
    forall pid | At(d, pid, Writing) ensures d.puts[pid].inode != d.names[path] {
      assert Owned(d, pid);
      TempApart(d.puts[pid].path, path);
    }
  }

  lemma StepKeepsSettled(d: Disk, step: Step, inode: Inode)
    requires Settled(d, inode) && Possible(d, step) && forall pid | pid in d.puts :: EntryName(d.puts[pid].path)
    ensures Settled(Next(d, step), inode) && Next(d, step).data[inode] == d.data[inode]
  {
    match step
    case Begin(_, path, _, _) => TempApart(path, path);
    case Replace(pid) => TempApart(d.puts[pid].path, d.puts[pid].path);
    case _ =>
  }

  function Content(d: Disk, inode: Inode): Bytes { if inode in d.data then d.data[inode] else [] }

  /** What an inode holds before each step of a run and after the last. */
  function Moments(d: Disk, run: seq<Step>, inode: Inode): (r: seq<Bytes>)
    requires Play(d, run, false).Some?
    ensures |r| == |run| + 1
    decreases |run|
  {
    [Content(d, inode)] + if run == [] then [] else Moments(Next(d, run[0]), run[1..], inode)
  }

  /** A buffer and the next bytes of a file after it, as many as asked for and there are. */
  function More(content: Bytes, got: Bytes, n: nat): Bytes {
    if |got| >= |content| then got
    else if |got| + n >= |content| then got + content[|got|..]
    else got + content[|got|..|got| + n]
  }

  /** What a reader has in the end that takes some bytes at each moment but the last, and there the rest. */
  function Gather(moments: seq<Bytes>, takes: seq<nat>, got: Bytes): Bytes
    requires |moments| == |takes| + 1
    decreases |takes|
  {
    if takes == [] then More(moments[0], got, |moments[0]|) else Gather(moments[1..], takes[1..], More(moments[0], got, takes[0]))
  }

  lemma MoreIsPrefix(content: Bytes, got: Bytes, n: nat)
    requires got <= content
    ensures More(content, got, n) <= content && (n >= |content| ==> More(content, got, n) == content)
  {}

  ghost predicate AllAre(moments: seq<Bytes>, content: Bytes) { forall i | 0 <= i < |moments| :: moments[i] == content }

  lemma {:induction false} GatherSame(content: Bytes, moments: seq<Bytes>, takes: seq<nat>, got: Bytes)
    requires |moments| == |takes| + 1 && AllAre(moments, content) && got <= content
    ensures Gather(moments, takes, got) == content
    decreases |takes|
  {
    if takes == [] {
      MoreIsPrefix(content, got, |content|);
    } else {
      MoreIsPrefix(content, got, takes[0]);
      GatherSame(content, moments[1..], takes[1..], More(content, got, takes[0]));
    }
  }

  /** An opened inode stays as it was when it was opened. */
  lemma {:induction false} MomentsSame(d: Disk, run: seq<Step>, inode: Inode)
    requires Inv(d) && Settled(d, inode) && Play(d, run, false).Some?
    ensures AllAre(Moments(d, run, inode), d.data[inode])
    decreases |run|
  {
    if run != [] {
      StepKeepsInv(d, run[0]);
      StepKeepsSettled(d, run[0], inode);
      MomentsSame(Next(d, run[0]), run[1..], inode);
    }
  }

  /** What a reader gets that opens `path` after one run and reads on through another. */
  function Opened(d: Disk, before: seq<Step>, during: seq<Step>, path: Path, takes: seq<nat>): Option<Bytes>
    requires Play(d, before, false).Some? && Play(Play(d, before, false).value, during, false).Some? && |takes| == |during|
  {
    var t := Play(d, before, false).value;
    if path in t.names && t.names[path] in t.data then Some(Gather(Moments(t, during, t.names[path]), takes, [])) else None
  }

  /** It gets the last value wholly put when it opened the file, however long it takes and whatever happens meanwhile. */
  lemma SlowReadersSeeWholeValues(d: Disk, before: seq<Step>, during: seq<Step>, path: Path, takes: seq<nat>)
    requires Inv(d) && EntryName(path) && |takes| == |during|
    requires Play(d, before, false).Some? && Play(Play(d, before, false).value, during, false).Some?
    ensures Opened(d, before, during, path, takes) == Abstract(d, before, path, Read(d, path))
  {
    var t := Play(d, before, false).value;
    ReadersSeeWholeValues(d, before, path);
    if path in t.names {
      OpenedIsSettled(t, path);
      MomentsSame(t, during, t.names[path]);
      GatherSame(t.data[t.names[path]], Moments(t, during, t.names[path]), takes, []);
    }
  }

  // ----- which puts are safe for them -----

  /** Whatever value is put and however the run goes on, slow readers of the path are shown whole contents only. */
  ghost predicate SlowReaderSafe(d: Disk, path: Path, pid: Pid) {
    forall value, spare, before, during, takes ::
      Possible(d, Begin(pid, path, value, spare)) && |takes| == |during|
      && Play(Next(d, Begin(pid, path, value, spare)), before, false).Some?
      && Play(Play(Next(d, Begin(pid, path, value, spare)), before, false).value, during, false).Some? ==>
        Whole(d, [Begin(pid, path, value, spare)] + before, path, Read(d, path),
              Opened(Next(d, Begin(pid, path, value, spare)), before, during, path, takes))
  }

  lemma ClearIsSlowSafe(d: Disk, begin: Step, before: seq<Step>, during: seq<Step>, takes: seq<nat>)
    requires Inv(d) && begin.Begin? && Possible(d, begin) && Clear(d, begin.path, false) && |takes| == |during|
    requires Play(Next(d, begin), before, false).Some? && Play(Play(Next(d, begin), before, false).value, during, false).Some?
    ensures Whole(d, [begin] + before, begin.path, Read(d, begin.path), Opened(Next(d, begin), before, during, begin.path, takes))
  {
    var all := [begin] + before;
    assert all[0] == begin && all[1..] == before;
    SlowReadersSeeWholeValues(d, all, during, begin.path, takes);
    AbstractIsWhole(d, all, begin.path, Read(d, begin.path));
  }

  /** A reader that reads all at once is one of them. */
  lemma OpenedAtOnce(d: Disk, run: seq<Step>, path: Path)
    requires Play(d, run, false).Some?
    ensures Play(Play(d, run, false).value, [], false).Some?
    ensures Opened(d, run, [], path, []) == Read(Play(d, run, false).value, path)
  {
    var t := Play(d, run, false).value;
    if path in t.names && t.names[path] in t.data { MoreIsPrefix(t.data[t.names[path]], [], |t.data[t.names[path]]|); }
  }

  lemma SlowIsSafe(d: Disk, path: Path, pid: Pid)
    requires SlowReaderSafe(d, path, pid)
    ensures ReaderSafe(d, path, pid)
  {
    forall value, spare, run
      | Possible(d, Begin(pid, path, value, spare)) && Play(Next(d, Begin(pid, path, value, spare)), run, false).Some?
      ensures Whole(d, [Begin(pid, path, value, spare)] + run, path, Read(d, path),
                    Read(Play(Next(d, Begin(pid, path, value, spare)), run, false).value, path))
    {
      var t := Next(d, Begin(pid, path, value, spare));
      OpenedAtOnce(t, run, path);
    }
  }

  /** Beginning a put is safe for slow readers exactly when it is for quick ones: when no put of the path is still writing. */
  lemma SlowReaderSafeIff(d: Disk, path: Path, pid: Pid)
    requires Inv(d) && EntryName(path) && pid !in d.puts
    ensures SlowReaderSafe(d, path, pid) <==> forall other | other in d.puts && d.puts[other].path == path :: d.puts[other].stage != Writing
  {
    ReaderSafeIff(d, path, pid);
    if Clear(d, path, false) {
      forall value, spare, before, during, takes
        | Possible(d, Begin(pid, path, value, spare)) && |takes| == |during|
          && Play(Next(d, Begin(pid, path, value, spare)), before, false).Some?
          && Play(Play(Next(d, Begin(pid, path, value, spare)), before, false).value, during, false).Some?
        ensures Whole(d, [Begin(pid, path, value, spare)] + before, path, Read(d, path),
                      Opened(Next(d, Begin(pid, path, value, spare)), before, during, path, takes))
      {
        ClearIsSlowSafe(d, Begin(pid, path, value, spare), before, during, takes);
      }
    } else if SlowReaderSafe(d, path, pid) {
      SlowIsSafe(d, path, pid);
    }
  }
}
