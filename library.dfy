// The library walk of LoudGain: grouping the files by folder and the order
// in which processLibrary hands scans and aggregations to the thread pool.
// The pool is abstracted to the trace of calls the controller makes on it.
module Library {
  import opened Common

  // ---------------------------------------------------------------------
  // Grouping by parent directory

  /** The map getSupportedAudioFilesSortedByFolder builds, file by file. */
  function Grouped(files: seq<Path>): map<string, seq<Path>>
  {
    if |files| == 0 then map[]
    else
      var g := Grouped(files[..|files| - 1]);
      var f := files[|files| - 1];
      g[f.dir := (if f.dir in g then g[f.dir] else []) + [f]]
  }

  /** The files of one directory, in input order. */
  function InFolder(files: seq<Path>, dir: string): seq<Path>
  {
    if |files| == 0 then []
    else
      InFolder(files[..|files| - 1], dir)
        + (if files[|files| - 1].dir == dir then [files[|files| - 1]] else [])
  }

  /**
   * The keys are exactly the parent directories of the files, and each key
   * holds the files of that directory in input order, at least one.
   */
  lemma {:induction false} GroupedByDirectory(files: seq<Path>, dir: string)
    ensures dir in Grouped(files) <==> exists i :: 0 <= i < |files| && files[i].dir == dir
    ensures dir in Grouped(files) ==> Grouped(files)[dir] == InFolder(files, dir) && |InFolder(files, dir)| > 0
    ensures dir !in Grouped(files) ==> InFolder(files, dir) == []
  {
    if |files| > 0 {
      var init := files[..|files| - 1];
      GroupedByDirectory(init, dir);
      if exists i :: 0 <= i < |init| && init[i].dir == dir {
        var i :| 0 <= i < |init| && init[i].dir == dir;
        assert files[i].dir == dir;
      }
      if exists i :: 0 <= i < |files| && files[i].dir == dir {
        var i :| 0 <= i < |files| && files[i].dir == dir;
        if i < |init| {
          assert init[i].dir == dir;
        }
      }
    }
  }

  /** A file is in a directory's group exactly when it is one of the files and lives there. */
  lemma {:induction false} InFolderMembers(files: seq<Path>, dir: string, p: Path)
    ensures p in InFolder(files, dir) <==> p in files && p.dir == dir
  {
    if |files| > 0 {
      var init := files[..|files| - 1];
      InFolderMembers(init, dir, p);
      assert files == init + [files[|files| - 1]];
    }
  }

  /** Grouping partitions the files: every file is in the group of its own directory and in no other. */
  lemma GroupingPartitions(files: seq<Path>, p: Path, dir: string)
    requires dir in Grouped(files)
    ensures p in Grouped(files)[dir] <==> p in files && p.dir == dir
  {
    GroupedByDirectory(files, dir);
    InFolderMembers(files, dir, p);
  }

  method GroupByFolder(files: seq<Path>) returns (sorted: map<string, seq<Path>>)
    ensures sorted == Grouped(files)
  {
    sorted := map[];
    for i := 0 to |files|
      invariant sorted == Grouped(files[..i])
    {
      assert files[..i + 1][..i] == files[..i];
      var dir := files[i].dir;
      if dir !in sorted {
        sorted := sorted[dir := []];
      }
      sorted := sorted[dir := sorted[dir] + [files[i]]];
    }
    assert files[..|files|] == files;
  }

  // ---------------------------------------------------------------------
  // The trace of processLibrary

  /**
   * What the controller does, in order: submit a whole-folder task, submit
   * one track scan, wait for the pool to go idle or to finish, aggregate a
   * folder itself, submit a single-file task, or submit a tag removal.
   * Folders are numbered in the map's key order, files in set order.
   */
  datatype Event =
    | RunFolder(folder: nat)
    | SubmitScan(folder: nat, track: nat)
    | WaitForIdle
    | WaitForFinished
    | Aggregate(folder: nat)
    | RunFile(file: nat)
    | RemoveTags(file: nat)

  predicate IsBarrier(e: Event)
  {
    e.WaitForIdle? || e.WaitForFinished?
  }

  /**
   * The trace up to and including its last barrier. In this model a barrier
   * ends only when every task submitted before it has run.
   */
  function UpToLastBarrier(t: seq<Event>): seq<Event>
  {
    if |t| == 0 then []
    else if IsBarrier(t[|t| - 1]) then t
    else UpToLastBarrier(t[..|t| - 1])
  }

  /** How many track scans of a folder the trace submits. */
  function ScanCount(t: seq<Event>, f: nat): nat
  {
    if |t| == 0 then 0
    else ScanCount(t[..|t| - 1], f) + (if t[|t| - 1].SubmitScan? && t[|t| - 1].folder == f then 1 else 0)
  }

  /** The folders whose aggregation the trace performs or delegates, in order. */
  function Handled(t: seq<Event>): seq<nat>
  {
    if |t| == 0 then []
    else
      Handled(t[..|t| - 1])
        + (if t[|t| - 1].RunFolder? || t[|t| - 1].Aggregate? then [t[|t| - 1].folder] else [])
  }

  function Range(n: nat): seq<nat>
  {
    seq(n, i requires 0 <= i < n => i)
  }

  function ScanBlock(f: nat, n: nat): seq<Event>
  {
    seq(n, i requires 0 <= i < n => SubmitScan(f, i))
  }

  function AggregateBlock(fs: seq<nat>): seq<Event>
  {
    seq(|fs|, i requires 0 <= i < |fs| => Aggregate(fs[i]))
  }

  /** The number of tracks of the given folders. */
  function Tracks(counts: seq<nat>, fs: seq<nat>): nat
  {
    if |fs| == 0 then 0
    else Tracks(counts, fs[..|fs| - 1]) + (if fs[|fs| - 1] < |counts| then counts[fs[|fs| - 1]] else 0)
  }

  function Flatten(waves: seq<seq<nat>>): seq<nat>
  {
    if |waves| == 0 then [] else Flatten(waves[..|waves| - 1]) + waves[|waves| - 1]
  }

  /**
   * Every aggregation the controller performs itself comes after a barrier
   * that was preceded by the submission of every track scan of that folder.
   */
  ghost predicate AggregatedAfterScans(t: seq<Event>, counts: seq<nat>)
  {
    forall j :: 0 <= j < |t| && t[j].Aggregate? ==>
      t[j].folder < |counts| && ScanCount(UpToLastBarrier(t[..j]), t[j].folder) == counts[t[j].folder]
  }

  lemma {:induction false} ScanCountAppend(t: seq<Event>, u: seq<Event>, f: nat)
    ensures ScanCount(t + u, f) == ScanCount(t, f) + ScanCount(u, f)
  {
    if |u| == 0 {
      assert t + u == t;
    } else {
      ScanCountAppend(t, u[..|u| - 1], f);
      assert (t + u)[..|t + u| - 1] == t + u[..|u| - 1];
    }
  }

  lemma {:induction false} ScanCountBlock(f: nat, n: nat, g: nat)
    ensures ScanCount(ScanBlock(f, n), g) == if g == f then n else 0
  {
    if n > 0 {
      ScanCountBlock(f, n - 1, g);
      assert ScanBlock(f, n)[..n - 1] == ScanBlock(f, n - 1);
    }
  }

  lemma {:induction false} ScanCountAggregates(fs: seq<nat>, g: nat)
    ensures ScanCount(AggregateBlock(fs), g) == 0
  {
    if |fs| > 0 {
      ScanCountAggregates(fs[..|fs| - 1], g);
      assert AggregateBlock(fs)[..|fs| - 1] == AggregateBlock(fs[..|fs| - 1]);
    }
  }

  lemma {:induction false} HandledAppend(t: seq<Event>, u: seq<Event>)
    ensures Handled(t + u) == Handled(t) + Handled(u)
  {
    if |u| == 0 {
      assert t + u == t;
    } else {
      HandledAppend(t, u[..|u| - 1]);
      assert (t + u)[..|t + u| - 1] == t + u[..|u| - 1];
    }
  }

  lemma {:induction false} HandledScans(f: nat, n: nat)
    ensures Handled(ScanBlock(f, n)) == []
  {
    if n > 0 {
      HandledScans(f, n - 1);
      assert ScanBlock(f, n)[..n - 1] == ScanBlock(f, n - 1);
    }
  }

  lemma {:induction false} HandledAggregates(fs: seq<nat>)
    ensures Handled(AggregateBlock(fs)) == fs
  {
    if |fs| > 0 {
      HandledAggregates(fs[..|fs| - 1]);
      assert AggregateBlock(fs)[..|fs| - 1] == AggregateBlock(fs[..|fs| - 1]);
    }
  }

  /** Events that are not barriers do not move the prefix up to the last barrier. */
  lemma {:induction false} UpToLastBarrierKept(t: seq<Event>, u: seq<Event>)
    requires forall k :: 0 <= k < |u| ==> !IsBarrier(u[k])
    ensures UpToLastBarrier(t + u) == UpToLastBarrier(t)
  {
    if |u| == 0 {
      assert t + u == t;
    } else {
      UpToLastBarrierKept(t, u[..|u| - 1]);
      assert (t + u)[..|t + u| - 1] == t + u[..|u| - 1];
      assert !IsBarrier((t + u)[|t + u| - 1]) by {
        assert (t + u)[|t + u| - 1] == u[|u| - 1];
      }
    }
  }

  /** Appending events that aggregate nothing keeps the ordering property. */
  lemma AfterScansKeptByPlainEvents(t: seq<Event>, u: seq<Event>, counts: seq<nat>)
    requires AggregatedAfterScans(t, counts)
    requires forall k :: 0 <= k < |u| ==> !u[k].Aggregate?
    ensures AggregatedAfterScans(t + u, counts)
  {
    forall j | 0 <= j < |t + u| && (t + u)[j].Aggregate?
      ensures (t + u)[j].folder < |counts|
      ensures ScanCount(UpToLastBarrier((t + u)[..j]), (t + u)[j].folder) == counts[(t + u)[j].folder]
    {
      assert j < |t|;
      assert (t + u)[..j] == t[..j];
    }
  }

  /**
   * A barrier followed by the aggregation of folders whose scans were all
   * submitted before it keeps the ordering property.
   */
  lemma AfterScansKeptByFlush(t: seq<Event>, b: Event, fs: seq<nat>, counts: seq<nat>)
    requires AggregatedAfterScans(t, counts) && IsBarrier(b)
    requires forall x :: 0 <= x < |fs| ==> fs[x] < |counts| && ScanCount(t, fs[x]) == counts[fs[x]]
    ensures AggregatedAfterScans(t + [b] + AggregateBlock(fs), counts)
  {
    var s := t + [b];
    var u := s + AggregateBlock(fs);
    AfterScansKeptByPlainEvents(t, [b], counts);
    forall j | 0 <= j < |u| && u[j].Aggregate?
      ensures u[j].folder < |counts|
      ensures ScanCount(UpToLastBarrier(u[..j]), u[j].folder) == counts[u[j].folder]
    {
      if j < |s| {
        assert u[..j] == s[..j];
        assert u[j] == s[j];
      } else {
        var x := j - |s|;
        assert u[j] == Aggregate(fs[x]);
        assert u[..j] == s + AggregateBlock(fs)[..x];
        UpToLastBarrierKept(s, AggregateBlock(fs)[..x]);
        assert UpToLastBarrier(s) == s;
        ScanCountAppend(t, [b], fs[x]);
        assert ScanCount([b], fs[x]) == 0 by {
          assert [b][..0] == [];
        }
      }
    }
  }

  /**
   * The bookkeeping both album loops keep: the folders before f are
   * handled (done) or held back for the next wave (held), in order, and
   * every aggregation so far followed a barrier after the folder's scans.
   */
  ghost predicate Ordered(counts: seq<nat>, f: nat, t: seq<Event>, done: seq<nat>, held: seq<nat>)
  {
    f <= |counts| && done + held == Range(f) && Handled(t) == done
    && AggregatedAfterScans(t, counts)
  }

  /** The scans submitted so far are all those of the folders before f and no others. */
  ghost predicate ScansUpTo(counts: seq<nat>, f: nat, t: seq<Event>)
  {
    f <= |counts|
    && (forall g :: 0 <= g < f ==> ScanCount(t, g) == counts[g])
    && (forall g :: f <= g ==> ScanCount(t, g) == 0)
  }

  lemma ScanBlockCounts(t: seq<Event>, f: nat, n: nat)
    ensures forall g: nat :: ScanCount(t + ScanBlock(f, n), g) == ScanCount(t, g) + (if g == f then n else 0)
  {
    forall g: nat
      ensures ScanCount(t + ScanBlock(f, n), g) == ScanCount(t, g) + (if g == f then n else 0)
    {
      ScanCountAppend(t, ScanBlock(f, n), g);
      ScanCountBlock(f, n, g);
    }
  }

  lemma FlushCounts(t: seq<Event>, b: Event, fs: seq<nat>)
    requires IsBarrier(b)
    ensures forall g: nat :: ScanCount(t + [b] + AggregateBlock(fs), g) == ScanCount(t, g)
  {
    forall g: nat
      ensures ScanCount(t + [b] + AggregateBlock(fs), g) == ScanCount(t, g)
    {
      ScanCountAppend(t + [b], AggregateBlock(fs), g);
      ScanCountAppend(t, [b], g);
      ScanCountAggregates(fs, g);
      assert [b][..0] == [];
    }
  }

  /** Submitting every scan of the next folder and holding it back. */
  lemma PushOrdered(counts: seq<nat>, f: nat, t: seq<Event>, done: seq<nat>, held: seq<nat>)
    requires Ordered(counts, f, t, done, held) && f < |counts|
    ensures Ordered(counts, f + 1, t + ScanBlock(f, counts[f]), done, held + [f])
  {
    assert Range(f + 1) == Range(f) + [f];
    HandledAppend(t, ScanBlock(f, counts[f]));
    HandledScans(f, counts[f]);
    AfterScansKeptByPlainEvents(t, ScanBlock(f, counts[f]), counts);
  }

  lemma PushScans(counts: seq<nat>, f: nat, t: seq<Event>)
    requires ScansUpTo(counts, f, t) && f < |counts|
    ensures ScansUpTo(counts, f + 1, t + ScanBlock(f, counts[f]))
  {
    ScanBlockCounts(t, f, counts[f]);
  }

  /** A barrier followed by the aggregation of every held folder. */
  lemma FlushOrdered(counts: seq<nat>, f: nat, t: seq<Event>, done: seq<nat>, held: seq<nat>, b: Event)
    requires Ordered(counts, f, t, done, held) && ScansUpTo(counts, f, t) && IsBarrier(b)
    ensures Ordered(counts, f, t + [b] + AggregateBlock(held), done + held, [])
  {
    forall x | 0 <= x < |held|
      ensures held[x] < |counts| && ScanCount(t, held[x]) == counts[held[x]]
    {
      assert (done + held)[|done| + x] == held[x];
    }
    AfterScansKeptByFlush(t, b, held, counts);
    HandledAppend(t + [b], AggregateBlock(held));
    HandledAppend(t, [b]);
    assert Handled([b]) == [] by {
      assert [b][..0] == [];
    }
    HandledAggregates(held);
    assert done + held + [] == done + held;
  }

  lemma FlushScans(counts: seq<nat>, f: nat, t: seq<Event>, fs: seq<nat>, b: Event)
    requires ScansUpTo(counts, f, t) && IsBarrier(b)
    ensures ScansUpTo(counts, f, t + [b] + AggregateBlock(fs))
  {
    FlushCounts(t, b, fs);
  }

  /**
   * One flush of the wave loop: the barrier b, then the aggregation of every
   * held folder, which become the next wave.
   */
  method FlushWave(counts: seq<nat>, f: nat, trace: seq<Event>, waves: seq<seq<nat>>, held: seq<nat>, b: Event)
    returns (trace': seq<Event>, waves': seq<seq<nat>>)
    requires Ordered(counts, f, trace, Flatten(waves), held) && ScansUpTo(counts, f, trace) && IsBarrier(b)
    requires |held| <= 1 || Tracks(counts, held) < 2000
    requires forall w :: 0 <= w < |waves| ==> |waves[w]| <= 1 || Tracks(counts, waves[w]) < 2000
    ensures trace' == trace + [b] + AggregateBlock(held) && waves' == waves + [held]
    ensures Ordered(counts, f, trace', Flatten(waves'), []) && ScansUpTo(counts, f, trace')
    ensures forall w :: 0 <= w < |waves'| ==> |waves'[w]| <= 1 || Tracks(counts, waves'[w]) < 2000
  {
    FlushOrdered(counts, f, trace, Flatten(waves), held, b);
    FlushScans(counts, f, trace, held, b);
    trace' := trace + [b];
    trace' := Aggregating(trace', held);
    assert (waves + [held])[..|waves|] == waves;
    waves' := waves + [held];
  }

  /**
   * The wave loop of processLibrary (fewer than 5 * threads folders):
   * folders are opened and scanned in map order while a running track count
   * stays below 2000; when it reaches 2000 the pool is waited for and the
   * held folders are aggregated. After the loop the pool is waited for
   * once more and the last wave is aggregated.
   */
  method ProcessWaves(counts: seq<nat>) returns (trace: seq<Event>, waves: seq<seq<nat>>)
    ensures Handled(trace) == Range(|counts|) && Flatten(waves) == Range(|counts|)
    ensures AggregatedAfterScans(trace, counts)
    ensures forall f :: 0 <= f < |counts| ==> ScanCount(trace, f) == counts[f]
    ensures forall w :: 0 <= w < |waves| ==> |waves[w]| <= 1 || Tracks(counts, waves[w]) < 2000
  {
    trace := [];
    waves := [];
    var held: seq<nat> := [];
    var trCount: nat := 0;
    assert Range(0) == [];
    for f := 0 to |counts|
      invariant WaveState(counts, f, trace, waves, held, trCount)
    {
      trace, waves, held, trCount := WaveStep(counts, f, trace, waves, held, trCount);
    }
    trace, waves := FlushWave(counts, |counts|, trace, waves, held, WaitForFinished);
    assert Flatten(waves) + [] == Flatten(waves);
  }

  /** What the wave loop keeps before folder f: the bookkeeping, the running count and the wave bound. */
  ghost predicate WaveState(counts: seq<nat>, f: nat, trace: seq<Event>, waves: seq<seq<nat>>, held: seq<nat>, trCount: nat)
  {
    Ordered(counts, f, trace, Flatten(waves), held)
    && ScansUpTo(counts, f, trace)
    && trCount == Tracks(counts, held) && (|held| <= 1 || trCount < 2000)
    && (forall w :: 0 <= w < |waves| ==> |waves[w]| <= 1 || Tracks(counts, waves[w]) < 2000)
  }

  /** One iteration of the wave loop: flush when folder f brings the count to 2000, then hold f. */
  method WaveStep(counts: seq<nat>, f: nat, trace: seq<Event>, waves: seq<seq<nat>>, held: seq<nat>, trCount: nat)
    returns (trace': seq<Event>, waves': seq<seq<nat>>, held': seq<nat>, trCount': nat)
    requires f < |counts| && WaveState(counts, f, trace, waves, held, trCount)
    ensures WaveState(counts, f + 1, trace', waves', held', trCount')
    ensures held' == (if trCount + counts[f] >= 2000 then [] else held) + [f]
    ensures waves' == if trCount + counts[f] >= 2000 then waves + [held] else waves
  {
    trace', waves', held', trCount' := trace, waves, held, trCount + counts[f];
    if trCount' >= 2000 {
      trace', waves' := FlushWave(counts, f, trace, waves, held, WaitForIdle);
      held' := [];
      trCount' := counts[f];
    }
    trace', held' := HoldFolder(counts, f, trace', Flatten(waves'), held');
  }

  /** One iteration's folder f: its scans are submitted and it is held for the current wave. */
  method HoldFolder(counts: seq<nat>, f: nat, trace: seq<Event>, done: seq<nat>, held: seq<nat>)
    returns (trace': seq<Event>, held': seq<nat>)
    requires f < |counts| && Ordered(counts, f, trace, done, held) && ScansUpTo(counts, f, trace)
    ensures trace' == trace + ScanBlock(f, counts[f]) && held' == held + [f]
    ensures Ordered(counts, f + 1, trace', done, held') && ScansUpTo(counts, f + 1, trace')
    ensures Tracks(counts, held') == Tracks(counts, held) + counts[f]
  {
    PushOrdered(counts, f, trace, done, held);
    PushScans(counts, f, trace);
    assert (held + [f])[..|held|] == held;
    held' := held + [f];
    trace' := Scanning(trace, f, counts[f]);
  }

  /** One scan task per track of folder f, in track order. */
  method Scanning(t: seq<Event>, f: nat, n: nat) returns (u: seq<Event>)
    ensures u == t + ScanBlock(f, n)
  {
    u := t;
    for i := 0 to n
      invariant u == t + ScanBlock(f, i)
    {
      assert ScanBlock(f, i + 1) == ScanBlock(f, i) + [SubmitScan(f, i)];
      u := u + [SubmitScan(f, i)];
    }
  }

  /** processAudioFolder on each held folder, in order. */
  method Aggregating(t: seq<Event>, fs: seq<nat>) returns (u: seq<Event>)
    ensures u == t + AggregateBlock(fs)
  {
    u := t;
    for i := 0 to |fs|
      invariant u == t + AggregateBlock(fs[..i])
    {
      assert AggregateBlock(fs[..i + 1]) == AggregateBlock(fs[..i]) + [Aggregate(fs[i])];
      u := u + [Aggregate(fs[i])];
    }
    assert fs[..|fs|] == fs;
  }

  /** The largest folder that is delegated whole to one task. */
  const MaxTaskFolder: nat := 1000

  /**
   * The task loop of processLibrary (more than 5 * threads folders): a
   * folder of at most 1000 tracks becomes one task; a larger one gets a
   * scan task per track, a wait for idle and an aggregation by the
   * controller. The pool is waited for at the end.
   */
  method ProcessFolderTasks(counts: seq<nat>) returns (trace: seq<Event>)
    ensures Handled(trace) == Range(|counts|)
    ensures AggregatedAfterScans(trace, counts)
    ensures forall f :: 0 <= f < |counts| ==> ScanCount(trace, f) == if counts[f] <= MaxTaskFolder then 0 else counts[f]
    ensures forall j :: 0 <= j < |trace| && trace[j].RunFolder? ==>
      trace[j].folder < |counts| && counts[trace[j].folder] <= MaxTaskFolder
    ensures |trace| > 0 && trace[|trace| - 1] == WaitForFinished
  {
    trace := [];
    assert Range(0) == [];
    for f := 0 to |counts|
      invariant Handled(trace) == Range(f)
      invariant AggregatedAfterScans(trace, counts)
      invariant forall g :: 0 <= g < f ==> ScanCount(trace, g) == if counts[g] <= MaxTaskFolder then 0 else counts[g]
      invariant forall g :: f <= g ==> ScanCount(trace, g) == 0
      invariant forall j :: 0 <= j < |trace| && trace[j].RunFolder? ==>
        trace[j].folder < |counts| && counts[trace[j].folder] <= MaxTaskFolder
    {
      assert Range(f + 1) == Range(f) + [f];
      if counts[f] <= MaxTaskFolder {
        DelegatedFolder(counts, f, trace);
        trace := trace + [RunFolder(f)];
      } else {
        SplitFolder(counts, f, trace);
        trace := Scanning(trace, f, counts[f]);
        trace := trace + [WaitForIdle, Aggregate(f)];
      }
    }
    AfterScansKeptByPlainEvents(trace, [WaitForFinished], counts);
    HandledAppend(trace, [WaitForFinished]);
    forall g: nat
      ensures ScanCount(trace + [WaitForFinished], g) == ScanCount(trace, g)
    {
      ScanCountAppend(trace, [WaitForFinished], g);
      assert [WaitForFinished][..0] == [];
    }
    forall j | 0 <= j < |trace + [WaitForFinished]| && (trace + [WaitForFinished])[j].RunFolder?
      ensures j < |trace|
    {
    }
    trace := trace + [WaitForFinished];
  }

  /** The step of ProcessFolderTasks for a folder given whole to one task. */
  lemma DelegatedFolder(counts: seq<nat>, f: nat, t: seq<Event>)
    requires f < |counts| && counts[f] <= MaxTaskFolder
    requires AggregatedAfterScans(t, counts)
    ensures AggregatedAfterScans(t + [RunFolder(f)], counts)
    ensures Handled(t + [RunFolder(f)]) == Handled(t) + [f]
    ensures forall g: nat :: ScanCount(t + [RunFolder(f)], g) == ScanCount(t, g)
  {
    AfterScansKeptByPlainEvents(t, [RunFolder(f)], counts);
    assert (t + [RunFolder(f)])[..|t|] == t;
  }

  /** The step of ProcessFolderTasks for a folder that is scanned track by track. */
  lemma SplitFolder(counts: seq<nat>, f: nat, t: seq<Event>)
    requires f < |counts|
    requires AggregatedAfterScans(t, counts) && ScanCount(t, f) == 0
    ensures var u := t + ScanBlock(f, counts[f]) + [WaitForIdle, Aggregate(f)];
      AggregatedAfterScans(u, counts)
      && Handled(u) == Handled(t) + [f]
      && forall g: nat :: ScanCount(u, g) == ScanCount(t, g) + (if g == f then counts[f] else 0)
  {
    var s := t + ScanBlock(f, counts[f]);
    var u := s + [WaitForIdle, Aggregate(f)];
    AfterScansKeptByPlainEvents(t, ScanBlock(f, counts[f]), counts);
    ScanCountAppend(t, ScanBlock(f, counts[f]), f);
    ScanCountBlock(f, counts[f], f);
    AfterScansKeptByFlush(s, WaitForIdle, [f], counts);
    assert s + [WaitForIdle] + AggregateBlock([f]) == u;
    HandledAppend(t, ScanBlock(f, counts[f]));
    HandledScans(f, counts[f]);
    HandledAppend(s, [WaitForIdle, Aggregate(f)]);
    assert Handled([WaitForIdle, Aggregate(f)]) == [f] by {
      assert [WaitForIdle, Aggregate(f)][..1] == [WaitForIdle];
      assert [WaitForIdle][..0] == [];
    }
    forall g: nat
      ensures ScanCount(u, g) == ScanCount(t, g) + (if g == f then counts[f] else 0)
    {
      ScanCountAppend(t, ScanBlock(f, counts[f]), g);
      ScanCountBlock(f, counts[f], g);
      ScanCountAppend(s, [WaitForIdle, Aggregate(f)], g);
      assert [WaitForIdle, Aggregate(f)][..1] == [WaitForIdle];
      assert [WaitForIdle][..0] == [];
    }
  }

  /** std::max<unsigned>(1, numberOfThreads) */
  function Workers(numberOfThreads: nat): nat
  {
    if numberOfThreads < 1 then 1 else numberOfThreads
  }

  /**
   * The album-mode branch: more folders than 5 * threads selects the task
   * loop. The product is computed in 32-bit unsigned arithmetic.
   */
  predicate UsesFolderTasks(folders: nat, numberOfThreads: nat)
  {
    folders > (5 * Workers(numberOfThreads)) % 0x1_0000_0000
  }

  /** Below the point where 5 * threads wraps around, the branch compares with 5 * threads itself. */
  lemma FolderTasksThreshold(folders: nat, numberOfThreads: nat)
    requires numberOfThreads < 858993459
    ensures UsesFolderTasks(folders, numberOfThreads) <==> folders > 5 * Workers(numberOfThreads)
  {
  }

  /**
   * processLibrary in album mode. Either way every folder is aggregated
   * exactly once, in map order, and only after all of its scans and a
   * barrier.
   */
  method ProcessAlbums(counts: seq<nat>, numberOfThreads: nat) returns (trace: seq<Event>)
    ensures Handled(trace) == Range(|counts|)
    ensures AggregatedAfterScans(trace, counts)
    ensures !UsesFolderTasks(|counts|, numberOfThreads) ==>
      forall f :: 0 <= f < |counts| ==> ScanCount(trace, f) == counts[f]
    ensures UsesFolderTasks(|counts|, numberOfThreads) ==>
      forall f :: 0 <= f < |counts| ==> ScanCount(trace, f) == if counts[f] <= MaxTaskFolder then 0 else counts[f]
  {
    if UsesFolderTasks(|counts|, numberOfThreads) {
      trace := ProcessFolderTasks(counts);
    } else {
      var waves;
      trace, waves := ProcessWaves(counts);
    }
  }

  /** processLibrary in track mode: one task per file, then a wait for finished. */
  method ProcessTracks(files: nat) returns (trace: seq<Event>)
    ensures |trace| == files + 1 && trace[files] == WaitForFinished
    ensures forall i :: 0 <= i < files ==> trace[i] == RunFile(i)
  {
    trace := [];
    for i := 0 to files
      invariant |trace| == i && forall k :: 0 <= k < i ==> trace[k] == RunFile(k)
    {
      trace := trace + [RunFile(i)];
    }
    trace := trace + [WaitForFinished];
  }

  /** processLibrary in delete mode: one tag removal per file, then a wait for finished. */
  method ProcessRemovals(files: nat) returns (trace: seq<Event>)
    ensures |trace| == files + 1 && trace[files] == WaitForFinished
    ensures forall i :: 0 <= i < files ==> trace[i] == RemoveTags(i)
  {
    trace := [];
    for i := 0 to files
      invariant |trace| == i && forall k :: 0 <= k < i ==> trace[k] == RemoveTags(k)
    {
      trace := trace + [RemoveTags(i)];
    }
    trace := trace + [WaitForFinished];
  }
}
