/**
 * Properties of the whole batch: the tree only grows, a second run
 * changes nothing, and the memo queries each owner once.
 */
module BatchProperties {
  import opened Wrappers
  import opened Text
  import opened FileSystem
  import opened Paths
  import opened UserCache
  import opened CopyEngine

  /** Every target path the assets can be copied to. */
  function TargetSet(cfg: Config, db: Table, assets: seq<Asset>): set<Path>
    decreases |assets|
  {
    if |assets| == 0 then {}
    else
      (match TargetOf(cfg, db, assets[0]) case None => {} case Some(t) => {t})
      + TargetSet(cfg, db, assets[1..])
  }

  /** The owner ids of the assets. */
  function OwnerSet(assets: seq<Asset>): set<UserId>
    decreases |assets|
  {
    if |assets| == 0 then {} else {assets[0].owner} + OwnerSet(assets[1..])
  }

  /** No asset's source file is some asset's target: the run never writes where it reads. */
  predicate SourcesUntouched(cfg: Config, db: Table, assets: seq<Asset>)
  {
    forall a :: a in assets ==> SourcePath(cfg.sourceRoot, a.originalPath) !in TargetSet(cfg, db, assets)
  }

  /**
   * How an outcome of the first run reads on the second: nothing is copied
   * again, an unknown type stays unknown, and a copied or skipped file is
   * skipped as existing.
   */
  predicate Settled(first: Outcome, second: Outcome)
  {
    && !second.Copied?
    && (first.SkippedUnknownType? ==> second == first)
    && (first.Copied? || first.SkippedExisting? ==> second == SkippedExisting(first.fileName, first.folder))
  }

  /** Two runs' outcome lists, position by position settled. */
  predicate AllSettled(first: seq<Outcome>, second: seq<Outcome>)
  {
    |first| == |second| && forall i :: 0 <= i < |first| ==> Settled(first[i], second[i])
  }

  lemma AllSettledCons(o1: Outcome, o2: Outcome, first: seq<Outcome>, second: seq<Outcome>)
    requires Settled(o1, o2) && AllSettled(first, second)
    ensures AllSettled([o1] + first, [o2] + second)
  {
    forall i | 0 <= i < |first| + 1
      ensures Settled(([o1] + first)[i], ([o2] + second)[i])
    {
      if i > 0 {
        assert ([o1] + first)[i] == first[i - 1];
        assert ([o2] + second)[i] == second[i - 1];
      }
    }
  }

  /** A placed asset writes at most its own target. */
  lemma PlaceWritesOnlyTarget(cfg: Config, db: Table, fs: FS, a: Asset)
    requires Decide(cfg, db, fs, a).Placed?
    ensures NewFilesWithin(fs, Decide(cfg, db, fs, a).fs,
                           match TargetOf(cfg, db, a) case None => {} case Some(t) => {t})
  {
    var name := db[a.owner].name;
    if FolderOf(cfg, a, name).Some? {
      var folder := FolderOf(cfg, a, name).value;
      assert MakeDirs(fs, folder).value.files == fs.files;
    }
  }

  /**
   * Append-only: over a whole run, no existing file changes, no directory
   * disappears, and new files appear only at the assets' targets, where
   * nothing was before.
   */
  lemma {:induction false} RunAppendOnly(cfg: Config, db: Table, st: State, assets: seq<Asset>)
    requires CacheAgrees(st.cache, db)
    ensures Grows(st.fs, Run(cfg, db, st, assets).state.fs)
    ensures NewFilesWithin(st.fs, Run(cfg, db, st, assets).state.fs, TargetSet(cfg, db, assets))
    decreases |assets|
  {
    if |assets| > 0 {
      var a := assets[0];
      match Step(cfg, db, st, a)
      case Halt(f, st') =>
      case Next(o, st') =>
        StepMatchesDecide(cfg, db, st, a);
        PlaceWritesOnlyTarget(cfg, db, st.fs, a);
        RunAppendOnly(cfg, db, st', assets[1..]);
        var final := Run(cfg, db, st', assets[1..]).state.fs;
        GrowsTransitive(st.fs, st'.fs, final);
    }
  }

  /**
   * Replaying one asset on a tree that has only grown since, with its
   * source not created in between, changes nothing and settles its outcome.
   */
  lemma PlaceSettles(cfg: Config, fs: FS, a: Asset, name: string, later: FS)
    requires Place(cfg, fs, a, name).Placed?
    requires Grows(Place(cfg, fs, a, name).fs, later)
    requires SourcePath(cfg.sourceRoot, a.originalPath) in later.files ==>
               SourcePath(cfg.sourceRoot, a.originalPath) in Place(cfg, fs, a, name).fs.files
    ensures Place(cfg, later, a, name).Placed?
    ensures Place(cfg, later, a, name).fs == later
    ensures Settled(Place(cfg, fs, a, name).outcome, Place(cfg, later, a, name).outcome)
  {
    var p := Place(cfg, fs, a, name);
    if FolderOf(cfg, a, name).Some? {
      var folder := FolderOf(cfg, a, name).value;
      var fs1 := MakeDirs(fs, folder).value;
      var src := SourcePath(cfg.sourceRoot, a.originalPath);
      assert p == Deliver(fs1, folder, a, src);
      assert forall k :: 1 <= k <= |folder| ==> folder[..k] in p.fs.dirs && folder[..k] !in p.fs.files;
      MakeDirsAfterGrowth(p.fs, later, folder);
      DeliverSettles(fs1, folder, a, src, later);
    }
  }

  /**
   * Delivering again on a tree that has only grown since, with the source
   * not created in between, changes nothing and settles the outcome.
   */
  lemma DeliverSettles(fs: FS, folder: Path, a: Asset, src: Path, later: FS)
    requires Grows(Deliver(fs, folder, a, src).fs, later)
    requires src in later.files ==> src in Deliver(fs, folder, a, src).fs.files
    ensures Deliver(later, folder, a, src).fs == later
    ensures Settled(Deliver(fs, folder, a, src).outcome, Deliver(later, folder, a, src).outcome)
  {
    var p := Deliver(fs, folder, a, src);
    var target := JoinName(folder, a.fileName);
    assert p.outcome.Copied? || p.outcome.SkippedExisting? ==> Exists(later, target);
  }

  /** The hypothesis passes to the remaining assets, and the first asset's source is none of their targets. */
  lemma SourcesUntouchedTail(cfg: Config, db: Table, assets: seq<Asset>)
    requires |assets| > 0 && SourcesUntouched(cfg, db, assets)
    ensures SourcesUntouched(cfg, db, assets[1..])
    ensures SourcePath(cfg.sourceRoot, assets[0].originalPath) !in TargetSet(cfg, db, assets[1..])
  {
    assert assets[0] in assets;
    forall b | b in assets[1..]
      ensures SourcePath(cfg.sourceRoot, b.originalPath) !in TargetSet(cfg, db, assets[1..])
    {
      assert b in assets;
    }
  }

  /** PlaceSettles for one step of the loop, through the memo. */
  lemma StepSettles(cfg: Config, db: Table, st: State, st2: State, a: Asset)
    requires CacheAgrees(st.cache, db) && CacheAgrees(st2.cache, db)
    requires Step(cfg, db, st, a).Next?
    requires Grows(Step(cfg, db, st, a).state.fs, st2.fs)
    requires SourcePath(cfg.sourceRoot, a.originalPath) in st2.fs.files ==>
               SourcePath(cfg.sourceRoot, a.originalPath) in Step(cfg, db, st, a).state.fs.files
    ensures Step(cfg, db, st2, a).Next?
    ensures Step(cfg, db, st2, a).state.fs == st2.fs
    ensures CacheAgrees(Step(cfg, db, st2, a).state.cache, db)
    ensures Settled(Step(cfg, db, st, a).outcome, Step(cfg, db, st2, a).outcome)
  {
    StepMatchesDecide(cfg, db, st, a);
    StepMatchesDecide(cfg, db, st2, a);
    PlaceSettles(cfg, st.fs, a, db[a.owner].name, st2.fs);
  }

  /**
   * Running the same assets again over the tree the first run left, with
   * any memo that agrees with the table, leaves the tree exactly as it
   * was, stops where the first run stopped, and settles every outcome.
   */
  lemma {:induction false} RerunIsNoOp(cfg: Config, db: Table, st: State, st2: State, assets: seq<Asset>)
    requires CacheAgrees(st.cache, db) && CacheAgrees(st2.cache, db)
    requires SourcesUntouched(cfg, db, assets)
    requires st2.fs == Run(cfg, db, st, assets).state.fs
    ensures var r1 := Run(cfg, db, st, assets);
            var r2 := Run(cfg, db, st2, assets);
            && r2.state.fs == r1.state.fs
            && r2.error == r1.error
            && AllSettled(r1.outcomes, r2.outcomes)
    decreases |assets|
  {
    if |assets| > 0 {
      var a := assets[0];
      var rest := assets[1..];
      var r1 := Run(cfg, db, st, assets);
      match Step(cfg, db, st, a)
      case Halt(f, st') =>
        StepMatchesDecide(cfg, db, st, a);
        StepMatchesDecide(cfg, db, st2, a);
      case Next(o, st') =>
        StepMatchesDecide(cfg, db, st, a);
        var tail1 := Run(cfg, db, st', rest);
        assert r1 == Report([o] + tail1.outcomes, tail1.state, tail1.error);
        RunAppendOnly(cfg, db, st', rest);
        SourcesUntouchedTail(cfg, db, assets);
        StepSettles(cfg, db, st, st2, a);
        var s2 := Step(cfg, db, st2, a);
        RerunIsNoOp(cfg, db, st', s2.state, rest);
        var tail2 := Run(cfg, db, s2.state, rest);
        var r2 := Run(cfg, db, st2, assets);
        assert r2 == Report([s2.outcome] + tail2.outcomes, tail2.state, tail2.error);
        AllSettledCons(o, s2.outcome, tail1.outcomes, tail2.outcomes);
    }
  }

  /**
   * Idempotent re-run: a second `copy_files()` over the same assets leaves
   * the tree exactly as the first left it, copies nothing, and reports
   * every file the first run copied as already existing.
   */
  lemma BatchIdempotent(cfg: Config, db: Table, fs: FS, assets: seq<Asset>)
    requires SourcesUntouched(cfg, db, assets)
    ensures var first := CopyFiles(cfg, db, fs, assets);
            var second := CopyFiles(cfg, db, first.state.fs, assets);
            && second.state.fs == first.state.fs
            && second.error == first.error
            && |second.outcomes| == |first.outcomes|
            && (forall i :: 0 <= i < |second.outcomes| ==> !second.outcomes[i].Copied?)
            && (forall i :: 0 <= i < |first.outcomes| && first.outcomes[i].Copied? ==>
                  second.outcomes[i] == SkippedExisting(first.outcomes[i].fileName, first.outcomes[i].folder))
  {
    var st := State(fs, map[], 0);
    var first := Run(cfg, db, st, assets);
    RerunIsNoOp(cfg, db, st, State(first.state.fs, map[], 0), assets);
  }

  /** No overwrite: a run never changes or removes an existing file or directory. */
  lemma CopyFilesNeverOverwrites(cfg: Config, db: Table, fs: FS, assets: seq<Asset>)
    ensures Grows(fs, CopyFiles(cfg, db, fs, assets).state.fs)
  {
    RunAppendOnly(cfg, db, State(fs, map[], 0), assets);
  }

  /** One step's query accounting: a query either adds its owner to the memo or fails the lookup. */
  lemma StepQueryCount(cfg: Config, db: Table, st: State, a: Asset)
    ensures var r := Step(cfg, db, st, a);
            r.state.queries + |st.cache.Keys| ==
              st.queries + |r.state.cache.Keys| + (if r.Halt? && r.failure.OwnerNotFound? then 1 else 0)
  {
    if a.owner !in st.cache && a.owner in db {
      assert |st.cache.Keys + {a.owner}| == |st.cache.Keys| + 1;
    } else if a.owner in st.cache {
      assert st.cache.Keys + {a.owner} == st.cache.Keys;
    }
  }

  /**
   * The memo over a run: it only grows, it holds only owners of the
   * assets, a finished run has memoised every owner, and the first owner
   * is memoised whenever the table has it.
   */
  lemma {:induction false} RunMemo(cfg: Config, db: Table, st: State, assets: seq<Asset>)
    ensures var r := Run(cfg, db, st, assets);
            && st.cache.Keys <= r.state.cache.Keys <= st.cache.Keys + OwnerSet(assets)
            && (r.error.None? ==> r.state.cache.Keys == st.cache.Keys + OwnerSet(assets))
            && (|assets| > 0 && assets[0].owner in db ==> assets[0].owner in r.state.cache)
    decreases |assets|
  {
    if |assets| > 0 {
      var a := assets[0];
      var s := Step(cfg, db, st, a);
      assert OwnerSet(assets) == {a.owner} + OwnerSet(assets[1..]);
      if s.Next? {
        RunMemo(cfg, db, s.state, assets[1..]);
        var tail := Run(cfg, db, s.state, assets[1..]);
        assert Run(cfg, db, st, assets) == Report([s.outcome] + tail.outcomes, tail.state, tail.error);
      } else {
        assert Run(cfg, db, st, assets) == Report([], s.state, Some(s.failure));
      }
    }
  }

  /**
   * Query accounting over a run: every query either adds an owner to the
   * memo or is the failed lookup that ended the run.
   */
  lemma {:induction false} RunQueryCount(cfg: Config, db: Table, st: State, assets: seq<Asset>)
    ensures var r := Run(cfg, db, st, assets);
            r.state.queries + |st.cache.Keys| ==
              st.queries + |r.state.cache.Keys| + (if r.error.Some? && r.error.value.OwnerNotFound? then 1 else 0)
    decreases |assets|
  {
    if |assets| > 0 {
      var a := assets[0];
      var s := Step(cfg, db, st, a);
      StepQueryCount(cfg, db, st, a);
      if s.Next? {
        RunQueryCount(cfg, db, s.state, assets[1..]);
        var tail := Run(cfg, db, s.state, assets[1..]);
        assert Run(cfg, db, st, assets) == Report([s.outcome] + tail.outcomes, tail.state, tail.error);
      } else {
        assert Run(cfg, db, st, assets) == Report([], s.state, Some(s.failure));
      }
    }
  }

  /**
   * Per-file failures never stop the run: it ends early only at the asset
   * whose handling raises (no user row, or a folder blocked by a file), on
   * the tree as it stands when the run ends, and the error is that asset's.
   */
  lemma {:induction false} RunStopsOnlyOnException(cfg: Config, db: Table, st: State, assets: seq<Asset>)
    requires CacheAgrees(st.cache, db)
    ensures var r := Run(cfg, db, st, assets);
            r.error.Some? ==> Decide(cfg, db, r.state.fs, assets[|r.outcomes|]) == Crashed(r.error.value)
    decreases |assets|
  {
    if |assets| > 0 {
      var a := assets[0];
      StepMatchesDecide(cfg, db, st, a);
      match Step(cfg, db, st, a)
      case Halt(f, st') =>
      case Next(o, st') =>
        RunStopsOnlyOnException(cfg, db, st', assets[1..]);
        var tail := Run(cfg, db, st', assets[1..]);
        assert Run(cfg, db, st, assets) == Report([o] + tail.outcomes, tail.state, tail.error);
        if tail.error.Some? {
          assert assets[|[o] + tail.outcomes|] == assets[1..][|tail.outcomes|];
        }
    }
  }

  /** A run whose owners are all in the table never fails a user lookup. */
  lemma {:induction false} RunFindsEveryOwner(cfg: Config, db: Table, st: State, assets: seq<Asset>)
    requires forall a :: a in assets ==> a.owner in db
    ensures var r := Run(cfg, db, st, assets);
            r.error.Some? ==> !r.error.value.OwnerNotFound?
    decreases |assets|
  {
    if |assets| > 0 {
      assert assets[0] in assets;
      match Step(cfg, db, st, assets[0])
      case Halt(f, st') =>
      case Next(o, st') =>
        assert forall a :: a in assets[1..] ==> a in assets;
        RunFindsEveryOwner(cfg, db, st', assets[1..]);
    }
  }

  /** A finished run from an empty memo queries the table once per distinct owner. */
  lemma OneQueryPerOwner(cfg: Config, db: Table, fs: FS, assets: seq<Asset>)
    ensures var r := CopyFiles(cfg, db, fs, assets);
            r.error.None? ==> r.state.queries == |OwnerSet(assets)|
  {
    RunMemo(cfg, db, State(fs, map[], 0), assets);
    RunQueryCount(cfg, db, State(fs, map[], 0), assets);
  }

  /** Two assets of one owner cost one user query, however the run ends. */
  lemma SameOwnerQueriedOnce(cfg: Config, db: Table, fs: FS, a: Asset, b: Asset)
    requires a.owner == b.owner && a.owner in db
    ensures CopyFiles(cfg, db, fs, [a, b]).state.queries == 1
  {
    var st := State(fs, map[], 0);
    var assets := [a, b];
    assert OwnerSet(assets) == {a.owner} by {
      assert assets[1..] == [b];
      assert [b][1..] == [];
      assert OwnerSet([b]) == {b.owner} + OwnerSet([]);
      assert OwnerSet(assets) == {a.owner} + OwnerSet([b]);
    }
    assert forall x :: x in assets ==> x.owner in db;
    RunMemo(cfg, db, st, assets);
    RunQueryCount(cfg, db, st, assets);
    RunFindsEveryOwner(cfg, db, st, assets);
    var r := Run(cfg, db, st, assets);
    assert r.state.cache.Keys == {a.owner};
    assert r.state.queries == |r.state.cache.Keys|;
  }
}
