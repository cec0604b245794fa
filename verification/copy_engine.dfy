/**
 * The per-asset decision cascade of `copy_files` and the batch as a fold
 * over the assets: owner lookup, type check, folder creation, existence
 * check, copy with timestamps. An exception outside the per-file `try`
 * (no user row, a folder that cannot be made) ends the whole run.
 */
module CopyEngine {
  import opened Wrappers
  import opened Text
  import opened FileSystem
  import opened Paths
  import opened UserCache

  /** `fileCreatedAt`: its calendar year and month, and its epoch timestamp. */
  datatype CreatedAt = CreatedAt(year: Year, month: Month, epoch: int)

  /** One row of the `assets` query. */
  datatype Asset = Asset(created: CreatedAt, originalPath: string, fileName: string,
                         kind: string, owner: UserId)

  /** The per-asset outcome, with what its log line names. */
  datatype Outcome =
    | SkippedUnknownType(kind: string, fileName: string)
    | SkippedExisting(fileName: string, folder: Path)
    | Copied(fileName: string, folder: Path)
    | FailedNotFound(originalPath: string)
    | FailedOther(fileName: string)

  /** An exception that escapes the loop and ends the run. */
  datatype Failure =
    | OwnerNotFound(owner: UserId)        // `res[0]` on an empty result
    | CannotCreateFolder(folder: Path)    // `os.makedirs` raised

  /** The file-system part of one asset's handling. */
  datatype Placement = Placed(outcome: Outcome, fs: FS) | Crashed(failure: Failure)

  /** The asset's destination folder, or None for an unknown type. */
  function FolderOf(cfg: Config, a: Asset, ownerName: string): Option<Path>
  {
    match Dispatch(cfg, a.kind)
    case None => None
    case Some(t) => Some(TargetFolder(t, FolderName(ownerName), a.created.year, a.created.month))
  }

  /** A file name lands strictly below its folder, so it is never one of the folders `os.makedirs` made. */
  lemma TargetNotAFolder(folder: Path, name: string)
    requires name != ""
    ensures JoinName(folder, name) !in Prefixes(folder)
  {
    PrefixesShape(folder, JoinName(folder, name));
  }

  /**
   * Lines 92-111 of `copy_files`, once the folder exists: an existing
   * target is left alone; otherwise the source is copied to the target
   * with both timestamps set to the creation time, and a failed copy
   * writes nothing. No directory is made, and a file appears only at the
   * target.
   */
  function Deliver(fs: FS, folder: Path, a: Asset, src: Path): (r: Placement)
    ensures r.Placed? && r.fs.dirs == fs.dirs
    ensures Grows(fs, r.fs)
    ensures NewFilesWithin(fs, r.fs, {JoinName(folder, a.fileName)})
    ensures r.outcome.SkippedExisting? <==> Exists(fs, JoinName(folder, a.fileName))
    ensures r.outcome.Copied? <==> !Exists(fs, JoinName(folder, a.fileName)) && src in fs.files
    ensures r.outcome.Copied? ==>
              && r.outcome == Copied(a.fileName, folder)
              && r.fs.files == fs.files[JoinName(folder, a.fileName) :=
                                          FileRec(fs.files[src].data, a.created.epoch, a.created.epoch)]
    ensures !r.outcome.Copied? ==> r.fs.files == fs.files
    ensures r.outcome.SkippedExisting? ==> r.outcome == SkippedExisting(a.fileName, folder)
    ensures !r.outcome.SkippedUnknownType?
    ensures r.outcome.FailedNotFound? <==>
              !Exists(fs, JoinName(folder, a.fileName)) && !Exists(fs, src) && !UnderFile(fs, src)
    ensures r.outcome.FailedNotFound? ==> r.outcome == FailedNotFound(a.originalPath)
    ensures r.outcome.FailedOther? <==>
              !Exists(fs, JoinName(folder, a.fileName)) && src !in fs.files
              && (src in fs.dirs || UnderFile(fs, src))
    ensures r.outcome.FailedOther? ==> r.outcome == FailedOther(a.fileName)
  {
    var target := JoinName(folder, a.fileName);
    if Exists(fs, target) then Placed(SkippedExisting(a.fileName, folder), fs)
    else
      match CopyWithTimes(fs, src, target, a.created.epoch)
      case Written(fs2) => Placed(Copied(a.fileName, folder), fs2)
      case NoSuchFile => Placed(FailedNotFound(a.originalPath), fs)
      case ReadError => Placed(FailedOther(a.fileName), fs)
  }

  /**
   * After `os.makedirs(folder)`, the target exists exactly when it existed
   * before or the file name is empty (the target is then the folder).
   */
  lemma ExistsAfterMakeDirs(fs: FS, folder: Path, name: string)
    requires folder != [] && MakeDirs(fs, folder).Some?
    ensures Exists(MakeDirs(fs, folder).value, JoinName(folder, name)) <==>
              name == "" || Exists(fs, JoinName(folder, name))
  {
    if name != "" {
      TargetNotAFolder(folder, name);
    } else {
      assert folder == folder[..|folder|];
    }
  }

  /**
   * One asset with a known owner name: lines 76-111 of `copy_files`.
   * An unknown type touches nothing; a folder that cannot be made ends the
   * run; otherwise the folder and its ancestors become directories and the
   * target is delivered.
   */
  function Place(cfg: Config, fs: FS, a: Asset, ownerName: string): (r: Placement)
    ensures FolderOf(cfg, a, ownerName).None? <==>
              r == Placed(SkippedUnknownType(Upper(a.kind), a.fileName), fs)
    ensures r.Crashed? <==> FolderOf(cfg, a, ownerName).Some? && Blocked(fs, FolderOf(cfg, a, ownerName).value)
    ensures r.Crashed? ==> r.failure == CannotCreateFolder(FolderOf(cfg, a, ownerName).value)
    ensures r.Placed? ==> Grows(fs, r.fs)
    ensures r.Placed? && FolderOf(cfg, a, ownerName).Some? ==>
              var folder := FolderOf(cfg, a, ownerName).value;
              && r.fs.dirs == fs.dirs + Prefixes(folder)
              && r == Deliver(MakeDirs(fs, folder).value, folder, a, SourcePath(cfg.sourceRoot, a.originalPath))
  {
    match FolderOf(cfg, a, ownerName)
    case None => Placed(SkippedUnknownType(Upper(a.kind), a.fileName), fs)
    case Some(folder) =>
      match MakeDirs(fs, folder)
      case None => Crashed(CannotCreateFolder(folder))
      case Some(fs1) =>
        var src := SourcePath(cfg.sourceRoot, a.originalPath);
        assert Grows(fs, Deliver(fs1, folder, a, src).fs) by {
          MakeDirsGrows(fs, folder);
          GrowsTransitive(fs, fs1, Deliver(fs1, folder, a, src).fs);
        }
        Deliver(fs1, folder, a, SourcePath(cfg.sourceRoot, a.originalPath))
  }

  /** The asset's target path when its owner is in the table and its type is known. */
  function TargetOf(cfg: Config, db: Table, a: Asset): Option<Path>
  {
    if a.owner !in db then None
    else match FolderOf(cfg, a, db[a.owner].name)
      case None => None
      case Some(folder) => Some(JoinName(folder, a.fileName))
  }

  /**
   * Every asset with an owner in the table and a known type targets its
   * type's template filled with the owner folder, then its `YYYY-MM`
   * folder, then its file name; every other asset has no target.
   */
  lemma TargetOfShape(cfg: Config, db: Table, a: Asset)
    ensures TargetOf(cfg, db, a).Some? <==> a.owner in db && Dispatch(cfg, a.kind).Some?
    ensures TargetOf(cfg, db, a).Some? ==>
              TargetOf(cfg, db, a).value ==
                JoinName(TargetFolder(Dispatch(cfg, a.kind).value, FolderName(db[a.owner].name),
                                      a.created.year, a.created.month),
                         a.fileName)
  {
  }

  /** One asset handled against the table directly, without the memo. */
  function Decide(cfg: Config, db: Table, fs: FS, a: Asset): Placement
  {
    if a.owner in db then Place(cfg, fs, a, db[a.owner].name)
    else Crashed(OwnerNotFound(a.owner))
  }

  /** The run's state between assets: the tree, the memo, the number of user queries so far. */
  datatype State = State(fs: FS, cache: Cache, queries: nat)

  datatype StepResult = Next(outcome: Outcome, state: State) | Halt(failure: Failure, state: State)

  /**
   * One iteration of the loop: the owner is looked up first, whatever the
   * type, and only then is the asset placed.
   */
  function Step(cfg: Config, db: Table, st: State, a: Asset): (r: StepResult)
    ensures r.state.queries == (if a.owner in st.cache then st.queries else st.queries + 1)
    ensures r.state.cache.Keys ==
              (if a.owner in st.cache || a.owner in db then st.cache.Keys + {a.owner} else st.cache.Keys)
    ensures r.Halt? && r.failure.OwnerNotFound? <==> a.owner !in st.cache && a.owner !in db
  {
    var lk := GetUser(db, st.cache, st.queries, a.owner);
    match lk.user
    case None => Halt(OwnerNotFound(a.owner), State(st.fs, lk.cache, lk.queries))
    case Some(u) =>
      match Place(cfg, st.fs, a, u.name)
      case Crashed(f) => Halt(f, State(st.fs, lk.cache, lk.queries))
      case Placed(o, fs') => Next(o, State(fs', lk.cache, lk.queries))
  }

  /**
   * With a memo that agrees with the table, a step does what the table
   * alone decides: the memo changes only how many queries are made.
   */
  lemma StepMatchesDecide(cfg: Config, db: Table, st: State, a: Asset)
    requires CacheAgrees(st.cache, db)
    ensures var r := Step(cfg, db, st, a);
            var d := Decide(cfg, db, st.fs, a);
            && CacheAgrees(r.state.cache, db)
            && (r.Halt? <==> d.Crashed?)
            && (r.Halt? ==> r.failure == d.failure && r.state.fs == st.fs)
            && (r.Next? ==> r.outcome == d.outcome && r.state.fs == d.fs)
  {
  }

  /** The outcomes in order, the final state, and the exception that ended the run early, if any. */
  datatype Report = Report(outcomes: seq<Outcome>, state: State, error: Option<Failure>)

  /**
   * The loop over the assets in the order given. It reports one outcome
   * per asset it finished; it stops at the first exception, which leaves
   * the remaining assets untouched.
   */
  function Run(cfg: Config, db: Table, st: State, assets: seq<Asset>): (r: Report)
    ensures r.error.None? ==> |r.outcomes| == |assets|
    ensures r.error.Some? ==> |r.outcomes| < |assets|
    decreases |assets|
  {
    if |assets| == 0 then Report([], st, None)
    else match Step(cfg, db, st, assets[0])
      case Halt(f, st') => Report([], st', Some(f))
      case Next(o, st') =>
        var rest := Run(cfg, db, st', assets[1..]);
        Report([o] + rest.outcomes, rest.state, rest.error)
  }

  /** One turn of the loop: the first asset's step, then the rest of the run unless it halted. */
  lemma RunStep(cfg: Config, db: Table, st: State, assets: seq<Asset>)
    requires |assets| > 0
    ensures var s := Step(cfg, db, st, assets[0]);
            var rest := Run(cfg, db, s.state, assets[1..]);
            Run(cfg, db, st, assets) ==
              if s.Halt? then Report([], s.state, Some(s.failure))
              else Report([s.outcome] + rest.outcomes, rest.state, rest.error)
  {
  }

  /** `copy_files()` in a fresh process: the memo starts empty. */
  function CopyFiles(cfg: Config, db: Table, fs: FS, assets: seq<Asset>): Report
  {
    Run(cfg, db, State(fs, map[], 0), assets)
  }

  /** `copy_files()` as the loop it is; it computes exactly the fold. */
  method CopyFilesLoop(cfg: Config, db: Table, fs: FS, assets: seq<Asset>)
    returns (outcomes: seq<Outcome>, final: State, error: Option<Failure>)
    ensures Report(outcomes, final, error) == CopyFiles(cfg, db, fs, assets)
  {
    var st := State(fs, map[], 0);
    outcomes := [];
    var i := 0;
    while i < |assets|
      invariant 0 <= i <= |assets|
      invariant var rest := Run(cfg, db, st, assets[i..]);
                Report(outcomes + rest.outcomes, rest.state, rest.error) == CopyFiles(cfg, db, fs, assets)
    {
      assert assets[i..][0] == assets[i];
      assert assets[i..][1..] == assets[i + 1..];
      RunStep(cfg, db, st, assets[i..]);
      var s := Step(cfg, db, st, assets[i]);
      match s
      case Halt(f, st') =>
        final := st';
        error := Some(f);
        return;
      case Next(o, st') =>
        assert outcomes + [o] + Run(cfg, db, st', assets[i + 1..]).outcomes ==
                 outcomes + ([o] + Run(cfg, db, st', assets[i + 1..]).outcomes);
        outcomes := outcomes + [o];
        st := st';
        i := i + 1;
    }
    assert assets[i..] == [];
    final := st;
    error := None;
  }
}
