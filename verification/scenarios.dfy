/**
 * Concrete scenarios that pin the model to the behaviour promised for
 * particular inputs.
 */
module Scenarios {
  import opened Wrappers
  import opened Text
  import opened FileSystem
  import opened Paths
  import opened UserCache
  import opened CopyEngine

  lemma JaneDoeFolder()
    ensures FolderName("Jane Doe") == "jane-doe"
  {
    var r := FolderName("Jane Doe");
    assert LowerChar('J') == 'j' && LowerChar('D') == 'd';
    assert r == [r[0], r[1], r[2], r[3], r[4], r[5], r[6], r[7]];
  }

  lemma July2023()
    ensures MonthSegment(2023, 7) == "2023-07"
  {
  }

  /**
   * An `image` asset (any letter case) of owner "Jane Doe" created in July 2023 as
   * `photo1.jpg` goes to `<image template with jane-doe>/2023-07/photo1.jpg`.
   */
  lemma JaneDoePhotoTarget(cfg: Config, db: Table, a: Asset)
    requires SameIgnoringCase(a.kind, "image") && a.fileName == "photo1.jpg"
    requires a.created.year == 2023 && a.created.month == 7
    requires a.owner in db && db[a.owner].name == "Jane Doe"
    ensures TargetOf(cfg, db, a) == Some(Format(cfg.images, "jane-doe") + ["2023-07", "photo1.jpg"])
  {
    JaneDoeFolder();
    July2023();
    ImageInAnyCase(cfg, a.kind);
    var folder := TargetFolder(cfg.images, "jane-doe", 2023, 7);
    assert FolderOf(cfg, a, "Jane Doe") == Some(folder);
    assert folder + ["photo1.jpg"] == Format(cfg.images, "jane-doe") + ["2023-07", "photo1.jpg"];
  }

  /** A `GIF` asset is skipped with a warning naming `GIF`, and the tree is left exactly as it was. */
  lemma GifIsSkipped(cfg: Config, fs: FS, a: Asset, ownerName: string)
    requires a.kind == "GIF"
    ensures Place(cfg, fs, a, ownerName) == Placed(SkippedUnknownType("GIF", a.fileName), fs)
  {
    var u := Upper("GIF");
    assert u == [u[0], u[1], u[2]];
    assert u == "GIF";
  }
}
