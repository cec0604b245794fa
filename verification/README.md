# immich-backup asset mover, modelled in Dafny

`main.py` reads every asset row (creation time, original path, original
file name, type, owner id) from the photo server's database and copies
each media file into a tree organised as
`<template for the type, owner folder filled in>/<YYYY-MM>/<file name>`.
The copied file's modification and access times are set to the creation
time. A file that already sits at the target is never overwritten.

This project models the per-asset decision cascade of `copy_files`, the
helpers it uses, and the run as a fold over the asset sequence:

- `Text`: ASCII `lower`/`upper`, single-character `replace`, and
  `lstrip(chars)`.
- `FileSystem`: an abstract tree. Regular files are a map from path to
  (bytes, mtime, atime); directories are a set of paths. A path is a
  sequence of segments. The module provides `os.makedirs(exist_ok=True)`,
  `os.path.exists`, and `shutil.copy` followed by `os.utime`.
- `Paths`: the owner folder name, the type dispatch, the `YYYY-MM` folder,
  the target path, and the source path under the source root.
- `UserCache`: `get_user`, which memoises lookups in the `users` table and
  counts the queries that reach the table.
- `CopyEngine`: one asset (`Place`, `Deliver`), one loop iteration (`Step`),
  and the whole run (`Run`, `CopyFiles`, `CopyFilesLoop`).
- `BatchProperties`: the tree only grows, a re-run changes nothing, and
  each owner is queried once.
- `Scenarios`: concrete inputs with their expected results.

The model follows the code as written, including three behaviours a reader may not expect:

- The owner is looked up before the type is checked (line 73 comes before
  line 77). So an asset of unknown type still costs a user query. An unknown
  owner ends the run even for an asset that would have been skipped.
- The source path is `original_path.lstrip('upload/')`. This strips any
  leading run of the characters `u p l o a d /`, not the prefix `upload/`.
  `upload/library/admin/a.jpg` becomes `ibrary/admin/a.jpg`
  (`Paths.StripEatsIntoLibrary`). Prefix removal was evidently intended. The
  model keeps the code's character strip, and `Paths.StripMatchesPrefixRemoval`
  states when the two agree.
- Two errors are raised outside the per-file `try`. One is `res[0]` on an
  empty query result; the other is `os.makedirs` failing because a regular
  file is in the way. Either one ends the whole run, so `Run` reports it in
  `Report.error` and processes no further assets.

The database, the environment and the clock are inputs:
- The `users` table is a map from id to user.
- The asset rows are a sequence, in the order the query returns them.
- The two templates and the source root form a `Config`.
- The creation time is its calendar year and month plus an integer epoch
  timestamp.

## Model

| member | source | states |
|---|---|---|
| Text.Lower | main.py:49 | `str.lower` keeps the length, and each character is lower-cased where it is an ASCII capital and unchanged otherwise |
| Text.Upper | main.py:70 | `str.upper` keeps the length, and each character is upper-cased where it is an ASCII small letter and unchanged otherwise |
| Text.Replace | main.py:49 | `replace(' ', '-')` keeps the length, turns every occurrence of the old character into the new one and leaves every other character as it was |
| Text.LStrip | main.py:103 | `lstrip(chars)` returns a suffix of its input; every dropped character is in the set; the first kept character (if any) is not |
| Text.LStripUnique | main.py:103 | any suffix with those three properties is the strip's result, so the contract characterises `lstrip` completely |
| Text.LStripIdempotent | main.py:103 | stripping an already stripped path changes nothing |
| Paths.FolderName | main.py:48-49 | the owner folder name has the display name's length; position by position it is `-` where the name has a space and the lower-cased character elsewhere; it holds no space and no ASCII capital |
| Paths.FolderNameIdempotent | main.py:48-49 | a folder name maps to itself |
| Paths.FolderNameCollisions | main.py:48-49 | names that differ only in ASCII case, or in spaces versus hyphens, get the same folder |
| Paths.Dispatch | main.py:70-83 | the upper-cased type selects the image template for `IMAGE` and the video template for `VIDEO`; every other type has no template |
| Paths.DispatchIgnoresCase | main.py:70-80 | types equal up to ASCII case select the same template |
| Paths.ImageInAnyCase | main.py:70-78 | `image` in any mixture of cases selects the image template |
| Paths.MonthSegment | main.py:85-86 | the month folder is 7 characters, `dddd-dd`: four digits, a hyphen, two digits |
| Paths.MonthSegmentRoundTrip | main.py:86 | parsing the month folder gives back exactly the creation year and month |
| Paths.MonthSegmentInjective | main.py:86 | different months never share a month folder |
| Paths.TargetFolder | main.py:78-87 | the folder is the template's leading segments, then the slot segment with the owner folder between the slot's left and right text, then the template's trailing segments, then the month folder |
| Paths.TargetFolderInjective | main.py:74-87 | under one template, equal folders mean equal owner folder names and equal months |
| Paths.JoinName | main.py:93 | the file name becomes one more segment after the folder; an empty name leaves the folder itself |
| Paths.SplitPath | main.py:103 | the stripped path splits into segments that are non-empty and free of `/` |
| Paths.SplitJoin | main.py:103 | splitting the `/`-joined form of well-formed segments gives the same segments back |
| Paths.SourcePathIsJoin | main.py:103 | the source path is exactly the segments `SplitPath` reads from the string `os.path.join` builds from an absolute source root and the stripped original path |
| Paths.StrippedIsRelative | main.py:103 | the stripped path never starts with `/`, so the join never discards the source root |
| Paths.StripEatsIntoLibrary | main.py:103 | `upload/library/admin/a.jpg` strips to `ibrary/admin/a.jpg`: the strip removes characters, not a prefix |
| Paths.StripMatchesPrefixRemoval | main.py:103 | when what follows `upload/` is empty or starts outside the set, the strip equals removing the prefix `upload/` |
| FileSystem.MakeDirs | main.py:90 | `os.makedirs(exist_ok=True)` fails exactly when the folder or an ancestor is a regular file; otherwise every prefix of the folder is a directory, no other directory appears, and no file changes |
| FileSystem.MakeDirsIdempotent | main.py:90 | making the same folder again changes nothing |
| FileSystem.MakeDirsAfterGrowth | main.py:90 | once a folder and its ancestors are directories and none is a regular file, making it again on any grown tree changes nothing |
| FileSystem.CopyWithTimes | main.py:104-106 | with a regular file at the source, the destination gets its bytes and both timestamps equal the given time, and nothing else changes; with nothing at the source (not a file, not a directory, no file above it), the result is "not found" |
| UserCache.GetUser | main.py:39-46 | a memo hit makes no query and returns the memoised user; a miss makes exactly one query and returns the table's row, or nothing when the table has none; an id found is memoised with the returned user; nothing is memoised for an absent id; a memo consistent with the table stays consistent and returns the table's user |
| UserCache.GetUserMemoises | main.py:40-42 | a second lookup of a found id returns the same user, leaves the memo as it is and makes no query |
| CopyEngine.Deliver | main.py:92-111 | once the folder exists: an existing target gives SkippedExisting and no change; otherwise a file source gives Copied, writing the source bytes with both times set to the creation timestamp; a source with nothing at or above it gives FailedNotFound, and a directory source or one below a regular file gives FailedOther, each writing nothing; the type skip never happens here; only the target can change |
| CopyEngine.TargetOfShape | main.py:74-93 | an asset whose owner is in the table and whose type is known targets its type's template filled with the owner folder, then its `YYYY-MM` folder, then its file name; any other asset has no target |
| CopyEngine.ExistsAfterMakeDirs | main.py:90-96 | after the folder is made, the target exists exactly when it existed before or the file name is empty |
| CopyEngine.Place | main.py:76-111 | an unknown type yields SkippedUnknownType with the upper-cased type and leaves the tree exactly as it was; a blocked folder ends the run; otherwise the folder's prefixes are added as directories and the target is delivered; the tree only grows |
| CopyEngine.Step | main.py:66-74 | each iteration queries the owner unless memoised, whatever the type; the memo gains the owner when found; an absent owner ends the run |
| CopyEngine.StepMatchesDecide | main.py:39-46 | with a memo consistent with the table, an iteration does what the table alone decides; the memo affects only the query count |
| CopyEngine.Run | main.py:63-111 | the run reports one outcome per asset when it finishes, and fewer than the assets when an exception ends it |
| CopyEngine.CopyFilesLoop | main.py:63-111 | the imperative loop over the assets, starting from an empty memo, computes exactly the fold `CopyFiles` |
| BatchProperties.PlaceWritesOnlyTarget | main.py:92-106 | handling one asset creates at most one file, at its own target path |
| BatchProperties.RunAppendOnly | main.py:63-111 | over a run, no existing file changes, no directory disappears, and new files appear only at the assets' target paths, where nothing was before |
| BatchProperties.CopyFilesNeverOverwrites | main.py:95-99 | a run never overwrites or removes an existing file or directory |
| BatchProperties.PlaceSettles | main.py:90-111 | replaying an asset on a tree that has only grown since, with its source not created meanwhile, changes nothing; copied and skipped files are now skipped as existing |
| BatchProperties.DeliverSettles | main.py:92-106 | delivering again on a tree grown since, with the source not created meanwhile, changes nothing; copied and skipped files are now skipped as existing, and nothing is copied |
| BatchProperties.StepSettles | main.py:73-111 | the same replay through the memo, for one iteration of the loop |
| BatchProperties.RerunIsNoOp | main.py:63-111 | re-running the assets over the tree the first run left, with the sources untouched, leaves the tree identical, stops where the first run stopped and settles every outcome |
| BatchProperties.BatchIdempotent | main.py:63-111 | a second `copy_files()` leaves the tree exactly as the first left it, copies nothing, and reports every previously copied file as SkippedExisting |
| BatchProperties.StepQueryCount | main.py:39-46 | each query either adds its owner to the memo or is the failed lookup |
| BatchProperties.RunMemo | main.py:37-46 | over a run, the memo only grows and holds only owners of the assets; a finished run has memoised every owner; the first owner is memoised whenever the table has it |
| BatchProperties.RunQueryCount | main.py:37-46 | over a run, the queries equal the owners added to the memo plus one for the failed lookup that ended it, if any |
| BatchProperties.RunStopsOnlyOnException | main.py:66-111 | a run ends early only at the asset whose handling raises: it has no user row, or a regular file blocks its folder. The reported error is that asset's; not-found and other copy failures never stop the run |
| BatchProperties.RunFindsEveryOwner | main.py:44-46 | when every owner is in the table, no lookup fails |
| BatchProperties.OneQueryPerOwner | main.py:37-46 | a finished run from an empty memo makes exactly one query per distinct owner |
| BatchProperties.SameOwnerQueriedOnce | main.py:39-46 | two assets of one owner cost exactly one user query |
| Scenarios.JaneDoeFolder | main.py:48-49 | the display name `Jane Doe` gives the folder `jane-doe` |
| Scenarios.July2023 | main.py:86 | July 2023 gives the month folder `2023-07` |
| Scenarios.JaneDoePhotoTarget | main.py:74-93 | an `image` (in any letter case) of `Jane Doe` from July 2023 named `photo1.jpg` targets `<image template with jane-doe>/2023-07/photo1.jpg` |
| Scenarios.GifIsSkipped | main.py:70-83 | a `GIF` asset is skipped with a warning naming `GIF`, and the tree is left exactly as it was |

## Left out

- Environment loading and the startup `EnvironmentError` (main.py:7-21). This is process configuration; the templates and the source root are a `Config` parameter.
- The database engine, session and table reflection, and the `get_assets` query with its ordering (main.py:24-36, 52-60). This is a database client. Assets are an input sequence in query order, and the `users` table is a map.
- `print` logging. Each outcome carries what its log line names: the type, the file name, the folder or the original path.
- `datetime.timestamp()` as a float, and time zones (main.py:71). The creation time is its year and month plus an integer epoch value.
- Non-ASCII case mapping in `str.lower` and `str.upper`, including mappings that change length. Only ASCII letters change case.
- Paths.MonthSegment: years below 1000 are zero-padded to four digits. Older CPython builds on glibc print such years without padding.
- Templates have exactly one `{}` slot, and the slot lies inside one segment. Brace escapes, extra slots and slashes inside the filled-in owner name are not modelled. An owner name containing `/` stays one segment, where a real file system would nest it.
- Paths.JoinName: a file name containing `/`, or an absolute file name, is taken as one segment. The real `os.path.join` would nest it or replace the folder.
- Paths.Format: an empty owner folder in a template whose slot has no other text leaves an empty segment in the path. The real string `base//2023-07` resolves to `base/2023-07`, so in that case the model's path has one segment more than the real one.
- Paths.SplitPath: a trailing `/` is dropped. A regular file reached through a stripped path such as `x/` is therefore copied, where the real open fails with `NotADirectoryError` and the asset is reported as a failure.
- `.` and `..` segments, symbolic links, and permission bits copied by `shutil.copy`.
- FileSystem.CopyWithTimes: I/O errors beyond the two modelled are not represented. The modelled ones are a source that is a directory and a source below a regular file, both reported as FailedOther. Not represented: permission denied, a full disk, a failing `os.utime` after a successful copy, and partial writes.
- FileSystem.CopyWithTimes: a missing destination folder is not modelled, because the cascade always creates it first.
- The truthiness test `if user:` in `get_user`. A fetched row is never falsy, so any memoised entry counts as a hit.
- BatchIdempotent and RerunIsNoOp assume that no asset's target path is any asset's source path (`SourcesUntouched`). Without that assumption, a first run could create a file that a later asset reads on the second run.
