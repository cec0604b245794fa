/**
 * The path resolver: the owner's folder name, the choice of destination
 * template by asset type, the `YYYY-MM` folder, the destination file path,
 * and the source file path under the source root.
 */
module Paths {
  import opened Wrappers
  import opened Text
  import opened FileSystem

  type Year = y: int | 1 <= y <= 9999 witness 1
  type Month = m: int | 1 <= m <= 12 witness 1

  /**
   * A destination template with one `{}` slot for the owner folder name:
   * the segments before the slot, the text around it inside its segment,
   * and the segments after it.
   */
  datatype Template = Template(before: Path, left: string, right: string, after: Path)

  /** The configured image and video templates and the source root. */
  datatype Config = Config(images: Template, videos: Template, sourceRoot: Path)

  /** The characters of `'upload/'`, as `str.lstrip` reads its argument. */
  const UploadChars: set<char> := {'u', 'p', 'l', 'o', 'a', 'd', '/'}

  /**
   * `get_user_folder_name`: lower-case the display name, then turn every
   * space into a hyphen.
   */
  function FolderName(displayName: string): (r: string)
    ensures |r| == |displayName|
    ensures forall i :: 0 <= i < |r| ==>
              r[i] == (if displayName[i] == ' ' then '-' else LowerChar(displayName[i]))
    ensures forall i :: 0 <= i < |r| ==> r[i] != ' ' && !IsUpper(r[i])
  {
    Replace(Lower(displayName), ' ', '-')
  }

  /** A folder name is its own folder name. */
  lemma FolderNameIdempotent(displayName: string)
    ensures FolderName(FolderName(displayName)) == FolderName(displayName)
  {
    var r := FolderName(displayName);
    assert forall i :: 0 <= i < |r| ==> FolderName(r)[i] == r[i];
  }

  /**
   * Names that differ only in the case of ASCII letters, or in spaces
   * versus hyphens, share one folder.
   */
  lemma FolderNameCollisions(displayName: string)
    ensures FolderName(Lower(displayName)) == FolderName(displayName)
    ensures FolderName(Replace(displayName, ' ', '-')) == FolderName(displayName)
  {
    var r := FolderName(displayName);
    assert forall i :: 0 <= i < |r| ==> FolderName(Lower(displayName))[i] == r[i];
    assert forall i :: 0 <= i < |r| ==> FolderName(Replace(displayName, ' ', '-'))[i] == r[i];
  }

  /** `template.format(owner)`: the owner folder name fills the slot. */
  function Format(t: Template, owner: string): Path
  {
    t.before + [t.left + owner + t.right] + t.after
  }

  /**
   * The template for an asset type: the type is upper-cased, and only
   * `IMAGE` and `VIDEO` have one.
   */
  function Dispatch(cfg: Config, kind: string): (r: Option<Template>)
    ensures r.None? <==> Upper(kind) != "IMAGE" && Upper(kind) != "VIDEO"
    ensures Upper(kind) == "IMAGE" ==> r == Some(cfg.images)
    ensures Upper(kind) == "VIDEO" ==> r == Some(cfg.videos)
  {
    var k := Upper(kind);
    if k == "IMAGE" then Some(cfg.images)
    else if k == "VIDEO" then Some(cfg.videos)
    else None
  }

  /** Equal up to the case of ASCII letters. */
  predicate SameIgnoringCase(a: string, b: string)
  {
    |a| == |b| && forall i :: 0 <= i < |a| ==> UpperChar(a[i]) == UpperChar(b[i])
  }

  /** The type check ignores case: types that differ only in case get the same template. */
  lemma DispatchIgnoresCase(cfg: Config, a: string, b: string)
    requires SameIgnoringCase(a, b)
    ensures Dispatch(cfg, a) == Dispatch(cfg, b)
  {
    assert Upper(a) == Upper(b);
  }

  /** `image`, `Image`, `iMaGe`, ... all select the image template. */
  lemma ImageInAnyCase(cfg: Config, kind: string)
    requires SameIgnoringCase(kind, "image")
    ensures Dispatch(cfg, kind) == Some(cfg.images)
  {
    DispatchIgnoresCase(cfg, kind, "image");
    var u := Upper("image");
    assert u[0] == 'I' && u[1] == 'M' && u[2] == 'A' && u[3] == 'G' && u[4] == 'E';
    assert u == "IMAGE";
  }

  /**
   * `strftime('%Y-%m')`: four year digits, a hyphen, two month digits,
   * both zero-padded.
   */
  function MonthSegment(year: Year, month: Month): (r: string)
    ensures |r| == 7 && r[4] == '-'
    ensures forall i :: 0 <= i < 7 && i != 4 ==> IsDigit(r[i])
  {
    [Digit(year / 1000), Digit(year % 1000 / 100), Digit(year % 100 / 10), Digit(year % 10),
     '-', Digit(month / 10), Digit(month % 10)]
  }

  /** Reads a `YYYY-MM` segment back into its year and month. */
  function ParseMonthSegment(s: string): Option<(int, int)>
  {
    if |s| == 7 && s[4] == '-' && forall i :: 0 <= i < 7 && i != 4 ==> IsDigit(s[i]) then
      Some((DigitValue(s[0]) * 1000 + DigitValue(s[1]) * 100 + DigitValue(s[2]) * 10 + DigitValue(s[3]),
            DigitValue(s[5]) * 10 + DigitValue(s[6])))
    else None
  }

  lemma DigitRoundTrip(n: int)
    requires 0 <= n < 10
    ensures DigitValue(Digit(n)) == n
  {
  }

  /** The month folder names its year and month: parsing it gives them back. */
  lemma MonthSegmentRoundTrip(year: Year, month: Month)
    ensures ParseMonthSegment(MonthSegment(year, month)) == Some((year, month))
  {
    var s := MonthSegment(year, month);
    DigitRoundTrip(year / 1000);
    DigitRoundTrip(year % 1000 / 100);
    DigitRoundTrip(year % 100 / 10);
    DigitRoundTrip(year % 10);
    DigitRoundTrip(month / 10);
    DigitRoundTrip(month % 10);
    assert year == year / 1000 * 1000 + year % 1000;
    assert year % 1000 == year % 1000 / 100 * 100 + year % 100;
    assert year % 100 == year % 100 / 10 * 10 + year % 10;
  }

  /** Different months never share a folder name. */
  lemma MonthSegmentInjective(y1: Year, m1: Month, y2: Year, m2: Month)
    requires MonthSegment(y1, m1) == MonthSegment(y2, m2)
    ensures y1 == y2 && m1 == m2
  {
    MonthSegmentRoundTrip(y1, m1);
    MonthSegmentRoundTrip(y2, m2);
  }

  /** The folder for an asset: the template with the owner folder filled in, then the month folder. */
  function TargetFolder(t: Template, ownerFolder: string, year: Year, month: Month): (r: Path)
    ensures |r| == |t.before| + |t.after| + 2
    ensures r[..|t.before|] == t.before
    ensures r[|t.before|] == t.left + ownerFolder + t.right
    ensures r[|t.before| + 1 .. |r| - 1] == t.after
    ensures r[|r| - 1] == MonthSegment(year, month)
  {
    Format(t, ownerFolder) + [MonthSegment(year, month)]
  }

  /**
   * Under one template, the folder determines the owner folder name and
   * the month: distinct owners' folders or distinct months never meet.
   */
  lemma TargetFolderInjective(t: Template, o1: string, y1: Year, m1: Month,
                              o2: string, y2: Year, m2: Month)
    requires TargetFolder(t, o1, y1, m1) == TargetFolder(t, o2, y2, m2)
    ensures o1 == o2 && y1 == y2 && m1 == m2
  {
    var f1 := TargetFolder(t, o1, y1, m1);
    var f2 := TargetFolder(t, o2, y2, m2);
    MonthSegmentInjective(y1, m1, y2, m2);
    var i := |t.before|;
    assert f1[i] == t.left + o1 + t.right;
    assert f2[i] == t.left + o2 + t.right;
    var s1 := t.left + o1 + t.right;
    var s2 := t.left + o2 + t.right;
    assert |o1| == |o2|;
    assert o1 == s1[|t.left|..|t.left| + |o1|];
    assert o2 == s2[|t.left|..|t.left| + |o2|];
  }

  /**
   * `os.path.join(folder, name)`: the name becomes the last segment; an
   * empty name leaves the folder itself (`folder/`).
   */
  function JoinName(folder: Path, name: string): (r: Path)
    ensures name == "" ==> r == folder
    ensures name != "" ==> |r| == |folder| + 1 && r[..|folder|] == folder && r[|folder|] == name
  {
    if name == "" then folder else folder + [name]
  }

  /** Index of the first `/` in `s` at or after `i`, or `|s|`. */
  function SegmentEnd(s: string, i: nat): (k: nat)
    requires i <= |s|
    ensures i <= k <= |s|
    ensures forall j :: i <= j < k ==> s[j] != '/'
    ensures k == |s| || s[k] == '/'
    decreases |s| - i
  {
    if i == |s| || s[i] == '/' then i else SegmentEnd(s, i + 1)
  }

  /** A segment as a file system sees it: non-empty and free of `/`. */
  predicate IsSegment(seg: string)
  {
    seg != "" && '/' !in seg
  }

  /**
   * The segments of a path string: split at `/`, with empty pieces from
   * repeated, leading or trailing slashes dropped.
   */
  function SplitPath(s: string): (r: Path)
    ensures forall j :: 0 <= j < |r| ==> IsSegment(r[j])
    decreases |s|
  {
    if s == [] then []
    else if s[0] == '/' then SplitPath(s[1..])
    else
      var k := SegmentEnd(s, 0);
      assert '/' !in s[..k];
      [s[..k]] + SplitPath(s[k..])
  }

  /** The path string of a sequence of segments, `/`-separated. */
  function JoinSegments(segs: Path): string
  {
    if |segs| == 0 then ""
    else if |segs| == 1 then segs[0]
    else segs[0] + "/" + JoinSegments(segs[1..])
  }

  lemma SegmentEndOfJoin(x: string, t: string)
    requires IsSegment(x)
    requires t == "" || t[0] == '/'
    ensures SegmentEnd(x + t, 0) == |x|
  {
    var s := x + t;
    var k := SegmentEnd(s, 0);
    assert |x| < |s| ==> s[|x|] == t[0] == '/';
    assert forall j :: 0 <= j < |x| ==> s[j] == x[j] && x[j] in x;
  }

  /** Splitting a joined path gives its segments back. */
  lemma {:induction false} SplitJoin(segs: Path)
    requires forall j :: 0 <= j < |segs| ==> IsSegment(segs[j])
    ensures SplitPath(JoinSegments(segs)) == segs
    decreases |segs|
  {
    if |segs| == 0 {
    } else {
      var x := segs[0];
      var t := if |segs| == 1 then "" else "/" + JoinSegments(segs[1..]);
      var s := JoinSegments(segs);
      assert s == x + t;
      SegmentEndOfJoin(x, t);
      assert s[0] == x[0];
      assert s[..|x|] == x;
      assert s[|x|..] == t;
      if |segs| == 1 {
        assert SplitPath(s) == [x] + SplitPath("");
      } else {
        SplitJoin(segs[1..]);
        assert t[1..] == JoinSegments(segs[1..]);
        assert SplitPath(t) == SplitPath(t[1..]);
        assert SplitPath(s) == [x] + SplitPath(t);
        assert segs == [x] + segs[1..];
      }
    }
  }

  /**
   * `os.path.join(SOURCE_BASE_PATH, original_path.lstrip('upload/'))`:
   * the source root followed by the segments of the stripped path.
   */
  function SourcePath(root: Path, originalPath: string): (r: Path)
    ensures |root| <= |r| && r[..|root|] == root
    ensures r[|root|..] == SplitPath(LStrip(originalPath, UploadChars))
  {
    root + SplitPath(LStrip(originalPath, UploadChars))
  }

  /** Splitting at a leading run of `/` gives what splitting the rest gives. */
  lemma SplitDropsSlash(s: string)
    ensures SplitPath("/" + s) == SplitPath(s)
  {
    assert ("/" + s)[1..] == s;
  }

  /** A well-formed segment followed by `/` splits off as the first segment. */
  lemma SplitSegmentSlash(x: string, s: string)
    requires IsSegment(x)
    ensures SplitPath(x + "/" + s) == [x] + SplitPath(s)
  {
    var u := x + "/" + s;
    SegmentEndOfJoin(x, "/" + s);
    assert u == x + ("/" + s);
    assert u[0] == x[0];
    assert u[..|x|] == x;
    assert u[|x|..] == "/" + s;
    SplitDropsSlash(s);
  }

  /** Joined segments, then `/`, then a string: the segments come first. */
  lemma {:induction false} SplitJoinThen(segs: Path, s: string)
    requires forall j :: 0 <= j < |segs| ==> IsSegment(segs[j])
    ensures SplitPath(JoinSegments(segs) + "/" + s) == segs + SplitPath(s)
    decreases |segs|
  {
    if |segs| == 0 {
      SplitDropsSlash(s);
    } else if |segs| == 1 {
      SplitSegmentSlash(segs[0], s);
    } else {
      var rest := JoinSegments(segs[1..]) + "/" + s;
      SplitJoinThen(segs[1..], s);
      assert JoinSegments(segs) + "/" + s == segs[0] + "/" + rest;
      SplitSegmentSlash(segs[0], rest);
      assert segs == [segs[0]] + segs[1..];
    }
  }

  /** An absolute root of well-formed segments, then `/`, then a string. */
  lemma AbsoluteJoin(root: Path, s: string)
    requires forall j :: 0 <= j < |root| ==> IsSegment(root[j])
    ensures SplitPath("/" + JoinSegments(root) + "/" + s) == root + SplitPath(s)
  {
    var joined := JoinSegments(root) + "/" + s;
    SplitJoinThen(root, s);
    SplitDropsSlash(joined);
    assert "/" + JoinSegments(root) + "/" + s == "/" + joined;
  }

  /**
   * The source path is the segments `SplitPath` reads from the string
   * `os.path.join` builds from an absolute source root of well-formed
   * segments and the stripped original path.
   */
  lemma SourcePathIsJoin(root: Path, originalPath: string)
    requires forall j :: 0 <= j < |root| ==> IsSegment(root[j])
    ensures SourcePath(root, originalPath) ==
              SplitPath("/" + JoinSegments(root) + "/" + LStrip(originalPath, UploadChars))
  {
    AbsoluteJoin(root, LStrip(originalPath, UploadChars));
  }

  /**
   * The stripped path never starts with `/` (that character is in the set),
   * so the join never discards the source root.
   */
  lemma StrippedIsRelative(originalPath: string)
    ensures var r := LStrip(originalPath, UploadChars); r == [] || r[0] != '/'
  {
  }

  /**
   * The strip removes characters, not the prefix `upload/`: the `l` of
   * `library` goes too.
   */
  lemma StripEatsIntoLibrary()
    ensures LStrip("upload/library/admin/a.jpg", UploadChars) == "ibrary/admin/a.jpg"
  {
    var s := "upload/library/admin/a.jpg";
    LStripUnique(s, UploadChars, 8);
    assert s[8..] == "ibrary/admin/a.jpg";
  }

  /**
   * Where the rest of the path after `upload/` starts outside the set, the
   * character strip agrees with removing the prefix.
   */
  lemma StripMatchesPrefixRemoval(rest: string)
    requires rest == [] || rest[0] !in UploadChars
    ensures LStrip("upload/" + rest, UploadChars) == rest
  {
    var s := "upload/" + rest;
    LStripUnique(s, UploadChars, 7);
    assert s[7..] == rest;
  }
}
