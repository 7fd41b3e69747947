/** Counting the image files in one class folder: a folder that does not
    exist holds no images; otherwise an entry is an image when the
    lower-cased suffix of its name is one of five extensions. */
module ImageCounter {
  import opened Layout

  /** Index of the last occurrence of `ch` in `s`, or -1 when there is none. */
  function LastIndexOf(s: string, ch: char): (r: int)
    ensures -1 <= r < |s|
    ensures r >= 0 ==> s[r] == ch
    ensures forall j :: r < j < |s| ==> s[j] != ch
  {
    if |s| == 0 then -1
    else if s[|s| - 1] == ch then |s| - 1
    else LastIndexOf(s[..|s| - 1], ch)
  }

  /** `name[i]` is the last dot of `name`. */
  predicate LastDotAt(name: string, i: int)
  {
    0 <= i < |name| && name[i] == '.' && forall j :: i < j < |name| ==> name[j] != '.'
  }

  /** The suffix of a path's final component, as pathlib computes it: the
      text from the last dot to the end, provided that dot is neither the
      first nor the last character of the name; otherwise the empty string.
      So ".jpg" (a hidden file) and "scan." have no suffix. */
  function Suffix(name: string): (r: string)
    ensures r == "" || (2 <= |r| < |name| && r[0] == '.' && r == name[|name| - |r|..])
    ensures r != "" ==> forall j :: 0 < j < |r| ==> r[j] != '.'
    ensures r != "" <==> exists i :: 0 < i < |name| - 1 && LastDotAt(name, i)
    ensures forall i :: 0 < i < |name| - 1 && LastDotAt(name, i) ==> r == name[i..]
  {
    var i := LastIndexOf(name, '.');
    if 0 < i < |name| - 1 then assert LastDotAt(name, i); name[i..] else ""
  }

  function LowerChar(c: char): char
  {
    if 'A' <= c <= 'Z' then (c as int + 32) as char else c
  }

  /** Lower-casing of the ASCII letters; see README for why this suffices. */
  function Lower(s: string): (r: string)
    ensures |r| == |s|
    ensures forall i :: 0 <= i < |s| ==> r[i] == LowerChar(s[i])
  {
    if |s| == 0 then "" else [LowerChar(s[0])] + Lower(s[1..])
  }

  const ImageExtensions: set<string> := {".jpg", ".jpeg", ".png", ".bmp", ".tiff"}

  /** An entry is an image when its last dot lies strictly inside its name
      and the text from that dot on, lower-cased, is one of the extensions. */
  predicate IsImage(name: string)
    ensures IsImage(name) <==>
              exists i :: 0 < i < |name| - 1 && LastDotAt(name, i) && Lower(name[i..]) in ImageExtensions
  {
    Lower(Suffix(name)) in ImageExtensions
  }

  /** The number of images in a folder; a missing folder counts 0. */
  function CountImages(dir: Option<seq<string>>): (n: nat)
    ensures dir.None? ==> n == 0
    ensures dir.Some? ==> n <= |dir.value|
  {
    match dir
    case None => 0
    case Some(entries) => |Filter(IsImage, entries)|
  }

  /** An existing folder's count is the number of listing positions that
      hold an image name, and each image name in the listing is counted as
      often as it occurs there. */
  lemma CountIsImagePositions(entries: seq<string>, x: string)
    ensures CountImages(Some(entries)) == |Positions(IsImage, entries)|
    ensures multiset(Filter(IsImage, entries))[x] == if IsImage(x) then multiset(entries)[x] else 0
  {
    FilterLengthIsPositions(IsImage, entries);
    FilterMultiplicity(IsImage, entries, x);
  }

  /** Every entry is counted exactly when every entry is an image. */
  lemma CountAllIffAllImages(entries: seq<string>)
    ensures CountImages(Some(entries)) == |entries| <==> forall i :: 0 <= i < |entries| ==> IsImage(entries[i])
  {
    FilterKeepsAllIff(IsImage, entries);
  }

  /** Counting a listing made of two parts counts each part. */
  lemma CountConcat(a: seq<string>, b: seq<string>)
    ensures CountImages(Some(a + b)) == CountImages(Some(a)) + CountImages(Some(b))
  {
    FilterConcat(IsImage, a, b);
  }

  /** The last occurrence of `ch` is at `i` when `s[i]` is `ch` and no later
      character is. */
  lemma LastIndexOfAt(s: string, ch: char, i: int)
    requires 0 <= i < |s| && s[i] == ch
    requires forall j :: i < j < |s| ==> s[j] != ch
    ensures LastIndexOf(s, ch) == i
  {
  }

  /** The extension is compared after lower-casing it. */
  lemma UpperCaseExtensionIsImage()
    ensures IsImage("IM-0001.JPEG")
  {
    LastIndexOfAt("IM-0001.JPEG", '.', 7);
    assert Suffix("IM-0001.JPEG") == ".JPEG";
    assert Lower(".JPEG") == ".jpeg";
  }

  /** Only the text after the last dot is the suffix: an archive-style
      name is classified by its final extension. */
  lemma LastSuffixOfImage()
    ensures IsImage("x.tar.tiff")
  {
    LastIndexOfAt("x.tar.tiff", '.', 5);
    assert Suffix("x.tar.tiff") == ".tiff";
    assert Lower(".tiff") == ".tiff";
  }

  /** Only the text after the last dot is the suffix: an image extension
      followed by another one does not count. */
  lemma LastSuffixOfText()
    ensures !IsImage("scan.jpg.txt")
  {
    LastIndexOfAt("scan.jpg.txt", '.', 8);
    assert Suffix("scan.jpg.txt") == ".txt";
  }

  /** A hidden file's name has no suffix, so `.jpg` alone is not an image. */
  lemma HiddenNameHasNoSuffix()
    ensures !IsImage(".jpg")
  {
    LastIndexOfAt(".jpg", '.', 0);
  }

  /** A name ending in a dot has no suffix. */
  lemma TrailingDotHasNoSuffix()
    ensures !IsImage("scan.jpg.")
  {
    LastIndexOfAt("scan.jpg.", '.', 8);
  }

  /** `.tif` is not among the extensions; only `.tiff` is. */
  lemma TifIsNotTiff()
    ensures !IsImage("scan.tif")
  {
    LastIndexOfAt("scan.tif", '.', 4);
    assert Suffix("scan.tif") == ".tif";
  }
}
