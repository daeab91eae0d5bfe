/** The cover image of an album (class `CoverImage`, Audite.py:331-392): its
    name split at the last dot, its dimensions and the flags saying whether
    it must be renamed to `cover.jpg` or resized to a square of at most
    1000 pixels. The numbers come from the `identify` tool and are inputs
    here; the image is only read, so a cover is a value. */
module Covers {
  import opened Text
  import opened Wrappers
  import FileNames

  /** Largest side of a good cover, in pixels. */
  const MaxSide: nat := 1000

  datatype CoverImage = CoverImage(
    name: string, ext: string,
    width: nat, height: nat, quality: nat, fileSize: nat,
    bestWH: nat, needsRename: bool, needsResize: bool)

  function Min(a: nat, b: nat): nat { if a < b then a else b }

  /** The cover read from `fileName` with the measured width, height, JPEG
      quality and file size (Audite.py:358-380). A name without a dot makes
      `rindex` fail; a quality of 0 counts as 80. */
  function NewCover(fileName: string, width: nat, height: nat, quality: nat, fileSize: nat): (r: Result<CoverImage>)
    ensures r.Err? <==> '.' !in fileName
    ensures r.Err? ==> r.crash == SubstringNotFound
    ensures r.Ok? ==> r.value.name + "." + r.value.ext == fileName && '.' !in r.value.ext
    ensures r.Ok? ==> r.value.quality > 0 && (quality > 0 ==> r.value.quality == quality)
    ensures r.Ok? ==> r.value.bestWH <= MaxSide && r.value.bestWH <= width && r.value.bestWH <= height
  {
    RFindChar(fileName, '.');
    var dotPos := RFind(fileName, ".");
    if dotPos < 0 then Err(SubstringNotFound)
    else
      var name := fileName[..dotPos];
      var ext := fileName[dotPos + 1..];
      assert fileName == name + "." + ext;
      var q := if quality == 0 then 80 else quality;
      Ok(CoverImage(name, ext, width, height, q, fileSize,
        Min(Min(width, MaxSide), Min(height, MaxSide)),
        ext != "jpg" || name != "cover",
        width > MaxSide || height > MaxSide || width != height || q > 89))
  }

  /** `CoverImage.isNormal` (Audite.py:388-389). */
  predicate IsNormal(c: CoverImage) {
    c.width > 0 && c.height > 0 && c.quality > 0 && |c.name| > 0 && |c.ext| > 0
  }

  /** `CoverImage.isOk` (Audite.py:391-392). */
  predicate IsOk(c: CoverImage) {
    !(c.needsRename || c.needsResize)
  }

  /** A freshly read cover is in order exactly when the file is `cover.jpg`
      and holds a square of at most 1000 pixels saved at quality 89 or less;
      its best side is then its own side. */
  lemma NewCoverOk(fileName: string, width: nat, height: nat, quality: nat, fileSize: nat)
    requires NewCover(fileName, width, height, quality, fileSize).Ok?
    ensures var c := NewCover(fileName, width, height, quality, fileSize).value;
      IsOk(c) <==>
        fileName == "cover.jpg" && width == height && width <= MaxSide && c.quality <= 89
    ensures var c := NewCover(fileName, width, height, quality, fileSize).value;
      IsOk(c) ==> c.bestWH == width == height
  {
    var c := NewCover(fileName, width, height, quality, fileSize).value;
    if fileName == "cover.jpg" {
      CoverJpgParts(width, height, quality, fileSize);
    }
    if c.name == "cover" && c.ext == "jpg" {
      assert fileName == "cover" + "." + "jpg";
    }
  }

  /** `cover.jpg` splits into the name `cover` and the extension `jpg`. */
  lemma CoverJpgParts(width: nat, height: nat, quality: nat, fileSize: nat)
    ensures var r := NewCover("cover.jpg", width, height, quality, fileSize);
      r.Ok? && r.value.name == "cover" && r.value.ext == "jpg"
  {
    FileNames.LastDotOf("cover", "jpg");
    assert "cover" + "." + "jpg" == "cover.jpg";
  }
}
