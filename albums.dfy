/** The set-up of a flat album (class `Album`, Audite.py:1220-1643). The
    album's year, name, title, artist, composer and genre are inferred in a
    fixed order: the settings, then the cuesheet, then the directory name,
    then the root directory, and last the tags of the tracks; a field once
    known is only replaced by a better-cased spelling of itself. The
    cuesheet and the cover are chosen from the directory listing, the tracks
    are set up one by one against the cuesheet entries, and the canonical
    directory name and the status flags are decided. The listing, the file
    contents and the output of the external tools are inputs. */
module Albums {
  import opened Text
  import opened Wrappers
  import Safety
  import FileNames
  import Titles
  import Cuesheet
  import Tags
  import Covers
  import Tracks

  /** The global settings the album reads: the command-line overrides, the
      mode switches and the current year (Audite.py:64-138, 2295). */
  datatype Settings = Settings(
    albumTitle: string, bandName: string, composerName: string, albumYear: int, albumGenre: string,
    singleAlbum: bool, noCaps: bool, cfg: Tags.Config)

  /** One name in the album directory, whether it is a regular file, and
      its size in bytes. */
  datatype DirEntry = DirEntry(name: string, isFile: bool, size: nat)

  /** What `identify` prints for an image: width, height, JPEG quality and
      file size. */
  datatype Measure = Measure(width: nat, height: nat, quality: nat, fileSize: nat)

  /** The album directory as the set-up sees it: its name, the name of the
      directory holding it, its sorted listing, and what reading a file or
      running a tool on it gives. The similarity ratio, the cover
      suitability score and the scrambled text that marks a consumed
      cuesheet entry are inputs too. */
  datatype Env = Env(
    dirName: string, rootName: string, listing: seq<DirEntry>,
    cueText: string -> string, measure: string -> Measure, dumps: string -> Tags.Dumps,
    sim: Tracks.Similarity, suitability: Covers.CoverImage -> real, junk: string)

  /** The fields the inference fills in. */
  datatype Facts = Facts(year: int, name: string, title: string, artist: string, composer: string, genre: string)

  /** Every field known in `f` is unchanged in `g`: later sources only fill
      in what earlier ones left empty. */
  predicate Keeps(f: Facts, g: Facts) {
    && (f.year != 0 ==> g.year == f.year)
    && (|f.title| > 0 ==> g.title == f.title)
    && (|f.artist| > 0 ==> g.artist == f.artist)
    && (|f.composer| > 0 ==> g.composer == f.composer)
    && (|f.genre| > 0 ==> g.genre == f.genre)
  }

  // ---------------------------------------------------------------------------
  // Settings (Audite.py:1257-1267)
  // ---------------------------------------------------------------------------

  /** The fields after the settings: each given setting is taken, the name
      being the safe form of the title. */
  function Overrides(s: Settings): Facts {
    Facts(s.albumYear, Safety.EnsureStringSafety(s.albumTitle), s.albumTitle,
          s.bandName, s.composerName, s.albumGenre)
  }

  // ---------------------------------------------------------------------------
  // The cuesheet file (Audite.py:1269-1290)
  // ---------------------------------------------------------------------------

  predicate IsCueFile(e: DirEntry) {
    e.isFile && FileNames.IsCuesheet(e.name)
  }

  /** The sizes of the cuesheets in the listing, `None` for other names. */
  function CueKeys(listing: seq<DirEntry>): (r: seq<Option<real>>)
    ensures |r| == |listing|
    ensures forall i :: 0 <= i < |listing| ==> r[i] == CueKey(listing[i])
    ensures forall i :: 0 <= i < |listing| && r[i].Some? ==>
      |listing[i].name| > 0 && r[i].value == listing[i].size as real
  {
    seq(|listing|, i requires 0 <= i < |listing| => CueKey(listing[i]))
  }

  /** The size of a cuesheet, `None` for another name. */
  function CueKey(e: DirEntry): (r: Option<real>)
    ensures r.Some? <==> IsCueFile(e)
    ensures r.Some? ==> |e.name| > 0 && r.value == e.size as real
  {
    if IsCueFile(e) then Some(e.size as real) else None
  }

  /** The number of present keys among the first `n`. */
  function Present(keys: seq<Option<real>>, n: nat): nat
    requires n <= |keys|
  {
    if n == 0 then 0 else Present(keys, n - 1) + (if keys[n - 1].Some? then 1 else 0)
  }

  /** The choice after the first `n` keys when a later key replaces the
      choice only by being strictly greater. */
  function FirstLargest(keys: seq<Option<real>>, n: nat): (r: Option<nat>)
    requires n <= |keys|
    ensures r.Some? ==> r.value < n && keys[r.value].Some?
  {
    if n == 0 then None
    else
      var r := FirstLargest(keys, n - 1);
      if keys[n - 1].None? then r
      else if r.None? || keys[n - 1].value > keys[r.value].value then Some(n - 1)
      else r
  }

  /** "First strictly greater wins" chooses the first of the largest keys,
      and nothing only when no key is present. */
  lemma {:induction false} FirstLargestIsFirstMax(keys: seq<Option<real>>, n: nat)
    requires n <= |keys|
    ensures var r := FirstLargest(keys, n);
      && (r.None? <==> forall i :: 0 <= i < n ==> keys[i].None?)
      && (r.Some? ==>
        && (forall i :: 0 <= i < n && keys[i].Some? ==> keys[i].value <= keys[r.value].value)
        && (forall i :: 0 <= i < r.value && keys[i].Some? ==> keys[i].value < keys[r.value].value))
  {
    if n > 0 {
      FirstLargestIsFirstMax(keys, n - 1);
    }
  }

  /** The cuesheet loop as written (Audite.py:1270-1281), after the first `n`
      keys: the first cuesheet found does not record its size, so the next
      one that is not empty replaces it. The second component is the size
      the next cuesheet is compared against. */
  function CueAsWritten(keys: seq<Option<real>>, n: nat): (r: (Option<nat>, real))
    requires n <= |keys|
  {
    if n == 0 then (None, 0.0)
    else
      var r := CueAsWritten(keys, n - 1);
      if keys[n - 1].None? then r
      else if r.0.None? then (Some(n - 1), r.1)
      else if keys[n - 1].value > r.1 then (Some(n - 1), keys[n - 1].value)
      else r
  }

  /** Two cuesheets, the larger first (say `a.cue` of 100 bytes, then
      `b.cue` of 10): the loop as written picks the smaller second one; the
      largest is the first. */
  lemma FirstCueSizeForgotten(first: DirEntry, second: DirEntry)
    requires IsCueFile(first) && IsCueFile(second) && first.size > second.size > 0
    ensures var keys := CueKeys([first, second]);
      CueAsWritten(keys, 2).0 == Some(1) && FirstLargest(keys, 2) == Some(0)
  {
    var keys := CueKeys([first, second]);
    assert keys[0] == Some(first.size as real) && keys[1] == Some(second.size as real);
    assert CueAsWritten(keys, 1) == (Some(0), 0.0);
    assert FirstLargest(keys, 1) == Some(0);
  }

  /** The loop over the sorted listing (Audite.py:1270-1281), with the size
      of the first cuesheet recorded, given which names are cuesheets and
      their sizes: the name of the first largest cuesheet, and whether
      there is more than one. */
  method ChooseCue(listing: seq<DirEntry>, keys: seq<Option<real>>) returns (cuesheet: string, manyCues: bool)
    requires |keys| == |listing|
    requires forall i :: 0 <= i < |keys| && keys[i].Some? ==> |listing[i].name| > 0 && keys[i].value == listing[i].size as real
    ensures var best := FirstLargest(keys, |keys|);
      cuesheet == if best.Some? then listing[best.value].name else ""
    ensures manyCues <==> Present(keys, |keys|) >= 2
  {
    cuesheet := "";
    manyCues := false;
    var cueSize := 0;
    var n := 0;
    ghost var best: Option<nat> := None;
    ghost var count := 0;
    while n < |listing|
      invariant n <= |listing|
      invariant best == FirstLargest(keys, n) && count == Present(keys, n)
      invariant best.None? ==> cuesheet == ""
      invariant best.Some? ==> cuesheet == listing[best.value].name && |cuesheet| > 0 && keys[best.value] == Some(cueSize as real)
      invariant best.Some? <==> count > 0
      invariant manyCues <==> count >= 2
    {
      var e := listing[n];
      if keys[n].Some? {
        if |cuesheet| > 0 {
          manyCues := true;
          if e.size > cueSize {
            cuesheet := e.name;
            cueSize := e.size;
            best := Some(n);
          }
        } else {
          cuesheet := e.name;
          cueSize := e.size;
          best := Some(n);
        }
        count := count + 1;
      }
      n := n + 1;
    }
  }

  // ---------------------------------------------------------------------------
  // The cuesheet's header, track total and entries (Audite.py:1293-1438)
  // ---------------------------------------------------------------------------

  /** The title normaliser handed to the entry walk. */
  function Coercer(noCaps: bool): string -> string {
    t => Titles.CoercedTitle(t, noCaps)
  }

  /** A text field still empty is taken from the first `key` line, when
      there is one. */
  function FilledFrom(text: string, key: string, current: string): (r: Result<string>)
    requires key != []
    ensures |current| > 0 ==> r == Ok(current)
    ensures r.Ok? && Find(text, key, 0) < 0 ==> r.value == current
    ensures r.Ok? && |current| == 0 && Find(text, key, 0) >= 0 ==>
      Cuesheet.HeaderField(text, key) == Ok(Some(r.value))
  {
    if |current| > 0 then Ok(current)
    else
      var v :- Cuesheet.HeaderField(text, key);
      Ok(if v.Some? then v.value else current)
  }

  /** The album title: when still empty it is the `coerceTitle` of the first
      `TITLE ` line, which is also the text the entry walk starts from. */
  function HeaderTitle(text: string, f: Facts, noCaps: bool): (r: Result<(Facts, Option<string>)>)
    ensures r.Ok? ==> r.value.0.(title := f.title, name := f.name) == f
    ensures |f.title| > 0 ==> r == Ok((f, None))
    ensures r.Ok? && r.value.1.Some? ==>
      && Cuesheet.HeaderField(text, "TITLE ") == Ok(r.value.1)
      && r.value.0.title == Titles.CoercedTitle(r.value.1.value, noCaps)
      && r.value.0.name == Safety.EnsureStringSafety(r.value.0.title)
  {
    if |f.title| > 0 then Ok((f, None))
    else
      var v :- Cuesheet.HeaderField(text, "TITLE ");
      if v.None? then Ok((f, None))
      else
        var title := Titles.CoercedTitle(v.value, noCaps);
        Ok((f.(title := title, name := Safety.EnsureStringSafety(title)), v))
  }

  /** The year: when still 0 it is the number on the first `REM DATE ` line,
      if that is a number; no range is checked. */
  function HeaderYear(text: string, f: Facts): (r: Result<Facts>)
    ensures r.Ok? ==> r.value.(year := f.year) == f
    ensures f.year != 0 ==> r == Ok(f)
    ensures r.Ok? && r.value.year != f.year ==>
      exists v :: Cuesheet.HeaderField(text, "REM DATE ") == Ok(Some(v)) && IsNumeric(v) && r.value.year == NatOf(v)
  {
    if f.year != 0 then Ok(f)
    else
      var v :- Cuesheet.HeaderField(text, "REM DATE ");
      if v.Some? && IsNumeric(v.value) then Ok(f.(year := NatOf(v.value))) else Ok(f)
  }

  /** The header fields (Audite.py:1293-1360), in the source's order: title,
      year, genre, performer and, when composers are allowed, composer. Each
      is read only when still unknown, so the settings keep priority. */
  function CueHeader(text: string, f: Facts, allowComposer: bool, noCaps: bool)
    : (r: Result<(Facts, Option<string>)>)
    ensures r.Ok? ==> Keeps(f, r.value.0)
    ensures r.Ok? && |f.title| > 0 ==> r.value.0.name == f.name && r.value.1.None?
    ensures r.Ok? && !allowComposer ==> r.value.0.composer == f.composer
    ensures r.Ok? && r.value.1.Some? ==>
      && Cuesheet.HeaderField(text, "TITLE ") == Ok(r.value.1)
      && r.value.0.title == Titles.CoercedTitle(r.value.1.value, noCaps)
  {
    var t :- HeaderTitle(text, f, noCaps);
    var f1 :- HeaderYear(text, t.0);
    var genre :- FilledFrom(text, "REM GENRE ", f1.genre);
    var artist :- FilledFrom(text, "PERFORMER ", f1.artist);
    var composer :- if allowComposer then FilledFrom(text, "REM COMPOSER ", f1.composer) else Ok(f1.composer);
    Ok((f1.(genre := genre, artist := artist, composer := composer), t.1))
  }

  /** What the cuesheet gives the album: the fields, the track total and the
      entries. */
  datatype CueResult = CueResult(facts: Facts, trackTotal: nat, entries: seq<string>)

  /** The whole reading of a flat album's cuesheet text: nothing when the
      text is empty; otherwise the header, the track total of the last
      `TRACK ` and the entry walk. A `FILE` name the walk cannot split
      becomes the album's name. */
  function CueStage(text: string, f: Facts, s: Settings): (r: Result<CueResult>)
    ensures text == [] ==> r == Ok(CueResult(f, 0, []))
    ensures r.Ok? ==> Keeps(f, r.value.facts)
    ensures r.Ok? ==> r.value.trackTotal <= Cuesheet.MaxTracks && |r.value.entries| <= r.value.trackTotal
  {
    if text == [] then Ok(CueResult(f, 0, []))
    else
      var h :- CueHeader(text, f, s.cfg.allowComposer, s.noCaps);
      var total :- Cuesheet.FlatTrackTotal(text);
      var w :- Cuesheet.Walk(text, Cuesheet.Flat, Coercer(s.noCaps), total, Cuesheet.Start(h.1));
      Cuesheet.WalkFromStart(text, Cuesheet.Flat, Coercer(s.noCaps), total, h.1);
      var f1 := if w.renamed.Some? then h.0.(name := w.renamed.value) else h.0;
      Ok(CueResult(f1, total, w.entries))
  }

  // ---------------------------------------------------------------------------
  // The directory name (Audite.py:1441-1489)
  // ---------------------------------------------------------------------------

  /** The directory name is consulted while the artist, the year or the
      title is unknown. */
  predicate NeedsGuess(f: Facts) {
    |f.artist| == 0 || f.year == 0 || |f.title| == 0
  }

  /** `lowName in ["misc", "miscellaneous", "various"]`. */
  predicate IsMiscDir(dirName: string) {
    var low := LowerStr(dirName);
    low == "misc" || low == "miscellaneous" || low == "various"
  }

  /** `[p.strip() for p in dirName.split('-')]`. */
  function DirParts(dirName: string): (r: seq<string>)
    ensures |r| == |SplitOn(dirName, '-')|
  {
    var pieces := SplitOn(dirName, '-');
    seq(|pieces|, k requires 0 <= k < |pieces| => Strip(pieces[k]))
  }

  /** A part that reads as a year up to the current year. */
  predicate IsYear(p: string, nowYear: int) {
    IsNumeric(p) && 0 < NatOf(p) <= nowYear
  }

  /** `list.remove`: drop the first element equal to `x`. */
  function RemoveFirst(s: seq<string>, x: string): (r: seq<string>)
    requires x in s
    ensures |r| == |s| - 1
  {
    if s[0] == x then s[1..] else [s[0]] + RemoveFirst(s[1..], x)
  }

  /** The year loop of Audite.py:1452-1459 as written: `enumerate` goes on
      over the list that `remove` has just shortened, so the part after a
      removed one is never looked at. The result is the year (0 when none)
      and what is left of the parts. */
  function YearScanAsWritten(parts: seq<string>, i: nat, nowYear: int): (r: (int, seq<string>))
    decreases |parts| - i
  {
    if i >= |parts| then (0, parts)
    else if IsNumeric(parts[i]) then
      var rest := RemoveFirst(parts, parts[i]);
      if 0 < NatOf(parts[i]) <= nowYear then (NatOf(parts[i]), rest)
      else YearScanAsWritten(rest, i + 1, nowYear)
    else YearScanAsWritten(parts, i + 1, nowYear)
  }

  /** The year loop as evidently intended: every part is looked at in turn;
      numeric parts are removed until one is a year, which is taken. */
  function YearScan(parts: seq<string>, nowYear: int): (r: (int, seq<string>))
  {
    if parts == [] then (0, [])
    else if IsYear(parts[0], nowYear) then (NatOf(parts[0]), parts[1..])
    else if IsNumeric(parts[0]) then YearScan(parts[1..], nowYear)
    else
      var r := YearScan(parts[1..], nowYear);
      (r.0, [parts[0]] + r.1)
  }

  /** The intended scan finds the first part that is a year up to the
      current year, and 0 when there is none; it only removes parts, and
      keeps every part that is not a number when it finds no year. */
  lemma {:induction false} YearScanFindsFirstYear(parts: seq<string>, nowYear: int)
    ensures var r := YearScan(parts, nowYear);
      && (r.0 == 0 || 0 < r.0 <= nowYear)
      && (r.0 == 0 <==> forall k :: 0 <= k < |parts| ==> !IsYear(parts[k], nowYear))
      && (r.0 != 0 ==> exists k :: (0 <= k < |parts| && IsYear(parts[k], nowYear) && r.0 == NatOf(parts[k])
            && forall j :: 0 <= j < k ==> !IsYear(parts[j], nowYear)))
      && (forall w :: w in r.1 ==> w in parts)
      && (r.0 == 0 ==> forall k :: 0 <= k < |parts| && !IsNumeric(parts[k]) ==> parts[k] in r.1)
  {
    if parts != [] {
      YearScanFindsFirstYear(parts[1..], nowYear);
      var r := YearScan(parts, nowYear);
      var r1 := YearScan(parts[1..], nowYear);
      if IsYear(parts[0], nowYear) {
        assert r.0 == NatOf(parts[0]);
      } else {
        assert forall k :: 1 <= k < |parts| ==> parts[k] == parts[1..][k - 1];
        if r.0 != 0 {
          var k1 :| 0 <= k1 < |parts[1..]| && IsYear(parts[1..][k1], nowYear) && r1.0 == NatOf(parts[1..][k1])
            && forall j :: 0 <= j < k1 ==> !IsYear(parts[1..][j], nowYear);
          assert IsYear(parts[k1 + 1], nowYear) && r.0 == NatOf(parts[k1 + 1]);
        }
      }
    }
  }

  /** `Artist - 0 - 1999 - Title`: the loop as written removes `0`, skips
      `1999` and finds no year; the intended scan finds 1999. */
  lemma YearSkippedAfterRemoval(nowYear: int)
    requires nowYear >= 1999
    ensures var parts := ["Artist", "0", "1999", "Title"];
      && YearScanAsWritten(parts, 0, nowYear) == (0, ["Artist", "1999", "Title"])
      && YearScan(parts, nowYear).0 == 1999
  {
    var parts := ["Artist", "0", "1999", "Title"];
    assert !IsNumeric(parts[0]) by { assert !IsDigit(parts[0][0]); }
    assert !IsNumeric(parts[3]) by { assert !IsDigit(parts[3][0]); }
    assert IsNumeric(parts[1]) && NatOf(parts[1]) == 0;
    assert IsNumeric(parts[2]) && NatOf(parts[2]) == 1999 by {
      var y := parts[2];
      assert y[..3] == "199" && y[..3][..2] == "19" && y[..3][..2][..1] == "1" && y[..3][..2][..1][..0] == [];
      assert NatOf("1") == 1;
      assert NatOf("19") == 19;
      assert NatOf("199") == 199;
    }
    var rest := RemoveFirst(parts, "0");
    assert rest == ["Artist", "1999", "Title"];
    assert YearScanAsWritten(rest, 3, nowYear) == (0, rest);
    assert YearScanAsWritten(rest, 2, nowYear) == (0, rest);
    assert YearScanAsWritten(parts, 0, nowYear) == YearScanAsWritten(parts, 1, nowYear);
    assert YearScan(parts[2..], nowYear).0 == 1999;
    assert YearScan(parts[1..], nowYear).0 == 1999;
  }

  /** The year loop with the removal made at the current position, which is
      then looked at again. */
  method GuessYear(parts0: seq<string>, nowYear: int) returns (year: int, parts: seq<string>)
    ensures (year, parts) == YearScan(parts0, nowYear)
  {
    year := 0;
    parts := parts0;
    var i := 0;
    assert parts[i..] == parts0 && parts[..i] == [];
    assert parts[..i] + YearScan(parts0, nowYear).1 == YearScan(parts0, nowYear).1;
    while i < |parts|
      invariant i <= |parts| && year == 0
      invariant YearScan(parts0, nowYear) == (YearScan(parts[i..], nowYear).0, parts[..i] + YearScan(parts[i..], nowYear).1)
      decreases |parts| - i
    {
      var p := parts[i];
      var head, tail := parts[..i], parts[i + 1..];
      assert parts[i..] == [p] + tail && parts[i..][1..] == tail && parts[i..][0] == p;
      if IsNumeric(p) {
        var dirYear := NatOf(p);
        parts := head + tail;
        assert parts[..i] == head && parts[i..] == tail;
        if 0 < dirYear <= nowYear {
          year := dirYear;
          return;
        }
      } else {
        assert parts[..i + 1] == head + [p] && parts[i + 1..] == tail;
        assert head + ([p] + YearScan(tail, nowYear).1) == (head + [p]) + YearScan(tail, nowYear).1;
        i := i + 1;
      }
    }
    assert parts[..i] == parts && parts[i..] == [];
    assert YearScan(parts[i..], nowYear) == (0, []);
    assert parts[..i] + [] == parts;
  }

  /** The guess in single-album mode (Audite.py:1448-1472): the directory
      name is split at every `-`; a year still 0 is the first part that is a
      year, numeric parts before it being dropped; a title still empty is the
      last part; an artist still empty is the first part left. */
  function SingleAlbumGuess(dirName: string, f: Facts, nowYear: int, noCaps: bool): (g: Facts)
    ensures Keeps(f, g) && (|f.title| > 0 ==> g.name == f.name)
    ensures g.composer == f.composer && g.genre == f.genre
  {
    var parts0 := DirParts(dirName);
    var scan := if f.year == 0 then YearScan(parts0, nowYear) else (f.year, parts0);
    NameAndArtist(scan.1, f.(year := scan.0), noCaps)
  }

  /** The title (last part) and artist (first part left) steps of the
      single-album guess. */
  function NameAndArtist(parts: seq<string>, f: Facts, noCaps: bool): (g: Facts)
    ensures Keeps(f, g) && g.year == f.year && (|f.title| > 0 ==> g.name == f.name)
    ensures g.composer == f.composer && g.genre == f.genre
  {
    var titled := |f.title| == 0 && |parts| > 0;
    var name := if titled then parts[|parts| - 1] else f.name;
    var rest := if titled then parts[..|parts| - 1] else parts;
    var artist := if |f.artist| == 0 && |rest| > 0 then rest[0] else f.artist;
    f.(name := name, title := if titled then Titles.CoercedTitle(name, noCaps) else f.title, artist := artist)
  }

  /** The guess in collection mode (Audite.py:1473-1489): before the first
      `-` stands the year, after it the name; without a `-` the whole
      directory name is the name. */
  function CollectionGuess(dirName: string, f: Facts, nowYear: int, noCaps: bool): (g: Facts)
    ensures Keeps(f, g) && (|f.title| > 0 ==> g.name == f.name)
    ensures g.artist == f.artist && g.composer == f.composer && g.genre == f.genre
  {
    var pos := Find(dirName, "-", 0);
    if pos < 0 then
      if |f.title| == 0 then f.(name := dirName, title := Titles.CoercedTitle(dirName, noCaps)) else f
    else
      var strYear := Strip(dirName[..pos]);
      var year := if f.year == 0 && IsYear(strYear, nowYear) then NatOf(strYear) else f.year;
      if |f.title| == 0 then
        var name := Strip(dirName[pos + 1..]);
        f.(year := year, name := name, title := Titles.CoercedTitle(name, noCaps))
      else f.(year := year)
  }

  /** The directory-name stage (Audite.py:1441-1489): consulted only while
      the artist, the year or the title is unknown. A directory called
      `misc`, `miscellaneous` or `various` (in any case) makes a "Misc"
      album without a year, even over a year or a title already known;
      otherwise only unknown fields are filled in. */
  function DirGuess(dirName: string, f: Facts, s: Settings): (g: Facts)
    ensures !NeedsGuess(f) ==> g == f
    ensures NeedsGuess(f) && IsMiscDir(dirName) ==> g == f.(year := 0, title := "Misc", name := "Misc")
    ensures !IsMiscDir(dirName) ==> Keeps(f, g) && (|f.title| > 0 ==> g.name == f.name)
    ensures g.composer == f.composer && g.genre == f.genre
  {
    if !NeedsGuess(f) then f
    else if IsMiscDir(dirName) then f.(year := 0, title := "Misc", name := "Misc")
    else if s.singleAlbum then SingleAlbumGuess(dirName, f, s.cfg.nowYear, s.noCaps)
    else CollectionGuess(dirName, f, s.cfg.nowYear, s.noCaps)
  }

  /** The single-album guess as the source runs it, with the year loop of
      `GuessYear`. */
  method GuessSingleAlbum(dirName: string, f: Facts, nowYear: int, noCaps: bool) returns (g: Facts)
    ensures g == SingleAlbumGuess(dirName, f, nowYear, noCaps)
  {
    g := f;
    var parts := DirParts(dirName);
    if g.year == 0 {
      var year;
      year, parts := GuessYear(parts, nowYear);
      g := g.(year := year);
    }
    g := TitleAndArtistSteps(parts, g, noCaps);
  }

  /** The title and artist steps as the source runs them. */
  method TitleAndArtistSteps(parts0: seq<string>, f: Facts, noCaps: bool) returns (g: Facts)
    ensures g == NameAndArtist(parts0, f, noCaps)
  {
    g := f;
    var parts := parts0;
    if |g.title| == 0 && |parts| > 0 {
      g := g.(name := parts[|parts| - 1]);
      g := g.(title := Titles.CoercedTitle(g.name, noCaps));
      parts := parts[..|parts| - 1];
    }
    if |g.artist| == 0 && |parts| > 0 {
      g := g.(artist := parts[0]);
    }
  }

  /** The directory-name stage as the source runs it. */
  method GuessFromDirName(dirName: string, f: Facts, s: Settings) returns (g: Facts)
    ensures g == DirGuess(dirName, f, s)
  {
    g := f;
    if !NeedsGuess(f) {
      return;
    }
    if IsMiscDir(dirName) {
      g := g.(year := 0, title := "Misc", name := "Misc");
    } else if s.singleAlbum {
      g := GuessSingleAlbum(dirName, f, s.cfg.nowYear, s.noCaps);
    } else {
      g := CollectionGuess(dirName, f, s.cfg.nowYear, s.noCaps);
    }
  }

  /** A name starting with a digit is not one of the "Misc" names. */
  lemma NotMiscDir(d: string)
    requires d != [] && IsDigit(d[0])
    ensures !IsMiscDir(d)
  {
    var low := LowerStr(d);
    assert IsDigit(low[0]);
    assert "misc"[0] == 'm' && "miscellaneous"[0] == 'm' && "various"[0] == 'v';
  }

  /** In `digits - name` the first dash follows the digits and a space. */
  lemma DashAfterNumber(zp: string, name: string)
    requires IsNumeric(zp)
    ensures Find(zp + " - " + name, "-", 0) == |zp| + 1
  {
    var d := zp + " - " + name;
    var pos := |zp| + 1;
    assert d[pos] == '-';
    forall j | 0 <= j < pos ensures d[j] != '-' {
      if j < |zp| {
        assert d[j] == zp[j] && IsDigit(zp[j]);
      } else {
        assert d[j] == ' ';
      }
    }
    FindCharFirst(d, '-', 0, pos);
    assert "-" == ['-'];
  }

  /** Stripped, the text before that dash is the digits ... */
  lemma NumberBeforeDash(zp: string, name: string)
    requires IsNumeric(zp)
    ensures Strip((zp + " - " + name)[..|zp| + 1]) == zp
  {
    assert (zp + " - " + name)[..|zp| + 1] == [] + zp + " ";
    assert IsDigit(zp[0]) && IsDigit(zp[|zp| - 1]);
    StripPadded([], zp, " ");
  }

  /** ... and the text after it is the name. */
  lemma NameAfterDash(zp: string, name: string)
    requires FileNames.IsTrimmed(name)
    ensures Strip((zp + " - " + name)[|zp| + 2..]) == name
  {
    assert (zp + " - " + name)[|zp| + 2..] == " " + name + [];
    StripPadded(" ", name, []);
  }

  /** A collection directory named `YYYY - Name` gives back its year and
      name. */
  lemma CollectionNameRoundTrip(year: nat, name: string, f: Facts, nowYear: int, noCaps: bool)
    requires 0 < year <= nowYear && FileNames.IsTrimmed(name)
    requires f.year == 0 && |f.title| == 0
    ensures var g := CollectionGuess(ZeroPad(year, 4) + " - " + name, f, nowYear, noCaps);
      g.year == year && g.name == name && g.title == Titles.CoercedTitle(name, noCaps)
  {
    var zp := ZeroPad(year, 4);
    DashAfterNumber(zp, name);
    NumberBeforeDash(zp, name);
    NameAfterDash(zp, name);
    ZeroPadRoundTrip(year, 4);
  }

  // ---------------------------------------------------------------------------
  // The root directory (Audite.py:1491-1496)
  // ---------------------------------------------------------------------------

  /** An artist still unknown is the name of the directory holding the
      album, when there is one. */
  function RootArtist(rootName: string, f: Facts): (g: Facts)
    ensures Keeps(f, g) && g.name == f.name
    ensures |f.artist| == 0 ==> g.artist == rootName
  {
    if |f.artist| == 0 && |rootName| > 0 then f.(artist := rootName) else f
  }

  // ---------------------------------------------------------------------------
  // The cover image (Audite.py:1498-1510)
  // ---------------------------------------------------------------------------

  /** The cover read from a name of the listing: `None` for names that are
      not image files and for images that are not normal. An image name has
      a dot, so reading it does not fail. */
  function CoverAt(e: DirEntry, measure: string -> Measure): (r: Option<Covers.CoverImage>)
    ensures r.Some? ==> Covers.IsNormal(r.value) && e.isFile && FileNames.IsImageFile(e.name)
  {
    if e.isFile && FileNames.IsImageFile(e.name) then
      var m := measure(e.name);
      var c := Covers.NewCover(e.name, m.width, m.height, m.quality, m.fileSize);
      if Covers.IsNormal(c.value) then Some(c.value) else None
    else None
  }

  /** The normal images of the listing, in order. */
  function Images(listing: seq<DirEntry>, measure: string -> Measure): (r: seq<Option<Covers.CoverImage>>)
    ensures |r| == |listing|
    ensures forall i :: 0 <= i < |listing| ==> r[i] == CoverAt(listing[i], measure)
  {
    seq(|listing|, i requires 0 <= i < |listing| => CoverAt(listing[i], measure))
  }

  /** The suitability of each normal image. */
  function SuitKeys(imgs: seq<Option<Covers.CoverImage>>, suitability: Covers.CoverImage -> real)
    : (r: seq<Option<real>>)
    ensures |r| == |imgs|
    ensures forall i :: 0 <= i < |imgs| ==> (r[i].Some? <==> imgs[i].Some?)
    ensures forall i :: 0 <= i < |imgs| && imgs[i].Some? ==> r[i].value == suitability(imgs[i].value)
  {
    seq(|imgs|, i requires 0 <= i < |imgs| => if imgs[i].Some? then Some(suitability(imgs[i].value)) else None)
  }

  /** The cover chosen: the first normal image, replaced by each later one
      that is strictly more suitable. */
  function BestCover(imgs: seq<Option<Covers.CoverImage>>, suitability: Covers.CoverImage -> real)
    : Option<Covers.CoverImage>
  {
    var best := FirstLargest(SuitKeys(imgs, suitability), |imgs|);
    if best.Some? then imgs[best.value] else None
  }

  /** No cover when the listing holds no normal image; otherwise the first
      of the most suitable normal images. */
  lemma BestCoverIsFirstMostSuitable(imgs: seq<Option<Covers.CoverImage>>, suitability: Covers.CoverImage -> real)
    ensures var c := BestCover(imgs, suitability);
      && (c.None? <==> forall i :: 0 <= i < |imgs| ==> imgs[i].None?)
      && (c.Some? ==> exists k :: (0 <= k < |imgs| && imgs[k] == c
            && (forall i :: 0 <= i < |imgs| && imgs[i].Some? ==> suitability(imgs[i].value) <= suitability(c.value))
            && (forall i :: 0 <= i < k && imgs[i].Some? ==> suitability(imgs[i].value) < suitability(c.value))))
  {
    var keys := SuitKeys(imgs, suitability);
    FirstLargestIsFirstMax(keys, |imgs|);
    var best := FirstLargest(keys, |imgs|);
    if best.Some? {
      var k := best.value;
      assert imgs[k].Some?;
      assert forall i :: 0 <= i < |imgs| && imgs[i].Some? ==> keys[i].Some? && keys[i].value == suitability(imgs[i].value);
    }
  }

  /** The cover loop (Audite.py:1500-1507) over the normal images. */
  method ChooseCover(imgs: seq<Option<Covers.CoverImage>>, suitability: Covers.CoverImage -> real)
    returns (cover: Option<Covers.CoverImage>)
    ensures cover == BestCover(imgs, suitability)
  {
    ghost var keys := SuitKeys(imgs, suitability);
    cover := None;
    var n := 0;
    ghost var best: Option<nat> := None;
    while n < |imgs|
      invariant n <= |imgs|
      invariant best == FirstLargest(keys, n)
      invariant best.None? ==> cover.None?
      invariant best.Some? ==> cover == imgs[best.value] && cover.Some?
    {
      var img := imgs[n];
      if img.Some? {
        if cover.None? || suitability(img.value) > suitability(cover.value) {
          cover := img;
          best := Some(n);
        }
      }
      n := n + 1;
    }
  }

  // ---------------------------------------------------------------------------
  // The track files (Audite.py:1512-1537)
  // ---------------------------------------------------------------------------

  predicate IsAudioEntry(e: DirEntry) {
    e.isFile && FileNames.IsAudioFile(e.name)
  }

  /** The names of the audio files, in listing order. */
  function AudioFiles(listing: seq<DirEntry>): (r: seq<string>)
    ensures |r| <= |listing|
  {
    if listing == [] then []
    else
      var rest := AudioFiles(listing[..|listing| - 1]);
      if IsAudioEntry(listing[|listing| - 1]) then rest + [listing[|listing| - 1].name] else rest
  }

  /** The audio files are exactly the names of the listing that are audio
      files. */
  lemma {:induction false} AudioFilesAreAudio(listing: seq<DirEntry>)
    ensures forall f :: f in AudioFiles(listing) <==>
      exists i :: 0 <= i < |listing| && IsAudioEntry(listing[i]) && listing[i].name == f
  {
    if listing != [] {
      var init := listing[..|listing| - 1];
      AudioFilesAreAudio(init);
      forall f ensures f in AudioFiles(listing) <==>
        exists i :: 0 <= i < |listing| && IsAudioEntry(listing[i]) && listing[i].name == f
      {
        if f in AudioFiles(init) {
          var i :| 0 <= i < |init| && IsAudioEntry(init[i]) && init[i].name == f;
          assert listing[i] == init[i];
        }
        if exists i :: 0 <= i < |listing| && IsAudioEntry(listing[i]) && listing[i].name == f {
          var i :| 0 <= i < |listing| && IsAudioEntry(listing[i]) && listing[i].name == f;
          if i < |init| {
            assert init[i] == listing[i];
          }
        }
      }
    }
  }

  /** The loop collecting `trackFiles` (Audite.py:1527-1530); the count of
      Audite.py:1516-1520 is its length. */
  method CollectAudioFiles(listing: seq<DirEntry>) returns (files: seq<string>)
    ensures files == AudioFiles(listing)
  {
    files := [];
    var n := 0;
    while n < |listing|
      invariant n <= |listing|
      invariant files == AudioFiles(listing[..n])
    {
      assert listing[..n + 1][..n] == listing[..n];
      if IsAudioEntry(listing[n]) {
        files := files + [listing[n].name];
      }
      n := n + 1;
    }
    assert listing[..n] == listing;
  }

  /** What each `Track.__init__` of the album reads besides its file: the
      album's fields, the settings, the number width, and the inputs. */
  datatype TrackEnv = TrackEnv(
    dumps: string -> Tags.Dumps, al: Tags.AlbumFacts, cfg: Tags.Config,
    width: nat, sim: Tracks.Similarity, noCaps: bool, junk: string)

  /** One track file at alphabetical position `checkNum`: the track is set
      up, and kept when its codec was recognised; the entry it was matched
      with is overwritten by the scrambled text. */
  function TrackStep(te: TrackEnv, file: string, checkNum: nat, tracks: seq<Tracks.Track>, entries: seq<string>)
    : (r: Result<(seq<Tracks.Track>, seq<string>)>)
  {
    var nt :- Tracks.NewTrack(file, checkNum, te.dumps(file), te.al, te.cfg, entries, te.width, te.sim, te.noCaps);
    var t := nt.0;
    var entries' := if nt.1.Some? then entries[nt.1.value := te.junk] else entries;
    Ok((if Tracks.IsNormal(t) then tracks + [t] else tracks, entries'))
  }

  /** The track loop from file `i` on. */
  function TracksFrom(te: TrackEnv, files: seq<string>, i: nat, tracks: seq<Tracks.Track>, entries: seq<string>)
    : (r: Result<(seq<Tracks.Track>, seq<string>)>)
    requires i <= |files|
    decreases |files| - i
  {
    if i == |files| then Ok((tracks, entries))
    else
      var st :- TrackStep(te, files[i], i + 1, tracks, entries);
      TracksFrom(te, files, i + 1, st.0, st.1)
  }

  /** Every track kept is normal and consistent with the number width, and
      when the cuesheet lists every track (`matched`) it is numbered within
      the `n` entries. */
  ghost predicate GoodTracks(tracks: seq<Tracks.Track>, width: nat, matched: bool, n: nat) {
    forall k :: 0 <= k < |tracks| ==>
      && Tracks.IsNormal(tracks[k]) && Tracks.Consistent(tracks[k], width)
      && (matched ==> 1 <= tracks[k].number <= n)
  }

  /** The entries keep their number and are only ever overwritten by the
      scrambled text. */
  ghost predicate Tombstoned(entries: seq<string>, entries0: seq<string>, junk: string) {
    && |entries| == |entries0|
    && forall k :: 0 <= k < |entries| ==> entries[k] == entries0[k] || entries[k] == junk
  }

  /** Whether the track numbers come from the cuesheet. */
  predicate Matching(te: TrackEnv, entries0: seq<string>) {
    |entries0| == te.al.trackTotal && te.al.trackTotal > 0
  }

  /** The invariant of the track loop; without a full cuesheet no entry is
      touched. */
  ghost predicate TracksInv(te: TrackEnv, tracks: seq<Tracks.Track>, entries: seq<string>, entries0: seq<string>) {
    && GoodTracks(tracks, te.width, Matching(te, entries0), |entries0|)
    && Tombstoned(entries, entries0, te.junk)
    && (!Matching(te, entries0) ==> entries == entries0)
  }

  lemma GoodTracksAppend(tracks: seq<Tracks.Track>, t: Tracks.Track, width: nat, matched: bool, n: nat)
    requires GoodTracks(tracks, width, matched, n)
    requires Tracks.IsNormal(t) && Tracks.Consistent(t, width) && (matched ==> 1 <= t.number <= n)
    ensures GoodTracks(tracks + [t], width, matched, n)
  {
    var ts := tracks + [t];
    forall k | 0 <= k < |ts|
      ensures Tracks.IsNormal(ts[k]) && Tracks.Consistent(ts[k], width) && (matched ==> 1 <= ts[k].number <= n)
    {
      if k < |tracks| {
        assert ts[k] == tracks[k];
      }
    }
  }

  lemma TombstonedUpdate(entries: seq<string>, entries0: seq<string>, junk: string, j: nat)
    requires Tombstoned(entries, entries0, junk) && j < |entries|
    ensures Tombstoned(entries[j := junk], entries0, junk)
  {
  }

  /** One step keeps the invariant and adds at most one track. */
  lemma StepKeepsTracksInv(te: TrackEnv, file: string, checkNum: nat, tracks: seq<Tracks.Track>,
                           entries: seq<string>, entries0: seq<string>)
    requires TracksInv(te, tracks, entries, entries0)
    ensures var r := TrackStep(te, file, checkNum, tracks, entries);
      r.Ok? ==> TracksInv(te, r.value.0, r.value.1, entries0) && |r.value.0| <= |tracks| + 1
  {
    var nt := Tracks.NewTrack(file, checkNum, te.dumps(file), te.al, te.cfg, entries, te.width, te.sim, te.noCaps);
    if nt.Ok? {
      var t := nt.value.0;
      assert nt.value.1.Some? <==> Matching(te, entries0);
      if Tracks.IsNormal(t) {
        GoodTracksAppend(tracks, t, te.width, Matching(te, entries0), |entries0|);
      }
      if nt.value.1.Some? {
        TombstonedUpdate(entries, entries0, te.junk, nt.value.1.value);
      }
    }
  }

  /** The whole track loop keeps the invariant and keeps at most one track
      per file. */
  lemma {:induction false} TracksFromInv(te: TrackEnv, files: seq<string>, i: nat, tracks: seq<Tracks.Track>,
                                         entries: seq<string>, entries0: seq<string>)
    requires i <= |files| && TracksInv(te, tracks, entries, entries0)
    ensures var r := TracksFrom(te, files, i, tracks, entries);
      r.Ok? ==> TracksInv(te, r.value.0, r.value.1, entries0) && |r.value.0| <= |tracks| + |files| - i
    decreases |files| - i
  {
    if i < |files| {
      StepKeepsTracksInv(te, files[i], i + 1, tracks, entries, entries0);
      var st := TrackStep(te, files[i], i + 1, tracks, entries);
      if st.Ok? {
        TracksFromInv(te, files, i + 1, st.value.0, st.value.1, entries0);
      }
    }
  }

  /** The instantiation loop (Audite.py:1532-1536). */
  method SetUpTracks(te: TrackEnv, files: seq<string>, entries0: seq<string>)
    returns (r: Result<(seq<Tracks.Track>, seq<string>)>)
    ensures r == TracksFrom(te, files, 0, [], entries0)
  {
    var tracks: seq<Tracks.Track> := [];
    var entries := entries0;
    var i := 0;
    while i < |files|
      invariant i <= |files|
      invariant TracksFrom(te, files, i, tracks, entries) == TracksFrom(te, files, 0, [], entries0)
      decreases |files| - i
    {
      var file := files[i];
      var nt := Tracks.NewTrack(file, i + 1, te.dumps(file), te.al, te.cfg, entries, te.width, te.sim, te.noCaps);
      if nt.Err? {
        return Err(nt.crash);
      }
      var t, used := nt.value.0, nt.value.1;
      if used.Some? {
        entries := entries[used.value := te.junk];
      }
      if Tracks.IsNormal(t) {
        tracks := tracks + [t];
      }
      i := i + 1;
    }
    return Ok((tracks, entries));
  }

  // ---------------------------------------------------------------------------
  // The track tags (Audite.py:1538-1601)
  // ---------------------------------------------------------------------------

  /** The first non-empty value, or the empty string. */
  function FirstNonEmpty(values: seq<string>): (r: string)
    ensures r == [] <==> forall i :: 0 <= i < |values| ==> values[i] == []
    ensures r != [] ==> exists i :: 0 <= i < |values| && values[i] == r && forall j :: 0 <= j < i ==> values[j] == []
  {
    if values == [] then []
    else if values[0] != [] then values[0]
    else
      var r := FirstNonEmpty(values[1..]);
      assert forall i :: 1 <= i < |values| ==> values[i] == values[1..][i - 1];
      r
  }

  /** The first positive value, or 0. */
  function FirstPositive(values: seq<int>): (r: int)
    ensures r >= 0
    ensures r == 0 <==> forall i :: 0 <= i < |values| ==> values[i] <= 0
    ensures r > 0 ==> exists i :: 0 <= i < |values| && values[i] == r && forall j :: 0 <= j < i ==> values[j] <= 0
  {
    if values == [] then 0
    else if values[0] > 0 then values[0]
    else
      var r := FirstPositive(values[1..]);
      assert forall i :: 1 <= i < |values| ==> values[i] == values[1..][i - 1];
      r
  }

  /** A `for ... break` search for the first non-empty value. */
  method FirstNonEmptyOf(values: seq<string>) returns (v: string)
    ensures v == FirstNonEmpty(values)
  {
    v := "";
    var i := 0;
    while i < |values|
      invariant i <= |values|
      invariant forall j :: 0 <= j < i ==> values[j] == []
      invariant FirstNonEmpty(values) == FirstNonEmpty(values[i..])
    {
      assert values[i..][1..] == values[i + 1..];
      if |values[i]| > 0 {
        v := values[i];
        return;
      }
      i := i + 1;
    }
  }

  /** A `for ... break` search for the first positive value. */
  method FirstPositiveOf(values: seq<int>) returns (v: int)
    ensures v == FirstPositive(values)
  {
    v := 0;
    var i := 0;
    while i < |values|
      invariant i <= |values|
      invariant FirstPositive(values) == FirstPositive(values[i..])
    {
      assert values[i..][1..] == values[i + 1..];
      if values[i] > 0 {
        v := values[i];
        return;
      }
      i := i + 1;
    }
  }

  function Albums(tracks: seq<Tracks.Track>): seq<string> {
    seq(|tracks|, i requires 0 <= i < |tracks| => tracks[i].meta.metaAlbum)
  }

  function Artists(tracks: seq<Tracks.Track>): seq<string> {
    seq(|tracks|, i requires 0 <= i < |tracks| => tracks[i].meta.metaArtist)
  }

  function Composers(tracks: seq<Tracks.Track>): seq<string> {
    seq(|tracks|, i requires 0 <= i < |tracks| => tracks[i].meta.metaComposer)
  }

  function Genres(tracks: seq<Tracks.Track>): seq<string> {
    seq(|tracks|, i requires 0 <= i < |tracks| => tracks[i].meta.metaGenre)
  }

  function Dates(tracks: seq<Tracks.Track>): seq<int> {
    seq(|tracks|, i requires 0 <= i < |tracks| => tracks[i].meta.metaDate)
  }

  /** The "better value" test (Audite.py:1549, 1563, 1577): the tag value
      differs from the album's but has it as its safe form, and is no
      shorter. */
  predicate IsBetter(current: string, candidate: string) {
    |candidate| >= |current| && current == Safety.EnsureStringSafety(candidate) && current != candidate
  }

  /** The length test is implied: a safe form is never longer. */
  lemma BetterNeedsNoLength(current: string, candidate: string)
    ensures IsBetter(current, candidate) <==>
      current == Safety.EnsureStringSafety(candidate) && current != candidate
  {
  }

  /** An album value after the tags: an unknown one is the tag value, a
      known one is replaced only by a better-cased spelling of itself. */
  function Improved(current: string, candidate: string): (r: string)
    ensures r == current || r == candidate
    ensures |current| == 0 ==> r == candidate
    ensures |current| > 0 && r != current ==> Safety.EnsureStringSafety(r) == current
  {
    if |current| == 0 || IsBetter(current, candidate) then candidate else current
  }

  /** The tag stage: the first non-empty album, artist, composer and genre
      and the first positive date among the tracks fill in or improve the
      album's fields. A "Misc" album keeps its title and has no year. */
  function TagGuess(f: Facts, tracks: seq<Tracks.Track>, s: Settings): (g: Facts)
    ensures f.title == "Misc" ==> g.title == f.title && g.name == f.name
    ensures |f.title| > 0 && g.title != f.title ==> Safety.EnsureStringSafety(g.title) == f.title
    ensures |f.artist| > 0 && g.artist != f.artist ==> Safety.EnsureStringSafety(g.artist) == f.artist
    ensures |f.composer| > 0 && g.composer != f.composer ==> Safety.EnsureStringSafety(g.composer) == f.composer
    ensures !s.cfg.allowComposer ==> g.composer == f.composer
    ensures f.year != 0 ==> g.year == f.year
    ensures |f.genre| > 0 ==> g.genre == f.genre
  {
    var alb := FirstNonEmpty(Albums(tracks));
    var albTitle := if |alb| > 0 then Titles.CoercedTitle(alb, s.noCaps) else "";
    var retitle := f.title != "Misc" && (|f.title| == 0 || IsBetter(f.title, albTitle));
    var title := if retitle then albTitle else f.title;
    var name := if retitle then Safety.EnsureStringSafety(albTitle) else f.name;
    var artist := Improved(f.artist, FirstNonEmpty(Artists(tracks)));
    var composer := if s.cfg.allowComposer then Improved(f.composer, FirstNonEmpty(Composers(tracks))) else f.composer;
    var year := if f.year == 0 && title != "Misc" then FirstPositive(Dates(tracks)) else f.year;
    var genre := if |f.genre| == 0 then FirstNonEmpty(Genres(tracks)) else f.genre;
    Facts(year, name, title, artist, composer, genre)
  }

  /** The tag stage as the source runs it, one search loop per field. */
  method ImproveFromTags(f: Facts, tracks: seq<Tracks.Track>, s: Settings) returns (g: Facts)
    ensures g == TagGuess(f, tracks, s)
  {
    g := f;
    var alb := FirstNonEmptyOf(Albums(tracks));
    var albTitle := if |alb| > 0 then Titles.CoercedTitle(alb, s.noCaps) else "";
    if g.title != "Misc" {
      if |g.title| == 0 || IsBetter(g.title, albTitle) {
        g := g.(title := albTitle, name := Safety.EnsureStringSafety(albTitle));
      }
    }
    var albArtist := FirstNonEmptyOf(Artists(tracks));
    g := g.(artist := Improved(g.artist, albArtist));
    if s.cfg.allowComposer {
      var albComposer := FirstNonEmptyOf(Composers(tracks));
      g := g.(composer := Improved(g.composer, albComposer));
    }
    if g.year == 0 && g.title != "Misc" {
      var year := FirstPositiveOf(Dates(tracks));
      g := g.(year := year);
    }
    if |g.genre| == 0 {
      var genre := FirstNonEmptyOf(Genres(tracks));
      g := g.(genre := genre);
    }
  }

  // ---------------------------------------------------------------------------
  // The canonical directory name (Audite.py:1603-1615)
  // ---------------------------------------------------------------------------

  /** `YYYY - Name`, or the bare name for an album without a year; in
      single-album mode the safe composer (when composers are allowed and it
      is known) or the safe artist goes in front, except for "Misc". */
  function GoodDirName(f: Facts, singleAlbum: bool, allowComposer: bool): string {
    var base := if f.year > 0 then ZeroPad(f.year, 4) + " - " + f.name else f.name;
    if singleAlbum && |f.composer| + |f.artist| > 0 && f.title != "Misc" then
      (if allowComposer && |f.composer| > 0 then Safety.EnsureStringSafety(f.composer)
       else Safety.EnsureStringSafety(f.artist)) + " - " + base
    else base
  }

  /** A collection album whose directory already has its canonical name
      reads back its year and name from it. */
  lemma CanonicalDirNameReadsBack(h: Facts, f: Facts, s: Settings)
    requires !s.singleAlbum && 0 < h.year <= s.cfg.nowYear && FileNames.IsTrimmed(h.name)
    requires f.year == 0 && |f.title| == 0
    ensures var g := DirGuess(GoodDirName(h, s.singleAlbum, s.cfg.allowComposer), f, s);
      g.year == h.year && g.name == h.name && g.title == Titles.CoercedTitle(h.name, s.noCaps)
  {
    var d := ZeroPad(h.year, 4) + " - " + h.name;
    assert d[0] == ZeroPad(h.year, 4)[0];
    NotMiscDir(d);
    CollectionNameRoundTrip(h.year, h.name, f, s.cfg.nowYear, s.noCaps);
  }

  // ---------------------------------------------------------------------------
  // The track order and the checks (Audite.py:1624-1644)
  // ---------------------------------------------------------------------------

  predicate SortedByNumber(ts: seq<Tracks.Track>) {
    forall i, j :: 0 <= i < j < |ts| ==> ts[i].number <= ts[j].number
  }

  /** `t` placed after every track numbered no higher. */
  function InsertByNumber(t: Tracks.Track, ts: seq<Tracks.Track>): (r: seq<Tracks.Track>)
    ensures |r| == |ts| + 1
  {
    if ts == [] then [t]
    else if t.number < ts[0].number then [t] + ts
    else [ts[0]] + InsertByNumber(t, ts[1..])
  }

  /** `tracks.sort(key = lambda track: track.number)`: an insertion sort
      that keeps tracks with the same number in their order. */
  function SortByNumber(ts: seq<Tracks.Track>): (r: seq<Tracks.Track>)
    ensures |r| == |ts|
  {
    if ts == [] then [] else InsertByNumber(ts[|ts| - 1], SortByNumber(ts[..|ts| - 1]))
  }

  lemma {:induction false} InsertByNumberBound(t: Tracks.Track, ts: seq<Tracks.Track>, b: nat)
    requires b <= t.number && forall k :: 0 <= k < |ts| ==> b <= ts[k].number
    ensures forall k :: 0 <= k < |ts| + 1 ==> b <= InsertByNumber(t, ts)[k].number
  {
    if ts != [] && t.number >= ts[0].number {
      InsertByNumberBound(t, ts[1..], b);
    }
  }

  lemma {:induction false} InsertByNumberSorts(t: Tracks.Track, ts: seq<Tracks.Track>)
    requires SortedByNumber(ts)
    ensures SortedByNumber(InsertByNumber(t, ts))
  {
    if ts != [] && t.number >= ts[0].number {
      var rest := InsertByNumber(t, ts[1..]);
      InsertByNumberSorts(t, ts[1..]);
      InsertByNumberBound(t, ts[1..], ts[0].number);
      var r := [ts[0]] + rest;
      forall i, j | 0 <= i < j < |r| ensures r[i].number <= r[j].number {
        assert r[j] == rest[j - 1];
        if i > 0 {
          assert r[i] == rest[i - 1];
        }
      }
    }
  }

  lemma {:induction false} InsertByNumberPermutes(t: Tracks.Track, ts: seq<Tracks.Track>)
    ensures multiset(InsertByNumber(t, ts)) == multiset(ts) + multiset{t}
  {
    if ts != [] && t.number >= ts[0].number {
      InsertByNumberPermutes(t, ts[1..]);
      assert ts == [ts[0]] + ts[1..];
    }
  }

  /** The sort gives the tracks ordered by number, and the same tracks. */
  lemma {:induction false} SortByNumberSorts(ts: seq<Tracks.Track>)
    ensures SortedByNumber(SortByNumber(ts))
    ensures multiset(SortByNumber(ts)) == multiset(ts)
  {
    if ts != [] {
      var init := ts[..|ts| - 1];
      SortByNumberSorts(init);
      InsertByNumberSorts(ts[|ts| - 1], SortByNumber(init));
      InsertByNumberPermutes(ts[|ts| - 1], SortByNumber(init));
      assert ts == init + [ts[|ts| - 1]];
    }
  }

  /** Every track is in order. */
  predicate TracksOk(ts: seq<Tracks.Track>) {
    forall i :: 0 <= i < |ts| ==> Tracks.IsOk(ts[i])
  }

  /** The `tracksOk &= track.isOk()` loop. */
  method CheckTracks(ts: seq<Tracks.Track>) returns (ok: bool)
    ensures ok <==> TracksOk(ts)
  {
    ok := true;
    var i := 0;
    while i < |ts|
      invariant i <= |ts|
      invariant ok <==> forall k :: 0 <= k < i ==> Tracks.IsOk(ts[k])
    {
      ok := ok && Tracks.IsOk(ts[i]);
      i := i + 1;
    }
  }

  // ---------------------------------------------------------------------------
  // The whole set-up (Audite.py:1220-1628)
  // ---------------------------------------------------------------------------

  /** The cuesheet chosen, whether there were several, and its text. */
  datatype CueChoice = CueChoice(cuesheet: string, manyCues: bool, cuetext: string)

  function ChosenCue(env: Env): CueChoice {
    var keys := CueKeys(env.listing);
    var best := FirstLargest(keys, |keys|);
    var cuesheet := if best.Some? then env.listing[best.value].name else "";
    CueChoice(cuesheet, Present(keys, |keys|) >= 2, if |cuesheet| > 0 then env.cueText(cuesheet) else "")
  }

  /** The album after its set-up: the fields of class `Album` except the
      status text and the paths. */
  datatype AlbumData = AlbumData(
    dirName: string, goodName: string, facts: Facts, trackTotal: nat, width: nat,
    cuesheet: string, cuetext: string, cueEntries: seq<string>, manyCues: bool,
    cover: Option<Covers.CoverImage>, tracks: seq<Tracks.Track>, tracksOk: bool,
    needsRename: bool, needsRecue: bool)

  /** What the tracks see of the album when they are set up. */
  function TrackEnvOf(s: Settings, env: Env, f: Facts, total: nat, cover: Option<Covers.CoverImage>): TrackEnv {
    TrackEnv(env.dumps, Tags.AlbumFacts(f.artist, f.composer, f.title, f.year, f.genre, total, cover),
             s.cfg, FileNames.NumberWidth(total), env.sim, s.noCaps, env.junk)
  }

  /** The stages after the tracks: the tag stage, the canonical name, the
      sort and the flags. The album needs a new cuesheet when it has none
      or when the tracks and the cuesheet's entries differ in number
      (Audite.py:1283-1285, 1540); it needs a rename when the canonical name
      is not the directory's. */
  function Finish(s: Settings, env: Env, cc: CueChoice, f: Facts, cover: Option<Covers.CoverImage>,
                  width: nat, tracks: seq<Tracks.Track>, entries: seq<string>): (d: AlbumData)
    ensures d.dirName == env.dirName && d.cuesheet == cc.cuesheet && d.cueEntries == entries
    ensures |d.tracks| == |tracks|
    ensures d.needsRecue <==> |d.cuesheet| == 0 || |d.tracks| != |d.cueEntries|
    ensures d.needsRename <==> d.goodName != d.dirName
  {
    var g := TagGuess(f, tracks, s);
    var goodName := GoodDirName(g, s.singleAlbum, s.cfg.allowComposer);
    var sorted := SortByNumber(tracks);
    AlbumData(env.dirName, goodName, g, |tracks|, width, cc.cuesheet, cc.cuetext, entries, cc.manyCues,
              cover, sorted, TracksOk(sorted), goodName != env.dirName,
              |cc.cuesheet| == 0 || |tracks| != |entries|)
  }

  /** `Album.__init__`: the settings, the cuesheet, the directory name, the
      root directory, the cover, the tracks and their tags, in this order. */
  function Setup(s: Settings, env: Env): (r: Result<AlbumData>)
    ensures r.Ok? ==> r.value.cuesheet == ChosenCue(env).cuesheet
    ensures r.Ok? ==>
      (r.value.needsRecue <==> |ChosenCue(env).cuesheet| == 0 || |r.value.tracks| != |r.value.cueEntries|)
  {
    var cc := ChosenCue(env);
    var cue :- CueStage(cc.cuetext, Overrides(s), s);
    SetupFrom(s, env, cc, cue)
  }

  /** The fields after the directory-name and root-directory stages. */
  function Inferred(s: Settings, env: Env, c: Facts): Facts {
    RootArtist(env.rootName, DirGuess(env.dirName, c, s))
  }

  /** The set-up after the cuesheet stage. */
  function SetupFrom(s: Settings, env: Env, cc: CueChoice, cue: CueResult): (r: Result<AlbumData>)
    ensures r.Ok? ==> r.value.dirName == env.dirName && r.value.cuesheet == cc.cuesheet
    ensures r.Ok? ==> (r.value.needsRecue <==> |cc.cuesheet| == 0 || |r.value.tracks| != |r.value.cueEntries|)
    ensures r.Ok? ==> (r.value.needsRename <==> r.value.goodName != env.dirName)
  {
    var f := Inferred(s, env, cue.facts);
    var cover := BestCover(Images(env.listing, env.measure), env.suitability);
    var files := AudioFiles(env.listing);
    var total := if cue.trackTotal == 0 then |files| else cue.trackTotal;
    var te := TrackEnvOf(s, env, f, total, cover);
    var built :- TracksFrom(te, files, 0, [], cue.entries);
    Ok(Finish(s, env, cc, f, cover, te.width, built.0, built.1))
  }

  /** The cuesheet stage as the source runs it, with the entry loop of
      `WalkEntries`. */
  method ReadCue(text: string, f: Facts, s: Settings) returns (r: Result<CueResult>)
    ensures r == CueStage(text, f, s)
  {
    if text == [] {
      return Ok(CueResult(f, 0, []));
    }
    var h :- CueHeader(text, f, s.cfg.allowComposer, s.noCaps);
    var total :- Cuesheet.FlatTrackTotal(text);
    var w :- Cuesheet.WalkEntries(text, Cuesheet.Flat, Coercer(s.noCaps), total, h.1);
    var f1 := h.0;
    if w.renamed.Some? {
      f1 := f1.(name := w.renamed.value);
    }
    return Ok(CueResult(f1, total, w.entries));
  }

  /** The set-up as the source runs it, loop by loop. */
  method SetUp(s: Settings, env: Env) returns (r: Result<AlbumData>)
    ensures r == Setup(s, env)
  {
    var cuesheet, manyCues := ChooseCue(env.listing, CueKeys(env.listing));
    var cuetext := if |cuesheet| > 0 then env.cueText(cuesheet) else "";
    var cc := CueChoice(cuesheet, manyCues, cuetext);
    assert cc == ChosenCue(env);
    var cue :- ReadCue(cuetext, Overrides(s), s);
    r := SetUpFrom(s, env, cc, cue);
  }

  /** The stages after the cuesheet, loop by loop. */
  method SetUpFrom(s: Settings, env: Env, cc: CueChoice, cue: CueResult) returns (r: Result<AlbumData>)
    ensures r == SetupFrom(s, env, cc, cue)
  {
    var f := GuessFromDirName(env.dirName, cue.facts, s);
    f := RootArtist(env.rootName, f);
    assert f == Inferred(s, env, cue.facts);
    var cover := ChooseCover(Images(env.listing, env.measure), env.suitability);
    var files := CollectAudioFiles(env.listing);
    var total := if cue.trackTotal == 0 then |files| else cue.trackTotal;
    var te := TrackEnvOf(s, env, f, total, cover);
    var built :- SetUpTracks(te, files, cue.entries);
    var tracks, entries := built.0, built.1;
    var g := ImproveFromTags(f, tracks, s);
    var goodName := GoodDirName(g, s.singleAlbum, s.cfg.allowComposer);
    var sorted := SortByNumber(tracks);
    var tracksOk := CheckTracks(sorted);
    r := Ok(AlbumData(env.dirName, goodName, g, |tracks|, te.width, cc.cuesheet, cc.cuetext, entries, cc.manyCues,
                      cover, sorted, tracksOk, goodName != env.dirName,
                      |cc.cuesheet| == 0 || |tracks| != |entries|));
  }

  // ---------------------------------------------------------------------------
  // What the set-up guarantees
  // ---------------------------------------------------------------------------

  lemma GoodTracksPermuted(ts: seq<Tracks.Track>, us: seq<Tracks.Track>, width: nat, matched: bool, n: nat)
    requires GoodTracks(ts, width, matched, n) && multiset(us) == multiset(ts)
    ensures GoodTracks(us, width, matched, n)
  {
    forall k | 0 <= k < |us|
      ensures Tracks.IsNormal(us[k]) && Tracks.Consistent(us[k], width) && (matched ==> 1 <= us[k].number <= n)
    {
      assert us[k] in multiset(us);
      assert us[k] in multiset(ts);
      var i :| 0 <= i < |ts| && ts[i] == us[k];
    }
  }

  /** The tracks after the sort, from tracks kept by the loop. */
  lemma FinishTracks(s: Settings, env: Env, cc: CueChoice, f: Facts, cover: Option<Covers.CoverImage>,
                     width: nat, ts: seq<Tracks.Track>, entries: seq<string>, matched: bool, n: nat)
    requires GoodTracks(ts, width, matched, n)
    ensures var d := Finish(s, env, cc, f, cover, width, ts, entries);
      && SortedByNumber(d.tracks) && GoodTracks(d.tracks, width, matched, n)
      && d.width == width && d.trackTotal == |ts| == |d.tracks| && d.cueEntries == entries
  {
    SortByNumberSorts(ts);
    GoodTracksPermuted(ts, SortByNumber(ts), width, matched, n);
  }

  lemma SetupFromTracks(s: Settings, env: Env, cc: CueChoice, cue: CueResult)
    ensures var r := SetupFrom(s, env, cc, cue);
      r.Ok? ==>
        && SortedByNumber(r.value.tracks)
        && (forall k :: 0 <= k < |r.value.tracks| ==>
              Tracks.IsNormal(r.value.tracks[k]) && Tracks.Consistent(r.value.tracks[k], r.value.width))
        && r.value.trackTotal == |r.value.tracks| <= |AudioFiles(env.listing)|
        && |r.value.cueEntries| == |cue.entries|
  {
    var f := Inferred(s, env, cue.facts);
    var cover := BestCover(Images(env.listing, env.measure), env.suitability);
    var files := AudioFiles(env.listing);
    var total := if cue.trackTotal == 0 then |files| else cue.trackTotal;
    var te := TrackEnvOf(s, env, f, total, cover);
    var built := TracksFrom(te, files, 0, [], cue.entries);
    TracksFromInv(te, files, 0, [], cue.entries, cue.entries);
    if built.Ok? {
      FinishTracks(s, env, cc, f, cover, te.width, built.value.0, built.value.1, Matching(te, cue.entries), |cue.entries|);
    }
  }

  /** After the set-up the tracks are ordered by number, each is normal and
      consistent with the album's number width, there is at most one per
      audio file, and at most `MaxTracks` cuesheet entries were read. */
  lemma SetupTracks(s: Settings, env: Env)
    ensures var r := Setup(s, env);
      r.Ok? ==>
        && SortedByNumber(r.value.tracks)
        && (forall k :: 0 <= k < |r.value.tracks| ==>
              Tracks.IsNormal(r.value.tracks[k]) && Tracks.Consistent(r.value.tracks[k], r.value.width))
        && r.value.trackTotal == |r.value.tracks| <= |AudioFiles(env.listing)|
        && |r.value.cueEntries| <= Cuesheet.MaxTracks
  {
    var cc := ChosenCue(env);
    var cue := CueStage(cc.cuetext, Overrides(s), s);
    if cue.Ok? {
      SetupFromTracks(s, env, cc, cue.value);
    }
  }

  /** `g` honours every field known in `f0`: the genre is kept; the artist,
      the composer, and outside a "Misc" directory the title, are kept or
      replaced by a spelling whose safe form they are; outside a "Misc"
      directory the year is kept. */
  ghost predicate Honours(f0: Facts, g: Facts, dirName: string) {
    && (|f0.genre| > 0 ==> g.genre == f0.genre)
    && (|f0.artist| > 0 ==> g.artist == f0.artist || Safety.EnsureStringSafety(g.artist) == f0.artist)
    && (|f0.composer| > 0 ==> g.composer == f0.composer || Safety.EnsureStringSafety(g.composer) == f0.composer)
    && (|f0.title| > 0 && !IsMiscDir(dirName) ==> g.title == f0.title || Safety.EnsureStringSafety(g.title) == f0.title)
    && (f0.year != 0 && !IsMiscDir(dirName) ==> g.year == f0.year)
  }

  /** The stages after the cuesheet honour what the cuesheet stage kept. */
  lemma InferenceHonours(f0: Facts, c: Facts, s: Settings, env: Env, ts: seq<Tracks.Track>)
    requires Keeps(f0, c)
    ensures Honours(f0, TagGuess(Inferred(s, env, c), ts, s), env.dirName)
  {
    var f1 := DirGuess(env.dirName, c, s);
    assert f1.artist == c.artist || !IsMiscDir(env.dirName);
  }

  lemma SetupFromHonours(f0: Facts, s: Settings, env: Env, cc: CueChoice, cue: CueResult)
    requires Keeps(f0, cue.facts)
    ensures var r := SetupFrom(s, env, cc, cue);
      r.Ok? ==> Honours(f0, r.value.facts, env.dirName)
  {
    var f := Inferred(s, env, cue.facts);
    var cover := BestCover(Images(env.listing, env.measure), env.suitability);
    var files := AudioFiles(env.listing);
    var total := if cue.trackTotal == 0 then |files| else cue.trackTotal;
    var te := TrackEnvOf(s, env, f, total, cover);
    var built := TracksFrom(te, files, 0, [], cue.entries);
    if built.Ok? {
      InferenceHonours(f0, cue.facts, s, env, built.value.0);
    }
  }

  /** The settings win over everything read later: a genre given is kept;
      an artist or composer given is kept or replaced by a spelling of it
      whose safe form it is; so is a title, and a year is kept, unless the
      directory is a "Misc" one. */
  lemma SetupHonoursSettings(s: Settings, env: Env)
    ensures var r := Setup(s, env);
      r.Ok? ==>
        var g := r.value.facts;
        && (|s.albumGenre| > 0 ==> g.genre == s.albumGenre)
        && (|s.bandName| > 0 ==> g.artist == s.bandName || Safety.EnsureStringSafety(g.artist) == s.bandName)
        && (|s.composerName| > 0 ==>
              g.composer == s.composerName || Safety.EnsureStringSafety(g.composer) == s.composerName)
        && (|s.albumTitle| > 0 && !IsMiscDir(env.dirName) ==>
              g.title == s.albumTitle || Safety.EnsureStringSafety(g.title) == s.albumTitle)
        && (s.albumYear != 0 && !IsMiscDir(env.dirName) ==> g.year == s.albumYear)
  {
    var cc := ChosenCue(env);
    var cue := CueStage(cc.cuetext, Overrides(s), s);
    if cue.Ok? {
      SetupFromHonours(Overrides(s), s, env, cc, cue.value);
    }
  }

  /** An album in order is already where it belongs: its directory has its
      canonical name and every track file the canonical name of its
      track. */
  lemma SetupOkIsCanonical(s: Settings, env: Env)
    requires Setup(s, env).Ok? && AllOk(Setup(s, env).value)
    ensures var d := Setup(s, env).value;
      && d.dirName == d.goodName
      && forall k :: 0 <= k < |d.tracks| ==>
           d.tracks[k].audioFile == FileNames.GoodTrackName(d.tracks[k].number, d.tracks[k].name,
                                                            d.tracks[k].meta.codec, d.width)
  {
    var d := Setup(s, env).value;
    SetupTracks(s, env);
    forall k | 0 <= k < |d.tracks|
      ensures d.tracks[k].audioFile == FileNames.GoodTrackName(d.tracks[k].number, d.tracks[k].name,
                                                               d.tracks[k].meta.codec, d.width)
    {
      Tracks.OkIsCanonical(d.tracks[k], d.width);
    }
  }

  // ---------------------------------------------------------------------------
  // The album object (Audite.py:1220-1644)
  // ---------------------------------------------------------------------------

  /** `Album.isOk`: a title, the canonical name, a cuesheet that is alone,
      non-empty and complete, at least one track, every track in order, and
      a cover in order. */
  predicate AllOk(d: AlbumData) {
    && |d.facts.name| > 0 && !d.needsRename && !d.needsRecue
    && |d.cuetext| > 0 && !d.manyCues
    && d.trackTotal > 0 && d.tracksOk
    && d.cover.Some? && Covers.IsOk(d.cover.value)
  }

  /** What `coerce` would change: the directory name, some track, the
      cover, or the cuesheet when there are tracks to build it from. */
  predicate SmthToDo(d: AlbumData) {
    || d.needsRename || !d.tracksOk
    || (d.cover.Some? && !Covers.IsOk(d.cover.value))
    || (d.needsRecue && |d.tracks| > 0)
  }

  /** The early `return False` of `hasSmthToDo` changes nothing: an album in
      order has nothing to do anyway. */
  lemma OkAlbumHasNothingToDo(d: AlbumData)
    ensures AllOk(d) ==> !SmthToDo(d)
  {
  }

  /** Class `Album` after its set-up. */
  class Album {
    var dirName: string
    var goodName: string
    var year: int
    var name: string
    var title: string
    var artist: string
    var composer: string
    var genre: string
    var trackTotal: nat
    var width: nat
    var cuesheet: string
    var cuetext: string
    var cueEntries: seq<string>
    var manyCues: bool
    var cover: Option<Covers.CoverImage>
    var tracks: seq<Tracks.Track>
    var tracksOk: bool
    var allOk: bool
    var needsRename: bool
    var needsRecue: bool

    /** The fields as a value. */
    function Data(): AlbumData
      reads this
    {
      AlbumData(dirName, goodName, Facts(year, name, title, artist, composer, genre), trackTotal, width,
                cuesheet, cuetext, cueEntries, manyCues, cover, tracks, tracksOk, needsRename, needsRecue)
    }

    constructor (d: AlbumData)
      ensures Data() == d && !allOk
    {
      dirName, goodName := d.dirName, d.goodName;
      year, name, title := d.facts.year, d.facts.name, d.facts.title;
      artist, composer, genre := d.facts.artist, d.facts.composer, d.facts.genre;
      trackTotal, width := d.trackTotal, d.width;
      cuesheet, cuetext, cueEntries, manyCues := d.cuesheet, d.cuetext, d.cueEntries, d.manyCues;
      cover, tracks, tracksOk := d.cover, d.tracks, d.tracksOk;
      allOk := false;
      needsRename, needsRecue := d.needsRename, d.needsRecue;
    }

    /** `isOk`: records and returns whether the album is in order. */
    method IsOk() returns (ok: bool)
      modifies this
      ensures ok == AllOk(old(Data())) && allOk == ok && Data() == old(Data())
    {
      allOk := |name| > 0 && !needsRename && !needsRecue && |cuetext| > 0 && !manyCues
               && trackTotal > 0 && tracksOk && cover.Some? && Covers.IsOk(cover.value);
      ok := allOk;
    }

    /** `hasSmthToDo`. */
    function HasSmthToDo(): (r: bool)
      reads this
      ensures allOk ==> !r
      ensures !allOk ==> (r <==> SmthToDo(Data()))
    {
      if allOk then false
      else needsRename || !tracksOk || (cover.Some? && !Covers.IsOk(cover.value)) || (needsRecue && |tracks| > 0)
    }
  }

  /** Sets up the album of a directory. */
  method Open(s: Settings, env: Env) returns (r: Result<Album>)
    ensures r.Ok? <==> Setup(s, env).Ok?
    ensures r.Ok? ==> fresh(r.value) && r.value.Data() == Setup(s, env).value && !r.value.allOk
  {
    var d :- SetUp(s, env);
    var album := new Album(d);
    return Ok(album);
  }
}
