/** The unified cuesheet that `UnflatAlbum.coerce` writes once the
    sub-albums are flattened (Audite.py:2217-2244): the album header, then
    one `FILE` line per sub-album followed by its tracks, numbered from 1
    across the whole album. The text is returned as a value. */
module UnifiedCue {
  import opened Text
  import opened Wrappers
  import Albums
  import Complex
  import FileNames

  /** One track of the unified cuesheet: its number, its title and the INDEX
      times written for it. */
  datatype CueTrack = CueTrack(number: nat, title: string, times: seq<string>)

  /** The times written for a track: the first as `INDEX 00`, and the
      second as `INDEX 01` only when there are exactly two. */
  function WrittenTimes(ts: seq<string>): (r: seq<string>)
    requires |ts| > 0
    ensures 1 <= |r| <= |ts| && r == ts[..|r|]
    ensures |r| == 2 <==> |ts| == 2
  {
    if |ts| == 2 then ts else ts[..1]
  }

  /** Track `j` of sub-album `i` under the given number
      (Audite.py:2232-2237): its title is `cueTrackTitles[i][j]`; when any
      INDEX times were collected, its times come from `cueIndexes[i][j]`.
      Every list lookup that falls outside its list is an `IndexError`. */
  function TrackAt(number: nat, i: nat, j: nat, titles: seq<seq<string>>, indexes: seq<seq<seq<string>>>)
    : (r: Result<CueTrack>)
    ensures r.Ok? <==> i < |titles| && j < |titles[i]| &&
                       (|indexes| > 0 ==> i < |indexes| && j < |indexes[i]| && |indexes[i][j]| > 0)
    ensures r.Err? ==> r == Err(IndexOutOfRange)
    ensures r.Ok? ==> r.value.number == number && r.value.title == titles[i][j]
    ensures r.Ok? && |indexes| == 0 ==> r.value.times == []
    ensures r.Ok? && |indexes| > 0 ==> r.value.times == WrittenTimes(indexes[i][j])
  {
    if i >= |titles| || j >= |titles[i]| then Err(IndexOutOfRange)
    else if |indexes| == 0 then Ok(CueTrack(number, titles[i][j], []))
    else if i >= |indexes| || j >= |indexes[i]| || |indexes[i][j]| == 0 then Err(IndexOutOfRange)
    else Ok(CueTrack(number, titles[i][j], WrittenTimes(indexes[i][j])))
  }

  /** The first `n` tracks of sub-album `i`, numbered from `first`. */
  function SubTracks(i: nat, n: nat, first: nat, titles: seq<seq<string>>, indexes: seq<seq<seq<string>>>)
    : (r: Result<seq<CueTrack>>)
    ensures r.Err? ==> r == Err(IndexOutOfRange)
    ensures r.Ok? ==> |r.value| == n && (n > 0 ==> i < |titles| && n <= |titles[i]|)
    ensures r.Ok? ==> forall j :: 0 <= j < n ==> r.value[j].number == first + j
    ensures r.Ok? ==> forall j :: 0 <= j < n ==> r.value[j].title == titles[i][j]
  {
    if n == 0 then Ok([])
    else
      var prev :- SubTracks(i, n - 1, first, titles, indexes);
      var t :- TrackAt(first + (n - 1), i, n - 1, titles, indexes);
      Ok(prev + [t])
  }

  /** The tracks of the first `m` sub-albums, one group per sub-album; the
      tracks of sub-album `i` are numbered from 1 plus the track totals of
      the sub-albums before it (`baseIndex`). */
  function UnifiedTracks(m: nat, totals: seq<nat>, titles: seq<seq<string>>, indexes: seq<seq<seq<string>>>)
    : (r: Result<seq<seq<CueTrack>>>)
    ensures r.Err? ==> r == Err(IndexOutOfRange)
    ensures r.Ok? ==> m <= |totals| && |r.value| == m
    ensures r.Ok? ==> forall i :: 0 <= i < m ==> |r.value[i]| == totals[i]
  {
    if m == 0 then Ok([])
    else
      var prev :- UnifiedTracks(m - 1, totals, titles, indexes);
      if m - 1 >= |totals| then Err(IndexOutOfRange)
      else
        var group :- SubTracks(m - 1, totals[m - 1], 1 + Complex.Sum(totals[..m - 1]), titles, indexes);
        Ok(prev + [group])
  }

  /** The groups one after the other. */
  function Concat(groups: seq<seq<CueTrack>>): seq<CueTrack> {
    if groups == [] then [] else Concat(groups[..|groups| - 1]) + groups[|groups| - 1]
  }

  /** The tracks of the unified cuesheet are numbered 1, 2, ... without gap
      or repetition across all sub-albums, up to the sum of the track
      totals. */
  lemma {:induction false} NumberedInOrder(m: nat, totals: seq<nat>, titles: seq<seq<string>>, indexes: seq<seq<seq<string>>>)
    requires UnifiedTracks(m, totals, titles, indexes).Ok?
    ensures var all := Concat(UnifiedTracks(m, totals, titles, indexes).value);
      |all| == Complex.Sum(totals[..m]) && forall k :: 0 <= k < |all| ==> all[k].number == k + 1
  {
    if m > 0 {
      var groups := UnifiedTracks(m, totals, titles, indexes).value;
      var prev := UnifiedTracks(m - 1, totals, titles, indexes).value;
      NumberedInOrder(m - 1, totals, titles, indexes);
      var group := groups[m - 1];
      assert groups == prev + [group];
      assert groups[..m - 1] == prev;
      Complex.SumStep(totals, m - 1);
      var base := Complex.Sum(totals[..m - 1]);
      var all := Concat(groups);
      assert all == Concat(prev) + group;
      forall k | base <= k < |all|
        ensures all[k].number == k + 1
      {
        assert all[k] == group[k - base];
      }
    }
  }

  /** Track `j` of sub-album `i` is the track with number
      `1 + Sum(totals[..i]) + j`, under the title collected for it. */
  lemma {:induction false} UnifiedTrackAt(m: nat, totals: seq<nat>, titles: seq<seq<string>>, indexes: seq<seq<seq<string>>>, i: nat, j: nat)
    requires UnifiedTracks(m, totals, titles, indexes).Ok?
    requires i < m && j < totals[i]
    ensures var t := UnifiedTracks(m, totals, titles, indexes).value[i][j];
      t.number == 1 + Complex.Sum(totals[..i]) + j && i < |titles| && j < |titles[i]| && t.title == titles[i][j]
  {
    if i < m - 1 {
      UnifiedTrackAt(m - 1, totals, titles, indexes, i, j);
    }
  }

  /** With one title and one or two INDEX times per announced track in every
      sub-album (what the collection of the sub-album cuesheets guarantees),
      no lookup fails. */
  lemma {:induction false} UnifiedTracksOk(m: nat, totals: seq<nat>, titles: seq<seq<string>>, indexes: seq<seq<seq<string>>>)
    requires m <= |totals| == |titles|
    requires forall i :: 0 <= i < |totals| ==> |titles[i]| == totals[i]
    requires |indexes| > 0 ==> |indexes| == |totals| && forall i :: 0 <= i < |totals| ==> |indexes[i]| == totals[i]
    requires forall i, j :: 0 <= i < |indexes| && 0 <= j < |indexes[i]| ==> |indexes[i][j]| > 0
    ensures UnifiedTracks(m, totals, titles, indexes).Ok?
  {
    if m > 0 {
      UnifiedTracksOk(m - 1, totals, titles, indexes);
      SubTracksOk(m - 1, totals[m - 1], 1 + Complex.Sum(totals[..m - 1]), titles, indexes);
    }
  }

  lemma {:induction false} SubTracksOk(i: nat, n: nat, first: nat, titles: seq<seq<string>>, indexes: seq<seq<seq<string>>>)
    requires i < |titles| && n <= |titles[i]|
    requires |indexes| > 0 ==> i < |indexes| && n <= |indexes[i]| && forall j :: 0 <= j < n ==> |indexes[i][j]| > 0
    ensures SubTracks(i, n, first, titles, indexes).Ok?
  {
    if n > 0 {
      SubTracksOk(i, n - 1, first, titles, indexes);
    }
  }

  /** A failed lookup stops the whole loop. */
  lemma {:induction false} SubTracksErrStays(i: nat, j: nat, n: nat, first: nat, titles: seq<seq<string>>, indexes: seq<seq<seq<string>>>)
    requires j <= n && SubTracks(i, j, first, titles, indexes).Err?
    ensures SubTracks(i, n, first, titles, indexes).Err?
    decreases n - j
  {
    if j < n {
      SubTracksErrStays(i, j, n - 1, first, titles, indexes);
    }
  }

  lemma {:induction false} UnifiedTracksErrStays(k: nat, m: nat, totals: seq<nat>, titles: seq<seq<string>>, indexes: seq<seq<seq<string>>>)
    requires k <= m && UnifiedTracks(k, totals, titles, indexes).Err?
    ensures UnifiedTracks(m, totals, titles, indexes).Err?
    decreases m - k
  {
    if k < m {
      UnifiedTracksErrStays(k, m - 1, totals, titles, indexes);
    }
  }

  /** The numbering loops of `coerce` (Audite.py:2228-2238): the outer one
      over the sub-albums, the inner one over each sub-album's tracks, with
      `baseIndex` starting at 1 and growing by each track total. */
  method NumberTracks(numSubs: nat, totals: seq<nat>, titles: seq<seq<string>>, indexes: seq<seq<seq<string>>>)
    returns (r: Result<seq<seq<CueTrack>>>)
    ensures r == UnifiedTracks(numSubs, totals, titles, indexes)
  {
    var groups: seq<seq<CueTrack>> := [];
    var baseIndex := 1;
    var i := 0;
    while i < numSubs
      invariant i <= numSubs && UnifiedTracks(i, totals, titles, indexes) == Ok(groups)
      invariant i <= |totals| && baseIndex == 1 + Complex.Sum(totals[..i])
    {
      if i >= |totals| {
        UnifiedTracksErrStays(i + 1, numSubs, totals, titles, indexes);
        return Err(IndexOutOfRange);
      }
      var group := NumberSubTracks(i, totals[i], baseIndex, titles, indexes);
      if group.Err? {
        UnifiedTracksErrStays(i + 1, numSubs, totals, titles, indexes);
        return Err(IndexOutOfRange);
      }
      groups := groups + [group.value];
      Complex.SumStep(totals, i);
      baseIndex := baseIndex + totals[i];
      i := i + 1;
    }
    return Ok(groups);
  }

  /** The inner loop over the tracks of sub-album `i`. */
  method NumberSubTracks(i: nat, n: nat, first: nat, titles: seq<seq<string>>, indexes: seq<seq<seq<string>>>)
    returns (r: Result<seq<CueTrack>>)
    ensures r == SubTracks(i, n, first, titles, indexes)
  {
    var group: seq<CueTrack> := [];
    var j := 0;
    while j < n
      invariant j <= n && SubTracks(i, j, first, titles, indexes) == Ok(group)
    {
      var t := TrackAt(first + j, i, j, titles, indexes);
      if t.Err? {
        SubTracksErrStays(i, j + 1, n, first, titles, indexes);
        return Err(IndexOutOfRange);
      }
      group := group + [t.value];
      j := j + 1;
    }
    return Ok(group);
  }

  /** Every track number of an album of `total` tracks is printed with
      exactly `NumberWidth(total)` digits and reads back as itself. */
  lemma TrackNumberText(k: nat, total: nat)
    requires 1 <= k <= total
    ensures |ZeroPad(k, FileNames.NumberWidth(total))| == FileNames.NumberWidth(total)
    ensures NatOf(ZeroPad(k, FileNames.NumberWidth(total))) == k
  {
    DecimalMonotone(k, total);
    ZeroPadRoundTrip(k, FileNames.NumberWidth(total));
  }

  // ---------------------------------------------------------------------------
  // The text (Audite.py:2218-2238)
  // ---------------------------------------------------------------------------

  function Quoted(s: string): string {
    "\"" + s + "\""
  }

  /** The INDEX lines of a track. */
  function TimesText(times: seq<string>): string {
    if |times| == 0 then ""
    else "    INDEX 00 " + Quoted(times[0]) + "\n" + (if |times| == 2 then "    INDEX 01 " + Quoted(times[1]) + "\n" else "")
  }

  /** The lines of one track, its number zero-padded to `width`. */
  function TrackText(t: CueTrack, width: nat): string {
    TrackLine(t.number, width) + "    TITLE " + Quoted(t.title) + "\n" + TimesText(t.times)
  }

  function TrackLine(number: nat, width: nat): string {
    "  TRACK " + ZeroPad(number, width) + " AUDIO\n"
  }

  /** The lines of a group of tracks. */
  function TracksText(ts: seq<CueTrack>, width: nat): string {
    if ts == [] then "" else TracksText(ts[..|ts| - 1], width) + TrackText(ts[|ts| - 1], width)
  }

  /** The `FILE` line of each sub-album, followed by its tracks. */
  function GroupsText(goodName: string, subNames: seq<string>, groups: seq<seq<CueTrack>>, width: nat): string
    requires |groups| <= |subNames|
  {
    if groups == [] then ""
    else
      var i := |groups| - 1;
      GroupsText(goodName, subNames, groups[..i], width)
        + "FILE " + Quoted(goodName + " (" + subNames[i] + ").flac") + " WAVE\n"
        + TracksText(groups[i], width)
  }

  /** The album header after its `TITLE` line: whichever of performer,
      composer (when composers are allowed), year and genre are known. */
  function HeaderRest(f: Albums.Facts, allowComposer: bool): string {
    (if |f.artist| > 0 then "PERFORMER " + Quoted(f.artist) + "\n" else "")
      + (if allowComposer && |f.composer| > 0 then "REM COMPOSER " + Quoted(f.composer) + "\n" else "")
      + (if f.year > 0 then "REM DATE " + Decimal(f.year) + "\n" else "")
      + (if |f.genre| > 0 then "REM GENRE " + Quoted(f.genre) + "\n" else "")
  }

  /** The unified cuesheet, track numbers zero-padded to `width`. The text
      is only started by the `TITLE` line, so an album without a title
      fails on the first append (`UnboundLocalError`); a failed lookup in
      the numbering loops fails too. */
  function UnifiedText(f: Albums.Facts, allowComposer: bool, goodName: string, subNames: seq<string>,
                       totals: seq<nat>, titles: seq<seq<string>>, indexes: seq<seq<seq<string>>>, width: nat)
    : (r: Result<string>)
    ensures |f.title| == 0 ==> r == Err(UnboundName)
    ensures |f.title| > 0 ==> (r.Ok? <==> UnifiedTracks(|subNames|, totals, titles, indexes).Ok?)
    ensures r.Err? ==> r == Err(UnboundName) || r == Err(IndexOutOfRange)
    ensures r.Ok? ==> StartsWith(r.value, "TITLE " + Quoted(f.title) + "\n")
  {
    if |f.title| == 0 then Err(UnboundName)
    else
      var groups :- UnifiedTracks(|subNames|, totals, titles, indexes);
      var line := "TITLE " + Quoted(f.title) + "\n";
      var rest := HeaderRest(f, allowComposer) + GroupsText(goodName, subNames, groups, width);
      assert (line + rest)[..|line|] == line;
      Ok(line + rest)
  }

  /** The `TRACK` line of the `k`-th track of the album (counting from 0)
      carries the number `k + 1`, zero-padded to the width of the album's
      track total, which reads back as `k + 1`. */
  lemma TrackLineNumber(m: nat, totals: seq<nat>, titles: seq<seq<string>>, indexes: seq<seq<seq<string>>>, k: nat)
    requires UnifiedTracks(m, totals, titles, indexes).Ok?
    requires k < Complex.Sum(totals[..m])
    ensures var all := Concat(UnifiedTracks(m, totals, titles, indexes).value);
      var width := FileNames.NumberWidth(Complex.Sum(totals[..m]));
      k < |all| && TrackLine(all[k].number, width) == "  TRACK " + ZeroPad(k + 1, width) + " AUDIO\n" &&
      |ZeroPad(k + 1, width)| == width && NatOf(ZeroPad(k + 1, width)) == k + 1
  {
    NumberedInOrder(m, totals, titles, indexes);
    TrackNumberText(k + 1, Complex.Sum(totals[..m]));
  }
}
