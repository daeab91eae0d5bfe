/** The complex ("unflat") album of Audite.py (class `UnflatAlbum`): an album
    directory made of sub-album directories, each with its own tracks and
    possibly its own cuesheet. The set-up merges what the sub-albums and
    their cuesheets say into one set of album facts; `coerce` moves every
    element up into the album directory under a shifted track number and
    writes one cuesheet that numbers all tracks from 1. Only the naming and
    numbering are modelled: the renames are returned as pairs, the cuesheet
    as a value. */
module Complex {
  import opened Text
  import opened Wrappers
  import Safety
  import Titles
  import FileNames
  import Cuesheet
  import Albums

  /** A sub-album directory: its name and its listing. */
  datatype SubAlbum = SubAlbum(name: string, elems: seq<Albums.DirEntry>)

  /** The album directory as the set-up sees it: its name, the name of the
      directory holding it, its sub-albums in the order the directory listing
      gives them, and the text read
      from a cuesheet, given the sub-album and the cuesheet's name. */
  datatype UnflatEnv = UnflatEnv(
    dirName: string, rootName: string, subs: seq<SubAlbum>, cueText: (string, string) -> string)

  /** `sum` of a list of counts. */
  function Sum(xs: seq<nat>): nat {
    if xs == [] then 0 else Sum(xs[..|xs| - 1]) + xs[|xs| - 1]
  }

  /** The sum of a prefix grows by the next element. */
  lemma SumStep(xs: seq<nat>, i: nat)
    requires i < |xs|
    ensures Sum(xs[..i + 1]) == Sum(xs[..i]) + xs[i]
  {
    assert xs[..i + 1][..i] == xs[..i];
  }

  // ---------------------------------------------------------------------------
  // The listing of the sub-albums (Audite.py:1801-1848)
  // ---------------------------------------------------------------------------

  /** The names of a listing. */
  function Names(elems: seq<Albums.DirEntry>): (r: seq<string>)
    ensures |r| == |elems| && forall i :: 0 <= i < |elems| ==> r[i] == elems[i].name
  {
    seq(|elems|, i requires 0 <= i < |elems| => elems[i].name)
  }

  /** `allSubElems`: the names in every sub-album, one sub-album after the
      other. */
  function AllSubElems(subs: seq<SubAlbum>): seq<string> {
    if subs == [] then [] else AllSubElems(subs[..|subs| - 1]) + Names(subs[|subs| - 1].elems)
  }

  /** `subCounts`: the size of each sub-album's listing. */
  function SubCounts(subs: seq<SubAlbum>): (r: seq<nat>)
    ensures |r| == |subs| && forall i :: 0 <= i < |subs| ==> r[i] == |subs[i].elems|
  {
    seq(|subs|, i requires 0 <= i < |subs| => |subs[i].elems|)
  }

  /** Every element is counted once: the listing of all sub-albums is as
      long as the counts add up to. */
  lemma {:induction false} AllSubElemsCounted(subs: seq<SubAlbum>)
    ensures |AllSubElems(subs)| == Sum(SubCounts(subs))
  {
    if subs != [] {
      var init := subs[..|subs| - 1];
      AllSubElemsCounted(init);
      assert SubCounts(subs)[..|subs| - 1] == SubCounts(init);
    }
  }

  /** For each name of a sub-album's listing, the track title it gives when
      it is an audio file (Audite.py:1815-1829). */
  function AudioKeys(elems: seq<Albums.DirEntry>, noCaps: bool): (r: seq<Option<string>>)
    ensures |r| == |elems|
    ensures forall i :: 0 <= i < |elems| ==> (r[i].Some? <==> FileNames.IsAudioFile(elems[i].name))
    ensures forall i :: 0 <= i < |elems| && r[i].Some? ==> Strip(r[i].value) == r[i].value
  {
    seq(|elems|, i requires 0 <= i < |elems| =>
      if FileNames.IsAudioFile(elems[i].name) then Some(FileNames.SubAlbumTrackTitle(elems[i].name, noCaps)) else None)
  }

  /** The present values, in order. */
  function Somes(keys: seq<Option<string>>): (r: seq<string>)
    ensures |r| <= |keys|
  {
    if keys == [] then []
    else
      var init := Somes(keys[..|keys| - 1]);
      if keys[|keys| - 1].Some? then init + [keys[|keys| - 1].value] else init
  }

  /** The track titles of a sub-album, in listing order. */
  function AudioTitles(elems: seq<Albums.DirEntry>, noCaps: bool): seq<string> {
    Somes(AudioKeys(elems, noCaps))
  }

  /** Exactly the present values are kept, each one once and in order. */
  lemma {:induction false} SomesCount(keys: seq<Option<string>>)
    ensures |Somes(keys)| == |set i | 0 <= i < |keys| && keys[i].Some?|
  {
    var present := set i | 0 <= i < |keys| && keys[i].Some?;
    if keys != [] {
      var init := keys[..|keys| - 1];
      var before := set i | 0 <= i < |init| && init[i].Some?;
      SomesCount(init);
      assert forall i :: 0 <= i < |init| ==> init[i] == keys[i];
      if keys[|keys| - 1].Some? {
        assert present == before + {|keys| - 1};
      } else {
        assert present == before;
      }
    }
  }

  /** A value is kept exactly when it is present. */
  lemma {:induction false} SomesMembers(keys: seq<Option<string>>)
    ensures forall w :: w in Somes(keys) <==> Some(w) in keys
  {
    if keys != [] {
      var init := keys[..|keys| - 1];
      SomesMembers(init);
      assert keys == init + [keys[|keys| - 1]];
    }
  }

  /** A sub-album yields one title per audio file, and every title is
      stripped. */
  lemma AudioTitlesOfAudioFiles(elems: seq<Albums.DirEntry>, noCaps: bool)
    ensures |AudioTitles(elems, noCaps)| == |set i | 0 <= i < |elems| && FileNames.IsAudioFile(elems[i].name)|
    ensures forall w :: w in AudioTitles(elems, noCaps) ==> Strip(w) == w
  {
    var keys := AudioKeys(elems, noCaps);
    SomesCount(keys);
    SomesMembers(keys);
    var somes := set i | 0 <= i < |keys| && keys[i].Some?;
    var audio := set i | 0 <= i < |elems| && FileNames.IsAudioFile(elems[i].name);
    assert forall i :: i in somes <==> i in audio;
    assert somes == audio;
  }

  /** `s.lower().endswith(".cue")`: the test that picks a sub-album's
      cuesheets. */
  predicate IsCueName(name: string) {
    EndsWith(LowerStr(name), ".cue")
  }

  /** The sizes of a sub-album's cuesheets, `None` for other names. */
  function SubCueKeys(elems: seq<Albums.DirEntry>): (r: seq<Option<real>>)
    ensures |r| == |elems|
    ensures forall i :: 0 <= i < |elems| ==> (r[i].Some? <==> IsCueName(elems[i].name))
    ensures forall i :: 0 <= i < |elems| && r[i].Some? ==> r[i].value == elems[i].size as real
  {
    seq(|elems|, i requires 0 <= i < |elems| =>
      if IsCueName(elems[i].name) then Some(elems[i].size as real) else None)
  }

  /** The cuesheet of a sub-album (Audite.py:1830-1842): of its cuesheets,
      the first one whose size no later one strictly exceeds. */
  function SubCue(sub: SubAlbum): (r: Option<string>)
  {
    var keys := SubCueKeys(sub.elems);
    var k := Albums.FirstLargest(keys, |keys|);
    if k.None? then None else Some(sub.elems[k.value].name)
  }

  /** A sub-album has a cuesheet exactly when one of its names ends in
      `.cue`; the one chosen is a cuesheet at least as large as every other
      and strictly larger than those before it. */
  lemma SubCueIsFirstLargest(sub: SubAlbum)
    ensures SubCue(sub).None? <==> forall i :: 0 <= i < |sub.elems| ==> !IsCueName(sub.elems[i].name)
    ensures SubCue(sub).Some? ==> exists k :: (0 <= k < |sub.elems|
      && SubCue(sub).value == sub.elems[k].name && IsCueName(sub.elems[k].name)
      && (forall i :: 0 <= i < |sub.elems| && IsCueName(sub.elems[i].name) ==> sub.elems[i].size <= sub.elems[k].size)
      && (forall i :: 0 <= i < k && IsCueName(sub.elems[i].name) ==> sub.elems[i].size < sub.elems[k].size))
  {
    var keys := SubCueKeys(sub.elems);
    Albums.FirstLargestIsFirstMax(keys, |keys|);
    var best := Albums.FirstLargest(keys, |keys|);
    if best.Some? {
      var k := best.value;
      assert IsCueName(sub.elems[k].name);
      forall i | 0 <= i < |sub.elems| && IsCueName(sub.elems[i].name)
        ensures sub.elems[i].size <= sub.elems[k].size
      {
        assert keys[i].Some? && keys[i].value <= keys[k].value;
      }
      forall i | 0 <= i < k && IsCueName(sub.elems[i].name)
        ensures sub.elems[i].size < sub.elems[k].size
      {
        assert keys[i].Some? && keys[i].value < keys[k].value;
      }
    } else {
      forall i | 0 <= i < |sub.elems| ensures !IsCueName(sub.elems[i].name) {
        assert keys[i].None?;
      }
    }
  }

  /** The cuesheet chosen in each sub-album. */
  function SubCues(subs: seq<SubAlbum>): (r: seq<Option<string>>)
    ensures |r| == |subs| && forall i :: 0 <= i < |subs| ==> r[i] == SubCue(subs[i])
  {
    seq(|subs|, i requires 0 <= i < |subs| => SubCue(subs[i]))
  }

  /** `cueList`: the chosen cuesheet of every sub-album that has one, as the
      sub-album's index and the cuesheet's name, in sub-album order. */
  function CueListOf(cues: seq<Option<string>>): (r: seq<(nat, string)>)
    ensures forall k :: 0 <= k < |r| ==> r[k].0 < |cues| && cues[r[k].0] == Some(r[k].1)
    ensures forall k, m :: 0 <= k < m < |r| ==> r[k].0 < r[m].0
    ensures |r| <= |cues|
  {
    if cues == [] then []
    else
      var init := CueListOf(cues[..|cues| - 1]);
      var cue := cues[|cues| - 1];
      if cue.Some? then init + [(|cues| - 1, cue.value)] else init
  }

  /** No sub-album with a cuesheet is missed. */
  lemma {:induction false} CueListComplete(cues: seq<Option<string>>, i: nat)
    requires i < |cues| && cues[i].Some?
    ensures (i, cues[i].value) in CueListOf(cues)
  {
    if i < |cues| - 1 {
      CueListComplete(cues[..|cues| - 1], i);
    }
  }

  /** When every sub-album has a cuesheet, the i-th cuesheet of the list is
      that of the i-th sub-album, so whatever is gathered from the cuesheets
      lines up with the sub-albums it is indexed by. */
  lemma {:induction false} CueListOfAll(cues: seq<Option<string>>)
    requires forall i :: 0 <= i < |cues| ==> cues[i].Some?
    ensures |CueListOf(cues)| == |cues|
    ensures forall i :: 0 <= i < |cues| ==> CueListOf(cues)[i] == (i, cues[i].value)
  {
    if cues != [] {
      CueListOfAll(cues[..|cues| - 1]);
    }
  }

  /** What the loop over the sub-albums collects. */
  datatype Listing = Listing(
    allSubElems: seq<string>, subCounts: seq<nat>, titles: seq<seq<string>>, totals: seq<nat>,
    cueList: seq<(nat, string)>)

  /** The title keys of each sub-album. */
  function SubKeys(subs: seq<SubAlbum>, noCaps: bool): (r: seq<seq<Option<string>>>)
    ensures |r| == |subs| && forall i :: 0 <= i < |subs| ==> r[i] == AudioKeys(subs[i].elems, noCaps)
  {
    seq(|subs|, i requires 0 <= i < |subs| => AudioKeys(subs[i].elems, noCaps))
  }

  /** The track titles of each sub-album. */
  function TitlesOf(keys: seq<seq<Option<string>>>): (r: seq<seq<string>>)
    ensures |r| == |keys| && forall i :: 0 <= i < |keys| ==> r[i] == Somes(keys[i])
  {
    seq(|keys|, i requires 0 <= i < |keys| => Somes(keys[i]))
  }

  /** The number of track titles of each sub-album. */
  function TotalsOf(keys: seq<seq<Option<string>>>): (r: seq<nat>)
    ensures |r| == |keys| && forall i :: 0 <= i < |keys| ==> r[i] == |Somes(keys[i])|
  {
    seq(|keys|, i requires 0 <= i < |keys| => |Somes(keys[i])|)
  }

  /** The loop's result as a value. */
  function ListingOf(subs: seq<SubAlbum>, noCaps: bool): Listing {
    var keys := SubKeys(subs, noCaps);
    Listing(AllSubElems(subs), SubCounts(subs), TitlesOf(keys), TotalsOf(keys), CueListOf(SubCues(subs)))
  }

  /** The inner loop over one sub-album's listing (Audite.py:1815-1829),
      given the title each name gives when it is an audio file. */
  method CollectTitles(keys: seq<Option<string>>) returns (localTracks: seq<string>)
    ensures localTracks == Somes(keys)
  {
    localTracks := [];
    var j := 0;
    while j < |keys|
      invariant j <= |keys| && localTracks == Somes(keys[..j])
    {
      assert keys[..j + 1][..j] == keys[..j];
      if keys[j].Some? {
        localTracks := localTracks + [keys[j].value];
      }
      j := j + 1;
    }
    assert keys[..j] == keys;
  }

  /** How the collected lists grow with one more sub-album. */
  lemma ScanPrefix(subs: seq<SubAlbum>, keys: seq<seq<Option<string>>>, cues: seq<Option<string>>, i: nat)
    requires |keys| == |cues| == |subs| && i < |subs|
    ensures AllSubElems(subs[..i + 1]) == AllSubElems(subs[..i]) + Names(subs[i].elems)
    ensures CueListOf(cues[..i + 1]) ==
      if cues[i].Some? then CueListOf(cues[..i]) + [(i, cues[i].value)] else CueListOf(cues[..i])
    ensures SubCounts(subs)[..i + 1] == SubCounts(subs)[..i] + [|subs[i].elems|]
    ensures TitlesOf(keys)[..i + 1] == TitlesOf(keys)[..i] + [Somes(keys[i])]
    ensures TotalsOf(keys)[..i + 1] == TotalsOf(keys)[..i] + [|Somes(keys[i])|]
  {
    ScanPrefixLists(subs, cues, i);
    PrefixSnoc(SubCounts(subs), i);
    PrefixSnoc(TitlesOf(keys), i);
    PrefixSnoc(TotalsOf(keys), i);
  }

  lemma ScanPrefixLists(subs: seq<SubAlbum>, cues: seq<Option<string>>, i: nat)
    requires |cues| == |subs| && i < |subs|
    ensures AllSubElems(subs[..i + 1]) == AllSubElems(subs[..i]) + Names(subs[i].elems)
    ensures CueListOf(cues[..i + 1]) ==
      if cues[i].Some? then CueListOf(cues[..i]) + [(i, cues[i].value)] else CueListOf(cues[..i])
  {
    assert subs[..i + 1][..i] == subs[..i] && cues[..i + 1][..i] == cues[..i];
  }

  lemma PrefixSnoc<T>(s: seq<T>, i: nat)
    requires i < |s|
    ensures s[..i + 1] == s[..i] + [s[i]]
  {
  }

  /** The loop over the sub-albums (Audite.py:1801-1845), given the title
      keys and the chosen cuesheet of each. */
  method Scan(subs: seq<SubAlbum>, keys: seq<seq<Option<string>>>, cues: seq<Option<string>>) returns (l: Listing)
    requires |keys| == |cues| == |subs|
    ensures l == Listing(AllSubElems(subs), SubCounts(subs), TitlesOf(keys), TotalsOf(keys), CueListOf(cues))
  {
    l := Listing([], [], [], [], []);
    var i := 0;
    while i < |subs|
      invariant i <= |subs|
      invariant l.allSubElems == AllSubElems(subs[..i]) && l.cueList == CueListOf(cues[..i])
      invariant l.subCounts == SubCounts(subs)[..i]
      invariant l.titles == TitlesOf(keys)[..i] && l.totals == TotalsOf(keys)[..i]
    {
      ScanPrefix(subs, keys, cues, i);
      var localTracks := CollectTitles(keys[i]);
      l := l.(allSubElems := l.allSubElems + Names(subs[i].elems),
              subCounts := l.subCounts + [|subs[i].elems|],
              titles := l.titles + [localTracks], totals := l.totals + [|localTracks|],
              cueList := if cues[i].Some? then l.cueList + [(i, cues[i].value)] else l.cueList);
      i := i + 1;
    }
    assert subs[..i] == subs && cues[..i] == cues;
  }

  /** The loop over the sub-albums with the listing's names read as it goes. */
  method ScanSubAlbums(subs: seq<SubAlbum>, noCaps: bool) returns (l: Listing)
    ensures l == ListingOf(subs, noCaps)
  {
    l := Scan(subs, SubKeys(subs, noCaps), SubCues(subs));
  }

  // ---------------------------------------------------------------------------
  // The sub-albums' cuesheets (Audite.py:1852-2029)
  // ---------------------------------------------------------------------------

  /** What the loop over the cuesheets collects: the header values kept from
      each cuesheet, the entries and INDEX times of each, the last text
      assigned to `cueStr` (the variable outlives each pass of the loop) and
      the last `FILE` name the walk stored in the album's `name`. */
  datatype Gathered = Gathered(
    titles: seq<string>, years: seq<nat>, genres: seq<string>, artists: seq<string>, composers: seq<string>,
    totals: seq<nat>, entries: seq<seq<string>>, indexes: seq<seq<seq<string>>>,
    cueStr: Option<string>, renamed: Option<string>)

  /** Nothing collected yet; `cueStr` is not bound. */
  const NothingGathered := Gathered([], [], [], [], [], [], [], [], None, None)

  /** `cueStr` after a header field is looked up: the value read, if any. */
  function Latest(cueStr: Option<string>, v: Option<string>): Option<string> {
    if v.Some? then v else cueStr
  }

  /** A header value is kept when it is not empty. */
  function Kept(v: Option<string>): (r: seq<string>)
    ensures |r| <= 1 && forall w :: w in r ==> |w| > 0
  {
    if v.Some? && |v.value| > 0 then [v.value] else []
  }

  /** A `REM DATE` value is kept when it is a number in 1..`NOW_YEAR`
      (Audite.py:1880-1887). */
  function CueYear(v: Option<string>, nowYear: int): (r: seq<nat>)
    ensures |r| <= 1 && forall y :: y in r ==> 0 < y <= nowYear
  {
    if v.Some? && IsNumeric(v.value) && 0 < NatOf(v.value) <= nowYear then [NatOf(v.value)] else []
  }

  /** The track total of a sub-album cuesheet (Audite.py:1915-1928): the
      number after the last `TRACK `, with no range check, or 0 when there
      is none. */
  function ComplexTrackTotal(text: string): (r: Result<nat>)
    ensures r.Err? <==> Cuesheet.LastTrackNumber(text).Err?
    ensures r.Ok? && r.value > 0 ==> Cuesheet.LastTrackNumber(text) == Ok(Some(r.value))
    ensures Cuesheet.LastTrackNumber(text) == Ok(None) ==> r == Ok(0)
  {
    var n :- Cuesheet.LastTrackNumber(text);
    Ok(if n.Some? then n.value else 0)
  }

  /** The header of a sub-album cuesheet (Audite.py:1871-1913), in the
      source's order: title, date, genre, performer and, when composers are
      allowed, `COMPOSER `. */
  datatype SubHeader = SubHeader(
    title: Option<string>, date: Option<string>, genre: Option<string>, performer: Option<string>,
    composer: Option<string>)

  function ReadSubHeader(text: string, allowComposer: bool): (r: Result<SubHeader>)
    ensures r.Ok? ==> (r.value.title.Some? <==> Find(text, "TITLE ", 0) >= 0)
    ensures r.Ok? ==> (r.value.performer.Some? <==> Find(text, "PERFORMER ", 0) >= 0)
    ensures r.Ok? ==> (r.value.composer.Some? <==> allowComposer && Find(text, "COMPOSER ", 0) >= 0)
  {
    var t :- Cuesheet.HeaderField(text, "TITLE ");
    var d :- Cuesheet.HeaderField(text, "REM DATE ");
    var g :- Cuesheet.HeaderField(text, "REM GENRE ");
    var p :- Cuesheet.HeaderField(text, "PERFORMER ");
    var c :- if allowComposer then Cuesheet.HeaderField(text, "COMPOSER ") else Ok(None);
    Ok(SubHeader(t, d, g, p, c))
  }

  /** `cueStr` after the header: the last value read. */
  function HeaderCueStr(cueStr: Option<string>, h: SubHeader): Option<string> {
    Latest(Latest(Latest(Latest(Latest(cueStr, h.title), h.date), h.genre), h.performer), h.composer)
  }

  /** One cuesheet that is not empty (Audite.py:1867-2029). */
  function ReadSubCue(text: string, g: Gathered, s: Albums.Settings): Result<Gathered> {
    var h :- ReadSubHeader(text, s.cfg.allowComposer);
    var total :- ComplexTrackTotal(text);
    var w :- Cuesheet.Walk(text, Cuesheet.Complex, Albums.Coercer(s.noCaps), total,
                           Cuesheet.Start(HeaderCueStr(g.cueStr, h)));
    Ok(Gathered(
      g.titles + (if h.title.Some? && |h.title.value| > 0 then [Titles.CoercedTitle(h.title.value, s.noCaps)] else []),
      g.years + CueYear(h.date, s.cfg.nowYear),
      g.genres + Kept(h.genre), g.artists + Kept(h.performer), g.composers + Kept(h.composer),
      g.totals + [|w.entries|], g.entries + [w.entries], g.indexes + [w.indexes],
      w.cueStr, if w.renamed.Some? then w.renamed else g.renamed))
  }

  /** One pass of the loop over the cuesheets: an empty cuesheet adds
      nothing. */
  function GatherStep(g: Result<Gathered>, text: string, s: Albums.Settings): Result<Gathered> {
    if g.Err? then g else if |text| == 0 then g else ReadSubCue(text, g.value, s)
  }

  /** The loop over the cuesheets as a value. */
  function Gather(texts: seq<string>, s: Albums.Settings): Result<Gathered> {
    if texts == [] then Ok(NothingGathered)
    else GatherStep(Gather(texts[..|texts| - 1], s), texts[|texts| - 1], s)
  }

  lemma GatherPrefix(texts: seq<string>, i: nat, s: Albums.Settings)
    requires i < |texts|
    ensures Gather(texts[..i + 1], s) == GatherStep(Gather(texts[..i], s), texts[i], s)
  {
    assert texts[..i + 1][..i] == texts[..i];
  }

  /** The loop over the cuesheets (Audite.py:1863-2029). */
  method GatherCues(texts: seq<string>, s: Albums.Settings) returns (r: Result<Gathered>)
    ensures r == Gather(texts, s)
  {
    var g := NothingGathered;
    var i := 0;
    while i < |texts|
      invariant i <= |texts| && Gather(texts[..i], s) == Ok(g)
    {
      GatherPrefix(texts, i, s);
      if |texts[i]| > 0 {
        var n := ReadSubCue(texts[i], g, s);
        if n.Err? {
          GatherErrStays(texts, i + 1, s);
          return n;
        }
        g := n.value;
      }
      i := i + 1;
    }
    assert texts[..i] == texts;
    return Ok(g);
  }

  /** A cuesheet that cannot be read ends the loop. */
  lemma {:induction false} GatherErrStays(texts: seq<string>, i: nat, s: Albums.Settings)
    requires i <= |texts| && Gather(texts[..i], s).Err?
    ensures Gather(texts, s) == Gather(texts[..i], s)
    decreases |texts| - i
  {
    if i == |texts| {
      assert texts[..i] == texts;
    } else {
      GatherPrefix(texts, i, s);
      GatherErrStays(texts, i + 1, s);
    }
  }

  /** What always holds of the collected values: one track total, entry
      list and INDEX list per cuesheet read, each total the number of
      entries, one or two INDEX times per entry, every entry in normal form,
      every year in 1..`NOW_YEAR`, and no empty performer, composer or
      genre. */
  ghost predicate GatherInv(g: Gathered, nowYear: int) {
    && |g.totals| == |g.entries| == |g.indexes|
    && (forall k :: 0 <= k < |g.totals| ==> g.totals[k] == |g.entries[k]| == |g.indexes[k]|)
    && (forall k, j :: 0 <= k < |g.indexes| && 0 <= j < |g.indexes[k]| ==> 1 <= |g.indexes[k][j]| <= 2)
    && (forall k, j :: 0 <= k < |g.entries| && 0 <= j < |g.entries[k]| ==> Strip(g.entries[k][j]) == g.entries[k][j])
    && (forall y :: y in g.years ==> 0 < y <= nowYear)
    && (forall w :: w in g.artists + g.composers + g.genres ==> |w| > 0)
  }

  /** Reading one cuesheet keeps the invariant and adds one entry list, no
      longer than the track total the cuesheet announces. */
  lemma ReadSubCueInv(text: string, g: Gathered, s: Albums.Settings)
    requires GatherInv(g, s.cfg.nowYear)
    ensures var r := ReadSubCue(text, g, s);
      r.Ok? ==> (GatherInv(r.value, s.cfg.nowYear) && |r.value.totals| == |g.totals| + 1 &&
                 r.value.totals[..|g.totals|] == g.totals &&
                 r.value.totals[|g.totals|] <= ComplexTrackTotal(text).value)
  {
    var r := ReadSubCue(text, g, s);
    if r.Ok? {
      var h := ReadSubHeader(text, s.cfg.allowComposer).value;
      var total := ComplexTrackTotal(text).value;
      var coerce := Albums.Coercer(s.noCaps);
      var start := Cuesheet.Start(HeaderCueStr(g.cueStr, h));
      Cuesheet.WalkFromStart(text, Cuesheet.Complex, coerce, total, HeaderCueStr(g.cueStr, h));
      var w := Cuesheet.Walk(text, Cuesheet.Complex, coerce, total, start).value;
      Cuesheet.WalkEntriesNormal(text, Cuesheet.Complex, s.noCaps, w);
      GatherInvStep(g, r.value, w.entries, w.indexes, s.cfg.nowYear);
    }
  }

  /** Appending one entry list with its INDEX times keeps the invariant. */
  lemma GatherInvStep(g: Gathered, n: Gathered, entries: seq<string>, indexes: seq<seq<string>>, nowYear: int)
    requires GatherInv(g, nowYear)
    requires |indexes| == |entries| && forall j :: 0 <= j < |indexes| ==> 1 <= |indexes[j]| <= 2
    requires forall j :: 0 <= j < |entries| ==> Strip(entries[j]) == entries[j]
    requires n.totals == g.totals + [|entries|] && n.entries == g.entries + [entries] && n.indexes == g.indexes + [indexes]
    requires forall y :: y in n.years ==> y in g.years || 0 < y <= nowYear
    requires forall w :: w in n.artists + n.composers + n.genres ==> w in g.artists + g.composers + g.genres || |w| > 0
    ensures GatherInv(n, nowYear)
  {
    var last := |g.totals|;
    forall k | 0 <= k < |n.totals|
      ensures n.totals[k] == |n.entries[k]| == |n.indexes[k]|
    {
      if k < last {
        assert n.totals[k] == g.totals[k] && n.entries[k] == g.entries[k] && n.indexes[k] == g.indexes[k];
      }
    }
    forall k, j | 0 <= k < |n.indexes| && 0 <= j < |n.indexes[k]|
      ensures 1 <= |n.indexes[k][j]| <= 2
    {
      if k < last { assert n.indexes[k] == g.indexes[k]; } else { assert n.indexes[k] == indexes; }
    }
    forall k, j | 0 <= k < |n.entries| && 0 <= j < |n.entries[k]|
      ensures Strip(n.entries[k][j]) == n.entries[k][j]
    {
      if k < last { assert n.entries[k] == g.entries[k]; } else { assert n.entries[k] == entries; }
    }
  }

  /** Everything `Gather` returns satisfies the invariant, with at most one
      track total per cuesheet. */
  lemma {:induction false} GatherKeepsInv(texts: seq<string>, s: Albums.Settings)
    ensures var r := Gather(texts, s);
      r.Ok? ==> GatherInv(r.value, s.cfg.nowYear) && |r.value.totals| <= |texts|
  {
    if texts != [] {
      var front := texts[..|texts| - 1];
      GatherKeepsInv(front, s);
      var g := Gather(front, s);
      if g.Ok? && |texts[|texts| - 1]| > 0 {
        ReadSubCueInv(texts[|texts| - 1], g.value, s);
      }
    }
  }

  // ---------------------------------------------------------------------------
  // Merging what the cuesheets say (Audite.py:2032-2103)
  // ---------------------------------------------------------------------------

  /** The loop keeping the first of the longest strings: `best` is replaced
      only by a strictly longer one. */
  function LongestFrom(best: string, vs: seq<string>): (r: string)
    ensures r == best || r in vs
    ensures |best| <= |r| && forall v :: v in vs ==> |v| <= |r|
  {
    if vs == [] then best
    else
      var front := vs[..|vs| - 1];
      var b := LongestFrom(best, front);
      assert forall v :: v in vs ==> v in front || v == vs[|vs| - 1];
      if |vs[|vs| - 1]| > |b| then vs[|vs| - 1] else b
  }

  /** A result longer than the start is the first value of its length. */
  lemma {:induction false} LongestFromFirst(best: string, vs: seq<string>)
    ensures var r := LongestFrom(best, vs);
      |r| > |best| ==> exists k :: 0 <= k < |vs| && vs[k] == r && forall j :: 0 <= j < k ==> |vs[j]| < |r|
  {
    if vs != [] {
      var front := vs[..|vs| - 1];
      var b := LongestFrom(best, front);
      var r := LongestFrom(best, vs);
      LongestFromFirst(best, front);
      if r == b && |b| > |best| {
        var k :| 0 <= k < |front| && front[k] == b && forall j :: 0 <= j < k ==> |front[j]| < |b|;
        assert vs[k] == b && forall j :: 0 <= j < k ==> vs[j] == front[j];
      } else if r != b {
        var k := |vs| - 1;
        assert forall j :: 0 <= j < k ==> vs[j] in front;
      }
    }
  }

  /** When every value agrees, the merge yields that value: the case of a
      single distinct performer or composer. */
  lemma {:induction false} LongestOfAgreeing(vs: seq<string>, a: string)
    requires |vs| > 0 && |a| > 0 && forall v :: v in vs ==> v == a
    ensures LongestFrom("", vs) == a
  {
    var front := vs[..|vs| - 1];
    if front != [] {
      assert forall v :: v in front ==> v in vs;
      LongestOfAgreeing(front, a);
    }
  }

  /** A performer or composer still empty becomes the longest value found
      in the cuesheets (Audite.py:2033-2056). */
  function MergedPerson(current: string, found: seq<string>): (r: string)
    ensures |current| > 0 ==> r == current
    ensures |current| == 0 && found == [] ==> r == ""
    ensures |current| == 0 ==> (r == "" || r in found) && forall v :: v in found ==> |v| <= |r|
  {
    if |current| > 0 then current else LongestFrom("", found)
  }

  /** The album title the cuesheet titles suggest (Audite.py:2062-2074): their
      common prefix or else their common suffix, stripped and coerced, or
      else the first of the longest. */
  function CueAlbumTitle(titles: seq<string>, noCaps: bool): (r: string)
    requires |titles| > 0
  {
    var pref := FileNames.CommonPrefixOf(titles);
    var post := FileNames.CommonPostfixOf(titles);
    if |pref| > 0 then Titles.CoercedTitle(Strip(pref), noCaps)
    else if |post| > 0 then Titles.CoercedTitle(Strip(post), noCaps)
    else LongestFrom(titles[0], titles[1..])
  }

  /** Cuesheet titles that all begin with the same text give that text as
      the album title, and with no common edge the longest title is taken. */
  lemma CueAlbumTitleCases(titles: seq<string>, noCaps: bool)
    requires |titles| > 0
    ensures var pref := FileNames.CommonPrefixOf(titles);
      |pref| > 0 ==> FileNames.AllStartWith(titles, pref) &&
                     CueAlbumTitle(titles, noCaps) == Titles.CoercedTitle(Strip(pref), noCaps)
    ensures var t := CueAlbumTitle(titles, noCaps);
      |FileNames.CommonPrefixOf(titles)| == 0 && |FileNames.CommonPostfixOf(titles)| == 0 ==>
        t in titles && forall v :: v in titles ==> |v| <= |t|
  {
    FileNames.CommonPrefixOfIsLongest(titles);
    assert titles[0] in titles;
    assert forall v :: v in titles[1..] ==> v in titles;
    assert forall v :: v in titles ==> v == titles[0] || v in titles[1..];
  }

  /** Removing the sub-albums' common prefix or suffix `delStr` from the
      album title (Audite.py:2075-2085): the title is cut, stripped, and
      loses one more non-letter at the cut edge; a title left empty stops
      the run at `title[-1]` or `title[0]`. */
  function CutAffix(title: string, delStr: string): (r: Result<string>)
    ensures |delStr| == 0 ==> r == Ok(title)
    ensures r.Ok? && EndsWith(title, delStr) ==> |r.value| + |delStr| <= |title| && r.value == title[..|r.value|]
    ensures r.Ok? && StartsWith(title, delStr) && !EndsWith(title, delStr) ==>
      |r.value| + |delStr| <= |title| && r.value == title[|title| - |r.value|..]
    ensures !EndsWith(title, delStr) && !StartsWith(title, delStr) ==> r == Ok(title)
  {
    if |delStr| == 0 then Ok(title)
    else if EndsWith(title, delStr) then CutEnd(title[..|title| - |delStr|])
    else if StartsWith(title, delStr) then CutStart(title[|delStr|..])
    else Ok(title)
  }

  /** The title left of a suffix, stripped, without a last non-letter. */
  function CutEnd(t0: string): (r: Result<string>)
    ensures r.Ok? ==> |r.value| <= |t0| && r.value == t0[..|r.value|]
  {
    var t := RStrip(t0);
    if |t| == 0 then Err(IndexOutOfRange)
    else if !IsAlpha(t[|t| - 1]) then
      var u := RStrip(t[..|t| - 1]);
      assert u == t[..|u|];
      Ok(u)
    else Ok(t)
  }

  /** The title right of a prefix, stripped, without a first non-letter. */
  function CutStart(t0: string): (r: Result<string>)
    ensures r.Ok? ==> |r.value| <= |t0| && r.value == t0[|t0| - |r.value|..]
  {
    var t := LStrip(t0);
    if |t| == 0 then Err(IndexOutOfRange)
    else if !IsAlpha(t[0]) then Ok(LStrip(t[1..]))
    else Ok(t)
  }

  /** A title made only of the common text, give or take blanks, stops the
      run. */
  lemma CutAffixOfAffix(pad: string, delStr: string)
    requires |delStr| > 0 && forall i :: 0 <= i < |pad| ==> IsSpace(pad[i])
    ensures CutAffix(pad + delStr, delStr) == Err(IndexOutOfRange)
  {
    var title := pad + delStr;
    assert title[|title| - |delStr|..] == delStr;
    assert title[..|title| - |delStr|] == pad;
  }

  /** `X - delStr` loses ` - delStr` when `X` ends in a letter. */
  lemma CutAffixOfSuffixed(x: string, delStr: string)
    requires |delStr| > 0 && |x| > 0 && IsAlpha(x[|x| - 1])
    ensures CutAffix(x + " - " + delStr, delStr) == Ok(x)
  {
    var title := x + " - " + delStr;
    assert title[|title| - |delStr|..] == delStr;
    assert title[..|title| - |delStr|] == x + " " + ['-'] + " ";
    CutEndOfMarked(x, " ", '-', " ");
  }

  /** `delStr - X` loses `delStr - ` when `X` starts with a letter and the
      title does not also end with `delStr`. */
  lemma CutAffixOfPrefixed(x: string, delStr: string)
    requires |delStr| > 0 && |x| > 0 && IsAlpha(x[0])
    requires !EndsWith(delStr + " - " + x, delStr)
    ensures CutAffix(delStr + " - " + x, delStr) == Ok(x)
  {
    var title := delStr + " - " + x;
    assert title[..|delStr|] == delStr;
    assert title[|delStr|..] == " " + ['-'] + " " + x;
    CutStartOfMarked(" ", '-', " ", x);
  }

  /** Blanks, one mark that is neither a letter nor a blank, blanks and a
      text starting with a letter: the text is what is left. */
  lemma CutStartOfMarked(pad: string, c: char, pad2: string, x: string)
    requires forall i :: 0 <= i < |pad| ==> IsSpace(pad[i])
    requires forall i :: 0 <= i < |pad2| ==> IsSpace(pad2[i])
    requires !IsAlpha(c) && !IsSpace(c) && |x| > 0 && IsAlpha(x[0])
    ensures CutStart(pad + [c] + pad2 + x) == Ok(x)
  {
    var rest := pad2 + x;
    var t := [c] + rest;
    assert pad + [c] + pad2 + x == pad + t;
    LStripPadded(pad, t);
    assert t[0] == c && t[1..] == rest;
    LStripPadded(pad2, x);
    assert LStrip(pad + t) == t && LStrip(t[1..]) == x;
  }

  /** A text ending in a letter, blanks, one mark that is neither a letter
      nor a blank, and blanks: the text is what is left. */
  lemma CutEndOfMarked(x: string, pad2: string, c: char, pad: string)
    requires forall i :: 0 <= i < |pad| ==> IsSpace(pad[i])
    requires forall i :: 0 <= i < |pad2| ==> IsSpace(pad2[i])
    requires !IsAlpha(c) && !IsSpace(c) && |x| > 0 && IsAlpha(x[|x| - 1])
    ensures CutEnd(x + pad2 + [c] + pad) == Ok(x)
  {
    var t := x + pad2 + [c];
    assert x + pad2 + [c] + pad == t + pad;
    RStripPadded(t, pad);
    assert t[..|t| - 1] == x + pad2;
    RStripPadded(x, pad2);
  }

  /** Python's `round(a / n)` for a mean of whole numbers: the nearest
      whole number, ties going to the even one. */
  function RoundHalfEven(a: nat, n: nat): (r: nat)
    requires n > 0
    ensures 2 * (r * n) <= 2 * a + n && 2 * a <= 2 * (r * n) + n
    ensures (2 * (r * n) == 2 * a + n || 2 * a == 2 * (r * n) + n) ==> r % 2 == 0
  {
    var q := a / n;
    var m := a % n;
    var r := if 2 * m < n then q else if 2 * m > n then q + 1 else if q % 2 == 0 then q else q + 1;
    RoundingError(a, n, q, m, r);
    r
  }

  /** `q` or `q + 1` is within half of `n` of `a = q * n + m`, and exactly
      half only when `2 * m == n`. */
  lemma RoundingError(a: nat, n: nat, q: nat, m: nat, r: nat)
    requires n > 0 && a == q * n + m && m < n
    requires r == q || r == q + 1
    requires (r == q ==> 2 * m <= n) && (r == q + 1 ==> 2 * m >= n)
    ensures 2 * (r * n) <= 2 * a + n && 2 * a <= 2 * (r * n) + n
    ensures (2 * (r * n) == 2 * a + n || 2 * a == 2 * (r * n) + n) ==> 2 * m == n
  {
    if r == q + 1 {
      assert r * n == q * n + n;
    }
  }

  /** Years in 1..`hi` sum to between one and `hi` per year. */
  lemma {:induction false} SumBounds(xs: seq<nat>, hi: nat)
    requires forall x :: x in xs ==> 0 < x <= hi
    ensures |xs| <= Sum(xs) <= |xs| * hi
  {
    if xs != [] {
      var front := xs[..|xs| - 1];
      assert forall x :: x in front ==> x in xs;
      assert xs[|xs| - 1] in xs;
      SumBounds(front, hi);
      MulSucc(|front|, hi);
    }
  }

  lemma MulSucc(a: nat, b: nat)
    ensures (a + 1) * b == a * b + b
  {
  }

  /** The rounded mean of the cuesheet years is itself a year in
      1..`NOW_YEAR`. */
  lemma MeanYearInRange(years: seq<nat>, nowYear: nat)
    requires |years| > 0 && forall y :: y in years ==> 0 < y <= nowYear
    ensures 0 < RoundHalfEven(Sum(years), |years|) <= nowYear
  {
    SumBounds(years, nowYear);
    RoundedMeanBounds(Sum(years), |years|, nowYear);
  }

  /** Rounding a mean of values in 1..`hi` stays in 1..`hi`. */
  lemma RoundedMeanBounds(a: nat, n: nat, hi: nat)
    requires 0 < n <= a <= n * hi
    ensures 0 < RoundHalfEven(a, n) <= hi
  {
    var r := RoundHalfEven(a, n);
    MulAbove(r, n, hi);
  }

  /** A factor 0 gives 0, and one above `hi` at least `hi * n + n`. */
  lemma MulAbove(r: nat, n: nat, hi: nat)
    ensures r == 0 ==> r * n == 0
    ensures r > hi ==> r * n >= hi * n + n
  {
    if r > hi {
      MulMonotone(hi + 1, r, n);
      MulSucc(hi, n);
    }
  }

  lemma MulMonotone(x: nat, y: nat, n: nat)
    requires x <= y
    ensures x * n <= y * n
  {
    assert y * n == x * n + (y - x) * n;
  }

  /** One character of Python's `str.title`: a letter after a letter is
      lower-cased, any other letter upper-cased. */
  function TitleChar(s: string, i: nat): char
    requires i < |s|
  {
    if !IsAlpha(s[i]) then s[i]
    else if i > 0 && IsAlpha(s[i - 1]) then Lower(s[i])
    else Upper(s[i])
  }

  /** Python's `str.title` on ASCII text. */
  function TitleCase(s: string): (r: string)
    ensures |r| == |s| && forall i :: 0 <= i < |s| ==> IsAlpha(r[i]) == IsAlpha(s[i]) && IsSpace(r[i]) == IsSpace(s[i])
    ensures forall i :: 0 <= i < |s| ==> Lower(r[i]) == Lower(s[i])
  {
    var r := seq(|s|, i requires 0 <= i < |s| => TitleChar(s, i));
    assert forall i :: 0 <= i < |s| ==> IsSpace(r[i]) == IsSpace(s[i]) && Lower(r[i]) == Lower(s[i]) by {
      forall i | 0 <= i < |s| ensures IsSpace(r[i]) == IsSpace(s[i]) && Lower(r[i]) == Lower(s[i]) {
        FoldFacts(s[i]);
      }
    }
    r
  }

  /** A title-cased text is left alone by a second `str.title`. */
  lemma TitleCaseIdempotent(s: string)
    ensures TitleCase(TitleCase(s)) == TitleCase(s)
  {
    var t := TitleCase(s);
    forall i | 0 <= i < |t|
      ensures TitleCase(t)[i] == t[i]
    {
      FoldFacts(s[i]);
    }
  }

  /** The list without its repeats, first occurrences first: Python's
      `list(set(xs))` up to order. */
  function Distinct(xs: seq<string>): (r: seq<string>)
    ensures forall x :: x in r <==> x in xs
    ensures forall i, j :: 0 <= i < j < |r| ==> r[i] != r[j]
  {
    if xs == [] then []
    else
      var front := xs[..|xs| - 1];
      var d := Distinct(front);
      assert forall x :: x in xs <==> x in front || x == xs[|xs| - 1];
      if xs[|xs| - 1] in d then d else d + [xs[|xs| - 1]]
  }

  /** The genres named in one `REM GENRE` value: its comma-separated pieces,
      stripped and title-cased. */
  function GenrePieces(g: string): (r: seq<string>)
    ensures |r| == |SplitOn(g, ',')|
  {
    var ps := SplitOn(g, ',');
    seq(|ps|, k requires 0 <= k < |ps| => TitleCase(Strip(ps[k])))
  }

  function GenreParts(genres: seq<string>): seq<string> {
    if genres == [] then [] else GenreParts(genres[..|genres| - 1]) + GenrePieces(genres[|genres| - 1])
  }

  /** A genre still empty becomes the distinct genres of every cuesheet,
      joined with ", " (Audite.py:2094-2103). */
  function MergedGenre(current: string, genres: seq<string>): (r: string)
    ensures |current| > 0 || genres == [] ==> r == current
  {
    if |current| > 0 || genres == [] then current
    else Join(Distinct(GenreParts(genres)), ", ")
  }

  /** Every cuesheet naming the same single genre gives that genre in title
      case. */
  lemma MergedGenreOfAgreeing(genres: seq<string>, g: string)
    requires |genres| > 0 && ',' !in g && forall v :: v in genres ==> v == g
    ensures MergedGenre("", genres) == TitleCase(Strip(g))
  {
    var t := TitleCase(Strip(g));
    SplitNoSep(g, ',');
    assert GenrePieces(g) == [t];
    GenrePartsOfAgreeing(genres, g, t);
    DistinctOfAgreeing(GenreParts(genres), t);
  }

  /** A list holding only `t`, at least once, has `[t]` as its distinct
      values. */
  lemma {:induction false} DistinctOfAgreeing(xs: seq<string>, t: string)
    requires t in xs && forall x :: x in xs ==> x == t
    ensures Distinct(xs) == [t]
  {
    var front := xs[..|xs| - 1];
    assert xs[|xs| - 1] == t by { assert xs[|xs| - 1] in xs; }
    if front != [] {
      assert forall x :: x in front ==> x in xs;
      assert front[0] in front;
      DistinctOfAgreeing(front, t);
    }
  }

  lemma {:induction false} GenrePartsOfAgreeing(genres: seq<string>, g: string, t: string)
    requires |genres| > 0 && GenrePieces(g) == [t] && forall v :: v in genres ==> v == g
    ensures t in GenreParts(genres) && forall x :: x in GenreParts(genres) ==> x == t
  {
    var front := genres[..|genres| - 1];
    assert genres[|genres| - 1] == g by { assert genres[|genres| - 1] in genres; }
    assert GenreParts(genres) == GenreParts(front) + [t];
    if front != [] {
      assert forall v :: v in front ==> v in genres;
      GenrePartsOfAgreeing(front, g, t);
    }
  }

  /** A title still empty becomes the one the cuesheet titles suggest, less
      the sub-albums' common prefix or suffix (Audite.py:2058-2086). */
  function MergedTitle(current: string, titles: seq<string>, subNames: seq<string>, noCaps: bool): (r: Result<string>)
    requires |subNames| > 0
    ensures |current| > 0 || titles == [] ==> r == Ok(current)
    ensures r.Err? ==> |current| == 0 && |titles| > 0
  {
    if |current| == 0 && |titles| > 0 then
      CutAffix(CueAlbumTitle(titles, noCaps), FileNames.CommonPrefixOf(subNames) + FileNames.CommonPostfixOf(subNames))
    else Ok(current)
  }

  /** A year still 0 becomes the rounded mean of the cuesheet years
      (Audite.py:2087-2093). */
  function MergedYear(current: int, years: seq<nat>): (r: int)
    ensures current != 0 || years == [] ==> r == current
  {
    if current == 0 && |years| > 0 then RoundHalfEven(Sum(years), |years|) else current
  }

  /** The merge of the collected cuesheet values into the album facts
      (Audite.py:2032-2103): each field still unknown is filled in, and the
      name follows a title taken from the cuesheets. */
  function MergeCues(f: Albums.Facts, g: Gathered, subNames: seq<string>, s: Albums.Settings): (r: Result<Albums.Facts>)
    requires |subNames| > 0
    ensures r.Ok? ==> Albums.Keeps(f, r.value)
    ensures r.Ok? && (|f.title| > 0 || g.titles == []) ==> r.value.name == f.name
    ensures r.Ok? && |f.title| == 0 && |g.titles| > 0 ==> r.value.name == Safety.EnsureStringSafety(r.value.title)
    ensures r.Err? ==> |f.title| == 0 && |g.titles| > 0
  {
    var title :- MergedTitle(f.title, g.titles, subNames, s.noCaps);
    Ok(Albums.Facts(
      MergedYear(f.year, g.years),
      if |f.title| == 0 && |g.titles| > 0 then Safety.EnsureStringSafety(title) else f.name,
      title,
      MergedPerson(f.artist, g.artists),
      MergedPerson(f.composer, g.composers),
      MergedGenre(f.genre, g.genres)))
  }

  /** After the merge the year is still 0 or a year from a cuesheet in
      1..`NOW_YEAR` when it was unknown before. */
  lemma MergeCuesYear(f: Albums.Facts, g: Gathered, subNames: seq<string>, s: Albums.Settings)
    requires |subNames| > 0 && GatherInv(g, s.cfg.nowYear) && s.cfg.nowYear >= 0
    ensures var r := MergeCues(f, g, subNames, s);
      r.Ok? && f.year == 0 ==> 0 <= r.value.year <= s.cfg.nowYear
  {
    if f.year == 0 && |g.years| > 0 {
      MeanYearInRange(g.years, s.cfg.nowYear);
    }
  }

  // ---------------------------------------------------------------------------
  // The settings, the directory name and the root directory
  // (Audite.py:1784-1795, 2104-2153)
  // ---------------------------------------------------------------------------

  /** The facts the settings fix (Audite.py:1784-1795); unlike the flat
      album, the composer is taken only when composers are allowed. */
  function ComplexOverrides(s: Albums.Settings): (f: Albums.Facts)
    ensures s.cfg.allowComposer ==> f == Albums.Overrides(s)
    ensures !s.cfg.allowComposer ==> f == Albums.Overrides(s).(composer := "")
  {
    Albums.Facts(s.albumYear, Safety.EnsureStringSafety(s.albumTitle), s.albumTitle, s.bandName,
                 if s.cfg.allowComposer then s.composerName else "", s.albumGenre)
  }

  /** The guess from the directory name (Audite.py:2108-2129), made while the
      title or the year is unknown: the text before the first dash gives a
      year in 0..`NOW_YEAR` (one above it counts as 0), the text after it
      the title; a name without a dash is all title. */
  function ComplexDirGuess(dirName: string, f: Albums.Facts, nowYear: int, noCaps: bool): (g: Albums.Facts)
    ensures Albums.Keeps(f, g) && (|f.title| > 0 ==> g.name == f.name)
    ensures g.artist == f.artist && g.composer == f.composer && g.genre == f.genre
    ensures f.year == 0 && nowYear >= 0 ==> 0 <= g.year <= nowYear
    ensures |f.title| > 0 && f.year != 0 ==> g == f
  {
    if |f.title| > 0 && f.year != 0 then f
    else
      var dash := Find(dirName, "-", 0);
      if dash < 0 then
        if |f.title| == 0 then Retitled(f, Strip(dirName), noCaps) else f
      else
        var year := DirYear(Strip(dirName[..dash]), f.year, nowYear);
        if |f.title| == 0 then Retitled(f.(year := year), Strip(dirName[dash + 1..]), noCaps)
        else f.(year := year)
  }

  /** The year before the dash: taken when the year is unknown and the text
      is a number, and reset to 0 above `NOW_YEAR`. */
  function DirYear(txtDate: string, year: int, nowYear: int): (y: int)
    ensures year != 0 ==> y == year
    ensures year == 0 && nowYear >= 0 ==> 0 <= y <= nowYear
    ensures year == 0 && IsNumeric(txtDate) && NatOf(txtDate) <= nowYear ==> y == NatOf(txtDate)
  {
    if IsNumeric(txtDate) && year == 0 then (if NatOf(txtDate) > nowYear then 0 else NatOf(txtDate)) else year
  }

  /** The title coerced from `text`, with the name that follows it. */
  function Retitled(f: Albums.Facts, text: string, noCaps: bool): (g: Albums.Facts)
    ensures g == f.(title := g.title, name := g.name)
    ensures g.title == Titles.CoercedTitle(text, noCaps) && g.name == Safety.EnsureStringSafety(g.title)
  {
    var t := Titles.CoercedTitle(text, noCaps);
    f.(title := t, name := Safety.EnsureStringSafety(t))
  }

  /** `YYYY - Title` gives both the year and the title. */
  lemma ComplexDirGuessOfDated(d: string, rest: string, f: Albums.Facts, nowYear: int, noCaps: bool)
    requires IsNumeric(d) && NatOf(d) <= nowYear && f.year == 0 && |f.title| == 0
    ensures var g := ComplexDirGuess(d + " - " + rest, f, nowYear, noCaps);
      g.year == NatOf(d) && g.title == Titles.CoercedTitle(Strip(rest), noCaps)
  {
    DatedParts(d, rest);
  }

  /** Where `YYYY - Title` splits, and its two stripped halves. */
  lemma DatedParts(d: string, rest: string)
    requires IsNumeric(d)
    ensures var dirName := d + " - " + rest;
      && Find(dirName, "-", 0) == |d| + 1
      && Strip(dirName[..|d| + 1]) == d
      && Strip(dirName[|d| + 2..]) == Strip(rest)
  {
    var dirName := d + " - " + rest;
    assert '-' !in d + " " by {
      forall i | 0 <= i < |d + " "| ensures (d + " ")[i] != '-' {
        if i < |d| { assert IsDigit(d[i]); }
      }
    }
    assert dirName == (d + " ") + ['-'] + (" " + rest);
    FindCharAfter(d + " ", '-', " " + rest);
    StripPadded("", d, " ");
    assert "" + d + " " == d + " ";
    StripOfBlankPrefixed(rest);
  }

  /** A blank in front changes nothing after `strip`. */
  lemma StripOfBlankPrefixed(x: string)
    ensures Strip(" " + x) == Strip(x)
  {
    assert (" " + x)[1..] == x;
  }

  /** An artist still unknown is the name of the directory holding the album
      (Audite.py:2135-2138), even when that name is empty. */
  function ComplexRootArtist(rootName: string, f: Albums.Facts): (g: Albums.Facts)
    ensures Albums.Keeps(f, g) && g.name == f.name && g.title == f.title && g.year == f.year
    ensures |f.artist| == 0 ==> g.artist == rootName
    ensures |rootName| > 0 ==> g == Albums.RootArtist(rootName, f)
  {
    if |f.artist| == 0 then f.(artist := rootName) else f
  }

  /** The suggested directory name (Audite.py:2140-2150): `YYYY - Name` or
      `Name`, behind the composer or the artist in single-album mode. */
  function ComplexGoodName(f: Albums.Facts, singleAlbum: bool, allowComposer: bool): (r: string)
    ensures f.title != "Misc" ==> r == Albums.GoodDirName(f, singleAlbum, allowComposer)
  {
    var base := if f.year > 0 then ZeroPad(f.year, 4) + " - " + f.name else f.name;
    if singleAlbum && |f.composer| + |f.artist| > 0 then
      (if allowComposer && |f.composer| > 0 then Safety.EnsureStringSafety(f.composer)
       else Safety.EnsureStringSafety(f.artist)) + " - " + base
    else base
  }

  /** The one difference from the flat album: a complex album titled `Misc`
      still gets its artist in front. */
  lemma ComplexGoodNameOfMisc(f: Albums.Facts, allowComposer: bool)
    requires f.title == "Misc" && |f.composer| == 0 && |f.artist| > 0
    ensures Albums.GoodDirName(f, true, allowComposer) != ComplexGoodName(f, true, allowComposer)
    ensures ComplexGoodName(f, true, allowComposer) ==
      Safety.EnsureStringSafety(f.artist) + " - " + Albums.GoodDirName(f, true, allowComposer)
  {
    var base := Albums.GoodDirName(f, true, allowComposer);
    var pre := Safety.EnsureStringSafety(f.artist) + " - ";
    assert |pre + base| > |base|;
  }

  // ---------------------------------------------------------------------------
  // isNormal (Audite.py:2155-2157)
  // ---------------------------------------------------------------------------

  /** `isNormal`: there are sub-albums, their names share a prefix or a
      suffix, and they hold more elements than there are sub-albums. */
  predicate IsNormalFor(numSubs: nat, commPref: string, commPost: string, numElems: nat) {
    numSubs > 0 && (|commPref| > 0 || |commPost| > 0) && numElems > numSubs
  }

  /** Counts adding up to more than one per entry include a count of two or
      more. */
  lemma {:induction false} SumAboveLength(xs: seq<nat>)
    requires Sum(xs) > |xs|
    ensures exists k :: 0 <= k < |xs| && xs[k] >= 2
  {
    var front := xs[..|xs| - 1];
    if xs[|xs| - 1] >= 2 {
      assert xs[|xs| - 1] >= 2;
    } else {
      SumAboveLength(front);
      var k :| 0 <= k < |front| && front[k] >= 2;
      assert xs[k] == front[k];
    }
  }

  /** In a normal complex album some sub-album holds two elements or more. */
  lemma NormalHasFullSub(subs: seq<SubAlbum>, commPref: string, commPost: string)
    requires IsNormalFor(|subs|, commPref, commPost, |AllSubElems(subs)|)
    ensures exists k :: 0 <= k < |subs| && |subs[k].elems| >= 2
  {
    AllSubElemsCounted(subs);
    var counts := SubCounts(subs);
    SumAboveLength(counts);
    var k :| 0 <= k < |counts| && counts[k] >= 2;
    assert |subs[k].elems| >= 2;
  }

  // ---------------------------------------------------------------------------
  // Flattening (Audite.py:2170-2206)
  // ---------------------------------------------------------------------------

  /** `allSubElems.count(name)`. */
  function CountOf(xs: seq<string>, x: string): nat {
    multiset(xs)[x]
  }

  /** The element's stem and extension as the flattening loop sees them
      (Audite.py:2180-2189): the extension after the last dot, lower-cased,
      unless that dot opens the name; the stem right-stripped; the
      sub-album's name in brackets after a name found in more than one
      sub-album. */
  function FlatParts(elem: string, sub: string, shared: bool): (r: (string, string))
    ensures var dot := RFind(elem, ".");
      dot <= 0 ==> r.1 == "" && r.0 == if shared then elem + " (" + sub + ")" else elem
  {
    var dot := RFind(elem, ".");
    var ext := if dot > 0 then LowerStr(elem[dot..]) else "";
    var stem := if dot > 0 then RStrip(elem[..dot]) else elem;
    (if shared then stem + " (" + sub + ")" else stem, ext)
  }

  /** An old cuesheet is renamed so that it does not compete with the new
      one (Audite.py:2204-2205). */
  function FlatExtension(ext: string): (r: string)
    ensures r == ".cdcue" <==> ext == ".cue" || ext == ".cdcue"
    ensures ext != ".cue" ==> r == ext
  {
    if ext == ".cue" then ".cdcue" else ext
  }

  /** A name with an extension keeps it at the end of its new name,
      lower-cased, with `.cue` turned into `.cdcue`; a name found in more
      than one sub-album has the sub-album's name in brackets right before
      that extension. */
  lemma FlatNameEnding(elem: string, sub: string, shared: bool, base: nat, width: nat)
    requires RFind(elem, ".") > 0
    ensures var ext := LowerStr(elem[RFind(elem, ".")..]);
      var tail := (if ext == ".cue" then ".cdcue" else ext);
      var mark := if shared then " (" + sub + ")" else "";
      EndsWith(FlatName(elem, sub, shared, base, width), mark + tail)
  {
    var stem := FlatStem(elem, sub, shared);
    var mark := if shared then " (" + sub + ")" else "";
    var parts := FlatParts(elem, sub, shared);
    RenumberedKeepsTail(parts.0, stem, mark, base, width);
    SuffixAppend(Renumbered(parts.0, base, width), mark, FlatExtension(parts.1));
  }

  /** The parts of a name with an extension: the stem the digits cannot run
      past, then the bracketed sub-album name of a shared name. */
  lemma FlatStem(elem: string, sub: string, shared: bool) returns (stem: string)
    requires RFind(elem, ".") > 0
    ensures var parts := FlatParts(elem, sub, shared);
      && parts.1 == LowerStr(elem[RFind(elem, ".")..])
      && parts.0 == stem + (if shared then " (" + sub + ")" else "")
      && FileNames.DigitEnd(parts.0, 0) <= |stem|
  {
    stem := RStrip(elem[..RFind(elem, ".")]);
    var name := FlatParts(elem, sub, shared).0;
    if shared {
      MarkedStem(stem, sub, name);
    } else {
      assert name == stem + "";
    }
  }

  lemma MarkedStem(stem: string, sub: string, name: string)
    requires name == stem + " (" + sub + ")"
    ensures name == stem + (" (" + sub + ")") && FileNames.DigitEnd(name, 0) <= |stem|
  {
    assert name[|stem|] == ' ';
  }

  lemma SuffixAppend(r: string, m: string, t: string)
    requires EndsWith(r, m)
    ensures EndsWith(r + t, m + t)
  {
    assert (r + t)[|r + t| - |m + t|..] == r[|r| - |m|..] + t;
  }

  /** Renumbering changes no more of a name than its leading digits, so a
      tail that the digits do not reach is kept. */
  lemma RenumberedKeepsTail(name: string, head: string, tail: string, base: nat, width: nat)
    requires name == head + tail
    requires FileNames.DigitEnd(name, 0) <= |head|
    ensures EndsWith(Renumbered(name, base, width), tail)
  {
    var k := FileNames.DigitEnd(name, 0);
    var r := Renumbered(name, base, width);
    if k > 0 {
      var n := RenumberedIs(name, base, width, k);
      assert name[k..] == head[k..] + tail;
      assert r == ZeroPad(n, width) + head[k..] + tail;
    }
  }

  /** The leading number of a name, shifted by `base` and padded to the
      album's width, in front of the rest of the name; a name without
      leading digits is kept. */
  function Renumbered(name: string, base: nat, width: nat): (r: string)
  {
    var k := FileNames.DigitEnd(name, 0);
    if k == 0 then name
    else
      assert IsNumeric(name[..k]);
      ZeroPad(NatOf(name[..k]) + base, width) + name[k..]
  }

  /** The number a name starts with, when it starts with digits. */
  function LeadingNumber(name: string): (r: Option<nat>) {
    var k := FileNames.DigitEnd(name, 0);
    if k == 0 then None
    else
      assert IsNumeric(name[..k]);
      Some(NatOf(name[..k]))
  }

  /** Renumbering shifts the leading number by `base` and keeps the rest of
      the name; a name without a number is kept as it is. */
  lemma RenumberedShifts(name: string, base: nat, width: nat)
    requires LeadingNumber(name).Some?
    ensures var r := Renumbered(name, base, width);
      && LeadingNumber(r) == Some(LeadingNumber(name).value + base)
      && r[FileNames.DigitEnd(r, 0)..] == name[FileNames.DigitEnd(name, 0)..]
  {
    var k := FileNames.DigitEnd(name, 0);
    var n := RenumberedIs(name, base, width, k);
    var z := ZeroPad(n, width);
    DigitEndOfPadded(z, name[k..]);
    ZeroPadRoundTrip(n, width);
    NumberOfPadded(z, name[k..]);
  }

  lemma RenumberedIs(name: string, base: nat, width: nat, k: nat) returns (n: nat)
    requires k == FileNames.DigitEnd(name, 0) && k > 0
    ensures IsNumeric(name[..k]) && n == NatOf(name[..k]) + base && LeadingNumber(name) == Some(NatOf(name[..k]))
    ensures Renumbered(name, base, width) == ZeroPad(n, width) + name[k..]
    ensures name[k..] == [] || !IsDigit(name[k..][0])
  {
    assert IsNumeric(name[..k]);
    n := NatOf(name[..k]) + base;
  }

  lemma NumberOfPadded(z: string, rest: string)
    requires IsNumeric(z) && FileNames.DigitEnd(z + rest, 0) == |z|
    ensures LeadingNumber(z + rest) == Some(NatOf(z)) && (z + rest)[|z|..] == rest
  {
    assert (z + rest)[..|z|] == z;
  }

  lemma RenumberedKeeps(name: string, base: nat, width: nat)
    requires LeadingNumber(name).None?
    ensures Renumbered(name, base, width) == name
  {
  }

  /** Digits followed by a text that does not start with a digit end where
      the text starts. */
  lemma DigitEndOfPadded(z: string, rest: string)
    requires IsNumeric(z) && (rest == [] || !IsDigit(rest[0]))
    ensures FileNames.DigitEnd(z + rest, 0) == |z|
  {
    if rest == [] {
      assert z + rest == z;
    } else {
      FileNames.DigitEndOf(z, rest);
    }
  }

  /** The new name of one element (Audite.py:2176-2199) as written: when the
      stem is made of digits only, the scan never reaches a non-digit and
      the digits are kept behind the shifted number. */
  function FlatNameAsWritten(elem: string, sub: string, shared: bool, base: nat, width: nat): string {
    var parts := FlatParts(elem, sub, shared);
    var k := FileNames.DigitEnd(parts.0, 0);
    if 0 < k == |parts.0| then Renumbered(parts.0, base, width) + parts.0 + FlatExtension(parts.1)
    else Renumbered(parts.0, base, width) + FlatExtension(parts.1)
  }

  /** The new name of one element with the scan of the leading digits done
      as intended: the number is replaced by the shifted one. */
  function FlatName(elem: string, sub: string, shared: bool, base: nat, width: nat): string {
    var parts := FlatParts(elem, sub, shared);
    Renumbered(parts.0, base, width) + FlatExtension(parts.1)
  }

  /** The two agree unless the stem is a bare number. */
  lemma FlatNameAgrees(elem: string, sub: string, shared: bool, base: nat, width: nat)
    requires var name := FlatParts(elem, sub, shared).0; FileNames.DigitEnd(name, 0) < |name| || name == []
    ensures FlatNameAsWritten(elem, sub, shared, base, width) == FlatName(elem, sub, shared, base, width)
  {
  }

  /** A track file named by its number alone keeps its old number behind the
      new one: `01.flac` in the second sub-album, after ten tracks and with
      a width of two, becomes `1101.flac` instead of `11.flac`. */
  lemma FlatNameOfBareNumber(d: string, base: nat, width: nat)
    requires IsNumeric(d)
    ensures FlatNameAsWritten(d + ".flac", "CD2", false, base, width) == ZeroPad(NatOf(d) + base, width) + d + ".flac"
    ensures FlatName(d + ".flac", "CD2", false, base, width) == ZeroPad(NatOf(d) + base, width) + ".flac"
    ensures FlatNameAsWritten(d + ".flac", "CD2", false, base, width) != FlatName(d + ".flac", "CD2", false, base, width)
  {
    BareNumberParts(d);
    RenumberedBare(d, base, width);
    FlatNamesOfBare(d + ".flac", "CD2", false, d, ".flac", base, width);
    assert |ZeroPad(NatOf(d) + base, width) + d + ".flac"| > |ZeroPad(NatOf(d) + base, width) + ".flac"|;
  }

  /** The two names of an element whose stem is a bare number. */
  lemma FlatNamesOfBare(elem: string, sub: string, shared: bool, name: string, ext: string, base: nat, width: nat)
    requires FlatParts(elem, sub, shared) == (name, ext) && IsNumeric(name)
    ensures FlatNameAsWritten(elem, sub, shared, base, width) == Renumbered(name, base, width) + name + FlatExtension(ext)
    ensures FlatName(elem, sub, shared, base, width) == Renumbered(name, base, width) + FlatExtension(ext)
  {
    DigitEndOfPadded(name, "");
    assert name + "" == name;
  }

  /** A bare number is replaced by the shifted one. */
  lemma RenumberedBare(d: string, base: nat, width: nat)
    requires IsNumeric(d)
    ensures Renumbered(d, base, width) == ZeroPad(NatOf(d) + base, width)
  {
    DigitEndOfPadded(d, "");
    assert d + "" == d;
    assert d[..|d|] == d && d[|d|..] == [];
  }

  lemma BareNumberParts(d: string)
    requires IsNumeric(d)
    ensures FlatParts(d + ".flac", "CD2", false) == (d, ".flac")
  {
    var elem := d + ".flac";
    assert elem == d + "." + "flac";
    FileNames.LastDotOf(d, "flac");
    assert elem[|d|..] == ".flac";
    LowerFlac();
    RStripPadded(d, "");
    assert d + "" == d;
  }

  lemma LowerFlac()
    ensures LowerStr(".flac") == ".flac"
  {
  }


  /** Appending a text that does not start with a digit leaves the leading
      digits alone. */
  lemma {:induction false} DigitEndAppend(a: string, e: string, from: nat)
    requires from <= |a| && (e == [] || !IsDigit(e[0]))
    ensures FileNames.DigitEnd(a + e, from) == FileNames.DigitEnd(a, from)
    decreases |a| - from
  {
    if from < |a| {
      assert (a + e)[from] == a[from];
      if IsDigit(a[from]) {
        DigitEndAppend(a, e, from + 1);
      }
    } else if e == [] {
      assert a + e == a;
    } else {
      assert (a + e)[from] == e[0];
    }
  }

  lemma LeadingNumberAppend(a: string, e: string)
    requires e == [] || !IsDigit(e[0])
    ensures LeadingNumber(a + e) == LeadingNumber(a)
  {
    DigitEndAppend(a, e, 0);
    var k := FileNames.DigitEnd(a, 0);
    assert (a + e)[..k] == a[..k];
  }

  /** An extension is empty or starts with its dot. */
  lemma FlatExtensionShape(elem: string, sub: string, shared: bool)
    ensures var e := FlatExtension(FlatParts(elem, sub, shared).1); e == [] || e[0] == '.'
  {
    var dot := RFind(elem, ".");
    if dot > 0 {
      assert elem[dot..][0] == '.';
    }
  }

  /** A numbered element moves up under its number plus `base`. */
  lemma FlatNameShifts(elem: string, sub: string, shared: bool, base: nat, width: nat)
    requires LeadingNumber(FlatParts(elem, sub, shared).0).Some?
    ensures LeadingNumber(FlatName(elem, sub, shared, base, width)) ==
      Some(LeadingNumber(FlatParts(elem, sub, shared).0).value + base)
  {
    var parts := FlatParts(elem, sub, shared);
    FlatExtensionShape(elem, sub, shared);
    RenumberedShifts(parts.0, base, width);
    LeadingNumberAppend(Renumbered(parts.0, base, width), FlatExtension(parts.1));
  }

  /** The new name of each element of a sub-album, numbers shifted by
      `base`. */
  function ElemRenamer(subName: string, allSubElems: seq<string>, base: nat, width: nat): (f: string -> string)
  {
    (e: string) => FlatName(e, subName, CountOf(allSubElems, e) > 1, base, width)
  }

  /** The renames of one sub-album's elements, numbers shifted by `base`. */
  function SubRenames(sub: SubAlbum, allSubElems: seq<string>, base: nat, width: nat): (r: seq<(string, string)>)
    ensures |r| == |sub.elems|
  {
    RenamesUpTo(sub.elems, ElemRenamer(sub.name, allSubElems, base, width), |sub.elems|)
  }

  /** The old and the new name of each of the first `n` elements. */
  function RenamesUpTo(elems: seq<Albums.DirEntry>, newName: string -> string, n: nat): (r: seq<(string, string)>)
    requires n <= |elems|
    ensures |r| == n
  {
    if n == 0 then [] else RenamesUpTo(elems, newName, n - 1) + [(elems[n - 1].name, newName(elems[n - 1].name))]
  }

  /** Element `j` of the renames. */
  lemma {:induction false} RenamesAt(elems: seq<Albums.DirEntry>, newName: string -> string, n: nat, j: nat)
    requires j < n <= |elems|
    ensures RenamesUpTo(elems, newName, n)[j] == (elems[j].name, newName(elems[j].name))
  {
    if j < n - 1 {
      RenamesAt(elems, newName, n - 1, j);
    }
  }

  /** How one sub-album is renamed for a given base: `SubRenames` with the
      album's shared names and number width fixed. */
  function SubRenamer(allSubElems: seq<string>, width: nat): (f: (SubAlbum, nat) -> seq<(string, string)>)
    ensures forall sub, base :: |f(sub, base)| == |sub.elems|
  {
    (sub: SubAlbum, base: nat) => SubRenames(sub, allSubElems, base, width)
  }

  /** The flattening loop as a value: the elements of sub-album `i` move up
      with their numbers shifted by the track totals of the sub-albums
      before it; a sub-album without a track total stops the run
      (`cueTrackTotals[i]`). */
  function Flatten(subs: seq<SubAlbum>, totals: seq<nat>, rename: (SubAlbum, nat) -> seq<(string, string)>)
    : (r: Result<seq<seq<(string, string)>>>)
    ensures r.Ok? || r == Err(IndexOutOfRange)
    ensures r.Ok? <==> |subs| <= |totals|
    ensures r.Ok? ==> |r.value| == |subs|
  {
    if subs == [] then Ok([])
    else
      var i := |subs| - 1;
      var prev :- Flatten(subs[..i], totals, rename);
      if i < |totals| then Ok(prev + [rename(subs[i], Sum(totals[..i]))])
      else Err(IndexOutOfRange)
  }

  /** Sub-album `i` of the flattening is renamed with base `Sum(totals[..i])`. */
  lemma {:induction false} FlattenAt(subs: seq<SubAlbum>, totals: seq<nat>, rename: (SubAlbum, nat) -> seq<(string, string)>, i: nat)
    requires |subs| <= |totals| && i < |subs|
    ensures Flatten(subs, totals, rename).value[i] == rename(subs[i], Sum(totals[..i]))
  {
    var n := |subs| - 1;
    if i < n {
      FlattenAt(subs[..n], totals, rename, i);
      assert subs[..n][i] == subs[i];
    }
  }

  /** After flattening, element `j` of sub-album `i` is renamed by
      `FlatName` with base `Sum(totals[..i])`; `FlatNameShifts` then gives
      its new number. */
  lemma FlattenRenameAt(subs: seq<SubAlbum>, allSubElems: seq<string>, totals: seq<nat>, width: nat, i: nat, j: nat)
    returns (renames: seq<(string, string)>)
    requires |subs| <= |totals| && i < |subs| && j < |subs[i].elems|
    ensures Flatten(subs, totals, SubRenamer(allSubElems, width)).value[i] == renames
    ensures |renames| == |subs[i].elems|
    ensures var e := subs[i].elems[j].name;
      renames[j] == (e, FlatName(e, subs[i].name, CountOf(allSubElems, e) > 1, Sum(totals[..i]), width))
  {
    var base := Sum(totals[..i]);
    renames := SubRenames(subs[i], allSubElems, base, width);
    FlattenAt(subs, totals, SubRenamer(allSubElems, width), i);
    RenamesAt(subs[i].elems, ElemRenamer(subs[i].name, allSubElems, base, width), |subs[i].elems|, j);
  }

  /** Prefix sums grow. */
  lemma {:induction false} SumPrefixMonotone(xs: seq<nat>, i: nat, j: nat)
    requires i <= j <= |xs|
    ensures Sum(xs[..i]) <= Sum(xs[..j])
    decreases j - i
  {
    if i < j {
      SumStep(xs, j - 1);
      SumPrefixMonotone(xs, i, j - 1);
    }
  }

  /** Numbers 1..`totals[i]` of sub-album `i` land in a block of their own:
      two tracks of different sub-albums never share a new number. */
  lemma ShiftedNumbersDisjoint(totals: seq<nat>, i: nat, i2: nat, t: nat, t2: nat)
    requires i < i2 < |totals| && 1 <= t <= totals[i] && 1 <= t2
    ensures Sum(totals[..i]) + t < Sum(totals[..i2]) + t2
  {
    SumStep(totals, i);
    SumPrefixMonotone(totals, i + 1, i2);
  }

  /** The flattening loop (Audite.py:2170-2206): the elements of each
      sub-album in turn, then `baseIndex += cueTrackTotals[i]`. */
  method FlattenRenames(subs: seq<SubAlbum>, allSubElems: seq<string>, totals: seq<nat>, width: nat)
    returns (r: Result<seq<seq<(string, string)>>>)
    ensures r == Flatten(subs, totals, SubRenamer(allSubElems, width))
  {
    var out: seq<seq<(string, string)>> := [];
    var baseIndex := 0;
    var i := 0;
    while i < |subs|
      invariant i <= |subs| && i <= |totals|
      invariant Flatten(subs[..i], totals, SubRenamer(allSubElems, width)) == Ok(out)
      invariant baseIndex == Sum(totals[..i])
    {
      var renames := RenameSub(subs[i], allSubElems, baseIndex, width);
      if i >= |totals| {
        return Err(IndexOutOfRange);
      }
      assert subs[..i + 1][..i] == subs[..i];
      out := out + [renames];
      SumStep(totals, i);
      baseIndex := baseIndex + totals[i];
      i := i + 1;
    }
    assert subs[..i] == subs;
    return Ok(out);
  }

  /** The inner loop over one sub-album's elements. */
  method RenameSub(sub: SubAlbum, allSubElems: seq<string>, baseIndex: nat, width: nat) returns (renames: seq<(string, string)>)
    ensures renames == SubRenames(sub, allSubElems, baseIndex, width)
  {
    var newName := ElemRenamer(sub.name, allSubElems, baseIndex, width);
    renames := [];
    var j := 0;
    while j < |sub.elems|
      invariant j <= |sub.elems| && renames == RenamesUpTo(sub.elems, newName, j)
    {
      var e := sub.elems[j].name;
      renames := renames + [(e, newName(e))];
      j := j + 1;
    }
  }
}
