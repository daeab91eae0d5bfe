/** The tag checks of `Track.__init__` (Audite.py:499-1003). The audio file is
    classified by the text of the `file` tool, then the text dumped by the tag
    tool of its codec (`metaflac`, `mid3v2` or `mutagen-inspect`) is searched
    with plain `find`/`count`, and each tag is compared with what the album
    knows. Where the album has a better value it takes priority and the
    track is marked for re-tagging (`needsRemark`). */
module Tags {
  import opened Text
  import opened Wrappers
  import Safety
  import Covers

  /** What the tag checks read from their album. */
  datatype AlbumFacts = AlbumFacts(
    artist: string, composer: string, title: string, year: int, genre: string,
    trackTotal: nat, cover: Option<Covers.CoverImage>)

  /** The command-line switches the checks read, and the current year
      (`NOW_YEAR`, Audite.py:138). */
  datatype Config = Config(allowComposer: bool, skipReplayGain: bool, nowYear: int)

  /** The text printed by the external tools for one audio file. */
  datatype Dumps = Dumps(
    stats: string,        // `file`
    samples: string,      // `metaflac --show-total-samples`
    tags: string,         // `metaflac --show-all-tags`, `mid3v2 -l` or `mutagen-inspect`
    picture: string,      // the first lines of `metaflac --list --block-type=PICTURE`
    seektable: string,    // the first lines of the SEEKTABLE listing
    application: string,  // the first lines of the APPLICATION listing
    padding: string)      // the first lines of the PADDING listing

  /** The fields of a `Track` that the tag checks set (Audite.py:446-476). */
  datatype Meta = Meta(
    codec: string,
    metaNumber: nat, metaTrackTotal: nat, metaTitle: string, metaArtist: string,
    metaComposer: string, metaAlbum: string, metaDate: int, metaGenre: string,
    needsReencode: bool, needsRemark: bool, needsReplayGain: bool,
    renewPicture: bool, deleteApplication: bool, deleteSeektable: bool, deletePadding: bool)

  /** The fields as `Track.__init__` initialises them. */
  const Blank: Meta := Meta("", 0, 0, "", "", "", "", 0, "",
    false, false, false, false, false, false, false)

  // ---------------------------------------------------------------------------
  // Reading one tag
  // ---------------------------------------------------------------------------

  /** The stripped text between the first `key` and the next `term`; `None`
      when the key is absent. A key without a `term` after it makes
      `str.index` fail. */
  function TagValue(tags: string, key: string, term: char): (r: Result<Option<string>>)
    requires key != []
    ensures r == Ok(None) <==> Find(tags, key, 0) < 0
    ensures r.Err? ==> r.crash == SubstringNotFound
    ensures r.Ok? && r.value.Some? ==> Strip(r.value.value) == r.value.value
  {
    var p := Find(tags, key, 0);
    if p < 0 then Ok(None)
    else
      var e := Find(tags, [term], p + |key|);
      if e < 0 then Err(SubstringNotFound)
      else
        StripStrip(tags[p + |key|..e]);
        Ok(Some(Strip(tags[p + |key|..e])))
  }

  /** A plain `find` does not respect tag boundaries: `ARTIST=` is first
      found inside `ALBUMARTIST=`. */
  lemma ArtistInsideAlbumArtist()
    ensures TagValue("ALBUMARTIST=A\nARTIST=B\n", "ARTIST=", '\n') == Ok(Some("A"))
  {
    var s := "ALBUMARTIST=A\nARTIST=B\n";
    assert s[5..12] == "ARTIST=";
    forall k | 0 <= k < 5 ensures !IsAt(s, "ARTIST=", k) {
      assert s[k..k + 7][1] == s[k + 1];
    }
    assert Find(s, "ARTIST=", 0) == 5;
    assert s[12..13] == "A";
    assert s[13..14] == "\n";
    assert Find(s, "\n", 12) == 13;
    StripNoEdgeSpace("A");
  }

  // ---------------------------------------------------------------------------
  // Text tags: title, artist, composer, album, genre
  // ---------------------------------------------------------------------------

  /** The album value `want` and a tag agree: compared after
      `ensureStringSafety` or literally. */
  predicate Agrees(tag: string, want: string, bySafety: bool) {
    if bySafety then Safety.EnsureStringSafety(tag) == Safety.EnsureStringSafety(want)
    else tag == want
  }

  /** How a text tag is compared with the album: through `ensureStringSafety`
      or literally; whether the album value overrules a differing tag at all
      (an artist tag is left alone on a "Various Artists" album); whether a
      missing tag is only reported when the album has a value to suggest. */
  datatype Rule = Rule(bySafety: bool, overrules: bool, optional: bool)

  /** One text tag checked against the album's value `want`
      (Audite.py:568-583, 586-599, 601-615, 638-650 and their MP3 and ALAC
      copies): the value kept and whether the tag must be rewritten. */
  function TextTag(tag: Option<string>, current: string, want: string, rule: Rule): (r: (string, bool))
    ensures r.1 ==> r.0 == want
    ensures tag.None? ==> (r.1 <==> !rule.optional || want != [])
    ensures tag.None? && !r.1 ==> r.0 == current
    ensures tag.Some? ==> (r.1 <==> want != [] && rule.overrules && !Agrees(tag.value, want, rule.bySafety))
    ensures tag.Some? && !r.1 ==> r.0 == tag.value
    ensures want != [] && rule.overrules ==> Agrees(r.0, want, rule.bySafety)
  {
    match tag
    case None => if rule.optional && want == [] then (current, false) else (want, true)
    case Some(t) =>
      if !Agrees(t, want, rule.bySafety) && |want| > 0 && rule.overrules then (want, true) else (t, false)
  }

  /** The title tag is taken as it is; only its absence is reported. */
  function TitleTag(tag: Option<string>, current: string): (r: (string, bool))
    ensures r.1 <==> tag.None?
    ensures tag.Some? ==> r.0 == tag.value
  {
    if tag.None? then (current, true) else (tag.value, false)
  }

  /** The artist rule: a differing artist is overruled unless the album is
      by "Various Artists"; a missing one is always reported. */
  function ArtistRule(artist: string): Rule {
    Rule(true, LowerStr(artist) != "various artists", false)
  }

  const ComposerRule: Rule := Rule(true, true, true)
  const AlbumRule: Rule := Rule(true, true, false)
  const GenreRule: Rule := Rule(false, true, true)

  // ---------------------------------------------------------------------------
  // Numeric tags: date, track number, track total
  // ---------------------------------------------------------------------------

  /** The date tag checked against the album year (Audite.py:616-636, 786-801,
      937-952). Only a year in 1..NOW_YEAR is imposed. A non-numeric date is
      replaced by the album year only for a valid year on FLAC, always on MP3
      and ALAC (`forceOnJunk`). */
  function DateTag(tag: Option<string>, current: int, year: int, nowYear: int, forceOnJunk: bool): (r: (int, bool))
    ensures r.1 ==> r.0 == year
    ensures 0 < year <= nowYear ==> r.0 == year
    ensures tag.Some? && IsNumeric(tag.value) && !r.1 ==> r.0 == NatOf(tag.value)
    ensures tag.Some? && IsNumeric(tag.value) && NatOf(tag.value) == year ==> r == (year, false)
    ensures tag.None? && !(0 < year <= nowYear) ==> r == (current, false)
  {
    var valid := 0 < year <= nowYear;
    match tag
    case None => if valid then (year, true) else (current, false)
    case Some(s) =>
      if IsNumeric(s) then
        if NatOf(s) != year && valid then (year, true) else (NatOf(s), false)
      else if valid || forceOnJunk then (year, true)
      else (current, false)
  }

  /** The FLAC `TRACKNUMBER` tag (Audite.py:515-532): a number must be written
      as wide as the track total; anything else is reported. */
  function NumberTag(tag: Option<string>, current: nat, total: nat): (r: (nat, bool))
    ensures tag.Some? && IsNumeric(tag.value) ==> r.0 == NatOf(tag.value)
    ensures !(tag.Some? && IsNumeric(tag.value)) ==> r == (current, true)
  {
    match tag
    case None => (current, true)
    case Some(s) =>
      if IsNumeric(s) then (NatOf(s), |s| != |Decimal(total)|) else (current, true)
  }

  /** A track number written as the `tNumFmt` format suggests, for a number
      not above the track total, is accepted as it is. */
  lemma NumberTagOfPadded(n: nat, current: nat, total: nat)
    requires n <= total
    ensures NumberTag(Some(ZeroPad(n, |Decimal(total)|)), current, total) == (n, false)
  {
    DecimalMonotone(n, total);
    ZeroPadRoundTrip(n, |Decimal(total)|);
  }

  /** The FLAC `TRACKTOTAL` tag (Audite.py:533-553): the album's track total
      always wins, and the tag is rewritten unless it already holds it. */
  function TotalTag(tag: Option<string>, current: nat, total: nat): (r: (nat, bool))
    ensures r.0 == total
    ensures r.1 <==> !(tag.Some? && IsNumeric(tag.value) && NatOf(tag.value) == total)
  {
    match tag
    case None => (total, true)
    case Some(s) =>
      var v := if IsNumeric(s) then NatOf(s) else current;
      var invalid := !IsNumeric(s);
      if v != total then (total, true) else (v, invalid)
  }

  /** A track number and total read from one `n/total` tag (MP3 `TRCK`) or
      `(n, total)` tag (ALAC `trkn`). */
  datatype Pair = Pair(number: nat, total: nat, remark: bool)

  /** The combined tag (Audite.py:699-739, 852-893). Without a separator after
      the first character the total is reported missing. As written, a
      non-numeric tag without separator names the unbound `strNumber` in its
      message; here it is reported like any invalid tag (see
      `PairTagAsWritten`). */
  function PairTag(tag: Option<string>, sep: char, number: nat, current: nat, total: nat): (r: Pair)
    ensures r.total == total
    ensures tag.None? ==> r == Pair(number, total, true)
    ensures tag.Some? && Find(tag.value, [sep], 0) <= 0 ==> r.remark
  {
    match tag
    case None => Pair(number, total, true)
    case Some(t) =>
      var p := Find(t, [sep], 0);
      if p > 0 then
        var strNumber := Strip(t[..p]);
        var n := if IsNumeric(strNumber) then NatOf(strNumber) else number;
        var badNumber := !IsNumeric(strNumber) || |strNumber| != |Decimal(total)|;
        var strTotal := Strip(t[p + 1..]);
        var v := if IsNumeric(strTotal) then NatOf(strTotal) else current;
        var badTotal := !IsNumeric(strTotal) || v != total;
        Pair(n, total, badNumber || badTotal || |strNumber| != |strTotal|)
      else
        Pair(if IsNumeric(t) then NatOf(t) else number, total, true)
  }

  /** The combined tag as written: the branch for a non-numeric tag without
      separator raises `UnboundLocalError` on `strNumber`. */
  function PairTagAsWritten(tag: Option<string>, sep: char, number: nat, current: nat, total: nat): (r: Result<Pair>)
    ensures r.Err? <==>
      tag.Some? && Find(tag.value, [sep], 0) <= 0 && !IsNumeric(tag.value)
    ensures r.Err? ==> r.crash == UnboundName
    ensures r.Ok? ==> r.value == PairTag(tag, sep, number, current, total)
  {
    match tag
    case None => Ok(PairTag(tag, sep, number, current, total))
    case Some(t) =>
      if Find(t, [sep], 0) <= 0 && !IsNumeric(t) then Err(UnboundName)
      else Ok(PairTag(tag, sep, number, current, total))
  }

  /** An MP3 track tag holding a title instead of a number crashes the
      checks as written. */
  lemma PairTagCrashes()
    ensures PairTagAsWritten(Some("Intro"), '/', 0, 0, 12) == Err(UnboundName)
    ensures PairTag(Some("Intro"), '/', 0, 0, 12) == Pair(0, 12, true)
  {
    FindChar("Intro", '/', 0);
    assert Find("Intro", ['/'], 0) < 0;
    assert !IsDigit("Intro"[0]);
  }

  /** The corrected rule for a tag without separator that is not a number:
      the number stays unknown, the total is the album's and both the
      invalid tag and the missing total are reported. */
  lemma PairTagReportsInvalid(t: string, sep: char, number: nat, current: nat, total: nat)
    requires Find(t, [sep], 0) <= 0 && !IsNumeric(t)
    ensures PairTag(Some(t), sep, number, current, total) == Pair(number, total, true)
    ensures PairTagAsWritten(Some(t), sep, number, current, total) == Err(UnboundName)
  {
  }

  /** A combined tag `NN/total` in the suggested format is accepted. */
  lemma PairTagOfPadded(n: nat, sep: char, number: nat, current: nat, total: nat)
    requires 0 < n <= total && !IsDigit(sep)
    ensures var w := |Decimal(total)|;
      PairTag(Some(ZeroPad(n, w) + [sep] + Decimal(total)), sep, number, current, total) == Pair(n, total, false)
  {
    var w := |Decimal(total)|;
    DecimalMonotone(n, total);
    ZeroPadRoundTrip(n, w);
    NatOfDecimal(total);
    PairTagOfNumbers(ZeroPad(n, w), Decimal(total), sep, number, current, total);
  }

  /** Two numbers around the separator are read as number and total. */
  lemma PairTagOfNumbers(a: string, b: string, sep: char, number: nat, current: nat, total: nat)
    requires IsNumeric(a) && IsNumeric(b) && !IsDigit(sep)
    ensures PairTag(Some(a + [sep] + b), sep, number, current, total)
         == Pair(NatOf(a), total, |a| != |Decimal(total)| || NatOf(b) != total || |a| != |b|)
  {
    NumbersAroundSep(a, b, sep);
    PairTagFound(a + [sep] + b, |a|, a, b, sep, number, current, total);
  }

  /** Where the separator between two numbers is found, and what the two
      sides strip to. */
  lemma NumbersAroundSep(a: string, b: string, sep: char)
    requires IsNumeric(a) && IsNumeric(b) && !IsDigit(sep)
    ensures var t := a + [sep] + b;
      && 0 < |a| < |t| && Find(t, [sep], 0) == |a|
      && Strip(t[..|a|]) == a && Strip(t[|a| + 1..]) == b
  {
    assert sep !in a by {
      forall j | 0 <= j < |a| ensures a[j] != sep { assert IsDigit(a[j]); }
    }
    FindCharAfter(a, sep, b);
    StripNumeric(a);
    StripNumeric(b);
  }

  /** The combined tag with its separator found at `p` and the numbers `n`
      and `m` on either side. */
  lemma PairTagFound(t: string, p: nat, n: string, m: string, sep: char, number: nat, current: nat, total: nat)
    requires 0 < p < |t| && Find(t, [sep], 0) == p
    requires Strip(t[..p]) == n && Strip(t[p + 1..]) == m && IsNumeric(n) && IsNumeric(m)
    ensures PairTag(Some(t), sep, number, current, total)
         == Pair(NatOf(n), total, |n| != |Decimal(total)| || NatOf(m) != total || |n| != |m|)
  {
  }

  // ---------------------------------------------------------------------------
  // Pictures
  // ---------------------------------------------------------------------------

  /** The FLAC picture check (Audite.py:652-662): a listing shorter than ten
      characters means no PICTURE block; otherwise, when the album has a
      cover, the block must be a JPEG front cover of the cover's best size. */
  function FlacPictureStale(picture: string, cover: Option<Covers.CoverImage>): (r: bool)
    ensures |picture| < 10 ==> r
    ensures cover.None? ==> (r <==> |picture| < 10)
    ensures |picture| >= 10 && cover.Some? ==> (r <==> !DescribesCover(picture, cover.value.bestWH))
  {
    if |picture| < 10 then true
    else if cover.Some? then
      var wh := Decimal(cover.value.bestWH);
      !Contains(picture, "Cover") || !Contains(picture, "width: " + wh)
        || !Contains(picture, "height: " + wh) || !Contains(picture, "image/jpeg")
    else false
  }

  /** A PICTURE listing of a JPEG front cover `side` pixels square. */
  predicate DescribesCover(picture: string, side: nat) {
    && Contains(picture, "image/jpeg") && Contains(picture, "Cover")
    && Contains(picture, "width: " + Decimal(side)) && Contains(picture, "height: " + Decimal(side))
  }

  /** The index of the last numeric token before `n`, or -1. */
  function LastNumeric(toks: seq<string>, n: nat): (r: int)
    requires n <= |toks|
    ensures -1 <= r < n
    ensures r >= 0 ==> IsNumeric(toks[r])
    ensures forall i :: r < i < n ==> !IsNumeric(toks[i])
  {
    if n == 0 then -1 else if IsNumeric(toks[n - 1]) then n - 1 else LastNumeric(toks, n - 1)
  }

  /** The file size `int(tok)` read from the tokens of an MP3 `APIC` or ALAC
      `covr` dump: the last numeric token. When there is none, the loop ends
      on the first token and `int` reads that: a signed or `_`-grouped
      number is taken, anything else raises `ValueError`. */
  function PictureSize(toks: seq<string>): (r: Result<int>)
    ensures forall k :: 0 <= k < |toks| && IsNumeric(toks[k]) && (forall j :: k < j < |toks| ==> !IsNumeric(toks[j])) ==>
      r == Ok(NatOf(toks[k]))
    ensures r.Ok? <==> (exists i :: 0 <= i < |toks| && IsNumeric(toks[i])) || (|toks| > 0 && IntOf(toks[0]).Some?)
    ensures r.Err? ==> r.crash == BadIntLiteral
  {
    var i := LastNumeric(toks, |toks|);
    if i >= 0 then Ok(NatOf(toks[i]))
    else
      match IntOf(if |toks| > 0 then toks[0] else "")
      case None => Err(BadIntLiteral)
      case Some(v) => Ok(v)
  }

  /** The backward token scan of Audite.py:827-832 and its `int(tok)`. */
  method ScanPictureSize(toks: seq<string>) returns (r: Result<int>)
    requires |toks| >= 1
    ensures r == PictureSize(toks)
  {
    var tok := "";
    var i := |toks| - 1;
    while i >= 0
      invariant -1 <= i < |toks|
      invariant LastNumeric(toks, |toks|) == LastNumeric(toks, i + 1)
      invariant i < |toks| - 1 ==> tok == toks[i + 1]
      decreases i + 1
    {
      tok := toks[i];
      if IsNumeric(tok) {
        break;
      }
      i := i - 1;
    }
    if IsNumeric(tok) {
      r := Ok(NatOf(tok));
    } else {
      var v := IntOf(tok);
      if v.Some? {
        r := Ok(v.value);
      } else {
        r := Err(BadIntLiteral);
      }
    }
  }

  /** The embedded picture of an MP3 or ALAC file (Audite.py:804-820,
      956-972): (needs re-tagging, needs a new picture). With an album cover
      the embedded one must be in order and of the cover's file size. */
  function EmbeddedPicture(tags: string, key: string, term: char, cover: Option<Covers.CoverImage>): (r: Result<(bool, bool)>)
    requires key != []
    ensures r.Ok? && Find(tags, key, 0) < 0 ==> r.value == (true, cover.Some?)
    ensures r.Ok? && Find(tags, key, 0) >= 0 ==> r.value.0 == r.value.1
    ensures r.Ok? && cover.None? ==> r.value.1 == false
  {
    var v :- TagValue(tags, key, term);
    match v
    case None => Ok((true, cover.Some?))
    case Some(s) =>
      var size :- PictureSize(SplitOn(s, ' '));
      var stale := cover.Some? && (!Covers.IsOk(cover.value) || size != cover.value.fileSize);
      Ok((stale, stale))
  }

  // ---------------------------------------------------------------------------
  // The codecs
  // ---------------------------------------------------------------------------

  /** The values the text tags keep. */
  datatype Texts = Texts(title: string, artist: string, composer: string,
                         album: string, date: int, genre: string)

  /** The album's values that the text checks impose: a valid album year, a
      genre, an album title, an artist (unless "Various Artists") and, when
      composers are handled, a composer are all carried by the tags. */
  predicate TextsReconciled(x: Texts, al: AlbumFacts, cfg: Config) {
    && (0 < al.year <= cfg.nowYear ==> x.date == al.year)
    && (al.genre != [] ==> x.genre == al.genre)
    && (al.title != [] ==> Agrees(x.album, al.title, true))
    && (al.artist != [] && LowerStr(al.artist) != "various artists" ==> Agrees(x.artist, al.artist, true))
    && (cfg.allowComposer && al.composer != [] ==> Agrees(x.composer, al.composer, true))
  }

  /** The text fields of a track's tags. */
  function TextsOf(m: Meta): Texts {
    Texts(m.metaTitle, m.metaArtist, m.metaComposer, m.metaAlbum, m.metaDate, m.metaGenre)
  }

  /** After any codec's checks the track total is the album's and the text
      tags carry the album's values. */
  predicate Reconciled(m: Meta, al: AlbumFacts, cfg: Config) {
    m.metaTrackTotal == al.trackTotal && TextsReconciled(TextsOf(m), al, cfg)
  }

  /** `count(key) > 1` in the upper-cased dump, checked for found FLAC tags. */
  predicate Duplicated(upper: string, key: string, found: bool)
    requires key != []
  {
    found && Count(upper, key) > 1
  }

  /** Some replay-gain tag is absent from a FLAC dump (Audite.py:664-675). */
  predicate MissesReplayGain(tags: string) {
    !Contains(tags, "REPLAYGAIN_REFERENCE_LOUDNESS") || !Contains(tags, "REPLAYGAIN_TRACK_GAIN")
      || !Contains(tags, "REPLAYGAIN_TRACK_PEAK") || !Contains(tags, "REPLAYGAIN_ALBUM_GAIN")
      || !Contains(tags, "REPLAYGAIN_ALBUM_PEAK")
  }

  /** The text tags of one codec, read in the order the source reads them. */
  datatype TextTags = TextTags(
    title: Option<string>, artist: Option<string>, composer: Option<string>,
    album: Option<string>, date: Option<string>, genre: Option<string>)

  /** The tag keys of one codec and the terminator of their values. */
  datatype Keys = Keys(title: string, artist: string, composer: string,
                       album: string, date: string, genre: string)

  const FlacKeys: Keys := Keys("TITLE=", "ARTIST=", "COMPOSER=", "ALBUM=", "DATE=", "GENRE=")
  const Mp3Keys: Keys := Keys("TIT2=", "TPE1=", "TCOM=", "TALB=", "TDRC=", "TCON=")
  const AlacKeys: Keys := Keys("\U{a9}nam=", "\U{a9}ART=", "\U{a9}wrt=", "\U{a9}alb=", "\U{a9}day=", "\U{a9}gen=")

  predicate ValidKeys(k: Keys) {
    k.title != [] && k.artist != [] && k.composer != [] && k.album != [] && k.date != [] && k.genre != []
  }

  /** The six text tags; the composer is only looked up when composers are
      handled. Any key without a line break after it fails. */
  function ReadTextTags(tags: string, k: Keys, allowComposer: bool): (r: Result<TextTags>)
    requires ValidKeys(k)
    ensures r.Ok? ==> (r.value.title.None? <==> Find(tags, k.title, 0) < 0)
    ensures r.Ok? ==> (r.value.artist.None? <==> Find(tags, k.artist, 0) < 0)
    ensures r.Ok? && !allowComposer ==> r.value.composer.None?
    ensures r.Ok? ==> (r.value.genre.None? <==> Find(tags, k.genre, 0) < 0)
  {
    var title :- TagValue(tags, k.title, '\n');
    var artist :- TagValue(tags, k.artist, '\n');
    var composer :- if allowComposer then TagValue(tags, k.composer, '\n') else Ok(None);
    var album :- TagValue(tags, k.album, '\n');
    var date :- TagValue(tags, k.date, '\n');
    var genre :- TagValue(tags, k.genre, '\n');
    Ok(TextTags(title, artist, composer, album, date, genre))
  }

  /** The text-tag part of the checks, shared by the three codecs, starting
      from the fields as initialised. */
  function CheckTextTags(t: TextTags, al: AlbumFacts, cfg: Config, forceOnJunk: bool): (r: (Texts, bool))
    ensures TextsReconciled(r.0, al, cfg)
    ensures t.title.None? ==> r.1
    ensures t.title.Some? ==> r.0.title == t.title.value
    ensures !cfg.allowComposer ==> r.0.composer == []
  {
    var title := TitleTag(t.title, "");
    var artist := TextTag(t.artist, "", al.artist, ArtistRule(al.artist));
    var composer := if cfg.allowComposer then TextTag(t.composer, "", al.composer, ComposerRule) else ("", false);
    var album := TextTag(t.album, "", al.title, AlbumRule);
    var date := DateTag(t.date, 0, al.year, cfg.nowYear, forceOnJunk);
    var genre := TextTag(t.genre, "", al.genre, GenreRule);
    (Texts(title.0, artist.0, composer.0, album.0, date.0, genre.0),
     title.1 || artist.1 || composer.1 || album.1 || date.1 || genre.1)
  }

  /** The fields of a checked track: codec, numbers, text fields and flags. */
  function WithTexts(codec: string, number: nat, total: nat, x: Texts,
                     reencode: bool, remark: bool, replayGain: bool,
                     picture: bool, application: bool, seektable: bool, padding: bool): (m: Meta)
    ensures TextsOf(m) == x
    ensures m.codec == codec && m.metaNumber == number && m.metaTrackTotal == total
    ensures m.needsReencode == reencode && m.needsRemark == remark && m.needsReplayGain == replayGain
    ensures m.renewPicture == picture && m.deletePadding == padding
  {
    Meta(codec, number, total, x.title, x.artist, x.composer, x.album, x.date, x.genre,
         reencode, remark, replayGain, picture, application, seektable, padding)
  }

  /** Some FLAC tag that was read occurs more than once (Audite.py:528-648). */
  predicate FlacDuplicates(upper: string, numFound: bool, totFound: bool, text: TextTags) {
    Duplicated(upper, "TRACKNUMBER=", numFound) || Duplicated(upper, "TRACKTOTAL=", totFound)
    || Duplicated(upper, "TITLE=", text.title.Some?) || Duplicated(upper, "ARTIST=", text.artist.Some?)
    || Duplicated(upper, "COMPOSER=", text.composer.Some?) || Duplicated(upper, "ALBUM=", text.album.Some?)
    || Duplicated(upper, "DATE=", text.date.Some?) || Duplicated(upper, "GENRE=", text.genre.Some?)
  }

  /** The FLAC checks (Audite.py:501-695). An empty sample count makes
      `strSamples[0]` fail. */
  function FlacTags(d: Dumps, al: AlbumFacts, cfg: Config): (r: Result<Meta>)
    ensures r.Err? ==> d.samples == [] || r.crash == SubstringNotFound
    ensures r.Ok? ==> r.value.codec == "flac" && Reconciled(r.value, al, cfg)
    ensures r.Ok? ==> d.samples != [] && (r.value.needsReencode <==> d.samples[0] == '0')
    ensures r.Ok? ==> (r.value.needsReplayGain <==> !cfg.skipReplayGain && MissesReplayGain(d.tags))
    ensures r.Ok? ==> (r.value.renewPicture <==> FlacPictureStale(d.picture, al.cover))
    ensures r.Ok? && Contains(UpperStr(d.tags), "LOG=") ==> r.value.needsRemark
  {
    if d.samples == [] then Err(IndexOutOfRange)
    else
      var num :- TagValue(d.tags, "TRACKNUMBER=", '\n');
      var tot :- TagValue(d.tags, "TRACKTOTAL=", '\n');
      var text :- ReadTextTags(d.tags, FlacKeys, cfg.allowComposer);
      Ok(FlacMeta(d, al, cfg, num, tot, text))
  }

  /** The FLAC fields once the tags are read. */
  function FlacMeta(d: Dumps, al: AlbumFacts, cfg: Config, num: Option<string>, tot: Option<string>, text: TextTags): (m: Meta)
    requires d.samples != []
    ensures m.codec == "flac" && Reconciled(m, al, cfg)
    ensures m.needsReencode <==> d.samples[0] == '0'
    ensures m.needsReplayGain <==> !cfg.skipReplayGain && MissesReplayGain(d.tags)
    ensures m.renewPicture <==> FlacPictureStale(d.picture, al.cover)
    ensures Contains(UpperStr(d.tags), "LOG=") ==> m.needsRemark
  {
    var number := NumberTag(num, 0, al.trackTotal);
    var total := TotalTag(tot, 0, al.trackTotal);
    var picture := FlacPictureStale(d.picture, al.cover);
    var x := CheckTextTags(text, al, cfg, false);
    var remark := FlacRemark(d, UpperStr(d.tags), num.Some?, tot.Some?, text, number.1 || total.1 || x.1 || picture);
    WithTexts("flac", number.0, total.0, x.0, d.samples[0] == '0', remark,
      !cfg.skipReplayGain && MissesReplayGain(d.tags), picture,
      |d.application| > 2, |d.seektable| > 2, |d.padding| > 2)
  }

  /** Whether a FLAC tag must be rewritten: a rip log, a duplicated tag, an
      extra metadata block, or a finding of the other checks. */
  predicate FlacRemark(d: Dumps, upper: string, numFound: bool, totFound: bool, text: TextTags, others: bool)
    ensures others || Contains(upper, "LOG=") ==> FlacRemark(d, upper, numFound, totFound, text, others)
  {
    Contains(upper, "LOG=") || others || FlacDuplicates(upper, numFound, totFound, text)
    || |d.seektable| > 2 || |d.application| > 2 || |d.padding| > 2
  }

  /** The MP3 checks (Audite.py:696-845); replay gain is always verified
      unless skipped. The track tag is read by the corrected `PairTag`. */
  function Mp3Tags(d: Dumps, al: AlbumFacts, cfg: Config): (r: Result<Meta>)
    ensures r.Err? ==> r.crash == SubstringNotFound || r.crash == BadIntLiteral
    ensures r.Ok? ==> r.value.codec == "mp3" && Reconciled(r.value, al, cfg)
    ensures r.Ok? ==> r.value.needsReplayGain == !cfg.skipReplayGain && !r.value.needsReencode
  {
    var trck :- TagValue(d.tags, "TRCK=", '\n');
    var text :- ReadTextTags(d.tags, Mp3Keys, cfg.allowComposer);
    var pic :- EmbeddedPicture(d.tags, "APIC=", '\n', al.cover);
    var pair := PairTag(trck, '/', 0, 0, al.trackTotal);
    var x := CheckTextTags(text, al, cfg, true);
    Ok(WithTexts("mp3", pair.number, pair.total, x.0, false, pair.remark || x.1 || pic.0,
      !cfg.skipReplayGain, pic.1, false, false, false))
  }

  /** The ALAC checks (Audite.py:846-1000). ALAC is always re-encoded to FLAC,
      re-tagged and given a new picture. The track tag is read by the
      corrected `PairTag`. */
  function AlacTags(d: Dumps, al: AlbumFacts, cfg: Config): (r: Result<Meta>)
    ensures r.Err? ==> r.crash == SubstringNotFound || r.crash == BadIntLiteral
    ensures r.Ok? ==> r.value.codec == "m4a" && Reconciled(r.value, al, cfg)
    ensures r.Ok? ==> r.value.needsReencode && r.value.needsRemark && r.value.renewPicture && r.value.deletePadding
    ensures r.Ok? ==> r.value.needsReplayGain == !cfg.skipReplayGain
  {
    var trkn :- TagValue(d.tags, "trkn=(", ')');
    var text :- ReadTextTags(d.tags, AlacKeys, cfg.allowComposer);
    var pic :- EmbeddedPicture(d.tags, "covr=[", ']', al.cover);
    var pair := PairTag(trkn, ',', 0, 0, al.trackTotal);
    var x := CheckTextTags(text, al, cfg, true);
    Ok(WithTexts("m4a", pair.number, pair.total, x.0, true, true, !cfg.skipReplayGain, true, false, false, true))
  }

  /** Classify the file by the `file` tool's text and run its codec's checks;
      an unknown codec leaves every field as initialised. */
  function ReadTags(d: Dumps, al: AlbumFacts, cfg: Config): (r: Result<Meta>)
    ensures r.Ok? && r.value.codec != "" ==> Reconciled(r.value, al, cfg)
    ensures r.Ok? ==> r.value.codec in {"", "flac", "mp3", "m4a"}
    ensures r.Ok? && r.value.codec == "" ==> r.value == Blank
    ensures r.Ok? && cfg.skipReplayGain ==> !r.value.needsReplayGain
    ensures r.Ok? && r.value.codec == "" <==>
      !Contains(d.stats, "FLAC") && !Contains(d.stats, "MPEG ADTS, layer III") && !Contains(d.stats, "ALAC")
  {
    if Contains(d.stats, "FLAC") then FlacTags(d, al, cfg)
    else if Contains(d.stats, "MPEG ADTS, layer III") then Mp3Tags(d, al, cfg)
    else if Contains(d.stats, "ALAC") then AlacTags(d, al, cfg)
    else Ok(Blank)
  }
}
