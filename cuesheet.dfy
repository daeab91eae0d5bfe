/** The cuesheet reader of Audite.py: header fields found by their first
    occurrence, the track total read after the last `TRACK `, and the cursor
    walk over the `TRACK` blocks that collects one title per track, falling
    back to the `FILE "..." WAVE` name when a block has no `TITLE`.
    `Album.__init__` (flat albums) and `UnflatAlbum.__init__` (one cuesheet
    per sub-album) each carry a copy of the walk; `Variant` keeps their
    differences. */
module Cuesheet {
  import opened Text
  import opened Wrappers
  import Titles
  import FileNames

  /** `MAX_TRACKS` (Audite.py:140). */
  const MaxTracks: nat := 9999

  /** Which copy of the reader runs. */
  datatype Variant = Flat | Complex

  // ---------------------------------------------------------------------------
  // Header fields
  // ---------------------------------------------------------------------------

  /** The raw text of a header field: from after the first `key` to the next
      line break. A missing key gives `None`; a key without a line break
      after it makes `str.index` fail. */
  function FieldText(text: string, key: string): (r: Result<Option<string>>)
    requires key != []
    ensures r == Ok(None) <==> Find(text, key, 0) < 0
    ensures r.Err? ==> r.crash == SubstringNotFound
  {
    var p := Find(text, key, 0);
    if p < 0 then Ok(None)
    else
      var e := Find(text, "\n", p + |key|);
      if e < 0 then Err(SubstringNotFound)
      else
        Ok(Some(text[p + |key|..e]))
  }

  /** One header field (Audite.py:1296-1360, 1871-1913): the raw text through
      `cutCueLine`, which fails on a blank value. */
  function HeaderField(text: string, key: string): (r: Result<Option<string>>)
    requires key != []
    ensures r == Ok(None) <==> Find(text, key, 0) < 0
    ensures r.Ok? && r.value.Some? ==> Strip(r.value.value) == r.value.value
    ensures r.Err? <==>
      FieldText(text, key).Err? || (FieldText(text, key) != Ok(None) && Strip(FieldText(text, key).value.value) == [])
  {
    var raw :- FieldText(text, key);
    if raw.None? then Ok(None)
    else
      var v :- FileNames.CutCueLine(raw.value);
      Ok(Some(v))
  }

  /** A cuesheet holding `key value` on a line of its own, with no earlier
      `key`, yields the value. */
  lemma HeaderFieldOfLine(pre: string, key: string, value: string, post: string)
    requires key != [] && Find(pre + key, key, 0) == |pre|
    requires FileNames.IsTrimmed(value) && value[0] != '"' && '\n' !in value
    ensures HeaderField(pre + key + value + "\n" + post, key) == Ok(Some(value))
  {
    FieldTextOfLine(pre, key, value, post);
    StripNoEdgeSpace(value);
  }

  /** The raw text of a field written on a line of its own is its value. */
  lemma FieldTextOfLine(pre: string, key: string, value: string, post: string)
    requires key != [] && Find(pre + key, key, 0) == |pre| && '\n' !in value
    ensures FieldText(pre + key + value + "\n" + post, key) == Ok(Some(value))
  {
    var text := pre + key + value + "\n" + post;
    KeyOfLine(pre, key, value + "\n" + post);
    assert text == pre + key + (value + "\n" + post);
    ValueOfLine(pre + key, value, post);
  }

  /** The first `key` of `pre + key + rest` is the one after `pre` when
      `pre + key` holds no earlier one. */
  lemma KeyOfLine(pre: string, key: string, rest: string)
    requires key != [] && Find(pre + key, key, 0) == |pre|
    ensures Find(pre + key + rest, key, 0) == |pre|
  {
    var text := pre + key + rest;
    var p := |pre|;
    assert text[..|pre| + |key|] == pre + key;
    assert IsAt(text, key, p) by { assert text[p..p + |key|] == key; }
    forall j | 0 <= j < p ensures !IsAt(text, key, j) {
      assert !IsAt(pre + key, key, j);
      assert text[j..j + |key|] == (pre + key)[j..j + |key|];
    }
    FindFirst(text, key, p);
  }

  /** The first line break after `head` ends a value without one. */
  lemma ValueOfLine(head: string, value: string, post: string)
    requires '\n' !in value
    ensures var text := head + value + "\n" + post;
      Find(text, "\n", |head|) == |head| + |value| && text[|head|..|head| + |value|] == value
  {
    var text := head + value + "\n" + post;
    var hv := head + value;
    var e := |hv|;
    assert text == hv + ("\n" + post);
    assert text[e] == '\n';
    forall j | |head| <= j < e ensures text[j] != '\n' {
      assert text[j] == hv[j] == value[j - |head|];
    }
    FindCharFirst(text, '\n', |head|, e);
    assert text[|head|..e] == hv[|head|..] == value;
  }

  /** `find` returns the first position where the pattern occurs. */
  lemma FindFirst(s: string, pat: string, p: nat)
    requires IsAt(s, pat, p) && forall j :: 0 <= j < p ==> !IsAt(s, pat, j)
    ensures Find(s, pat, 0) == p
  {
  }

  /** The number after the last `TRACK ` (Audite.py:1363-1372, 1915-1923):
      `None` when there is no `TRACK ` or the text up to the next blank is
      not a number; a `TRACK ` with no blank after it makes `str.index`
      fail. */
  function LastTrackNumber(text: string): (r: Result<Option<nat>>)
    ensures r.Ok? && r.value.Some? ==>
      var p := RFind(text, "TRACK ");
      var e := Find(text, " ", p + 6);
      p >= 0 && e >= 0 && IsNumeric(Strip(text[p + 6..e])) && r.value.value == NatOf(Strip(text[p + 6..e]))
    ensures RFind(text, "TRACK ") < 0 ==> r == Ok(None)
  {
    var p := RFind(text, "TRACK ");
    if p < 0 then Ok(None)
    else
      var e := Find(text, " ", p + 6);
      if e < 0 then Err(SubstringNotFound)
      else
        var trackTot := Strip(text[p + 6..e]);
        if IsNumeric(trackTot) then Ok(Some(NatOf(trackTot))) else Ok(None)
  }

  /** The flat album's track total: the last `TRACK ` number when it lies in
      1..`MAX_TRACKS`, otherwise 0 (Audite.py:1363-1376). */
  function FlatTrackTotal(text: string): (r: Result<nat>)
    ensures r.Ok? ==> r.value <= MaxTracks
    ensures r.Ok? && r.value > 0 ==> LastTrackNumber(text) == Ok(Some(r.value))
    ensures r.Ok? && r.value == 0 ==>
      LastTrackNumber(text) == Ok(None) ||
      (LastTrackNumber(text).Ok? && LastTrackNumber(text).value.Some? &&
       (LastTrackNumber(text).value.value < 1 || LastTrackNumber(text).value.value > MaxTracks))
    ensures r.Err? <==> LastTrackNumber(text).Err?
  {
    var n :- LastTrackNumber(text);
    if n.Some? && 1 <= n.value <= MaxTracks then Ok(n.value) else Ok(0)
  }

  // ---------------------------------------------------------------------------
  // INDEX lines (complex albums only, Audite.py:1991-2014)
  // ---------------------------------------------------------------------------

  /** The time after `INDEX 0x `: blanks in front go, a blank value makes
      `cueIdx[-1]` fail, and one trailing carriage return goes together with
      the blanks before it. */
  function CutIndexTime(raw: string): (r: Result<string>)
    ensures r.Err? <==> LStrip(raw) == []
    ensures r.Ok? ==> r.value == [] || !IsSpace(r.value[0])
  {
    var cueIdx := LStrip(raw);
    if cueIdx == [] then Err(IndexOutOfRange)
    else if cueIdx[|cueIdx| - 1] == '\r' then
      var t := RStrip(cueIdx[..|cueIdx| - 1]);
      assert t == [] || t[0] == cueIdx[0];
      Ok(t)
    else Ok(cueIdx)
  }

  /** A time written with a Windows line end is read without it. */
  lemma CutIndexTimeOfLine(pre: string, time: string, cr: bool)
    requires forall i :: 0 <= i < |pre| ==> IsSpace(pre[i])
    requires FileNames.IsTrimmed(time)
    ensures CutIndexTime(pre + time + (if cr then "\r" else "")) == Ok(time)
  {
    var tail := if cr then "\r" else "";
    assert pre + time + tail == pre + (time + tail);
    LStripPadded(pre, time + tail);
    if cr {
      assert (time + tail)[..|time|] == time;
      assert RStrip(time) == time;
    } else {
      assert time + tail == time;
    }
  }

  /** One `INDEX 0x` time of a track (Audite.py:1998-2012): searched from
      `pos` and accepted only when it lies before the next track and a line
      break follows it. */
  function IndexField(text: string, key: string, pos: nat, posNext: int): (r: Result<Option<string>>)
    requires |key| == 9
    ensures r == Ok(None) <==>
      var p := Find(text, key, pos);
      !(0 < p < posNext) || Find(text, "\n", p + 9) < 0
    ensures r.Err? <==>
      var p := Find(text, key, pos);
      0 < p < posNext && Find(text, "\n", p + 9) >= 0 && LStrip(text[p + 9..Find(text, "\n", p + 9)]) == []
  {
    var p := Find(text, key, pos);
    if !(0 < p < posNext) then Ok(None)
    else
      var e := Find(text, "\n", p + 9);
      if !(e > p) then Ok(None)
      else
        var t :- CutIndexTime(text[p + 9..e]);
        Ok(Some(t))
  }

  /** The times kept for a track: whichever of `INDEX 00` and `INDEX 01` are
      present, in that order, or `00:00:00` when neither is. */
  function TrackIndexes(text: string, pos: nat): (r: Result<seq<string>>)
    ensures r.Ok? ==> 1 <= |r.value| <= 2
  {
    var posNext := if Find(text, "TRACK ", pos) < 0 then |text| else Find(text, "TRACK ", pos);
    var i0 :- IndexField(text, "INDEX 00 ", pos, posNext);
    var i1 :- IndexField(text, "INDEX 01 ", pos, posNext);
    var idx := (if i0.Some? then [i0.value] else []) + (if i1.Some? then [i1.value] else []);
    Ok(if idx == [] then ["00:00:00"] else idx)
  }

  // ---------------------------------------------------------------------------
  // The TRACK walk
  // ---------------------------------------------------------------------------

  /** The state of the walk: the cursor, the last text assigned to `cueStr`,
      the raw title of each entry and what was appended to `cueEntries`, the
      position of each entry's `TRACK `, the INDEX times (complex albums), and
      the whole file name of the last `FILE` entry that could not be split,
      which the source stores in the album's `name`. */
  datatype WalkState = WalkState(
    pos: nat,
    cueStr: Option<string>,
    raws: seq<string>,
    entries: seq<string>,
    starts: seq<nat>,
    indexes: seq<seq<string>>,
    renamed: Option<string>)

  function Start(cueStr: Option<string>): WalkState {
    WalkState(0, cueStr, [], [], [], [], None)
  }

  /** What is known of every state the walk goes through; `coerce` is the
      title normaliser applied to each entry. */
  ghost predicate WalkInv(text: string, v: Variant, coerce: string -> string, st: WalkState) {
    st.pos <= |text| &&
    |st.raws| == |st.entries| == |st.starts| &&
    (v.Complex? ==> |st.indexes| == |st.entries|) &&
    (v.Flat? ==> st.indexes == []) &&
    (forall k :: 0 <= k < |st.entries| ==> st.entries[k] == coerce(st.raws[k])) &&
    (forall k :: 0 <= k < |st.starts| ==> IsAt(text, "TRACK ", st.starts[k]) && st.starts[k] < st.pos) &&
    (forall k, m :: 0 <= k < m < |st.starts| ==> st.starts[k] < st.starts[m]) &&
    (forall k :: 0 <= k < |st.indexes| ==> 1 <= |st.indexes[k]| <= 2)
  }

  /** The next track of the walk: the position of the next `TRACK ` and the
      number after it, or `None` (a `break`) when there is no further
      `TRACK ` or its number is not numeric. A number with no blank after it
      is read up to the last character but one (`text[pos:-1]`). */
  function NextTrack(text: string, pos: nat): (r: Option<(nat, nat)>)
    ensures r.Some? ==> pos <= r.value.0 && r.value.0 + 6 <= |text| && IsAt(text, "TRACK ", r.value.0)
    ensures r.Some? ==> r.value.0 == Find(text, "TRACK ", pos)
    ensures Find(text, "TRACK ", pos) < 0 ==> r.None?
  {
    var trackPos := Find(text, "TRACK ", pos);
    if trackPos < 0 then None
    else
      var trackNo := Strip(Slice(text, trackPos + 6, Find(text, " ", trackPos + 6)));
      if IsNumeric(trackNo) then Some((trackPos, NatOf(trackNo))) else None
  }

  /** Where an entry's title comes from. */
  datatype Source = Source(raw: string, after: nat, renamed: Option<string>)

  /** The title of the track whose `TRACK ` is at `trackPos` (Audite.py:1392-1432,
      1951-1986): the `TITLE ` line when one occurs before the next track,
      otherwise the last `FILE "..." WAVE` name before it. `Ok(None)` is a
      `break`; `after` is where the cursor goes next, which differs between
      the two copies. A `FILE` name that cannot be split leaves the previous
      `cueStr` in place, and fails when there is none. */
  function TitleSource(text: string, v: Variant, entryNo: nat, trackPos: nat, tInd: nat,
                       cueStr: Option<string>): (r: Result<Option<Source>>)
    requires trackPos + 6 <= |text|
    ensures r.Ok? && r.value.Some? ==> trackPos < r.value.value.after <= |text|
    ensures r.Ok? && r.value.Some? && r.value.value.renamed.Some? ==> Some(r.value.value.raw) == cueStr
    ensures cueStr.Some? ==> r != Err(UnboundName)
  {
    var pos := trackPos + 6;
    var titlePos := Find(text, "TITLE ", pos);
    var nextPos := Find(text, "TRACK ", pos);
    var nextTrack := if nextPos < 0 then |text| else nextPos;
    if 0 < titlePos < nextTrack then
      var valuePos := titlePos + 6;
      var eol := Find(text, "\n", valuePos);
      if eol < 0 then Ok(None)
      else
        var c :- FileNames.CutCueLine(text[valuePos..eol]);
        Ok(Some(Source(c, if v.Flat? then valuePos else eol + 1, None)))
    else
      var filePos := RFindBefore(text, "FILE \"", pos);
      if filePos < 0 then Ok(None)
      else
        var nameEnd := Find(text, "\" WAVE", filePos + 6);
        if nameEnd < 0 then Ok(None)
        else
          var numAndTitle := text[filePos + 6..nameEnd];
          var after := if v.Flat? then pos else trackPos + 1;
          var e :- FileNames.SplitCueFileName(numAndTitle, entryNo, tInd);
          match e
          case Titled(t) => Ok(Some(Source(t, after, None)))
          case Unsplit =>
            if cueStr.None? then Err(UnboundName)
            else Ok(Some(Source(cueStr.value, after, Some(numAndTitle))))
  }

  /** How one pass changes the state: one more entry, from a `TRACK ` at or
      after the cursor, with the cursor moved past it. */
  ghost predicate StepShape(text: string, v: Variant, coerce: string -> string, st: WalkState, n: WalkState) {
    |n.starts| == |st.starts| + 1 && n.starts[..|st.starts|] == st.starts &&
    st.pos <= n.starts[|st.starts|] < n.pos <= |text| && IsAt(text, "TRACK ", n.starts[|st.starts|]) &&
    |n.raws| == |st.raws| + 1 && n.raws[..|st.raws|] == st.raws &&
    n.entries == st.entries + [coerce(n.raws[|st.raws|])] &&
    (v.Flat? ==> n.indexes == st.indexes) &&
    (v.Complex? ==>
      |n.indexes| == |st.indexes| + 1 && n.indexes[..|st.indexes|] == st.indexes &&
      1 <= |n.indexes[|st.indexes|]| <= 2)
  }

  /** One pass of the `for i in range(trackTotal)` body (Audite.py:1380-1435,
      1936-2014). `Ok(None)` is a `break`. */
  function TrackStep(text: string, v: Variant, coerce: string -> string, st: WalkState)
    : (r: Result<Option<WalkState>>)
    requires st.pos <= |text|
    ensures r.Ok? && r.value.Some? ==> StepShape(text, v, coerce, st, r.value.value)
    ensures NextTrack(text, st.pos).None? ==> r == Ok(None)
  {
    match NextTrack(text, st.pos)
    case None => Ok(None)
    case Some((trackPos, tInd)) =>
      var src :- TitleSource(text, v, |st.entries|, trackPos, tInd, st.cueStr);
      if src.None? then Ok(None)
      else
        var Source(c, after, renamed) := src.value;
        var n := st.(pos := after, cueStr := Some(c),
                     renamed := if renamed.Some? then renamed else st.renamed,
                     raws := st.raws + [c], entries := st.entries + [coerce(c)],
                     starts := st.starts + [trackPos]);
        if v.Flat? then Ok(Some(n))
        else
          var idx :- TrackIndexes(text, after);
          Ok(Some(n.(indexes := st.indexes + [idx])))
  }

  /** The whole walk as a value: at most `total` steps, stopping early at a
      `break`. */
  function Walk(text: string, v: Variant, coerce: string -> string, total: nat, st: WalkState)
    : (r: Result<WalkState>)
    requires st.pos <= |text|
    decreases total - |st.entries|
  {
    if |st.entries| >= total then Ok(st)
    else
      match TrackStep(text, v, coerce, st)
      case Err(c) => Err(c)
      case Ok(None) => Ok(st)
      case Ok(Some(n)) => Walk(text, v, coerce, total, n)
  }

  /** The walk itself: the `for i in range(trackTotal)` loop. */
  method WalkEntries(text: string, v: Variant, coerce: string -> string, total: nat, cueStr: Option<string>)
    returns (r: Result<WalkState>)
    ensures r == Walk(text, v, coerce, total, Start(cueStr))
  {
    var st := Start(cueStr);
    var i := 0;
    while i < total
      invariant i == |st.entries| && st.pos <= |text|
      invariant Walk(text, v, coerce, total, st) == Walk(text, v, coerce, total, Start(cueStr))
      decreases total - i
    {
      var step := TrackStep(text, v, coerce, st);
      if step.Err? {
        return Err(step.crash);
      }
      if step.value.None? {
        break;
      }
      st := step.value.value;
      i := i + 1;
    }
    return Ok(st);
  }

  /** A state change of that shape keeps the walk invariant. */
  lemma StepKeepsInv(text: string, v: Variant, coerce: string -> string, st: WalkState, n: WalkState)
    requires WalkInv(text, v, coerce, st) && StepShape(text, v, coerce, st, n)
    ensures WalkInv(text, v, coerce, n)
  {
    var last := |st.starts|;
    assert forall k :: 0 <= k < last ==> n.starts[k] == st.starts[k];
    assert forall k :: 0 <= k < |st.indexes| ==> n.indexes[k] == st.indexes[k];
    assert forall k :: 0 <= k < |st.raws| ==> n.raws[k] == st.raws[k];
  }

  /** One step keeps the walk invariant. */
  lemma TrackStepInv(text: string, v: Variant, coerce: string -> string, st: WalkState)
    requires WalkInv(text, v, coerce, st)
    ensures var r := TrackStep(text, v, coerce, st);
      r.Ok? && r.value.Some? ==> WalkInv(text, v, coerce, r.value.value)
  {
    var r := TrackStep(text, v, coerce, st);
    if r.Ok? && r.value.Some? {
      StepKeepsInv(text, v, coerce, st, r.value.value);
    }
  }

  /** The walk yields at most `total` entries, in file order: each entry is
      the normalised form of its raw title and belongs to a distinct
      `TRACK ` occurrence, later entries to later ones. */
  lemma {:induction false} WalkInvariant(text: string, v: Variant, coerce: string -> string, total: nat, st: WalkState)
    requires WalkInv(text, v, coerce, st) && |st.entries| <= total
    ensures var r := Walk(text, v, coerce, total, st);
      r.Ok? ==> WalkInv(text, v, coerce, r.value) && |r.value.entries| <= total
    decreases total - |st.entries|
  {
    var step := TrackStep(text, v, coerce, st);
    if |st.entries| < total && step.Ok? && step.value.Some? {
      var n := step.value.value;
      StepKeepsInv(text, v, coerce, st, n);
      WalkInvariant(text, v, coerce, total, n);
      assert Walk(text, v, coerce, total, st) == Walk(text, v, coerce, total, n);
    }
  }

  /** From the start: at most `total` entries from increasing `TRACK `
      positions, each the normalised form of its raw title. */
  lemma WalkFromStart(text: string, v: Variant, coerce: string -> string, total: nat, cueStr: Option<string>)
    ensures var r := Walk(text, v, coerce, total, Start(cueStr));
      r.Ok? ==> WalkInv(text, v, coerce, r.value) && |r.value.entries| <= total
  {
    WalkInvariant(text, v, coerce, total, Start(cueStr));
  }

  /** With `coerceTitle` as the normaliser, every entry is in normal form:
      its words joined by single blanks, nothing to strip. */
  lemma WalkEntriesNormal(text: string, v: Variant, noCaps: bool, st: WalkState)
    requires WalkInv(text, v, t => Titles.CoercedTitle(t, noCaps), st)
    ensures forall k :: 0 <= k < |st.entries| ==>
      Join(Words(st.entries[k]), " ") == st.entries[k] && Strip(st.entries[k]) == st.entries[k]
  {
    forall k | 0 <= k < |st.entries|
      ensures Join(Words(st.entries[k]), " ") == st.entries[k] && Strip(st.entries[k]) == st.entries[k]
    {
      Titles.CoercedTitleShape(st.raws[k], noCaps);
      Titles.CoercedTitleStripped(st.raws[k], noCaps);
    }
  }

  /** A cuesheet without any `TRACK ` yields no entries. */
  lemma WalkWithoutTracks(text: string, v: Variant, coerce: string -> string, total: nat, cueStr: Option<string>)
    requires Find(text, "TRACK ", 0) < 0
    ensures Walk(text, v, coerce, total, Start(cueStr)) == Ok(Start(cueStr))
  {
  }
}
