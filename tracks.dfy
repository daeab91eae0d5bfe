/** The decisions of `Track.__init__` after the tags are read (Audite.py:1003-1108):
    the track is matched against the album's cuesheet entries when the
    cuesheet lists every track, or falls back on its own file name and tags;
    then the canonical file name is built and the track's status decided.
    Within the model a track is only set up, never changed afterwards, so it
    is a value. */
module Tracks {
  import opened Text
  import opened Wrappers
  import Safety
  import FileNames
  import Tags
  import Titles

  /** A track: what its file name says, what its tags say, and its flags. */
  datatype Track = Track(
    audioFile: string, number: nat, name: string, ext: string, misnumbered: bool,
    meta: Tags.Meta, needsRename: bool, goodName: string)

  /** The similarity ratio of two strings (`difflib.SequenceMatcher.ratio`). */
  type Similarity = (string, string) -> real

  // ---------------------------------------------------------------------------
  // Matching against the cuesheet (Audite.py:1006-1048)
  // ---------------------------------------------------------------------------

  /** The score no entry has to beat: `cueBestScore = -1.0e6`. */
  const NoScore: real := -1000000.0

  /** The score of cue entry `cueTit`, numbered `cueNum`, for a track
      (Audite.py:1012-1024): title similarity, tag-title similarity and, for
      non-ASCII names, a penalty for a distant number. */
  function Score(sim: Similarity, t: Track, cueTit: string, cueNum: nat): real {
    var byName := if |t.name| > 0 then 5.0 * sim(LowerStr(t.name), LowerStr(cueTit)) else 0.0;
    var byTag := if |t.meta.metaTitle| > 0 then 3.0 * sim(t.meta.metaTitle, cueTit) else 0.0;
    var d := (t.number - cueNum) as real;
    var byNumber := if t.number > 0 && !IsAscii(t.name) then -2.0 * d * d / 4.0 else 0.0;
    var e := (t.meta.metaNumber - cueNum) as real;
    var byTagNumber :=
      if t.meta.metaNumber > 0 && t.number == 0 && !IsAscii(t.name) then -1.0 * e * e / 4.0 else 0.0;
    byName + byTag + byNumber + byTagNumber
  }

  /** The scores of all entries, in order. */
  function Scores(sim: Similarity, t: Track, entries: seq<string>): (r: seq<real>)
    ensures |r| == |entries|
    ensures forall i :: 0 <= i < |entries| ==> r[i] == Score(sim, t, entries[i], i + 1)
  {
    seq(|entries|, i requires 0 <= i < |entries| => Score(sim, t, entries[i], i + 1))
  }

  /** The best index and best score after the loop has seen the first `n`
      scores. */
  function BestUpTo(scores: seq<real>, n: nat): (r: (nat, real))
    requires n <= |scores|
    ensures r.1 >= NoScore
    ensures forall j :: 0 <= j < n ==> scores[j] <= r.1
    ensures r.1 == NoScore ==> r.0 == 0
    ensures r.1 > NoScore ==> r.0 < n && scores[r.0] == r.1 && forall j :: 0 <= j < r.0 ==> scores[j] < r.1
  {
    if n == 0 then (0, NoScore)
    else
      var prev := BestUpTo(scores, n - 1);
      if scores[n - 1] > prev.1 then (n - 1, scores[n - 1]) else prev
  }

  /** The entry the loop picks: the first one with the highest score, when
      that score beats -1e6; otherwise the first entry. */
  function FirstBest(scores: seq<real>): (r: nat)
    ensures |scores| > 0 ==> r < |scores|
    ensures (forall j :: 0 <= j < |scores| ==> scores[j] <= NoScore) ==> r == 0
    ensures (exists j :: 0 <= j < |scores| && scores[j] > NoScore) ==>
      && scores[r] > NoScore
      && (forall j :: 0 <= j < |scores| ==> scores[j] <= scores[r])
      && (forall j :: 0 <= j < r ==> scores[j] < scores[r])
  {
    BestUpTo(scores, |scores|).0
  }

  /** The scoring loop of Audite.py:1008-1025. */
  method BestCue(scores: seq<real>) returns (cueBestInd: nat)
    ensures cueBestInd == FirstBest(scores)
  {
    cueBestInd := 0;
    var cueBestScore := NoScore;
    var cueInd := 0;
    while cueInd < |scores|
      invariant cueInd <= |scores|
      invariant (cueBestInd, cueBestScore) == BestUpTo(scores, cueInd)
    {
      if scores[cueInd] > cueBestScore {
        cueBestScore := scores[cueInd];
        cueBestInd := cueInd;
      }
      cueInd := cueInd + 1;
    }
  }

  /** The track with a new number and title (file and tag alike) and the
      rename and remark flags raised as given. */
  function Retitled(t: Track, number: nat, name: string, title: string, rename: bool, remark: bool): (r: Track)
    ensures r.number == number && r.meta.metaNumber == number
    ensures r.name == name && r.meta.metaTitle == title
    ensures r.needsRename == (t.needsRename || rename) && r.meta.needsRemark == (t.meta.needsRemark || remark)
    ensures r.audioFile == t.audioFile && r.misnumbered == t.misnumbered && r.meta.codec == t.meta.codec
    ensures r.meta.needsReencode == t.meta.needsReencode && r.meta.needsReplayGain == t.meta.needsReplayGain
  {
    t.(number := number, name := name, needsRename := t.needsRename || rename,
       meta := t.meta.(metaNumber := number, metaTitle := title, needsRemark := t.meta.needsRemark || remark))
  }

  /** The track after entry `best` won (Audite.py:1026-1048): the number and
      the title come from the cuesheet, the file title made safe, and each
      disagreement is flagged. */
  function Matched(t: Track, entries: seq<string>, best: nat): (r: Track)
    requires best < |entries|
    ensures r.number == r.meta.metaNumber == best + 1
    ensures r.meta.metaTitle == entries[best] && r.name == Safety.EnsureStringSafety(r.meta.metaTitle)
    ensures r.needsRename <==>
      t.needsRename || t.number != best + 1 || t.name != Safety.EnsureStringSafety(entries[best])
    ensures r.meta.needsRemark <==>
      t.meta.needsRemark ||
      (t.meta.metaNumber > 0 && t.meta.metaNumber != best + 1) ||
      (|t.meta.metaTitle| > 0 && t.meta.metaTitle != entries[best])
    ensures r.audioFile == t.audioFile && r.misnumbered == t.misnumbered && r.meta.codec == t.meta.codec
  {
    var cueNumber := best + 1;
    var cueTitle := entries[best];
    var bestName := Safety.EnsureStringSafety(cueTitle);
    var rename := t.number != cueNumber || t.name != bestName;
    var remark := (t.meta.metaNumber > 0 && t.meta.metaNumber != cueNumber)
                  || (|t.meta.metaTitle| > 0 && t.meta.metaTitle != cueTitle);
    Retitled(t, cueNumber, bestName, cueTitle, rename, remark)
  }

  // ---------------------------------------------------------------------------
  // Fallback without a usable cuesheet (Audite.py:1049-1075)
  // ---------------------------------------------------------------------------

  /** The track when the cuesheet does not list every track: the title is
      normalised by `coerceTitle`; the number stays only when the
      file and the tag agree on a non-zero number, else the alphabetical
      position `checkNum` is used; a tag title equal to the normalised title
      up to safety is kept as the better-cased one. */
  function Fallback(t: Track, checkNum: nat, noCaps: bool): (r: Track)
    ensures r.number == r.meta.metaNumber
    ensures r.name == Safety.EnsureStringSafety(r.meta.metaTitle)
    ensures r.audioFile == t.audioFile && r.misnumbered == t.misnumbered && r.meta.codec == t.meta.codec
  {
    var bestTitle := Titles.CoercedTitle(t.name, noCaps);
    var number := FallbackNumber(t.number, t.meta.metaNumber, checkNum);
    var bestName := Safety.EnsureStringSafety(bestTitle);
    var (title, conflict) := FallbackTitle(t.meta.metaTitle, bestTitle);
    Retitled(t, number, bestName, title, t.name != bestName, t.meta.metaNumber != number || conflict)
  }

  /** The number kept by the fallback: the file's own number when the tag
      agrees with it and it is not 0, otherwise the alphabetical position. */
  function FallbackNumber(fileNo: nat, tagNo: nat, checkNum: nat): (n: nat)
    ensures n == fileNo || n == checkNum
    ensures n == fileNo <== fileNo == tagNo && fileNo != 0
    ensures n == checkNum <== fileNo != tagNo || fileNo == 0
  {
    if fileNo != tagNo || 0 == fileNo then checkNum else fileNo
  }

  /** What the fallback decides: the number stays only when the file and the
      tag agree on a non-zero number; the title is the normalised file title,
      or the tag title when the two agree up to safety; the tag is rewritten
      whenever its number changes, and the file renamed whenever its title
      changes. */
  lemma FallbackDecisions(t: Track, checkNum: nat, noCaps: bool)
    ensures var r := Fallback(t, checkNum, noCaps);
      r.number == FallbackNumber(t.number, t.meta.metaNumber, checkNum)
    ensures var r := Fallback(t, checkNum, noCaps); var bestTitle := Titles.CoercedTitle(t.name, noCaps);
      && r.name == Safety.EnsureStringSafety(bestTitle)
      && (r.meta.metaTitle == bestTitle ||
          (r.meta.metaTitle == t.meta.metaTitle && Safety.EnsureStringSafety(t.meta.metaTitle) == bestTitle))
    ensures var r := Fallback(t, checkNum, noCaps); var bestTitle := Titles.CoercedTitle(t.name, noCaps);
      && (r.meta.needsRemark <==>
            t.meta.needsRemark || t.meta.metaNumber != r.number ||
            (|t.meta.metaTitle| > 0 && Safety.EnsureStringSafety(t.meta.metaTitle) != bestTitle))
      && (r.needsRename <==> t.needsRename || t.name != r.name)
  {
  }

  /** The title kept by the fallback and whether the tag title conflicts
      with it: a non-empty tag title whose safe form is the normalised title
      is kept as the better-cased one, otherwise the normalised title wins.
      Either way the kept title has the safe form of the normalised one. */
  function FallbackTitle(tag: string, bestTitle: string): (r: (string, bool))
    ensures r.1 <==> |tag| > 0 && Safety.EnsureStringSafety(tag) != bestTitle
    ensures r.0 == bestTitle || (r.0 == tag && |tag| > 0 && !r.1)
    ensures |tag| > 0 && !r.1 ==> r.0 == tag
    ensures Safety.EnsureStringSafety(r.0) == Safety.EnsureStringSafety(bestTitle)
  {
    if |tag| > 0 && Safety.EnsureStringSafety(tag) == bestTitle then
      KeptTagTitle(tag, bestTitle);
      (tag, false)
    else (bestTitle, |tag| > 0)
  }

  /** A tag title whose safe form is the normalised title has the same safe
      form as the normalised title itself. */
  lemma KeptTagTitle(tag: string, bestTitle: string)
    requires Safety.EnsureStringSafety(tag) == bestTitle
    ensures Safety.EnsureStringSafety(bestTitle) == Safety.EnsureStringSafety(tag)
  {
    Safety.SafetyIdempotent(tag);
  }

  // ---------------------------------------------------------------------------
  // Canonical name and status (Audite.py:1077-1108)
  // ---------------------------------------------------------------------------

  /** The canonical file name `NN. Title.codec` for the track's number width,
      and the rename flag when the file is named otherwise. */
  function Named(t: Track, width: nat): (r: Track)
    ensures r.goodName == FileNames.GoodTrackName(t.number, t.name, t.meta.codec, width)
    ensures r.needsRename <==> t.needsRename || t.audioFile != r.goodName
    ensures r.(goodName := t.goodName, needsRename := t.needsRename) == t
  {
    var goodName := FileNames.GoodTrackName(t.number, t.name, t.meta.codec, width);
    t.(goodName := goodName, needsRename := t.needsRename || t.audioFile != goodName)
  }

  /** `Track.isNormal`: the codec was recognised. */
  predicate IsNormal(t: Track) {
    |t.meta.codec| > 0
  }

  /** `Track.isOk`. */
  predicate IsOk(t: Track) {
    IsNormal(t) && !(t.misnumbered || t.meta.needsReencode || t.needsRename
                     || t.meta.needsRemark || t.meta.needsReplayGain)
  }

  /** The numbers and titles of a set-up track agree with each other, and the
      canonical name is built from them. */
  predicate Consistent(t: Track, width: nat) {
    && t.number == t.meta.metaNumber
    && t.name == Safety.EnsureStringSafety(t.meta.metaTitle)
    && t.goodName == FileNames.GoodTrackName(t.number, t.name, t.meta.codec, width)
    && (t.audioFile != t.goodName ==> t.needsRename)
  }

  /** A track in order already carries its canonical file name. */
  lemma OkIsCanonical(t: Track, width: nat)
    requires Consistent(t, width) && IsOk(t)
    ensures t.audioFile == FileNames.GoodTrackName(t.meta.metaNumber, t.name, t.meta.codec, width)
  {
  }

  // ---------------------------------------------------------------------------
  // The whole set-up
  // ---------------------------------------------------------------------------

  /** The track as its file name and tags describe it, before the cuesheet
      is consulted (Audite.py:477-1003). */
  function Draft(fileName: string, checkNum: nat, d: Tags.Dumps, al: Tags.AlbumFacts, cfg: Tags.Config)
    : (r: Result<Track>)
    ensures r.Ok? ==> r.value.audioFile == fileName && !r.value.needsRename
    ensures r.Ok? ==> Tags.ReadTags(d, al, cfg) == Ok(r.value.meta)
  {
    var f :- FileNames.SplitTrackFile(fileName, checkNum);
    var meta :- Tags.ReadTags(d, al, cfg);
    Ok(Track(fileName, f.number, f.name, f.ext, f.misnumbered, meta, false, ""))
  }

  /** The whole of `Track.__init__` for the file `fileName` at alphabetical
      position `checkNum`, given the album's current `entries` and
      `trackTotal`: the track, and the entry it consumed when it was matched
      against the cuesheet. */
  function NewTrack(fileName: string, checkNum: nat, d: Tags.Dumps, al: Tags.AlbumFacts, cfg: Tags.Config,
                    entries: seq<string>, width: nat, sim: Similarity, noCaps: bool)
    : (r: Result<(Track, Option<nat>)>)
    ensures r.Ok? <==> Draft(fileName, checkNum, d, al, cfg).Ok?
    ensures r.Ok? ==> Consistent(r.value.0, width) && r.value.0.audioFile == fileName
    ensures r.Ok? ==> (r.value.1.Some? <==> |entries| == al.trackTotal && al.trackTotal > 0)
    ensures r.Ok? && r.value.1.Some? ==>
      && r.value.1.value == FirstBest(Scores(sim, Draft(fileName, checkNum, d, al, cfg).value, entries))
      && r.value.1.value < |entries|
      && r.value.0.number == r.value.1.value + 1
      && r.value.0.meta.metaTitle == entries[r.value.1.value]
  {
    var t :- Draft(fileName, checkNum, d, al, cfg);
    if |entries| == al.trackTotal && al.trackTotal > 0 then
      var best := FirstBest(Scores(sim, t, entries));
      Ok((Named(Matched(t, entries, best), width), Some(best)))
    else
      Ok((Named(Fallback(t, checkNum, noCaps), width), None))
  }
}
