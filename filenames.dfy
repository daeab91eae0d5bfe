/** File-name helpers of Audite.py: extension predicates, the cover-name
    score, cue-line cutting, common prefixes and suffixes, and the split of a
    file name into track number and title (for track files, for cue `FILE`
    entries and for files inside the sub-albums of a complex album). */
module FileNames {
  import opened Text
  import opened Wrappers
  import Titles

  // ---------------------------------------------------------------------------
  // Extensions (Audite.py:227-249)
  // ---------------------------------------------------------------------------

  /** The lower-cased text after the last dot, if the name has a dot. */
  function Extension(fName: string): (r: Option<string>)
    ensures r.None? <==> '.' !in fName
  {
    RFindChar(fName, '.');
    var lastDot := RFind(fName, ".");
    if lastDot < 0 then None else Some(LowerStr(fName[lastDot + 1..]))
  }

  predicate IsAudioFile(fName: string) {
    var e := Extension(fName);
    e.Some? && (e.value == "flac" || e.value == "m4a" || e.value == "mp3")
  }

  predicate IsCuesheet(fName: string) {
    Extension(fName) == Some("cue")
  }

  predicate IsImageFile(fName: string) {
    var e := Extension(fName);
    e.Some? && (e.value == "jpg" || e.value == "jpeg" || e.value == "png" || e.value == "bmp" || e.value == "webp")
  }

  /** The last dot of `stem.ext` is the one before `ext`, when `ext` has none. */
  lemma LastDotOf(stem: string, ext: string)
    requires '.' !in ext
    ensures RFind(stem + "." + ext, ".") == |stem|
    ensures (stem + "." + ext)[..|stem|] == stem && (stem + "." + ext)[|stem| + 1..] == ext
  {
    var f := stem + "." + ext;
    RFindChar(f, '.');
    var r := RFind(f, ".");
    assert f[|stem|] == '.';
    forall k | |stem| < k < |f| ensures f[k] != '.' {
      assert f[k] == ext[k - |stem| - 1];
    }
    var tail := f[r + 1..];
    forall k | r + 1 <= k < |f| ensures f[k] != '.' {
      assert f[k] == tail[k - r - 1];
    }
    assert r == |stem|;
    assert f[..|stem|] == stem;
    assert f[|stem| + 1..] == ext;
  }

  /** The extension of `stem.ext` is `ext`, lower-cased, whatever the stem. */
  lemma ExtensionOf(stem: string, ext: string)
    requires '.' !in ext
    ensures Extension(stem + "." + ext) == Some(LowerStr(ext))
  {
    LastDotOf(stem, ext);
  }

  // ---------------------------------------------------------------------------
  // Cover-name score (Audite.py:257-274)
  // ---------------------------------------------------------------------------

  /** `nameCrit`: a score for an image file's name, the first keyword that
      occurs (case-insensitively) deciding. */
  function NameCrit(name: string): (r: int)
    ensures r <= 0
    ensures r == 0 <==> Contains(LowerStr(name), "cover")
    ensures r in {0, -1, -2, -5, -50, -100, -110, -130}
  {
    var low := LowerStr(name);
    if Contains(low, "cover") then 0
    else if Contains(low, "folder") then -1
    else if Contains(low, "front") then -2
    else if Contains(low, "image") then -5
    else if Contains(low, "artist") then -100
    else if Contains(low, "logo") then -110
    else if Contains(low, "back") then -130
    else -50
  }

  /** Names without any keyword rank above "artist", "logo" and "back" and
      below "cover", "folder", "front" and "image". */
  lemma NameCritPlainName(name: string)
    requires forall k :: k in ["cover", "folder", "front", "image", "artist", "logo", "back"] ==>
      !Contains(LowerStr(name), k)
    ensures NameCrit(name) == -50
    ensures forall other :: Contains(LowerStr(other), "image") ==> NameCrit(other) > NameCrit(name)
  {
  }

  // ---------------------------------------------------------------------------
  // cutCueLine (Audite.py:299-305)
  // ---------------------------------------------------------------------------

  /** `cutCueLine`: strip the line and, when it starts with a double quote,
      drop its first and last character and strip again. An empty stripped
      line makes `line[-1]` fail. The branch that removes a trailing
      carriage return after `strip` never fires (`strip` already removed it)
      and is not modelled. */
  function CutCueLine(line: string): (r: Result<string>)
    ensures r.Err? <==> Strip(line) == []
    ensures r.Ok? ==> Strip(r.value) == r.value && |r.value| <= |line|
  {
    var l := Strip(line);
    if l == [] then Err(IndexOutOfRange)
    else if l[0] == '"' then
      StripStrip(Slice(l, 1, -1));
      Ok(Strip(Slice(l, 1, -1)))
    else
      StripStrip(line);
      Ok(l)
  }

  /** A quoted value, with any whitespace around the quotes, comes back
      without the quotes. */
  lemma CutCueLineQuoted(pre: string, value: string, post: string)
    requires forall i :: 0 <= i < |pre| ==> IsSpace(pre[i])
    requires forall i :: 0 <= i < |post| ==> IsSpace(post[i])
    requires Strip(value) == value
    ensures CutCueLine(pre + "\"" + value + "\"" + post) == Ok(value)
  {
    var q := "\"" + value + "\"";
    assert pre + "\"" + value + "\"" + post == pre + q + post;
    StripPadded(pre, q, post);
    assert Slice(q, 1, -1) == value;
  }

  /** An unquoted value with non-blank ends comes back unchanged. */
  lemma CutCueLineBare(pre: string, value: string, post: string)
    requires forall i :: 0 <= i < |pre| ==> IsSpace(pre[i])
    requires forall i :: 0 <= i < |post| ==> IsSpace(post[i])
    requires value != [] && value[0] != '"' && !IsSpace(value[0]) && !IsSpace(value[|value| - 1])
    ensures CutCueLine(pre + value + post) == Ok(value)
  {
    StripPadded(pre, value, post);
  }

  // ---------------------------------------------------------------------------
  // getCommonPrefPostFixes (Audite.py:279-297)
  // ---------------------------------------------------------------------------

  /** `min([len(s) for s in strs])`. */
  function MinLen(strs: seq<string>): (m: nat)
    requires |strs| > 0
    ensures forall j :: 0 <= j < |strs| ==> m <= |strs[j]|
    ensures exists j :: 0 <= j < |strs| && m == |strs[j]|
  {
    if |strs| == 1 then |strs[0]|
    else
      var m := MinLen(strs[1..]);
      assert forall j :: 1 <= j < |strs| ==> strs[j] == strs[1..][j - 1];
      if |strs[0]| <= m then |strs[0]| else m
  }

  /** The set of characters the strings hold at index `i` from the front. */
  function CharsAt(strs: seq<string>, i: nat): set<char>
    requires forall j :: 0 <= j < |strs| ==> i < |strs[j]|
  {
    set j | 0 <= j < |strs| :: strs[j][i]
  }

  /** The set of characters the strings hold at index `i` from the back. */
  function CharsFromEnd(strs: seq<string>, i: nat): set<char>
    requires 0 < i && forall j :: 0 <= j < |strs| ==> i <= |strs[j]|
  {
    set j | 0 <= j < |strs| :: strs[j][|strs[j]| - i]
  }

  lemma SubsetCard(a: set<char>, b: set<char>)
    requires a <= b
    ensures |a| <= |b|
  {
    if a != {} {
      var x :| x in a;
      SubsetCard(a - {x}, b - {x});
    }
  }

  /** `len(set(...)) == 1` at a front index: all strings agree there. */
  lemma CharsAtSingleton(strs: seq<string>, i: nat)
    requires |strs| > 0 && forall j :: 0 <= j < |strs| ==> i < |strs[j]|
    ensures |CharsAt(strs, i)| == 1 <==> forall j :: 0 <= j < |strs| ==> strs[j][i] == strs[0][i]
  {
    var cs := CharsAt(strs, i);
    assert strs[0][i] in cs;
    if forall j :: 0 <= j < |strs| ==> strs[j][i] == strs[0][i] {
      assert cs == {strs[0][i]};
    } else {
      var j :| 0 <= j < |strs| && strs[j][i] != strs[0][i];
      assert strs[j][i] in cs;
      SubsetCard({strs[0][i], strs[j][i]}, cs);
    }
  }

  /** `len(set(...)) == 1` at a back index: all strings agree there. */
  lemma CharsFromEndSingleton(strs: seq<string>, i: nat)
    requires |strs| > 0 && 0 < i && forall j :: 0 <= j < |strs| ==> i <= |strs[j]|
    ensures |CharsFromEnd(strs, i)| == 1 <==>
      forall j :: 0 <= j < |strs| ==> strs[j][|strs[j]| - i] == strs[0][|strs[0]| - i]
  {
    var cs := CharsFromEnd(strs, i);
    assert 0 < i && i <= |strs[0]|;
    var c0 := strs[0][|strs[0]| - i];
    assert c0 in cs;
    if forall j :: 0 <= j < |strs| ==> strs[j][|strs[j]| - i] == c0 {
      assert cs == {c0};
    } else {
      var j :| 0 <= j < |strs| && strs[j][|strs[j]| - i] != c0;
      assert strs[j][|strs[j]| - i] in cs;
      SubsetCard({c0, strs[j][|strs[j]| - i]}, cs);
    }
  }

  predicate AllStartWith(strs: seq<string>, pre: string) {
    forall j :: 0 <= j < |strs| ==> StartsWith(strs[j], pre)
  }

  predicate AllEndWith(strs: seq<string>, post: string) {
    forall j :: 0 <= j < |strs| ==> EndsWith(strs[j], post)
  }

  /** Where the common prefix ends when it already reaches index `i`: the
      first index below the shortest length at which the strings disagree. */
  function PrefixEnd(strs: seq<string>, i: nat): (r: nat)
    requires |strs| > 0 && i <= MinLen(strs)
    ensures i <= r <= MinLen(strs)
    decreases MinLen(strs) - i
  {
    if i < MinLen(strs) && |CharsAt(strs, i)| == 1 then PrefixEnd(strs, i + 1) else i
  }

  /** The prefix half of `getCommonPrefPostFixes`. */
  function CommonPrefixOf(strs: seq<string>): string
    requires |strs| > 0
  {
    strs[0][..PrefixEnd(strs, 0)]
  }

  /** It is the longest common prefix: every string starts with it, and it
      stops at the shortest length or where two strings differ. */
  lemma CommonPrefixOfIsLongest(strs: seq<string>)
    requires |strs| > 0
    ensures var p := CommonPrefixOf(strs);
      && AllStartWith(strs, p) && |p| <= MinLen(strs)
      && (|p| < MinLen(strs) ==> exists j :: 0 <= j < |strs| && strs[j][|p|] != strs[0][|p|])
  {
    PrefixEndFacts(strs, 0);
  }

  lemma {:induction false} PrefixEndFacts(strs: seq<string>, i: nat)
    requires |strs| > 0 && i <= MinLen(strs) && AllStartWith(strs, strs[0][..i])
    ensures var e := PrefixEnd(strs, i);
      && AllStartWith(strs, strs[0][..e])
      && (e < MinLen(strs) ==> exists j :: 0 <= j < |strs| && strs[j][e] != strs[0][e])
    decreases MinLen(strs) - i
  {
    if i < MinLen(strs) {
      CharsAtSingleton(strs, i);
      if |CharsAt(strs, i)| == 1 {
        forall j | 0 <= j < |strs| ensures StartsWith(strs[j], strs[0][..i + 1]) {
          assert strs[j][..i + 1] == strs[j][..i] + [strs[j][i]];
          assert strs[0][..i + 1] == strs[0][..i] + [strs[0][i]];
        }
        PrefixEndFacts(strs, i + 1);
      }
    }
  }

  /** The prefix loop of `getCommonPrefPostFixes`. */
  method CommonPrefix(strs: seq<string>) returns (commPref: string)
    requires |strs| > 0
    ensures commPref == CommonPrefixOf(strs)
  {
    var minLen := MinLen(strs);
    commPref := "";
    var i := 0;
    while i < minLen
      invariant 0 <= i <= minLen && commPref == strs[0][..i]
      invariant PrefixEnd(strs, i) == PrefixEnd(strs, 0)
    {
      if |CharsAt(strs, i)| != 1 {
        break;
      }
      commPref := commPref + [strs[0][i]];
      assert strs[0][..i + 1] == strs[0][..i] + [strs[0][i]];
      i := i + 1;
    }
  }

  /** A common suffix of length `i - 1` grows by the character all the
      strings share at index `i` from the back. */
  lemma EndsWithExtended(strs: seq<string>, i: nat, post: string)
    requires |strs| > 0 && 0 < i && |post| == i - 1
    requires forall j :: 0 <= j < |strs| ==> i <= |strs[j]|
    requires forall j :: 0 <= j < |strs| ==> strs[j][|strs[j]| - i] == strs[0][|strs[0]| - i]
    requires AllEndWith(strs, post)
    ensures AllEndWith(strs, [strs[0][|strs[0]| - i]] + post)
  {
    forall j | 0 <= j < |strs| ensures EndsWith(strs[j], [strs[0][|strs[0]| - i]] + post) {
      assert strs[j][|strs[j]| - i..] == [strs[j][|strs[j]| - i]] + strs[j][|strs[j]| - (i - 1)..];
    }
  }

  /** Where the common suffix loop stops when it has reached index `i` from
      the back: it only looks at indexes 1 to `minLen - 1`. */
  function PostEnd(strs: seq<string>, i: nat): (r: nat)
    requires |strs| > 0 && 1 <= i && (MinLen(strs) > 0 ==> i <= MinLen(strs))
    ensures i <= r && (r == i || r <= MinLen(strs))
    decreases MinLen(strs) - i
  {
    if i < MinLen(strs) && |CharsFromEnd(strs, i)| == 1 then PostEnd(strs, i + 1) else i
  }

  /** The suffix half of `getCommonPrefPostFixes`. */
  function CommonPostfixOf(strs: seq<string>): string
    requires |strs| > 0
  {
    var e := PostEnd(strs, 1);
    assert MinLen(strs) <= |strs[0]|;
    strs[0][|strs[0]| + 1 - e..]
  }

  /** It is the longest common suffix strictly shorter than the shortest
      string: every string ends with it, and it stops one short of the
      shortest length or where two strings differ. */
  lemma CommonPostfixOfIsLongest(strs: seq<string>)
    requires |strs| > 0
    ensures var p := CommonPostfixOf(strs);
      && AllEndWith(strs, p)
      && |p| <= (if MinLen(strs) == 0 then 0 else MinLen(strs) - 1)
      && (|p| + 1 < MinLen(strs) ==> !AllEndWith(strs, strs[0][|strs[0]| - |p| - 1..]))
  {
    var e := PostEnd(strs, 1);
    PostfixShape(strs, e);
    var p := CommonPostfixOf(strs);
    if |p| + 1 < MinLen(strs) {
      PostEndNotLonger(strs, e);
      assert strs[0][|strs[0]| - |p| - 1..] == strs[0][|strs[0]| - e..];
    }
  }

  /** The suffix is the last `e - 1` characters of the first string, where
      `e` is where the loop stops, and every string ends with it. */
  lemma PostfixShape(strs: seq<string>, e: nat)
    requires |strs| > 0 && e == PostEnd(strs, 1)
    ensures e <= |strs[0]| + 1 && (MinLen(strs) > 0 ==> e <= MinLen(strs))
    ensures CommonPostfixOf(strs) == strs[0][|strs[0]| + 1 - e..]
    ensures |CommonPostfixOf(strs)| == e - 1
    ensures AllEndWith(strs, CommonPostfixOf(strs))
  {
    assert MinLen(strs) <= |strs[0]|;
    assert AllEndWith(strs, strs[0][|strs[0]|..]);
    PostEndCommon(strs, 1, e);
  }

  /** Where the loop stops before the shortest length, the suffix one
      character longer is not common to all the strings. */
  lemma PostEndNotLonger(strs: seq<string>, e: nat)
    requires |strs| > 0 && e == PostEnd(strs, 1) && e < MinLen(strs)
    ensures !AllEndWith(strs, strs[0][|strs[0]| - e..])
  {
    PostEndStops(strs, 1);
    CharsFromEndSingleton(strs, e);
    var j :| 0 <= j < |strs| && strs[j][|strs[j]| - e] != strs[0][|strs[0]| - e];
    var longer := strs[0][|strs[0]| - e..];
    assert |longer| == e && longer[0] == strs[0][|strs[0]| - e];
    assert strs[j][|strs[j]| - e..][0] == strs[j][|strs[j]| - e];
  }

  lemma {:induction false} PostEndStops(strs: seq<string>, i: nat)
    requires |strs| > 0 && 1 <= i && (MinLen(strs) > 0 ==> i <= MinLen(strs))
    ensures var e := PostEnd(strs, i); e < MinLen(strs) ==> |CharsFromEnd(strs, e)| != 1
    decreases MinLen(strs) - i
  {
    if i < MinLen(strs) && |CharsFromEnd(strs, i)| == 1 {
      PostEndStops(strs, i + 1);
    }
  }

  /** When the loop goes past `i` it found the same character there in every
      string, and it ends where it would have ended starting from `i + 1`. */
  lemma PostEndMoves(strs: seq<string>, i: nat)
    requires |strs| > 0 && 1 <= i && (MinLen(strs) > 0 ==> i <= MinLen(strs)) && i < PostEnd(strs, i)
    ensures i < MinLen(strs) && |CharsFromEnd(strs, i)| == 1 && PostEnd(strs, i) == PostEnd(strs, i + 1)
  {
  }

  /** One more agreeing character from the back extends the common suffix. */
  lemma PostEndExtend(strs: seq<string>, i: nat)
    requires |strs| > 0 && 1 <= i < MinLen(strs) && MinLen(strs) <= |strs[0]|
    requires |CharsFromEnd(strs, i)| == 1 && AllEndWith(strs, strs[0][|strs[0]| + 1 - i..])
    ensures AllEndWith(strs, strs[0][|strs[0]| + 1 - (i + 1)..])
  {
    CharsFromEndSingleton(strs, i);
    EndsWithExtended(strs, i, strs[0][|strs[0]| + 1 - i..]);
    SuffixCons(strs[0], i);
  }

  /** The suffix of length `i` is one character in front of the suffix of
      length `i - 1`. */
  lemma SuffixCons(s: string, i: nat)
    requires 1 <= i <= |s|
    ensures [s[|s| - i]] + s[|s| + 1 - i..] == s[|s| + 1 - (i + 1)..]
  {
  }

  /** Every string ends with the suffix the loop has collected by the time it
      stops at `e`. */
  lemma {:induction false} PostEndCommon(strs: seq<string>, i: nat, e: nat)
    requires SuffixLoopInv(strs, i) && e == PostEnd(strs, i) && e <= |strs[0]| + 1
    ensures AllEndWith(strs, strs[0][|strs[0]| + 1 - e..])
    decreases e - i
  {
    if i < e {
      PostEndStep(strs, i);
      PostEndCommon(strs, i + 1, e);
    }
  }

  /** What holds at index `i` of the suffix loop: every string ends with
      the last `i - 1` characters of the first. */
  predicate SuffixLoopInv(strs: seq<string>, i: nat) {
    |strs| > 0 && 1 <= i && (MinLen(strs) > 0 ==> i <= MinLen(strs)) && MinLen(strs) <= |strs[0]| &&
    i <= |strs[0]| + 1 && AllEndWith(strs, strs[0][|strs[0]| + 1 - i..])
  }

  /** One step of the suffix loop keeps the loop's invariant. */
  lemma PostEndStep(strs: seq<string>, i: nat)
    requires SuffixLoopInv(strs, i) && i < PostEnd(strs, i)
    ensures SuffixLoopInv(strs, i + 1) && PostEnd(strs, i) == PostEnd(strs, i + 1)
  {
    PostEndMoves(strs, i);
    PostEndExtend(strs, i);
  }

  /** The suffix loop of `getCommonPrefPostFixes` (the loop index runs from
      1 to `minLen - 1`). */
  method CommonPostfix(strs: seq<string>) returns (commPost: string)
    requires |strs| > 0
    ensures commPost == CommonPostfixOf(strs)
  {
    var minLen := MinLen(strs);
    commPost := "";
    var i := 1;
    while i < minLen
      invariant 1 <= i && (minLen > 0 ==> i <= minLen) && |commPost| == i - 1
      invariant minLen <= |strs[0]| && i - 1 <= |strs[0]|
      invariant commPost == strs[0][|strs[0]| + 1 - i..]
      invariant PostEnd(strs, i) == PostEnd(strs, 1)
    {
      if |CharsFromEnd(strs, i)| != 1 {
        break;
      }
      assert [strs[0][|strs[0]| - i]] + commPost == strs[0][|strs[0]| - i..];
      commPost := [strs[0][|strs[0]| - i]] + commPost;
      i := i + 1;
    }
  }

  /** `getCommonPrefPostFixes` (Audite.py:279-297). */
  method CommonPrefPostFixes(strs: seq<string>) returns (commPref: string, commPost: string)
    requires |strs| > 0
    ensures commPref == CommonPrefixOf(strs) && commPost == CommonPostfixOf(strs)
  {
    commPref := CommonPrefix(strs);
    commPost := CommonPostfix(strs);
  }

  // ---------------------------------------------------------------------------
  // Number and title in a file name (Audite.py:477-498, 1414-1432, 1816-1828)
  // ---------------------------------------------------------------------------

  /** The index of the first non-digit at or after `from`. */
  function DigitEnd(s: string, from: nat): (r: nat)
    requires from <= |s|
    ensures from <= r <= |s|
    ensures forall k :: from <= k < r ==> IsDigit(s[k])
    ensures r < |s| ==> !IsDigit(s[r])
    decreases |s| - from
  {
    if from < |s| && IsDigit(s[from]) then DigitEnd(s, from + 1) else from
  }

  /** The `while namePos < len(s) and s[namePos].isdigit()` loop. */
  method ScanDigits(s: string, from: nat) returns (pos: nat)
    requires from <= |s|
    ensures pos == DigitEnd(s, from)
  {
    pos := from;
    while pos < |s| && IsDigit(s[pos])
      invariant from <= pos <= |s|
      invariant DigitEnd(s, pos) == DigitEnd(s, from)
      decreases |s| - pos
    {
      pos := pos + 1;
    }
  }

  /** The rule that decides whether a digit run ending at `namePos` is a
      track number: a character follows it and is `.`, `-` or a blank, or
      the digits take less than a third of the text. */
  predicate SplitsAt(s: string, namePos: nat) {
    namePos < |s| && (s[namePos] == '.' || s[namePos] == '-' || s[namePos] == ' ' || 3 * namePos < |s|)
  }

  /** After the number: drop one leading `.` or `-` and the blanks after it. */
  function DropMark(s: string): (r: string)
    requires s != []
    ensures |r| <= |s|
  {
    if s[0] == '.' || s[0] == '-' then LStrip(s[1..]) else s
  }

  /** What `Track.__init__` learns from a file name. */
  datatype TrackFileName = TrackFileName(number: nat, name: string, ext: string, misnumbered: bool)

  /** A stripped stem whose leading digits form a track number. */
  predicate HasNumber(stem: string) {
    stem != [] && IsDigit(stem[0]) && SplitsAt(stem, DigitEnd(stem, 0))
  }

  /** The left-stripped rest after a number is never empty, since the stem
      ends with a non-blank. */
  lemma RestNonEmpty(stem: string, k: nat)
    requires k < |stem| && !IsSpace(stem[|stem| - 1])
    ensures LStrip(stem[k..]) != []
  {
    var rest := stem[k..];
    assert rest[|rest| - 1] == stem[|stem| - 1];
  }

  /** The number and title read from a stripped, non-empty stem: the
      number is 0 and the title the whole stem unless the stem has a number. */
  function SplitStem(stem: string): (r: (nat, string))
    requires stem != [] && !IsSpace(stem[|stem| - 1])
    ensures !HasNumber(stem) ==> r == (0, stem)
    ensures HasNumber(stem) ==>
      var k := DigitEnd(stem, 0);
      r.0 == NatOf(stem[..k]) && |r.1| <= |stem| - k
  {
    if !IsDigit(stem[0]) then (0, stem)
    else
      var namePos := DigitEnd(stem, 1);
      assert namePos == DigitEnd(stem, 0);
      if SplitsAt(stem, namePos) then
        RestNonEmpty(stem, namePos);
        (NatOf(stem[..namePos]), DropMark(LStrip(stem[namePos..])))
      else
        (0, stem)
  }

  /** The file-name analysis of `Track.__init__` (Audite.py:477-498). A name
      without a dot makes `rindex` fail; a blank stem makes `numAndTitle[0]`
      fail. The track is misnumbered exactly when the stem has a number and
      it differs from the expected one. */
  function SplitTrackFile(fileName: string, checkNum: int): (r: Result<TrackFileName>)
    ensures r.Err? <==> RFind(fileName, ".") < 0 || Strip(fileName[..RFind(fileName, ".")]) == []
    ensures r.Ok? ==>
      var stem := Strip(fileName[..RFind(fileName, ".")]);
      r.value.ext == fileName[RFind(fileName, ".") + 1..] &&
      (r.value.misnumbered <==> HasNumber(stem) && checkNum != r.value.number) &&
      (r.value.number, r.value.name) == SplitStem(stem)
  {
    RFindChar(fileName, '.');
    if '.' !in fileName then Err(SubstringNotFound)
    else
      var dotPos := RFind(fileName, ".");
      var stem := Strip(fileName[..dotPos]);
      if stem == [] then Err(IndexOutOfRange)
      else
        var (number, name) := SplitStem(stem);
        Ok(TrackFileName(number, name, fileName[dotPos + 1..], HasNumber(stem) && checkNum != number))
  }

  /** A digit run followed by a non-digit ends where the run ends. */
  lemma DigitEndOf(d: string, rest: string)
    requires forall k :: 0 <= k < |d| ==> IsDigit(d[k])
    requires rest != [] && !IsDigit(rest[0])
    ensures DigitEnd(d + rest, 0) == |d|
  {
    var s := d + rest;
    var e := DigitEnd(s, 0);
    assert forall k :: 0 <= k < |d| ==> s[k] == d[k];
    assert s[|d|] == rest[0];
  }

  /** `len(str(n))`, the width in the track-number format `tNumFmt`
      (Audite.py:1522-1524, 2105-2106). */
  function NumberWidth(trackTotal: nat): (w: nat)
    ensures w >= 1 && (w == 1 <==> trackTotal < 10)
  {
    |Decimal(trackTotal)|
  }

  /** The stem of the canonical track file name: `NN. Title` with the number
      zero-padded to `width`, or the bare title for track number 0. */
  function TrackStem(number: nat, name: string, width: nat): string {
    if number > 0 then ZeroPad(number, width) + ". " + name else name
  }

  /** The codec written in the canonical name: ALAC tracks become FLAC. */
  function TargetCodec(codec: string): (c: string)
    ensures c != "m4a"
    ensures codec != "m4a" ==> c == codec
  {
    if codec == "m4a" then "flac" else codec
  }

  /** The canonical track file name (Audite.py:1087-1094). */
  function GoodTrackName(number: nat, name: string, codec: string, width: nat): string {
    TrackStem(number, name, width) + "." + TargetCodec(codec)
  }

  /** A title that survives `strip` untouched and is not empty. */
  predicate IsTrimmed(name: string) {
    name != [] && !IsSpace(name[0]) && !IsSpace(name[|name| - 1])
  }

  /** After the number of a canonical stem comes `. `, which is dropped. */
  lemma DropMarkOfDotted(name: string)
    requires name != [] && !IsSpace(name[0])
    ensures LStrip(". " + name) == ". " + name && DropMark(". " + name) == name
  {
    assert (". " + name)[1..] == " " + name;
    assert (" " + name)[1..] == name;
  }

  /** A numbered canonical stem splits into its number and its title. */
  lemma SplitNumberedStem(d: string, name: string)
    requires IsNumeric(d) && IsTrimmed(name)
    ensures var stem := d + ". " + name;
      HasNumber(stem) && SplitStem(stem) == (NatOf(d), name) && IsTrimmed(stem)
  {
    DottedStem(d, name);
    DigitEndOf(d, ". " + name);
    DropMarkOfDotted(name);
    SplitStemAtDot(d + ". " + name, |d|, d, name);
  }

  /** Where the parts of a numbered canonical stem sit. */
  lemma DottedStem(d: string, name: string)
    requires IsNumeric(d) && IsTrimmed(name)
    ensures d + ". " + name == d + (". " + name)
    ensures (d + ". " + name)[0] == d[0] && (d + ". " + name)[|d|] == '.'
    ensures (d + ". " + name)[..|d|] == d && (d + ". " + name)[|d|..] == ". " + name
    ensures (d + ". " + name)[|d + ". " + name| - 1] == name[|name| - 1]
  {
    var stem := d + ". " + name;
    assert stem == d + (". " + name);
    assert stem[|d|..] == ". " + name;
  }

  /** A stem whose digits end at a dot splits there. */
  lemma SplitStemAtDot(stem: string, k: nat, n: string, name: string)
    requires 0 < k < |stem| && !IsSpace(stem[|stem| - 1]) && IsDigit(stem[0])
    requires DigitEnd(stem, 0) == k && stem[k] == '.'
    requires stem[..k] == n && DropMark(LStrip(stem[k..])) == name
    ensures HasNumber(stem) && SplitStem(stem) == (NatOf(n), name)
  {
    assert DigitEnd(stem, 1) == k;
  }

  /** Reading the number and title back from a canonical stem. */
  lemma SplitStemOfTrackStem(number: nat, name: string, width: nat)
    requires IsTrimmed(name)
    requires number > 0 || !IsDigit(name[0])
    ensures var stem := TrackStem(number, name, width);
      Strip(stem) == stem && IsTrimmed(stem) &&
      SplitStem(stem) == (number, name) && (HasNumber(stem) <==> number > 0)
  {
    var stem := TrackStem(number, name, width);
    if number > 0 {
      SplitNumberedStem(ZeroPad(number, width), name);
      ZeroPadRoundTrip(number, width);
    }
    StripNoEdgeSpace(stem);
  }

  /** The canonical name is a fixed point of the file-name analysis: it reads
      back as the same number, title and codec, and is not misnumbered. */
  lemma GoodTrackNameRoundTrip(number: nat, name: string, codec: string, width: nat)
    requires IsTrimmed(name)
    requires number > 0 || !IsDigit(name[0])
    requires '.' !in TargetCodec(codec)
    ensures SplitTrackFile(GoodTrackName(number, name, codec, width), number) ==
      Ok(TrackFileName(number, name, TargetCodec(codec), false))
  {
    var stem := TrackStem(number, name, width);
    LastDotOf(stem, TargetCodec(codec));
    SplitStemOfTrackStem(number, name, width);
  }

  /** What the `FILE "..." WAVE` fallback reads from a file name: a title, or
      nothing usable (the album name is then overwritten with the whole file
      name, Audite.py:1432). */
  datatype FileEntry = Titled(title: string) | Unsplit

  /** The file-name analysis of the `FILE` fallback (Audite.py:1414-1432) for
      the 0-based entry `entryNo` whose `TRACK` number is `tInd`. Unlike the
      track-file rule the digit run may be empty. An all-blank rest makes
      `cueStr[0]` fail; an empty digit run makes `int(trackNo)` fail when the
      short-circuit test `i+1 == tInd` lets it be evaluated. */
  function SplitCueFileName(numAndTitle: string, entryNo: int, tInd: int): (r: Result<FileEntry>)
    ensures var k := DigitEnd(numAndTitle, 0);
      (r == Ok(Unsplit) <==> !SplitsAt(numAndTitle, k)) &&
      (r == Err(IndexOutOfRange) <==> SplitsAt(numAndTitle, k) && LStrip(numAndTitle[k..]) == []) &&
      (r == Err(BadIntLiteral) <==>
        SplitsAt(numAndTitle, k) && LStrip(numAndTitle[k..]) != [] && k == 0 && entryNo + 1 == tInd)
    ensures r.Ok? && r.value.Titled? ==> |r.value.title| <= |numAndTitle|
  {
    var namePos := DigitEnd(numAndTitle, 0);
    if !SplitsAt(numAndTitle, namePos) then Ok(Unsplit)
    else
      var rest := LStrip(numAndTitle[namePos..]);
      if rest == [] then Err(IndexOutOfRange)
      else
        var t := DropMark(rest);
        var dot := RFind(t, ".");
        var title := if dot > 0 then RStrip(t[..dot]) else t;
        if entryNo + 1 == tInd && namePos == 0 then Err(BadIntLiteral)
        else Ok(Titled(title))
  }

  /** A canonical file name in a `FILE` line reads back as its title, with
      the extension cut off, whatever the entry's position. */
  lemma SplitCueFileNameOfGood(number: nat, name: string, ext: string, width: nat, entryNo: int, tInd: int)
    requires number > 0 && IsTrimmed(name) && '.' !in ext
    ensures SplitCueFileName(TrackStem(number, name, width) + "." + ext, entryNo, tInd) == Ok(Titled(name))
  {
    DottedFile(ZeroPad(number, width), name, ext);
    DigitEndOf(ZeroPad(number, width), ". " + (name + "." + ext));
    SplitCueFileNameOfNumbered(ZeroPad(number, width) + ". " + name + "." + ext,
      |ZeroPad(number, width)|, name + "." + ext, entryNo, tInd);
    LastDotOf(name, ext);
    assert RStrip(name) == name;
  }

  /** Where the title of a numbered canonical file name sits. */
  lemma DottedFile(d: string, name: string, ext: string)
    ensures d + ". " + name + "." + ext == d + (". " + (name + "." + ext))
    ensures (d + ". " + name + "." + ext)[|d|..] == ". " + (name + "." + ext)
  {
    var f := d + ". " + name + "." + ext;
    assert f == d + (". " + (name + "." + ext));
  }

  /** A name whose digit run of length `k > 0` is followed by `. ` reads
      back as what follows, up to its last dot. */
  lemma SplitCueFileNameOfNumbered(f: string, k: nat, t: string, entryNo: int, tInd: int)
    requires 0 < k <= |f| && DigitEnd(f, 0) == k && f[k..] == ". " + t
    requires t != [] && !IsSpace(t[0])
    ensures SplitCueFileName(f, entryNo, tInd) ==
      Ok(Titled(var dot := RFind(t, "."); if dot > 0 then RStrip(t[..dot]) else t))
  {
    assert f[k] == '.' && SplitsAt(f, k);
    DropMarkOfDotted(t);
  }

  /** Drop one leading `.` or `-` and strip again (Audite.py:1825-1826). */
  function StripMark(t: string): (r: string)
    requires t != [] && Strip(t) == t
    ensures Strip(r) == r && |r| <= |t|
  {
    if t[0] == '.' || t[0] == '-' then StripStrip(t[1..]); Strip(t[1..]) else t
  }

  lemma StripMarkOfDotted(title: string)
    requires IsTrimmed(title)
    ensures Strip(". " + title) == ". " + title && StripMark(". " + title) == title
  {
    var t := ". " + title;
    var u := " " + title;
    assert t[1..] == u;
    assert t[0] == '.';
    StripDotted(title);
    assert StripMark(t) == Strip(u);
    StripBlankPrefixed(title);
  }

  lemma StripDotted(title: string)
    requires IsTrimmed(title)
    ensures Strip(". " + title) == ". " + title
  {
    var t := ". " + title;
    assert t[|t| - 1] == title[|title| - 1];
    StripNoEdgeSpace(t);
  }

  lemma StripBlankPrefixed(title: string)
    requires IsTrimmed(title)
    ensures Strip(" " + title) == title
  {
    var u := " " + title;
    assert u[1..] == title;
    assert LStrip(u) == title;
    assert RStrip(title) == title;
  }

  /** A tail of a name without a trailing blank strips to a non-empty,
      stripped string. */
  lemma StripOfRest(stem: string, k: nat)
    requires k < |stem| && !IsSpace(stem[|stem| - 1])
    ensures Strip(stem[k..]) != [] && Strip(Strip(stem[k..])) == Strip(stem[k..])
  {
    var rest := stem[k..];
    assert rest != [] && rest[|rest| - 1] == stem[|stem| - 1];
    StripOfNonBlankEnd(rest);
    StripStrip(rest);
  }

  /** The number rule for files inside a sub-album (Audite.py:1821-1827):
      when the first non-digit sits at most half-way into the normalised
      name, everything before it goes, then blanks, then one `.` or `-` and
      the blanks after it. */
  function CutSubAlbumNumber(newName: string): (r: string)
    requires newName == [] || !IsSpace(newName[|newName| - 1])
    ensures Strip(r) == r && |r| <= |newName|
  {
    var i := DigitEnd(newName, 0);
    if i < |newName| && 2 * i <= |newName| then
      StripOfRest(newName, i);
      var t := Strip(newName[i..]);
      assert |t| <= |newName|;
      StripMark(t)
    else
      assert newName != [] ==> IsDigit(newName[0]) && !IsSpace(newName[0]);
      StripNoEdgeSpace(newName);
      newName
  }

  /** A `NN. Title` name loses exactly its number. */
  lemma CutSubAlbumNumberOfNumbered(d: string, title: string)
    requires forall k :: 0 <= k < |d| ==> IsDigit(d[k])
    requires IsTrimmed(title) && |d| <= |title| + 2
    ensures CutSubAlbumNumber(d + ". " + title) == title
  {
    var s := d + ". " + title;
    assert s == d + (". " + title);
    DigitEndOf(d, ". " + title);
    var i := DigitEnd(s, 0);
    assert i == |d| && i < |s| && 2 * i <= |s|;
    assert s[i..] == ". " + title;
    StripMarkOfDotted(title);
  }

  /** A name that starts with neither a digit nor `.`/`-` is kept as it is. */
  lemma CutSubAlbumNumberKeeps(name: string)
    requires IsTrimmed(name) && !IsDigit(name[0]) && name[0] != '.' && name[0] != '-'
    ensures CutSubAlbumNumber(name) == name
  {
    assert name[0..] == name;
    StripNoEdgeSpace(name);
  }

  /** The title of an audio file inside a sub-album (Audite.py:1818-1828):
      the stem up to the last dot, stripped and normalised, then cut by the
      sub-album number rule. */
  function SubAlbumTrackTitle(fileName: string, noCaps: bool): (r: string)
    ensures Strip(r) == r
  {
    var newName := Titles.CoercedTitle(Strip(Slice(fileName, 0, RFind(fileName, "."))), noCaps);
    Titles.CoercedTitleStripped(Strip(Slice(fileName, 0, RFind(fileName, "."))), noCaps);
    CutSubAlbumNumber(newName)
  }
}
