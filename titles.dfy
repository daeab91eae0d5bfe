/** Title normalisation (`coerceTitle`, `myCap` and the three word tables).

    A title is split into words; each word is left alone, lower-cased,
    upper-cased or capitalised according to an ordered rule list, and the
    words are joined again with single spaces. The main results are that
    the normaliser only ever changes letter case inside words, and that
    applying it to its own output changes nothing. */
module Titles {
  import opened Text
  import opened Wrappers

  // ---------------------------------------------------------------------------
  // Word tables (Audite.py:141-143), transcribed entry by entry
  // ---------------------------------------------------------------------------

  /** Auxiliary words that are lower-cased unless they start a phrase. */
  const DecapTable: seq<string> := [
    "a", "an", "the", "on", "in", "to", "onto", "into", "from", "with", "without", "for", "of", "and",
    "or", "nor", "not", "but", "yet", "as", "so", "feat", "featuring", "featured", "alt", "st", "nd",
    "rd", "th"]

  /** Words that are always capitalised. As written, a missing comma fuses
      the entries "don't" and "does" into one entry "don'tdoes". */
  const RecapTable: seq<string> := RecapHead + ["don'tdoes"] + RecapTail

  /** The same table with the two fused entries separated. */
  const RecapTableSeparated: seq<string> := RecapHead + ["don't", "does"] + RecapTail

  const RecapHead: seq<string> := [
    "i", "my", "me", "you", "your", "yours", "she", "her", "hers", "he", "his", "him", "they",
    "their", "theirs", "them", "we", "our", "ours", "us", "be", "am", "is", "are", "were", "was", "go",
    "do"]

  const RecapTail: seq<string> := [
    "doesn't", "did", "didn't", "done", "deja", "vu", "mr", "ms", "mrs", "dr",
    "yes", "no", "oh", "ah", "eh", "uh", "na", "ni", "li", "pt", "ho", "wa", "wo", "ma", "ed", "op",
    "nr", "can", "can't", "ad"]

  /** Words that are always upper-cased (acronyms, roman numerals, ...). */
  const UpperTable: seq<string> := UpperAcronyms + UpperNumerals + UpperOthers

  const UpperAcronyms: seq<string> := [
    "ac/dc", "u2", "o2", "h2o", "co2", "sf", "ost", "dna", "t.n.t.", "tnt", "mtv", "s.o.s.", "sos",
    "i.r.s.", "r.i.p.", "rip"]

  const UpperNumerals: seq<string> := [
    "i", "ii", "iii", "iv", "v", "vi", "vii", "viii", "ix", "x", "xi", "xii", "xiii", "xiv", "xv",
    "xvi", "xvii", "xviii", "xix", "xx", "xxi", "xxx", "mmxi", "mmxiv", "mcmxlv", "mcmlxxiv", "mmv"]

  const UpperOthers: seq<string> := [
    "cd", "ok", "bp", "sp", "t.v.", "uk", "u.k.", "usa", "tv", "fx", "xs", "sfso", "bbc", "htts",
    "jlt", "bwv", "bwu", "fff", "rpp", "b", "c", "d", "f", "g", "u", "r", "s", "y", "z", "nwobhm",
    "jfk", "gj", "aov"]

  /** A word ending in one of these makes the next word start a phrase. */
  const PhraseEnders: seq<char> := ['.', '/', '|', '\\', '-', '~', ':']

  // ---------------------------------------------------------------------------
  // Single words
  // ---------------------------------------------------------------------------

  /** Python `str.capitalize()`: first character upper-cased, the rest lower-cased. */
  function Capitalize(s: string): (r: string)
    ensures SameFold(r, s)
  {
    var r := seq(|s|, i requires 0 <= i < |s| => if i == 0 then Upper(s[0]) else Lower(s[i]));
    assert forall i :: 0 <= i < |s| ==> Lower(r[i]) == Lower(s[i]) by {
      forall i | 0 <= i < |s| { FoldFacts(s[i]); }
    }
    r
  }

  /** `myCap`: capitalise, but keep a leading non-alphanumeric character and
      capitalise what follows it. */
  function MyCap(word: string): (r: string)
    requires word != []
    ensures SameFold(r, word)
  {
    if IsAlnum(word[0]) then Capitalize(word)
    else
      var r := [word[0]] + Capitalize(word[1..]);
      assert forall i :: 1 <= i < |word| ==> Lower(r[i]) == Lower(Capitalize(word[1..])[i - 1]);
      assert forall i :: 1 <= i < |word| ==> Lower(Capitalize(word[1..])[i - 1]) == Lower(word[i]) by {
        forall i | 1 <= i < |word|
          ensures Lower(Capitalize(word[1..])[i - 1]) == Lower(word[i])
        {
          assert LowerStr(Capitalize(word[1..]))[i - 1] == LowerStr(word[1..])[i - 1];
        }
      }
      r
  }

  /** The letter test of Audite.py:169: a word of three or more characters
      must be alphabetic between its first and last character, a shorter word
      must be alphabetic throughout. Words failing it are left untouched. */
  predicate PassesWordTest(word: string) {
    if |word| >= 3 then IsAlphaStr(word[1..|word| - 1]) else IsAlphaStr(word)
  }

  /** The lower-cased word with one leading and one trailing non-letter
      removed; `None` when nothing is left (Audite.py:180-187). */
  function Core(low: string): Option<string>
    requires low != []
  {
    var a := if !IsAlpha(low[0]) then low[1..] else low;
    if a == [] then None
    else
      var b := if !IsAlpha(a[|a| - 1]) then a[..|a| - 1] else a;
      if b == [] then None else Some(b)
  }

  /** The rule order of Audite.py:169-199 for one word, with a given RECAP table. */
  function CoerceWordWith(word: string, atStart: bool, noCaps: bool, recap: seq<string>): string {
    if !PassesWordTest(word) || noCaps then word
    else
      match Core(LowerStr(word))
      case None => word
      case Some(core) =>
        if core in DecapTable && !atStart then LowerStr(word)
        else if core in recap then MyCap(word)
        else if core in UpperTable then UpperStr(word)
        else if |core| <= 2 && !atStart then LowerStr(word)
        else MyCap(word)
  }

  function CoerceWord(word: string, atStart: bool, noCaps: bool): string {
    CoerceWordWith(word, atStart, noCaps, RecapTable)
  }

  /** What the table lookups see is always purely alphabetic: the letter
      test covers the middle, and a non-letter at either end is removed. */
  lemma CoreIsAlpha(word: string)
    requires PassesWordTest(word) && word != []
    ensures Core(LowerStr(word)).Some? ==> IsAlphaStr(Core(LowerStr(word)).value)
  {
    var low := LowerStr(word);
    forall i | 0 <= i < |word| ensures IsAlpha(low[i]) == IsAlpha(word[i]) {}
    if |word| >= 3 {
      var mid := word[1..|word| - 1];
      assert forall i :: 1 <= i < |word| - 1 ==> IsAlpha(word[i]) by {
        forall i | 1 <= i < |word| - 1 ensures IsAlpha(word[i]) {
          assert mid[i - 1] == word[i];
        }
      }
    }
  }

  /** For an alphabetic core, the table as written and the separated table
      agree, except that only the latter holds "does". */
  lemma RecapTablesAgree(core: string)
    requires IsAlphaStr(core)
    ensures core in RecapTable <==> core in RecapTableSeparated && core != "does"
  {
    assert !IsAlpha('\'');
    assert "don't"[3] == '\'' && "don'tdoes"[3] == '\'';
    assert core != "don't" && core != "don'tdoes";
    assert core in RecapTable <==> core in RecapHead || core in RecapTail;
    assert core in RecapTableSeparated <==> core in RecapHead || core == "don't" || core == "does" || core in RecapTail;
  }

  lemma DoesNotUpper()
    ensures "does" !in UpperTable
  {
    DoesNotAcronym();
    DoesNotNumeral();
    DoesNotOther();
  }

  lemma DoesNotAcronym()
    ensures "does" !in UpperAcronyms
  {
  }

  lemma DoesNotNumeral()
    ensures "does" !in UpperNumerals
  {
  }

  lemma DoesNotOther()
    ensures "does" !in UpperOthers
  {
  }

  /** The fused entry "don'tdoes" is harmless: no looked-up core contains an
      apostrophe, and "does" gets `myCap` by the default rule anyway, so the
      table as written and the separated table give the same result. */
  lemma RecapTypoHarmless(word: string, atStart: bool, noCaps: bool)
    ensures CoerceWordWith(word, atStart, noCaps, RecapTable)
         == CoerceWordWith(word, atStart, noCaps, RecapTableSeparated)
  {
    if word != [] && PassesWordTest(word) && !noCaps && Core(LowerStr(word)).Some? {
      var core := Core(LowerStr(word)).value;
      CoreIsAlpha(word);
      RecapTablesAgree(core);
      DoesNotUpper();
    }
  }

  // ---------------------------------------------------------------------------
  // Whole titles
  // ---------------------------------------------------------------------------

  /** Word `i` starts a phrase: it is the first word, or its predecessor ends
      in one of `. / | \ - ~ :`. */
  predicate AtPhraseStart(ws: seq<string>, i: int)
    requires 0 <= i < |ws|
  {
    i == 0 || (ws[i - 1] != [] && ws[i - 1][|ws[i - 1]| - 1] in PhraseEnders)
  }

  function CoerceWords(ws: seq<string>, noCaps: bool): seq<string> {
    seq(|ws|, i requires 0 <= i < |ws| => CoerceWord(ws[i], AtPhraseStart(ws, i), noCaps))
  }

  /** The first "..." becomes the ellipsis character; later ones stay. */
  function CollapseEllipsis(t: string): string {
    var pos := Find(t, "...", 0);
    if pos >= 0 then t[..pos] + "…" + t[pos + 3..] else t
  }

  /** The words `coerceTitle` works on (Audite.py:157-166). */
  function TitleWords(t: string): seq<string> {
    Words(Strip(CollapseEllipsis(t)))
  }

  /** `coerceTitle` as a value: the processed words joined by single spaces. */
  function CoercedTitle(t: string, noCaps: bool): string {
    Join(CoerceWords(TitleWords(t), noCaps), " ")
  }

  /** The body of the word loop of `coerceTitle` (Audite.py:168-199) for one
      word; an early `continue` leaves the word as it is. */
  method RewriteWord(word: string, atSentStart: bool, noCaps: bool) returns (w: string)
    requires word != []
    ensures w == CoerceWord(word, atSentStart, noCaps)
  {
    w := word;
    if !PassesWordTest(word) {
      return;
    }
    var wLow := LowerStr(word);
    if !noCaps {
      if !IsAlpha(wLow[0]) {
        wLow := wLow[1..];
        if |wLow| == 0 {
          return;
        }
      }
      if !IsAlpha(wLow[|wLow| - 1]) {
        wLow := wLow[..|wLow| - 1];
        if |wLow| == 0 {
          return;
        }
      }
      assert Core(LowerStr(word)) == Some(wLow);
      if wLow in DecapTable && !atSentStart {
        w := LowerStr(word);
      } else if wLow in RecapTable {
        w := MyCap(word);
      } else if wLow in UpperTable {
        w := UpperStr(word);
      } else if |wLow| <= 2 && !atSentStart {
        w := LowerStr(word);
      } else {
        w := MyCap(word);
      }
    }
  }

  /** The rewritten predecessor of word `i` tells whether word `i` starts a
      phrase exactly as the original predecessor does. */
  lemma RewrittenPhraseStart(orig: seq<string>, noCaps: bool, i: nat, prev: string)
    requires 0 < i < |orig| && orig[i - 1] != [] && prev == CoerceWords(orig, noCaps)[i - 1]
    ensures prev != [] && (prev[|prev| - 1] in PhraseEnders <==> AtPhraseStart(orig, i))
  {
    CoerceWordFold(orig[i - 1], AtPhraseStart(orig, i - 1), noCaps);
    SameFoldEnders(orig[i - 1], CoerceWords(orig, noCaps)[i - 1]);
  }

  /** Storing the rewritten word `i` extends the rewritten prefix by one. */
  lemma RewriteStep(orig: seq<string>, target: seq<string>, words: seq<string>, i: nat, w: string)
    requires |words| == |orig| == |target| && i < |words| && w == target[i]
    requires forall k :: 0 <= k < i ==> words[k] == target[k]
    requires forall k :: i <= k < |words| ==> words[k] == orig[k]
    ensures forall k :: 0 <= k < i + 1 ==> words[i := w][k] == target[k]
    ensures forall k :: i + 1 <= k < |words| ==> words[i := w][k] == orig[k]
  {
  }

  /** `coerceTitle` (Audite.py:155-200): rewrites `words[i]` in place, reading
      the already rewritten predecessor to decide whether a phrase starts. */
  method CoerceTitle(title: string, noCaps: bool) returns (r: string)
    ensures r == CoercedTitle(title, noCaps)
  {
    var words := TitleWords(title);
    WordsShape(Strip(CollapseEllipsis(title)));
    words := RewriteWords(words, noCaps);
    r := Join(words, " ");
  }

  /** The word loop of `coerceTitle` (Audite.py:168-199): each word is
      rewritten in place, the phrase test reading the rewritten predecessor. */
  method RewriteWords(orig: seq<string>, noCaps: bool) returns (words: seq<string>)
    requires forall k :: 0 <= k < |orig| ==> orig[k] != []
    ensures words == CoerceWords(orig, noCaps)
  {
    words := orig;
    ghost var target := CoerceWords(orig, noCaps);
    var i := 0;
    while i < |words|
      invariant 0 <= i <= |words| == |orig|
      invariant forall k :: 0 <= k < i ==> words[k] == target[k]
      invariant forall k :: i <= k < |words| ==> words[k] == orig[k]
    {
      var atSentStart := true;
      if i > 0 {
        var prev := words[i - 1];
        assert prev == target[i - 1];
        RewrittenPhraseStart(orig, noCaps, i, prev);
        atSentStart := prev[|prev| - 1] in PhraseEnders;
      }
      var w := RewriteWord(words[i], atSentStart, noCaps);
      RewriteStep(orig, target, words, i, w);
      words := words[i := w];
      i := i + 1;
    }
    assert words == target;
  }

  // ---------------------------------------------------------------------------
  // Only letter case changes
  // ---------------------------------------------------------------------------

  lemma UpperStrFold(a: string)
    ensures SameFold(UpperStr(a), a)
  {
    forall i | 0 <= i < |a| { FoldFacts(a[i]); }
    assert LowerStr(UpperStr(a)) == LowerStr(a);
  }

  lemma LowerStrFold(a: string)
    ensures SameFold(LowerStr(a), a)
  {
    forall i | 0 <= i < |a| { FoldFacts(a[i]); }
    assert LowerStr(LowerStr(a)) == LowerStr(a);
  }

  /** The normalised word differs from the word in letter case at most. */
  lemma CoerceWordFold(word: string, atStart: bool, noCaps: bool)
    ensures SameFold(CoerceWord(word, atStart, noCaps), word)
  {
    UpperStrFold(word);
    LowerStrFold(word);
  }

  /** Whether a word ends a phrase does not depend on letter case. */
  lemma SameFoldEnders(a: string, b: string)
    requires SameFold(a, b) && a != []
    ensures |b| == |a| && (a[|a| - 1] in PhraseEnders <==> b[|b| - 1] in PhraseEnders)
  {
    SameFoldAt(a, b, |a| - 1);
  }

  /** The letter test and the case mappings see only the case-folded word. */
  lemma FoldDetermines(a: string, b: string)
    requires SameFold(a, b)
    ensures |a| == |b|
    ensures PassesWordTest(a) == PassesWordTest(b)
    ensures UpperStr(a) == UpperStr(b)
    ensures a != [] ==> MyCap(a) == MyCap(b)
  {
    assert |LowerStr(a)| == |LowerStr(b)|;
    forall i | 0 <= i < |a|
      ensures IsAlpha(a[i]) == IsAlpha(b[i]) && Upper(a[i]) == Upper(b[i]) && Lower(a[i]) == Lower(b[i])
      ensures IsDigit(a[i]) == IsDigit(b[i])
    {
      SameFoldAt(a, b, i);
      FoldFacts(a[i]);
      FoldFacts(b[i]);
    }
    if |a| >= 3 {
      var ma, mb := a[1..|a| - 1], b[1..|b| - 1];
      assert forall i :: 0 <= i < |ma| ==> ma[i] == a[i + 1] && mb[i] == b[i + 1];
    }
    assert UpperStr(a) == UpperStr(b);
    if a != [] {
      if IsAlnum(a[0]) {
        assert Capitalize(a) == Capitalize(b);
      } else {
        assert a[0] == b[0];
        assert Capitalize(a[1..]) == Capitalize(b[1..]);
      }
    }
  }

  /** Two words equal up to letter case are normalised identically,
      unless the letter test leaves them untouched. */
  lemma CoerceWordCaseBlind(a: string, b: string, atStart: bool, noCaps: bool)
    requires SameFold(a, b) && PassesWordTest(a) && !noCaps
    ensures CoerceWord(a, atStart, noCaps) == CoerceWord(b, atStart, noCaps)
  {
    FoldDetermines(a, b);
  }

  /** Normalising a normalised word changes nothing. */
  lemma CoerceWordIdempotent(word: string, atStart: bool, noCaps: bool)
    ensures var w := CoerceWord(word, atStart, noCaps); CoerceWord(w, atStart, noCaps) == w
  {
    var w := CoerceWord(word, atStart, noCaps);
    CoerceWordFold(word, atStart, noCaps);
    if PassesWordTest(word) && !noCaps {
      assert SameFold(w, word);
      FoldDetermines(w, word);
      CoerceWordCaseBlind(w, word, atStart, noCaps);
    }
  }

  lemma CoerceWordsFold(ws: seq<string>, noCaps: bool)
    ensures |CoerceWords(ws, noCaps)| == |ws|
    ensures forall i :: 0 <= i < |ws| ==> SameFold(CoerceWords(ws, noCaps)[i], ws[i])
  {
    forall i | 0 <= i < |ws| {
      CoerceWordFold(ws[i], AtPhraseStart(ws, i), noCaps);
    }
  }

  /** Phrase starts are the same before and after normalisation. */
  lemma CoerceWordsPhraseStarts(ws: seq<string>, noCaps: bool)
    ensures forall i :: 0 <= i < |ws| ==> AtPhraseStart(CoerceWords(ws, noCaps), i) == AtPhraseStart(ws, i)
  {
    var out := CoerceWords(ws, noCaps);
    CoerceWordsFold(ws, noCaps);
    forall i | 0 < i < |ws|
      ensures AtPhraseStart(out, i) == AtPhraseStart(ws, i)
    {
      if ws[i - 1] != [] {
        SameFoldEnders(ws[i - 1], out[i - 1]);
      } else {
        assert |LowerStr(out[i - 1])| == 0;
      }
    }
  }

  lemma CoerceWordsIdempotent(ws: seq<string>, noCaps: bool)
    ensures var out := CoerceWords(ws, noCaps); CoerceWords(out, noCaps) == out
  {
    var out := CoerceWords(ws, noCaps);
    CoerceWordsPhraseStarts(ws, noCaps);
    forall i | 0 <= i < |ws|
      ensures CoerceWord(out[i], AtPhraseStart(out, i), noCaps) == out[i]
    {
      CoerceWordIdempotent(ws[i], AtPhraseStart(ws, i), noCaps);
    }
  }

  // ---------------------------------------------------------------------------
  // Ellipses: the precondition under which the result is a fixed point
  // ---------------------------------------------------------------------------

  ghost predicate DotsAt(s: string, i: int) {
    0 <= i && i + 2 < |s| && s[i] == '.' && s[i + 1] == '.' && s[i + 2] == '.'
  }

  ghost predicate NoTripleDot(s: string) {
    forall i :: !DotsAt(s, i)
  }

  lemma NoTripleDotFind(s: string)
    ensures NoTripleDot(s) <==> Find(s, "...", 0) == -1
  {
    forall i | 0 <= i ensures IsAt(s, "...", i) <==> DotsAt(s, i) {
      if DotsAt(s, i) {
        assert s[i..i + 3] == "...";
      }
      if IsAt(s, "...", i) {
        assert s[i..i + 3][0] == '.' && s[i..i + 3][1] == '.' && s[i..i + 3][2] == '.';
      }
    }
  }

  lemma NoTripleDotInfix(s: string, a: int, b: int)
    requires NoTripleDot(s) && 0 <= a <= b <= |s|
    ensures NoTripleDot(s[a..b])
  {
    forall i ensures DotsAt(s[a..b], i) ==> DotsAt(s, a + i) {}
  }

  lemma {:induction false} NoTripleDotSplit(s: string)
    requires NoTripleDot(s)
    ensures forall w :: w in SplitOn(s, ' ') ==> NoTripleDot(w)
  {
    if s != [] {
      NoTripleDotInfix(s, 1, |s|);
      assert s[1..|s|] == s[1..];
      NoTripleDotSplit(s[1..]);
      var rest := SplitOn(s[1..], ' ');
      if s[0] != ' ' {
        SplitFirstIsPrefix(s, ' ');
        NoTripleDotInfix(s, 0, |SplitOn(s, ' ')[0]|);
      }
    }
  }

  lemma NoTripleDotWords(s: string)
    requires NoTripleDot(s)
    ensures forall i :: 0 <= i < |Words(s)| ==> NoTripleDot(Words(s)[i])
  {
    NoTripleDotSplit(s);
    forall i | 0 <= i < |Words(s)| ensures NoTripleDot(Words(s)[i]) {
      assert Words(s)[i] in Words(s);
    }
  }

  lemma NoTripleDotFold(a: string, b: string)
    requires SameFold(a, b) && NoTripleDot(b)
    ensures NoTripleDot(a)
  {
    forall i ensures DotsAt(a, i) ==> DotsAt(b, i) {
      if 0 <= i && i + 2 < |a| {
        SameFoldAt(a, b, i);
        SameFoldAt(a, b, i + 1);
        SameFoldAt(a, b, i + 2);
      }
    }
  }

  lemma {:induction false} NoTripleDotJoin(ws: seq<string>)
    requires forall i :: 0 <= i < |ws| ==> NoTripleDot(ws[i])
    ensures NoTripleDot(Join(ws, " "))
  {
    if |ws| > 1 {
      NoTripleDotJoin(ws[1..]);
      var a, b := ws[0], Join(ws[1..], " ");
      var j := a + " " + b;
      assert Join(ws, " ") == j;
      assert NoTripleDot(a) && NoTripleDot(b);
      forall i ensures DotsAt(j, i) ==> DotsAt(a, i) || DotsAt(b, i - |a| - 1) {
        if 0 <= i && i + 2 < |j| {
          assert j[|a|] == ' ';
          assert forall k :: 0 <= k < |a| ==> j[k] == a[k];
          assert forall k :: 0 <= k < |b| ==> j[|a| + 1 + k] == b[k];
        }
      }
    }
  }

  // ---------------------------------------------------------------------------
  // Re-cased words of a stripped string
  // ---------------------------------------------------------------------------

  /** `out` holds the words of `s`, each changed in letter case at most. */
  predicate Recased(s: string, out: seq<string>) {
    |out| == |Words(s)| && forall i :: 0 <= i < |out| ==> SameFold(out[i], Words(s)[i])
  }

  lemma RecasedWords(s: string, out: seq<string>)
    requires Recased(s, out)
    ensures forall i :: 0 <= i < |out| ==> out[i] != [] && ' ' !in out[i]
    ensures Words(Join(out, " ")) == out
  {
    var ws := Words(s);
    WordsShape(s);
    forall i | 0 <= i < |out| ensures out[i] != [] && ' ' !in out[i] {
      SameFoldAt(out[i], ws[i], 0);
      forall k | 0 <= k < |out[i]| ensures out[i][k] != ' ' {
        SameFoldAt(out[i], ws[i], k);
      }
    }
    WordsOfJoin(out);
  }

  lemma JoinKeepsEdges(ws: seq<string>)
    requires ws != [] && ws[0] != [] && ws[|ws| - 1] != []
    requires !IsSpace(ws[0][0]) && !IsSpace(ws[|ws| - 1][|ws[|ws| - 1]| - 1])
    ensures Strip(Join(ws, " ")) == Join(ws, " ")
  {
    JoinFirst(ws, " ");
    JoinLast(ws, " ");
    StripNoEdgeSpace(Join(ws, " "));
  }

  lemma RecasedStripped(s: string, out: seq<string>)
    requires Strip(s) == s && Recased(s, out)
    ensures Strip(Join(out, " ")) == Join(out, " ")
  {
    var ws := Words(s);
    if s != [] {
      WordsFirst(s);
      WordsLast(s);
      var n := |ws|;
      var first, last := out[0], out[n - 1];
      assert |last| == |LowerStr(last)| == |LowerStr(ws[n - 1])| == |ws[n - 1]|;
      SameFoldAt(first, ws[0], 0);
      SameFoldAt(last, ws[n - 1], |last| - 1);
      JoinKeepsEdges(out);
    } else {
      assert ws == [] && out == [];
    }
  }

  lemma RecasedNoDots(s: string, out: seq<string>)
    requires NoTripleDot(s) && Recased(s, out)
    ensures NoTripleDot(Join(out, " "))
  {
    var ws := Words(s);
    NoTripleDotWords(s);
    forall i | 0 <= i < |out| ensures NoTripleDot(out[i]) {
      NoTripleDotFold(out[i], ws[i]);
    }
    NoTripleDotJoin(out);
  }

  // ---------------------------------------------------------------------------
  // The result of coerceTitle
  // ---------------------------------------------------------------------------

  lemma CoercedRecased(t: string, noCaps: bool)
    ensures Recased(Strip(CollapseEllipsis(t)), CoerceWords(TitleWords(t), noCaps))
  {
    CoerceWordsFold(TitleWords(t), noCaps);
  }

  /** The result is in normal form: its own words joined by single spaces.
      Its words are the input's words, changed in letter case only. */
  lemma CoercedTitleShape(t: string, noCaps: bool)
    ensures var r := CoercedTitle(t, noCaps);
      Join(Words(r), " ") == r && Words(r) == CoerceWords(TitleWords(t), noCaps)
    ensures var r := CoercedTitle(t, noCaps);
      |Words(r)| == |TitleWords(t)| &&
      forall i :: 0 <= i < |Words(r)| ==> Words(r)[i] != [] && SameFold(Words(r)[i], TitleWords(t)[i])
  {
    CoercedRecased(t, noCaps);
    RecasedWords(Strip(CollapseEllipsis(t)), CoerceWords(TitleWords(t), noCaps));
  }

  /** The normalised title has no blank at either end. */
  lemma CoercedTitleStripped(t: string, noCaps: bool)
    ensures Strip(CoercedTitle(t, noCaps)) == CoercedTitle(t, noCaps)
  {
    CoercedRecased(t, noCaps);
    StripStrip(CollapseEllipsis(t));
    RecasedStripped(Strip(CollapseEllipsis(t)), CoerceWords(TitleWords(t), noCaps));
  }

  /** Joining re-cased words of a title gives a string whose own words are
      those words, provided no "..." is left to collapse. */
  lemma RecasedTitleWords(t: string, out: seq<string>)
    requires NoTripleDot(CollapseEllipsis(t)) && Recased(Strip(CollapseEllipsis(t)), out)
    ensures TitleWords(Join(out, " ")) == out
  {
    StrippedNoTripleDot(CollapseEllipsis(t));
    StrippedRecasedWords(Strip(CollapseEllipsis(t)), out);
  }

  /** Stripping keeps a string free of "..." and is idempotent. */
  lemma StrippedNoTripleDot(c: string)
    requires NoTripleDot(c)
    ensures NoTripleDot(Strip(c)) && Strip(Strip(c)) == Strip(c)
  {
    var a := |c| - |LStrip(c)|;
    var b := a + |Strip(c)|;
    StripIsInfix(c);
    NoTripleDotInfix(c, a, b);
    assert Strip(c) == c[a..b];
    StripStrip(c);
  }

  /** The words of a stripped, dot-free string, re-cased and joined, read
      back as the same words. */
  lemma StrippedRecasedWords(s: string, out: seq<string>)
    requires NoTripleDot(s) && Strip(s) == s && Recased(s, out)
    ensures TitleWords(Join(out, " ")) == out
  {
    var r := Join(out, " ");
    RecasedWords(s, out);
    RecasedNoDots(s, out);
    NoTripleDotFind(r);
    assert CollapseEllipsis(r) == r;
    RecasedStripped(s, out);
  }

  /** Idempotence: when no "..." is left once the first one is collapsed
      (in particular when the title holds at most one "..."), normalising
      the normalised title gives it back unchanged. */
  lemma CoercedTitleIdempotent(t: string, noCaps: bool)
    requires NoTripleDot(CollapseEllipsis(t))
    ensures CoercedTitle(CoercedTitle(t, noCaps), noCaps) == CoercedTitle(t, noCaps)
  {
    var out := CoerceWords(TitleWords(t), noCaps);
    CoercedRecased(t, noCaps);
    RecasedTitleWords(t, out);
    CoerceWordsIdempotent(TitleWords(t), noCaps);
  }
}
