/** The Python string built-ins the reconciliation logic relies on, over
    `seq<char>` with ASCII character classes: `isdigit`, `isalpha`,
    `isspace`, `lower`, `upper`, `strip`, `find`, `rfind`, `count`,
    `split(' ')`, `join`, `int(...)`, `str(n)` and the `{n:0Kd}` format. */
module Text {
  import opened Wrappers

  // ---------------------------------------------------------------------------
  // Characters
  // ---------------------------------------------------------------------------

  predicate IsDigit(c: char) { '0' <= c <= '9' }
  predicate IsUpperLetter(c: char) { 'A' <= c <= 'Z' }
  predicate IsLowerLetter(c: char) { 'a' <= c <= 'z' }
  predicate IsAlpha(c: char) { IsUpperLetter(c) || IsLowerLetter(c) }
  predicate IsAlnum(c: char) { IsAlpha(c) || IsDigit(c) }
  predicate IsAsciiChar(c: char) { c as int < 128 }

  /** Python's whitespace among the ASCII characters: space, \t \n \v \f \r
      and the four separators \x1c..\x1f. */
  predicate IsSpace(c: char) {
    c == ' ' || ('\t' <= c <= '\r') || ('\U{1c}' <= c <= '\U{1f}')
  }

  function Lower(c: char): (r: char)
    ensures IsAlpha(r) == IsAlpha(c) && !IsUpperLetter(r)
    ensures !IsAlpha(c) ==> r == c
  {
    if IsUpperLetter(c) then (c as int + 32) as char else c
  }

  function Upper(c: char): (r: char)
    ensures IsAlpha(r) == IsAlpha(c) && !IsLowerLetter(r)
    ensures !IsAlpha(c) ==> r == c
  {
    if IsLowerLetter(c) then (c as int - 32) as char else c
  }

  /** Case mappings only move letters between the two cases. */
  lemma FoldFacts(c: char)
    ensures Lower(Lower(c)) == Lower(c) && Lower(Upper(c)) == Lower(c)
    ensures Upper(Upper(c)) == Upper(c) && Upper(Lower(c)) == Upper(c)
    ensures IsDigit(Lower(c)) == IsDigit(c) && IsDigit(Upper(c)) == IsDigit(c)
    ensures IsSpace(Lower(c)) == IsSpace(c) && IsSpace(Upper(c)) == IsSpace(c)
  {
  }

  /** Two characters with the same lower case are equal unless both are letters. */
  lemma SameLowerNonLetter(a: char, b: char)
    requires Lower(a) == Lower(b) && !IsAlpha(b)
    ensures a == b
  {
  }

  // ---------------------------------------------------------------------------
  // Case mapping and classification of strings
  // ---------------------------------------------------------------------------

  function LowerStr(s: string): (r: string)
    ensures |r| == |s|
    ensures forall i :: 0 <= i < |s| ==> r[i] == Lower(s[i])
  {
    seq(|s|, i requires 0 <= i < |s| => Lower(s[i]))
  }

  function UpperStr(s: string): (r: string)
    ensures |r| == |s|
    ensures forall i :: 0 <= i < |s| ==> r[i] == Upper(s[i])
  {
    seq(|s|, i requires 0 <= i < |s| => Upper(s[i]))
  }

  /** Python `str.isalpha()`: false on the empty string. */
  predicate IsAlphaStr(s: string) {
    |s| > 0 && forall i :: 0 <= i < |s| ==> IsAlpha(s[i])
  }

  /** Python `str.isnumeric()` on ASCII: non-empty and all digits. */
  predicate IsNumeric(s: string) {
    |s| > 0 && forall i :: 0 <= i < |s| ==> IsDigit(s[i])
  }

  /** Python `str.isascii()`. */
  predicate IsAscii(s: string) {
    forall i :: 0 <= i < |s| ==> IsAsciiChar(s[i])
  }

  /** `a` and `b` differ at most in the case of their letters. */
  predicate SameFold(a: string, b: string) {
    LowerStr(a) == LowerStr(b)
  }

  lemma SameFoldAt(a: string, b: string, i: int)
    requires SameFold(a, b) && 0 <= i < |a|
    ensures |a| == |b| && Lower(a[i]) == Lower(b[i])
    ensures IsAlpha(a[i]) == IsAlpha(b[i])
    ensures !IsAlpha(a[i]) ==> a[i] == b[i]
  {
    assert |LowerStr(a)| == |LowerStr(b)|;
    assert LowerStr(a)[i] == LowerStr(b)[i];
    if !IsAlpha(a[i]) {
      SameLowerNonLetter(b[i], a[i]);
    }
  }

  // ---------------------------------------------------------------------------
  // strip / lstrip / rstrip
  // ---------------------------------------------------------------------------

  function LStrip(s: string): (r: string)
    ensures |r| <= |s| && r == s[|s| - |r|..]
    ensures r == [] || !IsSpace(r[0])
    ensures forall i :: 0 <= i < |s| - |r| ==> IsSpace(s[i])
  {
    if s != [] && IsSpace(s[0]) then
      var r := LStrip(s[1..]);
      assert s[1..][|s| - 1 - |r|..] == s[|s| - |r|..];
      assert forall i :: 1 <= i < |s| - |r| ==> s[1..][i - 1] == s[i];
      r
    else s
  }

  function RStrip(s: string): (r: string)
    ensures |r| <= |s| && r == s[..|r|]
    ensures r == [] || !IsSpace(r[|r| - 1])
    ensures forall i :: |r| <= i < |s| ==> IsSpace(s[i])
  {
    if s != [] && IsSpace(s[|s| - 1]) then
      var r := RStrip(s[..|s| - 1]);
      assert s[..|s| - 1][..|r|] == s[..|r|];
      assert forall i :: |r| <= i < |s| - 1 ==> s[..|s| - 1][i] == s[i];
      r
    else s
  }

  function Strip(s: string): (r: string)
    ensures |r| <= |s|
    ensures r == [] || (!IsSpace(r[0]) && !IsSpace(r[|r| - 1]))
  {
    RStrip(LStrip(s))
  }

  /** `strip` returns a contiguous piece of its argument. */
  lemma {:induction false} StripIsInfix(s: string)
    ensures |s| - |LStrip(s)| + |Strip(s)| <= |s|
    ensures Strip(s) == s[|s| - |LStrip(s)|..|s| - |LStrip(s)| + |Strip(s)|]
  {
    var l := LStrip(s);
    var k := |s| - |l|;
    var r := RStrip(l);
    assert r == Strip(s);
    SliceOfSuffix(s, k, |r|);
  }

  lemma SliceOfSuffix(s: string, k: nat, m: nat)
    requires k + m <= |s|
    ensures s[k..][..m] == s[k..k + m]
  {
  }

  lemma StripNoEdgeSpace(s: string)
    requires s == [] || (!IsSpace(s[0]) && !IsSpace(s[|s| - 1]))
    ensures Strip(s) == s
  {
  }

  /** A string whose last character is not blank keeps that character, and
      nothing is stripped from its end. */
  lemma {:induction false} StripOfNonBlankEnd(s: string)
    requires s != [] && !IsSpace(s[|s| - 1])
    ensures LStrip(s) != [] && LStrip(s)[|LStrip(s)| - 1] == s[|s| - 1]
    ensures Strip(s) == LStrip(s)
  {
    if IsSpace(s[0]) {
      assert |s| > 1 && s[1..][|s| - 2] == s[|s| - 1];
      StripOfNonBlankEnd(s[1..]);
    }
  }

  lemma StripStrip(s: string)
    ensures Strip(Strip(s)) == Strip(s)
  {
    StripNoEdgeSpace(Strip(s));
  }

  /** Whitespace around a string with non-space ends is what `strip` removes. */
  lemma {:induction false} LStripPadded(pre: string, m: string)
    requires forall i :: 0 <= i < |pre| ==> IsSpace(pre[i])
    requires m == [] || !IsSpace(m[0])
    ensures LStrip(pre + m) == m
  {
    if pre != [] {
      assert (pre + m)[1..] == pre[1..] + m;
      LStripPadded(pre[1..], m);
    } else {
      assert pre + m == m;
    }
  }

  lemma {:induction false} RStripPadded(m: string, post: string)
    requires forall i :: 0 <= i < |post| ==> IsSpace(post[i])
    requires m == [] || !IsSpace(m[|m| - 1])
    ensures RStrip(m + post) == m
  {
    if post != [] {
      assert (m + post)[..|m + post| - 1] == m + post[..|post| - 1];
      RStripPadded(m, post[..|post| - 1]);
    } else {
      assert m + post == m;
    }
  }

  lemma StripPadded(pre: string, m: string, post: string)
    requires forall i :: 0 <= i < |pre| ==> IsSpace(pre[i])
    requires forall i :: 0 <= i < |post| ==> IsSpace(post[i])
    requires m != [] && !IsSpace(m[0]) && !IsSpace(m[|m| - 1])
    ensures Strip(pre + m + post) == m
  {
    assert pre + m + post == pre + (m + post);
    LStripPadded(pre, m + post);
    RStripPadded(m, post);
  }

  // ---------------------------------------------------------------------------
  // Python slicing with a possibly negative end: `s[a:b]`
  // ---------------------------------------------------------------------------

  function Clamp(i: int, n: nat): (r: nat)
    ensures r <= n
  {
    if i < 0 then (if i + n < 0 then 0 else i + n) else if i > n then n else i
  }

  function Slice(s: string, a: int, b: int): (r: string)
    ensures |r| <= |s|
  {
    var lo, hi := Clamp(a, |s|), Clamp(b, |s|);
    if lo < hi then s[lo..hi] else []
  }

  // ---------------------------------------------------------------------------
  // find / rfind / count / startswith / endswith
  // ---------------------------------------------------------------------------

  /** `pat` occurs in `s` at position `i`. */
  predicate IsAt(s: string, pat: string, i: int) {
    0 <= i && i + |pat| <= |s| && s[i..i + |pat|] == pat
  }

  /** Python `s.find(pat, start)`: the first occurrence at or after `start`, or -1. */
  function Find(s: string, pat: string, start: nat): (r: int)
    ensures r == -1 || (start <= r && IsAt(s, pat, r))
    ensures forall j :: start <= j && (r == -1 || j < r) ==> !IsAt(s, pat, j)
    decreases |s| - start
  {
    if start + |pat| > |s| then -1
    else if IsAt(s, pat, start) then start
    else Find(s, pat, start + 1)
  }

  /** The last occurrence at or before position `i`, or -1. */
  function RFindFrom(s: string, pat: string, i: int): (r: int)
    ensures r == -1 || (0 <= r <= i && IsAt(s, pat, r))
    ensures forall j :: r < j <= i ==> !IsAt(s, pat, j)
    decreases i + 1
  {
    if i < 0 then -1
    else if IsAt(s, pat, i) then i
    else RFindFrom(s, pat, i - 1)
  }

  /** Python `s.rfind(pat, 0, end)`: the last occurrence that ends by `end`. */
  function RFindBefore(s: string, pat: string, end: nat): (r: int)
    ensures r == -1 || (0 <= r && r + |pat| <= end && IsAt(s, pat, r))
    ensures forall j :: r < j && j + |pat| <= end ==> !IsAt(s, pat, j)
  {
    var e := if end < |s| then end else |s|;
    RFindFrom(s, pat, e - |pat|)
  }

  /** Python `s.rfind(pat)`. */
  function RFind(s: string, pat: string): (r: int)
    ensures r == -1 || IsAt(s, pat, r)
    ensures forall j :: r < j ==> !IsAt(s, pat, j)
  {
    RFindBefore(s, pat, |s|)
  }

  /** `find` of a single character. */
  lemma FindChar(s: string, c: char, start: nat)
    ensures var r := Find(s, [c], start);
      (r < 0 <==> forall j :: start <= j < |s| ==> s[j] != c) &&
      (r >= 0 ==> r < |s| && s[r] == c)
  {
    forall j | start <= j < |s| ensures IsAt(s, [c], j) <==> s[j] == c {
      assert s[j..j + 1] == [s[j]];
    }
  }

  /** `find` of a character returns its first position at or after `start`. */
  lemma FindCharFirst(s: string, c: char, start: nat, p: nat)
    requires start <= p < |s| && s[p] == c
    requires forall j :: start <= j < p ==> s[j] != c
    ensures Find(s, [c], start) == p
  {
    FindChar(s, c, start);
    var r := Find(s, [c], start);
    assert IsAt(s, [c], p) by { assert s[p..p + 1] == [c]; }
    assert r >= 0 && r <= p;
  }

  /** The first `c` of `a + [c] + b` is the one after `a` when `a` holds none. */
  lemma FindCharAfter(a: string, c: char, b: string)
    requires c !in a
    ensures var s := a + [c] + b;
      Find(s, [c], 0) == |a| && s[..|a|] == a && s[|a| + 1..] == b
  {
    var s := a + [c] + b;
    forall j | 0 <= j < |a| ensures s[j] != c {
      assert s[j] == a[j];
    }
    FindCharFirst(s, c, 0, |a|);
    assert s[..|a|] == a;
    assert s[|a| + 1..] == b;
  }

  /** `rfind` of a single character. */
  lemma RFindChar(s: string, c: char)
    ensures var r := RFind(s, [c]);
      (r < 0 <==> c !in s) &&
      (r >= 0 ==> r < |s| && s[r] == c && c !in s[r + 1..])
  {
    forall j | 0 <= j < |s| ensures IsAt(s, [c], j) <==> s[j] == c {
      assert s[j..j + 1] == [s[j]];
    }
    var r := RFind(s, [c]);
    if r >= 0 {
      var tail := s[r + 1..];
      forall k | 0 <= k < |tail| ensures tail[k] != c {
        assert !IsAt(s, [c], r + 1 + k);
      }
    }
  }

  /** Python `s.count(pat, start)`: non-overlapping occurrences, left to right. */
  function CountFrom(s: string, pat: string, start: nat): (r: nat)
    requires |pat| > 0
    ensures (r == 0) == (Find(s, pat, start) == -1)
    decreases |s| - start
  {
    var p := Find(s, pat, start);
    if p < 0 then 0 else 1 + CountFrom(s, pat, p + |pat|)
  }

  function Count(s: string, pat: string): nat
    requires |pat| > 0
  {
    CountFrom(s, pat, 0)
  }

  predicate Contains(s: string, pat: string) {
    Find(s, pat, 0) >= 0
  }

  predicate StartsWith(s: string, pre: string) {
    |pre| <= |s| && s[..|pre|] == pre
  }

  predicate EndsWith(s: string, post: string) {
    |post| <= |s| && s[|s| - |post|..] == post
  }

  // ---------------------------------------------------------------------------
  // split(' ') with empty pieces dropped, and join
  // ---------------------------------------------------------------------------

  /** Python `s.split(c)` for a one-character separator. */
  function SplitOn(s: string, c: char): (r: seq<string>)
    ensures |r| >= 1
  {
    if s == [] then [[]]
    else
      var rest := SplitOn(s[1..], c);
      if s[0] == c then [[]] + rest else [[s[0]] + rest[0]] + rest[1..]
  }

  /** The non-empty pieces, in order. */
  function NonEmpty(ws: seq<string>): (r: seq<string>)
    ensures |r| <= |ws|
    ensures forall w :: w in r ==> w in ws && w != []
  {
    if ws == [] then []
    else if ws[0] == [] then NonEmpty(ws[1..])
    else [ws[0]] + NonEmpty(ws[1..])
  }

  /** The words of a title: `s.split(' ')` without the empty pieces. */
  function Words(s: string): seq<string> {
    NonEmpty(SplitOn(s, ' '))
  }

  /** Python's `<` on strings: the first differing character decides, by
      code point, and a proper prefix comes first. */
  predicate TextLess(a: string, b: string)
    decreases |a|
  {
    if a == [] then b != []
    else if b == [] then false
    else if a[0] != b[0] then a[0] < b[0]
    else TextLess(a[1..], b[1..])
  }

  /** No two strings are each below the other. */
  lemma {:induction false} TextLessAsymmetric(a: string, b: string)
    ensures TextLess(a, b) ==> !TextLess(b, a)
    decreases |a|
  {
    if a != [] && b != [] && a[0] == b[0] {
      TextLessAsymmetric(a[1..], b[1..]);
    }
  }

  /** A common beginning does not change the order. */
  lemma {:induction false} TextLessCommonPrefix(p: string, a: string, b: string)
    ensures TextLess(p + a, p + b) <==> TextLess(a, b)
    decreases |p|
  {
    if p != [] {
      assert (p + a)[1..] == p[1..] + a && (p + b)[1..] == p[1..] + b;
      TextLessCommonPrefix(p[1..], a, b);
    } else {
      assert p + a == a && p + b == b;
    }
  }

  /** A proper prefix comes first. */
  lemma {:induction false} TextLessProperPrefix(a: string, x: string)
    requires x != []
    ensures TextLess(a, a + x)
    decreases |a|
  {
    if a != [] {
      assert (a + x)[1..] == a[1..] + x;
      TextLessProperPrefix(a[1..], x);
    }
  }

  /** Python `sep.join(ws)`. */
  function Join(ws: seq<string>, sep: string): string {
    if |ws| == 0 then []
    else if |ws| == 1 then ws[0]
    else ws[0] + sep + Join(ws[1..], sep)
  }

  // ---------------------------------------------------------------------------
  // Decimal numbers: int(s), str(n) and f"{n:0Kd}"
  // ---------------------------------------------------------------------------

  function DigitValue(c: char): nat
    requires IsDigit(c)
  {
    c as int - '0' as int
  }

  function DigitChar(d: nat): (c: char)
    requires d < 10
    ensures IsDigit(c) && DigitValue(c) == d
  {
    (d + '0' as int) as char
  }

  /** Python `int(s)` for a numeric `s` (leading zeros allowed). */
  function NatOf(s: string): nat
    requires IsNumeric(s) || s == []
  {
    if s == [] then 0 else NatOf(s[..|s| - 1]) * 10 + DigitValue(s[|s| - 1])
  }

  /** The body of an `int` literal: digits in groups joined by single `_`. */
  predicate DigitGroups(b: string) {
    && |b| > 0 && IsDigit(b[0]) && IsDigit(b[|b| - 1])
    && (forall i :: 0 <= i < |b| ==> IsDigit(b[i]) || b[i] == '_')
    && (forall i :: 0 <= i < |b| - 1 && b[i] == '_' ==> IsDigit(b[i + 1]))
  }

  /** The digits of a literal body, its `_` separators left out. */
  function Ungrouped(b: string): (r: string)
    ensures |r| <= |b|
    ensures (forall i :: 0 <= i < |b| ==> IsDigit(b[i]) || b[i] == '_') ==> forall i :: 0 <= i < |r| ==> IsDigit(r[i])
    ensures |b| > 0 && IsDigit(b[0]) ==> |r| > 0
    ensures IsNumeric(b) ==> r == b
  {
    if b == [] then []
    else
      var rest := Ungrouped(b[1..]);
      assert forall i :: 0 <= i < |b| - 1 ==> b[1..][i] == b[i + 1];
      assert [b[0]] + b[1..] == b;
      if b[0] == '_' then rest else [b[0]] + rest
  }

  /** Python `int(t)` on ASCII text: blanks around, an optional sign, then
      digit groups. Anything else raises `ValueError`, here `None`. */
  function IntOf(t: string): (r: Option<int>)
    ensures r.Some? ==> Strip(t) != []
  {
    var s := Strip(t);
    if s == [] then None
    else
      var b := if s[0] == '+' || s[0] == '-' then s[1..] else s;
      if DigitGroups(b) then
        DigitGroupsDigits(b);
        var v: int := NatOf(Ungrouped(b));
        Some(if s[0] == '-' then -v else v)
      else None
  }

  lemma DigitGroupsDigits(b: string)
    requires DigitGroups(b)
    ensures IsNumeric(Ungrouped(b))
  {
  }

  lemma NumericDigitGroups(d: string)
    requires IsNumeric(d)
    ensures DigitGroups(d) && Ungrouped(d) == d
  {
  }

  /** `int` reads a numeric string as `NatOf` does. */
  lemma IntOfNumeric(t: string)
    requires IsNumeric(t)
    ensures IntOf(t) == Some(NatOf(t))
  {
    StripNoEdgeSpace(t);
    NumericDigitGroups(t);
  }

  /** A sign in front of a number is read with the number. */
  lemma IntOfSigned(c: char, d: string)
    requires (c == '+' || c == '-') && IsNumeric(d)
    ensures IntOf([c] + d) == Some(if c == '-' then -(NatOf(d) as int) else NatOf(d))
  {
    var t := [c] + d;
    assert t[|t| - 1] == d[|d| - 1] && t[1..] == d;
    StripNoEdgeSpace(t);
    NumericDigitGroups(d);
  }

  /** A text starting with anything but a blank, a sign or a digit is no
      `int` literal. */
  lemma IntOfRejects(t: string)
    requires t != [] && !IsSpace(t[0]) && !IsDigit(t[0]) && t[0] != '+' && t[0] != '-'
    ensures IntOf(t) == None
  {
    assert LStrip(t) == t;
    assert Strip(t) == [] || Strip(t)[0] == t[0];
  }

  /** Python `str(n)`. */
  function Decimal(n: nat): (r: string)
    ensures IsNumeric(r)
    ensures |r| == 1 <==> n < 10
  {
    if n < 10 then [DigitChar(n)] else Decimal(n / 10) + [DigitChar(n % 10)]
  }

  function Zeros(k: nat): (r: string)
    ensures |r| == k && forall i :: 0 <= i < k ==> r[i] == '0'
  {
    if k == 0 then [] else Zeros(k - 1) + ['0']
  }

  /** Python `f"{n:0{width}d}"`: `str(n)` left-padded with zeros to `width`. */
  function ZeroPad(n: nat, width: nat): (r: string)
    ensures IsNumeric(r)
    ensures |r| == if |Decimal(n)| < width then width else |Decimal(n)|
  {
    var d := Decimal(n);
    if |d| < width then Zeros(width - |d|) + d else d
  }

  lemma {:induction false} NatOfDecimal(n: nat)
    ensures NatOf(Decimal(n)) == n
  {
    if n >= 10 {
      var d := Decimal(n);
      assert d[..|d| - 1] == Decimal(n / 10);
      NatOfDecimal(n / 10);
    }
  }

  lemma {:induction false} NatOfLeadingZero(s: string)
    requires IsNumeric(s)
    ensures IsNumeric(['0'] + s) && NatOf(['0'] + s) == NatOf(s)
  {
    var z := ['0'] + s;
    if |s| == 1 {
      assert z[..1] == ['0'];
    } else {
      assert z[..|z| - 1] == ['0'] + s[..|s| - 1];
      NatOfLeadingZero(s[..|s| - 1]);
    }
  }

  lemma {:induction false} NatOfZeros(k: nat, s: string)
    requires IsNumeric(s)
    ensures NatOf(Zeros(k) + s) == NatOf(s)
  {
    if k == 0 {
      assert Zeros(k) + s == s;
    } else {
      assert Zeros(k) + s == ['0'] + (Zeros(k - 1) + s);
      NatOfZeros(k - 1, s);
      var t := Zeros(k - 1) + s;
      assert forall i :: 0 <= i < |t| ==> IsDigit(t[i]);
      NatOfLeadingZero(t);
    }
  }

  /** Reading back a zero-padded number gives the number. */
  lemma ZeroPadRoundTrip(n: nat, width: nat)
    ensures NatOf(ZeroPad(n, width)) == n
  {
    NatOfDecimal(n);
    var d := Decimal(n);
    if |d| < width {
      NatOfZeros(width - |d|, d);
    }
  }

  /** A smaller number never has more decimal digits. */
  lemma {:induction false} DecimalMonotone(n: nat, m: nat)
    requires n <= m
    ensures |Decimal(n)| <= |Decimal(m)|
  {
    if n >= 10 {
      DecimalMonotone(n / 10, m / 10);
    }
  }

  /** A zero-padded number no wider than the width fills the width exactly. */
  lemma ZeroPadWidth(n: nat, width: nat)
    requires |Decimal(n)| <= width
    ensures |ZeroPad(n, width)| == width
  {
  }

  /** Digits have no whitespace around them to strip. */
  lemma StripNumeric(s: string)
    requires IsNumeric(s)
    ensures Strip(s) == s
  {
    StripNoEdgeSpace(s);
  }

  // ---------------------------------------------------------------------------
  // Facts about split / join used by the title normaliser
  // ---------------------------------------------------------------------------

  lemma {:induction false} SplitPiecesAvoidSep(s: string, c: char)
    ensures forall w :: w in SplitOn(s, c) ==> c !in w
  {
    if s != [] {
      SplitPiecesAvoidSep(s[1..], c);
    }
  }

  lemma {:induction false} SplitFirstIsPrefix(s: string, c: char)
    ensures |SplitOn(s, c)[0]| <= |s| && SplitOn(s, c)[0] == s[..|SplitOn(s, c)[0]|]
  {
    if s != [] && s[0] != c {
      SplitFirstIsPrefix(s[1..], c);
    }
  }

  lemma {:induction false} SplitNoSep(a: string, c: char)
    requires c !in a
    ensures SplitOn(a, c) == [a]
  {
    if a != [] {
      SplitNoSep(a[1..], c);
      assert [a[0]] + a[1..] == a;
    }
  }

  lemma {:induction false} SplitAfterPiece(a: string, b: string, c: char)
    requires c !in a
    ensures SplitOn(a + [c] + b, c) == [a] + SplitOn(b, c)
  {
    var s := a + [c] + b;
    if a == [] {
      assert s[1..] == b;
    } else {
      assert s[1..] == a[1..] + [c] + b;
      SplitAfterPiece(a[1..], b, c);
      assert [a[0]] + a[1..] == a;
    }
  }

  /** Splitting a join on its one-character separator gives the pieces back. */
  lemma {:induction false} SplitJoin(ws: seq<string>, c: char)
    requires |ws| >= 1
    requires forall i :: 0 <= i < |ws| ==> c !in ws[i]
    ensures SplitOn(Join(ws, [c]), c) == ws
  {
    if |ws| == 1 {
      SplitNoSep(ws[0], c);
    } else {
      SplitJoin(ws[1..], c);
      SplitAfterPiece(ws[0], Join(ws[1..], [c]), c);
      assert [ws[0]] + ws[1..] == ws;
    }
  }

  lemma {:induction false} NonEmptyAppend(a: seq<string>, b: seq<string>)
    ensures NonEmpty(a + b) == NonEmpty(a) + NonEmpty(b)
  {
    if a != [] {
      assert (a + b)[1..] == a[1..] + b;
      NonEmptyAppend(a[1..], b);
    } else {
      assert a + b == b;
    }
  }

  lemma {:induction false} NonEmptyKeepsAll(ws: seq<string>)
    requires forall i :: 0 <= i < |ws| ==> ws[i] != []
    ensures NonEmpty(ws) == ws
  {
    if ws != [] {
      NonEmptyKeepsAll(ws[1..]);
    }
  }

  /** A string made of non-empty, space-free words joined by single spaces
      splits back into exactly those words. */
  lemma WordsOfJoin(ws: seq<string>)
    requires forall i :: 0 <= i < |ws| ==> ws[i] != [] && ' ' !in ws[i]
    ensures Words(Join(ws, " ")) == ws
  {
    if ws != [] {
      SplitJoin(ws, ' ');
      NonEmptyKeepsAll(ws);
    }
  }

  lemma WordsShape(s: string)
    ensures forall i :: 0 <= i < |Words(s)| ==> Words(s)[i] != [] && ' ' !in Words(s)[i]
  {
    SplitPiecesAvoidSep(s, ' ');
    forall i | 0 <= i < |Words(s)|
      ensures Words(s)[i] != [] && ' ' !in Words(s)[i]
    {
      assert Words(s)[i] in Words(s);
    }
  }

  /** The first word starts with the first character when that is not a space. */
  lemma WordsFirst(s: string)
    requires s != [] && s[0] != ' '
    ensures Words(s) != [] && Words(s)[0] != [] && Words(s)[0][0] == s[0]
  {
  }

  lemma {:induction false} SplitLast(s: string, c: char)
    requires s != [] && s[|s| - 1] != c
    ensures var r := SplitOn(s, c); r[|r| - 1] != [] && r[|r| - 1][|r[|r| - 1]| - 1] == s[|s| - 1]
  {
    if |s| > 1 {
      assert s[1..][|s[1..]| - 1] == s[|s| - 1];
      SplitLast(s[1..], c);
    }
  }

  /** The last word ends with the last character when that is not a space. */
  lemma WordsLast(s: string)
    requires s != [] && s[|s| - 1] != ' '
    ensures var ws := Words(s); ws != [] && ws[|ws| - 1] != [] && ws[|ws| - 1][|ws[|ws| - 1]| - 1] == s[|s| - 1]
  {
    var r := SplitOn(s, ' ');
    SplitLast(s, ' ');
    assert r == r[..|r| - 1] + [r[|r| - 1]];
    NonEmptyAppend(r[..|r| - 1], [r[|r| - 1]]);
  }

  lemma JoinFirst(ws: seq<string>, sep: string)
    requires ws != [] && ws[0] != []
    ensures var j := Join(ws, sep); j != [] && j[0] == ws[0][0]
  {
  }

  lemma {:induction false} JoinLast(ws: seq<string>, sep: string)
    requires ws != [] && ws[|ws| - 1] != []
    ensures var j := Join(ws, sep); j != [] && j[|j| - 1] == ws[|ws| - 1][|ws[|ws| - 1]| - 1]
  {
    if |ws| > 1 {
      JoinLast(ws[1..], sep);
    }
  }
}
