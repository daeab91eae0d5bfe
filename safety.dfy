/** File-name safety: the translation table `SAFE_TABLE` applied by
    `ensureStringSafety`, and the unused check `isStringSafe`. */
module Safety {
  import opened Text
  import opened Wrappers

  /** Characters that `SAFE_TABLE` replaces or deletes. */
  predicate IsUnsafe(c: char) {
    c == '\t' || c == '/' || c == '\\' || c == '|' || c == '$' || c == '?' || c == ':' || c == '*'
    || c == '<' || c == '>' || IsDeleted(c)
  }

  /** Characters that `SAFE_TABLE` deletes. */
  predicate IsDeleted(c: char) {
    c == '\n' || c == '\r' || c == '\0'
  }

  predicate IsSafeStr(s: string) {
    forall i :: 0 <= i < |s| ==> !IsUnsafe(s[i])
  }

  /** One entry of `SAFE_TABLE` (Audite.py:139): `None` means the character
      is deleted; characters outside the table map to themselves. */
  function SafeChar(c: char): (r: Option<char>)
    ensures r.Some? ==> !IsUnsafe(r.value)
    ensures !IsUnsafe(c) <==> r == Some(c)
    ensures r == None <==> IsDeleted(c)
  {
    match c
    case '\t' => Some(' ')
    case '/' => Some('∕')
    case '\\' => Some('∖')
    case '|' => Some('∣')
    case '$' => Some('＄')
    case '?' => Some('？')
    case ':' => Some('.')
    case '*' => Some('＊')
    case '<' => Some('〈')
    case '>' => Some('〉')
    case '\n' => None
    case '\r' => None
    case '\0' => None
    case _ => Some(c)
  }

  /** `ensureStringSafety` (Audite.py:202-203): `str.translate(SAFE_TABLE)`. */
  function EnsureStringSafety(s: string): (r: string)
    ensures |r| <= |s|
    ensures IsSafeStr(r)
  {
    if s == [] then []
    else
      var rest := EnsureStringSafety(s[1..]);
      match SafeChar(s[0])
      case None => rest
      case Some(c) => [c] + rest
  }

  lemma {:induction false} SafetyAppend(a: string, b: string)
    ensures EnsureStringSafety(a + b) == EnsureStringSafety(a) + EnsureStringSafety(b)
  {
    if a != [] {
      assert (a + b)[1..] == a[1..] + b;
      SafetyAppend(a[1..], b);
    } else {
      assert a + b == b;
    }
  }

  /** A string without unsafe characters is exactly the fixed points. */
  lemma {:induction false} SafetyFixedPoint(s: string)
    ensures EnsureStringSafety(s) == s <==> IsSafeStr(s)
  {
    if s != [] {
      SafetyFixedPoint(s[1..]);
      assert IsSafeStr(s) <==> !IsUnsafe(s[0]) && IsSafeStr(s[1..]);
      if SafeChar(s[0]) == None {
        assert |EnsureStringSafety(s)| < |s|;
      }
    }
  }

  /** `ensureStringSafety` is idempotent. */
  lemma SafetyIdempotent(s: string)
    ensures EnsureStringSafety(EnsureStringSafety(s)) == EnsureStringSafety(s)
  {
    SafetyFixedPoint(EnsureStringSafety(s));
  }

  /** Python `str.isprintable()` on one character, restricted to what can be
      decided without Unicode tables: the C0 and C1 control characters and
      DEL are not printable, everything else is taken as printable. */
  predicate IsPrintableChar(c: char) {
    !(c < ' ' || ('\U{7f}' <= c <= '\U{9f}'))
  }

  /** `isStringSafe` (Audite.py:307-308). */
  predicate IsStringSafe(s: string) {
    (forall i :: 0 <= i < |s| ==> IsPrintableChar(s[i]))
    && Find(s, "/", 0) < 0 && Find(s, "\\", 0) < 0 && Find(s, ":", 0) < 0
  }

  /** The output of `ensureStringSafety` passes `isStringSafe` whenever the
      only control characters in the input are the ones the table handles. */
  lemma {:induction false} SafetyMakesSafe(s: string)
    requires forall i :: 0 <= i < |s| ==> IsPrintableChar(s[i]) || s[i] == '\t' || IsDeleted(s[i])
    ensures IsStringSafe(EnsureStringSafety(s))
  {
    var r := EnsureStringSafety(s);
    SafetyPrintable(s);
    FindChar(r, '/', 0);
    FindChar(r, '\\', 0);
    FindChar(r, ':', 0);
    assert forall i :: 0 <= i < |r| ==> !IsUnsafe(r[i]);
  }

  lemma {:induction false} SafetyPrintable(s: string)
    requires forall i :: 0 <= i < |s| ==> IsPrintableChar(s[i]) || s[i] == '\t' || IsDeleted(s[i])
    ensures forall i :: 0 <= i < |EnsureStringSafety(s)| ==> IsPrintableChar(EnsureStringSafety(s)[i])
  {
    if s != [] {
      SafetyPrintable(s[1..]);
    }
  }
}
