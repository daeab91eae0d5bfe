// The string helpers of the playlist/link synchroniser: track-number cutting,
// audio names, link names built from the artist/album/file path, POSIX path
// splitting and joining, and the trimming of playlist lines as they are read.

module Playlister {
  import opened Text
  import opened Wrappers
  import FileNames

  /** U+2215 DIVISION SLASH, the look-alike of `/` used inside link names. */
  const DivisionSlash: char := '\U{2215}'

  /** The joiner `" ∕ "` of link names and postfixes. */
  const LinkSep: string := [' ', DivisionSlash, ' ']

  /** The marks `CutTrackNo` drops after a track number. */
  predicate IsNumberMark(c: char) {
    c == '.' || c == ',' || c == '-' || c == ':' || c == '|' || c == DivisionSlash
  }

  predicate IsBlank(s: string) {
    forall k :: 0 <= k < |s| ==> IsSpace(s[k])
  }

  // ---------------------------------------------------------------------------
  // Track numbers and audio names
  // ---------------------------------------------------------------------------

  /** `b` is a suffix of `a` and `c` one of `b`. */
  lemma EndsWithTrans(a: string, b: string, c: string)
    requires EndsWith(a, b) && EndsWith(b, c)
    ensures EndsWith(a, c)
  {
    assert b[|b| - |c|..] == a[|a| - |c|..];
  }

  lemma LStripEnds(s: string)
    ensures EndsWith(s, LStrip(s))
  {}

  /** `b` is a prefix of `a` and `c` one of `b`. */
  lemma StartsWithTrans(a: string, b: string, c: string)
    requires StartsWith(a, b) && StartsWith(b, c)
    ensures StartsWith(a, c)
  {
    assert b[..|c|] == a[..|c|];
  }

  lemma RStripStarts(s: string)
    ensures StartsWith(s, RStrip(s))
  {}

  /** `LStrip` leaves nothing exactly of a blank string. */
  lemma LStripBlank(s: string)
    ensures LStrip(s) == [] <==> IsBlank(s)
  {
  }

  /** One number mark and the blanks after it dropped from a non-blank start. */
  function DropNumberMark(name: string): (r: string)
    requires name != [] && !IsSpace(name[0])
    ensures EndsWith(name, r)
    ensures r == [] || !IsSpace(r[0])
  {
    if IsNumberMark(name[0]) then
      var cut := LStrip(name[1..]);
      LStripEnds(name[1..]);
      assert EndsWith(name, name[1..]);
      EndsWithTrans(name, name[1..], cut);
      cut
    else name
  }

  /** What `CutTrackNo` does after the digit run: strip the blanks, then drop
      a number mark. */
  function CutRest(rest: string): (r: Result<string>)
    ensures r.Err? <==> IsBlank(rest)
    ensures r.Err? ==> r.crash == IndexOutOfRange
    ensures r.Ok? ==> EndsWith(rest, r.value)
    ensures r.Ok? ==> r.value == [] || !IsSpace(r.value[0])
  {
    var name := LStrip(rest);
    LStripBlank(rest);
    LStripEnds(rest);
    if name == [] then Err(IndexOutOfRange)
    else
      var cut := DropNumberMark(name);
      EndsWithTrans(rest, name, cut);
      Ok(cut)
  }

  /** `CutTrackNo`: drop the leading digit run, then as `CutRest`. `name[0]`
      fails on a blank rest. */
  function CutTrackNo(basename: string): (r: Result<string>)
    ensures r.Err? <==> IsBlank(basename[FileNames.DigitEnd(basename, 0)..])
    ensures r.Err? ==> r.crash == IndexOutOfRange
    ensures r.Ok? ==> EndsWith(basename, r.value)
    ensures r.Ok? ==> r.value == [] || !IsSpace(r.value[0])
  {
    var rest := basename[FileNames.DigitEnd(basename, 0)..];
    var r := CutRest(rest);
    assert EndsWith(basename, rest);
    if r.Ok? then EndsWithTrans(basename, rest, r.value); r else r
  }

  /** The same with the counting loop over `pos`. */
  method CutTrackNoScan(basename: string) returns (r: Result<string>)
    ensures r == CutTrackNo(basename)
  {
    var pos := 0;
    while pos < |basename| && IsDigit(basename[pos])
      invariant pos <= |basename|
      invariant FileNames.DigitEnd(basename, pos) == FileNames.DigitEnd(basename, 0)
      decreases |basename| - pos
    {
      pos := pos + 1;
    }
    var name := LStrip(basename[pos..]);
    if name == [] {
      r := Err(IndexOutOfRange);
      return;
    }
    if IsNumberMark(name[0]) {
      name := LStrip(name[1..]);
    }
    r := Ok(name);
  }

  /** After digits comes a non-digit rest, which is what `CutRest` sees. */
  lemma {:induction false} CutTrackNoNumbered(d: string, rest: string)
    requires forall k :: 0 <= k < |d| ==> IsDigit(d[k])
    requires rest != [] && !IsDigit(rest[0])
    ensures CutTrackNo(d + rest) == CutRest(rest)
  {
    FileNames.DigitEndOf(d, rest);
    assert (d + rest)[|d|..] == rest;
  }

  /** `<mark><blanks><title>` loses the mark and the blanks. */
  lemma {:induction false} DropNumberMarkOf(c: char, pad2: string, title: string)
    requires IsBlank(pad2) && IsNumberMark(c)
    requires title == [] || !IsSpace(title[0])
    ensures DropNumberMark([c] + pad2 + title) == title
  {
    var t := [c] + pad2 + title;
    assert t[1..] == pad2 + title;
    LStripPadded(pad2, title);
  }

  /** `<blanks><mark><blanks><title>` gives the title. */
  lemma {:induction false} CutRestMarked(pad: string, c: char, pad2: string, title: string)
    requires IsBlank(pad) && IsBlank(pad2) && IsNumberMark(c)
    requires title == [] || !IsSpace(title[0])
    ensures CutRest(pad + [c] + pad2 + title) == Ok(title)
  {
    var t := [c] + pad2 + title;
    assert pad + [c] + pad2 + title == pad + t;
    LStripPadded(pad, t);
    DropNumberMarkOf(c, pad2, title);
  }

  /** `<blanks><title>` with a title that starts with neither a mark nor a
      blank gives the title. */
  lemma {:induction false} CutRestPlain(pad: string, title: string)
    requires IsBlank(pad)
    requires title != [] && !IsSpace(title[0]) && !IsNumberMark(title[0])
    ensures CutRest(pad + title) == Ok(title)
  {
    LStripPadded(pad, title);
  }

  /** A numbered name `<digits><blanks><mark><blanks><title>` yields the title. */
  lemma CutTrackNoMarked(d: string, pad: string, c: char, pad2: string, title: string)
    requires forall k :: 0 <= k < |d| ==> IsDigit(d[k])
    requires IsBlank(pad) && IsBlank(pad2) && IsNumberMark(c)
    requires title == [] || !IsSpace(title[0])
    ensures CutTrackNo(d + pad + [c] + pad2 + title) == Ok(title)
  {
    var rest := pad + [c] + pad2 + title;
    assert d + pad + [c] + pad2 + title == d + rest;
    assert rest[0] == (if pad == [] then c else pad[0]);
    CutTrackNoNumbered(d, rest);
    CutRestMarked(pad, c, pad2, title);
  }

  /** A name `<digits><blanks><title>` whose title starts with neither a mark
      nor a blank yields the title; with no digits and no blanks (and a title
      not starting with a digit) the name is returned unchanged. */
  lemma CutTrackNoPlain(d: string, pad: string, title: string)
    requires forall k :: 0 <= k < |d| ==> IsDigit(d[k])
    requires IsBlank(pad)
    requires title != [] && !IsSpace(title[0]) && !IsNumberMark(title[0])
    requires pad != [] || !IsDigit(title[0])
    ensures CutTrackNo(d + pad + title) == Ok(title)
  {
    var rest := pad + title;
    assert d + pad + title == d + rest;
    assert rest[0] == (if pad == [] then title[0] else pad[0]);
    CutTrackNoNumbered(d, rest);
    CutRestPlain(pad, title);
  }

  /** The name without the extension from its last dot, when that dot is not
      the first character, and without trailing blanks. */
  function Stem(name: string): (r: string)
    ensures StartsWith(name, r)
    ensures (name == [] || '.' !in name[1..]) ==> r == name
  {
    var pos := RFind(name, ".");
    if pos > 0 then
      var stem := RStrip(name[..pos]);
      RStripStarts(name[..pos]);
      assert StartsWith(name, name[..pos]);
      StartsWithTrans(name, name[..pos], stem);
      assert name != [] && '.' in name[1..] by { assert name[1..][pos - 1] == name[pos]; }
      stem
    else
      NoDotAfterFirst(name);
      name
  }

  lemma NoDotAfterFirst(name: string)
    requires RFind(name, ".") <= 0
    ensures name == [] || '.' !in name[1..]
  {
    if name != [] && '.' in name[1..] {
      var j :| 0 <= j < |name[1..]| && name[1..][j] == '.';
      assert IsAt(name, ".", j + 1);
    }
  }

  /** `AudioName`: the stem of the cut name. */
  function AudioName(basename: string): (r: Result<string>)
    ensures r.Ok? <==> CutTrackNo(basename).Ok?
    ensures r.Err? ==> r.crash == IndexOutOfRange
    ensures r.Ok? ==> StartsWith(CutTrackNo(basename).value, r.value)
    ensures r.Ok? ==> var name := CutTrackNo(basename).value;
      (name == [] || '.' !in name[1..]) ==> r.value == name
  {
    var name :- CutTrackNo(basename);
    Ok(Stem(name))
  }

  /** A cut name `<title>.<ext>` with a dot-free extension gives the title. */
  lemma AudioNameOfName(basename: string, title: string, ext: string)
    requires CutTrackNo(basename) == Ok(title + ['.'] + ext)
    requires title != [] && !IsSpace(title[|title| - 1]) && '.' !in ext
    ensures AudioName(basename) == Ok(title)
  {
    StemOfName(title, ext);
  }

  /** `<title>.<ext>` with a dot-free extension has the title as its stem. */
  lemma StemOfName(title: string, ext: string)
    requires title != [] && !IsSpace(title[|title| - 1]) && '.' !in ext
    ensures Stem(title + ['.'] + ext) == title
  {
    var name := title + ['.'] + ext;
    LastCharAt(title, '.', ext);
    assert name[..|title|] == title;
    RStripPadded(title, []);
    assert title + [] == title;
  }

  // ---------------------------------------------------------------------------
  // POSIX paths
  // ---------------------------------------------------------------------------

  /** The last occurrence of a character that is absent after it. */
  lemma LastCharAt(q: string, c: char, t: string)
    requires c !in t
    ensures RFind(q + [c] + t, [c]) == |q|
  {
    var s := q + [c] + t;
    var r := RFind(s, [c]);
    RFindChar(s, c);
    assert IsAt(s, [c], |q|);
  }

  lemma NotInConcat(c: char, a: string, b: string)
    requires c !in a && c !in b
    ensures c !in a + b
  {
    forall k | 0 <= k < |a + b| ensures (a + b)[k] != c {
      if k >= |a| {
        assert (a + b)[k] == b[k - |a|];
      }
    }
  }

  predicate AllSlashes(s: string) {
    forall k :: 0 <= k < |s| ==> s[k] == '/'
  }

  /** `s.rstrip('/')`. */
  function RStripSlashes(s: string): (r: string)
    ensures StartsWith(s, r)
    ensures r == [] || r[|r| - 1] != '/'
    ensures AllSlashes(s[|r|..])
  {
    if s != [] && s[|s| - 1] == '/' then RStripSlashes(s[..|s| - 1]) else s
  }

  /** The position after the last slash (0 without one). */
  function TailStart(p: string): (i: nat)
    ensures i <= |p| && '/' !in p[i..]
    ensures i > 0 ==> p[i - 1] == '/'
  {
    RFindChar(p, '/');
    RFind(p, "/") + 1
  }

  /** `posixpath.split`: head and tail around the last slash; the head loses its
      trailing slashes unless it consists of slashes only. */
  function PathSplit(p: string): (r: (string, string))
    ensures '/' !in r.1 && EndsWith(p, r.1)
    ensures r.0 == [] ==> '/' !in p
  {
    var i := TailStart(p);
    var head := p[..i];
    (if head != [] && !AllSlashes(head) then RStripSlashes(head) else head, p[i..])
  }

  /** `posixpath.basename`. */
  function BaseName(p: string): (r: string)
    ensures '/' !in r && EndsWith(p, r)
  {
    p[TailStart(p)..]
  }

  /** `posixpath.dirname`. */
  function DirName(p: string): string {
    PathSplit(p).0
  }

  /** `posixpath.join` of two parts. */
  function PathJoin(a: string, b: string): (r: string)
    ensures EndsWith(r, b)
    ensures (b != [] && b[0] == '/') || StartsWith(r, a)
  {
    if b != [] && b[0] == '/' then b
    else if a == [] || a[|a| - 1] == '/' then a + b
    else a + "/" + b
  }

  /** Splitting `q/f` gives back `q` and `f` when `f` has no slash and `q` does
      not end in one. */
  lemma SplitAtLastSlash(q: string, f: string)
    requires '/' !in f && q != [] && q[|q| - 1] != '/'
    ensures PathSplit(q + "/" + f) == (q, f)
    ensures BaseName(q + "/" + f) == f
  {
    var s := q + "/" + f;
    LastCharAt(q, '/', f);
    assert s[..|q| + 1] == q + "/";
    assert (q + "/")[..|q|] == q;
    assert !AllSlashes(q + "/") by { assert (q + "/")[|q| - 1] != '/'; }
    assert s[|q| + 1..] == f;
  }

  /** Joining a directory that does not end in a slash with a slash-free name
      and splitting again gives both back. */
  lemma JoinSplit(dir: string, name: string)
    requires dir != [] && dir[|dir| - 1] != '/' && '/' !in name
    requires name == [] || name[0] != '/'
    ensures PathJoin(dir, name) == dir + "/" + name
    ensures PathSplit(PathJoin(dir, name)) == (dir, name)
  {
    SplitAtLastSlash(dir, name);
  }

  // ---------------------------------------------------------------------------
  // Link names
  // ---------------------------------------------------------------------------

  /** `MakeLinkName`: `<artist dir> ∕ <album dir> ∕ <file>` from a path. */
  function MakeLinkName(audioPath: string): (r: string)
    ensures '/' !in r
  {
    var split := PathSplit(audioPath);
    var upper := PathSplit(split.0);
    var artistName := BaseName(upper.0);
    LinkNameNoSlash(artistName, upper.1, split.1);
    artistName + LinkSep + upper.1 + LinkSep + split.1
  }

  lemma LinkNameNoSlash(artist: string, album: string, file: string)
    requires '/' !in artist && '/' !in album && '/' !in file
    ensures '/' !in artist + LinkSep + album + LinkSep + file
  {
    assert '/' !in LinkSep;
    NotInConcat('/', artist, LinkSep);
    NotInConcat('/', artist + LinkSep, album);
    NotInConcat('/', artist + LinkSep + album, LinkSep);
    NotInConcat('/', artist + LinkSep + album + LinkSep, file);
  }

  /** For `.../<artist>/<album>/<file>` the link name is made of those three. */
  lemma MakeLinkNameOfPath(p: string, artist: string, album: string, file: string)
    requires artist != [] && album != []
    requires '/' !in artist && '/' !in album && '/' !in file
    ensures MakeLinkName(p + "/" + artist + "/" + album + "/" + file)
         == artist + LinkSep + album + LinkSep + file
  {
    AlbumPathParts(p, artist, album, file);
  }

  /** The parts of `.../<artist>/<album>/<file>` as split by `posixpath`. */
  lemma AlbumPathParts(p: string, artist: string, album: string, file: string)
    requires artist != [] && album != []
    requires '/' !in artist && '/' !in album && '/' !in file
    ensures var pa := p + "/" + artist; var pb := pa + "/" + album;
      && PathSplit(pb + "/" + file) == (pb, file)
      && PathSplit(pb) == (pa, album)
      && BaseName(pa) == artist
  {
    var pa := p + "/" + artist;
    var pb := pa + "/" + album;
    assert pa[|pa| - 1] == artist[|artist| - 1];
    assert pb[|pb| - 1] == album[|album| - 1];
    SplitAtLastSlash(pb, file);
    SplitAtLastSlash(pa, album);
    LastCharAt(p, '/', artist);
    assert pa == p + ['/'] + artist;
    assert pa[|p| + 1..] == artist;
  }

  lemma NoSlashInSuffix(b: string, f: string)
    requires '/' !in b && EndsWith(b, f)
    ensures '/' !in f
  {
    forall k | 0 <= k < |f| ensures f[k] != '/' {
      assert f[k] == b[|b| - |f| + k];
    }
  }

  // ---------------------------------------------------------------------------
  // Playlist lines
  // ---------------------------------------------------------------------------

  /** Drop one trailing `c`. */
  function DropLast(s: string, c: char): (r: string)
    ensures StartsWith(s, r) && |s| - 1 <= |r|
    ensures |r| < |s| <==> (s != [] && s[|s| - 1] == c)
  {
    if s != [] && s[|s| - 1] == c then s[..|s| - 1] else s
  }

  /** A playlist line as read: one `\n`, then one `\r`, then one `\n` dropped.
      The line is the text `readlines` hands over. In text mode Python has
      already turned a `\r\n` ending into `\n` by then, so such a line
      arrives here ending in `\n` alone; the `\r` cases only apply to text
      that still holds them. */
  function TrimLine(e: string): (r: string)
    ensures StartsWith(e, r) && |e| - 3 <= |r|
    ensures forall k :: |r| <= k < |e| ==> e[k] == '\r' || e[k] == '\n'
  {
    DropLast(DropLast(DropLast(e, '\n'), '\r'), '\n')
  }

  predicate EndsInBreak(s: string) {
    s != [] && (s[|s| - 1] == '\r' || s[|s| - 1] == '\n')
  }

  /** Lines ending in `\r\n`, in `\n` or in neither are read back as written;
      the `\n` case is the one a text-mode read of a `\r\n` line gives. */
  lemma TrimLineRoundTrip(x: string)
    requires !EndsInBreak(x)
    ensures TrimLine(x + "\r\n") == x
    ensures TrimLine(x + "\n") == x
    ensures TrimLine(x) == x
  {
    DropLastOf(x, '\n');
    DropLastOf(x, '\r');
    DropLastOf(x + "\r", '\n');
    assert x + "\r" + "\n" == x + "\r\n";
  }

  /** Dropping `c` from `x + [c]` gives `x`, and from `x` nothing, when `x`
      does not end in `c`. */
  lemma DropLastOf(x: string, c: char)
    requires x == [] || x[|x| - 1] != c
    ensures DropLast(x + [c], c) == x && DropLast(x, c) == x
  {
    assert (x + [c])[..|x|] == x;
  }

  function TrimAll(lines: seq<string>): (r: seq<string>)
    ensures |r| == |lines|
    ensures forall i :: 0 <= i < |lines| ==> r[i] == TrimLine(lines[i])
  {
    seq(|lines|, i requires 0 <= i < |lines| => TrimLine(lines[i]))
  }

  /** The in-place rewrite of `playEntries[i]`. */
  method TrimEntries(entries: array<string>)
    modifies entries
    ensures forall i :: 0 <= i < entries.Length ==> entries[i] == TrimLine(old(entries[i]))
  {
    for i := 0 to entries.Length
      invariant forall k :: 0 <= k < i ==> entries[k] == TrimLine(old(entries[k]))
      invariant forall k :: i <= k < entries.Length ==> entries[k] == old(entries[k])
    {
      var e1 := entries[i];
      if |e1| > 0 && e1[|e1| - 1] == '\n' {
        e1 := e1[..|e1| - 1];
      }
      if |e1| > 0 && e1[|e1| - 1] == '\r' {
        e1 := e1[..|e1| - 1];
      }
      if |e1| > 0 && e1[|e1| - 1] == '\n' {
        e1 := e1[..|e1| - 1];
      }
      entries[i] := e1;
    }
  }

  /** Reading a playlist: its lines, trimmed. */
  method ReadEntries(lines: seq<string>) returns (entries: seq<string>)
    ensures entries == TrimAll(lines)
  {
    var a := new string[|lines|](i requires 0 <= i < |lines| => lines[i]);
    TrimEntries(a);
    entries := a[..];
  }

  /** Appended `\r\n`-terminated lines read back as themselves. */
  lemma {:induction false} ReadBackAppended(lines: seq<string>, ws: seq<string>)
    requires forall w :: w in ws ==> !EndsInBreak(w)
    ensures TrimAll(lines + seq(|ws|, i requires 0 <= i < |ws| => ws[i] + "\r\n"))
         == TrimAll(lines) + ws
  {
    var terminated := seq(|ws|, i requires 0 <= i < |ws| => ws[i] + "\r\n");
    var all := lines + terminated;
    forall i | 0 <= i < |all|
      ensures TrimLine(all[i]) == (TrimAll(lines) + ws)[i]
    {
      if i >= |lines| {
        var w := ws[i - |lines|];
        assert w in ws;
        TrimLineRoundTrip(w);
      }
    }
  }
}
