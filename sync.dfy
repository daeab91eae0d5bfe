// Keeping a folder of links and an M3U playlist coherent: the link-name
// disambiguation of the playlist-to-links direction (m2l) and the
// append-only dedupe of the links-to-playlist direction (l2m).

module PlaylistSync {
  import opened Text
  import opened Wrappers
  import opened Playlister

  // ---------------------------------------------------------------------------
  // Postfixes
  // ---------------------------------------------------------------------------

  /** Where a postfix goes: before the last dot when that dot is not the first
      character, otherwise at the end. */
  function InsertionPoint(p: string): (at: nat)
    ensures at <= |p|
    ensures at == |p| || (0 < at && p[at] == '.' && '.' !in p[at + 1..])
    ensures at == |p| ==> p == [] || '.' !in p[1..]
  {
    var pos := RFind(p, ".");
    if pos > 0 then
      RFindChar(p, '.');
      pos
    else
      NoDotAfterFirst(p);
      |p|
  }

  /** Inserting ` (postfix)` into a link path. */
  function WithPostfix(p: string, postfix: string): (r: string)
    ensures |r| == |p| + |postfix|
  {
    var pos := RFind(p, ".");
    if pos > 0 then p[..pos] + postfix + p[pos..] else p + postfix
  }

  /** The postfix sits at the insertion point, between the two parts of the
      original path. */
  lemma WithPostfixAt(p: string, postfix: string)
    ensures var r := WithPostfix(p, postfix); var at := InsertionPoint(p);
      r == p[..at] + postfix + p[at..]
  {
  }

  /** Taking the postfix out again gives the original path back. */
  lemma WithPostfixRemoved(p: string, postfix: string)
    ensures var r := WithPostfix(p, postfix); var at := InsertionPoint(p);
      r[..at] + r[at + |postfix|..] == p
  {
    var r := WithPostfix(p, postfix);
    var at := InsertionPoint(p);
    WithPostfixAt(p, postfix);
    assert r[..at] == p[..at];
    assert r[at + |postfix|..] == p[at..];
  }

  /** A name with an extension keeps it: the postfix lands just before it. */
  lemma WithPostfixKeepsExtension(stem: string, ext: string, postfix: string)
    requires stem != [] && '.' !in ext
    ensures WithPostfix(stem + ['.'] + ext, postfix) == stem + postfix + ['.'] + ext
  {
    var p := stem + ['.'] + ext;
    LastCharAt(stem, '.', ext);
    assert p[..|stem|] == stem && p[|stem|..] == ['.'] + ext;
  }

  /** The postfix from the artist and album directory names: both when the
      artist name is there, else the album name, else the random number. */
  function PostfixOf(artName: string, albName: string, rnd: nat): (r: string)
    ensures '/' !in artName && '/' !in albName ==> '/' !in r
    ensures |r| > 3 && r[..2] == " (" && r[|r| - 1] == ')'
    ensures artName != [] && '/' !in artName ==> r == " (" + artName + LinkSep + albName + ")"
  {
    var postfix :=
      if |artName| > 0 && '/' !in artName then artName + LinkSep + albName
      else if |albName| > 0 && '/' !in albName then albName
      else [];
    var text := if |postfix| == 0 then Decimal(rnd) else postfix;
    PostfixNoSlash(artName, albName, rnd, text);
    " (" + text + ")"
  }

  lemma PostfixNoSlash(artName: string, albName: string, rnd: nat, text: string)
    requires text == Decimal(rnd) || text == albName || text == artName + LinkSep + albName
    ensures '/' !in artName && '/' !in albName ==> '/' !in " (" + text + ")"
  {
    if '/' in artName || '/' in albName {
      return;
    }
    assert '/' !in LinkSep;
    NotInConcat('/', artName, LinkSep);
    NotInConcat('/', artName + LinkSep, albName);
    assert '/' !in Decimal(rnd) by {
      forall k | 0 <= k < |Decimal(rnd)| ensures Decimal(rnd)[k] != '/' {
        assert IsDigit(Decimal(rnd)[k]);
      }
    }
    NotInConcat('/', " (", text);
    NotInConcat('/', " (" + text, ")");
  }

  /** The text of the first postfix, from the two directories above the
      local file; the slash tests in it never fail, since both names come out
      of a split. */
  function PostfixText(locPath: string, rnd: nat): (r: string)
    ensures '/' !in r && |r| > 3
    ensures r[..2] == " (" && r[|r| - 1] == ')'
  {
    var tgtDir := DirName(locPath);
    var (artPath, albName) := PathSplit(tgtDir);
    PostfixOf(BaseName(artPath), albName, rnd)
  }

  /** For `.../<artist>/<album>/<file>` the postfix names artist and album. */
  lemma PostfixOfAlbumPath(p: string, artist: string, album: string, file: string, rnd: nat)
    requires artist != [] && album != []
    requires '/' !in artist && '/' !in album && '/' !in file
    ensures PostfixText(p + "/" + artist + "/" + album + "/" + file, rnd)
         == " (" + artist + LinkSep + album + ")"
  {
    AlbumPathParts(p, artist, album, file);
  }

  // ---------------------------------------------------------------------------
  // m2l: where the postfix goes
  // ---------------------------------------------------------------------------

  /** As written: the postfix goes into the joined link path, so a link name
      without a dot takes it before a dot of the link directory. */
  function PostfixedAsWritten(linkDir: string, name: string, postfix: string): string {
    WithPostfix(PathJoin(linkDir, name), postfix)
  }

  /** Intended: the postfix goes into the link name only. */
  function Postfixed(linkDir: string, name: string, postfix: string): string {
    PathJoin(linkDir, WithPostfix(name, postfix))
  }

  /** The intended link stays in the link directory, under the postfixed name. */
  lemma PostfixedStaysInLinkDir(linkDir: string, name: string, postfix: string)
    requires linkDir != [] && linkDir[|linkDir| - 1] != '/' && '/' !in name && '/' !in postfix
    ensures PathSplit(Postfixed(linkDir, name, postfix)) == (linkDir, WithPostfix(name, postfix))
  {
    var n := WithPostfix(name, postfix);
    var at := InsertionPoint(name);
    WithPostfixAt(name, postfix);
    NotInConcat('/', name[..at], postfix);
    NotInConcat('/', name[..at] + postfix, name[at..]);
    JoinSplit(linkDir, n);
  }

  /** With a dot in the link directory and none in the link name, the code as
      written puts the link outside the link directory. */
  lemma PostfixLeavesLinkDir(dirStem: string, dirExt: string, name: string, postfix: string)
    requires dirStem != [] && dirStem[|dirStem| - 1] != '/'
    requires '.' !in dirExt && dirExt != [] && dirExt[|dirExt| - 1] != '/'
    requires '.' !in name && '/' !in name && (name == [] || name[0] != '/')
    requires postfix != [] && postfix[0] != '.'
    ensures var linkDir := dirStem + ['.'] + dirExt;
      !StartsWith(PostfixedAsWritten(linkDir, name, postfix), linkDir)
  {
    var linkDir := dirStem + ['.'] + dirExt;
    var t := dirExt + "/" + name;
    JoinNameAfterDot(dirStem, dirExt, name);
    NotInConcat('.', dirExt, "/");
    NotInConcat('.', dirExt + "/", name);
    WithPostfixKeepsExtension(dirStem, t, postfix);
    var r := dirStem + postfix + ['.'] + t;
    assert r[|dirStem|] == postfix[0];
    assert linkDir[|dirStem|] == '.';
  }

  lemma JoinNameAfterDot(dirStem: string, dirExt: string, name: string)
    requires dirExt != [] && dirExt[|dirExt| - 1] != '/' && (name == [] || name[0] != '/')
    ensures PathJoin(dirStem + ['.'] + dirExt, name) == dirStem + ['.'] + (dirExt + "/" + name)
  {
  }

  /** The two agree whenever the link name has an extension. */
  lemma PostfixedAgreesWithExtension(linkDir: string, stem: string, ext: string, postfix: string)
    requires linkDir != [] && linkDir[|linkDir| - 1] != '/'
    requires stem != [] && stem[0] != '/' && '.' !in ext
    ensures PostfixedAsWritten(linkDir, stem + ['.'] + ext, postfix)
         == Postfixed(linkDir, stem + ['.'] + ext, postfix)
  {
    AsWrittenWithExtension(linkDir, stem, ext, postfix);
    IntendedWithExtension(linkDir, stem, ext, postfix);
  }

  lemma AsWrittenWithExtension(linkDir: string, stem: string, ext: string, postfix: string)
    requires linkDir != [] && linkDir[|linkDir| - 1] != '/'
    requires stem != [] && stem[0] != '/' && '.' !in ext
    ensures PostfixedAsWritten(linkDir, stem + ['.'] + ext, postfix)
         == (linkDir + "/" + stem) + postfix + ['.'] + ext
  {
    var name := stem + ['.'] + ext;
    var q := linkDir + "/" + stem;
    JoinPlain(linkDir, name);
    assert linkDir + "/" + name == q + ['.'] + ext;
    WithPostfixKeepsExtension(q, ext, postfix);
  }

  lemma IntendedWithExtension(linkDir: string, stem: string, ext: string, postfix: string)
    requires linkDir != [] && linkDir[|linkDir| - 1] != '/'
    requires stem != [] && stem[0] != '/' && '.' !in ext
    ensures Postfixed(linkDir, stem + ['.'] + ext, postfix)
         == (linkDir + "/" + stem) + postfix + ['.'] + ext
  {
    WithPostfixKeepsExtension(stem, ext, postfix);
    var n := stem + postfix + ['.'] + ext;
    JoinPlain(linkDir, n);
    assert linkDir + "/" + n == (linkDir + "/" + stem) + postfix + ['.'] + ext;
  }

  lemma JoinPlain(a: string, b: string)
    requires a != [] && a[|a| - 1] != '/' && b != [] && b[0] != '/'
    ensures PathJoin(a, b) == a + "/" + b
  {
  }

  // ---------------------------------------------------------------------------
  // m2l: the decision for one playlist entry
  // ---------------------------------------------------------------------------

  /** What happens to one playlist entry whose local file exists. */
  datatype LinkAction =
    | Create(path: string)   // asked for and then made
    | Duplicate              // a link to the same file is there already
    | NoAction               // an existing link is broken, or nothing is made

  /** The link name: the file name without its track number, or the full
      `artist ∕ album ∕ file` name. The track number is cut in both modes. */
  function LinkName(locPath: string, relPath: string, fullLinks: bool): (r: Result<string>)
    ensures r.Ok? <==> CutTrackNo(BaseName(locPath)).Ok?
    ensures r.Ok? ==> '/' !in r.value
  {
    var fName :- CutTrackNo(BaseName(locPath));
    NoSlashInSuffix(BaseName(locPath), fName);
    Ok(if fullLinks then MakeLinkName(relPath) else fName)
  }

  /** The two link-directory checks as written: a fresh name is created; an
      existing healthy link to the same file is a duplicate; a second clash
      computes a random-postfixed name and then makes nothing. The folder's
      state enters as `linkEntries` (its links), `healthy` (a link resolves
      to an existing file) and `same` (it resolves to the entry's file). */
  function LinkActionAsWritten(linkDir: string, name: string, linkEntries: seq<string>,
                               healthy: string -> bool, same: string -> bool,
                               fullLinks: bool, postfix: string): (r: LinkAction)
    ensures r.Create? ==> r.path !in linkEntries
  {
    var lnkPath := PathJoin(linkDir, name);
    if lnkPath !in linkEntries then Create(lnkPath)
    else if !healthy(lnkPath) then NoAction
    else if same(lnkPath) then Duplicate
    else
      var second := if fullLinks then lnkPath else WithPostfix(lnkPath, postfix);
      if second !in linkEntries then Create(second)
      else if !healthy(second) then NoAction
      else if same(second) then Duplicate
      else NoAction
  }

  /** The second link name tried: postfixed in the short-name mode. */
  function SecondName(name: string, fullLinks: bool, postfix: string): string {
    if fullLinks then name else WithPostfix(name, postfix)
  }

  /** Intended: postfixes go into the name, and the random-postfixed third
      name is created (unchecked, as the second check is the last one). */
  function LinkActionOf(linkDir: string, name: string, linkEntries: seq<string>,
                        healthy: string -> bool, same: string -> bool,
                        fullLinks: bool, postfix: string, rndPostfix: string): (r: LinkAction)
    ensures var first := PathJoin(linkDir, name);
      var second := PathJoin(linkDir, SecondName(name, fullLinks, postfix));
      && (first !in linkEntries ==> r == Create(first))
      && (r.Duplicate? ==> (first in linkEntries && healthy(first) && same(first)) ||
                           (second in linkEntries && healthy(second) && same(second)))
      && (r.NoAction? ==> (first in linkEntries && !healthy(first)) ||
                          (second in linkEntries && !healthy(second)))
      && (r.Create? && r.path in linkEntries ==>
            r.path == Postfixed(linkDir, SecondName(name, fullLinks, postfix), rndPostfix))
  {
    var lnkPath := PathJoin(linkDir, name);
    if lnkPath !in linkEntries then Create(lnkPath)
    else if !healthy(lnkPath) then NoAction
    else if same(lnkPath) then Duplicate
    else
      var secondName := SecondName(name, fullLinks, postfix);
      var second := PathJoin(linkDir, secondName);
      if second !in linkEntries then Create(second)
      else if !healthy(second) then NoAction
      else if same(second) then Duplicate
      else Create(Postfixed(linkDir, secondName, rndPostfix))
  }

  /** Two healthy clashes with other files: the code as written makes nothing,
      the intended version makes the random-postfixed link. */
  lemma SecondClashDropsLink(linkDir: string, stem: string, ext: string, linkEntries: seq<string>,
                             healthy: string -> bool, same: string -> bool,
                             postfix: string, rndPostfix: string)
    requires linkDir != [] && linkDir[|linkDir| - 1] != '/'
    requires stem != [] && stem[0] != '/' && '.' !in ext
    requires var first := PathJoin(linkDir, stem + ['.'] + ext);
      var second := Postfixed(linkDir, stem + ['.'] + ext, postfix);
      first in linkEntries && healthy(first) && !same(first) &&
      second in linkEntries && healthy(second) && !same(second)
    ensures LinkActionAsWritten(linkDir, stem + ['.'] + ext, linkEntries, healthy, same,
                                false, postfix) == NoAction
    ensures LinkActionOf(linkDir, stem + ['.'] + ext, linkEntries, healthy, same,
                         false, postfix, rndPostfix).Create?
  {
    PostfixedAgreesWithExtension(linkDir, stem, ext, postfix);
  }

  // ---------------------------------------------------------------------------
  // l2m: external paths
  // ---------------------------------------------------------------------------

  /** Whether the external base ends in a backslash; `extBase[-1]` fails on an
      empty base. */
  function BackslashStyle(extBase: string): (r: Result<bool>)
    ensures r.Ok? <==> extBase != []
    ensures r.Err? ==> r.crash == IndexOutOfRange
    ensures r.Ok? ==> (r.value <==> extBase[|extBase| - 1] == '\\')
  {
    if extBase == [] then Err(IndexOutOfRange) else Ok(extBase[|extBase| - 1] == '\\')
  }

  /** `s.replace(a, b)` for single characters. */
  function ReplaceChar(s: string, a: char, b: char): (r: string)
    ensures |r| == |s|
    ensures forall k :: 0 <= k < |s| ==> r[k] == (if s[k] == a then b else s[k])
  {
    seq(|s|, k requires 0 <= k < |s| => if s[k] == a then b else s[k])
  }

  /** Replacing back and forth is the identity when the target was absent. */
  lemma ReplaceRoundTrip(s: string, a: char, b: char)
    requires b !in s
    ensures ReplaceChar(ReplaceChar(s, a, b), b, a) == s
  {
    var r := ReplaceChar(ReplaceChar(s, a, b), b, a);
    forall k | 0 <= k < |s| ensures r[k] == s[k] {
      assert s[k] != b;
    }
  }

  /** As written: join with a slash, then turn every slash into a backslash,
      so a base that ends in a backslash is followed by a second one. */
  function ExtPathAsWritten(extBase: string, relPath: string, sepBslash: bool): string {
    var p := PathJoin(extBase, relPath);
    if sepBslash then ReplaceChar(p, '/', '\\') else p
  }

  /** Intended: the relative path follows the backslash-ended base directly. */
  function ExtPath(extBase: string, relPath: string, sepBslash: bool): (r: string)
    ensures sepBslash && extBase != [] && extBase[|extBase| - 1] == '\\' && '\\' !in relPath ==>
      StartsWith(r, extBase) && ReplaceChar(r[|extBase|..], '\\', '/') == relPath
  {
    ExtPathBackslash(extBase, relPath);
    if sepBslash then extBase + ReplaceChar(relPath, '/', '\\')
    else PathJoin(extBase, relPath)
  }

  lemma ExtPathBackslash(extBase: string, relPath: string)
    ensures '\\' !in relPath ==>
      var r := extBase + ReplaceChar(relPath, '/', '\\');
      StartsWith(r, extBase) && ReplaceChar(r[|extBase|..], '\\', '/') == relPath
  {
    if '\\' !in relPath {
      var r := extBase + ReplaceChar(relPath, '/', '\\');
      assert r[|extBase|..] == ReplaceChar(relPath, '/', '\\');
      ReplaceRoundTrip(relPath, '/', '\\');
    }
  }

  /** With a backslash-ended base and a relative path the code as written
      doubles the separator. */
  lemma ExtPathDoublesSeparator(extBase: string, relPath: string)
    requires extBase != [] && extBase[|extBase| - 1] == '\\'
    requires relPath == [] || relPath[0] != '/'
    ensures ExtPathAsWritten(extBase, relPath, true)
         == ReplaceChar(extBase, '/', '\\') + "\\" + ReplaceChar(relPath, '/', '\\')
    ensures ExtPath(extBase, relPath, true) == extBase + ReplaceChar(relPath, '/', '\\')
  {
    var p := extBase + "/" + relPath;
    var r := ExtPathAsWritten(extBase, relPath, true);
    var e := ReplaceChar(extBase, '/', '\\') + "\\" + ReplaceChar(relPath, '/', '\\');
    assert |r| == |e|;
    forall k | 0 <= k < |r| ensures r[k] == e[k] {
      if k < |extBase| {
        assert p[k] == extBase[k];
      } else if k > |extBase| {
        assert p[k] == relPath[k - |extBase| - 1];
      }
    }
  }

  // ---------------------------------------------------------------------------
  // l2m: the append plan
  // ---------------------------------------------------------------------------

  /** The entries appended and the relative paths the user turned down. */
  datatype AppendPlan = AppendPlan(written: seq<string>, aborted: seq<string>)

  predicate Distinct(s: seq<string>) {
    forall i, j :: 0 <= i < j < |s| ==> s[i] != s[j]
  }

  /** As written, over the first `n` links: an external path not among the
      entries read at start is offered; answer `k` (the `k`-th prompt, 0-based)
      is empty to write it and anything else to turn it down. */
  function PlanAsWritten(entries: seq<string>, rels: seq<string>, exts: seq<string>,
                         answer: nat -> string, n: nat): (r: AppendPlan)
    requires n <= |rels| == |exts|
    ensures |r.written| + |r.aborted| <= n
  {
    if n == 0 then AppendPlan([], [])
    else
      var prev := PlanAsWritten(entries, rels, exts, answer, n - 1);
      var ext := exts[n - 1];
      if ext in entries then prev
      else if |answer(|prev.written| + |prev.aborted|)| > 0 then
        AppendPlan(prev.written, prev.aborted + [rels[n - 1]])
      else AppendPlan(prev.written + [ext], prev.aborted)
  }

  /** As written, what is appended was not among the entries read at start. */
  lemma {:induction false} PlanAsWrittenSkipsEntries(entries: seq<string>, rels: seq<string>, exts: seq<string>,
                                                     answer: nat -> string, n: nat)
    requires n <= |rels| == |exts|
    ensures forall w :: w in PlanAsWritten(entries, rels, exts, answer, n).written ==>
      w !in entries && w in exts[..n]
  {
    if n > 0 {
      PlanAsWrittenSkipsEntries(entries, rels, exts, answer, n - 1);
      assert exts[..n] == exts[..n - 1] + [exts[n - 1]];
    }
  }

  /** The same link twice in one run is written twice. */
  lemma SameLinkWrittenTwice(entries: seq<string>, rel: string, ext: string, answer: nat -> string)
    requires ext !in entries && answer(0) == [] && answer(1) == []
    ensures PlanAsWritten(entries, [rel, rel], [ext, ext], answer, 2).written == [ext, ext]
  {
    var p1 := PlanAsWritten(entries, [rel, rel], [ext, ext], answer, 1);
    assert PlanAsWritten(entries, [rel, rel], [ext, ext], answer, 0) == AppendPlan([], []);
    assert p1 == AppendPlan([ext], []);
  }

  /** Intended: a path written earlier in the same run is skipped as well. */
  function Plan(entries: seq<string>, rels: seq<string>, exts: seq<string>,
                answer: nat -> string, n: nat): (r: AppendPlan)
    requires n <= |rels| == |exts|
    ensures |r.written| + |r.aborted| <= n
  {
    if n == 0 then AppendPlan([], [])
    else
      var prev := Plan(entries, rels, exts, answer, n - 1);
      var ext := exts[n - 1];
      if ext in entries || ext in prev.written then prev
      else if |answer(|prev.written| + |prev.aborted|)| > 0 then
        AppendPlan(prev.written, prev.aborted + [rels[n - 1]])
      else AppendPlan(prev.written + [ext], prev.aborted)
  }

  /** What the plan appends is new, comes from the links and is appended once. */
  lemma {:induction false} PlanWritesNew(entries: seq<string>, rels: seq<string>, exts: seq<string>,
                                         answer: nat -> string, n: nat)
    requires n <= |rels| == |exts|
    ensures var r := Plan(entries, rels, exts, answer, n);
      && (forall w :: w in r.written ==> w !in entries && w in exts[..n])
      && Distinct(r.written)
  {
    if n > 0 {
      PlanWritesNew(entries, rels, exts, answer, n - 1);
      assert exts[..n] == exts[..n - 1] + [exts[n - 1]];
    }
  }

  /** What the plan aborts is one of the links, and every link is either
      present, appended or aborted. */
  lemma {:induction false} PlanIsComplete(entries: seq<string>, rels: seq<string>, exts: seq<string>,
                                          answer: nat -> string, n: nat)
    requires n <= |rels| == |exts|
    ensures var r := Plan(entries, rels, exts, answer, n);
      && (forall a :: a in r.aborted ==> a in rels[..n])
      && (forall i :: 0 <= i < n ==> exts[i] in entries || exts[i] in r.written || rels[i] in r.aborted)
  {
    if n > 0 {
      PlanIsComplete(entries, rels, exts, answer, n - 1);
      assert rels[..n] == rels[..n - 1] + [rels[n - 1]];
    }
  }

  function ExtPaths(extBase: string, rels: seq<string>, sepBslash: bool): (r: seq<string>)
    ensures |r| == |rels|
    ensures forall i :: 0 <= i < |rels| ==> r[i] == ExtPath(extBase, rels[i], sepBslash)
  {
    seq(|rels|, i requires 0 <= i < |rels| => ExtPath(extBase, rels[i], sepBslash))
  }

  /** A second run over the same links offers only what the first run turned
      down: everything it writes belongs to an aborted link. */
  lemma {:induction false} SecondRunOffersAborted(entries: seq<string>, rels: seq<string>, exts: seq<string>,
                                                  answer1: nat -> string, answer2: nat -> string)
    requires |rels| == |exts|
    ensures var p1 := Plan(entries, rels, exts, answer1, |rels|);
      var p2 := Plan(entries + p1.written, rels, exts, answer2, |rels|);
      forall w :: w in p2.written ==>
        exists i :: 0 <= i < |rels| && w == exts[i] && rels[i] in p1.aborted
  {
    var p1 := Plan(entries, rels, exts, answer1, |rels|);
    var p2 := Plan(entries + p1.written, rels, exts, answer2, |rels|);
    PlanIsComplete(entries, rels, exts, answer1, |rels|);
    PlanWritesNew(entries + p1.written, rels, exts, answer2, |rels|);
    forall w | w in p2.written
      ensures exists i :: 0 <= i < |rels| && w == exts[i] && rels[i] in p1.aborted
    {
      assert w in exts[..|rels|];
      assert exts[..|rels|] == exts;
      var i :| 0 <= i < |exts| && exts[i] == w;
      assert w !in entries + p1.written;
      assert rels[i] in p1.aborted;
    }
  }

  /** The playlist file, as the lines `readlines` would give. */
  class Playlist {
    var lines: seq<string>

    constructor(lines: seq<string>)
      ensures this.lines == lines
    {
      this.lines := lines;
    }

    /** `m3u.write(extPath + '\r\n')` on a file opened for appending. */
    method Append(entry: string)
      modifies this
      ensures lines == old(lines) + [entry + "\r\n"]
    {
      lines := lines + [entry + "\r\n"];
    }
  }

  /** The `\r\n`-terminated form of appended entries. */
  function Terminated(ws: seq<string>): (r: seq<string>)
    ensures |r| == |ws| && forall i :: 0 <= i < |ws| ==> r[i] == ws[i] + "\r\n"
  {
    seq(|ws|, i requires 0 <= i < |ws| => ws[i] + "\r\n")
  }

  lemma TerminatedSnoc(ws: seq<string>, w: string)
    ensures Terminated(ws + [w]) == Terminated(ws) + [w + "\r\n"]
  {
  }

  /** The append loop over the resolved links. */
  method AppendLinks(pl: Playlist, entries: seq<string>, rels: seq<string>, exts: seq<string>,
                     answer: nat -> string) returns (aborted: seq<string>)
    requires |rels| == |exts|
    modifies pl
    ensures var plan := Plan(entries, rels, exts, answer, |rels|);
      pl.lines == old(pl.lines) + Terminated(plan.written) && aborted == plan.aborted
  {
    var written: seq<string> := [];
    aborted := [];
    var prompts := 0;
    for i := 0 to |rels|
      invariant Plan(entries, rels, exts, answer, i) == AppendPlan(written, aborted)
      invariant prompts == |written| + |aborted|
      invariant pl.lines == old(pl.lines) + Terminated(written)
    {
      var extPath := exts[i];
      if extPath in entries || extPath in written {
        continue;
      }
      var answered := answer(prompts);
      prompts := prompts + 1;
      if |answered| > 0 {
        aborted := aborted + [rels[i]];
        continue;
      }
      pl.Append(extPath);
      TerminatedSnoc(written, extPath);
      written := written + [extPath];
    }
  }

  /** l2m: read the playlist, translate the links and append the new ones.
      The relative paths come from resolving the links against the local
      base directory. */
  method LinksToPlaylist(pl: Playlist, extBase: string, rels: seq<string>, answer: nat -> string)
    returns (r: Result<seq<string>>)
    modifies pl
    ensures r.Ok? <==> extBase != []
    ensures r.Err? ==> pl.lines == old(pl.lines)
    ensures r.Ok? ==>
      var exts := ExtPaths(extBase, rels, extBase[|extBase| - 1] == '\\');
      var plan := Plan(TrimAll(old(pl.lines)), rels, exts, answer, |rels|);
      pl.lines == old(pl.lines) + Terminated(plan.written) && r.value == plan.aborted
  {
    var style := BackslashStyle(extBase);
    if style.Err? {
      return Err(style.crash);
    }
    var entries := ReadEntries(pl.lines);
    var exts := ExtPaths(extBase, rels, style.value);
    var aborted := AppendLinks(pl, entries, rels, exts, answer);
    r := Ok(aborted);
  }

  /** Old lines are never removed, and the appended entries read back as the
      plan's written paths when none ends in a line break. */
  lemma AppendedReadBack(lines: seq<string>, plan: AppendPlan)
    requires forall w :: w in plan.written ==> !EndsInBreak(w)
    ensures TrimAll(lines + Terminated(plan.written)) == TrimAll(lines) + plan.written
  {
    ReadBackAppended(lines, plan.written);
    assert Terminated(plan.written) == seq(|plan.written|, i requires 0 <= i < |plan.written| => plan.written[i] + "\r\n");
  }
}
