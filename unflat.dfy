/** The set-up of a complex album (`UnflatAlbum.__init__`,
    Audite.py:1750-2153), its `coerce` (Audite.py:2167-2250) and the class
    that holds the result. The directory listing and the cuesheet texts are
    given by an `UnflatEnv`; `coerce` returns the renames, the unified
    cuesheet and the new directory name instead of touching the disk. */
module Unflat {
  import opened Text
  import opened Wrappers
  import FileNames
  import Albums
  import Complex
  import UnifiedCue

  /** The sub-album names, in order. */
  function SubNames(subs: seq<Complex.SubAlbum>): (r: seq<string>)
    ensures |r| == |subs| && forall i :: 0 <= i < |subs| ==> r[i] == subs[i].name
  {
    seq(|subs|, i requires 0 <= i < |subs| => subs[i].name)
  }

  /** The text of each chosen cuesheet, in `cueList` order. */
  function CueTexts(env: Complex.UnflatEnv, cueList: seq<(nat, string)>): (r: seq<string>)
    requires forall k :: 0 <= k < |cueList| ==> cueList[k].0 < |env.subs|
    ensures |r| == |cueList|
    ensures forall k :: 0 <= k < |cueList| ==> r[k] == env.cueText(env.subs[cueList[k].0].name, cueList[k].1)
  {
    seq(|cueList|, k requires 0 <= k < |cueList| => env.cueText(env.subs[cueList[k].0].name, cueList[k].1))
  }

  /** The path of a chosen cuesheet below the album directory: the
      sub-album's name, a slash and the cuesheet's name. */
  function CuePath(subs: seq<Complex.SubAlbum>, c: (nat, string)): (r: string)
    requires c.0 < |subs|
    ensures r == subs[c.0].name + "/" + c.1
    ensures |r| > |subs[c.0].name| && r[|subs[c.0].name|] == '/'
  {
    subs[c.0].name + "/" + c.1
  }

  /** Every entry of a cue list names a sub-album. */
  predicate InSubs(subs: seq<Complex.SubAlbum>, l: seq<(nat, string)>) {
    forall k :: 0 <= k < |l| ==> l[k].0 < |subs|
  }

  /** No entry's path is below the one before it. */
  predicate CuesSorted(subs: seq<Complex.SubAlbum>, l: seq<(nat, string)>)
    requires InSubs(subs, l)
  {
    forall k :: 0 <= k < |l| - 1 ==> !TextLess(CuePath(subs, l[k + 1]), CuePath(subs, l[k]))
  }

  /** One insertion of Python's `list.sort` on the paths: `c` goes in front
      of the first entry whose path is not below its own. */
  function InsertCue(subs: seq<Complex.SubAlbum>, c: (nat, string), l: seq<(nat, string)>)
    : (r: seq<(nat, string)>)
    requires c.0 < |subs| && InSubs(subs, l)
    ensures |r| == |l| + 1 && InSubs(subs, r)
  {
    if l == [] then [c]
    else if !TextLess(CuePath(subs, l[0]), CuePath(subs, c)) then [c] + l
    else [l[0]] + InsertCue(subs, c, l[1..])
  }

  /** An insertion adds `c` and keeps a sorted list sorted. */
  lemma {:induction false} InsertCueSorts(subs: seq<Complex.SubAlbum>, c: (nat, string), l: seq<(nat, string)>)
    requires c.0 < |subs| && InSubs(subs, l)
    ensures multiset(InsertCue(subs, c, l)) == multiset(l) + multiset{c}
    ensures InsertCue(subs, c, l)[0] == c || (l != [] && InsertCue(subs, c, l)[0] == l[0])
    ensures CuesSorted(subs, l) ==> CuesSorted(subs, InsertCue(subs, c, l))
  {
    if l != [] && TextLess(CuePath(subs, l[0]), CuePath(subs, c)) {
      InsertCueSorts(subs, c, l[1..]);
      TextLessAsymmetric(CuePath(subs, l[0]), CuePath(subs, c));
      assert l == [l[0]] + l[1..];
    }
  }

  /** `self.cueList.sort()` (Audite.py:1848): the cue list ordered by the
      full path text of each cuesheet. The album path in front of every
      entry is the same, so the order is that of `CuePath`. */
  function SortCues(subs: seq<Complex.SubAlbum>, l: seq<(nat, string)>): (r: seq<(nat, string)>)
    requires InSubs(subs, l)
    ensures |r| == |l| && InSubs(subs, r)
  {
    if l == [] then [] else InsertCue(subs, l[0], SortCues(subs, l[1..]))
  }

  /** The sort orders the paths and is a permutation of the cue list. */
  lemma {:induction false} SortCuesSorts(subs: seq<Complex.SubAlbum>, l: seq<(nat, string)>)
    requires InSubs(subs, l)
    ensures multiset(SortCues(subs, l)) == multiset(l)
    ensures CuesSorted(subs, SortCues(subs, l))
  {
    if l != [] {
      SortCuesSorts(subs, l[1..]);
      InsertCueSorts(subs, l[0], SortCues(subs, l[1..]));
      assert l == [l[0]] + l[1..];
    }
  }

  /** What the album knows after the cuesheet stage: its facts, and the
      track total, the track titles and the INDEX times of each sub-album. */
  datatype CueStageResult = CueStageResult(
    facts: Albums.Facts, totals: seq<nat>, titles: seq<seq<string>>, indexes: seq<seq<seq<string>>>)

  /** The cuesheet stage (Audite.py:1852-2103). Without any cuesheet the
      totals and titles of the listing stand and there are no INDEX times;
      otherwise they are replaced by what the cuesheets say, the album name
      takes the last `FILE` name stored during the walk, and the collected
      header values are merged into the facts. */
  function CueStage(env: Complex.UnflatEnv, l: Complex.Listing, f: Albums.Facts, s: Albums.Settings)
    : (r: Result<CueStageResult>)
    requires |env.subs| > 0
    requires forall k :: 0 <= k < |l.cueList| ==> l.cueList[k].0 < |env.subs|
    ensures r.Ok? ==> Albums.Keeps(f, r.value.facts)
  {
    if |l.cueList| == 0 then Ok(CueStageResult(f, l.totals, l.titles, []))
    else
      var g :- Complex.Gather(CueTexts(env, l.cueList), s);
      var f1 := if g.renamed.Some? then f.(name := g.renamed.value) else f;
      var f2 :- Complex.MergeCues(f1, g, SubNames(env.subs), s);
      Ok(CueStageResult(f2, g.totals, g.entries, g.indexes))
  }

  /** The cuesheet stage as written: the gathering loop runs over the cue
      list after it was sorted by path text, while `coerce` reads the
      gathered totals, titles and INDEX times by sub-album position. */
  function CueStageAsWritten(env: Complex.UnflatEnv, l: Complex.Listing, f: Albums.Facts, s: Albums.Settings)
    : (r: Result<CueStageResult>)
    requires |env.subs| > 0 && InSubs(env.subs, l.cueList)
    ensures r == CueStage(env, l.(cueList := SortCues(env.subs, l.cueList)), f, s)
    ensures r.Ok? ==> Albums.Keeps(f, r.value.facts)
  {
    CueStage(env, l.(cueList := SortCues(env.subs, l.cueList)), f, s)
  }

  /** Sub-albums `n` and `n + x` where `x` starts below `/` (for instance
      `CD1` and `CD1 - Bonus`), each with a cuesheet: the sub-albums are in
      name order, but the sorted paths put the second sub-album's cuesheet
      first, so what is gathered from it lands at position 0, which
      `coerce` reads as the first sub-album's. The cue list as built
      already follows the sub-albums. */
  lemma CueSortMisaligns(env: Complex.UnflatEnv, x: string, a: string, b: string)
    requires |env.subs| == 2 && env.subs[1].name == env.subs[0].name + x
    requires x != [] && x[0] < '/'
    ensures TextLess(env.subs[0].name, env.subs[1].name)
    ensures Complex.CueListOf([Some(a), Some(b)]) == [(0, a), (1, b)]
    ensures SortCues(env.subs, [(0, a), (1, b)]) == [(1, b), (0, a)]
    ensures CueTexts(env, SortCues(env.subs, [(0, a), (1, b)]))
         == [env.cueText(env.subs[1].name, b), env.cueText(env.subs[0].name, a)]
  {
    TextLessProperPrefix(env.subs[0].name, x);
    Complex.CueListOfAll([Some(a), Some(b)]);
    ExtendedNameFirst(env.subs[0].name, x, a, b);
    SortTwoCues(env.subs, (0, a), (1, b));
  }

  /** A path through the longer name comes first when the extra part
      starts below `/`. */
  lemma ExtendedNameFirst(n: string, x: string, a: string, b: string)
    requires x != [] && x[0] < '/'
    ensures TextLess(n + x + "/" + b, n + "/" + a)
  {
    assert n + x + "/" + b == n + (x + "/" + b);
    assert n + "/" + a == n + ("/" + a);
    assert (x + "/" + b)[0] == x[0] && ("/" + a)[0] == '/';
    TextLessCommonPrefix(n, x + "/" + b, "/" + a);
  }

  /** Two entries whose paths are out of order are swapped. */
  lemma SortTwoCues(subs: seq<Complex.SubAlbum>, c: (nat, string), d: (nat, string))
    requires c.0 < |subs| && d.0 < |subs| && TextLess(CuePath(subs, d), CuePath(subs, c))
    ensures SortCues(subs, [c, d]) == [d, c]
  {
    assert [c, d][1..] == [d];
    SortOneCue(subs, d);
    InsertCueAfter(subs, c, d);
  }

  lemma SortOneCue(subs: seq<Complex.SubAlbum>, d: (nat, string))
    requires d.0 < |subs|
    ensures SortCues(subs, [d]) == [d]
  {
    assert [d][1..] == [];
  }

  lemma InsertCueAfter(subs: seq<Complex.SubAlbum>, c: (nat, string), d: (nat, string))
    requires c.0 < |subs| && d.0 < |subs| && TextLess(CuePath(subs, d), CuePath(subs, c))
    ensures InsertCue(subs, c, [d]) == [d, c]
  {
    assert [d][1..] == [];
  }

  /** The fields of a complex album once it is set up. */
  datatype UnflatData = UnflatData(
    dirName: string, goodName: string, facts: Albums.Facts, subs: seq<Complex.SubAlbum>,
    subCounts: seq<nat>, allSubElems: seq<string>, commPref: string, commPost: string, numCues: nat,
    totals: seq<nat>, titles: seq<seq<string>>, indexes: seq<seq<seq<string>>>, width: nat,
    needsRename: bool)

  // ---------------------------------------------------------------------------
  // The order of the sub-albums (Audite.py:1806, 1847)
  // ---------------------------------------------------------------------------

  /** No sub-album's name is below the one before it. */
  predicate SubsSorted(subs: seq<Complex.SubAlbum>) {
    forall k :: 0 <= k < |subs| - 1 ==> !TextLess(subs[k + 1].name, subs[k].name)
  }

  /** One insertion of the sort by name: `a` goes in front of the first
      sub-album whose name is not below its own. */
  function InsertSub(a: Complex.SubAlbum, l: seq<Complex.SubAlbum>): (r: seq<Complex.SubAlbum>)
    ensures |r| == |l| + 1
  {
    if l == [] then [a]
    else if !TextLess(l[0].name, a.name) then [a] + l
    else [l[0]] + InsertSub(a, l[1..])
  }

  /** An insertion adds `a` and keeps a sorted list sorted. */
  lemma {:induction false} InsertSubSorts(a: Complex.SubAlbum, l: seq<Complex.SubAlbum>)
    ensures multiset(InsertSub(a, l)) == multiset(l) + multiset{a}
    ensures InsertSub(a, l)[0] == a || (l != [] && InsertSub(a, l)[0] == l[0])
    ensures SubsSorted(l) ==> SubsSorted(InsertSub(a, l))
  {
    if l != [] && TextLess(l[0].name, a.name) {
      InsertSubSorts(a, l[1..]);
      TextLessAsymmetric(l[0].name, a.name);
      assert l == [l[0]] + l[1..];
    }
  }

  /** The sub-albums ordered by name, each with its own listing: the sort
      of `subAlbums` (Audite.py:1847) as it is meant, moving every list
      that runs parallel to the names along with them. */
  function SortSubs(subs: seq<Complex.SubAlbum>): (r: seq<Complex.SubAlbum>)
    ensures |r| == |subs|
  {
    if subs == [] then [] else InsertSub(subs[0], SortSubs(subs[1..]))
  }

  /** The sort orders the names and is a permutation of the sub-albums. */
  lemma {:induction false} SortSubsSorts(subs: seq<Complex.SubAlbum>)
    ensures multiset(SortSubs(subs)) == multiset(subs)
    ensures SubsSorted(SortSubs(subs))
  {
    if subs != [] {
      SortSubsSorts(subs[1..]);
      InsertSubSorts(subs[0], SortSubs(subs[1..]));
      assert subs == [subs[0]] + subs[1..];
    }
  }

  /** The directory with its sub-albums sorted. */
  function Sorted(env: Complex.UnflatEnv): (r: Complex.UnflatEnv)
    ensures r.subs == SortSubs(env.subs) && |r.subs| == |env.subs|
    ensures r.dirName == env.dirName && r.rootName == env.rootName && r.cueText == env.cueText
  {
    env.(subs := SortSubs(env.subs))
  }

  /** The set-up of a directory listed in any order, as intended: the
      sub-albums are sorted with their listings first, so the totals,
      titles and counts found for position `i` are those of the `i`-th
      sub-album by name. */
  function SetupListed(s: Albums.Settings, env: Complex.UnflatEnv): Result<UnflatData> {
    Setup(s, Sorted(env))
  }

  /** The set-up as written: the listing loop (Audite.py:1806-1845) builds
      `subCounts`, `allSubElems`, `cueTrackTitles` and `cueTrackTotals` in
      listing order, and only the names are sorted afterwards (1847); the
      cue list is sorted by path (1848). Without cuesheets the listing's
      totals and titles are never rebuilt (1854). */
  function SetupAsWritten(s: Albums.Settings, env: Complex.UnflatEnv): Result<UnflatData> {
    if |env.subs| == 0 then Err(EmptyMin)
    else
      var sorted := Sorted(env);
      var l := ListingAsWritten(env, s.noCaps);
      var cue :- CueStageAsWritten(sorted, l, Complex.ComplexOverrides(s), s);
      Ok(Assemble(s, sorted, l, cue))
  }

  /** What the listing loop leaves once the names are sorted: the cue list
      of the sorted sub-albums (it is sorted by path next), every other list
      in listing order. */
  function ListingAsWritten(env: Complex.UnflatEnv, noCaps: bool): (l: Complex.Listing)
    ensures InSubs(Sorted(env).subs, l.cueList)
    ensures l.totals == Complex.TotalsOf(Complex.SubKeys(env.subs, noCaps))
    ensures l.titles == Complex.TitlesOf(Complex.SubKeys(env.subs, noCaps))
  {
    var listed := Complex.ListingOf(env.subs, noCaps);
    Complex.ListingOf(Sorted(env).subs, noCaps)
      .(subCounts := listed.subCounts, allSubElems := listed.allSubElems,
        titles := listed.titles, totals := listed.totals)
  }

  /** Without a cue list the set-up keeps the listing's totals and titles. */
  lemma SetupNoCues(s: Albums.Settings, env: Complex.UnflatEnv)
    requires |env.subs| > 0 && Complex.ListingOf(env.subs, s.noCaps).cueList == []
    ensures Setup(s, env) == Ok(Assemble(s, env, Complex.ListingOf(env.subs, s.noCaps),
      CueStageResult(Complex.ComplexOverrides(s), Complex.ListingOf(env.subs, s.noCaps).totals,
                     Complex.ListingOf(env.subs, s.noCaps).titles, [])))
  {
  }

  /** The same for the set-up as written. */
  lemma SetupAsWrittenNoCues(s: Albums.Settings, env: Complex.UnflatEnv)
    requires |env.subs| > 0 && ListingAsWritten(env, s.noCaps).cueList == []
    ensures SetupAsWritten(s, env) == Ok(Assemble(s, Sorted(env), ListingAsWritten(env, s.noCaps),
      CueStageResult(Complex.ComplexOverrides(s), ListingAsWritten(env, s.noCaps).totals,
                     ListingAsWritten(env, s.noCaps).titles, [])))
  {
  }

  /** Both set-ups succeed on a non-empty directory and give the sub-albums
      sorted by name. */
  lemma SetupListedSorts(s: Albums.Settings, env: Complex.UnflatEnv)
    ensures |env.subs| == 0 ==> SetupListed(s, env) == Err(EmptyMin)
    ensures SetupListed(s, env).Ok? ==>
      SubsSorted(SetupListed(s, env).value.subs) && multiset(SetupListed(s, env).value.subs) == multiset(env.subs)
  {
    SortSubsSorts(env.subs);
    SetupSubs(s, Sorted(env));
  }

  lemma SetupAsWrittenSorts(s: Albums.Settings, env: Complex.UnflatEnv)
    ensures |env.subs| == 0 ==> SetupAsWritten(s, env) == Err(EmptyMin)
    ensures SetupAsWritten(s, env).Ok? ==> SetupAsWritten(s, env).value.subs == SortSubs(env.subs)
  {
  }

  /** The set-up keeps the sub-albums it is given. */
  lemma SetupSubs(s: Albums.Settings, env: Complex.UnflatEnv)
    ensures Setup(s, env).Ok? ==> Setup(s, env).value.subs == env.subs
  {
  }

  /** As written, with no cuesheet anywhere the sorted names are paired
      with the totals and titles of the listing order. */
  lemma ListedOrderKept(s: Albums.Settings, env: Complex.UnflatEnv)
    requires |env.subs| > 0
    requires forall a :: a in env.subs ==> Complex.SubCue(a).None?
    ensures SetupAsWritten(s, env).Ok?
    ensures var d := SetupAsWritten(s, env).value;
      && d.subs == SortSubs(env.subs)
      && d.totals == Complex.TotalsOf(Complex.SubKeys(env.subs, s.noCaps))
      && d.titles == Complex.TitlesOf(Complex.SubKeys(env.subs, s.noCaps))
  {
    NoCuesSorted(env.subs);
    SetupAsWrittenNoCues(s, env);
  }

  /** Sorting keeps every sub-album without a cuesheet, so the sorted
      listing has no cue list either. */
  lemma NoCuesSorted(subs: seq<Complex.SubAlbum>)
    requires forall a :: a in subs ==> Complex.SubCue(a).None?
    ensures Complex.CueListOf(Complex.SubCues(SortSubs(subs))) == []
  {
    SortSubsSorts(subs);
    var sorted := SortSubs(subs);
    forall i | 0 <= i < |sorted|
      ensures Complex.SubCue(sorted[i]).None?
    {
      assert sorted[i] in multiset(sorted);
    }
    NoCuesNoList(Complex.SubCues(sorted));
  }

  /** As intended, without cuesheets each sub-album's total and titles are
      its own: the number and the titles of its audio files. */
  lemma SetupOwnTotals(s: Albums.Settings, env: Complex.UnflatEnv)
    requires |env.subs| > 0 && Complex.CueListOf(Complex.SubCues(env.subs)) == []
    ensures Setup(s, env).Ok?
    ensures var d := Setup(s, env).value;
      && d.subs == env.subs && |d.totals| == |d.titles| == |d.subs|
      && forall i :: 0 <= i < |d.subs| ==>
           d.titles[i] == Complex.Somes(Complex.AudioKeys(d.subs[i].elems, s.noCaps))
           && d.totals[i] == |d.titles[i]|
  {
    SetupNoCues(s, env);
  }

  /** Two sub-albums listed against the name order, `a` before `b`, with
      no cuesheet and `a` holding fewer tracks than `b`: as written the
      names are sorted to `b`, `a` but the totals stay `a`'s, `b`'s, so `a`
      is flattened from base `ta` while `b` keeps its numbers 1..`tb`, and
      number `ta + 1` is given to a track of each. As intended `a` starts
      after all of `b`. */
  lemma ListedOutOfOrderOverlaps(s: Albums.Settings, env: Complex.UnflatEnv, a: Complex.SubAlbum, b: Complex.SubAlbum)
    requires env.subs == [a, b] && TextLess(b.name, a.name)
    requires Complex.SubCue(a).None? && Complex.SubCue(b).None?
    requires |Complex.Somes(Complex.AudioKeys(a.elems, s.noCaps))| < |Complex.Somes(Complex.AudioKeys(b.elems, s.noCaps))|
    ensures SetupAsWritten(s, env).Ok? && SetupListed(s, env).Ok?
    ensures var ta := |Complex.Somes(Complex.AudioKeys(a.elems, s.noCaps))|;
      var tb := |Complex.Somes(Complex.AudioKeys(b.elems, s.noCaps))|;
      var w := SetupAsWritten(s, env).value;
      var c := SetupListed(s, env).value;
      && w.subs == [b, a] && w.totals == [ta, tb]
      && Complex.Sum(w.totals[..1]) == ta && ta + 1 <= tb
      && c.subs == [b, a] && c.totals == [tb, ta]
      && Complex.Sum(c.totals[..1]) == tb
  {
    TwoAsWritten(s, env, a, b);
    TwoListed(s, env, a, b);
    SumOfFirst(SetupAsWritten(s, env).value.totals);
    SumOfFirst(SetupListed(s, env).value.totals);
  }

  /** As written, two sub-albums listed against the name order get their
      names swapped and their totals kept in listing order. */
  lemma TwoAsWritten(s: Albums.Settings, env: Complex.UnflatEnv, a: Complex.SubAlbum, b: Complex.SubAlbum)
    requires env.subs == [a, b] && TextLess(b.name, a.name)
    requires Complex.SubCue(a).None? && Complex.SubCue(b).None?
    ensures SetupAsWritten(s, env).Ok?
    ensures SetupAsWritten(s, env).value.subs == [b, a]
    ensures SetupAsWritten(s, env).value.totals ==
      [|Complex.Somes(Complex.AudioKeys(a.elems, s.noCaps))|, |Complex.Somes(Complex.AudioKeys(b.elems, s.noCaps))|]
  {
    SortTwoSubs(a, b);
    ListedOrderKept(s, env);
  }

  /** As intended, the totals move with the names. */
  lemma TwoListed(s: Albums.Settings, env: Complex.UnflatEnv, a: Complex.SubAlbum, b: Complex.SubAlbum)
    requires env.subs == [a, b] && TextLess(b.name, a.name)
    requires Complex.SubCue(a).None? && Complex.SubCue(b).None?
    ensures SetupListed(s, env).Ok?
    ensures SetupListed(s, env).value.subs == [b, a]
    ensures SetupListed(s, env).value.totals ==
      [|Complex.Somes(Complex.AudioKeys(b.elems, s.noCaps))|, |Complex.Somes(Complex.AudioKeys(a.elems, s.noCaps))|]
  {
    SortTwoSubs(a, b);
    SetupListedOwnTotals(s, env);
  }

  lemma SumOfFirst(xs: seq<nat>)
    requires |xs| > 0
    ensures Complex.Sum(xs[..1]) == xs[0]
  {
    Complex.SumStep(xs, 0);
  }

  /** The corrected set-up of a listing without cuesheets gives each
      sorted sub-album its own total. */
  lemma SetupListedOwnTotals(s: Albums.Settings, env: Complex.UnflatEnv)
    requires |env.subs| > 0
    requires forall a :: a in env.subs ==> Complex.SubCue(a).None?
    ensures SetupListed(s, env).Ok?
    ensures var d := SetupListed(s, env).value;
      && d.subs == SortSubs(env.subs) && |d.totals| == |d.subs|
      && forall i :: 0 <= i < |d.subs| ==>
           d.totals[i] == |Complex.Somes(Complex.AudioKeys(d.subs[i].elems, s.noCaps))|
  {
    NoCuesSorted(env.subs);
    SetupOwnTotals(s, Sorted(env));
  }

  /** Two sub-albums listed against the name order swap places. */
  lemma SortTwoSubs(a: Complex.SubAlbum, b: Complex.SubAlbum)
    requires TextLess(b.name, a.name)
    ensures SortSubs([a, b]) == [b, a]
  {
    assert [a, b][1..] == [b];
    SortOneSub(b);
    InsertSubAfter(a, b);
  }

  lemma SortOneSub(b: Complex.SubAlbum)
    ensures SortSubs([b]) == [b]
  {
    assert [b][1..] == [];
  }

  lemma InsertSubAfter(a: Complex.SubAlbum, b: Complex.SubAlbum)
    requires TextLess(b.name, a.name)
    ensures InsertSub(a, [b]) == [b, a]
  {
    assert [b][1..] == [];
  }

  /** The set-up as a value, given the sub-albums in the order it keeps
      them (`SetupListed` sorts them first). An album directory without
      sub-albums fails where the common prefix takes the `min` of no
      lengths. */
  function Setup(s: Albums.Settings, env: Complex.UnflatEnv): Result<UnflatData> {
    if |env.subs| == 0 then Err(EmptyMin)
    else
      var l := Complex.ListingOf(env.subs, s.noCaps);
      var cue :- CueStage(env, l, Complex.ComplexOverrides(s), s);
      Ok(Assemble(s, env, l, cue))
  }

  /** The fields after the cuesheet stage: the directory-name guess, the
      root-directory artist and the suggested directory name
      (Audite.py:2104-2153). Nothing the cuesheet stage knows is lost. */
  function Assemble(s: Albums.Settings, env: Complex.UnflatEnv, l: Complex.Listing, cue: CueStageResult)
    : (d: UnflatData)
    requires |env.subs| > 0
    ensures Albums.Keeps(cue.facts, d.facts)
    ensures d.needsRename <==> d.goodName != env.dirName
    ensures d.subs == env.subs && d.allSubElems == l.allSubElems && d.numCues == |l.cueList|
    ensures d.totals == cue.totals && d.titles == cue.titles && d.indexes == cue.indexes
  {
    var names := SubNames(env.subs);
    var f1 := Complex.ComplexDirGuess(env.dirName, cue.facts, s.cfg.nowYear, s.noCaps);
    var f := Complex.ComplexRootArtist(env.rootName, f1);
    var goodName := Complex.ComplexGoodName(f, s.singleAlbum, s.cfg.allowComposer);
    UnflatData(
      env.dirName, goodName, f, env.subs, l.subCounts, l.allSubElems,
      FileNames.CommonPrefixOf(names), FileNames.CommonPostfixOf(names), |l.cueList|,
      cue.totals, cue.titles, cue.indexes, FileNames.NumberWidth(Complex.Sum(cue.totals)),
      goodName != env.dirName)
  }

  /** An album without sub-albums fails; one whose sub-albums hold no
      cuesheet always sets up. */
  lemma SetupFails(s: Albums.Settings, env: Complex.UnflatEnv)
    ensures |env.subs| == 0 ==> Setup(s, env) == Err(EmptyMin)
    ensures |env.subs| > 0 && (forall i :: 0 <= i < |env.subs| ==> Complex.SubCue(env.subs[i]).None?) ==>
      Setup(s, env).Ok?
  {
    if |env.subs| > 0 && forall i :: 0 <= i < |env.subs| ==> Complex.SubCue(env.subs[i]).None? {
      NoCuesNoList(Complex.SubCues(env.subs));
    }
  }

  lemma {:induction false} NoCuesNoList(cues: seq<Option<string>>)
    requires forall i :: 0 <= i < |cues| ==> cues[i].None?
    ensures Complex.CueListOf(cues) == []
  {
    if cues != [] {
      NoCuesNoList(cues[..|cues| - 1]);
    }
  }

  /** The settings win: every field they fix survives the set-up. */
  lemma SetupKeepsSettings(s: Albums.Settings, env: Complex.UnflatEnv)
    requires Setup(s, env).Ok?
    ensures Albums.Keeps(Complex.ComplexOverrides(s), Setup(s, env).value.facts)
  {
  }

  /** What the numbering of the unified cuesheet needs and the set-up
      provides: one title per announced track in each sub-album and, when
      INDEX times were collected, one or two of them per track. */
  predicate Consistent(totals: seq<nat>, titles: seq<seq<string>>, indexes: seq<seq<seq<string>>>) {
    && |titles| == |totals|
    && (forall i :: 0 <= i < |totals| ==> |titles[i]| == totals[i])
    && (|indexes| > 0 ==> |indexes| == |totals| && forall i :: 0 <= i < |totals| ==> |indexes[i]| == totals[i])
    && (forall i, j :: 0 <= i < |indexes| && 0 <= j < |indexes[i]| ==> 1 <= |indexes[i][j]| <= 2)
  }

  /** The listing's titles and totals are consistent, one per sub-album. */
  lemma ListingConsistent(subs: seq<Complex.SubAlbum>, noCaps: bool)
    ensures var l := Complex.ListingOf(subs, noCaps);
      Consistent(l.totals, l.titles, []) && |l.totals| == |subs| && |l.cueList| <= |subs|
      && (forall k :: 0 <= k < |l.cueList| ==> l.cueList[k].0 < |subs|)
  {
  }

  /** What the cuesheets give is consistent, with at most one track total
      per cuesheet. */
  lemma GatherConsistent(texts: seq<string>, s: Albums.Settings)
    requires Complex.Gather(texts, s).Ok?
    ensures var g := Complex.Gather(texts, s).value;
      Consistent(g.totals, g.entries, g.indexes) && |g.totals| <= |texts|
  {
    Complex.GatherKeepsInv(texts, s);
  }

  /** The cuesheet stage keeps the lists consistent. */
  lemma CueStageConsistent(env: Complex.UnflatEnv, l: Complex.Listing, f: Albums.Facts, s: Albums.Settings)
    requires |env.subs| > 0 && Consistent(l.totals, l.titles, []) && |l.totals| == |env.subs|
    requires forall k :: 0 <= k < |l.cueList| ==> l.cueList[k].0 < |env.subs|
    requires CueStage(env, l, f, s).Ok?
    ensures var cue := CueStage(env, l, f, s).value;
      && Consistent(cue.totals, cue.titles, cue.indexes)
      && (|l.cueList| == 0 ==> |cue.totals| == |env.subs| && cue.indexes == [])
      && (|l.cueList| > 0 ==> |cue.totals| <= |l.cueList|)
  {
    if |l.cueList| > 0 {
      GatherConsistent(CueTexts(env, l.cueList), s);
    }
  }

  /** After the set-up the collected lists are consistent; without
      cuesheets there is one track total per sub-album, with cuesheets at
      most one per cuesheet. */
  lemma SetupConsistent(s: Albums.Settings, env: Complex.UnflatEnv)
    requires Setup(s, env).Ok?
    ensures var d := Setup(s, env).value;
      && Consistent(d.totals, d.titles, d.indexes)
      && (d.numCues == 0 ==> |d.totals| == |d.subs| && d.indexes == [])
      && (d.numCues > 0 ==> |d.totals| <= d.numCues <= |d.subs|)
      && d.allSubElems == Complex.AllSubElems(d.subs)
  {
    var l := Complex.ListingOf(env.subs, s.noCaps);
    ListingConsistent(env.subs, s.noCaps);
    CueStageConsistent(env, l, Complex.ComplexOverrides(s), s);
  }

  // ---------------------------------------------------------------------------
  // coerce (Audite.py:2167-2250)
  // ---------------------------------------------------------------------------

  /** What `coerce` does to the disk: the renames of each sub-album's
      elements (old name, new name in the album directory), the unified
      cuesheet's name and text, and the directory's new name when it needs
      one. */
  datatype Coerced = Coerced(
    renames: seq<seq<(string, string)>>, cueName: string, cueText: string, newDirName: Option<string>)

  /** `coerce` as a value: flatten, then write the unified cuesheet, then
      rename the directory. */
  function CoerceOf(d: UnflatData, allowComposer: bool): Result<Coerced> {
    var renames :- Complex.Flatten(d.subs, d.totals, Complex.SubRenamer(d.allSubElems, d.width));
    var text :- UnifiedCue.UnifiedText(d.facts, allowComposer, d.goodName, SubNames(d.subs),
                                       d.totals, d.titles, d.indexes, d.width);
    Ok(Coerced(renames, d.goodName + ".cue", text, if d.needsRename then Some(d.goodName) else None))
  }

  /** A set-up album is flattened and gets its cuesheet exactly when it has
      a title and a track total for every sub-album; so an album without
      cuesheets needs only a title, and one where some sub-album has no
      cuesheet (or an empty one) fails with an `IndexError`. */
  lemma CoerceSucceeds(s: Albums.Settings, env: Complex.UnflatEnv, allowComposer: bool)
    requires Setup(s, env).Ok?
    ensures var d := Setup(s, env).value;
      CoerceOf(d, allowComposer).Ok? <==> |d.facts.title| > 0 && |d.subs| <= |d.totals|
    ensures var d := Setup(s, env).value;
      d.numCues > 0 && |d.totals| < |d.subs| ==> CoerceOf(d, allowComposer) == Err(IndexOutOfRange)
  {
    var d := Setup(s, env).value;
    SetupConsistent(s, env);
    if |d.subs| <= |d.totals| {
      UnifiedCue.UnifiedTracksOk(|d.subs|, d.totals, d.titles, d.indexes);
    }
  }

  /** In a normal complex album some sub-album holds two elements or more. */
  lemma NormalAlbumHasFullSub(s: Albums.Settings, env: Complex.UnflatEnv)
    requires Setup(s, env).Ok?
    requires var d := Setup(s, env).value; Complex.IsNormalFor(|d.subs|, d.commPref, d.commPost, |d.allSubElems|)
    ensures var d := Setup(s, env).value; exists k :: 0 <= k < |d.subs| && |d.subs[k].elems| >= 2
  {
    var d := Setup(s, env).value;
    SetupConsistent(s, env);
    Complex.NormalHasFullSub(d.subs, d.commPref, d.commPost);
  }

  // ---------------------------------------------------------------------------
  // The set-up as a method, and the class
  // ---------------------------------------------------------------------------

  /** The cuesheet stage with its loop. */
  method ReadCues(env: Complex.UnflatEnv, l: Complex.Listing, f: Albums.Facts, s: Albums.Settings)
    returns (r: Result<CueStageResult>)
    requires |env.subs| > 0
    requires forall k :: 0 <= k < |l.cueList| ==> l.cueList[k].0 < |env.subs|
    ensures r == CueStage(env, l, f, s)
  {
    if |l.cueList| == 0 {
      return Ok(CueStageResult(f, l.totals, l.titles, []));
    }
    var g :- Complex.GatherCues(CueTexts(env, l.cueList), s);
    var f1 := f;
    if g.renamed.Some? {
      f1 := f1.(name := g.renamed.value);
    }
    var f2 :- Complex.MergeCues(f1, g, SubNames(env.subs), s);
    return Ok(CueStageResult(f2, g.totals, g.entries, g.indexes));
  }

  /** `UnflatAlbum.__init__` (Audite.py:1750-2153), given the sub-albums in
      listing order. */
  method SetUp(s: Albums.Settings, listed: Complex.UnflatEnv) returns (r: Result<UnflatData>)
    ensures r == SetupListed(s, listed)
  {
    var env := Sorted(listed);
    if |env.subs| == 0 {
      return Err(EmptyMin);
    }
    var l := Complex.ScanSubAlbums(env.subs, s.noCaps);
    var cue :- ReadCues(env, l, Complex.ComplexOverrides(s), s);
    var names := SubNames(env.subs);
    var commPref, commPost := FileNames.CommonPrefPostFixes(names);
    var f := Complex.ComplexDirGuess(env.dirName, cue.facts, s.cfg.nowYear, s.noCaps);
    f := Complex.ComplexRootArtist(env.rootName, f);
    var goodName := Complex.ComplexGoodName(f, s.singleAlbum, s.cfg.allowComposer);
    return Ok(UnflatData(
      env.dirName, goodName, f, env.subs, l.subCounts, l.allSubElems, commPref, commPost, |l.cueList|,
      cue.totals, cue.titles, cue.indexes, FileNames.NumberWidth(Complex.Sum(cue.totals)),
      goodName != env.dirName));
  }

  /** `UnflatAlbum`: a complex album once set up. */
  class UnflatAlbum {
    var dirName: string
    var goodName: string
    var year: int
    var name: string
    var title: string
    var artist: string
    var composer: string
    var genre: string
    var subAlbums: seq<Complex.SubAlbum>
    var subCounts: seq<nat>
    var allSubElems: seq<string>
    var commPref: string
    var commPost: string
    var numCues: nat
    var cueTrackTotals: seq<nat>
    var cueTrackTitles: seq<seq<string>>
    var cueIndexes: seq<seq<seq<string>>>
    var width: nat
    var needsRename: bool

    /** The fields as a value. */
    function Data(): UnflatData
      reads this
    {
      UnflatData(dirName, goodName, Albums.Facts(year, name, title, artist, composer, genre), subAlbums,
                 subCounts, allSubElems, commPref, commPost, numCues, cueTrackTotals, cueTrackTitles,
                 cueIndexes, width, needsRename)
    }

    constructor (d: UnflatData)
      ensures Data() == d
    {
      dirName, goodName := d.dirName, d.goodName;
      year, name, title := d.facts.year, d.facts.name, d.facts.title;
      artist, composer, genre := d.facts.artist, d.facts.composer, d.facts.genre;
      subAlbums, subCounts, allSubElems := d.subs, d.subCounts, d.allSubElems;
      commPref, commPost, numCues := d.commPref, d.commPost, d.numCues;
      cueTrackTotals, cueTrackTitles, cueIndexes := d.totals, d.titles, d.indexes;
      width, needsRename := d.width, d.needsRename;
    }

    /** `isNormal` (Audite.py:2155-2157). */
    predicate IsNormal()
      reads this
    {
      Complex.IsNormalFor(|subAlbums|, commPref, commPost, |allSubElems|)
    }

    /** `coerce`: the flattening loops, then the numbering loops of the
        unified cuesheet. The album's fields are left as they are. */
    method Coerce(allowComposer: bool) returns (r: Result<Coerced>)
      ensures r == CoerceOf(Data(), allowComposer)
    {
      var renames :- Complex.FlattenRenames(subAlbums, allSubElems, cueTrackTotals, width);
      var text :- WriteCue(Data().facts, allowComposer, goodName, SubNames(subAlbums),
                           cueTrackTotals, cueTrackTitles, cueIndexes, width);
      return Ok(Coerced(renames, goodName + ".cue", text, if needsRename then Some(goodName) else None));
    }
  }

  /** The writing of the unified cuesheet, with its numbering loops. */
  method WriteCue(f: Albums.Facts, allowComposer: bool, goodName: string, subNames: seq<string>,
                  totals: seq<nat>, titles: seq<seq<string>>, indexes: seq<seq<seq<string>>>, width: nat)
    returns (r: Result<string>)
    ensures r == UnifiedCue.UnifiedText(f, allowComposer, goodName, subNames, totals, titles, indexes, width)
  {
    if |f.title| == 0 {
      return Err(UnboundName);
    }
    var groups :- UnifiedCue.NumberTracks(|subNames|, totals, titles, indexes);
    var line := "TITLE " + UnifiedCue.Quoted(f.title) + "\n";
    var rest := UnifiedCue.HeaderRest(f, allowComposer) + UnifiedCue.GroupsText(goodName, subNames, groups, width);
    return Ok(line + rest);
  }

  /** Sets up the complex album of a directory. */
  method Open(s: Albums.Settings, listed: Complex.UnflatEnv) returns (r: Result<UnflatAlbum>)
    ensures r.Ok? <==> SetupListed(s, listed).Ok?
    ensures r.Ok? ==> fresh(r.value) && r.value.Data() == SetupListed(s, listed).value
  {
    var d :- SetUp(s, listed);
    var album := new UnflatAlbum(d);
    return Ok(album);
  }
}
