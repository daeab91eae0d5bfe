# Audite and Playlister: a Dafny model of the metadata and naming core

Audite audits a music library, one album directory at a time. It reads the
audio files, the cuesheet and the cover images of an album. It works out what
the album's artist, year, title, genre and track list should be, and decides
what has to be renamed, re-tagged or re-encoded. Complex albums (discs or
parts in sub-directories, "unflat" albums) are merged into one flat album
with one unified cuesheet. Playlister keeps a folder of symbolic links and an
M3U playlist coherent. It turns links into playlist lines (l2m) and playlist
lines into links (m2l).

This project models the decision logic of both programs, not their I/O:

- the string helpers: title normalisation, the `SAFE_TABLE` translation,
  extension tests, the cover-name score, common prefixes and suffixes, cue
  line cutting, and the number/title split of file names;
- cuesheet reading: the header fields, the track total and the cursor walk
  over the `TRACK` entries;
- tag-dump checks for FLAC, MP3 and ALAC, and the cover-image decisions;
- the `Track` set-up: cue matching, fallback and the canonical file name;
- the `Album` set-up: the inference chain for artist, year, title and genre,
  the cue and cover choice, and the `isOk` / `hasSmthToDo` flags;
- the unflat album: merging the sub-albums' facts, flattening file names with
  shifted track numbers, and the unified cuesheet numbered 1 to the total;
- Playlister's `CutTrackNo`, `AudioName`, `MakeLinkName`, the trimming of
  playlist lines, the link-name postfixes of m2l, and the append-only dedupe
  of l2m.

Python's uncaught exceptions are modelled as `Err` values of a `Result` type.
They cover an index on an empty string, `int("")`, a name read before it is
bound, and `min` of an empty list. The external programs whose output the
code parses (`metaflac`, `mid3v2`, `mutagen-inspect`, `identify`, `ffprobe`)
are represented by their text output. The file system is represented by
directory listings passed in as values. The user's answers at the prompts
are a function from prompt number to answer.

Files:

- `wrappers.dfy`: `Option`, `Result` and the modelled exceptions.
- `text.dfy`: the Python string built-ins used, with ASCII semantics.
- `titles.dfy`: `myCap` and `coerceTitle`.
- `safety.dfy`: `ensureStringSafety` and `isStringSafe`.
- `filenames.dfy`: extensions, `nameCrit`, `cutCueLine`,
  `getCommonPrefPostFixes`, and the number/title split of file names.
- `cuesheet.dfy`: reading cuesheets.
- `tags.dfy`: tag dumps.
- `covers.dfy`: `CoverImage`.
- `tracks.dfy`: `Track`.
- `albums.dfy`: `Album`.
- `complex.dfy`: merging and flattening sub-albums.
- `unified.dfy`: the unified cuesheet.
- `unflat.dfy`: `UnflatAlbum`.
- `playlister.dfy`: Playlister's string and path helpers, and line trimming.
- `sync.dfy`: link disambiguation (m2l) and the append plan (l2m).

## Model

| member | source | states |
|---|---|---|
| Titles.MyCap | Audite.py:149-153 | the result equals the word up to letter case; a leading non-alphanumeric character is kept and the rest is capitalised |
| Titles.Capitalize | Audite.py:151-153 | `str.capitalize` changes letter case only |
| Titles.CoreIsAlpha | Audite.py:169-187 | the core looked up in the three tables is purely alphabetic: the letter test covers the middle, and the end characters that fail it are cut |
| Titles.RecapTablesAgree | Audite.py:142 | for an alphabetic core, membership in the table as written and in the table with `"don't"` and `"does"` separated agree, except for `"does"` |
| Titles.RecapTypoHarmless | Audite.py:142-199 | the fused `"don't" "does"` table entry gives, for every word, the same rewrite as the table with the two entries separated |
| Titles.RewriteWord | Audite.py:168-199 | one pass of the word loop: skip a word that fails the letter test; then apply the rule order (DECAP not at a phrase start → lower, RECAP → myCap, UPPER → upper, ≤2 letters not at a phrase start → lower, else myCap); with `--no-cap` leave the word as it is |
| Titles.RewrittenPhraseStart | Audite.py:173 | reading the already rewritten predecessor `words[i-1][-1]` decides "phrase start" exactly as the original predecessor would, because a rewrite changes letter case only |
| Titles.RewriteWords | Audite.py:168-199 | the in-place loop over `words[i]` yields the word-wise normalisation, with phrase starts taken from the predecessors |
| Titles.CoerceTitle | Audite.py:155-200 | `coerceTitle`: the first `...` collapsed, stripped, split on single spaces with empty words dropped, words rewritten, joined by single spaces |
| Titles.CoerceWord | Audite.py:168-199 | the rule for one word, given whether it starts a phrase: the reference definition the lemmas below are stated against |
| Titles.CoerceWordsFold | Audite.py:168-199 | every rewritten word equals the original word up to letter case, and no word is added or lost |
| Titles.CoercedTitle | Audite.py:155-200 | `coerceTitle` as a value: the rewritten words joined by single spaces; the reference definition of the title lemmas below |
| Titles.CoerceWordFold | Audite.py:168-199 | a rewritten word differs from the original in letter case only |
| Titles.CoerceWordCaseBlind | Audite.py:169-199 | two words equal up to case that pass the letter test are rewritten identically |
| Titles.CoerceWordIdempotent | Audite.py:168-199 | rewriting a rewritten word changes nothing |
| Titles.CoerceWordsPhraseStarts | Audite.py:173 | phrase starts are the same before and after normalisation |
| Titles.CoerceWordsIdempotent | Audite.py:168-199 | the word-wise normalisation is idempotent |
| Titles.CoercedTitleShape | Audite.py:157-200 | the result is its own words joined by single spaces, with no empty word; those words are the input's words up to letter case |
| Titles.CoercedTitleStripped | Audite.py:160-200 | the normalised title has no blank at either end |
| Titles.CoercedTitleIdempotent | Audite.py:155-200 | when no `...` is left after the first one is collapsed, normalising the normalised title gives it back; so the perfect-title check accepts its own suggestion |
| Safety.SafeChar | Audite.py:139 | one `SAFE_TABLE` entry: tab, `/ \ \| $ ? : * < >` are replaced by safe look-alikes, `\n \r NUL` are deleted, everything else maps to itself |
| Safety.EnsureStringSafety | Audite.py:202-203 | `ensureStringSafety` never lengthens a string, and its output contains none of the unsafe characters |
| Safety.SafetyAppend | Audite.py:202-203 | the translation works character by character: the translation of a concatenation is the concatenation of the translations |
| Safety.SafetyFixedPoint | Audite.py:202-203 | a string is left unchanged exactly when it contains no unsafe character |
| Safety.SafetyIdempotent | Audite.py:202-203 | `ensureStringSafety` is idempotent |
| Safety.IsStringSafe | Audite.py:307-308 | a name is safe when every character is printable and it holds no `/`, `\` or `:`; the reference the safety lemmas are stated against |
| Safety.SafetyMakesSafe | Audite.py:202-308 | the output passes `isStringSafe` when the input has no control characters other than the ones the table handles |
| Safety.SafetyPrintable | Audite.py:202-308 | under the same condition every output character is printable |
| FileNames.IsAudioFile | Audite.py:227-233 | a file is audio exactly when it has a dot and the lower-cased text after the last one is `flac`, `m4a` or `mp3` |
| FileNames.IsCuesheet | Audite.py:235-241 | a file is a cuesheet exactly when that extension is `cue` |
| FileNames.IsImageFile | Audite.py:243-249 | a file is an image exactly when that extension is `jpg`, `jpeg`, `png`, `bmp` or `webp` |
| FileNames.Extension | Audite.py:227-249 | the lower-cased text after the last dot; none when the name has no dot |
| FileNames.ExtensionOf | Audite.py:227-249 | the extension of `stem.ext` is `ext` lower-cased, whatever the stem |
| FileNames.NameCrit | Audite.py:257-274 | the cover-name score is at most 0, is 0 exactly when the name contains "cover", and takes only the listed values |
| FileNames.NameCritPlainName | Audite.py:257-274 | a name without any keyword scores -50, below any name containing "image" |
| FileNames.CutCueLine | Audite.py:299-305 | `cutCueLine` fails exactly on a blank line; otherwise the value is stripped and no longer than the line |
| FileNames.CutCueLineQuoted | Audite.py:299-305 | a quoted value with blanks around it comes back without the quotes |
| FileNames.CutCueLineBare | Audite.py:299-305 | an unquoted value with non-blank ends comes back unchanged |
| FileNames.CommonPrefixOfIsLongest | Audite.py:279-288 | the common prefix is the longest one: every string starts with it, and it stops at the shortest length or where two strings differ |
| FileNames.CommonPostfixOfIsLongest | Audite.py:289-297 | the common suffix is the longest one shorter than the shortest string: every string ends with it, and it stops one short of the shortest length or where two strings differ |
| FileNames.CommonPrefix | Audite.py:282-288 | the prefix loop computes the longest common prefix |
| FileNames.CommonPostfix | Audite.py:289-297 | the suffix loop (index 1 to `minLen - 1`) computes the common suffix |
| FileNames.CommonPrefPostFixes | Audite.py:279-297 | `getCommonPrefPostFixes` returns both, for a non-empty list |
| FileNames.ScanDigits | Audite.py:482-484 | the digit-counting loop stops at the end of the leading digit run |
| FileNames.SplitStem | Audite.py:480-498 | a stem without a number (no leading digit run followed by `.`, `-`, a blank, or short enough against the stem) reads as number 0 and the whole stem; a stem with one reads as the value of that digit run and a title no longer than what follows it |
| FileNames.DigitEnd | Audite.py:486-488 | the scan stops at the first non-digit: everything before it is a digit |
| FileNames.SplitNumberedStem | Audite.py:480-498 | a stem `<digits>. <title>` with a trimmed title splits into that number and that title |
| FileNames.SplitStemOfTrackStem | Audite.py:480-498 | the canonical stem `NN. Title` of a track reads back as its number and title, and has a number exactly when the number is positive |
| FileNames.SplitTrackFile | Audite.py:477-498 | the file-name analysis of `Track`: fails exactly when the name has no dot or a blank stem; the track is misnumbered exactly when the stem has a number that differs from the position |
| FileNames.NumberWidth | Audite.py:1522-1524 | the width of the track-number format is `len(str(total))`: at least 1, and 1 exactly below 10 |
| FileNames.TargetCodec | Audite.py:1087-1089 | ALAC (`m4a`) becomes `flac` in the canonical name; other codecs are kept |
| FileNames.GoodTrackName | Audite.py:1087-1094 | the canonical track file name: the number zero-padded to the album's width and `. ` before the title when there is a number, the title alone otherwise, then the target codec as extension |
| FileNames.GoodTrackNameRoundTrip | Audite.py:477-498 | the canonical track name is a fixed point of the file-name analysis: it reads back as the same number, title and codec, and is not misnumbered |
| FileNames.SplitCueFileName | Audite.py:1414-1432 | the `FILE`-line fallback: a name that does not split after its digit run stays unsplit; it fails with an index error exactly when the rest is blank, and with a bad integer literal exactly when the digit run is empty and the short-circuit `i+1 == tInd` lets `int("")` run; a title is never longer than the name |
| FileNames.SplitCueFileNameOfGood | Audite.py:1414-1432 | a canonical file name in a `FILE` line reads back as its title, whatever the entry's position |
| FileNames.SplitCueFileNameOfNumbered | Audite.py:1414-1432 | a name whose digit run is followed by `. ` reads back as what follows, up to its last dot |
| FileNames.StripMark | Audite.py:1825-1826 | dropping one leading `.` or `-` and stripping again keeps a stripped string stripped and never lengthens it |
| FileNames.CutSubAlbumNumber | Audite.py:1821-1827 | the sub-album number rule keeps the result stripped and never lengthens the name |
| FileNames.CutSubAlbumNumberOfNumbered | Audite.py:1821-1827 | an `NN. Title` name loses exactly its number |
| FileNames.CutSubAlbumNumberKeeps | Audite.py:1821-1827 | a name starting with neither a digit nor `.`/`-` is kept |
| FileNames.SubAlbumTrackTitle | Audite.py:1818-1828 | the title of a file inside a sub-album is stripped |
| Cuesheet.FieldText | Audite.py:1296-1302 | the raw text of a header field: none exactly when the key is absent; a key with no line break after it fails as `find` plus slicing would |
| Cuesheet.HeaderField | Audite.py:1296-1360 | a header field read through `cutCueLine`: none exactly when the key is absent, a value is stripped, and it fails exactly when the raw text fails or is blank |
| Cuesheet.HeaderFieldOfLine | Audite.py:1296-1360 | a cuesheet holding `key value` on a line of its own, with no earlier `key`, yields exactly that value |
| Cuesheet.FieldTextOfLine | Audite.py:1296-1302 | the raw text of a field written on a line of its own is its value |
| Cuesheet.LastTrackNumber | Audite.py:1363-1372 | the number after the last `TRACK `: none when there is no `TRACK `; a value is the numeric text up to the next blank |
| Cuesheet.FlatTrackTotal | Audite.py:1363-1376 | the flat album's track total from the cuesheet lies in 0..`MAX_TRACKS`; a positive total is the last `TRACK ` number; 0 means no number or one out of range |
| Cuesheet.CutIndexTime | Audite.py:2003-2006 | reading an `INDEX` time fails exactly on blank text (`cueIdx[-1]` on an empty string); a time has no leading blank |
| Cuesheet.CutIndexTimeOfLine | Audite.py:2003-2006 | a time written with or without a Windows line end is read without it |
| Cuesheet.IndexField | Audite.py:1998-2012 | an `INDEX 0x` time counts exactly when it lies after `pos` and before the next track and a line break follows it; it fails exactly when that time is blank |
| Cuesheet.TrackIndexes | Audite.py:1991-2014 | a track keeps one or two times: `INDEX 00` and `INDEX 01` when present, `00:00:00` when neither is |
| Cuesheet.NextTrack | Audite.py:1380-1391 | the next `TRACK ` of the walk is the first one at or after `pos`; no further `TRACK ` ends the walk |
| Cuesheet.TitleSource | Audite.py:1392-1432 | the raw title of a track lies after its `TRACK `; when a `FILE` name does not split, the previous title is reused; with a previous title the step never fails on an unbound name |
| Cuesheet.TrackStep | Audite.py:1380-1435 | one pass of the walk: a further entry keeps the step shape (later position, one more normalised entry); no further `TRACK ` is a `break` |
| Cuesheet.Walk | Audite.py:1379-1435 | the walk over the `TRACK` blocks as a value: at most `trackTotal` steps, stopping early at a `break`; the reference `WalkEntries` is proved against |
| Cuesheet.WalkEntries | Audite.py:1379-1435 | the `for i in range(trackTotal)` loop computes the walk |
| Cuesheet.StepKeepsInv | Audite.py:1380-1435 | a step of that shape keeps the walk invariant |
| Cuesheet.TrackStepInv | Audite.py:1380-1435 | one step keeps the walk invariant |
| Cuesheet.WalkInvariant | Audite.py:1379-1435 | the walk yields at most `trackTotal` entries, in file order, each the normalised form of its raw title and each from a distinct `TRACK ` |
| Cuesheet.WalkFromStart | Audite.py:1379-1435 | from the start, the same holds for the whole walk |
| Cuesheet.WalkEntriesNormal | Audite.py:1433-1434 | with `coerceTitle` as the normaliser every entry is in normal form: its words joined by single blanks, nothing to strip |
| Cuesheet.WalkWithoutTracks | Audite.py:1381-1382 | a cuesheet without `TRACK ` yields no entries |
| Tags.TagValue | Audite.py:555-564 | one tag read from a dump: none exactly when the key is absent; a key with no terminator after it fails; a value is stripped |
| Tags.ArtistInsideAlbumArtist | Audite.py:566-569 | a plain `find` ignores tag boundaries: `ARTIST=` is first found inside `ALBUMARTIST=` |
| Tags.TextTag | Audite.py:568-650 | a text tag checked against the album value: a rewrite always installs the album value; a missing tag is rewritten unless it is optional and the album has no value; a present tag is rewritten exactly when the album value overrules and disagrees; afterwards an overruling album value always agrees |
| Tags.TitleTag | Audite.py:555-565 | the title tag is taken as it is; only its absence is reported |
| Tags.DateTag | Audite.py:616-801 | the date tag: a plausible album year always wins; a numeric tag that is kept keeps its value; a tag equal to the year is accepted as it is |
| Tags.NumberTag | Audite.py:515-532 | the FLAC track number: a numeric tag gives the number; anything else is reported and keeps the current number |
| Tags.NumberTagOfPadded | Audite.py:515-532 | a track number written as wide as the track total suggests is accepted as it is |
| Tags.TotalTag | Audite.py:533-553 | the FLAC track total: the album's total always wins, and the tag is rewritten unless it already holds it |
| Tags.PairTag | Audite.py:699-739 | the combined number/total tag, with the crash of the no-separator branch corrected as listed under Findings: the total is the album's; a missing tag or one without a separator after its first character is reported |
| Tags.PairTagAsWritten | Audite.py:727-736 | as written, a non-numeric tag without a separator crashes on the unbound `strNumber`; otherwise the same as the corrected rule |
| Tags.PairTagCrashes | Audite.py:727-736 | an MP3 track tag holding `Intro` crashes as written and is reported by the corrected rule |
| Tags.PairTagReportsInvalid | Audite.py:727-736 | corrected: a tag without separator that is not a number is reported as invalid with a missing total, where the code as written crashes |
| Tags.PairTagOfPadded | Audite.py:704-726 | a combined tag `NN/total` in the suggested format is accepted as it is |
| Tags.FlacPictureStale | Audite.py:652-662 | the FLAC picture must be renewed when its listing is shorter than ten characters, or, with an album cover, when it does not describe a square of the cover's best side |
| Text.IntOf | Audite.py:832 | Python's `int` on text, characterised by the three lemmas below; it succeeds only on a non-blank text |
| Text.IntOfNumeric | Audite.py:832 | `int` of an all-digit text is its decimal value |
| Text.IntOfSigned | Audite.py:832 | a `+` or `-` in front of digits is read with the number |
| Text.IntOfRejects | Audite.py:832 | a text starting with anything but a blank, a digit or a sign is no number |
| Tags.LastNumeric | Audite.py:827-831 | the index of the last numeric token below `n`, or -1: everything after it is not numeric |
| Tags.PictureSize | Audite.py:826-832 | the size is the last all-digit token; without one it is the first token read by Python's `int`, which takes a signed or `_`-grouped number and otherwise fails on a bad literal |
| Tags.ScanPictureSize | Audite.py:827-832 | the backward token scan computes that size |
| Tags.EmbeddedPicture | Audite.py:822-840 | with no embedded picture the file needs re-tagging and, when there is a cover, a new picture; with one, both flags agree; with no cover no new picture is asked for |
| Tags.ReadTextTags | Audite.py:555-650 | each text tag is none exactly when its key is absent; the composer is only read when composers are handled |
| Tags.CheckTextTags | Audite.py:555-650 | after the text checks the fields agree with the album; a missing title is reported, a present one kept; the composer is empty unless composers are handled |
| Tags.FlacTags | Audite.py:501-695 | the FLAC checks: the fields are reconciled with the album; re-encoding exactly when the sample count starts with 0; replay gain exactly when some replay-gain tag is missing and it is not skipped; a picture exactly when it is stale; a rip log forces a re-tag; an empty sample count fails |
| Tags.Mp3Tags | Audite.py:696-845 | the MP3 checks, with the corrected track-pair rule: a failure is a missing substring or a bad number; on success the fields are reconciled with the album, never re-encoded, and replay gain is due unless skipped |
| Tags.FlacMeta | Audite.py:501-695 | the same facts for the fields once the FLAC tags are read |
| Tags.FlacRemark | Audite.py:680-695 | a rip log or a finding of the other checks forces a FLAC re-tag |
| Tags.AlacTags | Audite.py:846-1000 | the ALAC checks, with the corrected track-pair rule: fields reconciled with the album; always re-encoded, re-tagged, given a new picture and stripped of padding; replay gain unless skipped |
| Tags.ReadTags | Audite.py:499-1003 | the codec is chosen from the `file` tool's text: FLAC, MP3, ALAC or none; an unknown codec leaves the fields as initialised; known codecs are reconciled with the album; skipped replay gain is never asked for |
| Covers.NewCover | Audite.py:358-380 | reading a cover fails exactly when its name has no dot; the name and extension recompose the file name; a quality of 0 counts as 80; the best side is at most 1000 and at most each side |
| Covers.NewCoverOk | Audite.py:378-392 | a freshly read cover is in order exactly when it is `cover.jpg` holding a square of at most 1000 pixels at quality 89 or less; its best side is then its own side |
| Covers.IsNormal | Audite.py:388-389 | a cover is normal when its width, height, quality, name and extension are all non-empty |
| Covers.IsOk | Audite.py:391-392 | a cover is in order when it needs neither a rename nor a resize |
| Covers.CoverJpgParts | Audite.py:359-361 | `cover.jpg` splits into the name `cover` and the extension `jpg` |
| Tracks.Score | Audite.py:1012-1024 | the score of one cue entry: weighted title and tag-title similarity, with a squared-distance penalty on the number for non-ASCII names; the reference the scoring loop is proved against |
| Tracks.Scores | Audite.py:1008-1024 | one score per cuesheet entry, for the entry's 1-based number |
| Tracks.BestUpTo | Audite.py:1008-1025 | after `n` scores the loop holds the first of the highest scores, when one beats -1e6, and index 0 otherwise |
| Tracks.FirstBest | Audite.py:1008-1025 | the entry picked is the first with the highest score when that score beats -1e6, otherwise the first entry |
| Tracks.BestCue | Audite.py:1008-1025 | the scoring loop picks that entry |
| Tracks.Retitled | Audite.py:1026-1075 | a track given a new number and title changes only those and the flags raised |
| Tracks.Matched | Audite.py:1026-1048 | after entry `best` wins, the number is `best + 1` and the title the entry's; the file name is its safe form; a rename is due exactly when the file's number or safe title differ, a re-tag exactly when a tag number or title differ |
| Tracks.Fallback | Audite.py:1049-1075 | without a usable cuesheet the tag number equals the number and the file name is the safe form of the tag title |
| Tracks.FallbackNumber | Audite.py:1049-1054 | the fallback keeps the file's number exactly when file and tag agree on a non-zero number, otherwise the alphabetical position |
| Tracks.FallbackDecisions | Audite.py:1049-1075 | the fallback's number, title and flags: the file name is the safe normalised file title; the tag title is kept only when its safe form is that title; a re-tag is due exactly when a tag disagrees |
| Tracks.FallbackTitle | Audite.py:1059-1075 | a non-empty tag title whose safe form is the normalised title is kept as the better-cased one; any other non-empty tag title is a conflict |
| Tracks.KeptTagTitle | Audite.py:1072-1076 | a tag title kept because its safe form is the normalised title gives the same file name as that title |
| Tracks.Named | Audite.py:1085-1097 | the canonical name is computed and a rename is due exactly when the file name differs from it; nothing else changes |
| Text.ZeroPadRoundTrip | Audite.py:1090-1091 | a track number written with the `tNumFmt` zero padding reads back as the same number |
| Tracks.IsNormal | Audite.py:1104-1105 | a track is normal when its codec was recognised |
| Tracks.IsOk | Audite.py:1107-1108 | a track is in order when it is normal and needs no renumbering, re-encoding, rename, re-tagging or replay gain |
| Tracks.OkIsCanonical | Audite.py:1085-1108 | a track in order already carries its canonical file name |
| Tracks.Draft | Audite.py:477-1003 | the track before the cuesheet is consulted keeps its file name and carries the read tags |
| Tracks.NewTrack | Audite.py:432-1103 | the whole `Track.__init__`: it succeeds exactly when reading the name and tags does; a cuesheet entry is consumed exactly when the album has a full list of entries, and then it is the best-scoring one, which gives the number and title |
| Albums.CueKeys | Audite.py:1269-1273 | one key per listing entry: the size of a cuesheet file, none for any other name |
| Albums.CueKey | Audite.py:1272-1273 | a key is present exactly for a cuesheet file, and it is that file's size |
| Albums.FirstLargest | Audite.py:1270-1281 | the "strictly greater replaces" choice only ever points at a cuesheet seen so far |
| Albums.CueAsWritten | Audite.py:1270-1281 | as written: the first cuesheet found sets no size, so each later cuesheet whose size is above zero replaces the choice |
| Albums.FirstLargestIsFirstMax | Audite.py:1270-1281 | that choice is the first of the largest cuesheets, and nothing only when there is no cuesheet |
| Albums.FirstCueSizeForgotten | Audite.py:1270-1281 | two cuesheets, the larger first: the loop as written keeps the smaller second one, because the first one's size is never recorded; the intended choice is the first |
| Albums.ChooseCue | Audite.py:1269-1290 | the cuesheet chosen is the first largest one (empty when there is none), and "too many cuesheets" holds exactly when at least two are present |
| Albums.FilledFrom | Audite.py:1325-1360 | a header field only fills a field still empty: a known value is kept, an absent key keeps it, otherwise it is the cuesheet's value |
| Albums.HeaderTitle | Audite.py:1296-1310 | only the title and name change; a known title is kept; a title read is the `coerceTitle` of the first `TITLE ` line and the name its safe form |
| Albums.HeaderYear | Audite.py:1311-1323 | only the year changes, only when it was 0, and then to the number on the first `REM DATE ` line |
| Albums.CueHeader | Audite.py:1293-1360 | the header keeps every setting given; a known title keeps its name; the composer changes only when composers are handled; a title read comes from the first `TITLE ` line |
| Albums.CueStage | Audite.py:1288-1438 | an empty cuesheet changes nothing; otherwise the settings are kept, the track total is at most `MAX_TRACKS` and no more entries are read than the total |
| Albums.DirParts | Audite.py:1450 | one stripped part per `-`-separated piece of the directory name |
| Albums.RemoveFirst | Audite.py:1455 | `list.remove` drops exactly one element |
| Albums.YearScanFindsFirstYear | Audite.py:1452-1459 | the intended scan finds the first part that is a year up to the current year, and 0 exactly when there is none; it only removes parts; with no year found every non-numeric part remains |
| Albums.YearSkippedAfterRemoval | Audite.py:1452-1459 | `Artist - 0 - 1999 - Title`: as written `0` is removed, `1999` skipped and no year found; the intended scan finds 1999 |
| Albums.YearScan | Audite.py:1452-1459 | corrected: the parts are looked at in turn, numbers that are no year are removed, and the first year in range is taken; the reference `GuessYear` is proved against |
| Albums.YearScanAsWritten | Audite.py:1452-1459 | as written: a removed number shifts the parts, so the part after it is skipped |
| Albums.IsMiscDir | Audite.py:1443 | a directory named `misc`, `miscellaneous` or `various`, in any case, is a miscellany |
| Albums.GuessYear | Audite.py:1452-1459 | the year loop, run on a list it shortens in place, computes the intended scan |
| Albums.SingleAlbumGuess | Audite.py:1448-1472 | the single-album guess keeps every setting and a known title's name, and never touches composer or genre |
| Albums.NameAndArtist | Audite.py:1461-1472 | the title and artist steps keep the settings and the year |
| Albums.CollectionGuess | Audite.py:1473-1489 | the collection guess keeps the settings and a known title's name, and never touches artist, composer or genre |
| Albums.DirGuess | Audite.py:1441-1489 | the directory name is consulted only when the artist, year or title is unknown; a `misc` directory gives a "Misc" album without a year; otherwise every setting is kept |
| Albums.GuessSingleAlbum | Audite.py:1448-1472 | the single-album steps as run compute the single-album guess |
| Albums.TitleAndArtistSteps | Audite.py:1461-1472 | the title and artist steps as run, popping the last part, compute their specification |
| Albums.GuessFromDirName | Audite.py:1441-1489 | the directory-name stage as run computes its specification |
| Albums.NotMiscDir | Audite.py:1443-1444 | a name starting with a digit is not a "Misc" name |
| Albums.CollectionNameRoundTrip | Audite.py:1473-1608 | a collection directory named `YYYY - Name` gives back its year, its name and the normalised title |
| Albums.CanonicalDirNameReadsBack | Audite.py:1441-1615 | a collection album whose directory already carries its canonical name reads that year and name back from it |
| Albums.RootArtist | Audite.py:1491-1496 | the root directory's name fills in an unknown artist and nothing else |
| Albums.BestCover | Audite.py:1501-1510 | the cover chosen: the first normal image, replaced by each later one that is strictly more suitable |
| Albums.CoverAt | Audite.py:1501-1504 | a cover candidate is an image file that reads as a normal cover |
| Albums.Images | Audite.py:1501-1504 | one candidate per listing entry |
| Albums.SuitKeys | Audite.py:1506-1507 | each candidate's suitability, present exactly for candidates |
| Albums.BestCoverIsFirstMostSuitable | Audite.py:1498-1507 | no cover when no image is normal; otherwise the first of the most suitable normal images |
| Albums.ChooseCover | Audite.py:1498-1507 | the cover loop computes that cover |
| Albums.AudioFiles | Audite.py:1524-1528 | never more audio files than listing entries |
| Albums.AudioFilesAreAudio | Audite.py:1524-1528 | the audio files are exactly the listing's names that are audio files |
| Albums.CollectAudioFiles | Audite.py:1515-1529 | the collecting loop computes them |
| Albums.StepKeepsTracksInv | Audite.py:1531-1535 | instantiating one track keeps the track invariant (each kept track normal and consistent with the width; matched tracks numbered within the entries; a consumed entry no longer matchable) and adds at most one track |
| Albums.TracksFromInv | Audite.py:1531-1535 | the whole loop keeps the invariant and keeps at most one track per file |
| Albums.SetUpTracks | Audite.py:1531-1535 | the instantiation loop computes the track list |
| Albums.FirstNonEmpty | Audite.py:1540-1590 | the first non-empty tag value, empty exactly when all are empty |
| Albums.FirstPositive | Audite.py:1583-1588 | the first positive date, 0 exactly when none is positive |
| Albums.FirstNonEmptyOf | Audite.py:1540-1590 | a `for ... break` search finds the first non-empty value |
| Albums.FirstPositiveOf | Audite.py:1583-1588 | a `for ... break` search finds the first positive value |
| Albums.IsBetter | Audite.py:1549-1577 | a tag value is better when it differs from the album value, has it as its safe form and is no shorter |
| Albums.BetterNeedsNoLength | Audite.py:1549-1577 | the length test of "better value" is implied: a value is better exactly when the current one is its safe form and differs from it |
| Albums.Improved | Audite.py:1540-1590 | an unknown value becomes the tag value; a known one is replaced only by a spelling whose safe form it is |
| Albums.TagGuess | Audite.py:1538-1601 | the tag stage: a "Misc" title stays; a known title, artist or composer changes only to a spelling whose safe form it is; the composer only when handled; a known year and genre stay |
| Albums.ImproveFromTags | Audite.py:1538-1601 | the tag stage as run computes its specification |
| Albums.InsertByNumber | Audite.py:1624 | inserting a track lengthens the list by one |
| Albums.SortByNumber | Audite.py:1624 | the sort keeps the number of tracks |
| Albums.InsertByNumberSorts | Audite.py:1624 | inserting into a list ordered by number keeps it ordered |
| Albums.InsertByNumberPermutes | Audite.py:1624 | inserting adds exactly that track |
| Albums.SortByNumberSorts | Audite.py:1624 | the sort orders the tracks by number and is a permutation |
| Albums.CheckTracks | Audite.py:1625-1628 | the `tracksOk &= track.isOk()` loop says whether every track is in order |
| Albums.ReadCue | Audite.py:1288-1438 | the cuesheet stage as run computes its specification |
| Albums.Setup | Audite.py:1220-1628 | `Album.__init__` as a value: settings, cuesheet, directory name, root directory, cover and tracks in this order; the reference `SetUp` and `Open` are proved against |
| Albums.Overrides | Audite.py:1255-1266 | the facts the settings fix: the album title and its safe name, the artist, the composer, the year and the genre |
| Albums.Finish | Audite.py:1540-1628 | the stages after the tracks keep the directory name, the cuesheet and its entries and the track count; the album needs a new cuesheet exactly when it has none (Audite.py:1283-1285) or the track and entry counts differ, and a rename exactly when the canonical name is not the directory's |
| Albums.AllOk | Audite.py:1630-1635 | an album is in order when it has a name, needs neither rename nor new cuesheet, has one cuesheet with text, tracks that are all in order and a cover that is in order |
| Albums.SmthToDo | Audite.py:1637-1643 | an album not in order has work left when it needs a rename, has a track out of order or a cover out of order, or needs a new cuesheet and has tracks |
| Albums.SetupFrom | Audite.py:1441-1628 | the stages after the cuesheet as a value; the reference `SetUpFrom` is proved against |
| Albums.GoodDirName | Audite.py:1603-1615 | the canonical directory name `YYYY - Name`, or the bare name without a year; in single-album mode the safe composer or artist goes in front, except for `Misc` |
| Albums.SetUp | Audite.py:1220-1628 | `Album.__init__` as run computes the set-up |
| Albums.SetUpFrom | Audite.py:1441-1628 | the stages after the cuesheet as run compute their specification |
| Albums.GoodTracksPermuted | Audite.py:1624 | reordering tracks keeps every per-track guarantee |
| Albums.FinishTracks | Audite.py:1536-1624 | after the sort the tracks are ordered, keep their guarantees, and the track total is their number |
| Albums.SetupTracks | Audite.py:1220-1628 | after the set-up the tracks are ordered by number, each normal and consistent with the album's number width, at most one per audio file, and at most `MAX_TRACKS` cuesheet entries were read |
| Albums.SetupFromTracks | Audite.py:1501-1628 | from the cuesheet stage on, the tracks come out ordered by number, normal and consistent with the width, at most one per audio file, and the cuesheet entries keep their count |
| Albums.InferenceHonours | Audite.py:1441-1601 | the stages after the cuesheet honour what the cuesheet stage kept |
| Albums.SetupHonoursSettings | Audite.py:1255-1266 | settings win over everything read later: a genre given is kept; an artist, composer or title given is kept or replaced by a spelling whose safe form it is; a year given is kept; only a `misc` directory overrides title and year |
| Albums.SetupFromHonours | Audite.py:1441-1601 | the stages after the cuesheet keep every field the cuesheet stage kept: the genre as it is, the artist, composer and (outside `Misc`) title as they are or as a spelling whose safe form they are, and (outside `Misc`) the year |
| Albums.SetupOkIsCanonical | Audite.py:1603-1634 | an album in order already has its canonical directory name and every track file its canonical name |
| Albums.OkAlbumHasNothingToDo | Audite.py:1630-1643 | the early `return False` of `hasSmthToDo` changes nothing: an album in order has nothing to do anyway |
| Albums.Album.constructor | Audite.py:1220-1222 | a new album holds the set-up data and is not yet marked in order |
| Albums.Album.IsOk | Audite.py:1630-1635 | `isOk` records and returns whether the album is in order, changing nothing else |
| Albums.Album.HasSmthToDo | Audite.py:1637-1643 | an album marked in order has nothing to do; otherwise it has something to do exactly when a rename, a track, the cover or a re-cue with tracks is pending |
| Albums.Open | Audite.py:1220-1628 | opening an album succeeds exactly when its set-up does, and gives a fresh album holding that set-up |
| Complex.Names | Audite.py:1811-1812 | the names of a sub-album's listing, in order |
| Complex.SubCounts | Audite.py:1813 | `subCounts` holds the size of each sub-album's listing |
| Complex.AllSubElemsCounted | Audite.py:1812-1813 | every element is counted once: the joint listing is as long as the counts add up to |
| Complex.AudioKeys | Audite.py:1815-1829 | a title per name exactly when it is an audio file, and every title is stripped |
| Complex.Somes | Audite.py:1815-1829 | `localTracks` keeps at most one title per name |
| Complex.SomesCount | Audite.py:1815-1829 | exactly the present titles are kept, one per audio file |
| Complex.SomesMembers | Audite.py:1815-1829 | a title is kept exactly when some name gives it |
| Complex.AudioTitlesOfAudioFiles | Audite.py:1815-1830 | a sub-album yields one title per audio file, and every title is stripped |
| Complex.SubCueKeys | Audite.py:1832-1843 | a key exactly for a name ending in `.cue` in any case, holding its size |
| Complex.SubCueIsFirstLargest | Audite.py:1832-1844 | a sub-album has a cuesheet exactly when some name ends in `.cue`; the one chosen is the first of the largest |
| Complex.SubCues | Audite.py:1832-1844 | one choice per sub-album |
| Complex.CueListOf | Audite.py:1833-1844 | `cueList` holds chosen cuesheets only, in sub-album order, at most one per sub-album |
| Complex.SubCue | Audite.py:1832-1844 | the cuesheet chosen in a sub-album: the first one no later one strictly exceeds in size |
| Complex.CueListComplete | Audite.py:1833-1844 | no sub-album with a cuesheet is missed |
| Complex.CueListOfAll | Audite.py:1833-1844 | when every sub-album has a cuesheet, the i-th entry of the cue list is the i-th sub-album's |
| Complex.SubKeys | Audite.py:1815-1829 | the title keys of each sub-album |
| Complex.TitlesOf | Audite.py:1829 | `cueTrackTitles` holds each sub-album's kept titles |
| Complex.TotalsOf | Audite.py:1830 | `cueTrackTotals` holds how many titles each sub-album kept |
| Complex.CollectTitles | Audite.py:1815-1829 | the inner loop collects exactly the titles of the audio files |
| Complex.ScanPrefix | Audite.py:1806-1844 | one more sub-album appends its listing, its count, its titles, its total and, when it has one, its cuesheet |
| Complex.Scan | Audite.py:1806-1845 | the loop over the sub-albums computes the joint listing, the counts, the titles, the totals and the cuesheet list |
| Complex.ScanSubAlbums | Audite.py:1806-1845 | the same with each listing's names read as the loop goes |
| Complex.Kept | Audite.py:1870-1913 | a header value is collected only when not empty |
| Complex.CueYear | Audite.py:1878-1886 | a `REM DATE` value is collected only as a year in 1..`NOW_YEAR` |
| Complex.ComplexTrackTotal | Audite.py:1915-1927 | a sub-album cuesheet's track total is the last `TRACK ` number, without any range check, or 0 when there is no `TRACK ` |
| Complex.Latest | Audite.py:1874-1913 | `cueStr` after a header lookup: the value read, when there is one, else the earlier value |
| Complex.ReadSubCue | Audite.py:1866-2029 | one non-empty cuesheet read into the gathered lists |
| Complex.ReadSubHeader | Audite.py:1869-1913 | each header value is read exactly when its key occurs; `COMPOSER ` only when composers are handled |
| Complex.Gather | Audite.py:1864-2029 | the loop over the cuesheets as a value, skipping empty texts and stopping at the first failure; the reference `GatherCues` is proved against |
| Complex.GatherPrefix | Audite.py:1864-2029 | one more cuesheet is one more step of the gathering |
| Complex.GatherCues | Audite.py:1864-2029 | the loop over the cuesheets computes the gathering |
| Complex.GatherErrStays | Audite.py:1864-2029 | a cuesheet that cannot be read ends the whole loop |
| Complex.ReadSubCueInv | Audite.py:1866-2029 | reading one cuesheet keeps the gathering invariant and adds one entry list, no longer than the track total the cuesheet announces |
| Complex.GatherInvStep | Audite.py:2021-2029 | appending an entry list and its `INDEX` times keeps the invariant (one or two times per entry; stripped entries; years in range; non-empty names) |
| Complex.GatherKeepsInv | Audite.py:1864-2029 | everything gathered satisfies the invariant, with at most one entry list per cuesheet |
| Complex.LongestFrom | Audite.py:2036-2052 | the result is the start value or one of the values, and no value and not the start is longer |
| Complex.LongestFromFirst | Audite.py:2036-2052 | a result longer than the start is the first value of that length: only a strictly longer value replaces the current one |
| Complex.LongestOfAgreeing | Audite.py:2033-2037 | when every value agrees, the merge yields that value |
| Complex.MergedPerson | Audite.py:2031-2056 | a known performer or composer stays; an unknown one becomes the longest value found, or stays empty when none was found |
| Complex.CueAlbumTitle | Audite.py:2060-2074 | the album title the cuesheet titles suggest: their common prefix, else their common suffix, else the first of the longest |
| Complex.CueAlbumTitleCases | Audite.py:2060-2074 | cuesheet titles with a common prefix give that prefix, stripped and normalised; with no common edge the longest title is taken |
| Complex.CutAffix | Audite.py:2075-2085 | removing the sub-albums' common edge: nothing to remove keeps the title; a suffix or prefix match leaves a part of the title without that edge; a title without either keeps it |
| Complex.CutEnd | Audite.py:2078-2080 | what is left is a prefix of the text |
| Complex.CutStart | Audite.py:2082-2084 | what is left is a suffix of the text |
| Complex.CutAffixOfAffix | Audite.py:2077-2080 | a title made only of the common text, give or take blanks, crashes on `title[-1]` |
| Complex.CutAffixOfSuffixed | Audite.py:2077-2080 | `X - delStr` gives `X` when `X` ends in a letter |
| Complex.CutAffixOfPrefixed | Audite.py:2081-2084 | `delStr - X` gives `X` when `X` starts with a letter and the title does not also end with `delStr` |
| Complex.CutStartOfMarked | Audite.py:2082-2084 | one mark between blanks in front of a text starting with a letter is removed |
| Complex.CutEndOfMarked | Audite.py:2078-2080 | one mark between blanks after a text ending in a letter is removed |
| Complex.RoundHalfEven | Audite.py:2090 | Python's `round` of a mean: within half of the divisor, ties to the even number |
| Complex.MeanYearInRange | Audite.py:2085-2092 | the rounded mean of cuesheet years in 1..`NOW_YEAR` is itself such a year |
| Complex.RoundedMeanBounds | Audite.py:2089-2090 | rounding a mean of values in 1..`hi` stays in 1..`hi` |
| Complex.TitleCase | Audite.py:2100 | `str.title` keeps the length, the letters and blanks, and changes letter case only |
| Complex.TitleCaseIdempotent | Audite.py:2100 | a title-cased text is left alone by a second `str.title` |
| Complex.Distinct | Audite.py:2033-2102 | `list(set(xs))`: the same values, each once |
| Complex.GenrePieces | Audite.py:2100 | one piece per comma-separated part |
| Complex.GenrePartsOfAgreeing | Audite.py:2093-2103 | when every sub-album has the same one-piece genre, the merged genre parts are exactly that piece |
| Complex.MergedGenre | Audite.py:2093-2103 | a known genre stays, and so does an unknown one when no cuesheet names a genre |
| Complex.MergedGenreOfAgreeing | Audite.py:2093-2103 | every cuesheet naming the same single genre gives that genre in title case |
| Complex.DistinctOfAgreeing | Audite.py:2102 | repeats of one value reduce to that value |
| Complex.MergedTitle | Audite.py:2057-2084 | a known title stays, and so does an unknown one when no cuesheet has a title; only a title to derive can fail |
| Complex.MergedYear | Audite.py:2085-2092 | a known year stays, and so does an unknown one when no cuesheet has a year |
| Complex.MergeCues | Audite.py:2031-2103 | the merge keeps every setting; the name follows a title taken from the cuesheets and otherwise stays; only deriving an unknown title can fail |
| Complex.MergeCuesYear | Audite.py:2085-2092 | after the merge an unknown year is 0 or a year in 1..`NOW_YEAR` |
| Complex.ComplexOverrides | Audite.py:1786-1797 | the settings give the same facts as for a flat album, except that the composer is taken only when composers are handled |
| Complex.ComplexDirGuess | Audite.py:2110-2134 | the directory name fills only an unknown title or year, never the artist, composer or genre; a guessed year is within 0..`NOW_YEAR`; with both known nothing changes |
| Complex.DirYear | Audite.py:2120-2126 | a known year stays; a guessed one is in 0..`NOW_YEAR` and is the number before the dash when that is a year |
| Complex.Retitled | Audite.py:2115-2130 | only the title and name change: the title is the normalised text and the name its safe form |
| Complex.ComplexDirGuessOfDated | Audite.py:2110-2134 | `YYYY - Title` gives both the year and the normalised title |
| Complex.DatedParts | Audite.py:2112-2127 | in `YYYY - Title` the first dash follows the year and a blank, and the two halves strip to the year and the title |
| Complex.ComplexRootArtist | Audite.py:2137-2139 | an unknown artist becomes the root directory's name even when that is empty; nothing else changes |
| Complex.ComplexGoodName | Audite.py:2141-2153 | the suggested directory name is the flat album's, except for a "Misc" title |
| Complex.ComplexGoodNameOfMisc | Audite.py:2145 | the one difference from the flat album: a complex album titled `Misc` still gets its artist in front |
| Complex.SumAboveLength | Audite.py:2155-2157 | counts adding up to more than one per entry include a count of two or more |
| Complex.NormalHasFullSub | Audite.py:2155-2157 | in a normal complex album some sub-album holds two elements or more |
| Complex.IsNormalFor | Audite.py:2155-2157 | a complex album is normal when it has sub-albums, their names share a prefix or a suffix, and they hold more elements than there are sub-albums |
| Complex.FlatParts | Audite.py:2180-2188 | a name whose last dot is absent or leading has no extension, and a name shared by several sub-albums gets the sub-album's name appended |
| Complex.FlatExtension | Audite.py:2204-2205 | the extension becomes `.cdcue` exactly for `.cue` and `.cdcue`; any other extension is kept |
| Complex.FlatNameEnding | Audite.py:2180-2206 | a name with an extension ends its new name with it, lower-cased and with `.cue` turned into `.cdcue`; a name shared by several sub-albums has ` (sub-album)` right before that extension |
| Complex.RenumberedKeepsTail | Audite.py:2189-2203 | renumbering keeps whatever follows the leading digits |
| Complex.LeadingNumber | Audite.py:2190-2196 | the number a name starts with, when it starts with digits |
| Complex.Renumbered | Audite.py:2189-2200 | the leading number shifted by the base and padded to the width, in front of the rest; a name without leading digits is kept |
| Complex.RenumberedShifts | Audite.py:2189-2200 | renumbering shifts the leading number by the base and keeps the rest of the name |
| Complex.RenumberedKeeps | Audite.py:2189-2200 | a name without a leading number is kept |
| Complex.FlatNameAgrees | Audite.py:2189-2195 | the code as written and the intended rule agree unless the stem is a bare number |
| Complex.FlatNameOfBareNumber | Audite.py:2189-2195 | `01.flac` in a later sub-album keeps its old number behind the new one as written, and loses it under the intended rule |
| Complex.FlatExtensionShape | Audite.py:2183-2202 | an extension is empty or starts with its dot |
| Complex.FlatName | Audite.py:2172-2206 | corrected: the new name of one element, its leading number replaced by the shifted one |
| Complex.FlatNameAsWritten | Audite.py:2189-2206 | as written: a stem made of digits alone keeps its digits behind the shifted number |
| Complex.FlatNameShifts | Audite.py:2189-2200 | a numbered element moves up under its number plus the base |
| Complex.SubRenames | Audite.py:2178-2209 | one rename per element of a sub-album |
| Complex.RenamesAt | Audite.py:2178-2209 | rename `j` is element `j` with its new name |
| Complex.Flatten | Audite.py:2174-2214 | flattening succeeds exactly when every sub-album has a track total (`cueTrackTotals[i]`), and then renames every sub-album |
| Complex.FlattenAt | Audite.py:2174-2214 | sub-album `i` is renamed with base `Sum(totals[..i])` |
| Complex.FlattenRenameAt | Audite.py:2174-2214 | element `j` of sub-album `i` is renamed by `FlatName` with base `Sum(totals[..i])` |
| Complex.SumPrefixMonotone | Audite.py:2212 | the base only grows |
| Complex.ShiftedNumbersDisjoint | Audite.py:2196-2212 | numbers 1..`totals[i]` of sub-album `i` land in a block of their own: two tracks of different sub-albums never share a new number, given that `totals[i]` is sub-album `i`'s own total, as `Unflat.SetupListedOwnTotals` gives for the corrected set-up |
| Complex.FlattenRenames | Audite.py:2174-2214 | the flattening loop computes the renames |
| Complex.RenameSub | Audite.py:2178-2209 | the inner loop over one sub-album's elements computes its renames |
| UnifiedCue.WrittenTimes | Audite.py:2232-2235 | the times written for a track are its first one or two times, two exactly when it has two |
| UnifiedCue.TrackText | Audite.py:2232-2237 | the lines of one track: `TRACK` with its zero-padded number, `TITLE` and the INDEX lines |
| UnifiedCue.TrackLine | Audite.py:2230 | the `TRACK` line with the number zero-padded to the album's width |
| UnifiedCue.TimesText | Audite.py:2232-2236 | an `INDEX 00` line when the track has times, and an `INDEX 01` line as well when it has two |
| UnifiedCue.GroupsText | Audite.py:2228-2236 | one `FILE` line per sub-album, naming the album's flac image with the sub-album in brackets, each followed by its tracks |
| UnifiedCue.HeaderRest | Audite.py:2219-2226 | the header lines after `TITLE`: performer, composer when allowed, year and genre, each only when known |
| UnifiedCue.TracksText | Audite.py:2231-2237 | the lines of a group of tracks, in order |
| UnifiedCue.TrackAt | Audite.py:2230-2235 | track `j` of sub-album `i` can be written exactly when its title exists and, when there are INDEX times, its times exist and are not empty; it carries the given number, that title and the written times |
| UnifiedCue.SubTracks | Audite.py:2229-2235 | the first `n` tracks of sub-album `i` are numbered `first`, `first + 1`, ... and carry the sub-album's titles in order; a missing one fails with an index error |
| UnifiedCue.UnifiedTracks | Audite.py:2226-2236 | one group per sub-album, as long as its track total; a missing title or time fails with an index error |
| UnifiedCue.NumberedInOrder | Audite.py:2226-2236 | the tracks of the unified cuesheet are numbered 1, 2, ... without gap or repeat, as many as the totals add up to |
| UnifiedCue.UnifiedTrackAt | Audite.py:2226-2236 | track `j` of sub-album `i` gets number `1 + Sum(totals[..i]) + j` and the title `cueTrackTitles[i][j]` |
| UnifiedCue.UnifiedTracksOk | Audite.py:2226-2236 | with one title and one or two times per announced track in every sub-album, writing cannot fail |
| UnifiedCue.SubTracksOk | Audite.py:2229-2235 | with a title and non-empty times for each of the first `n` tracks, a sub-album's tracks can be written |
| UnifiedCue.SubTracksErrStays | Audite.py:2229-2235 | a failed lookup stops the sub-album's loop |
| UnifiedCue.UnifiedTracksErrStays | Audite.py:2226-2236 | a failed lookup stops the whole loop |
| UnifiedCue.NumberTracks | Audite.py:2226-2236 | the outer numbering loop, with `baseIndex += cueTrackTotals[i]`, computes the groups |
| UnifiedCue.NumberSubTracks | Audite.py:2229-2235 | the inner loop computes one sub-album's tracks |
| UnifiedCue.TrackNumberText | Audite.py:2106-2230 | every track number of an album of `total` tracks is printed with exactly the width of `total` and reads back as itself |
| UnifiedCue.UnifiedText | Audite.py:2216-2236 | the unified cuesheet text: with no title the text is unbound and writing fails; otherwise it fails exactly when the numbering does, and starts with the `TITLE` line |
| UnifiedCue.TrackLineNumber | Audite.py:2226-2236 | the `TRACK` line of the `k`-th track carries `k + 1`, zero-padded to the album's width |
| Unflat.SubNames | Audite.py:1807-1809 | the sub-album names, in order |
| Unflat.CueTexts | Audite.py:1864-1865 | one text per chosen cuesheet, read from its sub-album |
| Unflat.CueStage | Audite.py:1846-2103 | the cuesheet stage, gathering the cuesheets in sub-album order as corrected under Findings, keeps every setting |
| Text.TextLess | Audite.py:1848 | Python's order on strings, by code point with a proper prefix first, as `list.sort` applies it |
| Text.TextLessAsymmetric | Audite.py:1848 | no two strings are each below the other |
| Text.TextLessCommonPrefix | Audite.py:1848 | a common beginning, such as the album path, does not change the order |
| Text.TextLessProperPrefix | Audite.py:1847 | a proper prefix sorts first, so `CD1` comes before `CD1 - Bonus` |
| Unflat.InsertCueSorts | Audite.py:1848 | one insertion of the path sort adds its entry and keeps a sorted cue list sorted |
| Unflat.SortCues | Audite.py:1848 | the sorted cue list has the same length and names sub-albums only |
| Unflat.SortCuesSorts | Audite.py:1848 | the sort of the cue list is a permutation ordered by path text |
| Unflat.CueStageAsWritten | Audite.py:1848-1865 | as written, the stage gathers over the cue list sorted by path and still keeps every setting |
| Unflat.CueSortMisaligns | Audite.py:1847-1848 | sub-albums `n` and `n` followed by text starting below `/`: the names are in order but the sorted cue list puts the second cuesheet first, so its text is gathered at position 0 |
| Unflat.ExtendedNameFirst | Audite.py:1848 | a cue path through the longer sub-album name sorts first when the extra part starts below `/` |
| Unflat.Assemble | Audite.py:2104-2153 | the fields after the cuesheet stage: the settings kept, a rename due exactly when the suggested name differs from the directory name, and the listing and cuesheet lists carried over |
| Unflat.InsertSubSorts | Audite.py:1847 | one insertion of the name sort adds its sub-album and keeps a sorted list sorted |
| Unflat.SortSubs | Audite.py:1847 | the sort keeps the number of sub-albums |
| Unflat.SortSubsSorts | Audite.py:1847 | the sort of the sub-albums is a permutation ordered by name in Python's string order |
| Unflat.Setup | Audite.py:1750-2153 | `UnflatAlbum.__init__` as a value, given the sub-albums in the order it keeps them: the listing, then the cuesheet stage, then the fields after it; no sub-albums fail |
| Unflat.SetupSubs | Audite.py:1847-2153 | the set-up keeps the sub-albums it is given, in that order |
| Unflat.SetupListed | Audite.py:1750-2153 | corrected: `UnflatAlbum.__init__` of a directory listed in any order, the sub-albums sorted by name together with their listings before the set-up |
| Unflat.SetupAsWritten | Audite.py:1750-2153 | as written: only the names are sorted, the totals and titles keep the listing order, and the cue list is sorted by path |
| Unflat.SetupListedSorts | Audite.py:1806-1847 | corrected: the set-up of a listing in any order holds the sub-albums sorted by name, a permutation of the listing; no sub-albums fail |
| Unflat.SetupAsWrittenSorts | Audite.py:1806-1847 | as written, the sub-album names come out sorted; no sub-albums fail |
| Unflat.ListingAsWritten | Audite.py:1806-1848 | as written, the totals and titles stay in listing order while the cue list points at the sorted sub-albums |
| Unflat.SetupNoCues | Audite.py:1853-1862 | without cuesheets the corrected set-up keeps the listing's totals and titles |
| Unflat.SetupAsWrittenNoCues | Audite.py:1853-1862 | without cuesheets the set-up as written keeps the totals and titles of the listing loop |
| Unflat.ListedOrderKept | Audite.py:1806-1862 | as written, without cuesheets the sorted names are paired with totals and titles in listing order |
| Unflat.NoCuesSorted | Audite.py:1832-1847 | sorting sub-albums without cuesheets gives no cue list |
| Unflat.SetupOwnTotals | Audite.py:1815-1862 | without cuesheets each sub-album's total and titles are its own audio files' |
| Unflat.SetupListedOwnTotals | Audite.py:1806-1862 | corrected: without cuesheets, after the sort the `i`-th total is the `i`-th sub-album's own audio count |
| Unflat.TwoAsWritten | Audite.py:1806-1862 | as written, two sub-albums listed against name order swap names and keep their totals in listing order |
| Unflat.TwoListed | Audite.py:1806-1862 | corrected, the totals move with the names |
| Unflat.ListedOutOfOrderOverlaps | Audite.py:1806-1862 | two sub-albums listed against name order without cuesheets, the later one smaller: as written the first sub-album by name is followed by base `ta`, below its own `tb` tracks, so number `ta + 1` is given twice; corrected, the base is `tb` |
| Unflat.SetupFails | Audite.py:1850-1851 | an album without sub-albums fails on `min` of an empty list in `getCommonPrefPostFixes`; one whose sub-albums hold no cuesheet is set up |
| Unflat.NoCuesNoList | Audite.py:1833-1844 | no cuesheet in any sub-album gives an empty `cueList` |
| Unflat.SetupKeepsSettings | Audite.py:1786-1797 | every field the settings fix survives the set-up |
| Unflat.ListingConsistent | Audite.py:1806-1845 | the listing's titles and totals are consistent, one per sub-album, and `cueList` points at sub-albums |
| Unflat.GatherConsistent | Audite.py:1864-2029 | what the cuesheets give is consistent, with at most one total per cuesheet |
| Unflat.CueStageConsistent | Audite.py:1846-2029 | the cuesheet stage keeps the lists consistent; without cuesheets the lists are the listing's and there are no INDEX times |
| Unflat.SetupConsistent | Audite.py:1750-2153 | after the set-up the collected lists are consistent; without cuesheets there is one total per sub-album and no INDEX times; with cuesheets at most one per cuesheet |
| Unflat.CoerceOf | Audite.py:2170-2250 | `coerce` as a value: flatten, write the unified cuesheet, then rename the directory |
| Unflat.CoerceSucceeds | Audite.py:2170-2236 | `coerce` succeeds exactly when there is a title and a track total for every sub-album; fewer readable cuesheets than sub-albums make `cueTrackTotals[i]` fail |
| Unflat.NormalAlbumHasFullSub | Audite.py:2155-2157 | in a normal complex album some sub-album holds two elements or more |
| Unflat.ReadCues | Audite.py:1846-2103 | the cuesheet stage with its loop computes its specification |
| Unflat.SetUp | Audite.py:1750-2153 | `UnflatAlbum.__init__` as run computes the corrected set-up of a listing in any order |
| Unflat.UnflatAlbum.constructor | Audite.py:1749-1750 | a new complex album holds the set-up data |
| Unflat.UnflatAlbum.Coerce | Audite.py:2170-2250 | `coerce` computes the renames and the unified cuesheet of the album's data |
| Unflat.WriteCue | Audite.py:2216-2236 | writing the unified cuesheet with its numbering loops computes its text |
| Unflat.Open | Audite.py:1750-2153 | opening a complex album succeeds exactly when its corrected set-up does, and gives a fresh object holding it |
| Playlister.DropNumberMark | Playlister.py:170-171 | on a non-blank start, the result is a suffix of the name and does not start with a blank |
| Playlister.CutRest | Playlister.py:169-172 | after the digit run: fails with an index error exactly when the rest is blank (`name[0]` of an empty string); otherwise gives a suffix of the rest that does not start with a blank |
| Playlister.CutTrackNo | Playlister.py:161-172 | fails with an index error exactly when what follows the leading digits is blank; otherwise the result is a suffix of the file name that does not start with a blank |
| Playlister.IsNumberMark | Playlister.py:170 | the marks dropped after a track number: `.`, `,`, `-`, `:`, the vertical bar and the division slash |
| Playlister.CutTrackNoScan | Playlister.py:161-172 | the counting loop over the digits computes `CutTrackNo` |
| Playlister.CutTrackNoNumbered | Playlister.py:164-169 | digits followed by a rest that does not start with a digit: the digit run is exactly the digits |
| Playlister.DropNumberMarkOf | Playlister.py:170-171 | a mark from `. , - : \| ∕` and the blanks after it are dropped, leaving the title |
| Playlister.CutRestMarked | Playlister.py:169-171 | `<blanks><mark><blanks><title>` gives the title |
| Playlister.CutRestPlain | Playlister.py:169-172 | `<blanks><title>` with a title starting with neither a mark nor a blank gives the title unchanged |
| Playlister.CutTrackNoMarked | Playlister.py:161-172 | a numbered file name `<digits><blanks><mark><blanks><title>` yields its title |
| Playlister.CutTrackNoPlain | Playlister.py:161-172 | `<digits><blanks><title>` yields the title; a name with no number, no leading blank and no leading mark is returned unchanged |
| Playlister.Stem | Playlister.py:177-179 | the result is a prefix of the name; a name with no dot after its first character is kept whole |
| Playlister.NoDotAfterFirst | Playlister.py:177-178 | `rfind('.') <= 0` means no dot after the first character |
| Playlister.AudioName | Playlister.py:174-180 | fails exactly when `CutTrackNo` fails; otherwise a prefix of the cut name, and the whole cut name when it has no extension dot |
| Playlister.AudioNameOfName | Playlister.py:174-180 | a cut name `<title>.<ext>` with a dot-free extension gives the title |
| Playlister.StemOfName | Playlister.py:177-179 | `<title>.<ext>` with a dot-free extension and a title not ending in a blank has the title as its stem |
| Playlister.RStripSlashes | Playlister.py:184-186 | the result is a prefix of the path that does not end in a slash, and only slashes were removed |
| Playlister.TailStart | Playlister.py:184-188 | the tail after the returned position holds no slash, and the position follows a slash unless it is 0 |
| Playlister.PathSplit | Playlister.py:184-186 | the tail is a slash-free suffix of the path; an empty head means the path has no slash |
| Playlister.DirName | Playlister.py:335 | `os.path.dirname`: the part of a path before its last slash |
| Playlister.BaseName | Playlister.py:188-310 | the base name is a slash-free suffix of the path |
| Playlister.PathJoin | Playlister.py:225-315 | the join ends in the second part and, unless that part is absolute, starts with the first |
| Playlister.SplitAtLastSlash | Playlister.py:184-188 | splitting `q/f` gives back `q` and `f`, and the base name is `f` |
| Playlister.JoinSplit | Playlister.py:313-315 | joining a directory with a slash-free name is `dir/name`, and splitting it gives both back |
| Playlister.MakeLinkName | Playlister.py:182-191 | a link name never contains a slash, so the link lands directly in the link folder |
| Playlister.MakeLinkNameOfPath | Playlister.py:182-191 | for `.../<artist>/<album>/<file>` the link name is `<artist> ∕ <album> ∕ <file>` |
| Playlister.AlbumPathParts | Playlister.py:184-188 | the two splits and the base name of `.../<artist>/<album>/<file>` give the file, the album and the artist |
| Playlister.DropLast | Playlister.py:146-151 | the result is a prefix, one character shorter exactly when the string ended in the given character |
| Playlister.TrimLine | Playlister.py:144-152 | a line as `readlines` hands it over loses at most three trailing characters, all of them line-break characters |
| Playlister.TrimLineRoundTrip | Playlister.py:144-281 | a line without a trailing break is read back as itself whether written with `\r\n`, with `\n` or with nothing; with text-mode newline translation a `\r\n` line arrives as the `\n` case |
| Playlister.TrimAll | Playlister.py:144-152 | each entry is its line trimmed, in order |
| Playlister.TrimEntries | Playlister.py:144-152 | the in-place loop replaces every array cell with its trimmed line |
| Playlister.ReadEntries | Playlister.py:141-152 | reading a playlist gives its lines trimmed |
| Playlister.ReadBackAppended | Playlister.py:144-281 | lines appended with `\r\n` are read back as themselves after the old entries |
| PlaylistSync.InsertionPoint | Playlister.py:347-351 | the postfix goes before the last dot when that dot is not at position 0, else at the end; at the end only when there is no dot after the first character |
| PlaylistSync.WithPostfix | Playlister.py:346-374 | inserting a postfix adds exactly its length |
| PlaylistSync.WithPostfixAt | Playlister.py:347-351 | the postfix sits at the insertion point, between the two parts of the path |
| PlaylistSync.WithPostfixRemoved | Playlister.py:347-351 | taking the postfix out again gives the original path back |
| PlaylistSync.WithPostfixKeepsExtension | Playlister.py:347-349 | `<stem>.<ext>` becomes `<stem><postfix>.<ext>`: the extension is kept |
| PlaylistSync.PostfixOf | Playlister.py:338-346 | the postfix is ` (...)`; with slash-free names it has no slash; with an artist name it is ` (<artist> ∕ <album>)` |
| PlaylistSync.PostfixNoSlash | Playlister.py:338-346 | each of the three postfix texts, put in brackets, is slash-free when the names are |
| PlaylistSync.PostfixText | Playlister.py:335-346 | the postfix from the local file's two parent directories is a slash-free ` (...)` |
| PlaylistSync.PostfixOfAlbumPath | Playlister.py:335-346 | for `.../<artist>/<album>/<file>` the postfix is ` (<artist> ∕ <album>)` |
| PlaylistSync.Postfixed | Playlister.py:347-351 | corrected: the postfix goes before the last dot of the link name, or at its end, never into the link directory |
| PlaylistSync.PostfixedAsWritten | Playlister.py:347-351 | as written: the postfix goes before the last dot of the whole link path, directory included |
| PlaylistSync.PostfixedStaysInLinkDir | Playlister.py:347-351 | corrected: the postfixed link stays in the link directory, under the postfixed name |
| PlaylistSync.PostfixLeavesLinkDir | Playlister.py:347-351 | as written: with a dot in the link directory and none in the link name, the postfixed path is no longer inside the link directory |
| PlaylistSync.PostfixedAgreesWithExtension | Playlister.py:347-349 | when the link name has an extension, the code as written and the corrected version give the same path |
| PlaylistSync.AsWrittenWithExtension | Playlister.py:347-349 | as written, a name with an extension gets the postfix just before the extension |
| PlaylistSync.IntendedWithExtension | Playlister.py:347-349 | corrected, a name with an extension gets the postfix just before the extension |
| PlaylistSync.LinkName | Playlister.py:310-315 | the link name exists exactly when `CutTrackNo` of the local base name succeeds, and never contains a slash |
| PlaylistSync.LinkActionAsWritten | Playlister.py:316-374 | as written, a link is created only under a name not already in the link folder |
| PlaylistSync.SecondName | Playlister.py:333-351 | the second link name tried: the name itself with full links, else the name with the postfix |
| PlaylistSync.LinkActionOf | Playlister.py:316-374 | corrected: a fresh first name is created; a duplicate means a healthy clash with the same file; no action means a broken clash; a name that clashes twice is created with the random postfix |
| PlaylistSync.SecondClashDropsLink | Playlister.py:353-374 | two healthy clashes with other files: as written nothing is created; corrected, the random-postfixed link is created |
| PlaylistSync.BackslashStyle | Playlister.py:103 | fails with an index error exactly on an empty external base; otherwise true exactly when it ends in a backslash |
| PlaylistSync.ReplaceChar | Playlister.py:275-306 | each character equal to the first is replaced by the second, all others kept, length kept |
| PlaylistSync.ReplaceRoundTrip | Playlister.py:275-306 | l2m's `/` → `\` followed by m2l's `\` → `/` gives the path back when it had no backslash |
| PlaylistSync.ExtPath | Playlister.py:272-275 | corrected: with a backslash-ended base the external path starts with the base, and converting its rest back gives the relative path |
| PlaylistSync.ExtPathBackslash | Playlister.py:272-275 | the base followed by the converted relative path converts back to the relative path |
| PlaylistSync.ExtPathAsWritten | Playlister.py:273-275 | as written: join with a slash, then turn every slash into a backslash |
| PlaylistSync.ExtPathDoublesSeparator | Playlister.py:273-275 | as written, a backslash-ended base gets a second separator before the relative path; corrected, it does not |
| PlaylistSync.PlanAsWritten | Playlister.py:269-282 | no more paths are written or aborted than there are links |
| PlaylistSync.PlanAsWrittenSkipsEntries | Playlister.py:276-281 | as written, every appended path comes from the links and was not in the playlist read at start |
| PlaylistSync.SameLinkWrittenTwice | Playlister.py:276-281 | as written, two links to the same file both accepted are appended twice |
| PlaylistSync.Plan | Playlister.py:269-282 | corrected: no more paths are written or aborted than there are links |
| PlaylistSync.PlanWritesNew | Playlister.py:276-282 | corrected: every appended path comes from the links, was not in the playlist, and is appended once |
| PlaylistSync.PlanIsComplete | Playlister.py:271-282 | every aborted path is a link's relative path, and every link is already present, appended or aborted |
| PlaylistSync.ExtPaths | Playlister.py:272-275 | each link's external path, in order |
| PlaylistSync.SecondRunOffersAborted | Playlister.py:269-282 | a second run over the same links appends only paths of links the first run aborted |
| PlaylistSync.Playlist.constructor | Playlister.py:269 | the playlist holds the given lines |
| PlaylistSync.Playlist.Append | Playlister.py:281 | appending adds the entry with `\r\n` at the end and keeps every old line |
| PlaylistSync.Terminated | Playlister.py:281 | each appended entry ends in `\r\n`, in order |
| PlaylistSync.TerminatedSnoc | Playlister.py:281 | terminating one more entry appends one more line |
| PlaylistSync.AppendLinks | Playlister.py:269-282 | the append loop adds exactly the plan's written paths, `\r\n`-terminated, after the old lines, and returns the plan's aborted paths |
| PlaylistSync.LinksToPlaylist | Playlister.py:99-282 | l2m fails exactly on an empty external base and then leaves the playlist alone; otherwise it appends exactly the plan's new paths against the trimmed old entries and reports the aborted ones |
| PlaylistSync.AppendedReadBack | Playlister.py:144-281 | old lines are never removed, and the appended entries read back as the written paths |

## Left out

- External programs: `file`, `metaflac`, `mid3v2`, `mutagen-inspect`, `identify`, `ffprobe`, `ffmpeg`, `magick`, `mp3gain`, `which`, `ln` and `sort` are not run. Where the code parses their output, that output is an input string; where it only runs them, the call is not modelled.
- File-system effects: directory listings, sizes and file contents are inputs, and the album listing is taken as already sorted where the code sorts it before any use (Audite.py:1270, 1531). The sub-albums of a complex album are given in the order the directory lists them: their sort by name (Audite.py:1847) and the sort of the cue list by path (Audite.py:1848) are modelled, both as listed under Findings. Renames, `rmdir`, removals, cuesheet writes, `makedirs`, `readlink`, `samefile`, `relpath` and `normpath` are not modelled. `coerce` returns its renames and its cuesheet text instead of applying them. A crash part-way through `coerce` therefore loses no renames in the model, although on disk the earlier renames would already have happened.
- `loadAndForceUTF8` (Audite.py:310-325) and its encoding fallback: file texts are given already decoded.
- The re-encoding, re-tagging, resizing and gain steps of the `coerce` methods of `CoverImage`, `Track` and `Album` (Audite.py:397-428, 1110-1216, 1651-1745) are not modelled. Only the decisions that call for them are.
- Cue INDEX time arithmetic (Audite.py:1717-1745) is not modelled. INDEX times are carried as opaque strings.
- Floating point: `asymCrit` and the cover suitability score (Audite.py:251-255, 375) are a parameter returning `real`. Only "the first strictly greater score wins" is modelled.
- `SequenceMatcher.ratio` (Audite.py:276-277) is a similarity parameter returning `real`. Cue matching is not shown to be one-to-one, because the code does not make it so: a consumed entry keeps its place in the pool.
- Randomness: the `random.shuffle` text that marks a consumed cue entry (Audite.py:1029-1031) is an opaque string parameter. The `randint` postfixes of Playlister.py (344, 369) are parameters.
- Unicode: `isalpha`, `isdigit`, `isnumeric`, `isspace`, `lower`, `upper`, `capitalize` and `isprintable` have ASCII semantics. No Unicode case tables are modelled.
- Python set iteration order in the merge of sub-album facts (Audite.py:2033, 2046, 2102): the contracts of `Distinct` and `LongestFrom` hold for any order, but the definitions take the values in order of first occurrence, so the joined text of `MergedGenre` and the choice of `MergedPerson` among equally long names follow that order, not CPython's.
- Script plumbing: command-line parsing, help texts, status strings, printing and the globals (Audite.py:64-124, 2259-2490; Playlister.py:3-121). `NOW_YEAR` and `noCaps` are parameters, and `input()` answers are a function from prompt number to answer.
- Playlister's `--inspect` mode (Playlister.py:200-241) and `SortTextFile` are not modelled: they only re-link and sort through external programs.
- Playlister's reading of the link folder and the resolution of links (Playlister.py:126-136, 209-218, 254-263) are not modelled. `LinksToPlaylist` takes the resolved paths, already made relative to the base directory.
- The m2l loop (Playlister.py:305-399) is modelled per entry: the link name (`LinkName`) and the decision among create, duplicate and nothing (`LinkActionOf`). The bookkeeping around it is not modelled: `missed`, `aborted`, the counters and adding each new link to `linkEntries`.
- A playlist whose last line lacks a line break is read like any other line. When l2m then appends to that file, the first new entry is glued to that last line on disk. `AppendedReadBack` assumes every old line was complete.
- Where Findings lists a defect, the rest of the model uses the corrected definition: the cue choice, the year scan, the flattened names, the track-pair tag, the order of the gathered cuesheets, the order of the sub-albums, the link postfix, the external path, the append plan and the second-clash link. The code as written is kept beside each one only to show the defect.
- PairTag: a tag without separator that is not a number is reported as invalid, where the code as written raises `UnboundLocalError` (Audite.py:733, 886); `PairTagAsWritten` keeps the crash.
- Mp3Tags: uses the corrected `PairTag`, so a `TRCK` tag such as `Intro` yields a remark instead of the `UnboundLocalError` of Audite.py:733.
- AlacTags: uses the corrected `PairTag`, so a `trkn` tag without a comma that is not a number yields a remark instead of the `UnboundLocalError` of Audite.py:886.
- CueStage: gathers the cuesheets in sub-album order, not in the path order of Audite.py:1848; `CueStageAsWritten` gathers in path order. `Setup` and the class built on it use the corrected order.
- Setup: takes the sub-albums in the order it is given them; `SetupListed`, which `SetUp` and `Open` compute, sorts them with their totals and titles, where the code as written sorts the names alone (Audite.py:1847); `SetupAsWritten` keeps that behaviour.
- ShiftedNumbersDisjoint: holds when `totals[i]` is sub-album `i`'s own total, which the set-up as written does not ensure for a directory listed out of name order and without cuesheets; see Findings.


## Findings

| source | as written | input that shows it | evidently intended | confidence | as-written member | corrected member |
|---|---|---|---|---|---|---|
| Audite.py:1270-1281 | the size of the first cuesheet found is never recorded (`cueSize` stays 0), so any later cuesheet replaces it | `a.cue` of 100 bytes, then `b.cue` of 10 bytes: `b.cue` is chosen | the largest cuesheet, the first of them on a tie | medium, not executed | Albums.CueAsWritten, Albums.FirstCueSizeForgotten | Albums.FirstLargest, Albums.FirstLargestIsFirstMax, Albums.ChooseCue |
| Audite.py:1453-1460 | `parts.remove(p)` inside `enumerate(parts)` shifts the list, so the part after a removed number is never looked at | directory `Artist - 0 - 1999 - Title`: `0` is removed, `1999` is skipped, and no year is found | the first part that is a year in 1..NOW_YEAR is found | high, not executed | Albums.YearScanAsWritten, Albums.YearSkippedAfterRemoval | Albums.YearScan, Albums.YearScanFindsFirstYear, Albums.GuessYear |
| Audite.py:2191-2206 | when the stem is all digits, the digit loop never reaches the `else` branch, so `newName` keeps the digits behind the shifted number | `01.flac` in the second sub-album, after 10 tracks, width 2: `1101.flac` | `11.flac` | high, not executed | Complex.FlatNameAsWritten, Complex.FlatNameOfBareNumber | Complex.FlatName, Complex.FlatNameShifts |
| Playlister.py:347-351 | the last dot is searched in the whole link path, directory included | link directory `links.d` and link name `Song` with no extension: the postfix goes into the directory part, `links (A ∕ B).d/Song` | `links.d/Song (A ∕ B)` | high, not executed | PlaylistSync.PostfixedAsWritten, PlaylistSync.PostfixLeavesLinkDir | PlaylistSync.Postfixed, PlaylistSync.PostfixedStaysInLinkDir |
| Playlister.py:273-275 | `os.path.join` adds `/` after a base that ends in `\`, and that `/` then becomes a second `\` | base `E:\Music\` and relative path `a/b.flac`: `E:\Music\\a\b.flac`, which never equals the entry `E:\Music\a\b.flac` | `E:\Music\a\b.flac` | medium, not executed | PlaylistSync.ExtPathAsWritten, PlaylistSync.ExtPathDoublesSeparator | PlaylistSync.ExtPath, PlaylistSync.ExtPathBackslash |
| Playlister.py:276-282 | the duplicate test only looks at the lines read at start, not at lines written in the same run | two links to the same file, both accepted: the path is appended twice | the path is appended once | medium, not executed | PlaylistSync.PlanAsWritten, PlaylistSync.SameLinkWrittenTwice | PlaylistSync.Plan, PlaylistSync.PlanWritesNew |
| Playlister.py:364-374 | after a second clash with a different file, a random-postfixed name is computed but `doCreate` stays false, so no link is made | two existing healthy links `X.flac` and `X (A ∕ B).flac` to other files: the entry gets no link | the link is created under the random-postfixed name | medium, not executed | PlaylistSync.LinkActionAsWritten, PlaylistSync.SecondClashDropsLink | PlaylistSync.LinkActionOf |
| Audite.py:727-736 | the message for a non-numeric tag without separator names `strNumber`, which that branch never assigns, so the check raises `UnboundLocalError` (also Audite.py:882-886 for `trkn`) | MP3 tag `TRCK=Intro` | the tag is reported as invalid and the total as missing | high, not executed | Tags.PairTagAsWritten, Tags.PairTagCrashes | Tags.PairTag, Tags.PairTagReportsInvalid |
| Audite.py:1848 | the cue list is sorted by full path text while the sub-albums are sorted by name, and `coerce` reads the gathered totals, titles and INDEX times by sub-album position | sub-albums `CD1` and `CD1 - Bonus`, each with a cuesheet: `CD1 - Bonus/b.cue` sorts before `CD1/a.cue` because a space is below `/`, so position 0 holds the bonus disc's tracks | the i-th gathered entry belongs to the i-th sub-album | high, not executed | Unflat.CueStageAsWritten, Unflat.CueSortMisaligns | Unflat.CueStage, Complex.CueListOfAll |
| Audite.py:1847 | only the sub-album names are sorted; the totals and titles built in listing order (Audite.py:1806-1830) are rebuilt only from cuesheets (Audite.py:1854-1862), and `coerce` pairs the `i`-th sorted name with the `i`-th total (Audite.py:2212) | no cuesheets, `CD2` of 5 tracks listed before `CD1` of 12: CD1 keeps 01..12, the base becomes 5, and CD2's tracks become 06..10, numbers CD1 already has | each sub-album's total and titles move with its name | high, not executed | Unflat.SetupAsWritten, Unflat.ListedOutOfOrderOverlaps | Unflat.SetupListed, Unflat.SetupListedOwnTotals, Complex.ShiftedNumbersDisjoint |
