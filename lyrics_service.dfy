/**
 * LyricsService: the artist and title guessed from an audio file's name,
 * the choice between the Genius lookup, the lyrics.ovh lookup and the
 * word-by-word fallback, and the naive uniform timing of fetched lyrics.
 *
 * The network is not modelled: what each lookup yields is an input
 * (record Sources).  `genius` is the lyrics text extracted from the Genius
 * page, or None when the search, the page fetch or the extraction failed;
 * `ovh` is the "lyrics" property of a successful lyrics.ovh response (a
 * JSON null read as ""), or None when the request failed or had no such
 * property.
 */
module LyricsService {
  import opened Options
  import opened Strings
  import opened Lyrics

  const LyricsStepMs: int := 3000
  const WordStepMs: int := 2000

  datatype Sources = Sources(token: string, genius: Option<string>, ovh: Option<string>)

  // ---------------------------------------------------------------------
  // File name

  /** The last position of a character of cs in s. */
  function LastIndex(s: string, cs: set<char>): (r: Option<nat>)
    ensures r.Some? ==> r.value < |s|
  {
    if |s| == 0 then None
    else if s[|s| - 1] in cs then Some(|s| - 1)
    else LastIndex(s[..|s| - 1], cs)
  }

  /** LastIndex finds a character of cs with none after it, or reports
      that there is none. */
  lemma {:induction false} LastIndexSpec(s: string, cs: set<char>)
    ensures var r := LastIndex(s, cs);
      (r.Some? ==> s[r.value] in cs && forall j :: r.value < j < |s| ==> s[j] !in cs)
      && (r.None? ==> forall j :: 0 <= j < |s| ==> s[j] !in cs)
  {
    if |s| > 0 && s[|s| - 1] !in cs {
      LastIndexSpec(s[..|s| - 1], cs);
    }
  }

  /** Path separators on Windows. */
  const DirSeps: set<char> := {'\\', '/'}

  /** `Path.GetFileName`: the text after the last separator. */
  function FileName(path: string): (r: string)
    ensures |r| <= |path|
  {
    match LastIndex(path, DirSeps)
    case None => path
    case Some(i) => path[i + 1..]
  }

  /** The file name is the longest suffix free of separators. */
  lemma FileNameSpec(path: string)
    ensures var r := FileName(path);
      r == path[|path| - |r|..]
      && (forall j :: 0 <= j < |r| ==> r[j] !in DirSeps)
      && (|r| < |path| ==> path[|path| - |r| - 1] in DirSeps)
  {
    LastIndexSpec(path, DirSeps);
  }

  /** `Path.GetFileNameWithoutExtension`: the file name cut at its last '.'. */
  function FileNameWithoutExtension(path: string): (r: string)
    ensures |r| <= |FileName(path)|
  {
    var name := FileName(path);
    match LastIndex(name, {'.'})
    case None => name
    case Some(i) => name[..i]
  }

  /** The name without extension is the file name up to its last '.', or
      the whole file name when it has no '.'. */
  lemma FileNameWithoutExtensionSpec(path: string)
    ensures var name, r := FileName(path), FileNameWithoutExtension(path);
      r == name[..|r|] &&
      (|r| < |name| ==> name[|r|] == '.' && forall j :: |r| < j < |name| ==> name[j] != '.') &&
      (|r| == |name| ==> forall j :: 0 <= j < |name| ==> name[j] != '.')
  {
    LastIndexSpec(FileName(path), {'.'});
  }

  /** `s.Replace(a, b)` for characters. */
  function ReplaceChar(s: string, a: char, b: char): (r: string)
    ensures |r| == |s|
    ensures forall i :: 0 <= i < |s| ==> r[i] == if s[i] == a then b else s[i]
  {
    seq(|s|, i requires 0 <= i < |s| => if s[i] == a then b else s[i])
  }

  /** The name the lookups start from: the file name without extension,
      underscores read as spaces, trimmed. */
  function BaseName(path: string): string {
    Trim(ReplaceChar(FileNameWithoutExtension(path), '_', ' '))
  }

  /** The base name is an infix of the file name with '_' turned into ' ';
      it has no underscore and no white space at either end. */
  lemma BaseNameSpec(path: string)
    ensures var r := BaseName(path);
      '_' !in r && (r == [] || (!IsWhite(r[0]) && !IsWhite(r[|r| - 1])))
    ensures var u := ReplaceChar(FileNameWithoutExtension(path), '_', ' ');
      var a := |u| - |TrimStart(u)|;
      a + |BaseName(path)| <= |u| && BaseName(path) == u[a .. a + |BaseName(path)|]
  {
    var u := ReplaceChar(FileNameWithoutExtension(path), '_', ' ');
    TrimInfix(u);
    TrimEnds(u);
    TrimChars(u);
    assert '_' !in u;
  }

  // ---------------------------------------------------------------------
  // Artist / title

  /** The suffix left after dropping a leading run of c. */
  function DropLeading(s: string, c: char): (r: string)
    ensures |r| <= |s|
  {
    if s == [] || s[0] != c then s else DropLeading(s[1..], c)
  }

  /** The first position of c in s. */
  function Find(s: string, c: char): (r: Option<nat>)
    ensures r.Some? ==> r.value < |s| && s[r.value] == c
  {
    if |s| == 0 then None
    else if s[0] == c then Some(0)
    else match Find(s[1..], c)
      case None => None
      case Some(i) => Some(i + 1)
  }

  /** Find reports the first c, or that there is none. */
  lemma {:induction false} FindSpec(s: string, c: char)
    ensures var r := Find(s, c);
      (r.Some? ==> forall j :: 0 <= j < r.value ==> s[j] != c) && (r.None? ==> c !in s)
  {
    if |s| > 0 && s[0] != c {
      FindSpec(s[1..], c);
      assert s == [s[0]] + s[1..];
    }
  }

  /** `s.Split(c, 2, StringSplitOptions.RemoveEmptyEntries)` (.NET Core):
      empty entries before the first kept piece are skipped, then the
      separators right after it, and the remainder is the second piece. */
  function Split2(s: string, c: char): (parts: seq<string>)
    ensures |parts| <= 2
  {
    var s1 := DropLeading(s, c);
    match Find(s1, c)
    case None => if s1 == [] then [] else [s1]
    case Some(i) =>
      var rest := DropLeading(s1[i + 1..], c);
      if rest == [] then [s1[..i]] else [s1[..i], rest]
  }

  /** n copies of c. */
  function Run(c: char, n: nat): (r: string)
    ensures |r| == n && forall i :: 0 <= i < n ==> r[i] == c
  {
    seq(n, _ => c)
  }

  lemma RunAppend(c: char, m: nat, n: nat)
    ensures Run(c, m) + Run(c, n) == Run(c, m + n)
  {
  }

  /** What DropLeading removed is a run of c, and what it kept does not
      start with c. */
  lemma {:induction false} DropLeadingRun(s: string, c: char)
    ensures var r := DropLeading(s, c);
      s == Run(c, |s| - |r|) + r && (r == [] || r[0] != c)
  {
    if s == [] || s[0] != c {
      assert Run(c, 0) + s == s;
    } else {
      var r := DropLeading(s, c);
      DropLeadingRun(s[1..], c);
      RunAppend(c, 1, |s| - 1 - |r|);
      assert Run(c, 1) == [c];
      AppendAssoc([c], Run(c, |s| - 1 - |r|), r);
      assert s == [c] + s[1..];
    }
  }

  /** The pieces of a split are non-empty; of two pieces, the first is
      free of c and the second does not start with it. */
  lemma Split2Shape(s: string, c: char)
    ensures var parts := Split2(s, c);
      (forall k :: 0 <= k < |parts| ==> parts[k] != [])
      && (|parts| == 2 ==> c !in parts[0] && parts[1][0] != c)
  {
    var s1 := DropLeading(s, c);
    DropLeadingRun(s, c);
    FindSpec(s1, c);
    if Find(s1, c).Some? {
      var i := Find(s1, c).value;
      DropLeadingRun(s1[i + 1..], c);
      assert s1[0] != c;
    }
  }

  /** Cutting at a found separator. */
  lemma CutAt(s: string, i: nat, c: char)
    requires i < |s| && s[i] == c
    ensures s == s[..i] + Run(c, 1) + s[i + 1..]
  {
    assert Run(c, 1) == [c];
  }

  /** Regrouping concatenations (stated generically, where it is cheap). */
  lemma Regroup4<T>(p: seq<T>, q: seq<T>, u: seq<T>, v: seq<T>)
    ensures p + (q + u + v) == p + q + (u + v)
  {
  }

  lemma Regroup5<T>(p: seq<T>, q: seq<T>, u: seq<T>, v: seq<T>, w: seq<T>)
    ensures p + (q + u + (v + w)) == p + q + (u + v) + w
  {
  }

  /** Two pieces: the string is a run of c, the first piece, a non-empty
      run of c and the second piece. */
  lemma Split2Pair(s: string, c: char) returns (a: nat, b: nat)
    requires |Split2(s, c)| == 2
    ensures b >= 1 && s == Run(c, a) + Split2(s, c)[0] + Run(c, b) + Split2(s, c)[1]
  {
    var s1 := DropLeading(s, c);
    var i := Find(s1, c).value;
    var t := s1[i + 1..];
    var rest := DropLeading(t, c);
    assert Split2(s, c) == [s1[..i], rest];
    a := |s| - |s1|;
    b := 1 + |t| - |rest|;
    var m := |t| - |rest|;
    DropLeadingRun(s, c);
    CutAt(s1, i, c);
    DropLeadingRun(t, c);
    RunAppend(c, 1, m);
    var x, ra, r1, rm := s1[..i], Run(c, a), Run(c, 1), Run(c, m);
    assert s == ra + s1 && s1 == x + r1 + (rm + rest);
    Regroup5(ra, x, r1, rm, rest);
  }

  /** At most one piece: the string is a run of c, the piece (free of c)
      and another run of c. */
  lemma Split2Single(s: string, c: char) returns (a: nat, b: nat)
    requires |Split2(s, c)| < 2
    ensures |Split2(s, c)| == 0 ==> s == Run(c, |s|)
    ensures |Split2(s, c)| == 1 ==>
      c !in Split2(s, c)[0] && s == Run(c, a) + Split2(s, c)[0] + Run(c, b)
  {
    var s1 := DropLeading(s, c);
    a := |s| - |s1|;
    DropLeadingRun(s, c);
    FindSpec(s1, c);
    match Find(s1, c)
    case None =>
      b := 0;
      assert s1 + Run(c, 0) == s1;
    case Some(i) =>
      var t := s1[i + 1..];
      b := 1 + |t|;
      var rest := DropLeading(t, c);
      var x := s1[..i];
      assert Split2(s, c) == if rest == [] then [x] else [x, rest];
      assert rest == [];
      DropLeadingRun(t, c);
      assert t == Run(c, |t|) + [];
      CutAt(s1, i, c);
      RunAppend(c, 1, |t|);
      var ra, r1, rt := Run(c, a), Run(c, 1), Run(c, |t|);
      assert c !in x;
      assert s == ra + s1 && s1 == x + r1 + rt;
      Regroup4(ra, x, r1, rt);
  }

  /** The inverse direction: a piece free of c, one c and a piece not
      starting with c split back into those two pieces (later c's stay in
      the second). */
  lemma Split2OfPair(x: string, y: string, c: char)
    requires x != [] && c !in x && y != [] && y[0] != c
    ensures Split2(x + [c] + y, c) == [x, y]
  {
    var s := x + [c] + y;
    assert s[0] == x[0];
    assert DropLeading(s, c) == s;
    var f := Find(s, c);
    FindSpec(s, c);
    assert s[|x|] == c;
    assert forall j :: 0 <= j < |x| ==> s[j] == x[j];
    assert f == Some(|x|);
    assert s[|x| + 1..] == y;
    assert s[..|x|] == x;
  }

  /** Artist and title guessed from the base name: the two trimmed pieces
      of a '-' split, or no artist and the whole name. */
  function SplitName(name: string): (string, string) {
    var parts := Split2(name, '-');
    if |parts| == 2 then (Trim(parts[0]), Trim(parts[1])) else ("", name)
  }

  /** "Artist-Title" names: the title keeps every later '-'. */
  lemma SplitNameOfPair(x: string, y: string)
    requires x != [] && '-' !in x && y != [] && y[0] != '-'
    ensures SplitName(x + "-" + y) == (Trim(x), Trim(y))
  {
    Split2OfPair(x, y, '-');
  }

  /** A name without '-' has no artist. */
  lemma SplitNameNoDash(name: string)
    requires '-' !in name
    ensures SplitName(name) == ("", name)
  {
  }

  // ---------------------------------------------------------------------
  // Timed lines

  const LineBreaks: set<char> := {'\n', '\r'}

  function TrimAll(parts: seq<string>): (r: seq<string>)
    ensures |r| == |parts| && forall k :: 0 <= k < |parts| ==> r[k] == Trim(parts[k])
  {
    seq(|parts|, k requires 0 <= k < |parts| => Trim(parts[k]))
  }

  /** The non-empty segments between line breaks. */
  function Segments(raw: string): seq<string> {
    NonEmpty(SplitChars(raw, LineBreaks))
  }

  /** ParseLyricsToLines as a value: one line per segment, trimmed, at
      3-second steps. */
  function ParsedLines(raw: string): seq<LyricsLine> {
    Timed(TrimAll(Segments(raw)), LyricsStepMs)
  }

  /** No segment holds a line break, and trimming keeps it so. */
  lemma SegmentsFree(raw: string)
    ensures forall k :: 0 <= k < |Segments(raw)| ==>
      forall ch :: ch in Trim(Segments(raw)[k]) ==> ch !in LineBreaks
  {
    var segs := Segments(raw);
    SplitCharsNoSep(raw, LineBreaks);
    forall k | 0 <= k < |segs|
      ensures forall ch :: ch in Trim(segs[k]) ==> ch !in LineBreaks
    {
      var seg := segs[k];
      assert seg in SplitChars(raw, LineBreaks);
      TrimChars(seg);
    }
  }

  /** One line per non-empty segment, in order, trimmed, free of line
      breaks, line i at i * 3000 ms, strictly increasing. */
  lemma ParsedLinesSpec(raw: string)
    ensures var ls := ParsedLines(raw);
      |ls| == |Segments(raw)| &&
      (forall i :: 0 <= i < |ls| ==> ls[i].text == Trim(Segments(raw)[i]) && ls[i].timestamp == i * LyricsStepMs) &&
      (forall i, j :: 0 <= i < |ls| && 0 <= j < |ls[i].text| ==> ls[i].text[j] !in LineBreaks) &&
      (forall i, j :: 0 <= i < j < |ls| ==> ls[i].timestamp < ls[j].timestamp)
  {
    var ls := ParsedLines(raw);
    SegmentsFree(raw);
    TimedIncreasing(TrimAll(Segments(raw)), LyricsStepMs);
    forall i, j | 0 <= i < |ls| && 0 <= j < |ls[i].text|
      ensures ls[i].text[j] !in LineBreaks
    {
      assert ls[i].text[j] in Trim(Segments(raw)[i]);
    }
  }

  /** The inverse of joining lines with "\n": lyrics whose lines are
      non-empty, already trimmed and free of line breaks come back as the
      same texts. */
  lemma ParsedLinesOfJoin(texts: seq<string>)
    requires forall k :: 0 <= k < |texts| ==> texts[k] != [] && Trim(texts[k]) == texts[k]
    requires forall k, i :: 0 <= k < |texts| && 0 <= i < |texts[k]| ==> texts[k][i] !in LineBreaks
    ensures Texts(ParsedLines(Join(texts, "\n"))) == texts
  {
    PiecesOfJoin(texts, '\n', LineBreaks);
    assert Segments(Join(texts, "\n")) == texts;
    assert TrimAll(texts) == texts;
  }

  /** The fallback: one line per space-separated word of the title at
      2-second steps. */
  function WordLines(title: string): seq<LyricsLine> {
    Timed(Words(title), WordStepMs)
  }

  /** Word i at i * 2000 ms; each text is a non-empty word without spaces,
      and a title of joined words gives those words back. */
  lemma WordLinesSpec(title: string)
    ensures var ls := WordLines(title);
      Texts(ls) == Words(title) &&
      (forall i :: 0 <= i < |ls| ==> ls[i].timestamp == i * WordStepMs && ls[i].text != [] && ' ' !in ls[i].text) &&
      (forall i, j :: 0 <= i < j < |ls| ==> ls[i].timestamp < ls[j].timestamp)
  {
    WordsShape(title);
    TimedIncreasing(Words(title), WordStepMs);
  }

  lemma WordLinesOfJoin(words: seq<string>)
    requires forall k :: 0 <= k < |words| ==> words[k] != [] && ' ' !in words[k]
    ensures Texts(WordLines(Join(words, " "))) == words
  {
    WordsOfJoin(words);
  }

  // ---------------------------------------------------------------------
  // Source selection

  /** Genius is asked only with a token and both artist and title. */
  predicate GeniusTried(token: string, artist: string, title: string) {
    !IsBlank(token) && !IsBlank(artist) && !IsBlank(title)
  }

  /** lyrics.ovh is asked only with both artist and title. */
  predicate OvhTried(artist: string, title: string) {
    !IsBlank(artist) && !IsBlank(title)
  }

  /** The source choice for a guessed artist and title. */
  function Select(artist: string, title: string, src: Sources): seq<LyricsLine> {
    if GeniusTried(src.token, artist, title) && src.genius.Some? && !IsBlank(src.genius.value) then
      ParsedLines(src.genius.value)
    else if OvhTried(artist, title) && src.ovh.Some? then
      ParsedLines(src.ovh.value)
    else
      WordLines(title)
  }

  /** FetchLyricsByFilenameAsync as a value. */
  function Fetch(path: string, src: Sources): seq<LyricsLine> {
    var (artist, title) := SplitName(BaseName(path));
    Select(artist, title, src)
  }

  /** Without an artist (no usable '-' in the name) neither service is
      asked: the result is the word fallback whatever they would answer. */
  lemma FetchWithoutArtist(path: string, src: Sources)
    requires IsBlank(SplitName(BaseName(path)).0)
    ensures Fetch(path, src) == WordLines(SplitName(BaseName(path)).1)
  {
  }

  /** Without a token the Genius answer plays no part. */
  lemma FetchIgnoresGeniusWithoutToken(path: string, src: Sources, genius: Option<string>)
    requires IsBlank(src.token)
    ensures Fetch(path, src) == Fetch(path, src.(genius := genius))
  {
  }

  /** A successful lyrics.ovh answer with empty lyrics yields no lines (not
      the word fallback), unless Genius already answered. */
  lemma FetchEmptyOvh(path: string, src: Sources)
    requires OvhTried(SplitName(BaseName(path)).0, SplitName(BaseName(path)).1)
    requires src.ovh == Some("") && (src.genius.None? || IsBlank(src.genius.value))
    ensures Fetch(path, src) == []
  {
    assert Segments("") == [];
  }

  /** Genius wins over lyrics.ovh whenever it was asked and answered with
      non-blank lyrics. */
  lemma FetchPrefersGenius(path: string, src: Sources)
    requires var (artist, title) := SplitName(BaseName(path)); GeniusTried(src.token, artist, title)
    requires src.genius.Some? && !IsBlank(src.genius.value)
    ensures Fetch(path, src) == ParsedLines(src.genius.value)
  {
  }

  // ---------------------------------------------------------------------
  // Methods

  method ParseLyricsToLines(raw: string) returns (lines: seq<LyricsLine>)
    ensures lines == ParsedLines(raw)
  {
    var parts := Segments(raw);
    lines := [];
    var t := 0;
    for k := 0 to |parts|
      invariant t == k * LyricsStepMs
      invariant lines == Timed(TrimAll(parts[..k]), LyricsStepMs)
    {
      lines := lines + [LyricsLine(t, Trim(parts[k]), false)];
      t := t + LyricsStepMs;
    }
    assert parts[..|parts|] == parts;
  }

  method WordFallback(title: string) returns (lines: seq<LyricsLine>)
    ensures lines == WordLines(title)
  {
    var words := Words(title);
    lines := [];
    var t := 0;
    for k := 0 to |words|
      invariant t == k * WordStepMs
      invariant lines == Timed(words[..k], WordStepMs)
    {
      lines := lines + [LyricsLine(t, words[k], false)];
      t := t + WordStepMs;
    }
    assert words[..|words|] == words;
  }

  method SelectLyrics(artist: string, title: string, src: Sources) returns (lines: seq<LyricsLine>)
    ensures lines == Select(artist, title, src)
  {
    if !IsBlank(src.token) && !IsBlank(artist) && !IsBlank(title) {
      if src.genius.Some? && !IsBlank(src.genius.value) {
        lines := ParseLyricsToLines(src.genius.value);
        return;
      }
    }
    if !IsBlank(artist) && !IsBlank(title) {
      if src.ovh.Some? {
        lines := ParseLyricsToLines(src.ovh.value);
        return;
      }
    }
    lines := WordFallback(title);
  }

  method FetchLyricsByFilename(path: string, src: Sources) returns (lines: seq<LyricsLine>)
    ensures lines == Fetch(path, src)
  {
    var name := BaseName(path);
    var (artist, title) := SplitName(name);
    lines := SelectLyrics(artist, title, src);
  }
}
