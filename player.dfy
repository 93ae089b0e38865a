/**
 * The player window (MainWindow): the elapsed-time text, the seek-bar
 * clamps, the regrouping of fetched lyrics into 6-word lines, the
 * detection of the file-name fallback, the title filter, the highlighted
 * line, and the play/pause and display-scale state.
 *
 * Media time and length are integer milliseconds supplied by the caller
 * (the media player is not modelled).  A lyric text block is identified
 * by its position in the rendered list, which is how the window tells
 * the line objects apart.
 */
module Player {
  import opened Options
  import opened Strings
  import opened Lyrics
  import LyricsService
  import Fft

  // ---------------------------------------------------------------------
  // Time text

  function DigitChar(d: nat): (c: char)
    requires d < 10
    ensures '0' <= c <= '9'
  {
    ('0' as int + d) as char
  }

  predicate AllDigits(s: string) {
    forall i :: 0 <= i < |s| ==> '0' <= s[i] <= '9'
  }

  /** The decimal form of n, as `{0}` formats an int. */
  function Digits(n: nat): (s: string)
    ensures |s| >= 1 && AllDigits(s)
  {
    if n < 10 then [DigitChar(n)] else Digits(n / 10) + [DigitChar(n % 10)]
  }

  /** `{0:D2}`: at least two digits, for values below 100. */
  function Pad2(n: nat): (s: string)
    requires n < 100
    ensures |s| == 2 && AllDigits(s)
  {
    [DigitChar(n / 10), DigitChar(n % 10)]
  }

  /** The number a string of decimal digits denotes. */
  function ValueOf(s: string): nat
    requires AllDigits(s)
  {
    if s == [] then 0 else ValueOf(s[..|s| - 1]) * 10 + (s[|s| - 1] as int - '0' as int)
  }

  /** Digits is the inverse of reading the number back. */
  lemma {:induction false} ValueOfDigits(n: nat)
    ensures ValueOf(Digits(n)) == n
  {
    if n >= 10 {
      ValueOfDigits(n / 10);
      var s := Digits(n);
      assert s[..|s| - 1] == Digits(n / 10);
    }
  }

  lemma ValueOfPad2(n: nat)
    requires n < 100
    ensures ValueOf(Pad2(n)) == n
  {
    var s := Pad2(n);
    var hi := [DigitChar(n / 10)];
    assert s[..|s| - 1] == hi;
    assert hi[..0] == [];
    assert ValueOf(hi) == n / 10;
  }

  const MsPerHour: int := 3600000

  /** Dividing by b and then by c is dividing by b * c. */
  lemma DivDiv(a: nat, b: nat, c: nat)
    requires b > 0 && c > 0
    ensures a / b / c == a / (b * c)
  {
    var q, r := a / b, a % b;
    var q2, r2 := q / c, q % c;
    assert b * r2 <= b * (c - 1) by { Fft.MulMonotone(r2, c, b); }
    assert a == (b * c) * q2 + (b * r2 + r) by {
      assert a == b * q + r;
      assert q == c * q2 + r2;
      assert b * q == b * c * q2 + b * r2;
    }
    Fft.DivModUnique(a, b * c, q2, b * r2 + r);
  }

  /** Hours, minutes of the hour and seconds of the minute add up to the
      whole seconds. */
  lemma ClockParts(ms: nat)
    ensures (ms / MsPerHour * 60 + (ms / 60000) % 60) * 60 + (ms / 1000) % 60 == ms / 1000
    ensures ms / 60000 * 60 + (ms / 1000) % 60 == ms / 1000
  {
    var secs := ms / 1000;
    DivDiv(ms, 1000, 60);
    DivDiv(ms, 60000, 60);
    var mins := ms / 60000;
    assert mins == secs / 60;
    assert ms / MsPerHour == mins / 60;
    assert mins / 60 * 60 + mins % 60 == mins;
    assert secs / 60 * 60 + secs % 60 == secs;
  }

  /** FormatTime for a non-negative time: `H:MM:SS` from one hour on,
      otherwise `M:SS` with whole minutes. */
  function FormatTime(ms: nat): string {
    var secs := ms / 1000;
    if ms >= MsPerHour then
      Digits(ms / MsPerHour) + ":" + Pad2((ms / 60000) % 60) + ":" + Pad2(secs % 60)
    else
      Digits(ms / 60000) + ":" + Pad2(secs % 60)
  }

  /** The colon-separated fields of a time text. */
  function Fields(text: string): seq<string> {
    NonEmpty(SplitChars(text, {':'}))
  }

  /** The whole seconds a text of two or three digit fields denotes. */
  function Seconds(fields: seq<string>): int
    requires forall k :: 0 <= k < |fields| ==> AllDigits(fields[k])
  {
    if |fields| == 3 then (ValueOf(fields[0]) * 60 + ValueOf(fields[1])) * 60 + ValueOf(fields[2])
    else if |fields| == 2 then ValueOf(fields[0]) * 60 + ValueOf(fields[1])
    else 0
  }

  lemma DigitsNoColon(s: string)
    requires AllDigits(s)
    ensures forall i :: 0 <= i < |s| ==> s[i] !in {':'}
  {
  }

  /** The fields FormatTime writes: hours, minutes and seconds from one
      hour on, otherwise minutes and seconds. */
  function TimeFields(ms: nat): seq<string> {
    var secs := ms / 1000;
    if ms >= MsPerHour then [Digits(ms / MsPerHour), Pad2((ms / 60000) % 60), Pad2(secs % 60)]
    else [Digits(ms / 60000), Pad2(secs % 60)]
  }

  lemma {:induction false} FieldsOfFormatTime(ms: nat)
    ensures Fields(FormatTime(ms)) == TimeFields(ms)
  {
    var f := TimeFields(ms);
    forall k | 0 <= k < |f| ensures f[k] != [] && forall i :: 0 <= i < |f[k]| ==> f[k][i] !in {':'} {
      DigitsNoColon(f[k]);
    }
    if ms >= MsPerHour {
      var h, m, s := f[0], f[1], f[2];
      assert [h, m, s][1..] == [m, s];
      assert [m, s][1..] == [s];
      assert Join([m, s], ":") == m + ":" + s;
      assert Join([h, m, s], ":") == h + ":" + (m + ":" + s);
      assert FormatTime(ms) == Join([h, m, s], ":");
      assert f == [h, m, s];
      PiecesOfJoin(f, ':', {':'});
    } else {
      assert FormatTime(ms) == Join([f[0], f[1]], ":");
      assert f == [f[0], f[1]];
      PiecesOfJoin(f, ':', {':'});
    }
  }

  /** The text has three fields from one hour on and two below; the
      minute and second fields are two digits below 60; and reading the
      fields back gives the time in whole seconds. */
  lemma {:induction false} FormatTimeSpec(ms: nat)
    ensures var f := Fields(FormatTime(ms));
      (|f| == if ms >= MsPerHour then 3 else 2) &&
      (forall k :: 0 <= k < |f| ==> AllDigits(f[k])) &&
      (forall k :: 1 <= k < |f| ==> |f[k]| == 2 && ValueOf(f[k]) < 60) &&
      Seconds(f) == ms / 1000
  {
    FieldsOfFormatTime(ms);
    var secs := ms / 1000;
    ValueOfPad2(secs % 60);
    ClockParts(ms);
    if ms >= MsPerHour {
      ValueOfDigits(ms / MsPerHour);
      ValueOfPad2((ms / 60000) % 60);
    } else {
      ValueOfDigits(ms / 60000);
    }
  }

  // ---------------------------------------------------------------------
  // Seeking

  function MinReal(a: real, b: real): real { if a <= b then a else b }
  function MaxReal(a: real, b: real): real { if a >= b then a else b }
  function MinInt(a: int, b: int): int { if a <= b then a else b }
  function MaxInt(a: int, b: int): int { if a >= b then a else b }

  /** The pointer's position along the track, which is centred in the
      canvas, as a fraction of the track width. */
  function Relative(canvasX: real, canvasWidth: real, trackWidth: real): real
    requires trackWidth > 0.0
  {
    (canvasX - (canvasWidth - trackWidth) / 2.0) / trackWidth
  }

  /** The seek position: the relative position clamped into [0, 1]. */
  function SeekPosition(canvasX: real, canvasWidth: real, trackWidth: real): (pos: real)
    requires trackWidth > 0.0
    ensures 0.0 <= pos <= 1.0
  {
    MaxReal(0.0, MinReal(1.0, Relative(canvasX, canvasWidth, trackWidth)))
  }

  /** The clamp is the identity inside the track, pins the ends, and the
      position never decreases as the pointer moves right. */
  lemma SeekPositionSpec(canvasX: real, canvasX2: real, canvasWidth: real, trackWidth: real)
    requires trackWidth > 0.0
    ensures var rel := Relative(canvasX, canvasWidth, trackWidth);
      (0.0 <= rel <= 1.0 ==> SeekPosition(canvasX, canvasWidth, trackWidth) == rel) &&
      (rel < 0.0 ==> SeekPosition(canvasX, canvasWidth, trackWidth) == 0.0) &&
      (rel > 1.0 ==> SeekPosition(canvasX, canvasWidth, trackWidth) == 1.0)
    ensures canvasX <= canvasX2 ==>
      SeekPosition(canvasX, canvasWidth, trackWidth) <= SeekPosition(canvasX2, canvasWidth, trackWidth)
  {
    if canvasX <= canvasX2 {
      var off := (canvasWidth - trackWidth) / 2.0;
      assert canvasX - off <= canvasX2 - off;
      DivMonotone(canvasX - off, canvasX2 - off, trackWidth);
    }
  }

  lemma DivMonotone(a: real, b: real, d: real)
    requires a <= b && d > 0.0
    ensures a / d <= b / d
  {
    assert b / d - a / d == (b - a) / d;
  }

  /** The media time a seek sets: the position times the length truncated
      to whole milliseconds, clamped into [0, length]. */
  function SeekTarget(pos: real, length: int): int
    requires 0.0 <= pos <= 1.0
  {
    var target := (pos * length as real).Floor;
    MaxInt(0, MinInt(target, length))
  }

  /** For a media of positive length the target lies in [0, length]; the
      clamp never changes the truncated product; the ends of the track
      map to the ends of the media. */
  lemma SeekTargetSpec(pos: real, length: int)
    requires 0.0 <= pos <= 1.0 && length > 0
    ensures 0 <= SeekTarget(pos, length) <= length
    ensures SeekTarget(pos, length) == (pos * length as real).Floor
    ensures pos == 0.0 ==> SeekTarget(pos, length) == 0
    ensures pos == 1.0 ==> SeekTarget(pos, length) == length
  {
    assert 0.0 <= pos * length as real <= length as real;
  }

  // ---------------------------------------------------------------------
  // Regrouping into 6-word lines

  const ChunkSize: nat := 6
  const ChunkStepMs: int := 3000

  /** The words of all lines, in order. */
  function AllWords(lines: seq<LyricsLine>): seq<string> {
    if |lines| == 0 then [] else AllWords(lines[..|lines| - 1]) + Words(lines[|lines| - 1].text)
  }

  lemma AllWordsSnoc(ls: seq<LyricsLine>, x: LyricsLine)
    ensures AllWords(ls + [x]) == AllWords(ls) + Words(x.text)
  {
    assert (ls + [x])[..|ls|] == ls;
  }

  lemma {:induction false} AllWordsAppend(a: seq<LyricsLine>, b: seq<LyricsLine>)
    ensures AllWords(a + b) == AllWords(a) + AllWords(b)
    decreases |b|
  {
    if |b| == 0 {
      assert a + b == a;
    } else {
      var b0, x := b[..|b| - 1], b[|b| - 1];
      assert b == b0 + [x];
      assert a + b == (a + b0) + [x];
      AllWordsAppend(a, b0);
      AllWordsSnoc(a + b0, x);
      AllWordsSnoc(b0, x);
      AppendAssoc(AllWords(a), AllWords(b0), Words(x.text));
    }
  }

  /** Every collected word is non-empty and holds no space. */
  lemma {:induction false} AllWordsShape(lines: seq<LyricsLine>)
    ensures forall k :: 0 <= k < |AllWords(lines)| ==> AllWords(lines)[k] != [] && ' ' !in AllWords(lines)[k]
    decreases |lines|
  {
    if |lines| > 0 {
      AllWordsShape(lines[..|lines| - 1]);
      WordsShape(lines[|lines| - 1].text);
    }
  }

  /** Consecutive groups of six words joined by spaces; the last group
      holds the 1 to 6 words that remain. */
  function Chunks(words: seq<string>): (cs: seq<string>)
    decreases |words|
  {
    if |words| == 0 then []
    else
      var take := MinInt(ChunkSize, |words|);
      [Join(words[..take], " ")] + Chunks(words[take..])
  }

  lemma SliceOfDrop<T>(s: seq<T>, d: nat, lo: nat, hi: nat)
    requires d <= |s| && lo <= hi <= |s| - d
    ensures s[d..][lo..hi] == s[d + lo..d + hi]
  {
  }

  /** There are ceil(n / 6) chunks, and chunk k joins words 6k up to
      6k + 6 (or the end). */
  lemma {:induction false} ChunksSpec(words: seq<string>)
    ensures |Chunks(words)| == (|words| + 5) / 6
    ensures forall k :: 0 <= k < |Chunks(words)| ==>
      6 * k < |words| && Chunks(words)[k] == Join(words[6 * k .. MinInt(6 * k + 6, |words|)], " ")
    decreases |words|
  {
    if |words| > 0 {
      var take := MinInt(ChunkSize, |words|);
      var rest := words[take..];
      ChunksSpec(rest);
      forall k | 1 <= k < |Chunks(words)|
        ensures 6 * k < |words| && Chunks(words)[k] == Join(words[6 * k .. MinInt(6 * k + 6, |words|)], " ")
      {
        assert Chunks(words)[k] == Chunks(rest)[k - 1];
        assert take == 6 && |rest| == |words| - 6;
        var lo, hi := 6 * (k - 1), MinInt(6 * (k - 1) + 6, |rest|);
        assert lo + 6 == 6 * k && hi + 6 == MinInt(6 * k + 6, |words|);
        SliceOfDrop(words, 6, lo, hi);
      }
    }
  }

  /** The same lines one step later. */
  function ShiftTimes(ls: seq<LyricsLine>): (r: seq<LyricsLine>)
    ensures Texts(r) == Texts(ls)
  {
    seq(|ls|, i requires 0 <= i < |ls| => ls[i].(timestamp := ls[i].timestamp + ChunkStepMs))
  }

  lemma {:induction false} AllWordsRetimed(ls: seq<LyricsLine>)
    ensures AllWords(ShiftTimes(ls)) == AllWords(ls)
    decreases |ls|
  {
    if |ls| > 0 {
      var front := ls[..|ls| - 1];
      assert ShiftTimes(ls)[..|ls| - 1] == ShiftTimes(front);
      AllWordsRetimed(front);
    }
  }

  lemma TimedCons(c: string, cs: seq<string>)
    ensures Timed([c] + cs, ChunkStepMs) == Timed([c], ChunkStepMs) + ShiftTimes(Timed(cs, ChunkStepMs))
  {
  }

  lemma AllWordsSingle(l: LyricsLine)
    ensures AllWords([l]) == Words(l.text)
  {
    assert [l][..0] == [];
  }

  /** Splitting the chunks again at spaces gives back every word, in order. */
  lemma {:induction false} ChunksRoundTrip(words: seq<string>)
    requires forall k :: 0 <= k < |words| ==> words[k] != [] && ' ' !in words[k]
    ensures AllWords(Timed(Chunks(words), ChunkStepMs)) == words
    decreases |words|
  {
    if |words| > 0 {
      var take := MinInt(ChunkSize, |words|);
      var head, rest := words[..take], words[take..];
      var c := Join(head, " ");
      ChunksRoundTrip(rest);
      var tail := Timed(Chunks(rest), ChunkStepMs);
      assert Chunks(words) == [c] + Chunks(rest);
      TimedCons(c, Chunks(rest));
      var first := Timed([c], ChunkStepMs);
      assert first == [LyricsLine(0, c, false)];
      AllWordsSingle(LyricsLine(0, c, false));
      WordsOfJoin(head);
      AllWordsAppend(first, ShiftTimes(tail));
      AllWordsRetimed(tail);
      assert words == head + rest;
    }
  }

  /** The window's lyric lines before filtering: chunk k at k * 3 s. */
  function ChunkLines(raw: seq<LyricsLine>): seq<LyricsLine> {
    Timed(Chunks(AllWords(raw)), ChunkStepMs)
  }

  method CollectWords(raw: seq<LyricsLine>) returns (words: seq<string>)
    ensures words == AllWords(raw)
  {
    words := [];
    for k := 0 to |raw|
      invariant words == AllWords(raw[..k])
    {
      assert raw[..k + 1][..k] == raw[..k];
      words := words + Words(raw[k].text);
    }
    assert raw[..|raw|] == raw;
  }

  method GroupWords(words: seq<string>) returns (chunks: seq<string>)
    ensures chunks == Chunks(words)
  {
    chunks := [];
    var i := 0;
    while i < |words|
      invariant 0 <= i <= |words|
      invariant chunks + Chunks(words[i..]) == Chunks(words)
      decreases |words| - i
    {
      var take := MinInt(6, |words| - i);
      assert words[i..][take..] == words[i + take..];
      assert words[i..][..take] == words[i .. i + take];
      chunks := chunks + [Join(words[i .. i + take], " ")];
      i := i + take;
    }
  }

  method TimeChunks(chunks: seq<string>) returns (lines: seq<LyricsLine>)
    ensures lines == Timed(chunks, ChunkStepMs)
  {
    lines := [];
    var t := 0;
    for k := 0 to |chunks|
      invariant t == k * ChunkStepMs
      invariant lines == Timed(chunks[..k], ChunkStepMs)
    {
      lines := lines + [LyricsLine(t, chunks[k], false)];
      t := t + ChunkStepMs;
    }
    assert chunks[..|chunks|] == chunks;
  }

  // ---------------------------------------------------------------------
  // Fallback detection and the title filter

  const NameSeps: set<char> := {' ', '-', '_'}

  function LowerAll(ws: seq<string>): (r: seq<string>)
    ensures |r| == |ws| && forall k :: 0 <= k < |ws| ==> r[k] == ToLower(ws[k])
  {
    seq(|ws|, k requires 0 <= k < |ws| => ToLower(ws[k]))
  }

  /** The file name's words: split on ' ', '-' and '_', each trimmed,
      empty ones dropped, lower-cased. */
  function NameWords(name: string): seq<string> {
    LowerAll(NonEmpty(LyricsService.TrimAll(SplitChars(name, NameSeps))))
  }

  /** The service answered with the file name's own words: some lines,
      and every space-separated word of every line is, lower-cased, one of
      the name's words. */
  predicate IsFallback(raw: seq<LyricsLine>, nameWords: seq<string>) {
    |raw| > 0 && forall i :: 0 <= i < |raw| ==> forall w :: w in Words(raw[i].text) ==> ToLower(w) in nameWords
  }

  /** A line survives unless its trimmed text equals the lower-cased title
      ignoring case, or its lower-cased text contains it. */
  predicate KeepLine(l: LyricsLine, titleLower: string) {
    ToLower(Trim(l.text)) != titleLower && !Contains(ToLower(l.text), titleLower)
  }

  /** The lines `keep` accepts, in their order. */
  function FilterLines(ls: seq<LyricsLine>, keep: LyricsLine -> bool): (r: seq<LyricsLine>)
    ensures |r| <= |ls|
  {
    if |ls| == 0 then []
    else FilterLines(ls[..|ls| - 1], keep) + (if keep(ls[|ls| - 1]) then [ls[|ls| - 1]] else [])
  }

  /** The filter keeps relative order: it distributes over concatenation,
      and keeps a single line exactly when `keep` accepts it. */
  lemma {:induction false} FilterAppend(a: seq<LyricsLine>, b: seq<LyricsLine>, keep: LyricsLine -> bool)
    ensures FilterLines(a + b, keep) == FilterLines(a, keep) + FilterLines(b, keep)
    ensures FilterLines([], keep) == []
    ensures |b| == 1 ==> FilterLines(b, keep) == if keep(b[0]) then b else []
    decreases |b|
  {
    if |b| == 0 {
      assert a + b == a;
    } else {
      var b0, x := b[..|b| - 1], b[|b| - 1];
      assert (a + b)[..|a + b| - 1] == a + b0;
      assert (a + b)[|a + b| - 1] == x;
      FilterAppend(a, b0, keep);
      var kept := if keep(x) then [x] else [];
      assert FilterLines(a + b, keep) == FilterLines(a + b0, keep) + kept;
      assert FilterLines(b, keep) == FilterLines(b0, keep) + kept;
      AppendAssoc(FilterLines(a, keep), FilterLines(b0, keep), kept);
      if |b| == 1 {
        assert b0 == [];
      }
    }
  }

  /** The filter only keeps lines of its input, and only lines `keep`
      accepts. */
  lemma {:induction false} FilterSubset(ls: seq<LyricsLine>, keep: LyricsLine -> bool)
    ensures forall x :: x in FilterLines(ls, keep) ==> x in ls && keep(x)
    decreases |ls|
  {
    if |ls| > 0 {
      FilterSubset(ls[..|ls| - 1], keep);
      assert forall x :: x in ls[..|ls| - 1] ==> x in ls;
    }
  }

  /** Lines all earlier than `t` stay so after filtering. */
  lemma {:induction false} FilterBelow(ls: seq<LyricsLine>, keep: LyricsLine -> bool, t: int)
    requires forall k :: 0 <= k < |ls| ==> ls[k].timestamp < t
    ensures forall k :: 0 <= k < |FilterLines(ls, keep)| ==> FilterLines(ls, keep)[k].timestamp < t
    decreases |ls|
  {
    if |ls| > 0 {
      var front, last := ls[..|ls| - 1], ls[|ls| - 1];
      FilterBelow(front, keep, t);
      var r0 := FilterLines(front, keep);
      var r := FilterLines(ls, keep);
      assert r == r0 + (if keep(last) then [last] else []);
      forall k | 0 <= k < |r| ensures r[k].timestamp < t {
        if k < |r0| {
          assert r[k] == r0[k];
          assert r0[k].timestamp < t;
        } else {
          assert r[k] == last;
          assert last.timestamp < t;
        }
      }
    }
  }

  /** Strictly increasing timestamps stay strictly increasing. */
  lemma {:induction false} FilterIncreasing(ls: seq<LyricsLine>, keep: LyricsLine -> bool)
    requires forall i, j :: 0 <= i < j < |ls| ==> ls[i].timestamp < ls[j].timestamp
    ensures forall i, j :: 0 <= i < j < |FilterLines(ls, keep)| ==>
      FilterLines(ls, keep)[i].timestamp < FilterLines(ls, keep)[j].timestamp
    decreases |ls|
  {
    if |ls| > 0 {
      var front, last := ls[..|ls| - 1], ls[|ls| - 1];
      FilterIncreasing(front, keep);
      FilterBelow(front, keep, last.timestamp);
      var r0 := FilterLines(front, keep);
      var r := FilterLines(ls, keep);
      assert r == r0 + (if keep(last) then [last] else []);
      forall i, j | 0 <= i < j < |r|
        ensures r[i].timestamp < r[j].timestamp
      {
        if j < |r0| {
          assert r[i] == r0[i] && r[j] == r0[j];
        } else {
          assert r[j] == last && r[i] == r0[i];
          assert r0[i].timestamp < last.timestamp;
        }
      }
    }
  }

  function KeepFor(titleLower: string): LyricsLine -> bool {
    l => KeepLine(l, titleLower)
  }

  /** The title filter: the lines KeepLine accepts. */
  function TitleFilter(ls: seq<LyricsLine>, titleLower: string): seq<LyricsLine> {
    FilterLines(ls, KeepFor(titleLower))
  }

  /** The equality test is implied by the containment test, so a line
      survives exactly when its lower-cased text does not contain the
      lower-cased title. */
  lemma KeepLineByContainment(l: LyricsLine, titleLower: string)
    ensures KeepLine(l, titleLower) <==> !Contains(ToLower(l.text), titleLower)
  {
    if ToLower(Trim(l.text)) == titleLower {
      TrimInfix(l.text);
      var a := |l.text| - |TrimStart(l.text)|;
      var b := a + |Trim(l.text)|;
      ToLowerInfix(l.text, a, b);
      assert OccursAt(ToLower(l.text)[a..b], titleLower, 0);
      ContainsInfix(ToLower(l.text), a, b, titleLower);
    }
  }

  /** The lyric lines the window shows after loading a file: none when the
      answer was the file-name fallback, otherwise the 6-word chunks, in
      both cases after the title filter. */
  function Displayed(path: string, raw: seq<LyricsLine>): seq<LyricsLine> {
    var name := LyricsService.FileNameWithoutExtension(path);
    var lines := if IsFallback(raw, NameWords(name)) then [] else ChunkLines(raw);
    TitleFilter(lines, ToLower(name))
  }

  /** What is displayed never mentions the title, is empty for the
      fallback, and otherwise is a selection of the chunk lines. */
  lemma DisplayedSpec(path: string, raw: seq<LyricsLine>)
    ensures var name := LyricsService.FileNameWithoutExtension(path);
      var d := Displayed(path, raw);
      (forall i :: 0 <= i < |d| ==> !Contains(ToLower(d[i].text), ToLower(name))) &&
      (IsFallback(raw, NameWords(name)) ==> d == []) &&
      (!IsFallback(raw, NameWords(name)) ==> d == TitleFilter(ChunkLines(raw), ToLower(name)))
  {
    var name := LyricsService.FileNameWithoutExtension(path);
    var t := ToLower(name);
    var lines := if IsFallback(raw, NameWords(name)) then [] else ChunkLines(raw);
    var d := Displayed(path, raw);
    assert d == FilterLines(lines, KeepFor(t));
    FilterSubset(lines, KeepFor(t));
    forall i | 0 <= i < |d| ensures !Contains(ToLower(d[i].text), t) {
      assert d[i] in d;
      assert KeepFor(t)(d[i]);
    }
    FilterAppend([], [], KeepFor(t));
  }

  /** The loading steps: fallback test, word collection, regrouping,
      timing and the title filter. */
  method LoadLines(path: string, raw: seq<LyricsLine>) returns (d: seq<LyricsLine>)
    ensures d == Displayed(path, raw)
  {
    var filename := LyricsService.FileNameWithoutExtension(path);
    var fallback := IsFallback(raw, NameWords(filename));
    var lines: seq<LyricsLine> := [];
    if !fallback {
      var words := CollectWords(raw);
      var chunks := GroupWords(words);
      lines := TimeChunks(chunks);
    }
    d := TitleFilter(lines, ToLower(filename));
  }

  // ---------------------------------------------------------------------
  // Highlighting

  /** The number of leading lines whose timestamp is at most time. */
  function LeadingRun(ls: seq<LyricsLine>, time: int): (n: nat)
    ensures n <= |ls|
    ensures forall i :: 0 <= i < n ==> ls[i].timestamp <= time
    ensures n < |ls| ==> ls[n].timestamp > time
  {
    if |ls| == 0 || ls[0].timestamp > time then 0 else 1 + LeadingRun(ls[1..], time)
  }

  /** The highlighted line: the last line of the leading run. */
  function Nearest(ls: seq<LyricsLine>, time: int): Option<nat> {
    var n := LeadingRun(ls, time);
    if n == 0 then None else Some(n - 1)
  }

  /** On lines sorted by time, the highlighted line is the last one that
      has started: none when the first is still to come. */
  lemma NearestSorted(ls: seq<LyricsLine>, time: int)
    requires forall i, j :: 0 <= i < j < |ls| ==> ls[i].timestamp < ls[j].timestamp
    ensures Nearest(ls, time).None? <==> (|ls| == 0 || ls[0].timestamp > time)
    ensures Nearest(ls, time).Some? ==>
      var k := Nearest(ls, time).value;
      k < |ls| && ls[k].timestamp <= time && forall j :: k < j < |ls| ==> ls[j].timestamp > time
  {
    var n := LeadingRun(ls, time);
    if 0 < n < |ls| {
      assert forall j :: n <= j < |ls| ==> ls[n].timestamp <= ls[j].timestamp;
    }
  }

  /** A lyric text block: the index of the line it shows, its text, whether
      it is bold, and its opacity. */
  datatype Block = Block(line: nat, text: string, bold: bool, opacity: real)

  /** RenderLyrics: one normal-weight block at opacity 0.6 per line. */
  function Render(ls: seq<LyricsLine>): (bs: seq<Block>)
    ensures |bs| == |ls|
  {
    seq(|ls|, j requires 0 <= j < |ls| => Block(j, ls[j].text, false, 0.6))
  }

  /** The restyle for highlighted line k. */
  function Restyle(b: Block, k: nat): Block {
    if b.line == k then b.(bold := true, opacity := 1.0) else b.(bold := false, opacity := 0.6)
  }

  method NearestLine(ls: seq<LyricsLine>, time: int) returns (nearest: Option<nat>)
    ensures nearest == Nearest(ls, time)
  {
    nearest := None;
    var i := 0;
    while i < |ls|
      invariant 0 <= i <= LeadingRun(ls, time)
      invariant nearest == if i == 0 then None else Some(i - 1)
      decreases |ls| - i
    {
      if ls[i].timestamp <= time {
        nearest := Some(i);
      } else {
        assert i == LeadingRun(ls, time);
        break;
      }
      i := i + 1;
    }
  }

  // ---------------------------------------------------------------------
  // The window state

  class PlayerWindow {
    var isPlaying: bool
    var timerRunning: bool
    var pendingScale: real
    var originalScale: real
    /** The scale of the main layout transform. */
    var scale: real
    var lyrics: seq<LyricsLine>
    var blocks: seq<Block>

    constructor(initialScale: real)
      ensures !isPlaying && !timerRunning
      ensures pendingScale == 1.0 && originalScale == 1.0 && scale == initialScale
      ensures lyrics == [] && blocks == []
    {
      isPlaying := false;
      timerRunning := false;
      pendingScale := 1.0;
      originalScale := 1.0;
      scale := initialScale;
      lyrics := [];
      blocks := [];
    }

    /** Every block shows the line at its own position. */
    predicate Tagged()
      reads this
    {
      |blocks| <= |lyrics| && forall j :: 0 <= j < |blocks| ==> blocks[j].line == j && blocks[j].text == lyrics[j].text
    }

    /** Play/pause toggles playing, and the progress timer runs exactly
        when playing. */
    method PlayPauseClick()
      modifies this
      ensures isPlaying == !old(isPlaying) && timerRunning == isPlaying
      ensures scale == old(scale) && pendingScale == old(pendingScale) && originalScale == old(originalScale)
      ensures lyrics == old(lyrics) && blocks == old(blocks)
    {
      if isPlaying {
        isPlaying := false;
        timerRunning := false;
      } else {
        isPlaying := true;
        timerRunning := true;
      }
    }

    /** The end of the media stops playback and the timer. */
    method EndReached()
      modifies this
      ensures !isPlaying && !timerRunning
      ensures scale == old(scale) && pendingScale == old(pendingScale) && originalScale == old(originalScale)
      ensures lyrics == old(lyrics) && blocks == old(blocks)
    {
      isPlaying := false;
      timerRunning := false;
    }

    /** Back to the start screen: playback stops and the lyric blocks are
        removed (the lyric list itself is kept). */
    method BackClick()
      modifies this
      ensures !isPlaying && !timerRunning && blocks == []
      ensures scale == old(scale) && pendingScale == old(pendingScale) && originalScale == old(originalScale)
      ensures lyrics == old(lyrics)
    {
      isPlaying := false;
      blocks := [];
      timerRunning := false;
    }

    /** Opening the settings remembers the current scale as both the
        original and the pending one. */
    method SettingsOpen()
      modifies this
      ensures originalScale == old(scale) && pendingScale == old(scale) && scale == old(scale)
      ensures isPlaying == old(isPlaying) && timerRunning == old(timerRunning)
      ensures lyrics == old(lyrics) && blocks == old(blocks)
    {
      originalScale := scale;
      pendingScale := originalScale;
    }

    /** Moving the slider changes only the pending scale. */
    method ScaleSliderChanged(v: real)
      modifies this
      ensures pendingScale == v
      ensures scale == old(scale) && originalScale == old(originalScale)
      ensures isPlaying == old(isPlaying) && timerRunning == old(timerRunning)
      ensures lyrics == old(lyrics) && blocks == old(blocks)
    {
      pendingScale := v;
    }

    /** Apply makes the pending scale current and the new original. */
    method ApplySettings()
      modifies this
      ensures scale == old(pendingScale) && originalScale == old(pendingScale) && pendingScale == old(pendingScale)
      ensures isPlaying == old(isPlaying) && timerRunning == old(timerRunning)
      ensures lyrics == old(lyrics) && blocks == old(blocks)
    {
      scale := pendingScale;
      originalScale := pendingScale;
    }

    /** Cancel restores the original scale and resets the pending one. */
    method CancelSettings()
      modifies this
      ensures scale == old(originalScale) && pendingScale == old(originalScale) && originalScale == old(originalScale)
      ensures isPlaying == old(isPlaying) && timerRunning == old(timerRunning)
      ensures lyrics == old(lyrics) && blocks == old(blocks)
    {
      scale := originalScale;
      pendingScale := originalScale;
    }

    /** Close restores the original scale and leaves the pending one. */
    method CloseSettings()
      modifies this
      ensures scale == old(originalScale) && pendingScale == old(pendingScale) && originalScale == old(originalScale)
      ensures isPlaying == old(isPlaying) && timerRunning == old(timerRunning)
      ensures lyrics == old(lyrics) && blocks == old(blocks)
    {
      scale := originalScale;
    }

    /** Loading a file: the displayed lyrics replace the old ones and are
        rendered; playback starts, with the timer, when the media opened;
        otherwise the window is left not playing. */
    method LoadFile(path: string, raw: seq<LyricsLine>, mediaOpened: bool)
      modifies this
      ensures lyrics == Displayed(path, raw) && blocks == Render(lyrics) && Tagged()
      ensures isPlaying == mediaOpened && (mediaOpened ==> timerRunning)
      ensures !mediaOpened ==> timerRunning == old(timerRunning)
      ensures scale == old(scale) && pendingScale == old(pendingScale) && originalScale == old(originalScale)
    {
      var d := LoadLines(path, raw);
      var bs := Render(d);
      lyrics, blocks := d, bs;
      isPlaying := mediaOpened;
      if mediaOpened {
        timerRunning := true;
      }
    }

    /** The highlight: when some line has started, exactly its block is
        bold at full opacity and every other block is normal at 0.6;
        otherwise nothing changes. */
    method ApplyIntensity(time: int)
      modifies this
      ensures var n := Nearest(lyrics, time);
        n.None? ==> blocks == old(blocks)
      ensures var n := Nearest(lyrics, time);
        n.Some? ==> |blocks| == |old(blocks)| && forall j :: 0 <= j < |blocks| ==>
          blocks[j] == Restyle(old(blocks)[j], n.value)
      ensures lyrics == old(lyrics) && isPlaying == old(isPlaying) && timerRunning == old(timerRunning)
      ensures scale == old(scale) && pendingScale == old(pendingScale) && originalScale == old(originalScale)
      ensures old(Tagged()) ==> Tagged()
    {
      var nearest := NearestLine(lyrics, time);
      if nearest.None? {
        return;
      }
      var k := nearest.value;
      var j := 0;
      while j < |blocks|
        invariant 0 <= j <= |blocks| == |old(blocks)|
        invariant forall i :: 0 <= i < j ==> blocks[i] == Restyle(old(blocks)[i], k)
        invariant forall i :: j <= i < |blocks| ==> blocks[i] == old(blocks)[i]
        invariant lyrics == old(lyrics) && isPlaying == old(isPlaying) && timerRunning == old(timerRunning)
        invariant scale == old(scale) && pendingScale == old(pendingScale) && originalScale == old(originalScale)
      {
        blocks := blocks[j := Restyle(blocks[j], k)];
        j := j + 1;
      }
    }

    /** The progress tick: with a media of positive length it highlights
        the current line and labels the elapsed and total time; otherwise
        both labels read 0:00. */
    method ProgressTick(time: nat, length: int) returns (current: string, total: string)
      modifies this
      ensures length > 0 ==> current == FormatTime(time) && total == FormatTime(length)
      ensures length <= 0 ==> current == "0:00" && total == "0:00" && blocks == old(blocks)
      ensures length > 0 ==> var n := Nearest(lyrics, time);
        (n.None? ==> blocks == old(blocks)) &&
        (n.Some? ==> |blocks| == |old(blocks)| && forall j :: 0 <= j < |blocks| ==>
          blocks[j] == Restyle(old(blocks)[j], n.value))
      ensures lyrics == old(lyrics) && isPlaying == old(isPlaying) && timerRunning == old(timerRunning)
      ensures scale == old(scale) && pendingScale == old(pendingScale) && originalScale == old(originalScale)
      ensures old(Tagged()) ==> Tagged()
    {
      if length > 0 {
        ApplyIntensity(time);
        current := FormatTime(time);
        total := FormatTime(length);
      } else {
        current := "0:00";
        total := "0:00";
      }
    }
  }
}
