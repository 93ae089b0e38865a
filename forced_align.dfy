/**
 * The word list the forced-alignment script prints: taken from the
 * aligner's word segments when it returns them, otherwise made by
 * splitting each transcript segment evenly between its words.  The
 * transcription and alignment models themselves are inputs.
 */
module ForcedAlign {
  import opened Options
  import opened Strings

  /** One entry of the output: start and end in seconds, and the word. */
  datatype Word = Word(start: real, end: real, word: string)

  /** A word segment of the aligner; a missing key is None. */
  datatype WordSegment = WordSegment(start: Option<real>, end: Option<real>, word: Option<string>)

  /** A transcript segment; a missing key is None. */
  datatype Segment = Segment(text: Option<string>, start: Option<real>, end: Option<real>)

  /** What the aligner returned: a dictionary (with or without
      "word_segments"), or something else. */
  datatype AlignResult = NotADict | Dict(wordSegments: Option<seq<WordSegment>>)

  function GetOr<T>(o: Option<T>, d: T): T {
    if o.Some? then o.value else d
  }

  /** The characters Python's `str.isspace()` accepts, on which `strip()`
      and `split()` both act: the Unicode white space plus the separators
      U+001C to U+001F. */
  predicate PyWhite(c: char) {
    ('\U{0009}' <= c <= '\U{000D}') || ('\U{001C}' <= c <= '\U{001F}') || c == ' '
    || c == '\U{0085}' || c == '\U{00A0}' || c == '\U{1680}' || ('\U{2000}' <= c <= '\U{200A}')
    || c == '\U{2028}' || c == '\U{2029}' || c == '\U{202F}' || c == '\U{205F}' || c == '\U{3000}'
  }

  /** The same characters as a set, for `split()`. */
  const WhiteChars: set<char> := set c: char | '\U{0000}' <= c <= '\U{3000}' && PyWhite(c)

  /** `s.lstrip()`. */
  function PyLStrip(s: string): (r: string)
    ensures |r| <= |s|
  {
    if s != [] && PyWhite(s[0]) then PyLStrip(s[1..]) else s
  }

  /** `s.rstrip()`. */
  function PyRStrip(s: string): (r: string)
    ensures |r| <= |s|
  {
    if s != [] && PyWhite(s[|s| - 1]) then PyRStrip(s[..|s| - 1]) else s
  }

  /** `s.strip()`. */
  function PyStrip(s: string): string {
    PyRStrip(PyLStrip(s))
  }

  /** `lstrip()` drops exactly the leading run of white space. */
  lemma {:induction false} PyLStripSpec(s: string)
    ensures var r := PyLStrip(s);
      r == s[|s| - |r|..] && (r == [] || !PyWhite(r[0]))
      && forall i :: 0 <= i < |s| - |r| ==> PyWhite(s[i])
    decreases |s|
  {
    if s != [] && PyWhite(s[0]) {
      PyLStripSpec(s[1..]);
    }
  }

  /** `rstrip()` drops exactly the trailing run of white space. */
  lemma {:induction false} PyRStripSpec(s: string)
    ensures var r := PyRStrip(s);
      r == s[..|r|] && (r == [] || !PyWhite(r[|r| - 1]))
      && forall i :: |r| <= i < |s| ==> PyWhite(s[i])
    decreases |s|
  {
    if s != [] && PyWhite(s[|s| - 1]) {
      PyRStripSpec(s[..|s| - 1]);
    }
  }

  /** `strip()` keeps an infix of its input whose ends are not white space,
      and drops only white space. */
  lemma PyStripSpec(s: string)
    ensures var r, a := PyStrip(s), |s| - |PyLStrip(s)|;
      a + |r| <= |s| && r == s[a..a + |r|] && (r == [] || (!PyWhite(r[0]) && !PyWhite(r[|r| - 1])))
      && (forall i :: 0 <= i < a ==> PyWhite(s[i]))
      && (forall i :: a + |r| <= i < |s| ==> PyWhite(s[i]))
  {
    var l := PyLStrip(s);
    PyLStripSpec(s);
    PyRStripSpec(l);
    var a := |s| - |l|;
    var r := PyStrip(s);
    assert r == l[..|r|];
    if r != [] {
      assert r[0] == l[0];
    }
    forall i | a + |r| <= i < |s| ensures PyWhite(s[i]) {
      assert s[i] == l[i - a];
    }
  }

  /** `text.strip().split()`: the maximal runs of non-white characters. */
  function PyWords(text: string): (ws: seq<string>)
    ensures forall k :: 0 <= k < |ws| ==> ws[k] != []
  {
    NonEmpty(SplitChars(PyStrip(text), WhiteChars))
  }

  /** The entry for one aligned word: a missing start or end is 0.0, a
      missing word ''. */
  function FromWordSegment(w: WordSegment): Word {
    Word(GetOr(w.start, 0.0), GetOr(w.end, 0.0), GetOr(w.word, ""))
  }

  /** The point i/n of the way through an interval of length dur. */
  function Point(start: real, dur: real, i: nat, n: nat): real
    requires n > 0
  {
    start + dur * i as real / n as real
  }

  /** The words of a segment spread evenly over [start, end]: word i spans
      Point i to Point i + 1. */
  function EvenSplit(ws: seq<string>, start: real, end: real): (r: seq<Word>)
    ensures |r| == |ws|
  {
    seq(|ws|, i requires 0 <= i < |ws| => Word(Point(start, end - start, i, |ws|), Point(start, end - start, i + 1, |ws|), ws[i]))
  }

  /** The entries a transcript segment contributes. */
  function SegmentWords(seg: Segment): seq<Word> {
    EvenSplit(PyWords(GetOr(seg.text, "")), GetOr(seg.start, 0.0), GetOr(seg.end, 0.0))
  }

  /** The fallback over all segments, in order. */
  function AllSegmentWords(segs: seq<Segment>): seq<Word> {
    if segs == [] then []
    else AllSegmentWords(segs[..|segs| - 1]) + SegmentWords(segs[|segs| - 1])
  }

  /** The words the script prints. */
  function WordList(aligned: AlignResult, segments: Option<seq<Segment>>): seq<Word> {
    if aligned.Dict? && aligned.wordSegments.Some? then
      var ws := aligned.wordSegments.value;
      seq(|ws|, i requires 0 <= i < |ws| => FromWordSegment(ws[i]))
    else AllSegmentWords(GetOr(segments, []))
  }

  /** Within a segment the words come in order, consecutive intervals abut,
      the first starts at the segment start and the last ends at the segment
      end; with a non-negative duration every interval is ordered. */
  lemma EvenSplitSpec(ws: seq<string>, start: real, end: real)
    ensures var r := EvenSplit(ws, start, end);
      (forall i :: 0 <= i < |r| ==> r[i].word == ws[i]) &&
      (forall i :: 0 <= i < |r| - 1 ==> r[i].end == r[i + 1].start) &&
      (|r| > 0 ==> r[0].start == start && r[|r| - 1].end == end) &&
      (start <= end ==> forall i :: 0 <= i < |r| ==> start <= r[i].start <= r[i].end <= end)
  {
    var r := EvenSplit(ws, start, end);
    var n := |ws|;
    if n > 0 {
      PointEnds(start, end - start, n);
    }
    if start <= end {
      forall i | 0 <= i < n
        ensures start <= r[i].start <= r[i].end <= end
      {
        PointBetween(start, end - start, i, n);
      }
    }
  }

  /** The first point is the start and the last the end. */
  lemma PointEnds(start: real, dur: real, n: nat)
    requires n > 0
    ensures Point(start, dur, 0, n) == start && Point(start, dur, n, n) == start + dur
  {
    assert dur * n as real / n as real == dur;
  }

  /** For a non-negative length, points move forward within the interval. */
  lemma PointBetween(start: real, dur: real, i: nat, n: nat)
    requires dur >= 0.0 && i < n
    ensures start <= Point(start, dur, i, n) <= Point(start, dur, i + 1, n) <= start + dur
  {
    var a, b, c := dur * i as real, dur * (i + 1) as real, dur * n as real;
    assert 0.0 <= a <= b <= c;
    assert a / n as real <= b / n as real <= c / n as real;
    assert c / n as real == dur;
  }

  /** A segment with no words contributes nothing; one with n words
      contributes n entries carrying those words. */
  lemma SegmentWordsSpec(seg: Segment)
    ensures var ws, r := PyWords(GetOr(seg.text, "")), SegmentWords(seg);
      |r| == |ws| && (ws == [] ==> r == []) && forall i :: 0 <= i < |r| ==> r[i].word == ws[i]
  {
  }

  /** The number of words over all segments. */
  function WordCount(segs: seq<Segment>): nat {
    if segs == [] then 0
    else WordCount(segs[..|segs| - 1]) + |PyWords(GetOr(segs[|segs| - 1].text, ""))|
  }

  /** The fallback's entries follow segment order: those of a concatenation
      are those of each part in turn, and their total is the sum of the
      per-segment word counts. */
  lemma {:induction false} AllSegmentWordsAppend(a: seq<Segment>, b: seq<Segment>)
    ensures AllSegmentWords(a + b) == AllSegmentWords(a) + AllSegmentWords(b)
    decreases |b|
  {
    if b == [] {
      assert a + b == a;
    } else {
      var b' := b[..|b| - 1];
      AllSegmentWordsAppend(a, b');
      assert (a + b)[..|a + b| - 1] == a + b';
      AppendAssoc(AllSegmentWords(a), AllSegmentWords(b'), SegmentWords(b[|b| - 1]));
    }
  }

  lemma {:induction false} AllSegmentWordsCount(segs: seq<Segment>)
    ensures |AllSegmentWords(segs)| == WordCount(segs)
  {
    if segs != [] {
      AllSegmentWordsCount(segs[..|segs| - 1]);
    }
  }

  /** With word segments, one entry per segment in order, with the
      defaults for missing keys. */
  lemma WordListAligned(aligned: AlignResult, segments: Option<seq<Segment>>)
    requires aligned.Dict? && aligned.wordSegments.Some?
    ensures var ws, r := aligned.wordSegments.value, WordList(aligned, segments);
      |r| == |ws| &&
      forall i :: 0 <= i < |r| ==>
        r[i].word == GetOr(ws[i].word, "") &&
        (ws[i].start.None? ==> r[i].start == 0.0) && (ws[i].end.None? ==> r[i].end == 0.0)
  {
  }

  /** The script's loops. */
  method BuildWordList(aligned: AlignResult, segments: Option<seq<Segment>>) returns (words: seq<Word>)
    ensures words == WordList(aligned, segments)
  {
    words := [];
    if aligned.Dict? && aligned.wordSegments.Some? {
      var ws := aligned.wordSegments.value;
      var k := 0;
      while k < |ws|
        invariant 0 <= k <= |ws|
        invariant words == seq(k, i requires 0 <= i < k => FromWordSegment(ws[i]))
      {
        var w := ws[k];
        words := words + [Word(GetOr(w.start, 0.0), GetOr(w.end, 0.0), GetOr(w.word, ""))];
        k := k + 1;
      }
    } else {
      var segs := GetOr(segments, []);
      var k := 0;
      while k < |segs|
        invariant 0 <= k <= |segs|
        invariant words == AllSegmentWords(segs[..k])
      {
        var seg := segs[k];
        assert segs[..k + 1][..k] == segs[..k];
        var segWords := PyWords(GetOr(seg.text, ""));
        var segStart := GetOr(seg.start, 0.0);
        var segEnd := GetOr(seg.end, 0.0);
        if |segWords| == 0 {
          k := k + 1;
          continue;
        }
        words := AppendEvenSplit(words, segWords, segStart, segEnd);
        k := k + 1;
      }
      assert segs[..k] == segs;
    }
  }

  /** The inner loop: the words of one segment appended evenly spaced. */
  method AppendEvenSplit(words: seq<Word>, segWords: seq<string>, segStart: real, segEnd: real)
    returns (out: seq<Word>)
    requires |segWords| > 0
    ensures out == words + EvenSplit(segWords, segStart, segEnd)
  {
    out := words;
    var dur := segEnd - segStart;
    var n := |segWords|;
    var i := 0;
    while i < n
      invariant 0 <= i <= n
      invariant out == words + EvenSplit(segWords, segStart, segEnd)[..i]
    {
      var start := Point(segStart, dur, i, n);
      var end := Point(segStart, dur, i + 1, n);
      ghost var split := EvenSplit(segWords, segStart, segEnd);
      assert split[i] == Word(start, end, segWords[i]);
      assert split[..i + 1] == split[..i] + [split[i]];
      out := out + [Word(start, end, segWords[i])];
      i := i + 1;
    }
    assert EvenSplit(segWords, segStart, segEnd)[..n] == EvenSplit(segWords, segStart, segEnd);
  }
}
