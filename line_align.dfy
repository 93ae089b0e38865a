/**
 * Text-to-audio alignment with the onset model (AlignTextToAudioWithModel):
 * each lyric line gets an estimated window from its cumulative share of the
 * characters, the best-scoring window near the estimate (earlier windows
 * penalised) is chosen, and a final pass makes the timestamps strictly
 * increasing.
 *
 * The feature frames and their timestamps are inputs (the audio file is not
 * read here); a frame's timestamp is given in milliseconds, which for the
 * extractor's frames is exactly i * windowMs.
 */
module LineAlign {
  import opened Options
  import opened Lyrics
  import opened Mlp

  /** Math.Max(1, (int)(200.0 / 50.0)): the search radius, in windows. */
  const Neighborhood: int := 4
  const PenaltyFactor: real := 0.5
  /** Below this probability the estimate itself is used. */
  const FallbackProb: real := 0.05
  const ScreamProb: real := 0.8
  const ScreamRms: real := 0.2
  /** The step added to a timestamp that does not move forward. */
  const BumpMs: int := 80

  function MaxInt(a: int, b: int): int { if a >= b then a else b }
  function MinInt(a: int, b: int): int { if a <= b then a else b }

  /** Math.Round with its default mode: halves go to the even neighbour. */
  function RoundHalfEven(x: real): (r: int)
    ensures x - 0.5 <= r as real <= x + 0.5
    ensures x - x.Floor as real == 0.5 ==> r % 2 == 0
  {
    var f := x.Floor;
    var d := x - f as real;
    if d < 0.5 then f
    else if d > 0.5 then f + 1
    else if f % 2 == 0 then f else f + 1
  }

  lemma RoundWithin(x: real, k: int)
    requires 0.0 <= x <= k as real
    ensures 0 <= RoundHalfEven(x) <= k
  {
  }

  /** A line's weight in the character count: its length, at least 1. */
  function CharWeight(line: string): (w: int)
    ensures w >= 1 && w >= |line|
  {
    MaxInt(1, |line|)
  }

  /** The summed weight of the first k lines. */
  function PrefixChars(lines: seq<string>, k: nat): (c: int)
    requires k <= |lines|
    ensures c >= k
  {
    if k == 0 then 0 else PrefixChars(lines, k - 1) + CharWeight(lines[k - 1])
  }

  lemma {:induction false} PrefixCharsMonotone(lines: seq<string>, j: nat, k: nat)
    requires j <= k <= |lines|
    ensures PrefixChars(lines, j) <= PrefixChars(lines, k)
    decreases k
  {
    if j < k {
      PrefixCharsMonotone(lines, j, k - 1);
    }
  }

  lemma FractionScale(a: real, t: real, b: real)
    requires 0.0 <= a <= t && t >= 1.0 && b >= 0.0
    ensures 0.0 <= (a / t) * b <= b
  {
    assert 0.0 <= a / t <= 1.0;
  }

  /** The window a line ending at accChars characters (of total) maps to. */
  function Estimate(accChars: int, total: int, windows: nat): (e: int)
    requires 0 <= accChars <= total && windows >= 1
    ensures 0 <= e <= windows - 1
  {
    var frac := accChars as real / MaxInt(1, total) as real;
    FractionScale(accChars as real, MaxInt(1, total) as real, (windows - 1) as real);
    RoundWithin(frac * (windows - 1) as real, windows - 1);
    RoundHalfEven(frac * (windows - 1) as real)
  }

  /** Windows before the estimate lose 0.5 per Neighborhood windows. */
  function Penalty(est: int, w: int): (p: real)
    ensures w >= est ==> p == 0.0
    ensures w < est ==> p > 0.0
  {
    if w < est then PenaltyFactor * (est - w) as real / Neighborhood as real else 0.0
  }

  function Score(probs: seq<real>, est: int, w: int): real
    requires 0 <= w < |probs|
  {
    probs[w] - Penalty(est, w)
  }

  /** The first window of lo..w with the highest score. */
  function FirstBest(probs: seq<real>, est: int, lo: int, w: int): (b: int)
    requires 0 <= lo <= w < |probs|
    ensures lo <= b <= w
    decreases w - lo
  {
    if w == lo then lo
    else
      var b := FirstBest(probs, est, lo, w - 1);
      if Score(probs, est, w) > Score(probs, est, b) then w else b
  }

  /** FirstBest is the first maximiser of the score over lo..w. */
  lemma {:induction false} FirstBestIsFirstMax(probs: seq<real>, est: int, lo: int, w: int)
    requires 0 <= lo <= w < |probs|
    ensures var b := FirstBest(probs, est, lo, w);
      (forall v :: lo <= v <= w ==> Score(probs, est, v) <= Score(probs, est, b)) &&
      (forall v :: lo <= v < b ==> Score(probs, est, v) < Score(probs, est, b))
    decreases w - lo
  {
    if w > lo {
      FirstBestIsFirstMax(probs, est, lo, w - 1);
    }
  }

  /** The index clamped into 0..n-1, as Math.Max(0, Math.Min(i, n - 1)). */
  function Clamp(i: int, n: int): int {
    MaxInt(0, MinInt(i, n - 1))
  }

  /** The estimate, the chosen window and its probability, for one line. */
  datatype Choice = Choice(est: int, best: int, bestP: real)

  function SearchLow(est: int): int { MaxInt(0, est - Neighborhood) }
  function SearchHigh(est: int, windows: int): int { MinInt(windows - 1, est + Neighborhood) }

  function Choose(probs: seq<real>, accChars: int, total: int, lastIdx: int): (c: Choice)
    requires |probs| >= 1 && 0 <= accChars <= total && 0 <= lastIdx < |probs|
    ensures 0 <= c.est < |probs| && 0 <= c.best < |probs|
  {
    var e := Estimate(accChars, total, |probs|);
    var est := if e < lastIdx then lastIdx else e;
    var b := FirstBest(probs, est, SearchLow(est), SearchHigh(est, |probs|));
    if probs[b] < FallbackProb then Choice(est, est, probs[Clamp(est, |probs|)])
    else Choice(est, b, probs[b])
  }

  /** The estimate never goes before the previous line's window; the chosen
      window is the first best-scoring one within Neighborhood of it, unless
      that window's probability is below the fallback threshold, in which
      case the estimate itself is used. */
  lemma ChooseSpec(probs: seq<real>, accChars: int, total: int, lastIdx: int)
    requires |probs| >= 1 && 0 <= accChars <= total && 0 <= lastIdx < |probs|
    ensures var c := Choose(probs, accChars, total, lastIdx);
      var lo, hi := SearchLow(c.est), SearchHigh(c.est, |probs|);
      var b := FirstBest(probs, c.est, lo, hi);
      c.est >= lastIdx &&
      c.est >= Estimate(accChars, total, |probs|) &&
      (c.est == lastIdx || c.est == Estimate(accChars, total, |probs|)) &&
      lo <= b <= hi &&
      c.est - Neighborhood <= b <= c.est + Neighborhood &&
      (forall v :: lo <= v <= hi ==> Score(probs, c.est, v) <= Score(probs, c.est, b)) &&
      (probs[b] >= FallbackProb ==> c.best == b && c.bestP == probs[b]) &&
      (probs[b] < FallbackProb ==> c.best == c.est && c.bestP == probs[c.est])
  {
    var c := Choose(probs, accChars, total, lastIdx);
    FirstBestIsFirstMax(probs, c.est, SearchLow(c.est), SearchHigh(c.est, |probs|));
  }

  /** The choices for the first k lines, each starting from the previous
      line's window (0 for the first line). */
  function Choices(lines: seq<string>, probs: seq<real>, k: nat): (cs: seq<Choice>)
    requires k <= |lines| && |probs| >= 1
    ensures |cs| == k
    ensures forall i :: 0 <= i < k ==> 0 <= cs[i].best < |probs| && 0 <= cs[i].est < |probs|
  {
    if k == 0 then []
    else
      var prev := Choices(lines, probs, k - 1);
      var last := if k == 1 then 0 else prev[k - 2].best;
      PrefixCharsMonotone(lines, k, |lines|);
      prev + [Choose(probs, PrefixChars(lines, k), PrefixChars(lines, |lines|), last)]
  }

  /** Every line's estimate is at or after the window chosen for the line
      before it. */
  lemma {:induction false} ChoicesFollow(lines: seq<string>, probs: seq<real>, k: nat, i: nat)
    requires k <= |lines| && |probs| >= 1 && 0 < i < k
    ensures Choices(lines, probs, k)[i].est >= Choices(lines, probs, k)[i - 1].best
    decreases k
  {
    var cs := Choices(lines, probs, k);
    var prev := Choices(lines, probs, k - 1);
    assert cs[..k - 1] == prev;
    if i < k - 1 {
      ChoicesFollow(lines, probs, k - 1, i);
    } else {
      PrefixCharsMonotone(lines, k, |lines|);
      ChooseSpec(probs, PrefixChars(lines, k), PrefixChars(lines, |lines|), prev[k - 2].best);
    }
  }

  /** A line is marked as a scream when the model is confident and the
      chosen frame is loud (feature 0 is the RMS). */
  function IsScream(c: Choice, features: seq<seq<real>>): bool
    requires 0 <= c.best < |features| && |features[c.best]| >= 1
  {
    c.bestP > ScreamProb && features[c.best][0] > ScreamRms
  }

  /** The line for one choice: the chosen frame's time, the text, and the
      scream mark. */
  function LineOf(c: Choice, text: string, features: seq<seq<real>>, timestamps: seq<int>): LyricsLine
    requires 0 <= c.best < |features| == |timestamps| && |features[c.best]| >= 1
  {
    LyricsLine(timestamps[Clamp(c.best, |timestamps|)], text, IsScream(c, features))
  }

  /** The lines before the monotonic pass. */
  function Draft(lines: seq<string>, features: seq<seq<real>>, timestamps: seq<int>, probs: seq<real>): (ls: seq<LyricsLine>)
    requires |probs| == |features| == |timestamps| >= 1
    requires forall f :: 0 <= f < |features| ==> |features[f]| >= 1
    ensures |ls| == |lines|
  {
    var cs := Choices(lines, probs, |lines|);
    seq(|lines|, i requires 0 <= i < |lines| => LineOf(cs[i], lines[i], features, timestamps))
  }

  /** Line i of the draft is the line for choice i. */
  lemma DraftAt(lines: seq<string>, features: seq<seq<real>>, timestamps: seq<int>, probs: seq<real>, i: nat)
    requires |probs| == |features| == |timestamps| >= 1
    requires forall f :: 0 <= f < |features| ==> |features[f]| >= 1
    requires i < |lines|
    ensures var c := Choices(lines, probs, |lines|)[i];
      Draft(lines, features, timestamps, probs)[i] == LyricsLine(timestamps[Clamp(c.best, |timestamps|)], lines[i], IsScream(c, features))
  {
  }

  /** Choice i is made from line i's character prefix and the window
      chosen for line i - 1 (0 for the first line). */
  lemma {:induction false} ChoiceAt(lines: seq<string>, probs: seq<real>, k: nat, i: nat)
    requires i < k <= |lines| && |probs| >= 1
    ensures PrefixChars(lines, i + 1) <= PrefixChars(lines, |lines|)
    ensures Choices(lines, probs, k)[i]
         == Choose(probs, PrefixChars(lines, i + 1), PrefixChars(lines, |lines|),
                   if i == 0 then 0 else Choices(lines, probs, k)[i - 1].best)
    decreases k
  {
    PrefixCharsMonotone(lines, i + 1, |lines|);
    if i < k - 1 {
      ChoiceAt(lines, probs, k - 1, i);
    }
  }

  // ---------------------------------------------------------------------
  // Monotonic pass

  /** Left to right, a timestamp that is not after the (already adjusted)
      previous one becomes the previous one plus 80 ms. */
  function Bumped(ts: seq<int>): (r: seq<int>)
    ensures |r| == |ts|
  {
    if |ts| <= 1 then ts
    else
      var p := Bumped(ts[..|ts| - 1]);
      var t := ts[|ts| - 1];
      p + [if t <= p[|p| - 1] then p[|p| - 1] + BumpMs else t]
  }

  /** The pass over a prefix is the prefix of the pass. */
  lemma {:induction false} BumpedPrefixOf(ts: seq<int>, j: nat)
    requires 1 <= j <= |ts|
    ensures Bumped(ts)[..j] == Bumped(ts[..j])
    decreases |ts|
  {
    if j == |ts| {
      assert ts[..j] == ts;
    } else {
      var q := ts[..|ts| - 1];
      BumpedPrefixOf(q, j);
      assert q[..j] == ts[..j];
      assert Bumped(ts)[..|ts| - 1] == Bumped(q);
      assert Bumped(ts)[..j] == Bumped(ts)[..|ts| - 1][..j];
    }
  }

  /** The first timestamp is kept; each later one is kept when it is after
      the adjusted previous one, and otherwise becomes that plus 80 ms. */
  lemma BumpedAt(ts: seq<int>, i: nat)
    requires i < |ts|
    ensures var r := Bumped(ts);
      r[i] == if i == 0 then ts[0] else if ts[i] <= r[i - 1] then r[i - 1] + BumpMs else ts[i]
  {
    var r := Bumped(ts);
    BumpedPrefixOf(ts, i + 1);
    if i == 0 {
      assert r[0] == r[..1][0];
    } else {
      BumpedStep(ts, i);
      BumpedPrefixOf(ts, i);
      assert r[i] == r[..i + 1][i];
      assert r[i - 1] == r[..i][i - 1];
    }
  }

  /** The pass over the first i + 1 timestamps ends with one step from the
      pass over the first i. */
  lemma BumpedStep(ts: seq<int>, i: nat)
    requires 1 <= i < |ts|
    ensures var p := Bumped(ts[..i]);
      Bumped(ts[..i + 1])[i] == if ts[i] <= p[i - 1] then p[i - 1] + BumpMs else ts[i]
  {
    var q := ts[..i + 1];
    assert q[..i] == ts[..i];
    BumpedLast(q);
  }

  /** The pass's last step. */
  lemma BumpedLast(ts: seq<int>)
    requires |ts| >= 2
    ensures var p := Bumped(ts[..|ts| - 1]); var t := ts[|ts| - 1];
      Bumped(ts)[|ts| - 1] == if t <= p[|p| - 1] then p[|p| - 1] + BumpMs else t
  {
  }

  /** After the pass the timestamps strictly increase; each is either its
      original value or its predecessor plus 80 ms, and never earlier than
      the original. */
  lemma BumpedSpec(ts: seq<int>)
    ensures var r := Bumped(ts);
      (forall i :: 0 < i < |r| ==> r[i - 1] < r[i]) &&
      (|ts| > 0 ==> r[0] == ts[0]) &&
      (forall i :: 0 < i < |r| ==>
         ((r[i] == ts[i] && ts[i] > r[i - 1]) || (r[i] == r[i - 1] + BumpMs && ts[i] <= r[i - 1]))) &&
      (forall i :: 0 <= i < |r| ==> r[i] >= ts[i])
  {
    forall i | 0 <= i < |ts|
      ensures var r := Bumped(ts);
        r[i] == if i == 0 then ts[0] else if ts[i] <= r[i - 1] then r[i - 1] + BumpMs else ts[i]
    {
      BumpedAt(ts, i);
    }
  }

  /** Timestamps that already increase strictly are left alone. */
  lemma {:induction false} BumpedIncreasing(ts: seq<int>)
    requires forall i :: 0 < i < |ts| ==> ts[i - 1] < ts[i]
    ensures Bumped(ts) == ts
  {
    if |ts| > 1 {
      var q := ts[..|ts| - 1];
      BumpedIncreasing(q);
      assert q + [ts[|ts| - 1]] == ts;
    }
  }

  /** The lines with their timestamps replaced by Bumped's. */
  function Monotone(ls: seq<LyricsLine>): (r: seq<LyricsLine>)
    ensures |r| == |ls|
  {
    var b := Bumped(Timestamps(ls));
    seq(|ls|, i requires 0 <= i < |ls| => ls[i].(timestamp := b[i]))
  }

  /** The monotonic pass, in place on the list of lines. */
  method EnforceMonotonic(a: array<LyricsLine>)
    modifies a
    ensures a[..] == Monotone(old(a[..]))
  {
    ghost var ls := a[..];
    ghost var b := Bumped(Timestamps(ls));
    if a.Length > 0 {
      BumpedAt(Timestamps(ls), 0);
    }
    var i := 1;
    while i < a.Length
      invariant 1 <= i <= MaxInt(1, a.Length)
      invariant forall k :: 0 <= k < a.Length ==> a[k] == ls[k].(timestamp := a[k].timestamp)
      invariant forall k :: 0 <= k < i && k < a.Length ==> a[k].timestamp == b[k]
      invariant forall k :: i <= k < a.Length ==> a[k] == ls[k]
    {
      BumpedAt(Timestamps(ls), i);
      if a[i].timestamp <= a[i - 1].timestamp {
        a[i] := a[i].(timestamp := a[i - 1].timestamp + BumpMs);
      }
      i := i + 1;
    }
    assert forall k :: 0 <= k < a.Length ==> a[k] == ls[k].(timestamp := b[k]);
  }

  // ---------------------------------------------------------------------
  // The alignment

  /** What AlignTextToAudioWithModel returns. */
  function Aligned(lines: seq<string>, features: seq<seq<real>>, timestamps: seq<int>,
                   model: Option<SavedModel>, exp: real -> real): seq<LyricsLine>
    requires |timestamps| == |features|
    requires forall f :: 0 <= f < |features| ==> |features[f]| >= 1
    requires model.Some? ==> Usable(model.value)
    requires PositiveExp(exp)
  {
    if |lines| == 0 || |features| == 0 then []
    else
      PredictSpec(model, features, exp);
      Monotone(Draft(lines, features, timestamps, Predict(model, features, exp)))
  }

  /** One line out per line in, with its text, and strictly increasing
      timestamps; nothing for no lines or no audio frames. */
  lemma AlignedSpec(lines: seq<string>, features: seq<seq<real>>, timestamps: seq<int>,
                    model: Option<SavedModel>, exp: real -> real)
    requires |timestamps| == |features|
    requires forall f :: 0 <= f < |features| ==> |features[f]| >= 1
    requires model.Some? ==> Usable(model.value)
    requires PositiveExp(exp)
    ensures var out := Aligned(lines, features, timestamps, model, exp);
      (|features| == 0 ==> out == []) &&
      (|features| > 0 ==>
         (|out| == |lines| &&
          (forall i :: 0 <= i < |out| ==> out[i].text == lines[i]) &&
          (forall i :: 0 < i < |out| ==> out[i - 1].timestamp < out[i].timestamp)))
  {
    if |lines| > 0 && |features| > 0 {
      PredictSpec(model, features, exp);
      var d := Draft(lines, features, timestamps, Predict(model, features, exp));
      BumpedSpec(Timestamps(d));
    }
  }

  /** The search of the neighbourhood of estIdx: the first window with the
      highest penalised score, and its probability. */
  method SearchWindow(probs: seq<real>, estIdx: int) returns (best: int, bestP: real)
    requires 0 <= estIdx < |probs|
    ensures var lo, hi := SearchLow(estIdx), SearchHigh(estIdx, |probs|);
      best == FirstBest(probs, estIdx, lo, hi) && bestP == probs[best]
  {
    var start := MaxInt(0, estIdx - Neighborhood);
    var end := MinInt(|probs| - 1, estIdx + Neighborhood);
    best := estIdx;
    var bestScore: Option<real> := None;
    bestP := 0.0;
    var w := start;
    while w <= end
      invariant start <= w <= end + 1
      invariant w == start <==> bestScore.None?
      invariant w > start ==> best == FirstBest(probs, estIdx, start, w - 1) &&
                              bestScore == Some(Score(probs, estIdx, best)) && bestP == probs[best]
    {
      var penalty := 0.0;
      if w < estIdx {
        penalty := PenaltyFactor * (estIdx - w) as real / Neighborhood as real;
      }
      var score := probs[w] - penalty;
      if bestScore.None? || score > bestScore.value {
        bestScore := Some(score);
        best := w;
        bestP := probs[w];
      }
      w := w + 1;
    }
  }

  /** The choice for one line. */
  method ChooseWindow(probs: seq<real>, accChars: int, total: int, lastIdx: int) returns (c: Choice)
    requires |probs| >= 1 && 0 <= accChars <= total && 0 <= lastIdx < |probs|
    ensures c == Choose(probs, accChars, total, lastIdx)
  {
    var estIdx := Estimate(accChars, total, |probs|);
    if estIdx < lastIdx {
      estIdx := lastIdx;
    }
    var best, bestP := SearchWindow(probs, estIdx);
    if bestP < FallbackProb {
      best := estIdx;
      bestP := probs[MaxInt(0, MinInt(estIdx, |probs| - 1))];
    }
    c := Choice(estIdx, best, bestP);
  }

  method NextWindow(lines: seq<string>, probs: seq<real>, i: nat, acc: int, total: int, last: int) returns (c: Choice)
    requires i < |lines| && |probs| >= 1 && acc == PrefixChars(lines, i + 1) && total == PrefixChars(lines, |lines|)
    requires last == if i == 0 then 0 else Choices(lines, probs, |lines|)[i - 1].best
    ensures c == Choices(lines, probs, |lines|)[i]
  {
    ChoiceAt(lines, probs, |lines|, i);
    c := ChooseWindow(probs, acc, total, last);
  }

  /** The lines before the monotonic pass, built line by line. */
  method DraftLines(lines: seq<string>, features: seq<seq<real>>, timestamps: seq<int>, probs: seq<real>)
    returns (outList: array<LyricsLine>)
    requires |probs| == |features| == |timestamps| >= 1
    requires forall f :: 0 <= f < |features| ==> |features[f]| >= 1
    ensures fresh(outList) && outList[..] == Draft(lines, features, timestamps, probs)
  {
    var totalChars := PrefixChars(lines, |lines|);
    outList := new LyricsLine[|lines|](i => LyricsLine(0, "", false));
    ghost var cs := Choices(lines, probs, |lines|);
    ghost var d := Draft(lines, features, timestamps, probs);
    var acc := 0;
    var lastIdx := 0;
    var i := 0;
    while i < |lines|
      invariant 0 <= i <= |lines|
      invariant acc == PrefixChars(lines, i)
      invariant lastIdx == if i == 0 then 0 else cs[i - 1].best
      invariant forall k :: 0 <= k < i ==> outList[k] == d[k]
    {
      acc := acc + MaxInt(1, |lines[i]|);
      var c := NextWindow(lines, probs, i, acc, totalChars, lastIdx);
      DraftAt(lines, features, timestamps, probs, i);
      var timeMs := timestamps[MaxInt(0, MinInt(c.best, |timestamps| - 1))];
      var isScream := c.bestP > ScreamProb && features[c.best][0] > ScreamRms;
      outList[i] := LyricsLine(timeMs, lines[i], isScream);
      lastIdx := c.best;
      i := i + 1;
    }
  }

  /** AlignTextToAudioWithModel on given frames: the model is passed in
      rather than loaded. */
  method AlignTextToAudioWithModel(lines: seq<string>, features: seq<seq<real>>, timestamps: seq<int>,
                                   model: Option<SavedModel>, exp: real -> real)
    returns (out: seq<LyricsLine>)
    requires |timestamps| == |features|
    requires forall f :: 0 <= f < |features| ==> |features[f]| >= 1
    requires model.Some? ==> Usable(model.value)
    requires PositiveExp(exp)
    ensures out == Aligned(lines, features, timestamps, model, exp)
  {
    if |lines| == 0 {
      return [];
    }
    if |features| == 0 {
      return [];
    }
    var probs := PredictProbabilities(model, features, exp);
    PredictSpec(model, features, exp);
    var outList := DraftLines(lines, features, timestamps, probs);
    EnforceMonotonic(outList);
    out := outList[..];
  }
}
