/**
 * Per-window feature extraction of the onset aligner
 * (NeuralAligner.ExtractFeaturesFromFile), over the interleaved float
 * stream that the MP3 sample provider would return.  Each read chunk of
 * windowSamples * channels floats is mixed to mono and reduced to the
 * vector [rms, zcr, specCent, maxAbs]; its timestamp is
 * windowIndex * windowMs / 1000 seconds.
 *
 * Math.Sqrt and Complex.Magnitude are parameters `sqrt` and `mag`, and
 * the FFT twiddle factors are `root` (see module Fft).
 */
module Features {
  import opened Fft
  import Strings

  function Max(a: int, b: int): int { if a >= b then a else b }

  function Abs(v: real): real { if v < 0.0 then -v else v }

  /** Math.Sign. */
  function Sign(v: real): int { if v > 0.0 then 1 else if v < 0.0 then -1 else 0 }

  /** Sum of a sequence, accumulated left to right. */
  function Sum(x: seq<real>): real {
    if |x| == 0 then 0.0 else Sum(x[..|x| - 1]) + x[|x| - 1]
  }

  // ---------------------------------------------------------------------
  // Mono mix

  /** The mono signal of an interleaved buffer: each frame of `channels`
      samples becomes their average; a trailing partial frame is dropped. */
  function Mono(buf: seq<real>, channels: nat): (mono: seq<real>)
    requires channels >= 1
    decreases |buf|
  {
    if |buf| < channels then []
    else [Sum(buf[..channels]) / channels as real] + Mono(buf[channels..], channels)
  }

  lemma {:induction false} MonoLength(buf: seq<real>, channels: nat)
    requires channels >= 1
    ensures |Mono(buf, channels)| == |buf| / channels
    decreases |buf|
  {
    if |buf| < channels {
      DivModUnique(|buf|, channels, 0, |buf|);
    } else {
      MonoLength(buf[channels..], channels);
      var q, r := (|buf| - channels) / channels, (|buf| - channels) % channels;
      assert |buf| - channels == channels * q + r;
      assert channels * (q + 1) == channels * q + channels;
      DivModUnique(|buf|, channels, q + 1, r);
    }
  }

  /** Frame f of the mono signal is the average of samples
      f*channels .. f*channels + channels - 1 of the buffer. */
  lemma {:induction false} MonoFrame(buf: seq<real>, channels: nat, f: nat)
    requires channels >= 1 && f < |Mono(buf, channels)|
    ensures f * channels + channels <= |buf|
    ensures Mono(buf, channels)[f] == Sum(buf[f * channels .. f * channels + channels]) / channels as real
    decreases f
  {
    if f > 0 {
      MonoFrame(buf[channels..], channels, f - 1);
      assert (f - 1) * channels + channels == f * channels;
      assert buf[channels..][(f - 1) * channels .. (f - 1) * channels + channels]
          == buf[f * channels .. f * channels + channels];
    }
  }

  /** The inner loop of the mono mix: the sum of one frame's channels. */
  method FrameSum(buf: seq<real>, base: nat, channels: nat) returns (sum: real)
    requires base + channels <= |buf|
    ensures sum == Sum(buf[base .. base + channels])
  {
    sum := 0.0;
    var c := 0;
    while c < channels
      invariant 0 <= c <= channels
      invariant sum == Sum(buf[base .. base + c])
    {
      assert buf[base .. base + c + 1][..c] == buf[base .. base + c];
      sum := sum + buf[base + c];
      c := c + 1;
    }
  }

  /** The mono-mix loop of ExtractFeaturesFromFile. */
  method MixToMono(buf: seq<real>, channels: nat) returns (mono: seq<real>)
    requires channels >= 1
    ensures mono == Mono(buf, channels)
  {
    var samplesCount := |buf| / channels;
    MonoLength(buf, channels);
    mono := [];
    var s := 0;
    var base := 0;
    while s < samplesCount
      invariant 0 <= s <= samplesCount && |mono| == s && 0 <= base <= |buf|
      invariant mono + Mono(buf[base..], channels) == Mono(buf, channels)
      invariant samplesCount - s == |buf[base..]| / channels
    {
      MonoLength(buf[base..], channels);
      var sum := FrameSum(buf, base, channels);
      assert buf[base..][..channels] == buf[base .. base + channels];
      assert buf[base..][channels..] == buf[base + channels..];
      mono := mono + [sum / channels as real];
      base := base + channels;
      s := s + 1;
      MonoLength(buf[base..], channels);
    }
    MonoLength(buf[base..], channels);
  }

  // ---------------------------------------------------------------------
  // Time-domain features

  function SumSq(m: seq<real>): (r: real)
    ensures r >= 0.0
  {
    if |m| == 0 then 0.0 else SumSq(m[..|m| - 1]) + m[|m| - 1] * m[|m| - 1]
  }

  function MaxAbs(m: seq<real>): (r: real)
    ensures r >= 0.0
  {
    if |m| == 0 then 0.0
    else
      var p := MaxAbs(m[..|m| - 1]);
      if Abs(m[|m| - 1]) > p then Abs(m[|m| - 1]) else p
  }

  /** Number of adjacent pairs whose Math.Sign differs. */
  function ZeroCrossings(m: seq<real>): nat {
    if |m| <= 1 then 0
    else ZeroCrossings(m[..|m| - 1]) + (if Sign(m[|m| - 1]) != Sign(m[|m| - 2]) then 1 else 0)
  }

  lemma {:induction false} ZeroCrossingsBound(m: seq<real>)
    requires |m| >= 1
    ensures ZeroCrossings(m) <= |m| - 1
  {
    if |m| > 1 {
      ZeroCrossingsBound(m[..|m| - 1]);
    }
  }

  /** MaxAbs is the largest absolute sample value (0 for no samples). */
  lemma {:induction false} MaxAbsIsMax(m: seq<real>)
    ensures forall i :: 0 <= i < |m| ==> Abs(m[i]) <= MaxAbs(m)
    ensures |m| > 0 ==> exists i :: 0 <= i < |m| && Abs(m[i]) == MaxAbs(m)
    ensures |m| == 0 ==> MaxAbs(m) == 0.0
  {
    if |m| > 0 {
      var p := m[..|m| - 1];
      MaxAbsIsMax(p);
      assert forall i :: 0 <= i < |p| ==> p[i] == m[i];
      if |p| == 0 || Abs(m[|m| - 1]) > MaxAbs(p) {
        assert Abs(m[|m| - 1]) == MaxAbs(m);
      } else {
        var i :| 0 <= i < |p| && Abs(p[i]) == MaxAbs(p);
        assert Abs(m[i]) == MaxAbs(m);
      }
    }
  }

  // ---------------------------------------------------------------------
  // Padding to a power of two

  function NextPow2From(cur: nat, n: nat): (r: nat)
    requires cur >= 1
    decreases n - cur
  {
    if cur >= n then cur else NextPow2From(2 * cur, n)
  }

  /** The FFT length: doubling from 1 until at least n, then at least 64. */
  function PadLen(n: nat): (r: nat)
    ensures r >= 64
  {
    var p := NextPow2From(1, n);
    if p < 64 then 64 else p
  }

  lemma {:induction false} NextPow2FromSpec(k: nat, n: nat)
    requires Pow2(k) < 2 * n || k == 0
    ensures IsPow2(NextPow2From(Pow2(k), n))
    ensures NextPow2From(Pow2(k), n) >= n
    ensures NextPow2From(Pow2(k), n) == 1 || NextPow2From(Pow2(k), n) / 2 < n
    decreases n - Pow2(k)
  {
    Log2OfPow2(k);
    if Pow2(k) < n {
      assert Pow2(k + 1) == 2 * Pow2(k);
      NextPow2FromSpec(k + 1, n);
    } else if k > 0 {
      assert Pow2(k) / 2 == Pow2(k - 1);
    }
  }

  /** The padded length N is a power of two, at least 64 and at least the
      sample count, and it is the smallest such: either 64 or half of it
      is below the sample count. */
  lemma PadLenSpec(n: nat)
    ensures IsPow2(PadLen(n)) && PadLen(n) >= 64 && PadLen(n) >= n
    ensures PadLen(n) == 64 || PadLen(n) / 2 < n
  {
    NextPow2FromSpec(0, n);
    Log2OfPow2(6);
  }

  /** The `N <<= 1` loop and the floor at 64. */
  method PaddedLength(samplesCount: nat) returns (n: nat)
    ensures n == PadLen(samplesCount)
    ensures IsPow2(n) && n >= 64 && n >= samplesCount
    ensures n == 64 || n / 2 < samplesCount
  {
    n := 1;
    while n < samplesCount
      invariant n >= 1 && NextPow2From(n, samplesCount) == NextPow2From(1, samplesCount)
      decreases samplesCount - n
    {
      n := 2 * n;
    }
    if n < 64 {
      n := 64;
    }
    PadLenSpec(samplesCount);
  }

  /** The padded buffer: the mono samples as real parts, then zeros. */
  function Padded(mono: seq<real>, n: nat): (p: seq<Complex>)
    requires |mono| <= n
    ensures |p| == n
  {
    seq(n, i requires 0 <= i < n => if i < |mono| then Complex(mono[i], 0.0) else Zero)
  }

  // ---------------------------------------------------------------------
  // Spectral centroid

  /** Sum of |X[k]| for 1 <= k < hi. */
  function MagSum(x: seq<Complex>, mag: Complex -> real, hi: nat): real
    requires hi <= |x|
  {
    if hi <= 1 then 0.0 else MagSum(x, mag, hi - 1) + mag(x[hi - 1])
  }

  /** Sum of k * |X[k]| for 1 <= k < hi. */
  function Moment(x: seq<Complex>, mag: Complex -> real, hi: nat): real
    requires hi <= |x|
  {
    if hi <= 1 then 0.0 else Moment(x, mag, hi - 1) + (hi - 1) as real * mag(x[hi - 1])
  }

  /** Centroid of bins 1..half-1 normalised by half; 0 for a silent
      spectrum. */
  function SpecCentroid(x: seq<Complex>, mag: Complex -> real, half: nat): real
    requires 1 <= half <= |x|
  {
    var ms := MagSum(x, mag, half);
    if ms > 1.0 / 1000000000.0 then (Moment(x, mag, half) / ms) / half as real else 0.0
  }

  lemma {:induction false} MomentBounds(x: seq<Complex>, mag: Complex -> real, hi: nat)
    requires forall z :: mag(z) >= 0.0
    requires 1 <= hi <= |x|
    ensures 0.0 <= MagSum(x, mag, hi) <= Moment(x, mag, hi)
    ensures Moment(x, mag, hi) <= (hi - 1) as real * MagSum(x, mag, hi)
  {
    if hi > 1 {
      MomentBounds(x, mag, hi - 1);
      var m := mag(x[hi - 1]);
      var ms := MagSum(x, mag, hi - 1);
      assert (hi - 2) as real * ms <= (hi - 1) as real * ms;
      assert (hi - 1) as real * m >= m;
    }
  }

  lemma RatioBounds(mo: real, ms: real, h: real)
    requires ms > 0.0 && ms <= mo <= (h - 1.0) * ms && h >= 1.0
    ensures 1.0 / h <= (mo / ms) / h <= (h - 1.0) / h
  {
    var q := mo / ms;
    assert q * ms == mo;
    if q < 1.0 {
      assert q * ms < ms;
    }
    if q > h - 1.0 {
      assert q * ms > (h - 1.0) * ms;
    }
  }

  /** specCent is 0 for a spectrum with magnitude sum at most 1e-9, and
      otherwise lies in [1/half, (half-1)/half]. */
  lemma SpecCentroidBounds(x: seq<Complex>, mag: Complex -> real, half: nat)
    requires forall z :: mag(z) >= 0.0
    requires 1 <= half <= |x|
    ensures MagSum(x, mag, half) <= 1.0 / 1000000000.0 ==> SpecCentroid(x, mag, half) == 0.0
    ensures MagSum(x, mag, half) > 1.0 / 1000000000.0 ==>
      1.0 / half as real <= SpecCentroid(x, mag, half) <= (half - 1) as real / half as real
  {
    MomentBounds(x, mag, half);
    var ms := MagSum(x, mag, half);
    if ms > 1.0 / 1000000000.0 {
      RatioBounds(Moment(x, mag, half), ms, half as real);
    }
  }

  // ---------------------------------------------------------------------
  // One window

  /** The spectrum of a window: the FFT of its zero-padded mono signal. */
  function Spectrum(mono: seq<real>, root: nat -> Complex): (x: seq<Complex>)
    ensures |x| == PadLen(|mono|)
  {
    var n := PadLen(|mono|);
    PadLenSpec(|mono|);
    Transform(Padded(mono, n), Log2(n), root)
  }

  function Rms(mono: seq<real>, sqrt: real -> real): real {
    sqrt(SumSq(mono) / Max(1, |mono|) as real)
  }

  function Zcr(mono: seq<real>): real {
    ZeroCrossings(mono) as real / Max(1, |mono|) as real
  }

  function SpecCent(mono: seq<real>, mag: Complex -> real, root: nat -> Complex): real {
    SpecCentroid(Spectrum(mono, root), mag, PadLen(|mono|) / 2)
  }

  /** The feature vector [rms, zcr, specCent, maxAbs] of one read buffer. */
  function WindowFeatures(buf: seq<real>, channels: nat, sqrt: real -> real,
                          mag: Complex -> real, root: nat -> Complex): (f: seq<real>)
    requires channels >= 1
    ensures |f| == 4
  {
    var mono := Mono(buf, channels);
    [Rms(mono, sqrt), Zcr(mono), SpecCent(mono, mag, root), MaxAbs(mono)]
  }

  /** The sum-of-squares, peak and zero-crossing loop. */
  method TimeDomain(mono: seq<real>) returns (sumSq: real, maxAbs: real, zc: nat)
    ensures sumSq == SumSq(mono) && maxAbs == MaxAbs(mono) && zc == ZeroCrossings(mono)
  {
    sumSq, maxAbs, zc := 0.0, 0.0, 0;
    var i := 0;
    while i < |mono|
      invariant 0 <= i <= |mono|
      invariant sumSq == SumSq(mono[..i]) && maxAbs == MaxAbs(mono[..i])
      invariant zc == ZeroCrossings(mono[..i])
    {
      assert mono[..i + 1][..i] == mono[..i];
      var v := mono[i];
      sumSq := sumSq + v * v;
      if Abs(v) > maxAbs {
        maxAbs := Abs(v);
      }
      if i > 0 && Sign(mono[i]) != Sign(mono[i - 1]) {
        zc := zc + 1;
      }
      i := i + 1;
    }
    assert mono[..|mono|] == mono;
  }

  /** The zero-padded FFT input. */
  method PadBuffer(mono: seq<real>, n: nat) returns (padded: array<Complex>)
    requires |mono| <= n
    ensures fresh(padded) && padded[..] == Padded(mono, n)
  {
    var samplesCount := |mono|;
    padded := new Complex[n];
    var i := 0;
    while i < samplesCount && i < n
      invariant 0 <= i <= samplesCount
      invariant forall k :: 0 <= k < i ==> padded[k] == Padded(mono, n)[k]
    {
      padded[i] := Complex(mono[i], 0.0);
      i := i + 1;
    }
    i := samplesCount;
    while i < n
      invariant samplesCount <= i <= n
      invariant forall k :: 0 <= k < i ==> padded[k] == Padded(mono, n)[k]
    {
      padded[i] := Zero;
      i := i + 1;
    }
  }

  /** The magnitude-sum and weighted-sum loop over bins 1..half-1. */
  method CentroidSums(x: array<Complex>, mag: Complex -> real, half: nat) returns (magSum: real, centroid: real)
    requires 1 <= half <= x.Length
    ensures magSum == MagSum(x[..], mag, half) && centroid == Moment(x[..], mag, half)
  {
    magSum, centroid := 0.0, 0.0;
    var k := 1;
    while k < half
      invariant 1 <= k <= half
      invariant magSum == MagSum(x[..], mag, k)
      invariant centroid == Moment(x[..], mag, k)
    {
      var m := mag(x[k]);
      magSum := magSum + m;
      centroid := centroid + k as real * m;
      k := k + 1;
    }
  }

  /** Padding, FFT and the normalised spectral centroid of one window. */
  method SpectralCentroid(mono: seq<real>, mag: Complex -> real, root: nat -> Complex) returns (specCent: real)
    ensures specCent == SpecCent(mono, mag, root)
  {
    var n := PaddedLength(|mono|);
    PadLenSpec(|mono|);
    var padded := PadBuffer(mono, n);
    FFT(padded, root);
    assert padded[..] == Spectrum(mono, root);
    var half := n / 2;
    var magSum, centroid := CentroidSums(padded, mag, half);
    specCent := if magSum > 1.0 / 1000000000.0 then (centroid / magSum) / half as real else 0.0;
  }

  /** The body of the read loop for one buffer. */
  method ExtractWindow(buf: seq<real>, channels: nat, sqrt: real -> real,
                       mag: Complex -> real, root: nat -> Complex) returns (f: seq<real>)
    requires channels >= 1
    ensures f == WindowFeatures(buf, channels, sqrt, mag, root)
  {
    var mono := MixToMono(buf, channels);
    var sumSq, maxAbs, zc := TimeDomain(mono);
    var samplesCount := |mono|;
    var rms := sqrt(sumSq / Max(1, samplesCount) as real);
    var zcr := zc as real / Max(1, samplesCount) as real;
    var specCent := SpectralCentroid(mono, mag, root);
    f := [rms, zcr, specCent, maxAbs];
  }

  /** The zero-crossing rate of every window lies in [0, 1). */
  lemma ZeroCrossingRateBound(mono: seq<real>)
    ensures 0.0 <= Zcr(mono) < 1.0
  {
    if |mono| >= 1 {
      ZeroCrossingsBound(mono);
    }
  }

  /** With a nonnegative square root, rms >= 0. */
  lemma RmsNonNegative(mono: seq<real>, sqrt: real -> real)
    requires forall v :: v >= 0.0 ==> sqrt(v) >= 0.0
    ensures Rms(mono, sqrt) >= 0.0
  {
    assert SumSq(mono) / Max(1, |mono|) as real >= 0.0;
  }

  /** With nonnegative magnitudes, specCent is 0 or lies in
      [1/half, (half-1)/half]. */
  lemma SpecCentBounds(mono: seq<real>, mag: Complex -> real, root: nat -> Complex)
    requires forall z :: mag(z) >= 0.0
    ensures var half := PadLen(|mono|) / 2;
      SpecCent(mono, mag, root) == 0.0 ||
      1.0 / half as real <= SpecCent(mono, mag, root) <= (half - 1) as real / half as real
  {
    SpecCentroidBounds(Spectrum(mono, root), mag, PadLen(|mono|) / 2);
  }

  lemma SumSqOfZero(m: seq<real>)
    requires forall i :: 0 <= i < |m| ==> m[i] == 0.0
    ensures SumSq(m) == 0.0 && MaxAbs(m) == 0.0 && ZeroCrossings(m) == 0
  {
    if |m| > 0 {
      SumSqOfZero(m[..|m| - 1]);
    }
  }

  lemma MagSumOfZero(x: seq<Complex>, mag: Complex -> real, hi: nat)
    requires mag(Zero) == 0.0 && hi <= |x| && AllZero(x)
    ensures MagSum(x, mag, hi) == 0.0
  {
    if hi > 1 {
      MagSumOfZero(x, mag, hi - 1);
    }
  }

  /** An all-zero window yields rms = zcr = specCent = maxAbs = 0. */
  /** The spectral centroid of silence is 0. */
  lemma SilentSpecCent(mono: seq<real>, mag: Complex -> real, root: nat -> Complex)
    requires mag(Zero) == 0.0
    requires forall i :: 0 <= i < |mono| ==> mono[i] == 0.0
    ensures SpecCent(mono, mag, root) == 0.0
  {
    var n := PadLen(|mono|);
    PadLenSpec(|mono|);
    var p := Padded(mono, n);
    assert AllZero(p);
    TransformOfZero(p, Log2(n), root);
    MagSumOfZero(Spectrum(mono, root), mag, n / 2);
  }

  /** An all-zero window yields rms = zcr = specCent = maxAbs = 0. */
  lemma SilentWindow(buf: seq<real>, channels: nat, sqrt: real -> real,
                     mag: Complex -> real, root: nat -> Complex)
    requires channels >= 1
    requires sqrt(0.0) == 0.0 && mag(Zero) == 0.0
    requires forall i :: 0 <= i < |buf| ==> buf[i] == 0.0
    ensures WindowFeatures(buf, channels, sqrt, mag, root) == [0.0, 0.0, 0.0, 0.0]
  {
    var mono := Mono(buf, channels);
    MonoOfZero(buf, channels);
    SumSqOfZero(mono);
    SilentSpecCent(mono, mag, root);
  }

  lemma {:induction false} MonoOfZero(buf: seq<real>, channels: nat)
    requires channels >= 1
    requires forall i :: 0 <= i < |buf| ==> buf[i] == 0.0
    ensures forall i :: 0 <= i < |Mono(buf, channels)| ==> Mono(buf, channels)[i] == 0.0
    decreases |buf|
  {
    if |buf| >= channels {
      SumOfZero(buf[..channels]);
      MonoOfZero(buf[channels..], channels);
    }
  }

  lemma SumOfZero(x: seq<real>)
    requires forall i :: 0 <= i < |x| ==> x[i] == 0.0
    ensures Sum(x) == 0.0
  {
    if |x| > 0 {
      SumOfZero(x[..|x| - 1]);
    }
  }

  // ---------------------------------------------------------------------
  // The read loop

  /** windowSamples = Math.Max(256, sampleRate * windowMs / 1000).  For a
      negative product C#'s truncating division and Dafny's Euclidean one
      both give a value below 256, so the maximum is the same. */
  function WindowSamples(sampleRate: int, windowMs: int): (w: nat)
    ensures w >= 256
  {
    Max(256, (sampleRate * windowMs) / 1000)
  }

  /** The buffers a stream of floats is read into, `chunk` at a time: the
      loop stops after the first short (or empty) read. */
  function Chunks(s: seq<real>, chunk: nat): (cs: seq<seq<real>>)
    requires chunk >= 1
    decreases |s|
  {
    if |s| == 0 then []
    else if |s| < chunk then [s]
    else [s[..chunk]] + Chunks(s[chunk..], chunk)
  }

  function Concat(cs: seq<seq<real>>): seq<real> {
    if |cs| == 0 then [] else cs[0] + Concat(cs[1..])
  }

  /** No sample is lost or read twice: the buffers concatenate back to the
      stream; each is full except possibly the last, which is non-empty. */
  lemma {:induction false} ChunksPartition(s: seq<real>, chunk: nat)
    requires chunk >= 1
    ensures Concat(Chunks(s, chunk)) == s
    ensures forall i :: 0 <= i < |Chunks(s, chunk)| - 1 ==> |Chunks(s, chunk)[i]| == chunk
    ensures |Chunks(s, chunk)| > 0 ==> 1 <= |Chunks(s, chunk)[|Chunks(s, chunk)| - 1]| <= chunk
    decreases |s|
  {
    if |s| >= chunk {
      var tail := Chunks(s[chunk..], chunk);
      ChunksPartition(s[chunk..], chunk);
      var cs := Chunks(s, chunk);
      assert cs == [s[..chunk]] + tail;
      assert cs[1..] == tail;
      assert s == s[..chunk] + s[chunk..];
    }
  }

  /** One turn of the read loop at `cursor`: the next read's buffer, then
      (after a full read) the rest of the stream. */
  lemma ChunksStep(samples: seq<real>, cursor: nat, read: nat, chunk: nat)
    requires chunk >= 1 && cursor < |samples|
    requires read == if chunk < |samples| - cursor then chunk else |samples| - cursor
    ensures Chunks(samples[cursor..], chunk)
      == [samples[cursor .. cursor + read]] + Chunks(samples[cursor + read..], chunk)
  {
    var rest := samples[cursor..];
    assert rest[..read] == samples[cursor .. cursor + read];
    assert rest[read..] == samples[cursor + read..];
    if read < chunk {
      assert rest == samples[cursor .. cursor + read];
      assert Chunks(samples[cursor + read..], chunk) == [];
    }
  }

  /** The timestamp of window i, in seconds. */
  function Timestamp(i: nat, windowMs: int): real {
    (i * windowMs) as real / 1000.0
  }

  /** The per-buffer computation of the read loop, as a function value. */
  function WindowRow(channels: nat, sqrt: real -> real, mag: Complex -> real,
                     root: nat -> Complex): seq<real> -> seq<real>
    requires channels >= 1
  {
    buf => WindowFeatures(buf, channels, sqrt, mag, root)
  }

  /** row applied to each buffer, in order. */
  function MapRows(bufs: seq<seq<real>>, row: seq<real> -> seq<real>): (rows: seq<seq<real>>)
    ensures |rows| == |bufs|
  {
    if |bufs| == 0 then [] else MapRows(bufs[..|bufs| - 1], row) + [row(bufs[|bufs| - 1])]
  }

  /** Row i is row applied to buffer i. */
  lemma {:induction false} MapRowsAt(bufs: seq<seq<real>>, row: seq<real> -> seq<real>, i: nat)
    requires i < |bufs|
    ensures MapRows(bufs, row)[i] == row(bufs[i])
  {
    if i < |bufs| - 1 {
      MapRowsAt(bufs[..|bufs| - 1], row, i);
    }
  }

  lemma MapRowsSnoc(bufs: seq<seq<real>>, buf: seq<real>, row: seq<real> -> seq<real>)
    ensures MapRows(bufs + [buf], row) == MapRows(bufs, row) + [row(buf)]
  {
    assert (bufs + [buf])[..|bufs|] == bufs;
  }

  /** The feature vectors of a sequence of buffers, one per buffer. */
  function FeatureRows(bufs: seq<seq<real>>, channels: nat, sqrt: real -> real,
                       mag: Complex -> real, root: nat -> Complex): (rows: seq<seq<real>>)
    requires channels >= 1
  {
    MapRows(bufs, WindowRow(channels, sqrt, mag, root))
  }

  /** Row i of the features is the feature vector of buffer i. */
  lemma FeatureRowsAt(bufs: seq<seq<real>>, channels: nat, sqrt: real -> real,
                      mag: Complex -> real, root: nat -> Complex, i: nat)
    requires channels >= 1 && i < |bufs|
    ensures |FeatureRows(bufs, channels, sqrt, mag, root)| == |bufs|
    ensures FeatureRows(bufs, channels, sqrt, mag, root)[i] == WindowFeatures(bufs[i], channels, sqrt, mag, root)
  {
    MapRowsAt(bufs, WindowRow(channels, sqrt, mag, root), i);
  }

  /** The timestamps of the first n windows. */
  function Stamps(n: nat, windowMs: int): (ts: seq<real>)
    ensures |ts| == n
  {
    if n == 0 then [] else Stamps(n - 1, windowMs) + [Timestamp(n - 1, windowMs)]
  }

  /** Window i is stamped i * windowMs / 1000 seconds. */
  lemma {:induction false} StampsAt(n: nat, windowMs: int, i: nat)
    requires i < n
    ensures Stamps(n, windowMs)[i] == Timestamp(i, windowMs)
  {
    if i < n - 1 {
      StampsAt(n - 1, windowMs, i);
    }
  }

  /** One read moves one buffer from the unread stream to the done ones. */
  lemma ReadStep(samples: seq<real>, cursor: nat, read: nat, chunk: nat, done: seq<seq<real>>)
    requires chunk >= 1 && cursor < |samples|
    requires read == if chunk < |samples| - cursor then chunk else |samples| - cursor
    requires done + Chunks(samples[cursor..], chunk) == Chunks(samples, chunk)
    ensures done + [samples[cursor .. cursor + read]] + Chunks(samples[cursor + read..], chunk)
      == Chunks(samples, chunk)
  {
    ChunksStep(samples, cursor, read, chunk);
    Strings.AppendAssoc(done, [samples[cursor .. cursor + read]], Chunks(samples[cursor + read..], chunk));
  }

  /** ExtractFeaturesFromFile over a given interleaved sample stream: one
      feature vector and one timestamp per read buffer, in order. */
  method ExtractFeatures(samples: seq<real>, sampleRate: int, channels: nat, windowMs: int,
                         sqrt: real -> real, mag: Complex -> real, root: nat -> Complex)
    returns (features: seq<seq<real>>, timestamps: seq<real>)
    requires channels >= 1
    ensures features == FeatureRows(Chunks(samples, WindowSamples(sampleRate, windowMs) * channels),
                                     channels, sqrt, mag, root)
    ensures timestamps == Stamps(|features|, windowMs)
  {
    var windowSamples := WindowSamples(sampleRate, windowMs);
    var bufLen := windowSamples * channels;
    assert bufLen >= 1 by {
      MulMonotone(0, windowSamples, channels);
    }
    features, timestamps := ReadWindows(samples, bufLen, windowMs, WindowRow(channels, sqrt, mag, root));
  }

  /** The read loop: buffers of bufLen floats until a short (or empty)
      read, each turned into a row (the per-window features, which
      ExtractWindow computes) stamped with its index. */
  method ReadWindows(samples: seq<real>, bufLen: nat, windowMs: int, row: seq<real> -> seq<real>)
    returns (features: seq<seq<real>>, timestamps: seq<real>)
    requires bufLen >= 1
    ensures features == MapRows(Chunks(samples, bufLen), row)
    ensures timestamps == Stamps(|features|, windowMs)
  {
    var windowIndex := 0;
    var cursor := 0;
    ghost var done: seq<seq<real>> := [];
    features, timestamps := [], [];
    while true
      invariant 0 <= cursor <= |samples|
      invariant done + Chunks(samples[cursor..], bufLen) == Chunks(samples, bufLen)
      invariant features == MapRows(done, row)
      invariant windowIndex == |done| && timestamps == Stamps(windowIndex, windowMs)
      decreases |samples| - cursor
    {
      var read := if bufLen < |samples| - cursor then bufLen else |samples| - cursor;
      if read <= 0 {
        assert samples[cursor..] == [];
        break;
      }
      var buffer := samples[cursor .. cursor + read];
      var f := row(buffer);
      ReadStep(samples, cursor, read, bufLen, done);
      MapRowsSnoc(done, buffer, row);
      done := done + [buffer];
      features := features + [f];
      timestamps := timestamps + [Timestamp(windowIndex, windowMs)];
      windowIndex := windowIndex + 1;
      cursor := cursor + read;
      if read < bufLen {
        assert samples[cursor..] == [];
        break;
      }
    }
    assert Chunks(samples[cursor..], bufLen) == [];
    assert done + [] == done;
  }

  /** Number of reads of at most `chunk` floats until a short one. */
  function ReadCount(len: nat, chunk: nat): nat
    requires chunk >= 1
  {
    if len == 0 then 0 else if len < chunk then 1 else 1 + ReadCount(len - chunk, chunk)
  }

  lemma {:induction false} ReadCountIsCeiling(len: nat, chunk: nat)
    requires chunk >= 1
    ensures ReadCount(len, chunk) == (len + chunk - 1) / chunk
  {
    if len == 0 {
      DivModUnique(chunk - 1, chunk, 0, chunk - 1);
    } else if len < chunk {
      DivModUnique(len + chunk - 1, chunk, 1, len - 1);
    } else {
      ReadCountIsCeiling(len - chunk, chunk);
      var x := len - 1;
      var q, r := x / chunk, x % chunk;
      assert x == chunk * q + r;
      assert len - chunk + chunk - 1 == x;
      assert chunk * (q + 1) == chunk * q + chunk;
      assert len + chunk - 1 == chunk * (q + 1) + r;
      DivModUnique(len + chunk - 1, chunk, q + 1, r);
    }
  }

  lemma {:induction false} ChunksReadCount(s: seq<real>, chunk: nat)
    requires chunk >= 1
    ensures |Chunks(s, chunk)| == ReadCount(|s|, chunk)
    decreases |s|
  {
    if |s| >= chunk {
      ChunksReadCount(s[chunk..], chunk);
    }
  }

  /** One window per started buffer: ceil(|s| / chunk) windows. */
  lemma ChunksCount(s: seq<real>, chunk: nat)
    requires chunk >= 1
    ensures |Chunks(s, chunk)| == (|s| + chunk - 1) / chunk
  {
    ChunksReadCount(s, chunk);
    ReadCountIsCeiling(|s|, chunk);
  }

  /** For a positive window length, timestamps strictly increase. */
  lemma TimestampsIncrease(i: nat, j: nat, windowMs: int)
    requires windowMs > 0 && i < j
    ensures Timestamp(i, windowMs) < Timestamp(j, windowMs)
  {
    MulMonotone(i, j, windowMs);
  }
}
