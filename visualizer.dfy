/**
 * The real-time visualiser's analysis (RealTimeAudioService): each capture
 * callback decodes the recorded bytes, mixes them to mono, prepends the
 * samples left over from the previous callback, analyses every full window
 * of fftSize samples at a hop of fftSize / 2 into 32 band levels, and keeps
 * the unanalysed tail for the next callback.
 *
 * The numerics are parameters (record Maths): the Hamming window, the
 * complex magnitude, the FFT twiddles, log10, 10^x, tanh, and the
 * reinterpretation of four little-endian bytes as an IEEE float.  The
 * band events are returned in order instead of being raised.
 */
module Visualizer {
  import opened Options
  import opened Fft
  import Features

  type Byte = x: int | 0 <= x < 256

  datatype Encoding = IeeeFloat | Pcm | OtherEncoding

  datatype WaveFormat = WaveFormat(encoding: Encoding, bitsPerSample: int, channels: int, sampleRate: int)

  datatype Maths = Maths(hamming: (int, int) -> real, mag: Complex -> real, root: nat -> Complex,
                         log10: real -> real, pow10: real -> real, tanh: real -> real,
                         float32: seq<Byte> -> real)

  const BandCount: nat := 32
  /** The initial peak, 1e-9, so the normalisation never divides by zero. */
  const PeakFloor: real := 1.0 / 1000000000.0

  function MaxInt(a: int, b: int): int { if a >= b then a else b }
  function MinInt(a: int, b: int): int { if a <= b then a else b }
  function MaxReal(a: real, b: real): real { if a >= b then a else b }

  /** What a capture device reports: a positive channel count and sample
      rate, a non-negative sample width, and a recorded length within the
      buffer. */
  predicate DeviceData(fmt: WaveFormat, buffer: seq<Byte>, bytesRecorded: int) {
    fmt.channels >= 1 && fmt.bitsPerSample >= 0 && fmt.sampleRate > 0 &&
    0 <= bytesRecorded <= |buffer|
  }

  // ---------------------------------------------------------------------
  // Decoding

  /** A little-endian 16-bit two's-complement sample scaled by 1/32768. */
  function Pcm16(lo: Byte, hi: Byte): (r: real)
    ensures -1.0 <= r < 1.0
  {
    var v := lo + 256 * hi;
    var s := if v >= 32768 then v - 65536 else v;
    s as real / 32768.0
  }

  lemma Pcm16Values(lo: Byte, hi: Byte)
    ensures hi < 128 ==> Pcm16(lo, hi) * 32768.0 == (lo + 256 * hi) as real
    ensures hi >= 128 ==> Pcm16(lo, hi) * 32768.0 == (lo + 256 * hi - 65536) as real
    ensures Pcm16(0, 128) == -1.0 && Pcm16(0, 0) == 0.0
  {
  }

  lemma DivTimes(a: nat, b: nat)
    requires b >= 1
    ensures (a / b) * b <= a
  {
  }

  /** The number of interleaved samples: whole frames times channels; they
      occupy at most bytesRecorded bytes. */
  function SampleCount(bytesRecorded: nat, bytesPerSample: nat, channels: nat): (n: nat)
    requires bytesPerSample * channels >= 1
    ensures n * bytesPerSample <= bytesRecorded
  {
    var frames := bytesRecorded / (bytesPerSample * channels);
    DivTimes(bytesRecorded, bytesPerSample * channels);
    assert frames * channels * bytesPerSample == frames * (bytesPerSample * channels);
    frames * channels
  }

  /** The interleaved float samples of a callback, or None where the source
      returns without analysing: a sample width under 8 bits (the frame
      count divides by zero), a float buffer whose length is not a whole
      number of frames (the block copy overruns), or an unsupported format. */
  function Decode(fmt: WaveFormat, buffer: seq<Byte>, bytesRecorded: int, float32: seq<Byte> -> real): (r: Option<seq<real>>)
    requires DeviceData(fmt, buffer, bytesRecorded)
    ensures r.Some? ==> (fmt.bitsPerSample / 8 * fmt.channels >= 1 &&
      |r.value| == SampleCount(bytesRecorded, fmt.bitsPerSample / 8, fmt.channels))
  {
    var bps := fmt.bitsPerSample / 8;
    if bps * fmt.channels == 0 then None
    else
      var n := SampleCount(bytesRecorded, bps, fmt.channels);
      if fmt.encoding == IeeeFloat && bps == 4 then
        if bytesRecorded > 4 * n then None
        else Some(seq(n, i requires 0 <= i < n => float32(buffer[4 * i .. 4 * i + 4])))
      else if fmt.encoding == Pcm && bps == 2 then
        Some(seq(n, i requires 0 <= i < n => Pcm16(buffer[2 * i], buffer[2 * i + 1])))
      else None
  }

  /** Every 16-bit PCM sample decodes into [-1, 1). */
  lemma PcmInRange(fmt: WaveFormat, buffer: seq<Byte>, bytesRecorded: int, float32: seq<Byte> -> real)
    requires DeviceData(fmt, buffer, bytesRecorded) && fmt.encoding == Pcm
    ensures var r := Decode(fmt, buffer, bytesRecorded, float32);
      r.Some? <==> fmt.bitsPerSample / 8 == 2
    ensures var r := Decode(fmt, buffer, bytesRecorded, float32);
      r.Some? ==> forall i :: 0 <= i < |r.value| ==> -1.0 <= r.value[i] < 1.0
  {
  }

  method DecodeSamples(fmt: WaveFormat, buffer: seq<Byte>, bytesRecorded: int, float32: seq<Byte> -> real)
    returns (r: Option<seq<real>>)
    requires DeviceData(fmt, buffer, bytesRecorded)
    ensures r == Decode(fmt, buffer, bytesRecorded, float32)
  {
    var bytesPerSample := fmt.bitsPerSample / 8;
    var channels := fmt.channels;
    if bytesPerSample * channels == 0 {
      return None;
    }
    var n := SampleCount(bytesRecorded, bytesPerSample, channels);
    var floats := new real[n];
    if fmt.encoding == IeeeFloat && bytesPerSample == 4 {
      if bytesRecorded > 4 * n {
        return None;
      }
      forall i | 0 <= i < n {
        floats[i] := float32(buffer[4 * i .. 4 * i + 4]);
      }
      assert floats[..] == Decode(fmt, buffer, bytesRecorded, float32).value;
    } else if fmt.encoding == Pcm && bytesPerSample == 2 {
      var i := 0;
      while i < n
        invariant 0 <= i <= n
        invariant forall k :: 0 <= k < i ==> floats[k] == Pcm16(buffer[2 * k], buffer[2 * k + 1])
      {
        var idx := i * 2;
        floats[i] := Pcm16(buffer[idx], buffer[idx + 1]);
        i := i + 1;
      }
      assert floats[..] == Decode(fmt, buffer, bytesRecorded, float32).value;
    } else {
      return None;
    }
    r := Some(floats[..]);
  }

  // ---------------------------------------------------------------------
  // Windowing

  /** The full windows of s, taken every hop samples. */
  function Windows(s: seq<real>, size: nat, hop: nat): (ws: seq<seq<real>>)
    requires 1 <= hop <= size
    ensures forall k :: 0 <= k < |ws| ==> |ws[k]| == size
    decreases |s|
  {
    if |s| < size then [] else [s[..size]] + Windows(s[hop..], size, hop)
  }

  /** What is left once no further full window fits. */
  function Rest(s: seq<real>, size: nat, hop: nat): seq<real>
    requires 1 <= hop <= size
    decreases |s|
  {
    if |s| < size then s else Rest(s[hop..], size, hop)
  }

  /** No window below one window's length, otherwise (len - size) / hop + 1. */
  lemma {:induction false} WindowsCount(s: seq<real>, size: nat, hop: nat)
    requires 1 <= hop <= size
    ensures |Windows(s, size, hop)| == if |s| < size then 0 else (|s| - size) / hop + 1
    decreases |s|
  {
    if |s| >= size {
      var t := s[hop..];
      WindowsCount(t, size, hop);
      if |t| >= size {
        DivStep(|s| - size, hop);
      }
    }
  }

  lemma DivStep(a: nat, hop: nat)
    requires 1 <= hop <= a
    ensures (a - hop) / hop + 1 == a / hop
  {
    var q, r := (a - hop) / hop, (a - hop) % hop;
    assert a == hop * (q + 1) + r;
    Fft.DivModUnique(a, hop, q + 1, r);
  }

  /** Window k is s[k * hop .. k * hop + size]. */
  lemma {:induction false} WindowsAt(s: seq<real>, size: nat, hop: nat, k: nat)
    requires 1 <= hop <= size && k < |Windows(s, size, hop)|
    ensures k * hop + size <= |s| && Windows(s, size, hop)[k] == s[k * hop .. k * hop + size]
    decreases k
  {
    if k > 0 {
      var t := s[hop..];
      WindowsAt(t, size, hop, k - 1);
      assert k * hop == (k - 1) * hop + hop;
      assert t[(k - 1) * hop .. (k - 1) * hop + size] == s[k * hop .. k * hop + size];
    }
  }

  /** The tail is the suffix after the last hop, and it is shorter than a
      window. */
  lemma {:induction false} RestIsTail(s: seq<real>, size: nat, hop: nat)
    requires 1 <= hop <= size
    ensures |Windows(s, size, hop)| * hop <= |s|
    ensures Rest(s, size, hop) == s[|Windows(s, size, hop)| * hop..]
    ensures |Rest(s, size, hop)| < size
    decreases |s|
  {
    if |s| >= size {
      var t := s[hop..];
      RestIsTail(t, size, hop);
      var c := |Windows(t, size, hop)|;
      assert (c + 1) * hop == c * hop + hop;
      assert t[c * hop..] == s[(c + 1) * hop..];
    }
  }

  // ---------------------------------------------------------------------
  // Bands

  /** Band i covers mags[idx0..idx1]: the log-spaced edges of
      20 Hz..Nyquist, floored/ceiled to bins of sampleRate / fftSize and
      clamped into 0..half-1, with idx1 raised to idx0 if it fell below. */
  function BandRange(i: nat, half: nat, sampleRate: int, fftSize: nat, maths: Maths): (r: (int, int))
    requires half >= 1 && sampleRate > 0 && fftSize >= 1
    ensures 0 <= r.0 <= r.1 <= half - 1
  {
    var logMin := maths.log10(MaxReal(1.0, 20.0));
    var logMax := maths.log10(MaxReal(logMin + 1.0 / 1000000.0, sampleRate as real / 2.0));
    var frac0 := i as real / BandCount as real;
    var frac1 := (i + 1) as real / BandCount as real;
    var f0 := maths.pow10(logMin + (logMax - logMin) * frac0);
    var f1 := maths.pow10(logMin + (logMax - logMin) * frac1);
    var binWidth := sampleRate as real / fftSize as real;
    var raw0 := (f0 / binWidth).Floor;
    var raw1 := -((-(f1 / binWidth)).Floor);
    var idx0 := MaxInt(0, MinInt(half - 1, raw0));
    var idx1 := MaxInt(0, MinInt(half - 1, raw1));
    (idx0, if idx1 < idx0 then idx0 else idx1)
  }

  function SumRange(mags: seq<real>, lo: int, hi: int): real
    requires 0 <= lo && hi <= |mags|
    decreases hi - lo
  {
    if hi <= lo then 0.0 else SumRange(mags, lo, hi - 1) + mags[hi - 1]
  }

  lemma {:induction false} SumRangeNonNegative(mags: seq<real>, lo: int, hi: int)
    requires 0 <= lo && hi <= |mags|
    requires forall j :: 0 <= j < |mags| ==> mags[j] >= 0.0
    ensures SumRange(mags, lo, hi) >= 0.0
    decreases hi - lo
  {
    if hi > lo {
      SumRangeNonNegative(mags, lo, hi - 1);
    }
  }

  /** Band i's level: the mean magnitude over its bins. */
  function BandLevel(mags: seq<real>, i: nat, sampleRate: int, fftSize: nat, maths: Maths): real
    requires |mags| >= 1 && sampleRate > 0 && fftSize >= 1
  {
    var (idx0, idx1) := BandRange(i, |mags|, sampleRate, fftSize, maths);
    SumRange(mags, idx0, idx1 + 1) / MaxInt(1, idx1 - idx0 + 1) as real
  }

  function BandLevels(mags: seq<real>, sampleRate: int, fftSize: nat, maths: Maths): (b: seq<real>)
    requires |mags| >= 1 && sampleRate > 0 && fftSize >= 1
    ensures |b| == BandCount
  {
    seq(BandCount, i requires 0 <= i < BandCount => BandLevel(mags, i, sampleRate, fftSize, maths))
  }

  /** The running maximum of bands[..k], starting from 1e-9. */
  function PeakOf(bands: seq<real>, k: nat): (p: real)
    requires k <= |bands|
    ensures p >= PeakFloor
  {
    if k == 0 then PeakFloor
    else
      var p := PeakOf(bands, k - 1);
      if bands[k - 1] > p then bands[k - 1] else p
  }

  /** The peak is at least 1e-9 and at least every band, and it is 1e-9 or
      one of the bands. */
  lemma {:induction false} PeakSpec(bands: seq<real>, k: nat)
    requires k <= |bands|
    ensures forall i :: 0 <= i < k ==> bands[i] <= PeakOf(bands, k)
    ensures PeakOf(bands, k) == PeakFloor || exists i :: 0 <= i < k && PeakOf(bands, k) == bands[i]
  {
    if k > 0 {
      PeakSpec(bands, k - 1);
    }
  }

  /** Dividing by the peak maps a non-negative band into [0, 1]. */
  lemma RatioUnit(bands: seq<real>, i: nat)
    requires i < |bands| && bands[i] >= 0.0
    ensures 0.0 <= bands[i] / PeakOf(bands, |bands|) <= 1.0
  {
    PeakSpec(bands, |bands|);
  }

  /** Each level as tanh(2.5 * level / peak). */
  function Normalised(bands: seq<real>, tanh: real -> real): (r: seq<real>)
    ensures |r| == |bands|
  {
    PeakSpec(bands, |bands|);
    var peak := PeakOf(bands, |bands|);
    seq(|bands|, i requires 0 <= i < |bands| => tanh(bands[i] / peak * 2.5))
  }

  function Windowed(w: seq<real>, hamming: (int, int) -> real): (x: seq<Complex>)
    ensures |x| == |w|
  {
    seq(|w|, i requires 0 <= i < |w| => Complex(w[i] * hamming(i, |w|), 0.0))
  }

  function Magnitudes(x: seq<Complex>, mag: Complex -> real, half: nat): (m: seq<real>)
    requires half <= |x|
    ensures |m| == half
  {
    seq(half, i requires 0 <= i < half => mag(x[i]))
  }

  /** The 32 band values emitted for one window. */
  function WindowBands(w: seq<real>, sampleRate: int, maths: Maths): (b: seq<real>)
    requires IsPow2(|w|) && |w| >= 2 && sampleRate > 0
    ensures |b| == BandCount
  {
    var x := Transform(Windowed(w, maths.hamming), Log2(|w|), maths.root);
    var mags := Magnitudes(x, maths.mag, |w| / 2);
    Normalised(BandLevels(mags, sampleRate, |w|, maths), maths.tanh)
  }

  /** The raw band levels are non-negative when magnitudes are, and every
      level divided by the peak lies in [0, 1]. */
  lemma BandLevelsUnit(mags: seq<real>, sampleRate: int, fftSize: nat, maths: Maths)
    requires |mags| >= 1 && sampleRate > 0 && fftSize >= 1
    requires forall j :: 0 <= j < |mags| ==> mags[j] >= 0.0
    ensures var b := BandLevels(mags, sampleRate, fftSize, maths);
      forall i :: 0 <= i < |b| ==> b[i] >= 0.0 && 0.0 <= b[i] / PeakOf(b, |b|) <= 1.0
  {
    var b := BandLevels(mags, sampleRate, fftSize, maths);
    forall i | 0 <= i < |b|
      ensures b[i] >= 0.0 && 0.0 <= b[i] / PeakOf(b, |b|) <= 1.0
    {
      var (idx0, idx1) := BandRange(i, |mags|, sampleRate, fftSize, maths);
      SumRangeNonNegative(mags, idx0, idx1 + 1);
      RatioUnit(b, i);
    }
  }

  // ---------------------------------------------------------------------
  // Per-window methods

  method HammingWindow(s: seq<real>, pos: nat, size: nat, hamming: (int, int) -> real)
    returns (window: array<Complex>)
    requires pos + size <= |s|
    ensures fresh(window) && window[..] == Windowed(s[pos .. pos + size], hamming)
  {
    window := new Complex[size];
    ghost var w := s[pos .. pos + size];
    var i := 0;
    while i < size
      invariant 0 <= i <= size
      invariant forall k :: 0 <= k < i ==> window[k] == Complex(w[k] * hamming(k, size), 0.0)
    {
      window[i] := Complex(s[pos + i] * hamming(i, size), 0.0);
      i := i + 1;
    }
    ghost var x := Windowed(w, hamming);
    assert |x| == size;
    assert forall k :: 0 <= k < size ==> x[k] == Complex(w[k] * hamming(k, size), 0.0);
    assert window[..] == x;
  }

  method ComputeMagnitudes(window: array<Complex>, mag: Complex -> real) returns (mags: array<real>)
    ensures fresh(mags) && mags[..] == Magnitudes(window[..], mag, window.Length / 2)
  {
    mags := new real[window.Length / 2];
    var i := 0;
    while i < mags.Length
      invariant 0 <= i <= mags.Length
      invariant forall k :: 0 <= k < i ==> mags[k] == mag(window[k])
    {
      mags[i] := mag(window[i]);
      i := i + 1;
    }
    assert mags[..] == Magnitudes(window[..], mag, window.Length / 2);
  }

  method ComputeBands(mags: array<real>, sampleRate: int, fftSize: nat, maths: Maths) returns (bands: array<real>)
    requires mags.Length >= 1 && sampleRate > 0 && fftSize >= 1
    ensures fresh(bands) && bands[..] == BandLevels(mags[..], sampleRate, fftSize, maths)
  {
    bands := new real[BandCount];
    var i := 0;
    while i < BandCount
      invariant 0 <= i <= BandCount
      invariant forall k :: 0 <= k < i ==> bands[k] == BandLevel(mags[..], k, sampleRate, fftSize, maths)
    {
      var (idx0, idx1) := BandRange(i, mags.Length, sampleRate, fftSize, maths);
      var sum := 0.0;
      var b := idx0;
      while b <= idx1
        invariant idx0 <= b <= idx1 + 1
        invariant sum == SumRange(mags[..], idx0, b)
      {
        sum := sum + mags[b];
        b := b + 1;
      }
      var bins := MaxInt(1, idx1 - idx0 + 1);
      bands[i] := sum / bins as real;
      i := i + 1;
    }
  }

  /** The peak scaling, in place. */
  method NormaliseBands(bands: array<real>, tanh: real -> real)
    modifies bands
    ensures bands[..] == Normalised(old(bands[..]), tanh)
  {
    var peak := PeakFloor;
    var i := 0;
    while i < bands.Length
      invariant 0 <= i <= bands.Length
      invariant peak == PeakOf(bands[..], i)
    {
      if bands[i] > peak {
        peak := bands[i];
      }
      i := i + 1;
    }
    ghost var raw := bands[..];
    PeakSpec(raw, |raw|);
    i := 0;
    while i < bands.Length
      invariant 0 <= i <= bands.Length
      invariant forall k :: 0 <= k < i ==> bands[k] == tanh(raw[k] / peak * 2.5)
      invariant forall k :: i <= k < bands.Length ==> bands[k] == raw[k]
    {
      var v := bands[i] / peak;
      bands[i] := tanh(v * 2.5);
      i := i + 1;
    }
  }

  method AnalyseWindow(s: seq<real>, pos: nat, size: nat, sampleRate: int, maths: Maths) returns (bands: seq<real>)
    requires pos + size <= |s| && IsPow2(size) && size >= 2 && sampleRate > 0
    ensures bands == WindowBands(s[pos .. pos + size], sampleRate, maths)
  {
    var window := HammingWindow(s, pos, size, maths.hamming);
    FFT(window, maths.root);
    var mags := ComputeMagnitudes(window, maths.mag);
    var raw := ComputeBands(mags, sampleRate, size, maths);
    NormaliseBands(raw, maths.tanh);
    bands := raw[..];
  }

  /** The band vectors of a list of windows. */
  function AllBands(ws: seq<seq<real>>, sampleRate: int, maths: Maths): (r: seq<seq<real>>)
    requires sampleRate > 0
    requires forall k :: 0 <= k < |ws| ==> IsPow2(|ws[k]|) && |ws[k]| >= 2
    ensures |r| == |ws|
  {
    seq(|ws|, k requires 0 <= k < |ws| => WindowBands(ws[k], sampleRate, maths))
  }

  /** The window loop: every full window from offset 0 in steps of hop,
      returning where the unanalysed tail begins. */
  method AnalyseAll(mono: seq<real>, size: nat, sampleRate: int, maths: Maths)
    returns (events: seq<seq<real>>, pos: nat)
    requires IsPow2(size) && size >= 2 && sampleRate > 0
    ensures pos <= |mono| && mono[pos..] == Rest(mono, size, size / 2)
    ensures events == AllBands(Windows(mono, size, size / 2), sampleRate, maths)
  {
    var hop := size / 2;
    ghost var done: seq<seq<real>> := [];
    events := [];
    pos := 0;
    while pos + size <= |mono|
      invariant 0 <= pos <= |mono|
      invariant done + Windows(mono[pos..], size, hop) == Windows(mono, size, hop)
      invariant Rest(mono[pos..], size, hop) == Rest(mono, size, hop)
      invariant |done| == |events| && forall k :: 0 <= k < |done| ==> |done[k]| == size
      invariant events == AllBands(done, sampleRate, maths)
      decreases |mono| - pos
    {
      var bands := AnalyseWindow(mono, pos, size, sampleRate, maths);
      assert mono[pos..][..size] == mono[pos .. pos + size];
      assert mono[pos..][hop..] == mono[pos + hop..];
      done := done + [mono[pos .. pos + size]];
      events := events + [bands];
      pos := pos + hop;
    }
  }

  // ---------------------------------------------------------------------
  // The service

  class RealTimeAudio {
    const fftSize: int
    /** Mono samples not yet covered by a full window. */
    var leftover: seq<real>

    /** The window size is at least 256 samples. */
    constructor(size: int)
      ensures fftSize == MaxInt(256, size) && leftover == []
    {
      fftSize := MaxInt(256, size);
      leftover := [];
    }

    /** One capture callback: returns the band vectors it would raise, in
        order, and keeps the unanalysed tail.  The source does not check
        that fftSize is a power of two; its FFT needs it. */
    method CaptureDataAvailable(fmt: WaveFormat, buffer: seq<Byte>, bytesRecorded: int, maths: Maths)
      returns (events: seq<seq<real>>)
      requires fftSize >= 256 && IsPow2(fftSize)
      requires DeviceData(fmt, buffer, bytesRecorded)
      modifies this
      ensures var d := Decode(fmt, buffer, bytesRecorded, maths.float32);
        if d.None? then events == [] && leftover == old(leftover)
        else
          var combined := old(leftover) + Features.Mono(d.value, fmt.channels);
          leftover == Rest(combined, fftSize, fftSize / 2) &&
          events == AllBands(Windows(combined, fftSize, fftSize / 2), fmt.sampleRate, maths)
    {
      var floats := DecodeSamples(fmt, buffer, bytesRecorded, maths.float32);
      if floats.None? {
        return [];
      }
      var mono := Features.MixToMono(floats.value, fmt.channels);
      if |leftover| > 0 {
        mono := leftover + mono;
      } else {
        assert leftover + mono == mono;
      }
      var pos;
      events, pos := AnalyseAll(mono, fftSize, fmt.sampleRate, maths);
      leftover := mono[pos..];
    }
  }
}
