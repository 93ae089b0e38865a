/**
 * The in-place radix-2 Cooley-Tukey FFT shared by the onset aligner and the
 * real-time visualiser (NeuralAligner.FFT / RealTimeAudioService.FFT, which
 * are the same code): a bit-reversal permutation followed by log2(n)
 * butterfly stages.  Complex numbers are pairs of reals; the per-stage
 * twiddle factor e^{-2*pi*i/m2} (computed with Math.Cos/Math.Sin) is a
 * parameter `root`, so what is proved is the index structure of the
 * transform, not its numerical value.
 */
module Fft {

  datatype Complex = Complex(re: real, im: real)

  const Zero: Complex := Complex(0.0, 0.0)
  const One: Complex := Complex(1.0, 0.0)

  function Add(a: Complex, b: Complex): Complex {
    Complex(a.re + b.re, a.im + b.im)
  }

  function Sub(a: Complex, b: Complex): Complex {
    Complex(a.re - b.re, a.im - b.im)
  }

  function Mul(a: Complex, b: Complex): Complex {
    Complex(a.re * b.re - a.im * b.im, a.re * b.im + a.im * b.re)
  }

  /** The twiddle `w` after `j` steps of `w *= wm`, starting from One. */
  function CPow(wm: Complex, j: nat): Complex {
    if j == 0 then One else Mul(CPow(wm, j - 1), wm)
  }

  function Pow2(k: nat): (r: nat)
    ensures r >= 1
  {
    if k == 0 then 1 else 2 * Pow2(k - 1)
  }

  /** `(int)Math.Log(n, 2)`, taken as the exact floor of log2. */
  function Log2(n: nat): nat
  {
    if n <= 1 then 0 else 1 + Log2(n / 2)
  }

  predicate IsPow2(n: nat) {
    n >= 1 && Pow2(Log2(n)) == n
  }

  lemma {:induction false} Log2OfPow2(k: nat)
    ensures Log2(Pow2(k)) == k && IsPow2(Pow2(k))
  {
    if k > 0 {
      Log2OfPow2(k - 1);
      assert Pow2(k) / 2 == Pow2(k - 1);
    }
  }

  lemma {:induction false} Pow2Add(a: nat, b: nat)
    ensures Pow2(a + b) == Pow2(a) * Pow2(b)
  {
    if a > 0 {
      Pow2Add(a - 1, b);
    }
  }

  lemma {:induction false} Pow2Monotone(a: nat, b: nat)
    requires a <= b
    ensures Pow2(a) <= Pow2(b)
  {
    if a < b {
      Pow2Monotone(a, b - 1);
    }
  }

  // ---------------------------------------------------------------------
  // Bit reversal

  /** The `bits`-bit reversal of `x`: bit i of x becomes bit bits-1-i. */
  function Rev(x: nat, bits: nat): nat {
    if bits == 0 then 0 else (x % 2) * Pow2(bits - 1) + Rev(x / 2, bits - 1)
  }

  /** ReverseBits: the shift loop computes the bit reversal of `x`. */
  method ReverseBits(x: nat, bits: nat) returns (y: nat)
    ensures y == Rev(x, bits)
  {
    y := 0;
    var xs := x;
    var i := 0;
    while i < bits
      invariant 0 <= i <= bits
      invariant y * Pow2(bits - i) + Rev(xs, bits - i) == Rev(x, bits)
    {
      RevStep(y, xs, bits - i);
      y := 2 * y + xs % 2;
      xs := xs / 2;
      i := i + 1;
    }
  }

  /** One step of the shift loop: the low bit of `xs` moves onto `y`. */
  lemma RevStep(y: nat, xs: nat, rem: nat)
    requires rem >= 1
    ensures y * Pow2(rem) + Rev(xs, rem) == (2 * y + xs % 2) * Pow2(rem - 1) + Rev(xs / 2, rem - 1)
  {
    var p := Pow2(rem - 1);
    assert Pow2(rem) == 2 * p;
    assert Rev(xs, rem) == (xs % 2) * p + Rev(xs / 2, rem - 1);
    calc {
      y * (2 * p) + (xs % 2) * p;
      (2 * y) * p + (xs % 2) * p;
      (2 * y + xs % 2) * p;
    }
  }

  /** A bit reversal of `bits` bits stays below 2^bits. */
  lemma {:induction false} RevBound(x: nat, bits: nat)
    ensures Rev(x, bits) < Pow2(bits)
  {
    if bits > 0 {
      RevBound(x / 2, bits - 1);
      var p := Pow2(bits - 1);
      assert Pow2(bits) == 2 * p;
      if x % 2 == 0 {
        assert Rev(x, bits) == Rev(x / 2, bits - 1);
      } else {
        assert Rev(x, bits) == p + Rev(x / 2, bits - 1);
      }
    }
  }

  lemma MulMonotone(a: int, b: int, d: int)
    requires d > 0 && a < b
    ensures a * d < b * d
  {
    assert b * d - a * d == (b - a) * d;
  }

  /** Euclidean division is determined by quotient and remainder. */
  lemma DivModUnique(x: int, d: int, q: int, r: int)
    requires d > 0 && x == d * q + r && 0 <= r < d
    ensures x / d == q && x % d == r
  {
    var q0, r0 := x / d, x % d;
    assert x == d * q0 + r0;
    if q0 < q {
      assert (q0 + 1) * d <= q * d by { if q0 + 1 < q { MulMonotone(q0 + 1, q, d); } }
    } else if q < q0 {
      assert (q + 1) * d <= q0 * d by { if q + 1 < q0 { MulMonotone(q + 1, q0, d); } }
    }
  }

  lemma DivModTwice(x: nat, p: nat)
    requires p >= 1
    ensures x % (2 * p) == 2 * ((x / 2) % p) + x % 2
    ensures x / (2 * p) == (x / 2) / p
  {
    var q, r := x / 2, x % 2;
    var qq, rr := q / p, q % p;
    assert q == p * qq + rr;
    assert x == (2 * p) * qq + (2 * rr + r);
    DivModUnique(x, 2 * p, qq, 2 * rr + r);
  }

  /** Reading the reversal from the top bit: the top bit of `x` becomes the
      lowest bit of the result. */
  lemma {:induction false} RevTop(x: nat, bits: nat)
    requires bits >= 1 && x < Pow2(bits)
    ensures Rev(x, bits) == 2 * Rev(x % Pow2(bits - 1), bits - 1) + x / Pow2(bits - 1)
  {
    if bits == 1 {
      assert x < 2;
    } else {
      var q, r := x / 2, x % 2;
      var p := Pow2(bits - 2);
      assert Pow2(bits - 1) == 2 * p;
      assert q < Pow2(bits - 1);
      RevTop(q, bits - 1);
      DivModTwice(x, p);
      var low := x % (2 * p);
      assert low / 2 == q % p && low % 2 == r;
      assert Rev(low, bits - 1) == r * p + Rev(q % p, bits - 2);
    }
  }

  /** Reversing twice gives the number back, so on [0, 2^bits) the bit
      reversal is a bijection (its own inverse). */
  lemma {:induction false} RevInvolution(x: nat, bits: nat)
    requires x < Pow2(bits)
    ensures Rev(Rev(x, bits), bits) == x
  {
    if bits > 0 {
      var q, r := x / 2, x % 2;
      var p := Pow2(bits - 1);
      var y := Rev(x, bits);
      RevBound(q, bits - 1);
      RevBound(x, bits);
      assert y == p * r + Rev(q, bits - 1);
      DivModUnique(y, p, r, Rev(q, bits - 1));
      RevTop(y, bits);
      RevInvolution(q, bits - 1);
    }
  }

  /** The buffer after the swap-when-`j > i` pass: position i holds the
      element that was at Rev(i). */
  function BitReversed(x: seq<Complex>, m: nat): (r: seq<Complex>)
    requires |x| == Pow2(m)
    ensures |r| == |x|
  {
    seq(|x|, i requires 0 <= i < |x| => (RevBound(i, m); x[Rev(i, m)]))
  }

  /** Bit-reversing twice restores the buffer: the pass is a permutation
      that is its own inverse. */
  lemma BitReversedInvolution(x: seq<Complex>, m: nat)
    requires |x| == Pow2(m)
    ensures BitReversed(BitReversed(x, m), m) == x
  {
    forall i | 0 <= i < |x|
      ensures BitReversed(BitReversed(x, m), m)[i] == x[i]
    {
      RevBound(i, m);
      RevInvolution(i, m);
    }
  }

  /** The first loop of FFT: swap buffer[i] and buffer[ReverseBits(i, m)]
      whenever the partner index is larger. */
  method BitReversePermute(a: array<Complex>, m: nat)
    requires a.Length == Pow2(m)
    modifies a
    ensures a[..] == BitReversed(old(a[..]), m)
  {
    ghost var x := a[..];
    var n := a.Length;
    forall k | 0 <= k < n ensures Rev(k, m) < n { RevBound(k, m); }
    var i := 0;
    while i < n
      invariant 0 <= i <= n
      invariant forall k :: 0 <= k < n ==> Rev(k, m) < n
      invariant forall k :: 0 <= k < i ==> a[k] == x[Rev(k, m)]
      invariant forall k :: i <= k < n ==> a[k] == (if Rev(k, m) < i then x[Rev(k, m)] else x[k])
    {
      RevBound(i, m);
      var j := ReverseBits(i, m);
      RevInvolution(i, m);
      if j > i {
        RevBound(j, m);
        RevInvolution(j, m);
        var tmp := a[i];
        a[i] := a[j];
        a[j] := tmp;
      } else if j < i {
      }
      forall k | i < k < n && Rev(k, m) == i ensures k == j { RevInvolution(k, m); }
      i := i + 1;
    }
    assert a[..] == BitReversed(x, m);
  }

  // ---------------------------------------------------------------------
  // Butterfly stages

  /** Block arithmetic: a position below a multiple `n` of the block size
      lies in a block that ends at or before `n`. */
  lemma BlockBound(p: nat, m2: nat, c: nat)
    requires m2 >= 1 && p < c * m2
    ensures p - p % m2 + m2 <= c * m2
    ensures (p - p % m2) % m2 == 0
  {
    var q := p / m2;
    assert p - p % m2 == q * m2;
    DivModUnique(q * m2, m2, q, 0);
    if c < q {
      MulMonotone(c, q, m2);
    }
    assert q < c;
    if q + 1 < c {
      MulMonotone(q + 1, c, m2);
    }
    assert (q + 1) * m2 == q * m2 + m2;
  }

  /** Positions inside a block: offset `j` from a block start `k`. */
  lemma BlockPos(k: nat, j: nat, m2: nat)
    requires m2 >= 1 && k % m2 == 0 && j < m2
    ensures (k + j) % m2 == j && (k + j) - (k + j) % m2 == k
  {
    var q := k / m2;
    assert k == m2 * q;
    DivModUnique(k + j, m2, q, j);
  }

  lemma ModBounds(p: nat, m2: nat)
    requires m2 >= 1
    ensures 0 <= p % m2 < m2 && p % m2 <= p
  {
  }

  /** Value at offset j of the block starting at k after the butterfly
      stage with block size m2 and twiddle root wm. */
  function ButterflyAt(x: seq<Complex>, m2: nat, wm: Complex, k: nat, j: nat): Complex
    requires m2 >= 2 && m2 % 2 == 0 && j < m2 && k + m2 <= |x|
  {
    var h := m2 / 2;
    if j < h then Add(x[k + j], Mul(CPow(wm, j), x[k + j + h]))
    else Sub(x[k + j - h], Mul(CPow(wm, j - h), x[k + j]))
  }

  /** A stage's block size 2^s divides n = 2^m and is even. */
  lemma StageShape(m: nat, s: nat)
    requires 1 <= s <= m
    ensures Pow2(m) == Pow2(m - s) * Pow2(s) && Pow2(s) >= 2 && Pow2(s) % 2 == 0
  {
    Pow2Add(s, m - s);
    assert s + (m - s) == m;
    var p := Pow2(s - 1);
    assert Pow2(s) == 2 * p;
    DivModUnique(Pow2(s), 2, p, 0);
  }

  /** The butterfly stage with block size m2 and twiddle root wm, applied
      to a whole buffer of c blocks. */
  function Stage(x: seq<Complex>, m2: nat, c: nat, wm: Complex): (r: seq<Complex>)
    requires m2 >= 2 && m2 % 2 == 0 && |x| == c * m2
    ensures |r| == |x|
  {
    seq(|x|, p requires 0 <= p < |x| =>
      (BlockBound(p, m2, c); ModBounds(p, m2); ButterflyAt(x, m2, wm, p - p % m2, p % m2)))
  }

  /** Stages 1..t of an FFT over n = 2^m points; stage s has block size 2^s
      and twiddle root(2^s). */
  function Stages(x: seq<Complex>, m: nat, t: nat, root: nat -> Complex): (r: seq<Complex>)
    requires |x| == Pow2(m) && t <= m
    ensures |r| == |x|
  {
    if t == 0 then x
    else
      StageShape(m, t);
      Stage(Stages(x, m, t - 1, root), Pow2(t), Pow2(m - t), root(Pow2(t)))
  }

  /** The whole transform as FFT computes it. */
  function Transform(x: seq<Complex>, m: nat, root: nat -> Complex): (r: seq<Complex>)
    requires |x| == Pow2(m)
    ensures |r| == |x|
  {
    Stages(BitReversed(x, m), m, m, root)
  }

  lemma StageAt(x: seq<Complex>, m2: nat, c: nat, wm: Complex, k: nat, j: nat)
    requires m2 >= 2 && m2 % 2 == 0 && |x| == c * m2
    requires k % m2 == 0 && k + m2 <= |x| && j < m2
    ensures Stage(x, m2, c, wm)[k + j] == ButterflyAt(x, m2, wm, k, j)
  {
    BlockPos(k, j, m2);
  }

  lemma StagePairLow(x: seq<Complex>, m2: nat, c: nat, wm: Complex, k: nat, j: nat)
    requires m2 >= 2 && m2 % 2 == 0 && |x| == c * m2
    requires k % m2 == 0 && k + m2 <= |x| && j < m2 / 2
    ensures Stage(x, m2, c, wm)[k + j] == Add(x[k + j], Mul(CPow(wm, j), x[k + j + m2 / 2]))
  {
    StageAt(x, m2, c, wm, k, j);
  }

  lemma StagePairHigh(x: seq<Complex>, m2: nat, c: nat, wm: Complex, k: nat, j: nat)
    requires m2 >= 2 && m2 % 2 == 0 && |x| == c * m2
    requires k % m2 == 0 && k + m2 <= |x| && j < m2 / 2
    ensures Stage(x, m2, c, wm)[k + j + m2 / 2] == Sub(x[k + j], Mul(CPow(wm, j), x[k + j + m2 / 2]))
  {
    var h := m2 / 2;
    StageAt(x, m2, c, wm, k, j + h);
    assert k + (j + h) == k + j + h && k + (j + h) - h == k + j && j + h - h == j;
  }

  /** The two outputs of the butterfly at block start k, offset j. */
  lemma StagePair(x: seq<Complex>, m2: nat, c: nat, wm: Complex, k: nat, j: nat)
    requires m2 >= 2 && m2 % 2 == 0 && |x| == c * m2
    requires k % m2 == 0 && k + m2 <= |x| && j < m2 / 2
    ensures Stage(x, m2, c, wm)[k + j] == Add(x[k + j], Mul(CPow(wm, j), x[k + j + m2 / 2]))
    ensures Stage(x, m2, c, wm)[k + j + m2 / 2] == Sub(x[k + j], Mul(CPow(wm, j), x[k + j + m2 / 2]))
  {
    StagePairLow(x, m2, c, wm, k, j);
    StagePairHigh(x, m2, c, wm, k, j);
  }

  lemma NextBlock(k: nat, m2: nat, c: nat)
    requires m2 >= 1 && k % m2 == 0 && k < c * m2
    ensures k + m2 <= c * m2 && (k + m2) % m2 == 0
    ensures k + m2 < c * m2 ==> k + m2 + m2 <= c * m2
  {
    BlockBound(k, m2, c);
    DivModUnique(k + m2, m2, k / m2 + 1, 0);
    if k + m2 < c * m2 {
      BlockBound(k + m2, m2, c);
    }
  }

  /** The inner loop of FFT: the butterflies of one block starting at k. */
  method ButterflyBlock(a: array<Complex>, k: nat, m2: nat, wm: Complex)
    requires m2 >= 2 && m2 % 2 == 0 && k + m2 <= a.Length
    modifies a
    ensures forall p :: k <= p < k + m2 / 2 ==>
      a[p] == Add(old(a[p]), Mul(CPow(wm, p - k), old(a[p + m2 / 2])))
    ensures forall p :: k + m2 / 2 <= p < k + m2 ==>
      a[p] == Sub(old(a[p - m2 / 2]), Mul(CPow(wm, p - m2 / 2 - k), old(a[p])))
    ensures forall p :: 0 <= p < a.Length && !(k <= p < k + m2) ==> a[p] == old(a[p])
  {
    var m2Half := m2 / 2;
    var w := One;
    var j := 0;
    while j < m2Half
      invariant 0 <= j <= m2Half && w == CPow(wm, j)
      invariant forall p :: k <= p < k + j ==>
        a[p] == Add(old(a[p]), Mul(CPow(wm, p - k), old(a[p + m2Half])))
      invariant forall p :: k + m2Half <= p < k + m2Half + j ==>
        a[p] == Sub(old(a[p - m2Half]), Mul(CPow(wm, p - m2Half - k), old(a[p])))
      invariant forall p :: 0 <= p < a.Length && !(k <= p < k + j) && !(k + m2Half <= p < k + m2Half + j) ==>
        a[p] == old(a[p])
    {
      var t := Mul(w, a[k + j + m2Half]);
      var u := a[k + j];
      a[k + j] := Add(u, t);
      a[k + j + m2Half] := Sub(u, t);
      w := Mul(w, wm);
      j := j + 1;
    }
  }

  /** One butterfly stage in place: blocks of m2, combining positions
      k + j and k + j + m2/2 with twiddle wm^j. */
  method ButterflyStage(a: array<Complex>, m2: nat, c: nat, wm: Complex)
    requires m2 >= 2 && m2 % 2 == 0 && a.Length == c * m2
    modifies a
    ensures a[..] == Stage(old(a[..]), m2, c, wm)
  {
    ghost var x := a[..];
    ghost var st := Stage(x, m2, c, wm);
    var n := a.Length;
    var k := 0;
    DivModUnique(0, m2, 0, 0);
    if 0 < n {
      BlockBound(0, m2, c);
    }
    while k < n
      invariant 0 <= k <= n && k % m2 == 0
      invariant k < n ==> k + m2 <= n
      invariant forall p :: 0 <= p < k ==> a[p] == st[p]
      invariant forall p :: k <= p < n ==> a[p] == x[p]
    {
      ButterflyBlock(a, k, m2, wm);
      forall p | k <= p < k + m2
        ensures a[p] == st[p]
      {
        if p < k + m2 / 2 {
          StagePair(x, m2, c, wm, k, p - k);
        } else {
          StagePair(x, m2, c, wm, k, p - k - m2 / 2);
        }
      }
      NextBlock(k, m2, c);
      k := k + m2;
    }
  }

  /** FFT: the in-place transform of a buffer whose length is a power of
      two; `root(m2)` is the stage twiddle factor for block size m2. */
  method FFT(a: array<Complex>, root: nat -> Complex)
    requires IsPow2(a.Length)
    modifies a
    ensures a[..] == Transform(old(a[..]), Log2(a.Length), root)
  {
    var n := a.Length;
    var m := Log2(n);
    BitReversePermute(a, m);
    ghost var y := a[..];
    var s := 1;
    while s <= m
      invariant 1 <= s <= m + 1
      invariant a[..] == Stages(y, m, s - 1, root)
    {
      var m2 := Pow2(s);
      StageShape(m, s);
      ButterflyStage(a, m2, Pow2(m - s), root(m2));
      s := s + 1;
    }
  }

  lemma BlockIndices(m2: nat, c: nat, k: nat, j: nat)
    requires m2 >= 2 && k < c * m2 && k % m2 == 0 && j < m2 / 2
    ensures k + j < k + j + m2 / 2 < c * m2
  {
    BlockBound(k, m2, c);
    BlockPos(k, 0, m2);
  }

  /** Every butterfly index FFT touches lies in [0, n): for a block start k
      (a multiple of m2 = 2^s below n = 2^m) and j < m2/2, both k + j and
      k + j + m2/2 are below n. */
  lemma ButterflyIndicesInRange(m: nat, s: nat, k: nat, j: nat)
    requires 1 <= s <= m && k < Pow2(m) && k % Pow2(s) == 0 && j < Pow2(s) / 2
    ensures k + j < k + j + Pow2(s) / 2 < Pow2(m)
  {
    StageShape(m, s);
    BlockIndices(Pow2(s), Pow2(m - s), k, j);
  }

  predicate AllZero(x: seq<Complex>) {
    forall i :: 0 <= i < |x| ==> x[i] == Zero
  }

  lemma MulZero(w: Complex)
    ensures Mul(w, Zero) == Zero
  {
  }


  lemma ButterflyOfZero(x: seq<Complex>, m2: nat, wm: Complex, k: nat, j: nat)
    requires m2 >= 2 && m2 % 2 == 0 && j < m2 && k + m2 <= |x|
    requires AllZero(x)
    ensures ButterflyAt(x, m2, wm, k, j) == Zero
  {
    var h := m2 / 2;
    assert h + h == m2;
    if j < h {
      assert x[k + j] == Zero && x[k + j + h] == Zero;
      MulZero(CPow(wm, j));
    } else {
      assert x[k + j - h] == Zero && x[k + j] == Zero;
      MulZero(CPow(wm, j - h));
    }
  }

  lemma StageOfZero(x: seq<Complex>, m2: nat, c: nat, wm: Complex)
    requires m2 >= 2 && m2 % 2 == 0 && |x| == c * m2 && AllZero(x)
    ensures AllZero(Stage(x, m2, c, wm))
  {
    forall p | 0 <= p < |x| ensures Stage(x, m2, c, wm)[p] == Zero {
      BlockBound(p, m2, c);
      ModBounds(p, m2);
      ButterflyOfZero(x, m2, wm, p - p % m2, p % m2);
    }
  }

  /** A buffer of zeros stays zero through every stage, whatever the
      twiddle factors. */
  lemma {:induction false} StagesOfZero(x: seq<Complex>, m: nat, t: nat, root: nat -> Complex)
    requires |x| == Pow2(m) && t <= m && AllZero(x)
    ensures AllZero(Stages(x, m, t, root))
  {
    if t > 0 {
      StagesOfZero(x, m, t - 1, root);
      StageShape(m, t);
      StageOfZero(Stages(x, m, t - 1, root), Pow2(t), Pow2(m - t), root(Pow2(t)));
    }
  }

  /** The transform of silence is silence. */
  lemma TransformOfZero(x: seq<Complex>, m: nat, root: nat -> Complex)
    requires |x| == Pow2(m) && AllZero(x)
    ensures AllZero(Transform(x, m, root))
  {
    forall i | 0 <= i < |x| ensures BitReversed(x, m)[i] == Zero { RevBound(i, m); }
    StagesOfZero(BitReversed(x, m), m, m, root);
  }
}
