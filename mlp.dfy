/**
 * The onset classifier of the aligner (NeuralAligner): a one-hidden-layer
 * perceptron with ReLU hidden units and a sigmoid output, trained by
 * per-sample SGD on binary cross-entropy (TrainFromDb), and used to score
 * feature frames with 3-tap smoothing (PredictProbabilities).
 *
 * The training corpus and the saved model are given as values (file I/O
 * and JSON are not modelled).  Math.Sqrt and Math.Exp are parameters.
 * System.Random(0) is replaced by the draws it would produce: `draw1(i, j)`
 * for W1[i][j], `draw2(i)` for W2[i], and `order(e)`, the shuffled sample
 * order of epoch e.
 */
module Mlp {
  import opened Options

  /** 1e-9, the variance floor of the feature normalisation. */
  const VarianceFloor: real := 1.0 / 1000000000.0

  datatype TrainingSample = TrainingSample(features: seq<real>, labelValue: int)

  /** A saved model; a null Mean or Std in the JSON is None. */
  datatype SavedModel = SavedModel(inputSize: int, hiddenSize: int,
                                   weights1: seq<seq<real>>, bias1: seq<real>,
                                   weights2: seq<real>, bias2: real,
                                   mean: Option<seq<real>>, std: Option<seq<real>>)

  /** The trainable parameters W1, b1, W2, b2. */
  datatype Params = Params(w1: seq<seq<real>>, b1: seq<real>, w2: seq<real>, b2: real)

  predicate Shaped(p: Params, hidden: nat, input: nat) {
    |p.w1| == hidden && |p.b1| == hidden && |p.w2| == hidden &&
    forall i :: 0 <= i < hidden ==> |p.w1[i]| == input
  }

  ghost predicate PositiveExp(exp: real -> real) {
    forall v :: exp(v) > 0.0
  }

  /** Sigmoid(x) = 1 / (1 + e^-x). */
  function Sigmoid(z: real, exp: real -> real): (r: real)
    requires PositiveExp(exp)
    ensures 0.0 < r < 1.0
  {
    var e := exp(-z);
    assert 1.0 + e > 1.0;
    1.0 / (1.0 + e)
  }

  function Relu(v: real): (r: real)
    ensures r >= 0.0 && r >= v
  {
    if v > 0.0 then v else 0.0
  }

  /** Sum of w[j] * x[j] for j < n, accumulated left to right. */
  function Dot(w: seq<real>, x: seq<real>, n: nat): real
    requires n <= |w| && n <= |x|
  {
    if n == 0 then 0.0 else Dot(w, x, n - 1) + w[n - 1] * x[n - 1]
  }

  // ---------------------------------------------------------------------
  // Forward pass and one SGD step, on values

  /** The hidden activations max(0, b1[i] + W1[i] . x); the weight
      sequences may be longer than the sizes used. */
  function HiddenOf(w1: seq<seq<real>>, b1: seq<real>, x: seq<real>, hidden: nat, input: nat): (h: seq<real>)
    requires hidden <= |w1| && hidden <= |b1| && |x| == input
    requires forall i :: 0 <= i < hidden ==> input <= |w1[i]|
    ensures |h| == hidden && forall i :: 0 <= i < hidden ==> h[i] >= 0.0
  {
    seq(hidden, i requires 0 <= i < hidden => Relu(b1[i] + Dot(w1[i], x, input)))
  }

  function Hidden(p: Params, x: seq<real>, hidden: nat, input: nat): (h: seq<real>)
    requires Shaped(p, hidden, input) && |x| == input
    ensures |h| == hidden && forall i :: 0 <= i < hidden ==> h[i] >= 0.0
  {
    HiddenOf(p.w1, p.b1, x, hidden, input)
  }

  function Output(p: Params, h: seq<real>, hidden: nat): real
    requires |p.w2| == hidden && |h| == hidden
  {
    p.b2 + Dot(p.w2, h, hidden)
  }

  /** The W2 after the output-layer update. */
  function NewW2(p: Params, h: seq<real>, d: real, lr: real, hidden: nat): (w2: seq<real>)
    requires |p.w2| == hidden && |h| == hidden
    ensures |w2| == hidden
  {
    seq(hidden, i requires 0 <= i < hidden => p.w2[i] - lr * d * h[i])
  }

  /** The hidden-unit gradient: d * W2[i] with the UPDATED W2, through the
      ReLU (0 where the unit is inactive). */
  function HiddenGrad(h: seq<real>, w2: seq<real>, d: real, hidden: nat): (g: seq<real>)
    requires |h| == hidden && |w2| == hidden
    ensures |g| == hidden
  {
    seq(hidden, i requires 0 <= i < hidden => if h[i] > 0.0 then d * w2[i] else 0.0)
  }

  /** W1 after the hidden-layer update: row i moves by -lr * g[i] * x,
      and a row whose gradient is exactly 0 is skipped. */
  function NewW1(w1: seq<seq<real>>, g: seq<real>, x: seq<real>, lr: real, hidden: nat, input: nat): (r: seq<seq<real>>)
    requires |w1| == hidden && |g| == hidden && |x| == input
    requires forall i :: 0 <= i < hidden ==> |w1[i]| == input
    ensures |r| == hidden && forall i :: 0 <= i < hidden ==> |r[i]| == input
  {
    seq(hidden, i requires 0 <= i < hidden =>
      if g[i] == 0.0 then w1[i] else seq(input, j requires 0 <= j < input => w1[i][j] - lr * g[i] * x[j]))
  }

  function NewB1(b1: seq<real>, g: seq<real>, lr: real, hidden: nat): (r: seq<real>)
    requires |b1| == hidden && |g| == hidden
    ensures |r| == hidden
  {
    seq(hidden, i requires 0 <= i < hidden => if g[i] == 0.0 then b1[i] else b1[i] - lr * g[i])
  }

  /** One SGD step on sample (x, y). */
  function Step(p: Params, x: seq<real>, y: int, lr: real, exp: real -> real, hidden: nat, input: nat): (r: Params)
    requires Shaped(p, hidden, input) && |x| == input && PositiveExp(exp)
    ensures Shaped(r, hidden, input)
  {
    var h := Hidden(p, x, hidden, input);
    var d := Sigmoid(Output(p, h, hidden), exp) - y as real;
    var w2 := NewW2(p, h, d, lr, hidden);
    var g := HiddenGrad(h, w2, d, hidden);
    Params(NewW1(p.w1, g, x, lr, hidden, input), NewB1(p.b1, g, lr, hidden), w2, p.b2 - lr * d)
  }

  /** Step in terms of its intermediate values. */
  lemma StepParts(p: Params, x: seq<real>, y: int, lr: real, exp: real -> real, hidden: nat, input: nat,
                  hs: seq<real>, d: real, w2new: seq<real>, g: seq<real>)
    requires Shaped(p, hidden, input) && |x| == input && PositiveExp(exp)
    requires hs == Hidden(p, x, hidden, input) && d == Sigmoid(Output(p, hs, hidden), exp) - y as real
    requires w2new == NewW2(p, hs, d, lr, hidden) && g == HiddenGrad(hs, w2new, d, hidden)
    ensures Step(p, x, y, lr, exp, hidden, input)
         == Params(NewW1(p.w1, g, x, lr, hidden, input), NewB1(p.b1, g, lr, hidden), w2new, p.b2 - lr * d)
  {
  }

  /** A hidden unit that did not fire (h[i] = 0) keeps its W1 row and bias;
      a unit that fired moves against d * W2'[i], where W2'[i] is the
      already-updated output weight. */
  lemma StepHiddenUnit(p: Params, x: seq<real>, y: int, lr: real, exp: real -> real,
                       hidden: nat, input: nat, i: nat)
    requires Shaped(p, hidden, input) && |x| == input && PositiveExp(exp) && i < hidden
    ensures var h := Hidden(p, x, hidden, input);
      var d := Sigmoid(Output(p, h, hidden), exp) - y as real;
      var r := Step(p, x, y, lr, exp, hidden, input);
      var w2i := p.w2[i] - lr * d * h[i];
      r.w2[i] == w2i &&
      (h[i] == 0.0 ==> r.w1[i] == p.w1[i] && r.b1[i] == p.b1[i]) &&
      (h[i] > 0.0 ==> r.b1[i] == p.b1[i] - lr * (d * w2i) &&
                      forall j :: 0 <= j < input ==> r.w1[i][j] == p.w1[i][j] - lr * (d * w2i) * x[j])
  {
    var h := Hidden(p, x, hidden, input);
    var d := Sigmoid(Output(p, h, hidden), exp) - y as real;
    var w2 := NewW2(p, h, d, lr, hidden);
    var g := HiddenGrad(h, w2, d, hidden);
    StepParts(p, x, y, lr, exp, hidden, input, h, d, w2, g);
    assert g[i] == if h[i] > 0.0 then d * w2[i] else 0.0;
  }

  /** One epoch: a step per sample, in the order given. */
  function Epoch(p: Params, xs: seq<seq<real>>, ys: seq<int>, ord: seq<nat>, lr: real,
                 exp: real -> real, hidden: nat, input: nat): (r: Params)
    requires Shaped(p, hidden, input) && PositiveExp(exp) && |xs| == |ys|
    requires forall i :: 0 <= i < |xs| ==> |xs[i]| == input
    requires forall k :: 0 <= k < |ord| ==> ord[k] < |xs|
    ensures Shaped(r, hidden, input)
    decreases |ord|
  {
    if |ord| == 0 then p
    else
      var q := Epoch(p, xs, ys, ord[..|ord| - 1], lr, exp, hidden, input);
      var idx := ord[|ord| - 1];
      Step(q, xs[idx], ys[idx], lr, exp, hidden, input)
  }

  function Epochs(p: Params, xs: seq<seq<real>>, ys: seq<int>, order: nat -> seq<nat>, epochs: nat,
                  lr: real, exp: real -> real, hidden: nat, input: nat): (r: Params)
    requires Shaped(p, hidden, input) && PositiveExp(exp) && |xs| == |ys|
    requires forall i :: 0 <= i < |xs| ==> |xs[i]| == input
    requires forall e, k :: 0 <= e < epochs && 0 <= k < |order(e)| ==> order(e)[k] < |xs|
    ensures Shaped(r, hidden, input)
  {
    if epochs == 0 then p
    else Epoch(Epochs(p, xs, ys, order, epochs - 1, lr, exp, hidden, input), xs, ys, order(epochs - 1), lr, exp, hidden, input)
  }

  lemma EpochsNext(p: Params, xs: seq<seq<real>>, ys: seq<int>, order: nat -> seq<nat>, e: nat, epochs: nat,
                   lr: real, exp: real -> real, hidden: nat, input: nat)
    requires Shaped(p, hidden, input) && PositiveExp(exp) && |xs| == |ys| && e < epochs
    requires forall i :: 0 <= i < |xs| ==> |xs[i]| == input
    requires forall e, k :: 0 <= e < epochs && 0 <= k < |order(e)| ==> order(e)[k] < |xs|
    ensures Epochs(p, xs, ys, order, e + 1, lr, exp, hidden, input)
         == Epoch(Epochs(p, xs, ys, order, e, lr, exp, hidden, input), xs, ys, order(e), lr, exp, hidden, input)
  {
  }

  // ---------------------------------------------------------------------
  // Normalisation statistics

  predicate Consistent(samples: seq<TrainingSample>, input: nat) {
    forall i :: 0 <= i < |samples| ==> |samples[i].features| == input
  }

  /** Sum of feature j over the first k samples. */
  function ColumnSum(samples: seq<TrainingSample>, j: nat, k: nat): real
    requires k <= |samples| && forall i :: 0 <= i < k ==> j < |samples[i].features|
  {
    if k == 0 then 0.0 else ColumnSum(samples, j, k - 1) + samples[k - 1].features[j]
  }

  /** Sum of squared deviations of feature j from m over the first k samples. */
  function SquaredDeviation(samples: seq<TrainingSample>, j: nat, m: real, k: nat): (r: real)
    requires k <= |samples| && forall i :: 0 <= i < k ==> j < |samples[i].features|
    ensures r >= 0.0
  {
    if k == 0 then 0.0
    else
      var d := samples[k - 1].features[j] - m;
      SquaredDeviation(samples, j, m, k - 1) + d * d
  }

  function Means(samples: seq<TrainingSample>, input: nat): (mean: seq<real>)
    requires |samples| > 0 && Consistent(samples, input)
    ensures |mean| == input
  {
    seq(input, j requires 0 <= j < input => ColumnSum(samples, j, |samples|) / |samples| as real)
  }

  function MaxReal(a: real, b: real): real { if a >= b then a else b }

  /** std[j] = sqrt(max(1e-9, variance of feature j)). */
  function Stds(samples: seq<TrainingSample>, input: nat, mean: seq<real>, sqrt: real -> real): (std: seq<real>)
    requires |samples| > 0 && Consistent(samples, input) && |mean| == input
    ensures |std| == input
  {
    seq(input, j requires 0 <= j < input =>
      sqrt(MaxReal(VarianceFloor, SquaredDeviation(samples, j, mean[j], |samples|) / |samples| as real)))
  }

  ghost predicate PositiveSqrt(sqrt: real -> real) {
    forall v :: v > 0.0 ==> sqrt(v) > 0.0
  }

  /** Every standard deviation is positive, so normalisation never divides
      by zero. */
  lemma StdsPositive(samples: seq<TrainingSample>, input: nat, mean: seq<real>, sqrt: real -> real)
    requires |samples| > 0 && Consistent(samples, input) && |mean| == input && PositiveSqrt(sqrt)
    ensures forall j :: 0 <= j < input ==> Stds(samples, input, mean, sqrt)[j] > 0.0
  {
  }

  function Normalized(f: seq<real>, mean: seq<real>, std: seq<real>): (nf: seq<real>)
    requires |f| == |mean| == |std| && forall j :: 0 <= j < |std| ==> std[j] != 0.0
    ensures |nf| == |f|
  {
    seq(|f|, j requires 0 <= j < |f| => (f[j] - mean[j]) / std[j])
  }

  /** Labels are binarised: any positive label is an onset. */
  function Binarise(labelValue: int): (y: int)
    ensures y == 0 || y == 1
    ensures y == 1 <==> labelValue > 0
  {
    if labelValue > 0 then 1 else 0
  }

  /** A draw from [0, 1) scaled to [-0.1, 0.1). */
  function Scaled(v: real): real {
    (v - 0.5) * 0.2
  }

  function InitialW1(draw1: (nat, nat) -> real, hidden: nat, input: nat): (w1: seq<seq<real>>)
    ensures |w1| == hidden && forall i :: 0 <= i < hidden ==> |w1[i]| == input
  {
    seq(hidden, i requires 0 <= i < hidden => seq(input, j requires 0 <= j < input => Scaled(draw1(i, j))))
  }

  function InitialParams(draw1: (nat, nat) -> real, draw2: nat -> real, hidden: nat, input: nat): (p: Params)
    ensures Shaped(p, hidden, input)
  {
    Params(InitialW1(draw1, hidden, input),
           seq(hidden, i => 0.0),
           seq(hidden, i requires 0 <= i < hidden => Scaled(draw2(i))),
           0.0)
  }

  /** What TrainFromDb produces: None when it returns false. */
  function TrainResult(samples: seq<TrainingSample>, hidden: nat, epochs: int, lr: real,
                       sqrt: real -> real, exp: real -> real,
                       draw1: (nat, nat) -> real, draw2: nat -> real, order: nat -> seq<nat>): (r: Option<SavedModel>)
    requires PositiveSqrt(sqrt) && PositiveExp(exp)
    requires forall e, k :: 0 <= e < epochs && 0 <= k < |order(e)| ==> order(e)[k] < |samples|
  {
    if |samples| == 0 || !Consistent(samples, |samples[0].features|) then None
    else
      var input := |samples[0].features|;
      var mean := Means(samples, input);
      var std := Stds(samples, input, mean, sqrt);
      StdsPositive(samples, input, mean, sqrt);
      var xs := seq(|samples|, i requires 0 <= i < |samples| => Normalized(samples[i].features, mean, std));
      var ys := seq(|samples|, i requires 0 <= i < |samples| => Binarise(samples[i].labelValue));
      var p := Epochs(InitialParams(draw1, draw2, hidden, input), xs, ys, order,
                      if epochs < 0 then 0 else epochs, lr, exp, hidden, input);
      Some(SavedModel(input, hidden, p.w1, p.b1, p.w2, p.b2, Some(mean), Some(std)))
  }

  /** TrainFromDb refuses exactly an empty corpus or one whose feature
      lengths differ; otherwise the model has the corpus's input size, the
      requested hidden size, well-shaped weights, and positive stds. */
  lemma TrainResultSpec(samples: seq<TrainingSample>, hidden: nat, epochs: int, lr: real,
                        sqrt: real -> real, exp: real -> real,
                        draw1: (nat, nat) -> real, draw2: nat -> real, order: nat -> seq<nat>)
    requires PositiveSqrt(sqrt) && PositiveExp(exp)
    requires forall e, k :: 0 <= e < epochs && 0 <= k < |order(e)| ==> order(e)[k] < |samples|
    ensures var r := TrainResult(samples, hidden, epochs, lr, sqrt, exp, draw1, draw2, order);
      (r.None? <==> (|samples| == 0 || exists i :: 0 <= i < |samples| && |samples[i].features| != |samples[0].features|)) &&
      (r.Some? ==>
        var m := r.value;
        m.inputSize == |samples[0].features| && m.hiddenSize == hidden &&
        Shaped(Params(m.weights1, m.bias1, m.weights2, m.bias2), hidden, m.inputSize) &&
        m.mean.Some? && m.std.Some? && |m.mean.value| == |m.std.value| == m.inputSize &&
        forall j :: 0 <= j < m.inputSize ==> m.std.value[j] > 0.0)
  {
    if |samples| > 0 && Consistent(samples, |samples[0].features|) {
      var input := |samples[0].features|;
      StdsPositive(samples, input, Means(samples, input), sqrt);
    }
  }

  // ---------------------------------------------------------------------
  // The training method

  function Row(a: array2<real>, i: nat): (r: seq<real>)
    requires i < a.Length0
    reads a
    ensures |r| == a.Length1
  {
    seq(a.Length1, j requires 0 <= j < a.Length1 reads a => a[i, j])
  }

  function Matrix(a: array2<real>): (m: seq<seq<real>>)
    reads a
    ensures |m| == a.Length0
  {
    seq(a.Length0, i requires 0 <= i < a.Length0 reads a => Row(a, i))
  }

  /** The forward pass over the arrays: the hidden activations. */
  method Forward(w1: array2<real>, b1: array<real>, x: seq<real>) returns (h: array<real>)
    requires b1.Length == w1.Length0 && |x| == w1.Length1
    ensures fresh(h)
    ensures h[..] == Hidden(Params(Matrix(w1), b1[..], b1[..], 0.0), x, w1.Length0, w1.Length1)
  {
    var hidden, input := w1.Length0, w1.Length1;
    ghost var p := Params(Matrix(w1), b1[..], b1[..], 0.0);
    h := new real[hidden];
    var i := 0;
    while i < hidden
      invariant 0 <= i <= hidden
      invariant forall k :: 0 <= k < i ==> h[k] == Hidden(p, x, hidden, input)[k]
    {
      var sum := b1[i];
      var j := 0;
      while j < input
        invariant 0 <= j <= input
        invariant sum == b1[i] + Dot(Row(w1, i), x, j)
      {
        sum := sum + w1[i, j] * x[j];
        j := j + 1;
      }
      h[i] := Relu(sum);
      i := i + 1;
    }
  }

  /** z = b2 + sum of W2[i] * h[i]. */
  method OutputSum(w2: seq<real>, b2: real, h: array<real>) returns (z: real)
    requires h.Length <= |w2|
    ensures z == b2 + Dot(w2, h[..], h.Length)
  {
    z := b2;
    var i := 0;
    while i < h.Length
      invariant 0 <= i <= h.Length
      invariant z == b2 + Dot(w2, h[..], i)
    {
      z := z + w2[i] * h[i];
      i := i + 1;
    }
  }

  /** W2[i] -= lr * d * h[i] for every hidden unit. */
  method UpdateOutputWeights(w2: array<real>, h: array<real>, d: real, lr: real)
    requires w2.Length == h.Length && w2 != h
    modifies w2
    ensures w2[..] == NewW2(Params([], [], old(w2[..]), 0.0), h[..], d, lr, h.Length)
  {
    var i := 0;
    while i < w2.Length
      invariant 0 <= i <= w2.Length
      invariant forall k :: 0 <= k < i ==> w2[k] == old(w2[k]) - lr * d * h[k]
      invariant forall k :: i <= k < w2.Length ==> w2[k] == old(w2[k])
    {
      w2[i] := w2[i] - lr * d * h[i];
      i := i + 1;
    }
    ghost var r := NewW2(Params([], [], old(w2[..]), 0.0), h[..], d, lr, h.Length);
    assert forall k :: 0 <= k < w2.Length ==> w2[..][k] == r[k];
  }

  /** W1[i][j] -= lr * grad * x[j] along row i; the other rows keep their values. */
  method UpdateRow(w1: array2<real>, i: nat, grad: real, lr: real, x: seq<real>)
    requires i < w1.Length0 && |x| == w1.Length1
    modifies w1
    ensures forall j :: 0 <= j < w1.Length1 ==> w1[i, j] == old(w1[i, j]) - lr * grad * x[j]
    ensures forall k :: 0 <= k < w1.Length0 && k != i ==> Row(w1, k) == old(Row(w1, k))
  {
    var j := 0;
    while j < w1.Length1
      invariant 0 <= j <= w1.Length1
      invariant forall k, l :: 0 <= k < w1.Length0 && 0 <= l < w1.Length1 && k != i ==> w1[k, l] == old(w1[k, l])
      invariant forall l :: 0 <= l < j ==> w1[i, l] == old(w1[i, l]) - lr * grad * x[l]
      invariant forall l :: j <= l < w1.Length1 ==> w1[i, l] == old(w1[i, l])
    {
      w1[i, j] := w1[i, j] - lr * grad * x[j];
      j := j + 1;
    }
    forall k | 0 <= k < w1.Length0 && k != i
      ensures Row(w1, k) == old(Row(w1, k))
    {
    }
  }

  /** The hidden-layer update, with the gradient taken through the updated W2. */
  method UpdateHidden(w1: array2<real>, b1: array<real>, w2: array<real>, h: array<real>,
                      d: real, lr: real, x: seq<real>)
    requires b1.Length == w1.Length0 && w2.Length == w1.Length0 && h.Length == w1.Length0
    requires |x| == w1.Length1 && b1 != w2 && b1 != h
    modifies w1, b1
    ensures var g := HiddenGrad(h[..], w2[..], d, w1.Length0);
      Matrix(w1) == NewW1(old(Matrix(w1)), g, x, lr, w1.Length0, w1.Length1) &&
      b1[..] == NewB1(old(b1[..]), g, lr, w1.Length0)
  {
    var hidden := w1.Length0;
    ghost var g := HiddenGrad(h[..], w2[..], d, hidden);
    ghost var m0 := Matrix(w1);
    ghost var r1 := NewW1(m0, g, x, lr, hidden, w1.Length1);
    ghost var rb := NewB1(b1[..], g, lr, hidden);
    var i := 0;
    while i < hidden
      invariant 0 <= i <= hidden
      invariant forall k :: 0 <= k < i ==> Row(w1, k) == r1[k] && b1[k] == rb[k]
      invariant forall k :: i <= k < hidden ==> Row(w1, k) == m0[k] && b1[k] == old(b1[k])
    {
      var dh := d * w2[i];
      var grad := if h[i] > 0.0 then dh else 0.0;
      assert grad == g[i];
      if grad != 0.0 {
        assert forall j :: 0 <= j < w1.Length1 ==> w1[i, j] == m0[i][j] by {
          assert Row(w1, i) == m0[i];
        }
        UpdateRow(w1, i, grad, lr, x);
        assert forall j :: 0 <= j < w1.Length1 ==> Row(w1, i)[j] == r1[i][j];
        assert Row(w1, i) == r1[i];
        b1[i] := b1[i] - lr * grad;
      }
      i := i + 1;
    }
    assert Matrix(w1) == r1;
  }

  /** One SGD step in place on W1, b1, W2; returns the new b2. */
  method SgdStep(w1: array2<real>, b1: array<real>, w2: array<real>, b2: real,
                 x: seq<real>, y: int, lr: real, exp: real -> real) returns (b2new: real)
    requires b1.Length == w1.Length0 && w2.Length == w1.Length0 && |x| == w1.Length1 && b1 != w2
    requires PositiveExp(exp)
    modifies w1, b1, w2
    ensures Params(Matrix(w1), b1[..], w2[..], b2new)
         == Step(old(Params(Matrix(w1), b1[..], w2[..], b2)), x, y, lr, exp, w1.Length0, w1.Length1)
  {
    var hidden, input := w1.Length0, w1.Length1;
    ghost var p := Params(Matrix(w1), b1[..], w2[..], b2);
    assert Shaped(p, hidden, input);
    var h := Forward(w1, b1, x);
    ghost var hs := Hidden(p, x, hidden, input);
    assert h[..] == hs;
    var z := OutputSum(w2[..], b2, h);
    assert z == Output(p, hs, hidden);
    var pred := Sigmoid(z, exp);
    var d := pred - y as real;
    ghost var w2new := NewW2(p, hs, d, lr, hidden);
    ghost var g := HiddenGrad(hs, w2new, d, hidden);
    StepParts(p, x, y, lr, exp, hidden, input, hs, d, w2new, g);
    UpdateOutputWeights(w2, h, d, lr);
    assert w2[..] == w2new;
    assert Matrix(w1) == p.w1 && b1[..] == p.b1;
    b2new := b2 - lr * d;
    assert HiddenGrad(h[..], w2[..], d, hidden) == g;
    UpdateHidden(w1, b1, w2, h, d, lr, x);
    assert Matrix(w1) == NewW1(p.w1, g, x, lr, hidden, input);
    assert b1[..] == NewB1(p.b1, g, lr, hidden);
  }

  // ---------------------------------------------------------------------
  // TrainFromDb

  method ColumnMeans(samples: seq<TrainingSample>, input: nat) returns (mean: array<real>)
    requires |samples| > 0 && Consistent(samples, input)
    ensures fresh(mean) && mean[..] == Means(samples, input)
  {
    mean := new real[input];
    var j := 0;
    while j < input
      invariant 0 <= j <= input
      invariant forall k :: 0 <= k < j ==> mean[k] == Means(samples, input)[k]
    {
      var acc := 0.0;
      var i := 0;
      while i < |samples|
        invariant 0 <= i <= |samples|
        invariant acc == ColumnSum(samples, j, i)
      {
        acc := acc + samples[i].features[j];
        i := i + 1;
      }
      mean[j] := acc / |samples| as real;
      j := j + 1;
    }
  }

  method ColumnStds(samples: seq<TrainingSample>, input: nat, mean: array<real>, sqrt: real -> real)
    returns (std: array<real>)
    requires |samples| > 0 && Consistent(samples, input) && mean.Length == input
    ensures fresh(std) && std[..] == Stds(samples, input, mean[..], sqrt)
  {
    std := new real[input];
    var j := 0;
    while j < input
      invariant 0 <= j <= input
      invariant forall k :: 0 <= k < j ==> std[k] == Stds(samples, input, mean[..], sqrt)[k]
    {
      var acc2 := 0.0;
      var i := 0;
      while i < |samples|
        invariant 0 <= i <= |samples|
        invariant acc2 == SquaredDeviation(samples, j, mean[j], i)
      {
        var d := samples[i].features[j] - mean[j];
        acc2 := acc2 + d * d;
        i := i + 1;
      }
      std[j] := sqrt(MaxReal(VarianceFloor, acc2 / |samples| as real));
      j := j + 1;
    }
  }

  /** The normalised feature vectors and binarised labels of the corpus. */
  method NormalizeSamples(samples: seq<TrainingSample>, mean: seq<real>, std: seq<real>)
    returns (xs: seq<seq<real>>, ys: seq<int>)
    requires Consistent(samples, |mean|) && |std| == |mean|
    requires forall j :: 0 <= j < |std| ==> std[j] != 0.0
    ensures |xs| == |ys| == |samples|
    ensures forall i :: 0 <= i < |samples| ==>
              xs[i] == Normalized(samples[i].features, mean, std) && ys[i] == Binarise(samples[i].labelValue)
  {
    xs, ys := [], [];
    var i := 0;
    while i < |samples|
      invariant 0 <= i <= |samples| && |xs| == |ys| == i
      invariant forall k :: 0 <= k < i ==>
                  xs[k] == Normalized(samples[k].features, mean, std) && ys[k] == Binarise(samples[k].labelValue)
    {
      var f := samples[i].features;
      var nf := new real[|mean|];
      var j := 0;
      while j < |mean|
        invariant 0 <= j <= |mean|
        invariant forall l :: 0 <= l < j ==> nf[l] == (f[l] - mean[l]) / std[l]
      {
        nf[j] := (f[j] - mean[j]) / std[j];
        j := j + 1;
      }
      assert nf[..] == Normalized(f, mean, std);
      xs := xs + [nf[..]];
      ys := ys + [if samples[i].labelValue > 0 then 1 else 0];
      i := i + 1;
    }
  }

  /** The W1 loops: every weight drawn, row by row. */
  method InitW1(draw1: (nat, nat) -> real, hidden: nat, input: nat) returns (w1: array2<real>)
    ensures fresh(w1) && w1.Length0 == hidden && w1.Length1 == input
    ensures Matrix(w1) == InitialW1(draw1, hidden, input)
  {
    w1 := new real[hidden, input];
    var i := 0;
    while i < hidden
      modifies w1
      invariant 0 <= i <= hidden
      invariant forall k, l :: 0 <= k < i && 0 <= l < input ==> w1[k, l] == Scaled(draw1(k, l))
    {
      var j := 0;
      while j < input
        modifies w1
        invariant 0 <= j <= input
        invariant forall k, l :: 0 <= k < i && 0 <= l < input ==> w1[k, l] == Scaled(draw1(k, l))
        invariant forall l :: 0 <= l < j ==> w1[i, l] == Scaled(draw1(i, l))
      {
        w1[i, j] := Scaled(draw1(i, j));
        j := j + 1;
      }
      i := i + 1;
    }
    ghost var m := InitialW1(draw1, hidden, input);
    forall k | 0 <= k < hidden
      ensures Row(w1, k) == m[k]
    {
      assert forall l :: 0 <= l < input ==> Row(w1, k)[l] == m[k][l];
    }
  }

  /** Weights drawn uniformly from [-0.1, 0.1), biases zero. */
  method InitWeights(draw1: (nat, nat) -> real, draw2: nat -> real, hidden: nat, input: nat)
    returns (w1: array2<real>, b1: array<real>, w2: array<real>, b2: real)
    ensures fresh(w1) && fresh(b1) && fresh(w2) && b1 != w2
    ensures w1.Length0 == hidden && w1.Length1 == input && b1.Length == hidden && w2.Length == hidden
    ensures Params(Matrix(w1), b1[..], w2[..], b2) == InitialParams(draw1, draw2, hidden, input)
  {
    w1 := InitW1(draw1, hidden, input);
    b1 := new real[hidden](k => 0.0);
    w2 := new real[hidden];
    var i := 0;
    while i < hidden
      modifies w2
      invariant 0 <= i <= hidden
      invariant forall k :: 0 <= k < i ==> w2[k] == Scaled(draw2(k))
    {
      w2[i] := Scaled(draw2(i));
      i := i + 1;
    }
    b2 := 0.0;
  }

  /** One epoch: an SGD step per sample, in the shuffled order. */
  method RunEpoch(w1: array2<real>, b1: array<real>, w2: array<real>, b2: real,
                  xs: seq<seq<real>>, ys: seq<int>, ord: seq<nat>,
                  lr: real, exp: real -> real) returns (b2new: real)
    requires b1.Length == w1.Length0 && w2.Length == w1.Length0 && b1 != w2
    requires PositiveExp(exp) && |xs| == |ys|
    requires forall i :: 0 <= i < |xs| ==> |xs[i]| == w1.Length1
    requires forall k :: 0 <= k < |ord| ==> ord[k] < |xs|
    modifies w1, b1, w2
    ensures Params(Matrix(w1), b1[..], w2[..], b2new)
         == Epoch(old(Params(Matrix(w1), b1[..], w2[..], b2)), xs, ys, ord, lr, exp, w1.Length0, w1.Length1)
  {
    var hidden, input := w1.Length0, w1.Length1;
    ghost var q := Params(Matrix(w1), b1[..], w2[..], b2);
    assert Shaped(q, hidden, input);
    b2new := b2;
    var k := 0;
    while k < |ord|
      invariant 0 <= k <= |ord|
      invariant Params(Matrix(w1), b1[..], w2[..], b2new) == Epoch(q, xs, ys, ord[..k], lr, exp, hidden, input)
    {
      var idx := ord[k];
      assert ord[..k + 1][..k] == ord[..k];
      b2new := SgdStep(w1, b1, w2, b2new, xs[idx], ys[idx], lr, exp);
      k := k + 1;
    }
    assert ord[..|ord|] == ord;
  }

  /** Epoch e, run on weights that hold the result of the first e epochs. */
  method RunEpochAt(w1: array2<real>, b1: array<real>, w2: array<real>, b2: real, ghost p0: Params,
                    xs: seq<seq<real>>, ys: seq<int>, order: nat -> seq<nat>, e: nat, ghost count: nat,
                    lr: real, exp: real -> real) returns (b2new: real)
    requires b1.Length == w1.Length0 && w2.Length == w1.Length0 && b1 != w2
    requires Shaped(p0, w1.Length0, w1.Length1) && PositiveExp(exp) && |xs| == |ys| && e < count
    requires forall i :: 0 <= i < |xs| ==> |xs[i]| == w1.Length1
    requires forall e, k :: 0 <= e < count && 0 <= k < |order(e)| ==> order(e)[k] < |xs|
    requires Params(Matrix(w1), b1[..], w2[..], b2) == Epochs(p0, xs, ys, order, e, lr, exp, w1.Length0, w1.Length1)
    modifies w1, b1, w2
    ensures Params(Matrix(w1), b1[..], w2[..], b2new) == Epochs(p0, xs, ys, order, e + 1, lr, exp, w1.Length0, w1.Length1)
  {
    EpochsNext(p0, xs, ys, order, e, count, lr, exp, w1.Length0, w1.Length1);
    assert forall k :: 0 <= k < |order(e)| ==> order(e)[k] < |xs|;
    b2new := RunEpoch(w1, b1, w2, b2, xs, ys, order(e), lr, exp);
  }

  /** The SGD epochs, in place on the weights; returns the final b2. */
  method RunEpochs(w1: array2<real>, b1: array<real>, w2: array<real>, b2: real,
                   xs: seq<seq<real>>, ys: seq<int>, order: nat -> seq<nat>, epochs: int,
                   lr: real, exp: real -> real) returns (b2new: real)
    requires b1.Length == w1.Length0 && w2.Length == w1.Length0 && b1 != w2
    requires PositiveExp(exp) && |xs| == |ys|
    requires forall i :: 0 <= i < |xs| ==> |xs[i]| == w1.Length1
    requires forall e, k :: 0 <= e < epochs && 0 <= k < |order(e)| ==> order(e)[k] < |xs|
    modifies w1, b1, w2
    ensures Params(Matrix(w1), b1[..], w2[..], b2new)
         == Epochs(old(Params(Matrix(w1), b1[..], w2[..], b2)), xs, ys, order,
                   if epochs < 0 then 0 else epochs, lr, exp, w1.Length0, w1.Length1)
  {
    var hidden, input := w1.Length0, w1.Length1;
    ghost var p0 := Params(Matrix(w1), b1[..], w2[..], b2);
    assert Shaped(p0, hidden, input);
    var count: nat := if epochs < 0 then 0 else epochs;
    b2new := b2;
    var e: nat := 0;
    while e < count
      invariant e <= count
      invariant Params(Matrix(w1), b1[..], w2[..], b2new) == Epochs(p0, xs, ys, order, e, lr, exp, hidden, input)
    {
      b2new := RunEpochAt(w1, b1, w2, b2new, p0, xs, ys, order, e, count, lr, exp);
      e := e + 1;
    }
  }

  /** Trains on the corpus; None where the source returns false.  The
      model is returned instead of being written to disk. */
  method TrainFromDb(samples: seq<TrainingSample>, hidden: nat, epochs: int, lr: real,
                     sqrt: real -> real, exp: real -> real,
                     draw1: (nat, nat) -> real, draw2: nat -> real, order: nat -> seq<nat>)
    returns (r: Option<SavedModel>)
    requires PositiveSqrt(sqrt) && PositiveExp(exp)
    requires forall e, k :: 0 <= e < epochs && 0 <= k < |order(e)| ==> order(e)[k] < |samples|
    ensures r == TrainResult(samples, hidden, epochs, lr, sqrt, exp, draw1, draw2, order)
  {
    if |samples| == 0 {
      return None;
    }
    var input := |samples[0].features|;
    var n := 0;
    while n < |samples|
      invariant 0 <= n <= |samples|
      invariant forall i :: 0 <= i < n ==> |samples[i].features| == input
    {
      if |samples[n].features| != input {
        return None;
      }
      n := n + 1;
    }
    var mean := ColumnMeans(samples, input);
    var std := ColumnStds(samples, input, mean, sqrt);
    StdsPositive(samples, input, mean[..], sqrt);
    ghost var ms, ss := mean[..], std[..];
    var xs, ys := NormalizeSamples(samples, mean[..], std[..]);
    assert xs == seq(|samples|, i requires 0 <= i < |samples| => Normalized(samples[i].features, ms, ss));
    assert ys == seq(|samples|, i requires 0 <= i < |samples| => Binarise(samples[i].labelValue));
    var w1, b1, w2, b2 := InitWeights(draw1, draw2, hidden, input);
    b2 := RunEpochs(w1, b1, w2, b2, xs, ys, order, epochs, lr, exp);
    r := Some(SavedModel(input, hidden, Matrix(w1), b1[..], w2[..], b2, Some(mean[..]), Some(std[..])));
  }

  // ---------------------------------------------------------------------
  // PredictProbabilities

  /** A loaded model whose arrays are long enough for its declared sizes
      (a shorter array makes the source throw). */
  predicate Usable(m: SavedModel) {
    m.inputSize >= 0 && m.hiddenSize >= 0 &&
    m.hiddenSize <= |m.bias1| && m.hiddenSize <= |m.weights1| && m.hiddenSize <= |m.weights2| &&
    forall i :: 0 <= i < m.hiddenSize ==> m.inputSize <= |m.weights1[i]|
  }

  /** The stored mean, or zeros when it is missing. */
  function MeanOf(m: SavedModel): seq<real>
    requires m.inputSize >= 0
  {
    if m.mean.Some? then m.mean.value else seq(m.inputSize, j => 0.0)
  }

  /** The stored std, or zeros when it is missing. */
  function StdOf(m: SavedModel): seq<real>
    requires m.inputSize >= 0
  {
    if m.std.Some? then m.std.value else seq(m.inputSize, j => 0.0)
  }

  /** The divisor for feature j: std[j], with 1 where it is absent or 0. */
  function Scale(std: seq<real>, j: nat): (s: real)
    ensures s != 0.0
    ensures j < |std| && std[j] != 0.0 ==> s == std[j]
    ensures j >= |std| || std[j] == 0.0 ==> s == 1.0
  {
    var s := if j < |std| then std[j] else 1.0;
    if s == 0.0 then 1.0 else s
  }

  function Shift(mean: seq<real>, j: nat): (m: real)
    ensures m == if j < |mean| then mean[j] else 0.0
  {
    if j < |mean| then mean[j] else 0.0
  }

  function Standardize(x: seq<real>, mean: seq<real>, std: seq<real>): (xn: seq<real>)
    ensures |xn| == |x|
  {
    seq(|x|, j requires 0 <= j < |x| => (x[j] - Shift(mean, j)) / Scale(std, j))
  }

  /** A missing mean/std behaves as zero mean and unit std: the frame is
      passed through unchanged. */
  lemma StandardizeWithoutStats(x: seq<real>, n: nat)
    ensures Standardize(x, [], []) == x
    ensures Standardize(x, seq(n, j => 0.0), seq(n, j => 0.0)) == x
  {
  }

  /** The model's probability for one frame: 0 for a frame of the wrong
      length, a sigmoid output in (0, 1) otherwise. */
  function Score(m: SavedModel, x: seq<real>, exp: real -> real): (r: real)
    requires Usable(m) && PositiveExp(exp)
    ensures |x| != m.inputSize ==> r == 0.0
    ensures |x| == m.inputSize ==> 0.0 < r < 1.0
  {
    if |x| != m.inputSize then 0.0
    else
      var xn := Standardize(x, MeanOf(m), StdOf(m));
      var h := HiddenOf(m.weights1, m.bias1, xn, m.hiddenSize, m.inputSize);
      Sigmoid(m.bias2 + Dot(m.weights2, h, m.hiddenSize), exp)
  }

  /** The average of r[i] and its in-range neighbours. */
  function SmoothAt(r: seq<real>, i: nat): real
    requires i < |r|
  {
    var acc := r[i] + (if i >= 1 then r[i - 1] else 0.0) + (if i + 1 < |r| then r[i + 1] else 0.0);
    var cnt := 1 + (if i >= 1 then 1 else 0) + (if i + 1 < |r| then 1 else 0);
    acc / cnt as real
  }

  function Smooth(r: seq<real>): (s: seq<real>)
    ensures |s| == |r|
  {
    seq(|r|, i requires 0 <= i < |r| => SmoothAt(r, i))
  }

  /** Smoothing stays within the bounds of the signal, and leaves a
      constant signal unchanged. */
  lemma SmoothBounds(r: seq<real>, lo: real, hi: real)
    requires forall i :: 0 <= i < |r| ==> lo <= r[i] <= hi
    ensures forall i :: 0 <= i < |r| ==> lo <= Smooth(r)[i] <= hi
  {
    forall i | 0 <= i < |r|
      ensures lo <= Smooth(r)[i] <= hi
    {
      var cnt := 1 + (if i >= 1 then 1 else 0) + (if i + 1 < |r| then 1 else 0);
      var acc := r[i] + (if i >= 1 then r[i - 1] else 0.0) + (if i + 1 < |r| then r[i + 1] else 0.0);
      assert lo * cnt as real <= acc <= hi * cnt as real;
      DivBounds(acc, cnt as real, lo, hi);
    }
  }

  lemma DivBounds(acc: real, c: real, lo: real, hi: real)
    requires c > 0.0 && lo * c <= acc <= hi * c
    ensures lo <= acc / c <= hi
  {
  }

  lemma SmoothConstant(r: seq<real>, v: real)
    requires forall i :: 0 <= i < |r| ==> r[i] == v
    ensures Smooth(r) == r
  {
    SmoothBounds(r, v, v);
  }

  /** What PredictProbabilities returns. */
  function Predict(model: Option<SavedModel>, features: seq<seq<real>>, exp: real -> real): seq<real>
    requires model.Some? ==> Usable(model.value)
    requires PositiveExp(exp)
  {
    if model.None? then seq(|features|, k => 0.0)
    else
      var raw := seq(|features|, k requires 0 <= k < |features| => Score(model.value, features[k], exp));
      if |raw| >= 3 then Smooth(raw) else raw
  }

  /** One probability per frame, each in [0, 1]; all zero without a model. */
  lemma PredictSpec(model: Option<SavedModel>, features: seq<seq<real>>, exp: real -> real)
    requires model.Some? ==> Usable(model.value)
    requires PositiveExp(exp)
    ensures var p := Predict(model, features, exp);
      |p| == |features| &&
      (forall k :: 0 <= k < |p| ==> 0.0 <= p[k] <= 1.0) &&
      (model.None? ==> forall k :: 0 <= k < |p| ==> p[k] == 0.0)
  {
    if model.Some? {
      var raw := seq(|features|, k requires 0 <= k < |features| => Score(model.value, features[k], exp));
      SmoothBounds(raw, 0.0, 1.0);
    }
  }

  /** With fewer than three frames nothing is smoothed: a frame of the
      wrong length scores exactly 0. */
  lemma ShortInputUnsmoothed(m: SavedModel, features: seq<seq<real>>, exp: real -> real, k: nat)
    requires Usable(m) && PositiveExp(exp) && |features| < 3 && k < |features|
    requires |features[k]| != m.inputSize
    ensures Predict(Some(m), features, exp)[k] == 0.0
  {
  }

  method StandardizeFrame(x: seq<real>, mean: seq<real>, std: seq<real>) returns (xn: array<real>)
    ensures fresh(xn) && xn[..] == Standardize(x, mean, std)
  {
    xn := new real[|x|];
    var j := 0;
    while j < |x|
      invariant 0 <= j <= |x|
      invariant forall l :: 0 <= l < j ==> xn[l] == (x[l] - Shift(mean, l)) / Scale(std, l)
    {
      var s := if |std| > j then std[j] else 1.0;
      if s == 0.0 {
        s := 1.0;
      }
      var mj := if |mean| > j then mean[j] else 0.0;
      xn[j] := (x[j] - mj) / s;
      j := j + 1;
    }
  }

  method HiddenLayer(w1: seq<seq<real>>, b1: seq<real>, xn: array<real>, hidden: nat)
    returns (h: array<real>)
    requires hidden <= |w1| && hidden <= |b1|
    requires forall i :: 0 <= i < hidden ==> xn.Length <= |w1[i]|
    ensures fresh(h) && h[..] == HiddenOf(w1, b1, xn[..], hidden, xn.Length)
  {
    var input := xn.Length;
    h := new real[hidden];
    var i := 0;
    while i < hidden
      invariant 0 <= i <= hidden
      invariant forall k :: 0 <= k < i ==> h[k] == Relu(b1[k] + Dot(w1[k], xn[..], input))
    {
      var sum := b1[i];
      var j := 0;
      while j < input
        invariant 0 <= j <= input
        invariant sum == b1[i] + Dot(w1[i], xn[..], j)
      {
        sum := sum + w1[i][j] * xn[j];
        j := j + 1;
      }
      h[i] := Relu(sum);
      i := i + 1;
    }
  }

  method ScoreFrame(m: SavedModel, x: seq<real>, exp: real -> real) returns (r: real)
    requires Usable(m) && PositiveExp(exp)
    ensures r == Score(m, x, exp)
  {
    var hidden, input := m.hiddenSize, m.inputSize;
    if |x| != input {
      return 0.0;
    }
    var mean := if m.mean.Some? then m.mean.value else seq(input, j => 0.0);
    var std := if m.std.Some? then m.std.value else seq(input, j => 0.0);
    var xn := StandardizeFrame(x, mean, std);
    var h := HiddenLayer(m.weights1, m.bias1, xn, hidden);
    var z := OutputSum(m.weights2, m.bias2, h);
    r := Sigmoid(z, exp);
  }

  method SmoothScores(raw: array<real>) returns (smooth: array<real>)
    ensures fresh(smooth) && smooth[..] == Smooth(raw[..])
  {
    smooth := new real[raw.Length];
    var i := 0;
    while i < raw.Length
      invariant 0 <= i <= raw.Length
      invariant forall k :: 0 <= k < i ==> smooth[k] == SmoothAt(raw[..], k)
    {
      var acc := raw[i];
      var cnt := 1;
      if i - 1 >= 0 {
        acc := acc + raw[i - 1];
        cnt := cnt + 1;
      }
      if i + 1 < raw.Length {
        acc := acc + raw[i + 1];
        cnt := cnt + 1;
      }
      smooth[i] := acc / cnt as real;
      i := i + 1;
    }
  }

  /** The model is passed in (None when none could be loaded). */
  method PredictProbabilities(model: Option<SavedModel>, features: seq<seq<real>>, exp: real -> real)
    returns (probs: seq<real>)
    requires model.Some? ==> Usable(model.value)
    requires PositiveExp(exp)
    ensures probs == Predict(model, features, exp)
  {
    if model.None? {
      return seq(|features|, k => 0.0);
    }
    var m := model.value;
    var outArr := new real[|features|];
    var k := 0;
    while k < |features|
      invariant 0 <= k <= |features|
      invariant forall l :: 0 <= l < k ==> outArr[l] == Score(m, features[l], exp)
    {
      outArr[k] := ScoreFrame(m, features[k], exp);
      k := k + 1;
    }
    ghost var raw := seq(|features|, l requires 0 <= l < |features| => Score(m, features[l], exp));
    assert outArr[..] == raw;
    if outArr.Length >= 3 {
      var smooth := SmoothScores(outArr);
      return smooth[..];
    }
    return outArr[..];
  }
}
