/**
 * The optimizers of src/optimizers: SGD, Adam and RMSProp.
 *
 * An optimizer holds four parallel lists of matrices filled in by the network's
 * compile step: the parameters, their gradients, and the two moment buffers m and v
 * (RMSProp keeps its cache in v).  Every matrix in the lists was made by
 * matrix_create, so each is `Owned`, and no two of them share an array.  Each
 * update walks the pairs in order, calling the matrix routines exactly as the
 * source does; the contracts state the resulting values element by element.
 */
module Optimizers {
  import opened Numeric
  import opened Grids
  import opened Matrices

  /** Which update function the optimizer was created with. */
  datatype Rule = SgdRule | AdamRule | RmsPropRule

  // ---- Element-wise specifications ----

  /** Every element is non-negative. */
  predicate NonNeg(g: Grid)
  {
    forall i, j :: 0 <= i < |g| && 0 <= j < |g[i]| ==> g[i][j] >= 0.0
  }

  /** p − lr·g, element by element: one plain gradient-descent step. */
  function SgdStep(p: Grid, g: Grid, lr: real): (r: Grid)
    requires SameShape(p, g)
    ensures SameShape(p, r)
  {
    seq(|p|, (i: int) requires 0 <= i < |p| =>
      seq(|p[i]|, (j: int) requires 0 <= j < |p[i]| => p[i][j] - lr * g[i][j]))
  }

  /** a·w + b·(1 − w), element by element: the decaying averages kept in m and v. */
  function MovingAverage(a: Grid, b: Grid, w: real): (r: Grid)
    requires SameShape(a, b)
    ensures SameShape(a, r)
  {
    seq(|a|, (i: int) requires 0 <= i < |a| =>
      seq(|a[i]|, (j: int) requires 0 <= j < |a[i]| => a[i][j] * w + b[i][j] * (1.0 - w)))
  }

  /** One parameter value moved against `num`, scaled down by √den + ε. */
  function DescentValue(p: real, num: real, den: real, rate: real, eps: real, lm: Libm): real
    requires den >= 0.0 && eps > 0.0 && Lawful(lm)
  {
    assert lm.sqrt(den) >= 0.0;
    p - rate * num / (lm.sqrt(den) + eps)
  }

  /** The flat loop shared by Adam and RMSProp, as a grid. */
  function Descent(p: Grid, num: Grid, den: Grid, rate: real, eps: real, lm: Libm): (r: Grid)
    requires SameShape(p, num) && SameShape(p, den) && NonNeg(den) && eps > 0.0 && Lawful(lm)
    ensures SameShape(p, r)
  {
    seq(|p|, (i: int) requires 0 <= i < |p| =>
      seq(|p[i]|, (j: int) requires 0 <= j < |p[i]| => DescentValue(p[i][j], num[i][j], den[i][j], rate, eps, lm)))
  }

  /** The same loop over flat buffers. */
  function DescentFlat(p: seq<real>, num: seq<real>, den: seq<real>, rate: real, eps: real, lm: Libm): (r: seq<real>)
    requires |p| == |num| == |den| && eps > 0.0 && Lawful(lm)
    requires forall k :: 0 <= k < |den| ==> den[k] >= 0.0
    ensures |r| == |p|
  {
    seq(|p|, (k: int) requires 0 <= k < |p| => DescentValue(p[k], num[k], den[k], rate, eps, lm))
  }

  /** What RMSProp's "restore" steps leave for one gradient value x: √(x²·(1 − d))·(1/(1 − d)). */
  function Restored(x: real, d: real, lm: Libm): real
    requires d != 1.0
  {
    lm.sqrt((x * x) * (1.0 - d)) * (1.0 / (1.0 - d))
  }

  /** `Restored`, element by element. */
  function RestoredGradient(g: Grid, d: real, lm: Libm): (r: Grid)
    requires d != 1.0
    ensures SameShape(g, r)
  {
    seq(|g|, (i: int) requires 0 <= i < |g| =>
      seq(|g[i]|, (j: int) requires 0 <= j < |g[i]| => Restored(g[i][j], d, lm)))
  }

  // ---- Facts about the specifications ----

  /** The moving average of a non-negative buffer and squares stays non-negative. */
  lemma MovingAverageOfSquaresNonNeg(v: Grid, g: Grid, w: real)
    requires SameShape(v, g) && NonNeg(v) && 0.0 <= w <= 1.0
    ensures NonNeg(MovingAverage(v, ZipGrid(g, g, Times), w))
  {
    var r := MovingAverage(v, ZipGrid(g, g, Times), w);
    forall i, j | 0 <= i < |r| && 0 <= j < |r[i]| ensures r[i][j] >= 0.0 {
      var x, y := v[i][j], g[i][j];
      SquareSign(y);
      calc {
        r[i][j];
      ==
        x * w + Square(y) * (1.0 - w);
      >=
        { assert x * w >= 0.0; assert Square(y) * (1.0 - w) >= 0.0; }
        0.0;
      }
    }
  }

  /** Scaling a non-negative grid by a non-negative factor keeps it non-negative. */
  lemma ScaledNonNeg(v: Grid, s: real)
    requires NonNeg(v) && s >= 0.0
    ensures NonNeg(MapGrid(v, ScaleBy(s)))
  {
    var r := MapGrid(v, ScaleBy(s));
    forall i, j | 0 <= i < |r| && 0 <= j < |r[i]| ensures r[i][j] >= 0.0 {
      assert r[i][j] == v[i][j] * s;
    }
  }

  /** q·(1/c) = a/s when q = a·s, c = s² and s > 0. */
  lemma CancelRoot(q: real, a: real, s: real, c: real)
    requires s > 0.0 && c == s * s && q == a * s
    ensures c > 0.0 && q * (1.0 / c) == a / s
  {
    SquareSign(s);
    calc { c; == Square(s); > 0.0; }
    calc {
      q * (1.0 / c);
    ==
      (a * s) / (s * s);
    ==
      { assert (a * s) / (s * s) * s == a; }
      a / s;
    }
  }

  /** For one gradient value x and 0 <= d < 1: `Restored(x, d)` = |x|/√(1 − d). */
  lemma RestoredValue(x: real, d: real, lm: Libm)
    requires Lawful(lm) && 0.0 <= d < 1.0
    ensures lm.sqrt(1.0 - d) > 0.0
    ensures Restored(x, d, lm) == Abs(x) / lm.sqrt(1.0 - d)
  {
    SqrtOfPositive(lm, 1.0 - d);
    SqrtOfScaledSquare(lm, (x * x) * (1.0 - d), 1.0 - d, x);
    CancelRoot(lm.sqrt((x * x) * (1.0 - d)), Abs(x), lm.sqrt(1.0 - d), 1.0 - d);
  }

  /**
   * RMSProp does not restore g: for 0 <= d < 1 the value left in the gradient is
   * |g|/√(1 − d), which differs from g whenever g < 0 or d > 0.
   */
  lemma RestoredGradientIsMagnitude(g: Grid, d: real, lm: Libm)
    requires Lawful(lm) && 0.0 <= d < 1.0
    ensures lm.sqrt(1.0 - d) > 0.0
    ensures forall i, j :: 0 <= i < |g| && 0 <= j < |g[i]| ==>
      RestoredGradient(g, d, lm)[i][j] == Abs(g[i][j]) / lm.sqrt(1.0 - d)
  {
    RestoredValue(0.0, d, lm);
    forall i, j | 0 <= i < |g| && 0 <= j < |g[i]|
      ensures RestoredGradient(g, d, lm)[i][j] == Abs(g[i][j]) / lm.sqrt(1.0 - d)
    {
      RestoredValue(g[i][j], d, lm);
    }
  }

  /** For g = −1 and decay 0 the restored gradient is 1, not −1. */
  lemma RestoredGradientExample(lm: Libm)
    requires Lawful(lm)
    ensures RestoredGradient([[-1.0]], 0.0, lm) == [[1.0]]
  {
    RestoredGradientIsMagnitude([[-1.0]], 0.0, lm);
    assert lm.sqrt(1.0) == 1.0 by {
      NonNegSquareUnique(lm.sqrt(1.0), 1.0);
    }
    var r := RestoredGradient([[-1.0]], 0.0, lm);
    assert r[0][0] == 1.0;
    assert r[0] == [1.0];
  }

  /** A product of non-zero reals is not zero. */
  lemma ProductNonZero(a: real, b: real)
    requires a != 0.0 && b != 0.0
    ensures a * b != 0.0
  {
    assert (a * b) / b == a;
  }

  /** A descent step with a non-zero rate along a non-zero value changes the parameter. */
  lemma DescentMoves(p: real, num: real, den: real, rate: real, eps: real, lm: Libm)
    requires Lawful(lm) && den >= 0.0 && eps > 0.0 && rate != 0.0 && num != 0.0
    ensures DescentValue(p, num, den, rate, eps, lm) != p
  {
    var d := lm.sqrt(den) + eps;
    assert d > 0.0;
    ProductNonZero(rate, num);
    ProductNonZero(rate * num, 1.0 / d);
    assert DescentValue(p, num, den, rate, eps, lm) == p - (rate * num) * (1.0 / d);
  }

  /** Adam's step size is not zero when the learning rate is not and both β lie in [0, 1). */
  lemma AdamRateNonZero(lr: real, b1: real, b2: real, lm: Libm)
    requires Lawful(lm) && 0.0 <= b1 < 1.0 && 0.0 <= b2 < 1.0 && lr != 0.0
    ensures AdamRate(lr, b1, b2, lm) != 0.0
  {
    SqrtOfPositive(lm, 1.0 - b2);
    var s := lm.sqrt(1.0 - b2);
    ProductNonZero(lr, s);
    ProductNonZero(lr * s, 1.0 / (1.0 - b1));
    assert AdamRate(lr, b1, b2, lm) == (lr * s) * (1.0 / (1.0 - b1));
  }

  /**
   * With m and v zero, a non-zero gradient, a non-zero rate and 0 <= β1, β2 < 1, the
   * first Adam step (t = 1, so β^t = β) moves the parameter: m̂ comes back as g itself
   * and the step lr_t·m̂/(√v̂ + ε) is not zero.
   */
  lemma AdamFirstStepMoves(p: real, g: real, lr: real, b1: real, b2: real, eps: real, lm: Libm)
    requires Lawful(lm) && 0.0 <= b1 < 1.0 && 0.0 <= b2 < 1.0 && eps > 0.0 && g != 0.0 && lr != 0.0
    ensures var mHat := (0.0 * b1 + g * (1.0 - b1)) * (1.0 / (1.0 - b1));
            var vHat := (0.0 * b2 + (g * g) * (1.0 - b2)) * (1.0 / (1.0 - b2));
            var lrT := lr * lm.sqrt(1.0 - b2) / (1.0 - b1);
            mHat == g && vHat >= 0.0 && DescentValue(p, mHat, vHat, lrT, eps, lm) != p
  {
    var c1, c2 := 1.0 - b1, 1.0 - b2;
    var mHat := (0.0 * b1 + g * c1) * (1.0 / c1);
    assert mHat == g;
    var vHat := (0.0 * b2 + (g * g) * c2) * (1.0 / c2);
    SquareSign(g);
    calc { vHat; == g * g; == Square(g); >= 0.0; }
    AdamRateNonZero(lr, b1, b2, lm);
    DescentMoves(p, mHat, vHat, AdamRate(lr, b1, b2, lm), eps, lm);
  }

  /** Adam's bias correction: every element divided by 1 − β^t. */
  function Corrected(g: Grid, bt: real): (r: Grid)
    requires bt != 1.0
    ensures SameShape(g, r)
    ensures NonNeg(g) && bt < 1.0 ==> NonNeg(r)
  {
    if NonNeg(g) && bt < 1.0 then ScaledNonNeg(g, 1.0 / (1.0 - bt)); MapGrid(g, ScaleBy(1.0 / (1.0 - bt)))
    else MapGrid(g, ScaleBy(1.0 / (1.0 - bt)))
  }

  /** Adam's step size lr·√(1 − β2^t)/(1 − β1^t). */
  function AdamRate(lr: real, b1t: real, b2t: real, lm: Libm): real
    requires b1t != 1.0
  {
    lr * lm.sqrt(1.0 - b2t) / (1.0 - b1t)
  }

  /** The four grids of one optimizer entry i: params[i], grads[i], m[i] and v[i]. */
  datatype Entry = Entry(param: Grid, grad: Grid, m: Grid, v: Grid)

  /** es and fs hold the same parameters and moments, entry by entry; their gradients may differ. */
  predicate SameButGrads(es: seq<Entry>, fs: seq<Entry>)
  {
    |es| == |fs| && forall k :: 0 <= k < |es| ==> es[k].param == fs[k].param && es[k].m == fs[k].m && es[k].v == fs[k].v
  }

  /** SameButGrads chains. */
  lemma SameButGradsTrans(es: seq<Entry>, fs: seq<Entry>, gs: seq<Entry>)
    requires SameButGrads(es, fs) && SameButGrads(fs, gs)
    ensures SameButGrads(es, gs)
  {
  }

  /** The four grids of an entry have one shape. */
  predicate Shaped(e: Entry)
  {
    SameShape(e.param, e.grad) && SameShape(e.param, e.m) && SameShape(e.param, e.v)
  }

  /**
   * One SGD step on one entry: the parameter moves against the gradient, the gradient
   * is cleared, and the moment buffers are not touched.
   */
  function SgdEntryStep(e: Entry, lr: real): (r: Entry)
    requires Shaped(e)
    ensures Shaped(r) && SameShape(e.param, r.param)
  {
    Entry(SgdStep(e.param, e.grad, lr), MapGrid(e.grad, SetTo(0.0)), e.m, e.v)
  }

  /**
   * What one Adam step needs of an entry and of the step's numbers: four grids of one
   * shape, no negative second moment, β2 in [0, 1], 1 − β1^t not zero, β2^t below 1,
   * ε positive.
   */
  ghost predicate AdamReady(e: Entry, beta2: real, b1t: real, b2t: real, eps: real, lm: Libm)
  {
    && Shaped(e) && NonNeg(e.v)
    && 0.0 <= beta2 <= 1.0 && b1t != 1.0 && b2t < 1.0 && eps > 0.0 && Lawful(lm)
  }

  /**
   * One Adam step on one entry: the two moving averages, the bias-corrected descent of
   * the parameter with the new moments, and the gradient cleared.
   */
  function AdamStep(e: Entry, beta1: real, beta2: real, b1t: real, b2t: real, lrT: real, eps: real, lm: Libm): (r: Entry)
    requires AdamReady(e, beta2, b1t, b2t, eps, lm)
    ensures AdamReady(r, beta2, b1t, b2t, eps, lm)
    ensures SameShape(e.param, r.param)
  {
    var m := MovingAverage(e.m, e.grad, beta1);
    var v := MovingAverage(e.v, ZipGrid(e.grad, e.grad, Times), beta2);
    MovingAverageOfSquaresNonNeg(e.v, e.grad, beta2);
    Entry(Descent(e.param, Corrected(m, b1t), Corrected(v, b2t), lrT, eps, lm), MapGrid(e.grad, SetTo(0.0)), m, v)
  }

  /** Every element is zero, as in a buffer matrix_create has just made. */
  predicate AllZero(g: Grid)
  {
    forall i, j :: 0 <= i < |g| && 0 <= j < |g[i]| ==> g[i][j] == 0.0
  }

  /** Every parameter element of e whose gradient is not zero has another value in p. */
  predicate MovedWhereGradient(e: Entry, p: Grid)
    requires Shaped(e) && SameShape(e.param, p)
  {
    forall i, j :: 0 <= i < |e.param| && 0 <= j < |e.param[i]| && e.grad[i][j] != 0.0 ==> p[i][j] != e.param[i][j]
  }

  /** Element (i, j) of Adam's bias-corrected new first moment m̂. */
  function AdamMHat(e: Entry, beta1: real, b1t: real, i: nat, j: nat): real
    requires Shaped(e) && b1t != 1.0 && i < |e.param| && j < |e.param[i]|
  {
    (e.m[i][j] * beta1 + e.grad[i][j] * (1.0 - beta1)) * (1.0 / (1.0 - b1t))
  }

  /** Element (i, j) of Adam's bias-corrected new second moment v̂. */
  function AdamVHat(e: Entry, beta2: real, b2t: real, i: nat, j: nat): real
    requires Shaped(e) && b2t != 1.0 && i < |e.param| && j < |e.param[i]|
  {
    (e.v[i][j] * beta2 + (e.grad[i][j] * e.grad[i][j]) * (1.0 - beta2)) * (1.0 / (1.0 - b2t))
  }

  /**
   * Element (i, j) of an Adam step's parameter: the old value moved along the
   * bias-corrected new first moment, scaled by the bias-corrected new second moment.
   */
  lemma AdamParamAt(e: Entry, beta1: real, beta2: real, b1t: real, b2t: real, lrT: real, eps: real, lm: Libm, i: nat, j: nat)
    requires AdamReady(e, beta2, b1t, b2t, eps, lm) && i < |e.param| && j < |e.param[i]|
    ensures AdamVHat(e, beta2, b2t, i, j) >= 0.0
    ensures AdamStep(e, beta1, beta2, b1t, b2t, lrT, eps, lm).param[i][j]
            == DescentValue(e.param[i][j], AdamMHat(e, beta1, b1t, i, j), AdamVHat(e, beta2, b2t, i, j), lrT, eps, lm)
  {
    var m := MovingAverage(e.m, e.grad, beta1);
    var v := MovingAverage(e.v, ZipGrid(e.grad, e.grad, Times), beta2);
    MovingAverageOfSquaresNonNeg(e.v, e.grad, beta2);
    var cm, cv := Corrected(m, b1t), Corrected(v, b2t);
    assert AdamStep(e, beta1, beta2, b1t, b2t, lrT, eps, lm).param == Descent(e.param, cm, cv, lrT, eps, lm);
    assert Descent(e.param, cm, cv, lrT, eps, lm)[i][j] == DescentValue(e.param[i][j], cm[i][j], cv[i][j], lrT, eps, lm);
    assert cm[i][j] == m[i][j] * (1.0 / (1.0 - b1t));
    assert cv[i][j] == v[i][j] * (1.0 / (1.0 - b2t));
    assert m[i][j] == e.m[i][j] * beta1 + e.grad[i][j] * (1.0 - beta1);
    assert ZipGrid(e.grad, e.grad, Times)[i][j] == e.grad[i][j] * e.grad[i][j];
    assert v[i][j] == e.v[i][j] * beta2 + (e.grad[i][j] * e.grad[i][j]) * (1.0 - beta2);
    assert cm[i][j] == AdamMHat(e, beta1, b1t, i, j);
    assert cv[i][j] == AdamVHat(e, beta2, b2t, i, j);
    assert cv[i][j] >= 0.0;
  }

  /** With a zero first moment at (i, j) and step count 1, m̂ there is the gradient itself. */
  lemma ZeroMomentMHat(e: Entry, b1: real, i: nat, j: nat)
    requires Shaped(e) && b1 != 1.0 && i < |e.param| && j < |e.param[i]| && e.m[i][j] == 0.0
    ensures AdamMHat(e, b1, b1, i, j) == e.grad[i][j]
  {
    var g := e.grad[i][j];
    assert AdamMHat(e, b1, b1, i, j) == (0.0 * b1 + g * (1.0 - b1)) * (1.0 / (1.0 - b1));
  }

  /** Adam's first step moves element (i, j) of the parameter when the first moment there is zero and the gradient is not. */
  lemma AdamFirstElementMoves(e: Entry, lr: real, b1: real, b2: real, eps: real, lm: Libm, i: nat, j: nat)
    requires AdamReady(e, b2, b1, b2, eps, lm) && 0.0 <= b1 < 1.0 && b2 >= 0.0 && lr != 0.0
    requires i < |e.param| && j < |e.param[i]| && e.m[i][j] == 0.0 && e.grad[i][j] != 0.0
    ensures AdamStep(e, b1, b2, b1, b2, AdamRate(lr, b1, b2, lm), eps, lm).param[i][j] != e.param[i][j]
  {
    var rate := AdamRate(lr, b1, b2, lm);
    AdamParamAt(e, b1, b2, b1, b2, rate, eps, lm, i, j);
    ZeroMomentMHat(e, b1, i, j);
    AdamRateNonZero(lr, b1, b2, lm);
    DescentMoves(e.param[i][j], AdamMHat(e, b1, b1, i, j), AdamVHat(e, b2, b2, i, j), rate, eps, lm);
  }

  /**
   * Adam's first step (t = 1, so β^t = β) on an entry whose first-moment buffer is
   * zero moves every parameter element whose gradient is not zero, whatever the
   * (non-negative) second moment holds.
   */
  lemma AdamFirstEntryStepMoves(e: Entry, lr: real, b1: real, b2: real, eps: real, lm: Libm)
    requires Lawful(lm) && 0.0 <= b1 < 1.0 && 0.0 <= b2 < 1.0 && eps > 0.0 && lr != 0.0
    requires Shaped(e) && AllZero(e.m) && NonNeg(e.v)
    ensures AdamReady(e, b2, Pow(b1, 1), Pow(b2, 1), eps, lm)
    ensures MovedWhereGradient(e, AdamStep(e, b1, b2, Pow(b1, 1), Pow(b2, 1), AdamRate(lr, Pow(b1, 1), Pow(b2, 1), lm), eps, lm).param)
  {
    PowOne(b1);
    PowOne(b2);
    var p := AdamStep(e, b1, b2, b1, b2, AdamRate(lr, b1, b2, lm), eps, lm).param;
    forall i, j | 0 <= i < |e.param| && 0 <= j < |e.param[i]| && e.grad[i][j] != 0.0
      ensures p[i][j] != e.param[i][j]
    {
      AdamFirstElementMoves(e, lr, b1, b2, eps, lm, i, j);
    }
  }

  /**
   * One RMSProp step on one entry, with decay d: the cache v becomes the moving average
   * of the squared gradient, the parameter descends along the restored gradient scaled
   * by the new cache, the gradient is cleared, and m is not touched.
   */
  function RmsPropStep(e: Entry, d: real, lr: real, eps: real, lm: Libm): (r: Entry)
    requires Shaped(e) && NonNeg(e.v) && 0.0 <= d < 1.0 && eps > 0.0 && Lawful(lm)
    ensures Shaped(r) && NonNeg(r.v) && SameShape(e.param, r.param)
  {
    var v := MovingAverage(e.v, ZipGrid(e.grad, e.grad, Times), d);
    MovingAverageOfSquaresNonNeg(e.v, e.grad, d);
    Entry(Descent(e.param, RestoredGradient(e.grad, d, lm), v, lr, eps, lm), MapGrid(e.grad, SetTo(0.0)), e.m, v)
  }

  // ---- How the matrix calls compose ----

  /** matrix_scale(g, −lr) followed by matrix_add(p, g) is one SGD step. */
  lemma ScaledAddIsSgdStep(p: Grid, g: Grid, lr: real)
    requires SameShape(p, g)
    ensures SameShape(p, MapGrid(g, ScaleBy(-lr)))
    ensures ZipGrid(p, MapGrid(g, ScaleBy(-lr)), Plus) == SgdStep(p, g, lr)
  {
    var h := ZipGrid(p, MapGrid(g, ScaleBy(-lr)), Plus);
    forall i, j | 0 <= i < |p| && 0 <= j < |p[i]| ensures h[i][j] == SgdStep(p, g, lr)[i][j] {
      assert h[i][j] == p[i][j] + g[i][j] * -lr;
    }
    Extensionality(h, SgdStep(p, g, lr));
  }

  /** Scaling a by w, b by 1 − w, and adding, gives the moving average. */
  lemma ScaledSumIsAverage(a: Grid, b: Grid, w: real)
    requires SameShape(a, b)
    ensures SameShape(MapGrid(a, ScaleBy(w)), MapGrid(b, ScaleBy(1.0 - w)))
    ensures ZipGrid(MapGrid(a, ScaleBy(w)), MapGrid(b, ScaleBy(1.0 - w)), Plus) == MovingAverage(a, b, w)
  {
    var h := ZipGrid(MapGrid(a, ScaleBy(w)), MapGrid(b, ScaleBy(1.0 - w)), Plus);
    forall i, j | 0 <= i < |a| && 0 <= j < |a[i]| ensures h[i][j] == MovingAverage(a, b, w)[i][j] {
      assert h[i][j] == a[i][j] * w + b[i][j] * (1.0 - w);
    }
    Extensionality(h, MovingAverage(a, b, w));
  }

  /** matrix_scale(g, 0) clears g. */
  lemma ScaledByZero(g: Grid, r: nat, c: nat)
    requires IsShape(g, r, c)
    ensures MapGrid(g, ScaleBy(0.0)) == Zeros(r, c)
  {
    Extensionality(MapGrid(g, ScaleBy(0.0)), Zeros(r, c));
  }

  /** Setting every element of a grid to 0 gives the zero grid of its shape. */
  lemma ClearedIsZeros(g: Grid, r: nat, c: nat)
    requires IsShape(g, r, c)
    ensures MapGrid(g, SetTo(0.0)) == Zeros(r, c)
  {
    Extensionality(MapGrid(g, SetTo(0.0)), Zeros(r, c));
  }

  /** RMSProp's square, scale, square-root and unscale steps on one gradient value. */
  lemma RestoreElement(x: real, d: real, lm: Libm)
    requires d != 1.0
    ensures ApplyUnary(ScaleBy(1.0 / (1.0 - d)), ApplyUnary(Apply(lm.sqrt), ApplyUnary(ScaleBy(1.0 - d), ApplyBinary(Times, x, x))))
      == Restored(x, d, lm)
  {
    var scaled := ApplyUnary(ScaleBy(1.0 - d), ApplyBinary(Times, x, x));
    assert scaled == (x * x) * (1.0 - d);
    assert ApplyUnary(Apply(lm.sqrt), scaled) == lm.sqrt((x * x) * (1.0 - d));
  }

  /** The same four steps on the whole gradient. */
  lemma RestoreSteps(g: Grid, d: real, lm: Libm)
    requires d != 1.0
    ensures MapGrid(MapGrid(MapGrid(ZipGrid(g, g, Times), ScaleBy(1.0 - d)), Apply(lm.sqrt)), ScaleBy(1.0 / (1.0 - d)))
      == RestoredGradient(g, d, lm)
  {
    var h := MapGrid(MapGrid(MapGrid(ZipGrid(g, g, Times), ScaleBy(1.0 - d)), Apply(lm.sqrt)), ScaleBy(1.0 / (1.0 - d)));
    forall i, j | 0 <= i < |g| && 0 <= j < |g[i]| ensures h[i][j] == RestoredGradient(g, d, lm)[i][j] {
      RestoreElement(g[i][j], d, lm);
    }
    Extensionality(h, RestoredGradient(g, d, lm));
  }

  /** A grid read from a row-major buffer is non-negative only if the buffer is. */
  lemma FlatNonNeg(s: seq<real>, r: nat, c: nat)
    requires |s| == r * c && NonNeg(FromFlat(s, r, c))
    ensures forall k :: 0 <= k < |s| ==> s[k] >= 0.0
  {
    forall k | 0 <= k < |s| ensures s[k] >= 0.0 {
      assert c > 0;
      var i, j := k / c, k % c;
      assert k == i * c + j;
      if r <= i {
        MulMono(r, i, c);
      }
      assert i < r;
      assert FromFlat(s, r, c)[i][j] == s[k];
    }
  }

  /** The descent loop over row-major buffers, read back as grids, is `Descent`. */
  lemma DescentFromFlat(p: seq<real>, num: seq<real>, den: seq<real>, r: nat, c: nat, rate: real, eps: real, lm: Libm)
    requires |p| == r * c && |num| == r * c && |den| == r * c && eps > 0.0 && Lawful(lm)
    requires forall k :: 0 <= k < |den| ==> den[k] >= 0.0
    ensures NonNeg(FromFlat(den, r, c))
    ensures Descent(FromFlat(p, r, c), FromFlat(num, r, c), FromFlat(den, r, c), rate, eps, lm)
      == FromFlat(DescentFlat(p, num, den, rate, eps, lm), r, c)
  {
    var d := FromFlat(den, r, c);
    forall i, j | 0 <= i < r && 0 <= j < c ensures d[i][j] >= 0.0 {
      RowMajorFits(i, j, r, c);
    }
    var lhs := Descent(FromFlat(p, r, c), FromFlat(num, r, c), d, rate, eps, lm);
    var rhs := FromFlat(DescentFlat(p, num, den, rate, eps, lm), r, c);
    forall i, j | 0 <= i < r && 0 <= j < c ensures lhs[i][j] == rhs[i][j] {
      RowMajorFits(i, j, r, c);
    }
    Extensionality(lhs, rhs);
  }

  // ---- The per-pair loop bodies ----

  /** Two matrices of the same shape. */
  predicate Alike(a: Matrix, b: Matrix)
  {
    a.rows == b.rows && a.cols == b.cols
  }

  /**
   * The element loop shared by Adam and RMSProp:
   * p[j] −= rate·num[j]/(√den[j] + ε) for every j < rows·cols.
   */
  method DescentLoop(p: Matrix, num: Matrix, den: Matrix, rate: real, eps: real, lm: Libm)
    requires Owned(p) && Owned(num) && Owned(den) && Alike(p, num) && Alike(p, den)
    requires p.data != num.data && p.data != den.data
    requires NonNeg(den.Elems()) && eps > 0.0 && Lawful(lm)
    modifies p.data
    ensures p.Elems() == Descent(old(p.Elems()), num.Elems(), den.Elems(), rate, eps, lm)
  {
    OwnedLayout(p);
    OwnedLayout(num);
    OwnedLayout(den);
    ghost var p0 := p.data[..];
    ghost var e0 := p.Elems();
    FlatNonNeg(den.data[..], den.rows, den.cols);
    var n := p.rows * p.cols;
    var j := 0;
    while j < n
      invariant 0 <= j <= n
      invariant forall k :: 0 <= k < j ==> p.data[k] == DescentValue(p0[k], num.data[k], den.data[k], rate, eps, lm)
      invariant forall k :: j <= k < n ==> p.data[k] == p0[k]
    {
      assert lm.sqrt(den.data[j]) >= 0.0;
      var denominator := lm.sqrt(den.data[j]) + eps;
      p.data[j] := p.data[j] - rate * num.data[j] / denominator;
      j := j + 1;
    }
    assert p.data[..] == DescentFlat(p0, num.data[..], den.data[..], rate, eps, lm);
    DescentFromFlat(p0, num.data[..], den.data[..], p.rows, p.cols, rate, eps, lm);
    OwnedLayout(p);
  }

  /** The body of sgd_update's loop for one (parameter, gradient) pair. */
  method SgdPair(p: Matrix, g: Matrix, lr: real)
    requires p.Valid() && g.Valid() && Alike(p, g) && p.data != g.data
    modifies p.data, g.data
    ensures p.Elems() == SgdStep(old(p.Elems()), old(g.Elems()), lr)
    ensures g.Elems() == Zeros(g.rows, g.cols)
  {
    ghost var p0, g0 := p.Elems(), g.Elems();
    Scale(g, -lr);
    Add(p, g);
    ScaledAddIsSgdStep(p0, g0, lr);
    Scale(g, 0.0);
    ScaledByZero(MapGrid(g0, ScaleBy(-lr)), g.rows, g.cols);
  }

  /** Adam's first-moment step: m = β1·m + (1 − β1)·g, after which g is scaled back to itself. */
  method FirstMoment(m: Matrix, g: Matrix, beta1: real)
    requires m.Valid() && g.Valid() && Alike(m, g) && m.data != g.data && beta1 != 1.0
    modifies m.data, g.data
    ensures m.Elems() == MovingAverage(old(m.Elems()), old(g.Elems()), beta1)
    ensures g.Elems() == old(g.Elems())
  {
    ghost var m0, g0 := m.Elems(), g.Elems();
    Scale(m, beta1);
    Scale(g, 1.0 - beta1);
    Add(m, g);
    ScaledSumIsAverage(m0, g0, beta1);
    Scale(g, 1.0 / (1.0 - beta1));
    ScaleThenUnscale(g0, 1.0 - beta1);
  }

  /** The moving average of squares: v = β2·v + (1 − β2)·g², through a temporary copy of g. */
  method SecondMoment(v: Matrix, g: Matrix, beta2: real)
    requires v.Valid() && g.Valid() && Alike(v, g) && v.data != g.data && 0.0 <= beta2 <= 1.0
    requires NonNeg(v.Elems())
    modifies v.data
    ensures v.Elems() == MovingAverage(old(v.Elems()), ZipGrid(g.Elems(), g.Elems(), Times), beta2)
    ensures NonNeg(v.Elems())
  {
    ghost var v0, g0 := v.Elems(), g.Elems();
    var squared := new Matrix(g.rows, g.cols);
    Copy(squared, g);
    MultiplyElementwise(squared, squared);
    Scale(v, beta2);
    Scale(squared, 1.0 - beta2);
    Add(v, squared);
    ScaledSumIsAverage(v0, ZipGrid(g0, g0, Times), beta2);
    MovingAverageOfSquaresNonNeg(v0, g0, beta2);
  }

  /** The bias-corrected copies m̂ and v̂ and the parameter loop. */
  method CorrectedStep(p: Matrix, m: Matrix, v: Matrix, b1t: real, b2t: real, lrT: real, eps: real, lm: Libm)
    requires Owned(p) && Owned(m) && Owned(v) && Alike(p, m) && Alike(p, v)
    requires p.data != m.data && p.data != v.data
    requires b1t != 1.0 && b2t < 1.0 && eps > 0.0 && Lawful(lm) && NonNeg(v.Elems())
    modifies p.data
    ensures p.Elems() == Descent(old(p.Elems()), Corrected(m.Elems(), b1t), Corrected(v.Elems(), b2t), lrT, eps, lm)
  {
    var mHat := new Matrix(m.rows, m.cols);
    Copy(mHat, m);
    Scale(mHat, 1.0 / (1.0 - b1t));
    var vHat := new Matrix(v.rows, v.cols);
    Copy(vHat, v);
    Scale(vHat, 1.0 / (1.0 - b2t));
    assert vHat.Elems() == Corrected(v.Elems(), b2t);
    DescentLoop(p, mHat, vHat, lrT, eps, lm);
  }

  /**
   * The body of adam_update's loop for one (parameter, gradient, m, v) tuple, given the
   * step's β1^t, β2^t and lr_t.
   */
  method AdamPair(p: Matrix, g: Matrix, m: Matrix, v: Matrix, beta1: real, beta2: real,
                  b1t: real, b2t: real, lrT: real, eps: real, lm: Libm)
    requires Owned(p) && Owned(g) && Owned(m) && Owned(v)
    requires Alike(p, g) && Alike(p, m) && Alike(p, v)
    requires p.data != g.data && p.data != m.data && p.data != v.data
    requires g.data != m.data && g.data != v.data && m.data != v.data
    requires beta1 != 1.0 && 0.0 <= beta2 <= 1.0 && b1t != 1.0 && b2t < 1.0 && eps > 0.0 && Lawful(lm)
    requires NonNeg(v.Elems())
    modifies p.data, g.data, m.data, v.data
    ensures m.Elems() == MovingAverage(old(m.Elems()), old(g.Elems()), beta1)
    ensures v.Elems() == MovingAverage(old(v.Elems()), ZipGrid(old(g.Elems()), old(g.Elems()), Times), beta2)
    ensures NonNeg(v.Elems())
    ensures p.Elems() == Descent(old(p.Elems()), Corrected(m.Elems(), b1t), Corrected(v.Elems(), b2t), lrT, eps, lm)
    ensures g.Elems() == Zeros(g.rows, g.cols)
  {
    FirstMoment(m, g, beta1);
    SecondMoment(v, g, beta2);
    CorrectedStep(p, m, v, b1t, b2t, lrT, eps, lm);
    ghost var g0 := g.Elems();
    Scale(g, 0.0);
    ScaledByZero(g0, g.rows, g.cols);
  }

  /** RMSProp's cache step: g = g², cache = d·cache + (1 − d)·g², leaving (1 − d)·g² in g. */
  method CacheStep(cache: Matrix, g: Matrix, decay: real)
    requires cache.Valid() && g.Valid() && Alike(cache, g) && cache.data != g.data && 0.0 <= decay <= 1.0
    requires NonNeg(cache.Elems())
    modifies cache.data, g.data
    ensures cache.Elems() == MovingAverage(old(cache.Elems()), ZipGrid(old(g.Elems()), old(g.Elems()), Times), decay)
    ensures NonNeg(cache.Elems())
    ensures g.Elems() == MapGrid(ZipGrid(old(g.Elems()), old(g.Elems()), Times), ScaleBy(1.0 - decay))
  {
    ghost var g0, c0 := g.Elems(), cache.Elems();
    MultiplyElementwise(g, g);
    Scale(cache, decay);
    Scale(g, 1.0 - decay);
    Add(cache, g);
    ScaledSumIsAverage(c0, ZipGrid(g0, g0, Times), decay);
    MovingAverageOfSquaresNonNeg(c0, g0, decay);
  }

  /**
   * The body of rmsprop_update's loop for one (parameter, gradient, cache) triple; the
   * decay rate is the optimizer's β1.
   */
  method RmsPropPair(p: Matrix, g: Matrix, cache: Matrix, decay: real, lr: real, eps: real, lm: Libm)
    requires Owned(p) && Owned(g) && Owned(cache) && Alike(p, g) && Alike(p, cache)
    requires p.data != g.data && p.data != cache.data && g.data != cache.data
    requires 0.0 <= decay < 1.0 && eps > 0.0 && Lawful(lm)
    requires NonNeg(cache.Elems())
    modifies p.data, g.data, cache.data
    ensures cache.Elems() == MovingAverage(old(cache.Elems()), ZipGrid(old(g.Elems()), old(g.Elems()), Times), decay)
    ensures NonNeg(cache.Elems())
    ensures p.Elems() == Descent(old(p.Elems()), RestoredGradient(old(g.Elems()), decay, lm), cache.Elems(), lr, eps, lm)
    ensures g.Elems() == Zeros(g.rows, g.cols)
  {
    ghost var g0 := g.Elems();
    CacheStep(cache, g, decay);
    // the "restore": g = √g, then g = g/(1 − d)
    Sqrt(g, lm);
    Scale(g, 1.0 / (1.0 - decay));
    RestoreSteps(g0, decay, lm);
    DescentLoop(p, g, cache, lr, eps, lm);
    Scale(g, 0.0);
    ScaledByZero(RestoredGradient(g0, decay, lm), g.rows, g.cols);
  }

  // ---- The optimizer record ----

  /** matrix_create(r, c) followed by matrix_fill(0). */
  method Zeroed(r: nat, c: nat) returns (z: Matrix)
    ensures Owned(z) && fresh(z.data) && z.rows == r && z.cols == c
    ensures z.Elems() == Zeros(r, c)
  {
    z := new Matrix(r, c);
    Fill(z, 0.0);
  }

  /**
   * The four lists have n entries; entry i of each list is an owned matrix of ps[i]'s
   * shape; and no two listed matrices share an array, which own witnesses by naming
   * the one list (0 params, 1 grads, 2 m, 3 v) and entry each array belongs to.
   */
  ghost predicate Bound(ps: seq<Matrix>, gs: seq<Matrix>, ms: seq<Matrix>, vs: seq<Matrix>, n: nat, own: map<array<real>, (nat, nat)>)
  {
    && |ps| == n && |gs| == n && |ms| == n && |vs| == n
    && (forall i :: 0 <= i < n ==>
          && Owned(ps[i]) && Owned(gs[i]) && Owned(ms[i]) && Owned(vs[i])
          && Alike(ps[i], gs[i]) && Alike(ps[i], ms[i]) && Alike(ps[i], vs[i]))
    && (forall i :: 0 <= i < n ==>
          && ps[i].data in own && own[ps[i].data] == (0, i)
          && gs[i].data in own && own[gs[i].data] == (1, i)
          && ms[i].data in own && own[ms[i].data] == (2, i)
          && vs[i].data in own && own[vs[i].data] == (3, i))
  }

  /** One more entry whose four arrays are new to own keeps the lists bound. */
  lemma BoundAppend(ps: seq<Matrix>, gs: seq<Matrix>, ms: seq<Matrix>, vs: seq<Matrix>, n: nat, own: map<array<real>, (nat, nat)>,
                    p: Matrix, g: Matrix, first: Matrix, second: Matrix)
    requires Bound(ps, gs, ms, vs, n, own)
    requires Owned(p) && Owned(g) && Owned(first) && Owned(second)
    requires Alike(p, g) && Alike(p, first) && Alike(p, second)
    requires p.data != g.data && p.data != first.data && p.data != second.data
    requires g.data != first.data && g.data != second.data && first.data != second.data
    requires p.data !in own && g.data !in own && first.data !in own && second.data !in own
    ensures Bound(ps + [p], gs + [g], ms + [first], vs + [second], n + 1,
                  own[p.data := (0, n)][g.data := (1, n)][first.data := (2, n)][second.data := (3, n)])
  {
    var own' := own[p.data := (0, n)][g.data := (1, n)][first.data := (2, n)][second.data := (3, n)];
    var ps', gs', ms', vs' := ps + [p], gs + [g], ms + [first], vs + [second];
    forall i | 0 <= i < n + 1
      ensures && ps'[i].data in own' && own'[ps'[i].data] == (0, i)
              && gs'[i].data in own' && own'[gs'[i].data] == (1, i)
              && ms'[i].data in own' && own'[ms'[i].data] == (2, i)
              && vs'[i].data in own' && own'[vs'[i].data] == (3, i)
    {
      if i < n {
        assert ps'[i] == ps[i] && gs'[i] == gs[i] && ms'[i] == ms[i] && vs'[i] == vs[i];
      }
    }
  }

  /** Every matrix in ms holds no negative value. */
  ghost predicate AllNonNeg(ms: seq<Matrix>)
    reads set i | 0 <= i < |ms| :: ms[i].data
  {
    forall i :: 0 <= i < |ms| ==> ms[i].Valid() && NonNeg(ms[i].Elems())
  }

  lemma AllNonNegAppend(ms: seq<Matrix>, x: Matrix)
    requires AllNonNeg(ms) && x.Valid() && NonNeg(x.Elems())
    ensures AllNonNeg(ms + [x])
  {
    var all := ms + [x];
    forall i | 0 <= i < |all| ensures all[i].Valid() && NonNeg(all[i].Elems()) {
      if i < |ms| {
        assert all[i] == ms[i];
      }
    }
  }

  /** Nonnegative moments stay so while none of their arrays is written. */
  twostate lemma AllNonNegKept(ms: seq<Matrix>)
    requires old(AllNonNeg(ms))
    requires forall i :: 0 <= i < |ms| ==> unchanged(ms[i].data)
    ensures AllNonNeg(ms)
  {
  }

  /** No two of the matrices to bind share an array, a parameter and its own gradient included. */
  predicate Unshared(ps: seq<Matrix>, gs: seq<Matrix>)
    requires |ps| == |gs|
  {
    && (forall i :: 0 <= i < |ps| ==> ps[i].data != gs[i].data)
    && (forall i, j :: 0 <= i < j < |ps| ==>
          && ps[i].data != ps[j].data && ps[i].data != gs[j].data
          && gs[i].data != ps[j].data && gs[i].data != gs[j].data)
  }
  /** What BindAll can take: lists of equal length, unshared, owned, each gradient of its parameter's shape. */
  predicate Bindable(ps: seq<Matrix>, gs: seq<Matrix>)
  {
    && |ps| == |gs| && Unshared(ps, gs)
    && forall i :: 0 <= i < |ps| ==> Owned(ps[i]) && Owned(gs[i]) && Alike(ps[i], gs[i])
  }

  /**
   * The Optimizer record.  The hyper-parameters are fixed at creation; the four
   * parallel lists are bound by the network's compile step.  SGD keeps its momentum in
   * beta1 and RMSProp its decay rate; RMSProp keeps its cache in v.
   */
  class Optimizer {
    const rule: Rule
    const name: string
    const learningRate: real
    const beta1: real
    const beta2: real
    const epsilon: real
    var t: nat
    var params: seq<Matrix>
    var grads: seq<Matrix>
    var m: seq<Matrix>
    var v: seq<Matrix>
    var paramCount: nat
    /** Which list and which entry each bound array belongs to (0 params, 1 grads, 2 m, 3 v). */
    ghost var owner: map<array<real>, (nat, nat)>

    /** Every bound matrix, the four lists one after the other. */
    function Slots(): seq<Matrix>
      reads this
    {
      params + grads + m + v
    }

    /** The arrays of the bound matrices: what an update may write. */
    ghost function Arrays(): set<array<real>>
      reads this
    {
      set x | x in Slots() :: x.data
    }

    /**
     * The lists have param_count entries; entry i of each list is an owned matrix of
     * params[i]'s shape; and no two bound matrices share an array, which `owner`
     * witnesses by naming the one list entry each array belongs to.
     */
    ghost predicate Valid()
      reads this
    {
      Bound(params, grads, m, v, paramCount, owner)
    }

    /** The second-moment buffers (RMSProp's caches) hold no negative value. */
    ghost predicate MomentsNonNeg()
      reads this, Arrays()
      requires Valid()
    {
      MomentsInArrays();
      AllNonNeg(v)
    }

    /** The arrays of the moment buffers are among the bound arrays. */
    lemma MomentsInArrays()
      requires Valid()
      ensures forall i :: 0 <= i < |v| ==> v[i].data in Arrays()
      ensures forall i :: 0 <= i < |m| ==> m[i].data in Arrays()
    {
      forall i | 0 <= i < paramCount ensures v[i].data in Arrays() && m[i].data in Arrays() {
        SlotsAt(i);
      }
    }

    /** Every first and second moment buffer holds zeros, as network_compile leaves them. */
    ghost predicate MomentsZero()
      reads this, Arrays()
      requires Valid()
    {
      MomentsInArrays();
      forall k :: 0 <= k < paramCount ==>
        m[k].Elems() == Zeros(m[k].rows, m[k].cols) && v[k].Elems() == Zeros(v[k].rows, v[k].cols)
    }

    /** The arrays of entry i are among the arrays an update may write. */
    lemma SlotsAt(i: nat)
      requires Valid() && i < paramCount
      ensures params[i].data in Arrays() && grads[i].data in Arrays() && m[i].data in Arrays() && v[i].data in Arrays()
    {
      assert params[i] in Slots() && grads[i] in Slots() && m[i] in Slots() && v[i] in Slots();
    }

    /**
     * The arrays of tuple i are four different arrays, and none of them belongs to
     * another tuple k.
     */
    lemma TupleApart(i: nat)
      requires Valid() && i < paramCount
      ensures params[i].data != grads[i].data && params[i].data != m[i].data && params[i].data != v[i].data
      ensures grads[i].data != m[i].data && grads[i].data != v[i].data && m[i].data != v[i].data
      ensures params[i].data in Arrays() && grads[i].data in Arrays() && m[i].data in Arrays() && v[i].data in Arrays()
      ensures forall k :: 0 <= k < paramCount && k != i ==>
        && params[k].data !in {params[i].data, grads[i].data, m[i].data, v[i].data}
        && grads[k].data !in {params[i].data, grads[i].data, m[i].data, v[i].data}
        && m[k].data !in {params[i].data, grads[i].data, m[i].data, v[i].data}
        && v[k].data !in {params[i].data, grads[i].data, m[i].data, v[i].data}
    {
      SlotsAt(i);
    }

    /** sgd_optimizer: "sgd", the learning rate, momentum kept in beta1, ε = 1e-8, t = 0. */
    constructor Sgd(learningRate: real, momentum: real)
      ensures rule == SgdRule && name == "sgd" && t == 0
      ensures this.learningRate == learningRate && beta1 == momentum && beta2 == 0.0 && epsilon == 0.00000001
      ensures params == [] && grads == [] && m == [] && v == [] && paramCount == 0
      ensures Valid()
    {
      rule, name, this.learningRate, beta1, beta2, epsilon := SgdRule, "sgd", learningRate, momentum, 0.0, 0.00000001;
      t, params, grads, m, v, paramCount, owner := 0, [], [], [], [], 0, map[];
    }

    /** adam_optimizer: "adam" and the four given numbers, t = 0. */
    constructor Adam(learningRate: real, beta1: real, beta2: real, epsilon: real)
      ensures rule == AdamRule && name == "adam" && t == 0
      ensures this.learningRate == learningRate && this.beta1 == beta1 && this.beta2 == beta2 && this.epsilon == epsilon
      ensures params == [] && grads == [] && m == [] && v == [] && paramCount == 0
      ensures Valid()
    {
      rule, name, this.learningRate, this.beta1, this.beta2, this.epsilon := AdamRule, "adam", learningRate, beta1, beta2, epsilon;
      t, params, grads, m, v, paramCount, owner := 0, [], [], [], [], 0, map[];
    }

    /** rmsprop_optimizer: "rmsprop", the learning rate, the decay kept in beta1, ε, t = 0. */
    constructor RmsProp(learningRate: real, decay: real, epsilon: real)
      ensures rule == RmsPropRule && name == "rmsprop" && t == 0
      ensures this.learningRate == learningRate && beta1 == decay && beta2 == 0.0 && this.epsilon == epsilon
      ensures params == [] && grads == [] && m == [] && v == [] && paramCount == 0
      ensures Valid()
    {
      rule, name, this.learningRate, beta1, beta2, this.epsilon := RmsPropRule, "rmsprop", learningRate, decay, 0.0, epsilon;
      t, params, grads, m, v, paramCount, owner := 0, [], [], [], [], 0, map[];
    }

    /**
     * The start of network_compile's binding: the four lists are replaced by empty
     * ones (the previous moment buffers are dropped, not released).
     */
    method ClearBindings()
      modifies this`params, this`grads, this`m, this`v, this`paramCount, this`owner
      ensures params == [] && grads == [] && m == [] && v == [] && paramCount == 0 && owner == map[]
      ensures Valid() && MomentsNonNeg()
    {
      params, grads, m, v, paramCount, owner := [], [], [], [], 0, map[];
    }

    /**
     * One step of network_compile's fill loop: the pair (p, g) is appended, with a
     * zero-filled first and second moment buffer of p's shape made for it.
     */
    method Bind(p: Matrix, g: Matrix)
      requires Valid() && Owned(p) && Owned(g) && Alike(p, g) && p.data != g.data
      requires p.data !in owner && g.data !in owner
      modifies this`params, this`grads, this`m, this`v, this`paramCount, this`owner
      ensures Valid() && paramCount == old(paramCount) + 1
      ensures params == old(params) + [p] && grads == old(grads) + [g]
      ensures |m| == paramCount && m[..old(paramCount)] == old(m) && fresh(m[old(paramCount)].data)
      ensures |v| == paramCount && v[..old(paramCount)] == old(v) && fresh(v[old(paramCount)].data)
      ensures m[old(paramCount)].Elems() == Zeros(p.rows, p.cols) && v[old(paramCount)].Elems() == Zeros(p.rows, p.cols)
      ensures owner.Keys == old(owner).Keys + {p.data, g.data, m[old(paramCount)].data, v[old(paramCount)].data}
      ensures old(MomentsNonNeg()) ==> MomentsNonNeg()
    {
      ghost var kept := MomentsNonNeg();
      var first := Zeroed(p.rows, p.cols);
      var second := Zeroed(p.rows, p.cols);
      ghost var grown := v + [second];
      if kept {
        MomentsInArrays();
        AllNonNegAppend(v, second);
      }
      label appended:
      Append(p, g, first, second);
      MomentsInArrays();
      if kept {
        AllNonNegKept@appended(grown);
      }
    }

    /**
     * network_compile's binding: the lists are emptied, then each parameter ps[i]
     * is bound in turn with its gradient gs[i] and fresh zero moment buffers of its
     * shape.
     */
    method BindAll(ps: seq<Matrix>, gs: seq<Matrix>)
      requires Bindable(ps, gs)
      modifies this`params, this`grads, this`m, this`v, this`paramCount, this`owner
      ensures Valid() && MomentsNonNeg() && MomentsZero() && params == ps && grads == gs && paramCount == |ps|
      ensures forall i :: 0 <= i < |ps| ==> fresh(m[i].data) && fresh(v[i].data)
    {
      ClearBindings();
      var i := 0;
      while i < |ps|
        invariant i <= |ps| && Valid() && MomentsNonNeg() && MomentsZero() && paramCount == i
        invariant params == ps[..i] && grads == gs[..i]
        invariant forall j :: i <= j < |ps| ==> ps[j].data !in owner && gs[j].data !in owner
        invariant forall j :: 0 <= j < i ==> fresh(m[j].data) && fresh(v[j].data)
      {
        label Unbound:
        BindNext(ps, gs, i);
        forall j | 0 <= j < i + 1 ensures fresh(m[j].data) && fresh(v[j].data) {
          if j < i {
            assert m[j] == old@Unbound(m)[j] && v[j] == old@Unbound(v)[j];
          }
        }
        i := i + 1;
      }
    }

    /** One round of BindAll's loop: entry i of ps and gs is bound. */
    method BindNext(ps: seq<Matrix>, gs: seq<Matrix>, i: nat)
      requires Bindable(ps, gs) && i < |ps|
      requires Valid() && MomentsNonNeg() && MomentsZero() && paramCount == i && params == ps[..i] && grads == gs[..i]
      requires forall j :: i <= j < |ps| ==> ps[j].data !in owner && gs[j].data !in owner
      modifies this`params, this`grads, this`m, this`v, this`paramCount, this`owner
      ensures Valid() && MomentsNonNeg() && MomentsZero() && paramCount == i + 1 && params == ps[..i + 1] && grads == gs[..i + 1]
      ensures forall j :: i + 1 <= j < |ps| ==> ps[j].data !in owner && gs[j].data !in owner
      ensures m[..i] == old(m) && v[..i] == old(v) && fresh(m[i].data) && fresh(v[i].data)
    {
      Bind(ps[i], gs[i]);
      assert ps[..i + 1] == ps[..i] + [ps[i]] && gs[..i + 1] == gs[..i] + [gs[i]];
      forall k | 0 <= k < i
        ensures m[k].Elems() == Zeros(m[k].rows, m[k].cols) && v[k].Elems() == Zeros(v[k].rows, v[k].cols)
      {
        assert m[k] == old(m[k]) && v[k] == old(v[k]);
      }
      forall j | i + 1 <= j < |ps|
        ensures ps[j].data !in owner && gs[j].data !in owner
      {
        assert ps[j].data != ps[i].data && ps[j].data != gs[i].data;
        assert gs[j].data != ps[i].data && gs[j].data != gs[i].data;
      }
    }

    /** The four lists grow by one entry (p, g, first, second). */
    method Append(p: Matrix, g: Matrix, first: Matrix, second: Matrix)
      requires Valid() && Owned(p) && Owned(g) && Owned(first) && Owned(second)
      requires Alike(p, g) && Alike(p, first) && Alike(p, second)
      requires p.data != g.data && p.data != first.data && p.data != second.data
      requires g.data != first.data && g.data != second.data && first.data != second.data
      requires p.data !in owner && g.data !in owner && first.data !in owner && second.data !in owner
      modifies this`params, this`grads, this`m, this`v, this`paramCount, this`owner
      ensures Valid() && paramCount == old(paramCount) + 1
      ensures params == old(params) + [p] && grads == old(grads) + [g] && m == old(m) + [first] && v == old(v) + [second]
      ensures owner.Keys == old(owner).Keys + {p.data, g.data, first.data, second.data}
    {
      var n := paramCount;
      BoundAppend(params, grads, m, v, n, owner, p, g, first, second);
      ghost var own := owner[p.data := (0, n)][g.data := (1, n)][first.data := (2, n)][second.data := (3, n)];
      owner := own;
      params, grads, m, v, paramCount := params + [p], grads + [g], m + [first], v + [second], n + 1;
    }

    /** t + 1; the lists and every entry stay as they are. */
    method Tick()
      requires Valid()
      modifies this`t
      ensures t == old(t) + 1 && Valid()
      ensures forall k :: 0 <= k < paramCount ==> EntryAt(k) == old(EntryAt(k))
      ensures old(MomentsNonNeg()) ==> MomentsNonNeg()
    {
      t := t + 1;
    }

    /** The first n entries, as values. */
    ghost function EntriesTo(n: nat): (es: seq<Entry>)
      reads this, Arrays()
      requires Valid() && n <= paramCount
      ensures |es| == n && forall k :: 0 <= k < n ==> es[k] == EntryAt(k)
    {
      if n == 0 then []
      else
        var front := EntriesTo(n - 1);
        var es := front + [EntryAt(n - 1)];
        assert forall k :: 0 <= k < n ==> es[k] == EntryAt(k) by {
          forall k | 0 <= k < n ensures es[k] == EntryAt(k) {
            if k < n - 1 {
              assert es[k] == front[k];
            }
          }
        }
        es
    }

    /** Entry k of the four lists, as values. */
    ghost function EntryAt(k: nat): (e: Entry)
      reads this, Arrays()
      requires Valid() && k < paramCount
      ensures Shaped(e)
    {
      SlotsAt(k);
      Entry(params[k].Elems(), grads[k].Elems(), m[k].Elems(), v[k].Elems())
    }

    /** The SGD loop body for entry i: entry i takes one step, no other entry changes. */
    method SgdAt(i: nat)
      requires Valid() && i < paramCount
      modifies params[i].data, grads[i].data
      ensures EntryAt(i) == SgdEntryStep(old(EntryAt(i)), learningRate)
      ensures forall k :: 0 <= k < paramCount && k != i ==> EntryAt(k) == old(EntryAt(k))
    {
      TupleApart(i);
      ghost var g0 := grads[i].Elems();
      SgdPair(params[i], grads[i], learningRate);
      ClearedIsZeros(g0, grads[i].rows, grads[i].cols);
    }

    /** The loop of sgd_update over the pairs. */
    method SgdPass()
      requires Valid()
      modifies Arrays()
      ensures forall k :: 0 <= k < paramCount ==> EntryAt(k) == SgdEntryStep(old(EntryAt(k)), learningRate)
    {
      var i := 0;
      while i < paramCount
        invariant 0 <= i <= paramCount
        invariant forall k :: 0 <= k < paramCount ==>
          EntryAt(k) == if k < i then SgdEntryStep(old(EntryAt(k)), learningRate) else old(EntryAt(k))
      {
        SgdAt(i);
        i := i + 1;
      }
    }

    /**
     * sgd_update: every entry takes one `SgdEntryStep`, then t + 1.  The momentum in
     * beta1 is never read, so it has no effect on the result.
     */
    method SgdUpdate()
      requires Valid()
      modifies this, Arrays()
      ensures Valid() && params == old(params) && grads == old(grads) && m == old(m) && v == old(v)
      ensures t == old(t) + 1
      ensures forall k :: 0 <= k < paramCount ==> EntryAt(k) == SgdEntryStep(old(EntryAt(k)), learningRate)
    {
      SgdPass();
      Tick();
    }

    /** The Adam loop body for entry i: entry i takes one step, no other entry changes. */
    method AdamAt(i: nat, b1t: real, b2t: real, lrT: real, lm: Libm)
      requires Valid() && i < paramCount
      requires 0.0 <= beta1 < 1.0 && AdamReady(EntryAt(i), beta2, b1t, b2t, epsilon, lm)
      modifies params[i].data, grads[i].data, m[i].data, v[i].data
      ensures EntryAt(i) == AdamStep(old(EntryAt(i)), beta1, beta2, b1t, b2t, lrT, epsilon, lm)
      ensures forall k :: 0 <= k < paramCount && k != i ==> EntryAt(k) == old(EntryAt(k))
    {
      TupleApart(i);
      ghost var g0 := grads[i].Elems();
      AdamPair(params[i], grads[i], m[i], v[i], beta1, beta2, b1t, b2t, lrT, epsilon, lm);
      ClearedIsZeros(g0, grads[i].rows, grads[i].cols);
    }

    /** The loop of adam_update over the entries, given β1^t, β2^t and lr_t. */
    method AdamPass(b1t: real, b2t: real, lrT: real, lm: Libm)
      requires Valid() && MomentsNonNeg()
      requires 0.0 <= beta1 < 1.0 && 0.0 <= beta2 < 1.0 && b1t != 1.0 && b2t < 1.0 && epsilon > 0.0 && Lawful(lm)
      modifies Arrays()
      ensures MomentsNonNeg()
      ensures forall k :: 0 <= k < paramCount ==>
        EntryAt(k) == AdamStep(old(EntryAt(k)), beta1, beta2, b1t, b2t, lrT, epsilon, lm)
    {
      EntriesOfMoments();
      var i := 0;
      while i < paramCount
        invariant 0 <= i <= paramCount
        invariant forall k :: 0 <= k < paramCount ==>
          EntryAt(k) == if k < i then AdamStep(old(EntryAt(k)), beta1, beta2, b1t, b2t, lrT, epsilon, lm) else old(EntryAt(k))
      {
        AdamAt(i, b1t, b2t, lrT, lm);
        i := i + 1;
      }
      MomentsOfEntries();
    }

    /** The second moments are those of the entries. */
    lemma MomentsOfEntries()
      requires Valid() && forall k :: 0 <= k < paramCount ==> NonNeg(EntryAt(k).v)
      ensures MomentsNonNeg()
    {
      forall k | 0 <= k < paramCount ensures NonNeg(v[k].Elems()) {
        assert EntryAt(k).v == v[k].Elems();
      }
    }

    /** The entries' second moments are the buffers v. */
    lemma EntriesOfMoments()
      requires Valid() && MomentsNonNeg()
      ensures forall k :: 0 <= k < paramCount ==> NonNeg(EntryAt(k).v)
    {
      forall k | 0 <= k < paramCount ensures NonNeg(EntryAt(k).v) {
        assert EntryAt(k).v == v[k].Elems();
      }
    }

    /**
     * adam_update: t + 1 first, so the first update uses β^1; then every entry takes one
     * `AdamStep` with β1^t, β2^t and lr_t = lr·√(1 − β2^t)/(1 − β1^t).
     */
    method AdamUpdate(lm: Libm)
      requires Valid() && MomentsNonNeg() && Lawful(lm)
      requires 0.0 <= beta1 < 1.0 && 0.0 <= beta2 < 1.0 && epsilon > 0.0
      modifies this, Arrays()
      ensures Valid() && params == old(params) && grads == old(grads) && m == old(m) && v == old(v)
      ensures t == old(t) + 1 && MomentsNonNeg()
      ensures forall k :: 0 <= k < paramCount ==>
        EntryAt(k) == AdamStep(old(EntryAt(k)), beta1, beta2, Pow(beta1, t), Pow(beta2, t),
                               AdamRate(learningRate, Pow(beta1, t), Pow(beta2, t), lm), epsilon, lm)
    {
      Tick();
      var beta1T := Pow(beta1, t);
      var beta2T := Pow(beta2, t);
      var lrT := AdamRate(learningRate, beta1T, beta2T, lm);
      AdamPass(beta1T, beta2T, lrT, lm);
    }

    /** The RMSProp loop body for entry i: entry i takes one step, no other entry changes. */
    method RmsPropAt(i: nat, lm: Libm)
      requires Valid() && i < paramCount
      requires NonNeg(EntryAt(i).v) && 0.0 <= beta1 < 1.0 && epsilon > 0.0 && Lawful(lm)
      modifies params[i].data, grads[i].data, v[i].data
      ensures EntryAt(i) == RmsPropStep(old(EntryAt(i)), beta1, learningRate, epsilon, lm)
      ensures forall k :: 0 <= k < paramCount && k != i ==> EntryAt(k) == old(EntryAt(k))
    {
      TupleApart(i);
      ghost var g0 := grads[i].Elems();
      RmsPropPair(params[i], grads[i], v[i], beta1, learningRate, epsilon, lm);
      ClearedIsZeros(g0, grads[i].rows, grads[i].cols);
    }

    /** The loop of rmsprop_update over the entries. */
    method RmsPropPass(lm: Libm)
      requires Valid() && MomentsNonNeg()
      requires 0.0 <= beta1 < 1.0 && epsilon > 0.0 && Lawful(lm)
      modifies Arrays()
      ensures MomentsNonNeg()
      ensures forall k :: 0 <= k < paramCount ==>
        EntryAt(k) == RmsPropStep(old(EntryAt(k)), beta1, learningRate, epsilon, lm)
    {
      EntriesOfMoments();
      var i := 0;
      while i < paramCount
        invariant 0 <= i <= paramCount
        invariant forall k :: 0 <= k < paramCount ==>
          EntryAt(k) == if k < i then RmsPropStep(old(EntryAt(k)), beta1, learningRate, epsilon, lm) else old(EntryAt(k))
      {
        RmsPropAt(i, lm);
        i := i + 1;
      }
      MomentsOfEntries();
    }

    /**
     * rmsprop_update: every entry takes one `RmsPropStep` with the decay kept in beta1
     * (the cache is v); then t + 1.
     */
    method RmsPropUpdate(lm: Libm)
      requires Valid() && MomentsNonNeg() && Lawful(lm)
      requires 0.0 <= beta1 < 1.0 && epsilon > 0.0
      modifies this, Arrays()
      ensures Valid() && params == old(params) && grads == old(grads) && m == old(m) && v == old(v)
      ensures t == old(t) + 1 && MomentsNonNeg()
      ensures forall k :: 0 <= k < paramCount ==>
        EntryAt(k) == RmsPropStep(old(EntryAt(k)), beta1, learningRate, epsilon, lm)
    {
      RmsPropPass(lm);
      Tick();
    }

    /** The hyper-parameters are in the range the real-number model of each rule needs. */
    predicate InRange()
    {
      match rule
      case SgdRule => true
      case AdamRule => 0.0 <= beta1 < 1.0 && 0.0 <= beta2 < 1.0 && epsilon > 0.0
      case RmsPropRule => 0.0 <= beta1 < 1.0 && epsilon > 0.0
    }

    /**
     * One step of the optimizer's own rule on entry e, where step is the step count
     * after the update's tick: SGD's descent, Adam's with the bias corrections for
     * that count, or RMSProp's.
     */
    ghost function RuleStep(e: Entry, step: nat, lm: Libm): (r: Entry)
      requires Shaped(e) && NonNeg(e.v) && Lawful(lm) && InRange() && step >= 1
      ensures Shaped(r) && NonNeg(r.v) && SameShape(e.param, r.param)
    {
      match rule
      case SgdRule => SgdEntryStep(e, learningRate)
      case AdamRule =>
        AdamStep(e, beta1, beta2, Pow(beta1, step), Pow(beta2, step),
                 AdamRate(learningRate, Pow(beta1, step), Pow(beta2, step), lm), epsilon, lm)
      case RmsPropRule => RmsPropStep(e, beta1, learningRate, epsilon, lm)
    }

    /** RuleStep on every entry of es. */
    ghost function RuleSteps(es: seq<Entry>, step: nat, lm: Libm): (rs: seq<Entry>)
      requires forall k :: 0 <= k < |es| ==> Shaped(es[k]) && NonNeg(es[k].v)
      requires Lawful(lm) && InRange() && step >= 1
      ensures |rs| == |es|
    {
      seq(|es|, k requires 0 <= k < |es| => RuleStep(es[k], step, lm))
    }

    /**
     * The bound entries are one step of the rule, at the current step count, from
     * the shaped entries `before` with nonnegative second moments.
     */
    ghost predicate SteppedFrom(before: seq<Entry>, lm: Libm)
      reads this, Arrays()
    {
      && Valid() && |before| == paramCount && Lawful(lm) && InRange() && t >= 1
      && (forall k :: 0 <= k < |before| ==> Shaped(before[k]) && NonNeg(before[k].v))
      && EntriesTo(paramCount) == RuleSteps(before, t, lm)
    }

    /** Entries that are each one rule step from before are what SteppedFrom says. */
    lemma SteppedFromEach(before: seq<Entry>, lm: Libm)
      requires Valid() && |before| == paramCount && Lawful(lm) && InRange() && t >= 1
      requires forall k :: 0 <= k < |before| ==> Shaped(before[k]) && NonNeg(before[k].v)
      requires forall k :: 0 <= k < paramCount ==> EntryAt(k) == RuleStep(before[k], t, lm)
      ensures SteppedFrom(before, lm)
    {
      assert EntriesTo(paramCount) == RuleSteps(before, t, lm);
    }

    /** Zero moment buffers, as network_compile leaves them, give every entry a zero first moment. */
    lemma ZeroMomentsInEntries()
      requires Valid() && MomentsZero()
      ensures forall k :: 0 <= k < paramCount ==> AllZero(EntryAt(k).m)
    {
      MomentsInArrays();
      forall k | 0 <= k < paramCount ensures AllZero(EntryAt(k).m) {
        assert EntryAt(k).m == Zeros(m[k].rows, m[k].cols);
      }
    }

    /**
     * An Adam optimizer's first update (the step count ticks from 0 to 1) on entries
     * whose first-moment buffers are zero, as network_compile leaves them, moves every
     * parameter element whose gradient is not zero, in every entry.
     */
    lemma AdamFirstUpdateMoves(before: seq<Entry>, lm: Libm)
      requires rule == AdamRule && InRange() && Lawful(lm) && learningRate != 0.0
      requires forall k :: 0 <= k < |before| ==> Shaped(before[k]) && NonNeg(before[k].v)
      requires forall k :: 0 <= k < |before| ==> AllZero(before[k].m)
      ensures forall k :: 0 <= k < |before| ==> MovedWhereGradient(before[k], RuleSteps(before, 1, lm)[k].param)
    {
      forall k | 0 <= k < |before| ensures MovedWhereGradient(before[k], RuleSteps(before, 1, lm)[k].param) {
        AdamFirstEntryStepMoves(before[k], learningRate, beta1, beta2, epsilon, lm);
      }
    }

    /** optimizer->update: the update function chosen at creation. */
    method Update(lm: Libm)
      requires Valid() && MomentsNonNeg() && Lawful(lm) && InRange()
      modifies this, Arrays()
      ensures Valid() && params == old(params) && grads == old(grads) && m == old(m) && v == old(v)
      ensures t == old(t) + 1 && MomentsNonNeg()
      ensures rule == SgdRule ==> forall k :: 0 <= k < paramCount ==>
        EntryAt(k) == SgdEntryStep(old(EntryAt(k)), learningRate)
      ensures rule == AdamRule ==> forall k :: 0 <= k < paramCount ==>
        EntryAt(k) == AdamStep(old(EntryAt(k)), beta1, beta2, Pow(beta1, t), Pow(beta2, t),
                               AdamRate(learningRate, Pow(beta1, t), Pow(beta2, t), lm), epsilon, lm)
      ensures rule == RmsPropRule ==> forall k :: 0 <= k < paramCount ==>
        EntryAt(k) == RmsPropStep(old(EntryAt(k)), beta1, learningRate, epsilon, lm)
      ensures forall k :: 0 <= k < paramCount ==> grads[k].Elems() == Zeros(grads[k].rows, grads[k].cols)
      ensures forall k :: 0 <= k < paramCount ==> EntryAt(k) == RuleStep(old(EntryAt(k)), t, lm)
    {
      match rule {
        case SgdRule =>
          EntriesOfMoments();
          SgdUpdate();
          MomentsOfEntries();
        case AdamRule => AdamUpdate(lm);
        case RmsPropRule => RmsPropUpdate(lm);
      }
      forall k | 0 <= k < paramCount ensures grads[k].Elems() == Zeros(grads[k].rows, grads[k].cols) {
        assert grads[k].Elems() == EntryAt(k).grad == MapGrid(old(grads[k].Elems()), SetTo(0.0));
        ClearedIsZeros(old(grads[k].Elems()), grads[k].rows, grads[k].cols);
      }
    }

    /**
     * optimizer->free: the matrices the optimizer releases.  SGD releases none, Adam
     * m[i] then v[i] for each i, RMSProp its caches v[i]; never a parameter or gradient.
     */
    method Free() returns (released: seq<Matrix>)
      requires Valid()
      ensures rule == SgdRule ==> released == []
      ensures rule == AdamRule ==> (|released| == 2 * paramCount &&
        forall i :: 0 <= i < paramCount ==> released[2 * i] == m[i] && released[2 * i + 1] == v[i])
      ensures rule == RmsPropRule ==> released == v
      ensures forall j, k :: 0 <= j < |released| && 0 <= k < paramCount ==>
        released[j].data != params[k].data && released[j].data != grads[k].data
      ensures forall x :: x in released ==> x in m || x in v
    {
      MomentsApart();
      released := [];
      if rule == SgdRule {
        return;
      }
      var i := 0;
      while i < paramCount
        invariant 0 <= i <= paramCount
        invariant rule == AdamRule ==> (|released| == 2 * i &&
          forall k :: 0 <= k < i ==> released[2 * k] == m[k] && released[2 * k + 1] == v[k])
        invariant rule == RmsPropRule ==> released == v[..i]
        invariant forall x :: x in released ==> x in m || x in v
      {
        if rule == AdamRule {
          released := released + [m[i], v[i]];
        } else {
          released := released + [v[i]];
        }
        i := i + 1;
      }
    }

    /** No moment buffer shares an array with a parameter or a gradient. */
    lemma MomentsApart()
      requires Valid()
      ensures forall x, k :: (x in m || x in v) && 0 <= k < paramCount ==>
        x.data != params[k].data && x.data != grads[k].data
    {
      forall x, k | (x in m || x in v) && 0 <= k < paramCount
        ensures x.data != params[k].data && x.data != grads[k].data
      {
        var j :| 0 <= j < paramCount && (m[j] == x || v[j] == x);
      }
    }
  }
}
