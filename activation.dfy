/**
 * Activation functions, their derivatives and the three losses of
 * src/activations/activation.c.
 *
 * The element-wise activations and derivatives walk the rows·cols consecutive
 * values from element (0, 0) on and ignore the stride; only softmax walks the
 * matrix row by row through the stride.  Their contracts say exactly that, and
 * their last postcondition shows that the two readings agree when stride = cols.
 */
module Activations {
  import opened Numeric
  import opened Grids
  import opened Matrices

  /** ActivationType, in enum order (ACTIVATION_NONE = 0 … ACTIVATION_GELU = 10). */
  datatype Activation = None | Sigmoid | Relu | Tanh | Softmax | LeakyRelu | Elu | Selu | Swish | Mish | Gelu

  /** ACTIVATION_MAX: the number of activation kinds. */
  const ActivationMax: nat := 11

  const Names: seq<string> :=
    ["none", "sigmoid", "relu", "tanh", "softmax", "leaky_relu", "elu", "selu", "swish", "mish", "gelu"]

  const SeluScale: real := 1.0507009873554804934193349852946
  const SeluAlpha: real := 1.6732632423543772848170429916717
  /** M_PI as written in the source. */
  const Pi: real := 3.14159265358979323846

  /** The kind a switch on the enum value selects; values out of range fall to `default`, which does what NONE does. */
  function Kind(code: int): Activation
  {
    if code == 1 then Sigmoid
    else if code == 2 then Relu
    else if code == 3 then Tanh
    else if code == 4 then Softmax
    else if code == 5 then LeakyRelu
    else if code == 6 then Elu
    else if code == 7 then Selu
    else if code == 8 then Swish
    else if code == 9 then Mish
    else if code == 10 then Gelu
    else None
  }

  /** activation_get_name: a table name exactly for the in-range codes. */
  function Name(code: int): (s: string)
    ensures (0 <= code < ActivationMax) == (s in Names)
  {
    if 0 <= code < ActivationMax then Names[code]
    else
      assert "unknown" !in Names by {
        forall q | 0 <= q < ActivationMax ensures Names[q] != "unknown" {
          assert |Names[q]| != 7 || Names[q][0] != 'u';
        }
      }
      "unknown"
  }

  /** The first table index at or after `from` whose name is `name`, or NONE (0) when there is none. */
  function LookupFrom(name: string, from: nat): nat
    decreases ActivationMax - from
  {
    if from >= ActivationMax then 0
    else if Names[from] == name then from
    else LookupFrom(name, from + 1)
  }

  /** activation_from_string: a linear search of the name table. */
  method FromString(name: string) returns (code: nat)
    ensures code < ActivationMax
    ensures code == LookupFrom(name, 0)
    ensures name in Names ==> Names[code] == name
    ensures name !in Names ==> code == 0
  {
    var i := 0;
    while i < ActivationMax
      invariant i <= ActivationMax
      invariant forall k :: 0 <= k < i ==> Names[k] != name
      invariant LookupFrom(name, 0) == LookupFrom(name, i)
    {
      if Names[i] == name {
        return i;
      }
      i := i + 1;
    }
    return 0;
  }

  /** LookupFrom only ever answers an index whose name matches, or 0 when no later name matches. */
  lemma {:induction false} LookupFromFinds(name: string, from: nat, k: nat)
    requires from <= k < ActivationMax && Names[k] == name
    requires forall q :: from <= q < k ==> Names[q] != name
    ensures LookupFrom(name, from) == k
    decreases k - from
  {
    if from < k {
      LookupFromFinds(name, from + 1, k);
    }
  }

  lemma {:induction false} LookupFromMisses(name: string, from: nat)
    requires forall q :: from <= q < ActivationMax ==> Names[q] != name
    ensures LookupFrom(name, from) == 0
    decreases ActivationMax - from
  {
    if from < ActivationMax {
      LookupFromMisses(name, from + 1);
    }
  }

  lemma NamesDistinct()
    ensures forall i, j :: 0 <= i < j < ActivationMax ==> Names[i] != Names[j]
  {
    forall i, j | 0 <= i < j < ActivationMax ensures Names[i] != Names[j] {
      assert Names[i][..] != Names[j][..];
    }
  }

  /**
   * from_string(get_name(a)) = a for every in-range code, because the eleven names
   * are distinct; out-of-range codes are named "unknown", which reads back as NONE.
   */
  lemma NameRoundTrip(code: int)
    ensures 0 <= code < ActivationMax ==> LookupFrom(Name(code), 0) == code
    ensures !(0 <= code < ActivationMax) ==> LookupFrom(Name(code), 0) == 0
  {
    NamesDistinct();
    if 0 <= code < ActivationMax {
      LookupFromFinds(Name(code), 0, code);
    } else {
      LookupFromMisses("unknown", 0);
    }
  }

  // ---- Scalar activations ----

  function ReluOf(x: real): real
  {
    if x > 0.0 then x else 0.0
  }

  /** leaky_relu(x, alpha). */
  function LeakyReluOf(x: real, alpha: real): real
  {
    if x > 0.0 then x else alpha * x
  }

  /** elu(x, alpha). */
  function EluOf(x: real, alpha: real, lm: Libm): real
  {
    if x > 0.0 then x else alpha * (lm.exp(x) - 1.0)
  }

  /** selu(x). */
  function SeluOf(x: real, lm: Libm): real
  {
    if x > 0.0 then SeluScale * x else SeluScale * SeluAlpha * (lm.exp(x) - 1.0)
  }

  function SigmoidOf(x: real, lm: Libm): (r: real)
    requires Lawful(lm)
    ensures 0.0 < r < 1.0
  {
    1.0 / (1.0 + lm.exp(-x))
  }

  /** swish(x). */
  function SwishOf(x: real, lm: Libm): real
    requires Lawful(lm)
  {
    x / (1.0 + lm.exp(-x))
  }

  /** mish(x). */
  function MishOf(x: real, lm: Libm): real
  {
    x * lm.tanh(lm.log(1.0 + lm.exp(x)))
  }

  /** gelu(x), the tanh approximation. */
  function GeluOf(x: real, lm: Libm): real
  {
    0.5 * x * (1.0 + lm.tanh(lm.sqrt(2.0 / Pi) * (x + 0.044715 * x * x * x)))
  }

  /** What `activate` writes for one value, for the element-wise kinds; softmax and NONE are not element-wise and leave x. */
  function Pointwise(a: Activation, lm: Libm, x: real): (y: real)
    requires Lawful(lm)
    ensures !IsPointwise(a) ==> y == x
    ensures a.Sigmoid? ==> 0.0 < y < 1.0
    ensures a.Relu? ==> 0.0 <= y && (x > 0.0 ==> y == x)
  {
    match a
    case Sigmoid => SigmoidOf(x, lm)
    case Relu => ReluOf(x)
    case Tanh => lm.tanh(x)
    case LeakyRelu => LeakyReluOf(x, 0.01)
    case Elu => EluOf(x, 1.0, lm)
    case Selu => SeluOf(x, lm)
    case Swish => SwishOf(x, lm)
    case Mish => MishOf(x, lm)
    case Gelu => GeluOf(x, lm)
    case Softmax => x
    case None => x
  }

  /** The kinds `activate` applies by a flat loop over the values. */
  predicate IsPointwise(a: Activation)
  {
    !(a.None? || a.Softmax?)
  }

  /** The factor `activate_derivative` multiplies one gradient value by, given the pre-activation x. */
  function DerivativeFactor(a: Activation, lm: Libm, x: real): (d: real)
    requires Lawful(lm)
    ensures !IsPointwise(a) ==> d == 1.0
    ensures a.Sigmoid? ==> 0.0 < d <= 0.25
    ensures (a.Relu? || a.LeakyRelu?) && x > 0.0 ==> d == 1.0
    ensures a.Relu? && x <= 0.0 ==> d == 0.0
  {
    match a
    case Sigmoid =>
      var s := SigmoidOf(x, lm);
      assert (s - 0.5) * (s - 0.5) >= 0.0;
      s * (1.0 - s)
    case Relu => if x > 0.0 then 1.0 else 0.0
    case Tanh =>
      var t := lm.tanh(x);
      1.0 - t * t
    case LeakyRelu => if x > 0.0 then 1.0 else 0.01
    case Elu => if x > 0.0 then 1.0 else 1.0 * lm.exp(x)
    case Selu => if x > 0.0 then SeluScale else SeluScale * SeluAlpha * lm.exp(x)
    case Swish =>
      var s := SigmoidOf(x, lm);
      s + x * s * (1.0 - s)
    case Mish =>
      var omega := 4.0 * (x + 1.0) + 4.0 * lm.exp(2.0 * x) + lm.exp(3.0 * x) + lm.exp(x) * (4.0 * x + 6.0);
      var delta := 2.0 * lm.exp(x) + lm.exp(2.0 * x) + 2.0;
      lm.exp(x) * omega / (delta * delta)
    case Gelu =>
      var cdf := 0.5 * (1.0 + lm.tanh(lm.sqrt(2.0 / Pi) * (x + 0.044715 * x * x * x)));
      SqrtOfPositive(lm, 2.0 * Pi);
      var pdf := lm.exp(-0.5 * x * x) / lm.sqrt(2.0 * Pi);
      cdf + x * pdf
    case Softmax => 1.0
    case None => 1.0
  }

  /** ReLU on the row [-1, 0, 1, 2] gives [0, 0, 1, 2]. */
  lemma ReluExample(lm: Libm)
    requires Lawful(lm)
    ensures Activated(Relu, [[-1.0, 0.0, 1.0, 2.0]], lm) == [[0.0, 0.0, 1.0, 2.0]]
  {
    var h := Activated(Relu, [[-1.0, 0.0, 1.0, 2.0]], lm);
    assert h[0] == [0.0, 0.0, 1.0, 2.0];
  }

  /** ReLU never goes negative and applying it twice changes nothing more. */
  lemma ReluIdempotent(x: real)
    ensures ReluOf(x) >= 0.0
    ensures ReluOf(ReluOf(x)) == ReluOf(x)
  {
  }

  /**
   * ReLU and leaky ReLU are piecewise linear: the activation of x is x times the
   * derivative factor at x, and the factor only depends on the sign of x.
   */
  lemma PiecewiseLinear(a: Activation, lm: Libm, x: real)
    requires Lawful(lm) && (a.Relu? || a.LeakyRelu?)
    ensures Pointwise(a, lm, x) == DerivativeFactor(a, lm, x) * x
    ensures DerivativeFactor(a, lm, x) == if x > 0.0 then 1.0 else (if a.Relu? then 0.0 else 0.01)
  {
  }

  /** The ReLU derivative keeps the gradient exactly where the activation is positive and zeroes it elsewhere. */
  lemma ReluMask(lm: Libm, g: real, x: real)
    requires Lawful(lm)
    ensures ScaledGradient(Relu, lm, g, x) == if ReluOf(x) > 0.0 then g else 0.0
  {
  }

  /** The inverse of leaky ReLU for a positive slope. */
  function LeakyReluInverse(y: real, alpha: real): real
    requires alpha > 0.0
  {
    if y > 0.0 then y else y / alpha
  }

  /** For a positive slope leaky ReLU is a bijection of the reals: it keeps the sign and can be undone. */
  lemma LeakyReluInvertible(x: real, y: real, alpha: real)
    requires alpha > 0.0
    ensures LeakyReluInverse(LeakyReluOf(x, alpha), alpha) == x
    ensures LeakyReluOf(LeakyReluInverse(y, alpha), alpha) == y
    ensures LeakyReluOf(x, alpha) > 0.0 <==> x > 0.0
  {
    if x <= 0.0 {
      assert alpha * x <= 0.0;
      assert (alpha * x) / alpha == x;
    }
    if y <= 0.0 {
      assert alpha * (y / alpha) == y;
    }
  }

  /** ELU with a positive alpha, and SELU, are bounded below: by −alpha and −scale·alpha. */
  lemma ExponentialUnitsBounded(x: real, alpha: real, lm: Libm)
    requires Lawful(lm) && alpha > 0.0
    ensures EluOf(x, alpha, lm) > -alpha
    ensures SeluOf(x, lm) > -SeluScale * SeluAlpha
  {
    if x <= 0.0 {
      assert lm.exp(x) > 0.0;
      assert alpha * (lm.exp(x) - 1.0) > alpha * (0.0 - 1.0);
      assert SeluScale * SeluAlpha * (lm.exp(x) - 1.0) > SeluScale * SeluAlpha * (0.0 - 1.0);
    }
  }

  // ---- Softmax ----

  /** The running maximum of the softmax loop: starts at s[0], keeps the larger value. */
  function SeqMax(s: seq<real>): real
    requires |s| > 0
  {
    if |s| == 1 then s[0]
    else
      var m := SeqMax(s[..|s| - 1]);
      if s[|s| - 1] > m then s[|s| - 1] else m
  }

  function Exps(row: seq<real>, shift: real, lm: Libm): (e: seq<real>)
    ensures |e| == |row|
  {
    seq(|row|, (k: int) requires 0 <= k < |row| => lm.exp(row[k] - shift))
  }

  lemma {:induction false} SumOfPositives(s: seq<real>)
    requires |s| > 0 && forall k :: 0 <= k < |s| ==> s[k] > 0.0
    ensures SeqSum(s) > 0.0
    ensures forall k :: 0 <= k < |s| ==> s[k] <= SeqSum(s)
  {
    if |s| > 1 {
      SumOfPositives(s[..|s| - 1]);
    }
  }

  /** Each value divided by the total. */
  function Normalize(e: seq<real>): (r: seq<real>)
    requires SeqSum(e) != 0.0
    ensures |r| == |e|
  {
    seq(|e|, (k: int) requires 0 <= k < |e| => e[k] / SeqSum(e))
  }

  /** One row of softmax: exp(x - max) / Σ exp(x - max). */
  function SoftmaxOf(row: seq<real>, lm: Libm): (r: seq<real>)
    requires |row| > 0 && Lawful(lm)
    ensures |r| == |row|
  {
    var e := Exps(row, SeqMax(row), lm);
    SumOfPositives(e);
    Normalize(e)
  }

  /** Softmax of every non-empty row. */
  function SoftmaxGrid(g: Grid, lm: Libm): (h: Grid)
    requires Lawful(lm)
    ensures SameShape(g, h)
  {
    seq(|g|, (i: int) requires 0 <= i < |g| => if |g[i]| == 0 then g[i] else SoftmaxOf(g[i], lm))
  }

  lemma {:induction false} SeqSumDivided(s: seq<real>, d: real)
    requires d != 0.0
    ensures SeqSum(seq(|s|, (k: int) requires 0 <= k < |s| => s[k] / d)) == SeqSum(s) / d
  {
    if |s| > 0 {
      var q := seq(|s|, (k: int) requires 0 <= k < |s| => s[k] / d);
      var s' := s[..|s| - 1];
      SeqSumDivided(s', d);
      assert q[..|s| - 1] == seq(|s'|, (k: int) requires 0 <= k < |s'| => s'[k] / d);
    }
  }

  /** A positive part divided by a whole at least as large lies in (0, 1]. */
  lemma QuotientInUnit(x: real, total: real)
    requires 0.0 < x <= total
    ensures 0.0 < x / total <= 1.0
  {
    var q := x / total;
    assert q * total == x;
    if q <= 0.0 {
      ScaleMonotone(q, 0.0, total);
      assert false;
    }
    if q > 1.0 {
      ScaleMonotone(1.0, q, total);
    }
  }

  /** Values divided by their (non-zero) total add up to 1. */
  lemma NormalizeSumsToOne(e: seq<real>)
    requires SeqSum(e) != 0.0
    ensures SeqSum(Normalize(e)) == 1.0
  {
    var total := SeqSum(e);
    assert Normalize(e) == seq(|e|, (k: int) requires 0 <= k < |e| => e[k] / total);
    SeqSumDivided(e, total);
    assert total / total == 1.0;
  }

  /** Positive values divided by their total lie in (0, 1] and add up to 1. */
  lemma NormalizeIsDistribution(e: seq<real>)
    requires |e| > 0 && forall k :: 0 <= k < |e| ==> e[k] > 0.0
    ensures SeqSum(e) > 0.0
    ensures forall k :: 0 <= k < |e| ==> 0.0 < Normalize(e)[k] <= 1.0
    ensures SeqSum(Normalize(e)) == 1.0
  {
    SumOfPositives(e);
    var n := Normalize(e);
    forall k | 0 <= k < |e| ensures 0.0 < n[k] <= 1.0 {
      QuotientInUnit(e[k], SeqSum(e));
    }
    NormalizeSumsToOne(e);
  }

  /** With exp > 0, every softmax entry lies in (0, 1] and each row sums to 1. */
  lemma SoftmaxIsDistribution(row: seq<real>, lm: Libm)
    requires |row| > 0 && Lawful(lm)
    ensures forall k :: 0 <= k < |row| ==> 0.0 < SoftmaxOf(row, lm)[k] <= 1.0
    ensures SeqSum(SoftmaxOf(row, lm)) == 1.0
  {
    NormalizeIsDistribution(Exps(row, SeqMax(row), lm));
  }

  function ShiftAll(row: seq<real>, c: real): (r: seq<real>)
    ensures |r| == |row|
  {
    seq(|row|, (k: int) requires 0 <= k < |row| => row[k] + c)
  }

  lemma {:induction false} SeqMaxShift(row: seq<real>, c: real)
    requires |row| > 0
    ensures SeqMax(ShiftAll(row, c)) == SeqMax(row) + c
  {
    if |row| > 1 {
      SeqMaxShift(row[..|row| - 1], c);
      assert ShiftAll(row, c)[..|row| - 1] == ShiftAll(row[..|row| - 1], c);
    }
  }

  /** Subtracting the row maximum changes nothing: adding a constant to a row leaves its softmax unchanged. */
  lemma SoftmaxShiftInvariant(row: seq<real>, c: real, lm: Libm)
    requires |row| > 0 && Lawful(lm)
    ensures SoftmaxOf(ShiftAll(row, c), lm) == SoftmaxOf(row, lm)
  {
    SeqMaxShift(row, c);
    assert Exps(ShiftAll(row, c), SeqMax(ShiftAll(row, c)), lm) == Exps(row, SeqMax(row), lm);
  }

  // ---- The in-place transforms ----

  /** The grid `activate` produces from g (for the element-wise kinds, when stride = cols). */
  function Activated(a: Activation, g: Grid, lm: Libm): (h: Grid)
    requires Lawful(lm)
    ensures SameShape(g, h)
  {
    if a.Softmax? then SoftmaxGrid(g, lm)
    else
      seq(|g|, (i: int) requires 0 <= i < |g| =>
        seq(|g[i]|, (j: int) requires 0 <= j < |g[i]| => Pointwise(a, lm, g[i][j])))
  }

  /** The gradient `activate_derivative` leaves, from gradient g and pre-activation p of the same shape. */
  function Backprop(a: Activation, g: Grid, p: Grid, lm: Libm): (h: Grid)
    requires Lawful(lm) && SameShape(g, p)
    ensures SameShape(g, h)
  {
    seq(|g|, (i: int) requires 0 <= i < |g| =>
      seq(|g[i]|, (j: int) requires 0 <= j < |g[i]| =>
        if IsPointwise(a) then ScaledGradient(a, lm, g[i][j], p[i][j]) else g[i][j]))
  }

  /** One gradient value g multiplied by the derivative factor at pre-activation x. */
  function ScaledGradient(a: Activation, lm: Libm, g: real, x: real): real
    requires Lawful(lm)
  {
    g * DerivativeFactor(a, lm, x)
  }

  /** The first pass of a softmax row: the running maximum of a[lo..lo+n). */
  method SegmentMax(a: array<real>, lo: nat, n: nat) returns (maxVal: real)
    requires n > 0 && lo + n <= a.Length
    ensures maxVal == SeqMax(a[lo..lo + n])
  {
    ghost var row := a[lo..lo + n];
    maxVal := a[lo];
    var col := 1;
    while col < n
      invariant 1 <= col <= n
      invariant maxVal == SeqMax(row[..col])
    {
      var x := a[lo + col];
      assert x == row[col] && row[..col + 1][..col] == row[..col] && row[..col + 1][col] == x;
      if x > maxVal {
        maxVal := x;
      }
      col := col + 1;
    }
    assert row[..n] == row;
  }

  /** The second pass: each value x becomes exp(x − shift), and the new values are summed. */
  method SegmentExp(a: array<real>, lo: nat, n: nat, shift: real, lm: Libm) returns (sum: real)
    requires lo + n <= a.Length
    modifies a
    ensures a[lo..lo + n] == Exps(old(a[lo..lo + n]), shift, lm)
    ensures sum == SeqSum(a[lo..lo + n])
    ensures forall k :: 0 <= k < a.Length && !(lo <= k < lo + n) ==> a[k] == old(a[k])
  {
    ghost var row := a[lo..lo + n];
    ghost var e := Exps(row, shift, lm);
    sum := 0.0;
    var col := 0;
    while col < n
      invariant col <= n
      invariant forall k :: 0 <= k < col ==> a[lo + k] == e[k]
      invariant forall k :: col <= k < n ==> a[lo + k] == row[k]
      invariant forall k :: 0 <= k < a.Length && !(lo <= k < lo + n) ==> a[k] == old(a[k])
      invariant sum == SeqSum(e[..col])
    {
      var v := a[lo + col];
      assert v == row[col];
      var x := lm.exp(v - shift);
      a[lo + col] := x;
      SumStep(e, col, x);
      sum := sum + x;
      col := col + 1;
    }
    assert e[..n] == e;
    assert a[lo..lo + n] == e;
  }

  /** The third pass: each value is divided by the row total. */
  method SegmentDivide(a: array<real>, lo: nat, n: nat, total: real)
    requires lo + n <= a.Length && total != 0.0 && SeqSum(a[lo..lo + n]) == total
    modifies a
    ensures a[lo..lo + n] == Normalize(old(a[lo..lo + n]))
    ensures forall k :: 0 <= k < a.Length && !(lo <= k < lo + n) ==> a[k] == old(a[k])
  {
    ghost var row := a[lo..lo + n];
    var col := 0;
    while col < n
      invariant col <= n
      invariant forall k :: 0 <= k < col ==> a[lo + k] == row[k] / total
      invariant forall k :: col <= k < n ==> a[lo + k] == row[k]
      invariant forall k :: 0 <= k < a.Length && !(lo <= k < lo + n) ==> a[k] == old(a[k])
    {
      a[lo + col] := a[lo + col] / total;
      col := col + 1;
    }
    assert a[lo..lo + n] == Normalize(row);
  }

  /** Softmax of row i, in place, through the stride; `row` is what the row holds before. */
  method SoftmaxRow(m: Matrix, i: nat, ghost row: seq<real>, lm: Libm)
    requires m.Valid() && i < m.rows && m.cols > 0 && Lawful(lm)
    requires |row| == m.cols && forall j :: 0 <= j < m.cols ==> m.data[m.Index(i, j)] == row[j]
    modifies m.data
    ensures forall j :: 0 <= j < m.cols ==> m.data[m.Index(i, j)] == SoftmaxOf(row, lm)[j]
    ensures forall k :: 0 <= k < m.data.Length && !(m.RowStart(i) <= k < m.RowStart(i) + m.cols) ==> m.data[k] == old(m.data[k])
  {
    m.RowFits(i);
    var rs, n := m.RowStart(i), m.cols;
    assert m.data[rs..rs + n] == row;
    var maxVal := SegmentMax(m.data, rs, n);
    var sum := SegmentExp(m.data, rs, n, maxVal, lm);
    SumOfPositives(Exps(row, maxVal, lm));
    SegmentDivide(m.data, rs, n, sum);
    forall j | 0 <= j < n ensures m.data[m.Index(i, j)] == SoftmaxOf(row, lm)[j] {
      assert m.data[rs..rs + n][j] == m.data[rs + j];
    }
  }

  /** The softmax case of `activate`: every row in turn; nothing outside the window changes. */
  method SoftmaxRows(m: Matrix, lm: Libm)
    requires m.Valid() && Lawful(lm)
    modifies m.data
    ensures m.Elems() == SoftmaxGrid(old(m.Elems()), lm)
    ensures m.SameOutside(old(m.data[..]))
  {
    ghost var e0 := m.Elems();
    ghost var d0 := m.data[..];
    if m.cols == 0 {
      Extensionality(e0, SoftmaxGrid(e0, lm));
      return;
    }
    m.CellsFit();
    var i := 0;
    while i < m.rows
      invariant i <= m.rows
      invariant forall ii, jj :: 0 <= ii < i && 0 <= jj < m.cols ==> m.data[m.Index(ii, jj)] == SoftmaxOf(e0[ii], lm)[jj]
      invariant forall ii, jj :: i <= ii < m.rows && 0 <= jj < m.cols ==> m.data[m.Index(ii, jj)] == e0[ii][jj]
      invariant m.SameOutside(d0)
    {
      SoftmaxRow(m, i, e0[i], lm);
      m.OtherRowsOutside(i);
      m.RowInRegion(i);
      i := i + 1;
    }
    Extensionality(m.Elems(), SoftmaxGrid(e0, lm));
  }

  /** Each value of s put through the element-wise activation a. */
  function MapValues(s: seq<real>, a: Activation, lm: Libm): (r: seq<real>)
    requires Lawful(lm)
    ensures |r| == |s|
  {
    seq(|s|, (k: int) requires 0 <= k < |s| => Pointwise(a, lm, s[k]))
  }

  /** Each gradient value g[k] multiplied by the derivative factor at p[k]. */
  function ScaledByFactors(g: seq<real>, p: seq<real>, a: Activation, lm: Libm): (r: seq<real>)
    requires Lawful(lm) && |g| == |p|
    ensures |r| == |g|
  {
    seq(|g|, (k: int) requires 0 <= k < |g| => ScaledGradient(a, lm, g[k], p[k]))
  }

  /** The element-wise loop of `activate` on a[lo..lo+n). */
  method SegmentMap(arr: array<real>, lo: nat, n: nat, a: Activation, lm: Libm)
    requires lo + n <= arr.Length && Lawful(lm)
    modifies arr
    ensures arr[lo..lo + n] == MapValues(old(arr[lo..lo + n]), a, lm)
    ensures forall q :: 0 <= q < arr.Length && !(lo <= q < lo + n) ==> arr[q] == old(arr[q])
  {
    ghost var s := arr[lo..lo + n];
    var k := 0;
    while k < n
      invariant k <= n
      invariant forall q :: 0 <= q < k ==> arr[lo + q] == Pointwise(a, lm, s[q])
      invariant forall q :: k <= q < n ==> arr[lo + q] == s[q]
      invariant forall q :: 0 <= q < arr.Length && !(lo <= q < lo + n) ==> arr[q] == old(arr[q])
    {
      var x := arr[lo + k];
      assert x == s[k];
      arr[lo + k] := Pointwise(a, lm, x);
      k := k + 1;
    }
    assert arr[lo..lo + n] == MapValues(s, a, lm);
  }

  /** The element-wise loop of `activate_derivative`: g[glo..glo+n) scaled by the factors at p[plo..plo+n). */
  method SegmentBackprop(g: array<real>, glo: nat, p: array<real>, plo: nat, n: nat, a: Activation, lm: Libm)
    requires glo + n <= g.Length && plo + n <= p.Length && g != p && Lawful(lm)
    modifies g
    ensures g[glo..glo + n] == ScaledByFactors(old(g[glo..glo + n]), p[plo..plo + n], a, lm)
    ensures forall q :: 0 <= q < g.Length && !(glo <= q < glo + n) ==> g[q] == old(g[q])
  {
    ghost var s := g[glo..glo + n];
    ghost var t := p[plo..plo + n];
    var k := 0;
    while k < n
      invariant k <= n
      invariant forall q :: 0 <= q < k ==> g[glo + q] == ScaledGradient(a, lm, s[q], t[q])
      invariant forall q :: k <= q < n ==> g[glo + q] == s[q]
      invariant forall q :: 0 <= q < g.Length && !(glo <= q < glo + n) ==> g[q] == old(g[q])
    {
      var x, y := g[glo + k], p[plo + k];
      assert x == s[k] && y == t[k];
      g[glo + k] := ScaledGradient(a, lm, x, y);
      k := k + 1;
    }
    assert g[glo..glo + n] == ScaledByFactors(s, t, a, lm);
  }

  /**
   * activate(m, code).  Softmax is row-wise through the stride; the element-wise
   * kinds rewrite the rows·cols values from element (0, 0) on, whatever the stride;
   * NONE and unknown codes change nothing.
   */
  method Activate(m: Matrix, code: int, lm: Libm)
    requires m.Valid() && Lawful(lm)
    requires IsPointwise(Kind(code)) ==> m.FlatFits()
    modifies m.data
    ensures Kind(code).Softmax? ==> m.Elems() == SoftmaxGrid(old(m.Elems()), lm) && m.SameOutside(old(m.data[..]))
    ensures IsPointwise(Kind(code)) ==> m.Flat() == MapValues(old(m.Flat()), Kind(code), lm)
    ensures IsPointwise(Kind(code)) ==> forall q :: 0 <= q < m.data.Length && !(m.offset <= q < m.offset + m.rows * m.cols) ==> m.data[q] == old(m.data[q])
    ensures Kind(code).None? ==> m.data[..] == old(m.data[..])
    ensures m.stride == m.cols ==> m.Elems() == Activated(Kind(code), old(m.Elems()), lm)
  {
    var a := Kind(code);
    ghost var e0 := m.Elems();
    if a.Softmax? {
      SoftmaxRows(m, lm);
    } else if a.None? {
      Extensionality(e0, Activated(a, e0, lm));
    } else {
      var n := m.rows * m.cols;
      ghost var f0 := m.Flat();
      if m.stride == m.cols {
        m.Contiguous();
      }
      if n > 0 {
        SegmentMap(m.data, m.offset, n, a, lm);
      }
      if m.stride == m.cols {
        m.Contiguous();
        MapFromFlat(f0, m.rows, m.cols, a, lm);
      }
    }
  }

  /** The element-wise case of `activate_derivative`: the first rows·cols values of grad, scaled by m's. */
  method FlatBackprop(m: Matrix, grad: Matrix, a: Activation, lm: Libm)
    requires m.FlatFits() && Lawful(lm) && m.data != grad.data && IsPointwise(a)
    requires m.rows * m.cols == 0 || grad.offset + m.rows * m.cols <= grad.data.Length
    modifies grad.data
    ensures grad.Span(m.rows * m.cols) == ScaledByFactors(old(grad.Span(m.rows * m.cols)), m.Flat(), a, lm)
    ensures forall q :: 0 <= q < grad.data.Length && !(grad.offset <= q < grad.offset + m.rows * m.cols) ==> grad.data[q] == old(grad.data[q])
  {
    var n := m.rows * m.cols;
    if n > 0 {
      SegmentBackprop(grad.data, grad.offset, m.data, m.offset, n, a, lm);
    }
  }

  /**
   * activate_derivative(m, grad, code): for the element-wise kinds, flat value k of
   * grad is multiplied by the factor at flat value k of m (the count, rows·cols, comes
   * from m); softmax, NONE and unknown codes leave grad alone.  m is not written.
   */
  method ActivateDerivative(m: Matrix, grad: Matrix, code: int, lm: Libm)
    requires m.Valid() && grad.Valid() && Lawful(lm) && m.data != grad.data
    requires IsPointwise(Kind(code)) ==> m.FlatFits() && (m.rows * m.cols == 0 || grad.offset + m.rows * m.cols <= grad.data.Length)
    modifies grad.data
    ensures IsPointwise(Kind(code)) ==> grad.Span(m.rows * m.cols) == ScaledByFactors(old(grad.Span(m.rows * m.cols)), m.Flat(), Kind(code), lm)
    ensures IsPointwise(Kind(code)) ==> forall q :: 0 <= q < grad.data.Length && !(grad.offset <= q < grad.offset + m.rows * m.cols) ==> grad.data[q] == old(grad.data[q])
    ensures !IsPointwise(Kind(code)) ==> grad.data[..] == old(grad.data[..])
    ensures m.stride == m.cols && grad.stride == grad.cols && grad.rows == m.rows && grad.cols == m.cols ==>
      grad.Elems() == Backprop(Kind(code), old(grad.Elems()), m.Elems(), lm)
  {
    var a := Kind(code);
    var contiguous := m.stride == m.cols && grad.stride == grad.cols && grad.rows == m.rows && grad.cols == m.cols;
    ghost var g0 := grad.Elems();
    if !IsPointwise(a) {
      if contiguous {
        Extensionality(g0, Backprop(a, g0, m.Elems(), lm));
      }
      return;
    }
    ghost var s0 := grad.Span(m.rows * m.cols);
    if contiguous {
      grad.Contiguous();
    }
    FlatBackprop(m, grad, a, lm);
    if contiguous {
      m.Contiguous();
      grad.Contiguous();
      BackpropFromFlat(s0, m.Flat(), m.rows, m.cols, a, lm);
    }
  }

  /** Mapping the flat values, then reading them row by row, is the grid map. */
  lemma MapFromFlat(f: seq<real>, r: nat, c: nat, a: Activation, lm: Libm)
    requires |f| == r * c && Lawful(lm) && !a.Softmax?
    ensures FromFlat(MapValues(f, a, lm), r, c) == Activated(a, FromFlat(f, r, c), lm)
  {
    var mf, fg := MapValues(f, a, lm), FromFlat(f, r, c);
    var lhs, rhs := FromFlat(mf, r, c), Activated(a, fg, lm);
    forall i, j | 0 <= i < r && 0 <= j < c ensures lhs[i][j] == rhs[i][j] {
      RowMajorFits(i, j, r, c);
      var k := i * c + j;
      var x := f[k];
      assert fg[i][j] == x;
      assert lhs[i][j] == mf[k] == Pointwise(a, lm, x);
    }
    Extensionality(lhs, rhs);
  }

  /** Scaling the flat gradient, then reading it row by row, is the grid backpropagation. */
  lemma BackpropFromFlat(g: seq<real>, p: seq<real>, r: nat, c: nat, a: Activation, lm: Libm)
    requires |g| == r * c && |p| == r * c && Lawful(lm) && IsPointwise(a)
    ensures FromFlat(ScaledByFactors(g, p, a, lm), r, c) == Backprop(a, FromFlat(g, r, c), FromFlat(p, r, c), lm)
  {
    var sg, gg, pg := ScaledByFactors(g, p, a, lm), FromFlat(g, r, c), FromFlat(p, r, c);
    var lhs, rhs := FromFlat(sg, r, c), Backprop(a, gg, pg, lm);
    forall i, j | 0 <= i < r && 0 <= j < c ensures lhs[i][j] == rhs[i][j] {
      RowMajorFits(i, j, r, c);
      var k := i * c + j;
      var x, y := g[k], p[k];
      assert gg[i][j] == x && pg[i][j] == y;
      assert lhs[i][j] == sg[k] == ScaledGradient(a, lm, x, y);
    }
    Extensionality(lhs, rhs);
  }

  // ---- Losses ----

  const LogGuard: real := 0.0000000001

  function CrossEntropyTerm(y: real, p: real, lm: Libm): real
  {
    -y * lm.log(p + LogGuard)
  }

  function CrossEntropyTerms(o: Grid, t: Grid, lm: Libm): (h: Grid)
    requires SameShape(o, t)
    ensures SameShape(o, h)
  {
    seq(|o|, (i: int) requires 0 <= i < |o| =>
      seq(|o[i]|, (j: int) requires 0 <= j < |o[i]| => CrossEntropyTerm(t[i][j], o[i][j], lm)))
  }

  /** One row of the cross-entropy sum, read through the output's stride. */
  method RowCrossEntropy(output: Matrix, target: Matrix, i: nat, lm: Libm) returns (sum: real)
    requires output.Valid() && target.Valid() && i < output.rows
    requires target.rows == output.rows && target.cols == output.cols && target.stride == output.stride
    ensures sum == SeqSum(CrossEntropyTerms(output.Elems(), target.Elems(), lm)[i])
  {
    ghost var row := CrossEntropyTerms(output.Elems(), target.Elems(), lm)[i];
    sum := 0.0;
    var j := 0;
    while j < output.cols
      invariant j <= output.cols
      invariant sum == SeqSum(row[..j])
    {
      // The source indexes both with i·stride + j; the strides agree, so this is cell (i, j) of each.
      var y, p := target.At(i, j), output.At(i, j);
      target.ElemIs(i, j);
      output.ElemIs(i, j);
      var term := CrossEntropyTerm(y, p, lm);
      SumStep(row, j, term);
      sum := sum + term;
      j := j + 1;
    }
    assert row[..output.cols] == row;
  }

  /**
   * cross_entropy_loss: −Σ t·log(o + 1e-10) over every element, divided by the row
   * count.  The source reads the target through the output's stride, so the target
   * is required to share the output's shape and stride.
   */
  method CrossEntropyLoss(output: Matrix, target: Matrix, lm: Libm) returns (loss: real)
    requires output.Valid() && target.Valid() && output.rows > 0
    requires target.rows == output.rows && target.cols == output.cols && target.stride == output.stride
    ensures loss == SumAll(CrossEntropyTerms(output.Elems(), target.Elems(), lm)) / (output.rows as real)
  {
    ghost var terms := CrossEntropyTerms(output.Elems(), target.Elems(), lm);
    var sum := 0.0;
    var i := 0;
    while i < output.rows
      invariant i <= output.rows
      invariant sum == SumAll(terms[..i])
    {
      var rowSum := RowCrossEntropy(output, target, i, lm);
      SumAllStep(terms, i, rowSum);
      sum := sum + rowSum;
      i := i + 1;
    }
    assert terms[..output.rows] == terms;
    loss := sum / (output.rows as real);
  }

  function SquaredErrors(o: seq<real>, t: seq<real>): (s: seq<real>)
    requires |o| == |t|
    ensures |s| == |o|
  {
    seq(|o|, (k: int) requires 0 <= k < |o| => Square(o[k] - t[k]))
  }

  /** mse_loss over the flat values: Σ (o − t)² / (rows·cols). */
  method MseLoss(output: Matrix, target: Matrix) returns (loss: real)
    requires output.FlatFits() && output.rows * output.cols > 0
    requires target.offset + output.rows * output.cols <= target.data.Length
    ensures loss == SeqSum(SquaredErrors(output.Flat(), target.data[target.offset..target.offset + output.rows * output.cols])) / ((output.rows * output.cols) as real)
  {
    var n := output.rows * output.cols;
    ghost var o, t := output.Flat(), target.data[target.offset..target.offset + n];
    ghost var sq := SquaredErrors(o, t);
    var sum := 0.0;
    var k := 0;
    while k < n
      invariant k <= n
      invariant sum == SeqSum(sq[..k])
    {
      var diff := output.data[output.offset + k] - target.data[target.offset + k];
      assert diff == o[k] - t[k];
      SumStep(sq, k, diff * diff);
      sum := sum + diff * diff;
      k := k + 1;
    }
    assert sq[..n] == sq;
    loss := sum / (n as real);
  }

  lemma {:induction false} SquaresNonNegative(o: seq<real>, t: seq<real>)
    requires |o| == |t|
    ensures SeqSum(SquaredErrors(o, t)) >= 0.0
    ensures SeqSum(SquaredErrors(o, t)) == 0.0 <==> o == t
  {
    if |o| > 0 {
      var n := |o| - 1;
      SquaresNonNegative(o[..n], t[..n]);
      var sq := SquaredErrors(o, t);
      assert sq[..n] == SquaredErrors(o[..n], t[..n]);
      SquareSign(o[n] - t[n]);
      assert SeqSum(sq) == SeqSum(sq[..n]) + Square(o[n] - t[n]);
      if SeqSum(sq) == 0.0 {
        assert o[..n] == t[..n] && o[n] == t[n];
        assert o == o[..n] + [o[n]] && t == t[..n] + [t[n]];
      }
      if o == t {
        assert o[..n] == t[..n];
      }
    }
  }

  /** The mean squared error is never negative, and it is 0 exactly when output and target agree. */
  lemma MseProperties(o: seq<real>, t: seq<real>)
    requires |o| == |t| && |o| > 0
    ensures SeqSum(SquaredErrors(o, t)) / (|o| as real) >= 0.0
    ensures SeqSum(SquaredErrors(o, t)) / (|o| as real) == 0.0 <==> o == t
  {
    SquaresNonNegative(o, t);
  }

  function BinaryCrossEntropyTerm(y: real, p: real, lm: Libm): real
  {
    -y * lm.log(p + LogGuard) - (1.0 - y) * lm.log(1.0 - p + LogGuard)
  }

  function BinaryCrossEntropyTerms(o: seq<real>, t: seq<real>, lm: Libm): (s: seq<real>)
    requires |o| == |t|
    ensures |s| == |o|
  {
    seq(|o|, (k: int) requires 0 <= k < |o| => BinaryCrossEntropyTerm(t[k], o[k], lm))
  }

  /** binary_cross_entropy_loss over the flat values, divided by rows·cols. */
  method BinaryCrossEntropyLoss(output: Matrix, target: Matrix, lm: Libm) returns (loss: real)
    requires output.FlatFits() && output.rows * output.cols > 0
    requires target.offset + output.rows * output.cols <= target.data.Length
    ensures loss == SeqSum(BinaryCrossEntropyTerms(output.Flat(), target.data[target.offset..target.offset + output.rows * output.cols], lm))
                    / ((output.rows * output.cols) as real)
  {
    var n := output.rows * output.cols;
    ghost var o, t := output.Flat(), target.data[target.offset..target.offset + n];
    ghost var terms := BinaryCrossEntropyTerms(o, t, lm);
    var sum := 0.0;
    var k := 0;
    while k < n
      invariant k <= n
      invariant sum == SeqSum(terms[..k])
    {
      var y := target.data[target.offset + k];
      var yHat := output.data[output.offset + k];
      var term := BinaryCrossEntropyTerm(y, yHat, lm);
      assert y == t[k] && yHat == o[k];
      assert term == terms[k];
      SumStep(terms, k, term);
      sum := sum + term;
      k := k + 1;
    }
    assert terms[..n] == terms;
    assert o == output.Flat() && t == target.data[target.offset..target.offset + output.rows * output.cols];
    loss := sum / (n as real);
  }
}
