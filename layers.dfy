/**
 * The layers of src/layers that have a body: dense (fully connected) and dropout.
 *
 * A layer is an object whose matrix fields its passes replace or overwrite:
 * `input` (a private copy of the last forward argument), `output`, `gradInput`
 * (for a dense layer the pre-activation values, for dropout the gradient it hands
 * back) and `mask`.  A dense layer also holds its weights, biases and their
 * gradients, made once when the layer is created and never replaced.  Every
 * matrix a layer holds is made by matrix_create, so each is `Owned`, and no two
 * share an array.
 */
module Layers {
  import opened Numeric
  import opened Grids
  import opened Matrices
  import opened Activations
  import opened Optimizers

  /** LayerType, in the order of the enum. */
  datatype LayerKind = Dense | Conv2d | Rnn | Lstm | Attention | Dropout | BatchNorm

  /** The number the enum gives each kind: the type tag of the model format. */
  function TypeTag(k: LayerKind): (tag: nat)
    ensures tag < 7
  {
    match k
    case Dense => 0
    case Conv2d => 1
    case Rnn => 2
    case Lstm => 3
    case Attention => 4
    case Dropout => 5
    case BatchNorm => 6
  }

  // ---- Dense: specifications ----

  /** √(6/(in + out)), the Xavier/Glorot bound. With no inputs and no outputs the C divides by zero (+inf);
      no weight is drawn then, and the 0 here is this model's own choice. */
  function XavierLimit(inSize: nat, outSize: nat, lm: Libm): (limit: real)
    requires Lawful(lm)
    ensures limit >= 0.0
    ensures inSize + outSize > 0 ==> limit * limit == 6.0 / ((inSize + outSize) as real)
  {
    if inSize + outSize == 0 then 0.0 else lm.sqrt(6.0 / ((inSize + outSize) as real))
  }

  /** x·w with b[j] added to column j of every row: the values before the activation. */
  function Affine(x: Grid, w: Grid, b: seq<real>, r: nat, n: nat, c: nat): (z: Grid)
    requires IsShape(x, r, n) && IsShape(w, n, c) && |b| == c
    ensures IsShape(z, r, c)
  {
    AddRowToEach(Product(x, w, r, n, c), b)
  }

  /** The gradient the activation passes back: g scaled by the derivative at the pre-activation p. */
  function ActivationGradient(code: int, g: Grid, p: Grid, lm: Libm): (h: Grid)
    requires Lawful(lm) && SameShape(g, p)
    ensures SameShape(g, h)
  {
    if code != 0 then Backprop(Kind(code), g, p, lm) else g
  }

  // ---- Dropout: specifications ----

  /** 1/(1 − rate): the factor a kept element is multiplied by. */
  function KeepScale(rate: real): real
    requires rate != 1.0
  {
    1.0 / (1.0 - rate)
  }

  /** The mask a training pass writes: 0 where the draw falls below the rate, the keep scale elsewhere. */
  function DropMask(draws: seq<real>, rate: real): (mask: seq<real>)
    requires rate != 1.0
    ensures |mask| == |draws|
  {
    seq(|draws|, (k: int) requires 0 <= k < |draws| => if draws[k] < rate then 0.0 else KeepScale(rate))
  }

  /** The output of a training pass: 0 where the element is dropped, x·scale where it is kept. */
  function Dropped(x: seq<real>, draws: seq<real>, rate: real): (y: seq<real>)
    requires rate != 1.0 && |draws| == |x|
    ensures |y| == |x|
  {
    seq(|x|, (k: int) requires 0 <= k < |x| => if draws[k] < rate then 0.0 else x[k] * KeepScale(rate))
  }

  /** g[k]·mask[k] for every k. */
  function Masked(g: seq<real>, mask: seq<real>): (r: seq<real>)
    requires |g| == |mask|
    ensures |r| == |g|
  {
    seq(|g|, (k: int) requires 0 <= k < |g| => g[k] * mask[k])
  }

  /** The sgd loop over flat buffers: p[k] − lr·g[k]. */
  function SgdFlat(p: seq<real>, g: seq<real>, lr: real): (r: seq<real>)
    requires |p| == |g|
    ensures |r| == |p|
  {
    seq(|p|, (k: int) requires 0 <= k < |p| => p[k] - lr * g[k])
  }

  // ---- Facts about the specifications ----

  /** Row i of xᵀ is column i of x. */
  lemma TransposedRow(x: Grid, r: nat, n: nat, i: nat)
    requires IsShape(x, r, n) && i < n
    ensures Transposed(x, r, n)[i] == Column(x, i)
  {
    var t := Transposed(x, r, n)[i];
    assert |t| == r;
    forall k | 0 <= k < r ensures t[k] == Column(x, i)[k] { }
  }

  /** Entry (i, j) of xᵀ·g is Σ_k x(k, i)·g(k, j). */
  lemma TransposeProductEntry(x: Grid, g: Grid, r: nat, n: nat, c: nat, i: nat, j: nat)
    requires IsShape(x, r, n) && IsShape(g, r, c) && i < n && j < c
    ensures Product(Transposed(x, r, n), g, n, r, c)[i][j] == Dot(Column(x, i), Column(g, j))
  {
    TransposedRow(x, r, n, i);
  }

  /**
   * The dropout output is the input times the mask, element by element: the
   * backward pass multiplies by the same factors the forward pass applied.
   */
  lemma DroppedIsMasked(x: seq<real>, draws: seq<real>, rate: real)
    requires rate != 1.0 && |draws| == |x|
    ensures Dropped(x, draws, rate) == Masked(x, DropMask(draws, rate))
  {
    var y, z := Dropped(x, draws, rate), Masked(x, DropMask(draws, rate));
    forall k | 0 <= k < |x| ensures y[k] == z[k] {
      if draws[k] < rate {
        assert z[k] == x[k] * 0.0;
      }
    }
  }

  /**
   * Each element of a training pass has one of two outcomes: mask 0 and output 0,
   * or mask 1/(1 − rate) and output x·1/(1 − rate).
   */
  lemma DropoutOutcomes(x: seq<real>, draws: seq<real>, rate: real)
    requires rate != 1.0 && |draws| == |x|
    ensures forall k :: 0 <= k < |x| ==>
      (DropMask(draws, rate)[k] == 0.0 && Dropped(x, draws, rate)[k] == 0.0) ||
      (DropMask(draws, rate)[k] == KeepScale(rate) && Dropped(x, draws, rate)[k] == x[k] * KeepScale(rate))
  {
    forall k | 0 <= k < |x|
      ensures (DropMask(draws, rate)[k] == 0.0 && Dropped(x, draws, rate)[k] == 0.0) ||
              (DropMask(draws, rate)[k] == KeepScale(rate) && Dropped(x, draws, rate)[k] == x[k] * KeepScale(rate))
    {
      if draws[k] < rate {
        assert DropMask(draws, rate)[k] == 0.0;
      } else {
        assert DropMask(draws, rate)[k] == KeepScale(rate);
      }
    }
  }

  /** With rate 0.5 an input of ones comes out as zeros and twos only. */
  lemma HalfRateOnOnes(x: seq<real>, draws: seq<real>)
    requires |draws| == |x| && forall k :: 0 <= k < |x| ==> x[k] == 1.0
    ensures forall k :: 0 <= k < |x| ==> Dropped(x, draws, 0.5)[k] == 0.0 || Dropped(x, draws, 0.5)[k] == 2.0
  {
    assert KeepScale(0.5) == 2.0;
    DropoutOutcomes(x, draws, 0.5);
  }

  /** A dense layer with ACTIVATION_NONE outputs the affine values themselves. */
  lemma {:induction false} LinearOutput(z: Grid, lm: Libm)
    requires Lawful(lm)
    ensures Activated(Kind(0), z, lm) == z
  {
    var h := Activated(Kind(0), z, lm);
    forall i, j | 0 <= i < |z| && 0 <= j < |z[i]| ensures h[i][j] == z[i][j] {
      assert h[i][j] == Pointwise(None, lm, z[i][j]);
    }
    Extensionality(h, z);
  }

  /** The flat sgd loop, read back as grids, is the optimizer's plain SGD step. */
  lemma SgdFromFlat(p: seq<real>, g: seq<real>, r: nat, c: nat, lr: real)
    requires |p| == r * c && |g| == r * c
    ensures SgdStep(FromFlat(p, r, c), FromFlat(g, r, c), lr) == FromFlat(SgdFlat(p, g, lr), r, c)
  {
    var lhs, rhs := SgdStep(FromFlat(p, r, c), FromFlat(g, r, c), lr), FromFlat(SgdFlat(p, g, lr), r, c);
    forall i, j | 0 <= i < r && 0 <= j < c ensures lhs[i][j] == rhs[i][j] {
      RowMajorFits(i, j, r, c);
    }
    Extensionality(lhs, rhs);
  }

  /**
   * dense_update on a (weights, gradient) pair is the optimizer's SGD entry step:
   * the same new parameters, and the gradient left all zero.
   */
  lemma DenseUpdateIsSgd(w: Grid, gw: Grid, m: Grid, v: Grid, r: nat, c: nat, lr: real)
    requires IsShape(w, r, c) && IsShape(gw, r, c) && IsShape(m, r, c) && IsShape(v, r, c)
    ensures SgdEntryStep(Entry(w, gw, m, v), lr) == Entry(SgdStep(w, gw, lr), Zeros(r, c), m, v)
  {
    ClearedIsZeros(gw, r, c);
  }

  // ---- The loops of dense.c ----

  /** The bias loop of dense_forward: b(0, j) added to m(i, j) for every i and j. */
  method AddBias(m: Matrix, b: Matrix)
    requires m.Valid() && b.Valid() && b.rows == 1 && b.cols == m.cols && m.data != b.data
    modifies m.data
    ensures m.Elems() == AddRowToEach(old(m.Elems()), b.Elems()[0])
  {
    ghost var e0, bias := m.Elems(), b.Elems()[0];
    m.CellsFit();
    var i := 0;
    while i < m.rows
      invariant i <= m.rows
      invariant forall ii, jj :: 0 <= ii < i && 0 <= jj < m.cols ==> m.data[m.Index(ii, jj)] == e0[ii][jj] + bias[jj]
      invariant forall ii, jj :: i <= ii < m.rows && 0 <= jj < m.cols ==> m.data[m.Index(ii, jj)] == e0[ii][jj]
    {
      AddBiasRow(m, b, i);
      m.OtherRowsOutside(i);
      i := i + 1;
    }
    Extensionality(m.Elems(), AddRowToEach(e0, bias));
  }

  /** Row i of `AddBias`; only row i's cells are written. */
  method AddBiasRow(m: Matrix, b: Matrix, i: nat)
    requires m.Valid() && b.Valid() && b.rows == 1 && b.cols == m.cols && m.data != b.data && i < m.rows
    modifies m.data
    ensures m.RowStart(i) + m.cols <= m.data.Length
    ensures forall jj :: 0 <= jj < m.cols ==> m.data[m.Index(i, jj)] == old(m.data[m.Index(i, jj)]) + b.Elems()[0][jj]
    ensures forall k :: 0 <= k < m.data.Length && !(m.RowStart(i) <= k < m.RowStart(i) + m.cols) ==> m.data[k] == old(m.data[k])
  {
    m.RowFits(i);
    ghost var dr := m.data[..];
    var j := 0;
    while j < m.cols
      invariant j <= m.cols
      invariant forall jj :: 0 <= jj < j ==> m.data[m.Index(i, jj)] == dr[m.Index(i, jj)] + b.Elems()[0][jj]
      invariant forall k :: 0 <= k < m.data.Length && !(m.RowStart(i) <= k < m.RowStart(i) + j) ==> m.data[k] == dr[k]
    {
      b.ElemIs(0, j);
      var y := b.data[b.Index(0, j)];
      m.data[m.Index(i, j)] := m.data[m.Index(i, j)] + y;
      j := j + 1;
    }
  }

  /** The accumulator loop of dense_backward: Σ_k a(k, i)·b(k, j), k ascending. */
  method ColumnTimesColumn(a: Matrix, b: Matrix, i: nat, j: nat) returns (sum: real)
    requires a.Valid() && b.Valid() && a.rows == b.rows && i < a.cols && j < b.cols
    ensures sum == Dot(Column(a.Elems(), i), Column(b.Elems(), j))
  {
    ghost var u, v := Column(a.Elems(), i), Column(b.Elems(), j);
    sum := 0.0;
    var k := 0;
    while k < a.rows
      invariant k <= a.rows
      invariant sum == Dot(u[..k], v[..k])
    {
      var x, y := a.At(k, i), b.At(k, j);
      a.ElemIs(k, i);
      b.ElemIs(k, j);
      DotStep(u, v, k, x, y);
      sum := sum + x * y;
      k := k + 1;
    }
    assert u[..a.rows] == u && v[..a.rows] == v;
  }

  /** The weight-gradient loops of dense_backward: c := aᵀ·b, overwriting c. */
  method TransposeTimes(a: Matrix, b: Matrix, c: Matrix)
    requires a.Valid() && b.Valid() && c.Valid()
    requires a.rows == b.rows && c.rows == a.cols && c.cols == b.cols
    requires c.data != a.data && c.data != b.data
    modifies c.data
    ensures c.Elems() == Product(Transposed(a.Elems(), a.rows, a.cols), b.Elems(), a.cols, a.rows, b.cols)
  {
    ghost var ea, eb := a.Elems(), b.Elems();
    c.CellsFit();
    var i := 0;
    while i < a.cols
      invariant i <= a.cols
      invariant forall ii, jj :: 0 <= ii < i && 0 <= jj < c.cols ==> c.data[c.Index(ii, jj)] == Dot(Column(ea, ii), Column(eb, jj))
    {
      TransposeRow(a, b, c, i);
      c.OtherRowsOutside(i);
      i := i + 1;
    }
    var p := Product(Transposed(ea, a.rows, a.cols), eb, a.cols, a.rows, b.cols);
    forall ii, jj | 0 <= ii < c.rows && 0 <= jj < c.cols ensures c.Elems()[ii][jj] == p[ii][jj] {
      c.ElemIs(ii, jj);
      TransposeProductEntry(ea, eb, a.rows, a.cols, b.cols, ii, jj);
    }
    Extensionality(c.Elems(), p);
  }

  /** Row i of `TransposeTimes`; only row i's cells are written. */
  method TransposeRow(a: Matrix, b: Matrix, c: Matrix, i: nat)
    requires a.Valid() && b.Valid() && c.Valid()
    requires a.rows == b.rows && c.rows == a.cols && c.cols == b.cols && i < a.cols
    requires c.data != a.data && c.data != b.data
    modifies c.data
    ensures c.RowStart(i) + c.cols <= c.data.Length
    ensures forall jj :: 0 <= jj < c.cols ==> c.data[c.Index(i, jj)] == Dot(Column(a.Elems(), i), Column(b.Elems(), jj))
    ensures forall k :: 0 <= k < c.data.Length && !(c.RowStart(i) <= k < c.RowStart(i) + c.cols) ==> c.data[k] == old(c.data[k])
  {
    c.RowFits(i);
    ghost var dr := c.data[..];
    ghost var ea, eb := a.Elems(), b.Elems();
    var j := 0;
    while j < b.cols
      invariant j <= b.cols
      invariant a.Elems() == ea && b.Elems() == eb
      invariant forall jj :: 0 <= jj < j ==> c.data[c.Index(i, jj)] == Dot(Column(ea, i), Column(eb, jj))
      invariant forall k :: 0 <= k < c.data.Length && !(c.RowStart(i) <= k < c.RowStart(i) + j) ==> c.data[k] == dr[k]
    {
      var sum := ColumnTimesColumn(a, b, i, j);
      c.data[c.Index(i, j)] := sum;
      j := j + 1;
    }
  }

  /** The bias-gradient loops of dense_backward: s(0, i) := Σ_j g(j, i), reset to 0 first. */
  method ColumnSumsInto(g: Matrix, s: Matrix)
    requires g.Valid() && s.Valid() && s.rows == 1 && s.cols == g.cols && s.data != g.data
    modifies s.data
    ensures s.Elems() == [ColumnSums(g.Elems(), g.rows, g.cols)]
  {
    ghost var e := g.Elems();
    s.CellsFit();
    var i := 0;
    while i < g.cols
      invariant i <= g.cols
      invariant forall ii :: 0 <= ii < i ==> s.data[s.Index(0, ii)] == SeqSum(Column(e, ii))
    {
      ColumnSum(g, s, i);
      i := i + 1;
    }
    var want := [ColumnSums(e, g.rows, g.cols)];
    forall ii, jj | 0 <= ii < 1 && 0 <= jj < s.cols ensures s.Elems()[ii][jj] == want[ii][jj] {
      s.ElemIs(ii, jj);
    }
    Extensionality(s.Elems(), want);
  }

  /** Column i of `ColumnSumsInto`: only cell (0, i) of s is written. */
  method ColumnSum(g: Matrix, s: Matrix, i: nat)
    requires g.Valid() && s.Valid() && s.rows == 1 && s.cols == g.cols && s.data != g.data && i < g.cols
    modifies s.data
    ensures s.Index(0, i) < s.data.Length && s.data[s.Index(0, i)] == SeqSum(Column(g.Elems(), i))
    ensures forall k :: 0 <= k < s.data.Length && k != s.Index(0, i) ==> s.data[k] == old(s.data[k])
  {
    ghost var col := Column(g.Elems(), i);
    s.CellsFit();
    var idx := s.Index(0, i);
    s.data[idx] := 0.0;
    var j := 0;
    while j < g.rows
      invariant j <= g.rows
      invariant s.data[idx] == SeqSum(col[..j])
      invariant forall k :: 0 <= k < s.data.Length && k != idx ==> s.data[k] == old(s.data[k])
    {
      var x := g.At(j, i);
      g.ElemIs(j, i);
      SumStep(col, j, x);
      s.data[idx] := s.data[idx] + x;
      j := j + 1;
    }
    assert col[..g.rows] == col;
  }

  /** A loop of dense_update: p[k] −= lr·g[k] over the whole buffer. */
  method FlatSgd(p: Matrix, g: Matrix, lr: real)
    requires Owned(p) && Owned(g) && Alike(p, g) && p.data != g.data
    modifies p.data
    ensures p.Elems() == SgdStep(old(p.Elems()), g.Elems(), lr)
  {
    OwnedLayout(p);
    OwnedLayout(g);
    ghost var p0, g0 := p.data[..], g.data[..];
    ghost var want := SgdFlat(p0, g0, lr);
    var n := p.rows * p.cols;
    var k := 0;
    while k < n
      invariant 0 <= k <= n
      invariant forall q :: 0 <= q < k ==> p.data[q] == want[q]
      invariant forall q :: k <= q < n ==> p.data[q] == p0[q]
    {
      var x, y := p.data[k], g.data[k];
      assert x == p0[k] && y == g0[k];
      p.data[k] := x - lr * y;
      k := k + 1;
    }
    assert p.data[..] == want;
    SgdFromFlat(p0, g0, p.rows, p.cols, lr);
    OwnedLayout(p);
  }

  // ---- The loops of dropout.c ----

  /**
   * The training loop of dropout_forward: element k of x (read without the
   * stride) is dropped when draws[k] < rate, and kept and scaled otherwise.
   */
  method DropoutLoop(x: Matrix, out: Matrix, mask: Matrix, draws: seq<real>, rate: real)
    requires x.FlatFits() && Owned(out) && Owned(mask) && rate != 1.0
    requires out.rows * out.cols == x.rows * x.cols && mask.rows * mask.cols == x.rows * x.cols && |draws| == x.rows * x.cols
    requires out.data != x.data && mask.data != x.data && out.data != mask.data
    modifies out.data, mask.data
    ensures out.data[..] == Dropped(x.Flat(), draws, rate)
    ensures mask.data[..] == DropMask(draws, rate)
  {
    ghost var xs := x.Flat();
    var scale := 1.0 / (1.0 - rate);
    var n := x.rows * x.cols;
    var k := 0;
    while k < n
      invariant 0 <= k <= n
      invariant forall q :: 0 <= q < k ==> out.data[q] == Dropped(xs, draws, rate)[q] && mask.data[q] == DropMask(draws, rate)[q]
    {
      if draws[k] < rate {
        mask.data[k] := 0.0;
        out.data[k] := 0.0;
      } else {
        mask.data[k] := scale;
        out.data[k] := x.data[x.offset + k] * scale;
      }
      k := k + 1;
    }
  }

  /** The loop of dropout_backward: r[k] := g[k]·mask[k], g read without the stride. */
  method MaskLoop(g: Matrix, mask: Matrix, r: Matrix)
    requires g.FlatFits() && Owned(mask) && Owned(r)
    requires mask.rows * mask.cols == g.rows * g.cols && r.rows * r.cols == g.rows * g.cols
    requires r.data != g.data && r.data != mask.data
    modifies r.data
    ensures r.data[..] == Masked(g.Flat(), mask.data[..])
  {
    ghost var want := Masked(g.Flat(), mask.data[..]);
    var n := g.rows * g.cols;
    var k := 0;
    while k < n
      invariant 0 <= k <= n
      invariant forall q :: 0 <= q < k ==> r.data[q] == want[q]
    {
      r.data[k] := g.data[g.offset + k] * mask.data[k];
      k := k + 1;
    }
    assert r.data[..] == want;
  }

  // ---- What a forward pass computes ----

  /**
   * A layer as its forward pass sees it: kind, sizes, activation code, dropout
   * rate, training flag, and the weight and bias values (empty without them).
   */
  datatype Stage = Stage(kind: LayerKind, inputSize: nat, outputSize: nat, activation: int,
                         rate: real, training: bool, w: Grid, b: Grid)

  /**
   * What a forward pass leaves a layer for its backward pass: whether it kept an
   * input copy and that copy's values, and, for a dense layer, whether it kept the
   * values before the activation and what they are.
   */
  datatype Memo = Memo(hasInput: bool, input: Grid, hasPre: bool, pre: Grid)

  /** The column count of the output for an argument with `cols` columns. */
  function StageCols(st: Stage, cols: nat): nat
  {
    if st.kind == Dense then st.outputSize else cols
  }

  /**
   * The stage can take a rows × cols argument: a dense stage needs cols == in and
   * parameters of its shape, a dropping stage a rate other than 1 and a draw per element.
   */
  predicate StageFits(st: Stage, rows: nat, cols: nat, draws: seq<real>)
  {
    && (st.kind == Dense || st.kind == Dropout)
    && (st.kind == Dense ==> cols == st.inputSize && IsShape(st.w, st.inputSize, st.outputSize) && IsShape(st.b, 1, st.outputSize))
    && (st.kind == Dropout && st.training && st.rate > 0.0 ==> st.rate != 1.0 && |draws| == rows * cols)
  }

  /**
   * What a forward pass computes for a rows × cols argument x: a dense stage's
   * activated affine map, a dropout stage's dropped-and-scaled values (the draws
   * taken in row-major order) when it trains with a positive rate, and x itself otherwise.
   */
  ghost function StageOutput(st: Stage, x: Grid, rows: nat, cols: nat, draws: seq<real>, lm: Libm): (y: Grid)
    requires Lawful(lm) && IsShape(x, rows, cols) && StageFits(st, rows, cols, draws)
    ensures IsShape(y, rows, StageCols(st, cols))
  {
    if st.kind == Dense then Activated(Kind(st.activation), Affine(x, st.w, st.b[0], rows, st.inputSize, st.outputSize), lm)
    else if st.training && st.rate > 0.0 then
      FlattenSize(x, rows, cols);
      FromFlat(Dropped(Flatten(x), draws, st.rate), rows, cols)
    else x
  }

  // ---- The layer object ----

  /** Neither matrix is there, or they have different arrays. */
  predicate Apart(a: Matrix?, b: Matrix?)
  {
    a == null || b == null || a.data != b.data
  }

  /** The array of a matrix that is there, as a set. */
  function ArrayOf(a: Matrix?): set<array<real>>
  {
    if a == null then {} else {a.data}
  }

  /** A matrix that is there was made by matrix_create. */
  predicate OwnedIfThere(a: Matrix?)
  {
    a == null || Owned(a)
  }

  /** matrix_create(r, c) followed by matrix_fill(value). */
  method Filled(r: nat, c: nat, value: real) returns (m: Matrix)
    ensures Owned(m) && fresh(m.data) && m.rows == r && m.cols == c
    ensures m.Elems() == Constant(r, c, value)
  {
    m := new Matrix(r, c);
    Fill(m, value);
  }

  /** matrix_create(r, c) followed by matrix_random_uniform(−limit, limit), every value within the bounds. */
  method Drawn(r: nat, c: nat, limit: real, draws: Grid) returns (m: Matrix)
    requires limit >= 0.0 && IsShape(draws, r, c)
    requires forall i, j :: 0 <= i < r && 0 <= j < c ==> 0.0 <= draws[i][j] <= 1.0
    ensures Owned(m) && fresh(m.data) && m.rows == r && m.cols == c
    ensures m.Elems() == Uniform(-limit, limit, draws)
    ensures forall i, j :: 0 <= i < r && 0 <= j < c ==> -limit <= m.Elems()[i][j] <= limit
  {
    m := new Matrix(r, c);
    RandomUniform(m, -limit, limit, draws);
    UniformWithinBounds(-limit, limit, draws);
  }

  /** matrix_create(x.rows, x.cols) followed by matrix_copy(copy, x). */
  method CopyOf(x: Matrix) returns (copy: Matrix)
    requires x.Valid()
    ensures Owned(copy) && fresh(copy) && fresh(copy.data) && copy.rows == x.rows && copy.cols == x.cols
    ensures copy.Elems() == x.Elems()
  {
    copy := new Matrix(x.rows, x.cols);
    Copy(copy, x);
  }

  /** matrix_multiply into out, then the bias loop: out := x·w + b in every row. */
  method AffineInto(x: Matrix, w: Matrix, b: Matrix, out: Matrix)
    requires x.Valid() && w.Valid() && b.Valid() && out.Valid()
    requires x.cols == w.rows && b.rows == 1 && b.cols == w.cols && out.rows == x.rows && out.cols == w.cols
    requires out.data != x.data && out.data != w.data && out.data != b.data
    modifies out.data
    ensures out.Elems() == Affine(x.Elems(), w.Elems(), b.Elems()[0], x.rows, x.cols, w.cols)
  {
    Multiply(x, w, out);
    AddBias(out, b);
  }

  /**
   * The activation step of dense_forward: the values before the activation are
   * copied into cache, then out is activated in place.
   */
  method ActivateKeeping(out: Matrix, cache: Matrix, code: int, lm: Libm)
    requires Owned(out) && Owned(cache) && Alike(out, cache) && out.data != cache.data && Lawful(lm)
    modifies out.data, cache.data
    ensures cache.Elems() == old(out.Elems())
    ensures out.Elems() == Activated(Kind(code), old(out.Elems()), lm)
  {
    Copy(cache, out);
    Activate(out, code, lm);
  }

  /**
   * The arithmetic of dense_forward on existing buffers: out := x·w + b, and when
   * there is an activation the values before it are kept in cache and out is
   * activated in place.
   */
  method DenseCompute(x: Matrix, w: Matrix, b: Matrix, out: Matrix, cache: Matrix?, code: int, lm: Libm)
    requires x.Valid() && w.Valid() && b.Valid() && Owned(out) && Lawful(lm)
    requires x.cols == w.rows && b.rows == 1 && b.cols == w.cols && out.rows == x.rows && out.cols == w.cols
    requires out.data != x.data && out.data != w.data && out.data != b.data
    requires code != 0 ==> cache != null && Owned(cache) && Alike(out, cache) && cache.data != out.data
    requires cache != null ==> cache.data != x.data && cache.data != w.data && cache.data != b.data
    modifies out.data, ArrayOf(cache)
    ensures out.Elems() == Activated(Kind(code), Affine(x.Elems(), w.Elems(), b.Elems()[0], x.rows, x.cols, w.cols), lm)
    ensures code != 0 ==> cache.Elems() == Affine(x.Elems(), w.Elems(), b.Elems()[0], x.rows, x.cols, w.cols)
  {
    AffineInto(x, w, b, out);
    if code != 0 {
      ActivateKeeping(out, cache, code, lm);
    } else {
      LinearOutput(out.Elems(), lm);
    }
  }

  /**
   * The arithmetic of dense_backward: og is copied, scaled by the activation's
   * derivative at the kept pre-activation values when there are any, and then
   * gw := xᵀ·ag and gb := the column sums of ag.
   */
  method DenseGradients(x: Matrix, og: Matrix, pre: Matrix?, code: int, gw: Matrix, gb: Matrix, lm: Libm)
    requires x.Valid() && og.Valid() && Owned(gw) && Owned(gb) && Lawful(lm)
    requires og.rows == x.rows && gw.rows == x.cols && gw.cols == og.cols && gb.rows == 1 && gb.cols == og.cols
    requires pre != null ==> Owned(pre) && Alike(pre, og)
    requires gw.data != x.data && gw.data != og.data && gb.data != x.data && gb.data != og.data && gw.data != gb.data
    requires pre != null ==> pre.data != gw.data && pre.data != gb.data
    modifies gw.data, gb.data
    ensures var ag := if pre != null then ActivationGradient(code, og.Elems(), pre.Elems(), lm) else og.Elems();
      && gw.Elems() == Product(Transposed(x.Elems(), x.rows, x.cols), ag, x.cols, x.rows, og.cols)
      && gb.Elems() == [ColumnSums(ag, x.rows, og.cols)]
  {
    var ag := CopyOf(og);
    if code != 0 && pre != null {
      ActivateDerivative(pre, ag, code, lm);
    }
    TransposeTimes(x, ag, gw);
    ColumnSumsInto(ag, gb);
  }

  /**
   * The arithmetic of dropout_forward on existing buffers: with a mask, the draws
   * decide element by element (in flat order) whether it is dropped or scaled;
   * without one the input is copied through.
   */
  method DropoutCompute(x: Matrix, out: Matrix, mask: Matrix?, draws: seq<real>, rate: real)
    requires x.Valid() && Owned(out) && Alike(out, x) && out.data != x.data
    requires mask != null ==> Owned(mask) && Alike(mask, x) && mask.data != x.data && mask.data != out.data
    requires mask != null ==> rate != 1.0 && |draws| == x.rows * x.cols && x.FlatFits()
    modifies out.data, ArrayOf(mask)
    ensures mask != null ==> out.data[..] == Dropped(x.Flat(), draws, rate) && mask.data[..] == DropMask(draws, rate)
    ensures mask == null ==> out.Elems() == x.Elems()
  {
    if mask != null {
      DropoutLoop(x, out, mask, draws, rate);
    } else {
      Copy(out, x);
    }
  }

  /** The array of a matrix that is there, as a sequence. */
  function SeqOf(a: Matrix?): seq<array<real>>
  {
    if a == null then [] else [a.data]
  }

  /** No array occurs twice. */
  predicate Distinct(s: seq<array<real>>)
  {
    forall i, j :: 0 <= i < j < |s| ==> s[i] != s[j]
  }

  /** Appending the array of a matrix not yet among s keeps s without repeats. */
  lemma PushDistinct(s: seq<array<real>>, m: Matrix?)
    requires Distinct(s) && (m != null ==> m.data !in s)
    ensures Distinct(s + SeqOf(m))
  {
    if m != null {
      var t := s + [m.data];
      forall i, j | 0 <= i < j < |t| ensures t[i] != t[j] {
        if j == |s| {
          assert t[i] in s;
        }
      }
    }
  }

  /**
   * `if (m) matrix_free(m)` after the arrays in done were released: an owned
   * matrix releases its own array, which is not among them.
   */
  method Release(done: seq<array<real>>, m: Matrix?) returns (released: seq<array<real>>)
    requires Distinct(done) && OwnedIfThere(m) && (m != null ==> m.data !in done)
    ensures released == done + SeqOf(m)
    ensures Distinct(released)
  {
    released := done;
    if m != null {
      var buffer := Free(m);
      if buffer {
        released := released + [m.data];
      }
    }
  }

  class Layer {
    const kind: LayerKind
    const name: string
    const inputSize: nat
    const outputSize: nat
    const activation: int
    const dropoutRate: real
    var isTraining: bool
    const weights: Matrix?
    const biases: Matrix?
    const gradWeights: Matrix?
    const gradBiases: Matrix?
    var input: Matrix?
    var output: Matrix?
    var gradInput: Matrix?
    var mask: Matrix?

    /** The arrays of every matrix the layer holds. */
    ghost function Arrays(): set<array<real>>
      reads this
    {
      ArrayOf(weights) + ArrayOf(biases) + ArrayOf(gradWeights) + ArrayOf(gradBiases)
      + ArrayOf(input) + ArrayOf(output) + ArrayOf(gradInput) + ArrayOf(mask)
    }

    /** What the update pass writes: the parameters and their gradients. */
    ghost function Params(): set<array<real>>
      reads this
    {
      ArrayOf(weights) + ArrayOf(biases) + ArrayOf(gradWeights) + ArrayOf(gradBiases)
    }

    /** The arrays the passes keep values in: the input copy, the output, the gradient or pre-activation cache and the mask. */
    ghost function Caches(): set<array<real>>
      reads this
    {
      ArrayOf(input) + ArrayOf(output) + ArrayOf(gradInput) + ArrayOf(mask)
    }

    /** The existing arrays the forward pass may write. */
    ghost function ForwardFrame(): set<array<real>>
      reads this
    {
      ArrayOf(output) + ArrayOf(mask) + (if kind == Dense then ArrayOf(gradInput) else {})
    }

    /** The existing arrays the backward pass may write. */
    ghost function BackwardFrame(): set<array<real>>
      reads this
    {
      if kind == Dense then ArrayOf(gradWeights) + ArrayOf(gradBiases) else ArrayOf(gradInput)
    }

    /** No two matrices of the layer share an array. */
    ghost predicate Separate()
      reads this
    {
      && Apart(weights, biases) && Apart(weights, gradWeights) && Apart(weights, gradBiases)
      && Apart(weights, input) && Apart(weights, output) && Apart(weights, gradInput) && Apart(weights, mask)
      && Apart(biases, gradWeights) && Apart(biases, gradBiases) && Apart(biases, input)
      && Apart(biases, output) && Apart(biases, gradInput) && Apart(biases, mask)
      && Apart(gradWeights, gradBiases) && Apart(gradWeights, input) && Apart(gradWeights, output)
      && Apart(gradWeights, gradInput) && Apart(gradWeights, mask)
      && Apart(gradBiases, input) && Apart(gradBiases, output) && Apart(gradBiases, gradInput) && Apart(gradBiases, mask)
      && Apart(input, output) && Apart(input, gradInput) && Apart(input, mask)
      && Apart(output, gradInput) && Apart(output, mask) && Apart(gradInput, mask)
    }

    /** A dense layer's four parameter matrices exist, own their arrays and have the layer's shape. */
    predicate ParamsShaped()
    {
      && weights != null && biases != null && gradWeights != null && gradBiases != null
      && Owned(weights) && Owned(biases) && Owned(gradWeights) && Owned(gradBiases)
      && weights.rows == inputSize && weights.cols == outputSize
      && biases.rows == 1 && biases.cols == outputSize
      && Alike(gradWeights, weights) && Alike(gradBiases, biases)
    }

    /**
     * A dense layer has in × out weights, 1 × out biases and gradients of the same
     * shapes, and no mask; its cached input is batch × in and its output and
     * pre-activation cache batch × out.  A dropout layer has no parameters, and its
     * input, output, mask and gradient share one shape.  Every matrix held is owned
     * and has an array of its own.
     */
    ghost predicate Valid()
      reads this
    {
      && (kind == Dense || kind == Dropout)
      && (kind == Dense ==>
            && ParamsShaped()
            && mask == null
            && (activation == 0 ==> gradInput == null)
            && (input != null ==> output != null && input.rows == output.rows && input.cols == inputSize)
            && (output != null ==> output.cols == outputSize))
      && (kind == Dropout ==>
            && weights == null && biases == null && gradWeights == null && gradBiases == null
            && (input != null ==> output != null && Alike(input, output))
            && (mask != null ==> output != null && Alike(mask, output)))
      && (gradInput != null ==> output != null && Alike(gradInput, output))
      && OwnedIfThere(input) && OwnedIfThere(output) && OwnedIfThere(gradInput) && OwnedIfThere(mask)
      && Separate()
    }

    /** The forward pass can take a rows × cols argument: the shape asserts of matrix_multiply and the buffer sizes. */
    ghost predicate Accepts(rows: nat, cols: nat)
      reads this
    {
      if kind == Dense then cols == inputSize && (output == null || output.rows == rows)
      else output == null || (output.rows == rows && output.cols == cols)
    }

    /** The column count of the output for an argument with `cols` columns. */
    function OutCols(cols: nat): nat
    {
      if kind == Dense then outputSize else cols
    }

    /** Dropout is applied: a dropout layer in training mode with a positive rate. */
    predicate Drops()
      reads this
    {
      kind == Dropout && isTraining && dropoutRate > 0.0
    }

    /** The values a dense layer computes before its activation, for a rows × in argument. */
    ghost function PreActivation(x: Grid, rows: nat): (z: Grid)
      reads ArrayOf(weights), ArrayOf(biases)
      requires ParamsShaped() && IsShape(x, rows, inputSize)
      ensures IsShape(z, rows, outputSize)
    {
      Affine(x, weights.Elems(), biases.Elems()[0], rows, inputSize, outputSize)
    }

    /** The layer has the kind, sizes and activation of stage st. */
    ghost predicate Settled(st: Stage)
      reads this
    {
      kind == st.kind && inputSize == st.inputSize && outputSize == st.outputSize && activation == st.activation
    }

    /** What the forward pass depends on: the layer's settings, its mode and its parameter values. */
    ghost function Snapshot(): (st: Stage)
      reads this, ArrayOf(weights), ArrayOf(biases)
      requires Valid()
      ensures st.kind == kind && st.training == isTraining && st.rate == dropoutRate
      ensures st.inputSize == inputSize && st.outputSize == outputSize && st.activation == activation
      ensures kind == Dense ==> st.w == weights.Elems() && st.b == biases.Elems()
    {
      Stage(kind, inputSize, outputSize, activation, dropoutRate, isTraining,
            if weights != null then weights.Elems() else [],
            if biases != null then biases.Elems() else [])
    }

    /** The caches a backward pass reads, as values. */
    ghost function Remembered(): Memo
      reads this, ArrayOf(input), ArrayOf(gradInput)
      requires Valid()
    {
      Memo(input != null, if input != null then input.Elems() else [],
           kind == Dense && gradInput != null, if kind == Dense && gradInput != null then gradInput.Elems() else [])
    }

    /** The arrays Remembered reads: the dense input copy and the pre-activation. */
    ghost function MemoArrays(): set<array<real>>
      reads this
    {
      ArrayOf(input) + ArrayOf(gradInput)
    }

    /** A layer whose fields and remembered arrays stayed remembers what it did. */
    twostate lemma RememberedKept()
      requires old(Valid()) && unchanged(this) && unchanged(MemoArrays())
      ensures Valid() && Remembered() == old(Remembered())
    {
    }

    /** The output buffer is none of the arrays the layer remembers by. */
    lemma OutputNotMemo()
      requires Valid() && output != null
      ensures output.data !in MemoArrays()
    {
    }

    /** No parameter or gradient array of a layer is one of its caches. */
    lemma ParamsNotCached()
      requires Valid()
      ensures Params() !! Caches()
    {
    }

    /** The backward pass writes neither the weights nor the biases. */
    lemma ParamsOutsideBackward()
      requires Valid()
      ensures weights != null ==> weights.data !in BackwardFrame()
      ensures biases != null ==> biases.data !in BackwardFrame()
    {
    }

    /** A layer that kept its training flag and the values of its weights and biases computes what it did. */
    twostate lemma SnapshotKept()
      requires old(Valid()) && Valid() && isTraining == old(isTraining)
      requires weights != null ==> unchanged(weights.data)
      requires biases != null ==> unchanged(biases.data)
      ensures Snapshot() == old(Snapshot())
    {
    }

    /** dense_layer(in, out, act), with the rand()/RAND_MAX draws for the weights passed in. */
    constructor DenseLayer(inSize: nat, outSize: nat, act: int, draws: Grid, lm: Libm)
      requires Lawful(lm) && IsShape(draws, inSize, outSize)
      requires forall i, j :: 0 <= i < inSize && 0 <= j < outSize ==> 0.0 <= draws[i][j] <= 1.0
      ensures Valid() && kind == Dense && name == "dense" && !isTraining
      ensures inputSize == inSize && outputSize == outSize && activation == act
      ensures input == null && output == null && gradInput == null && mask == null
      ensures weights.Elems() == Uniform(-XavierLimit(inSize, outSize, lm), XavierLimit(inSize, outSize, lm), draws)
      ensures forall i, j :: 0 <= i < inSize && 0 <= j < outSize ==>
        -XavierLimit(inSize, outSize, lm) <= weights.Elems()[i][j] <= XavierLimit(inSize, outSize, lm)
      ensures biases.Elems() == Constant(1, outSize, 0.1)
      ensures gradWeights.Elems() == Zeros(inSize, outSize) && gradBiases.Elems() == Zeros(1, outSize)
      ensures forall a :: a in Arrays() ==> fresh(a)
    {
      kind, name, inputSize, outputSize, activation, dropoutRate := Dense, "dense", inSize, outSize, act, 0.0;
      var limit := XavierLimit(inSize, outSize, lm);
      var w := Drawn(inSize, outSize, limit, draws);
      var b := Filled(1, outSize, 0.1);
      var gw := Filled(inSize, outSize, 0.0);
      var gb := Filled(1, outSize, 0.0);
      weights, biases, gradWeights, gradBiases := w, b, gw, gb;
      isTraining, input, output, gradInput, mask := false, null, null, null, null;
    }

    /** dropout_layer(rate): no parameters, training mode on. */
    constructor DropoutLayer(rate: real)
      ensures Valid() && kind == Dropout && name == "dropout" && dropoutRate == rate && isTraining
      ensures inputSize == 0 && outputSize == 0 && activation == 0
      ensures weights == null && biases == null && gradWeights == null && gradBiases == null
      ensures input == null && output == null && gradInput == null && mask == null
    {
      kind, name, inputSize, outputSize, activation, dropoutRate := Dropout, "dropout", 0, 0, 0, rate;
      weights, biases, gradWeights, gradBiases := null, null, null, null;
      isTraining, input, output, gradInput, mask := true, null, null, null, null;
    }

    /** Makes the output on first use (the `if (!layer->output)` blocks of the forward passes). */
    method EnsureOutput(rows: nat, cols: nat)
      requires Valid() && Accepts(rows, cols)
      modifies this`output
      ensures Valid() && output != null && output.rows == rows && output.cols == OutCols(cols)
      ensures old(output) == null ==> fresh(output.data)
      ensures old(output) != null ==> output == old(output)
      ensures forall a :: a in Arrays() ==> a in old(Arrays()) || fresh(a)
    {
      if output == null {
        var made := new Matrix(rows, OutCols(cols));
        output := made;
      }
    }

    /** Replaces the cached input by a fresh copy of x (the first lines of the forward passes). */
    method KeepInput(x: Matrix)
      requires Valid() && x.Valid() && x.data !in Arrays() && output != null && output.rows == x.rows
      requires kind == Dense ==> x.cols == inputSize
      requires kind == Dropout ==> output.cols == x.cols
      modifies this`input
      ensures Valid() && x.data !in Arrays()
      ensures fresh(input) && fresh(input.data) && input.Elems() == x.Elems()
      ensures forall a :: a in Arrays() ==> a in old(Arrays()) || fresh(a)
    {
      var copy := CopyOf(x);
      input := copy;
    }

    /** Makes the buffer for the values before the activation on first use. */
    method EnsureCache()
      requires Valid() && kind == Dense && activation != 0 && output != null
      modifies this`gradInput
      ensures Valid() && gradInput != null
      ensures old(gradInput) == null ==> fresh(gradInput.data)
      ensures old(gradInput) != null ==> gradInput == old(gradInput)
      ensures forall a :: a in Arrays() ==> a in old(Arrays()) || fresh(a)
    {
      if gradInput == null {
        var made := new Matrix(output.rows, output.cols);
        gradInput := made;
      }
    }

    /** Makes the dropout mask on first use. */
    method EnsureMask()
      requires Valid() && kind == Dropout && output != null
      modifies this`mask
      ensures Valid() && mask != null
      ensures old(mask) == null ==> fresh(mask.data)
      ensures old(mask) != null ==> mask == old(mask)
      ensures forall a :: a in Arrays() ==> a in old(Arrays()) || fresh(a)
    {
      if mask == null {
        var made := new Matrix(output.rows, output.cols);
        mask := made;
      }
    }

    /** The buffer handling of dense_forward: output and pre-activation buffers on first use, a fresh input copy. */
    method PrepareDense(x: Matrix)
      requires Valid() && kind == Dense
      requires x.Valid() && x.data !in Arrays() && Accepts(x.rows, x.cols)
      modifies this`input, this`output, this`gradInput
      ensures Valid() && x.data !in Arrays()
      ensures fresh(input) && fresh(input.data) && input.Elems() == x.Elems()
      ensures output != null && output.rows == x.rows
      ensures old(output) == null ==> fresh(output.data)
      ensures old(output) != null ==> output == old(output)
      ensures activation != 0 ==> gradInput != null
      ensures old(gradInput) == null && gradInput != null ==> fresh(gradInput.data)
      ensures old(gradInput) != null ==> gradInput == old(gradInput)
      ensures forall a :: a in Arrays() ==> a in old(Arrays()) || fresh(a)
    {
      EnsureOutput(x.rows, x.cols);
      KeepInput(x);
      if activation != 0 {
        EnsureCache();
      }
    }

    /**
     * dense_forward: caches a fresh copy of x, makes the output on first use and
     * computes x·weights + biases into it.  With an activation, the values before
     * the activation are kept in gradInput and the output is activated in place.
     */
    method DenseForward(x: Matrix, lm: Libm)
      requires Valid() && kind == Dense && Lawful(lm)
      requires x.Valid() && x.data !in Arrays() && Accepts(x.rows, x.cols)
      modifies this, ForwardFrame()
      ensures Valid() && isTraining == old(isTraining) && mask == old(mask)
      ensures fresh(input) && fresh(input.data) && input.Elems() == old(x.Elems())
      ensures output != null && output.rows == x.rows
      ensures old(output) == null ==> fresh(output.data)
      ensures old(output) != null ==> output == old(output)
      ensures output.Elems() == Activated(Kind(activation), PreActivation(old(x.Elems()), x.rows), lm)
      ensures activation != 0 ==> gradInput != null && gradInput.Elems() == PreActivation(old(x.Elems()), x.rows)
      ensures old(gradInput) == null && gradInput != null ==> fresh(gradInput.data)
      ensures old(gradInput) != null ==> gradInput == old(gradInput)
      ensures forall a :: a in Arrays() ==> a in old(Arrays()) || fresh(a)
    {
      PrepareDense(x);
      DenseCompute(x, weights, biases, output, gradInput, activation, lm);
    }

    /** The gradient a dense layer's activation passes back for g, given the kept pre-activation values. */
    ghost function LocalGradient(g: Grid, lm: Libm): (h: Grid)
      reads this, ArrayOf(gradInput)
      requires Valid() && kind == Dense && Lawful(lm) && output != null && IsShape(g, output.rows, outputSize)
      ensures SameShape(g, h)
    {
      if gradInput != null then ActivationGradient(activation, g, gradInput.Elems(), lm) else g
    }

    /**
     * The weight gradient dense_backward computes for og from the cached input and
     * pre-activation values: inputᵀ·ag, where ag is og passed back through the activation.
     */
    ghost function WeightGradient(og: Grid, lm: Libm): Grid
      reads this, ArrayOf(input), ArrayOf(gradInput)
      requires Valid() && kind == Dense && Lawful(lm) && input != null && IsShape(og, output.rows, outputSize)
    {
      Product(Transposed(input.Elems(), input.rows, inputSize), LocalGradient(og, lm), inputSize, input.rows, outputSize)
    }

    /** The bias gradient dense_backward computes for og: the column sums of ag. */
    ghost function BiasGradient(og: Grid, lm: Libm): Grid
      reads this, ArrayOf(gradInput)
      requires Valid() && kind == Dense && Lawful(lm) && input != null && IsShape(og, output.rows, outputSize)
    {
      [ColumnSums(LocalGradient(og, lm), input.rows, outputSize)]
    }

    /**
     * dense_backward: nothing happens before a forward pass; otherwise the weight
     * gradient becomes inputᵀ·ag and the bias gradient the column sums of ag, where
     * ag is og passed back through the activation.
     */
    method DenseBackward(og: Matrix, lm: Libm)
      requires Valid() && kind == Dense && Lawful(lm)
      requires og.Valid() && og.data !in BackwardFrame()
      requires input != null ==> og.rows == input.rows && og.cols == outputSize
      modifies BackwardFrame()
      ensures input == null ==> gradWeights.Elems() == old(gradWeights.Elems()) && gradBiases.Elems() == old(gradBiases.Elems())
      ensures input != null ==>
        && gradWeights.Elems() == Product(Transposed(input.Elems(), input.rows, inputSize), LocalGradient(og.Elems(), lm), inputSize, input.rows, outputSize)
        && gradBiases.Elems() == [ColumnSums(LocalGradient(og.Elems(), lm), input.rows, outputSize)]
      ensures Remembered() == old(Remembered())
    {
      if input == null {
        return;
      }
      DenseGradients(input, og, gradInput, activation, gradWeights, gradBiases, lm);
    }

    /** dense_update: a plain gradient step on weights and biases, then both gradients are cleared. */
    method DenseUpdate(lr: real)
      requires Valid() && kind == Dense
      modifies Params()
      ensures weights.Elems() == SgdStep(old(weights.Elems()), old(gradWeights.Elems()), lr)
      ensures biases.Elems() == SgdStep(old(biases.Elems()), old(gradBiases.Elems()), lr)
      ensures gradWeights.Elems() == Zeros(inputSize, outputSize) && gradBiases.Elems() == Zeros(1, outputSize)
    {
      FlatSgd(weights, gradWeights, lr);
      FlatSgd(biases, gradBiases, lr);
      Fill(gradWeights, 0.0);
      Fill(gradBiases, 0.0);
    }

    /** The buffer handling of dropout_forward: output, and the mask when dropping, on first use; a fresh input copy. */
    method PrepareDropout(x: Matrix)
      requires Valid() && kind == Dropout
      requires x.Valid() && x.data !in Arrays() && Accepts(x.rows, x.cols)
      modifies this`input, this`output, this`mask
      ensures Valid() && x.data !in Arrays()
      ensures fresh(input) && fresh(input.data) && input.Elems() == x.Elems()
      ensures output != null && output.rows == x.rows && output.cols == x.cols
      ensures old(output) == null ==> fresh(output.data)
      ensures old(output) != null ==> output == old(output)
      ensures Drops() ==> mask != null
      ensures !Drops() ==> mask == old(mask)
      ensures old(mask) == null && mask != null ==> fresh(mask.data)
      ensures old(mask) != null ==> mask == old(mask)
      ensures forall a :: a in Arrays() ==> a in old(Arrays()) || fresh(a)
    {
      EnsureOutput(x.rows, x.cols);
      KeepInput(x);
      if Drops() {
        EnsureMask();
      }
    }

    /**
     * dropout_forward: caches a fresh copy of x and makes the output on first use.
     * In training with a positive rate, draws[k] < rate drops element k and every
     * other element is scaled by 1/(1 − rate), the mask recording 0 or the scale;
     * otherwise x is copied through and the mask is left alone.
     */
    method DropoutForward(x: Matrix, draws: seq<real>)
      requires Valid() && kind == Dropout
      requires x.Valid() && x.data !in Arrays() && Accepts(x.rows, x.cols)
      requires Drops() ==> dropoutRate != 1.0 && |draws| == x.rows * x.cols && x.FlatFits()
      modifies this, ForwardFrame()
      ensures Valid() && isTraining == old(isTraining) && gradInput == old(gradInput)
      ensures fresh(input) && fresh(input.data) && input.Elems() == old(x.Elems())
      ensures output != null && output.rows == x.rows && output.cols == x.cols
      ensures old(output) == null ==> fresh(output.data)
      ensures old(output) != null ==> output == old(output)
      ensures Drops() ==> mask != null && output.data[..] == Dropped(old(x.Flat()), draws, dropoutRate) && mask.data[..] == DropMask(draws, dropoutRate)
      ensures Drops() && old(mask) == null ==> fresh(mask.data)
      ensures old(mask) != null ==> mask == old(mask)
      ensures !Drops() ==> output.Elems() == old(x.Elems()) && mask == old(mask)
      ensures !Drops() && mask != null ==> mask.data[..] == old(mask.data[..])
      ensures forall a :: a in Arrays() ==> a in old(Arrays()) || fresh(a)
    {
      PrepareDropout(x);
      DropoutCompute(x, output, if Drops() then mask else null, draws, dropoutRate);
    }

    /**
     * dropout_backward: nothing happens before a training forward pass has made the
     * mask; otherwise the gradient buffer is made on first use and receives og
     * times the mask, element by element.
     */
    method DropoutBackward(og: Matrix)
      requires Valid() && kind == Dropout
      requires og.Valid() && og.data !in Arrays()
      requires input != null && mask != null ==> og.rows == output.rows && og.cols == output.cols && og.FlatFits()
      modifies this`gradInput, BackwardFrame()
      ensures Valid()
      ensures input == null || mask == null ==> gradInput == old(gradInput) && (gradInput != null ==> gradInput.data[..] == old(gradInput.data[..]))
      ensures input != null && mask != null ==> gradInput != null && gradInput.data[..] == Masked(old(og.Flat()), mask.data[..])
      ensures old(gradInput) == null && gradInput != null ==> fresh(gradInput.data)
      ensures old(gradInput) != null ==> gradInput == old(gradInput)
      ensures forall a :: a in Arrays() ==> a in old(Arrays()) || fresh(a)
      ensures Remembered() == old(Remembered())
    {
      if input == null || mask == null {
        return;
      }
      if gradInput == null {
        var made := new Matrix(og.rows, og.cols);
        gradInput := made;
      }
      MaskLoop(og, mask, gradInput);
    }

    /** Every array the layer holds exists. */
    lemma ArraysAllocated()
      ensures allocated(Arrays())
    {
    }

    /** The forward pass writes no parameter array. */
    lemma ParamsOutsideForward()
      requires Valid()
      ensures Params() !! ForwardFrame()
    {
    }

    /** layer->forward: the pass of the layer's kind, for a contiguous argument. */
    method Forward(x: Matrix, draws: seq<real>, lm: Libm)
      requires Valid() && Lawful(lm)
      requires x.Valid() && x.stride == x.cols && x.data !in Arrays() && Accepts(x.rows, x.cols)
      requires Drops() ==> dropoutRate != 1.0 && |draws| == x.rows * x.cols
      modifies this, ForwardFrame()
      ensures Valid() && isTraining == old(isTraining)
      ensures output != null && output.rows == x.rows && output.cols == OutCols(x.cols)
      ensures output.Elems() == StageOutput(Snapshot(), old(x.Elems()), x.rows, x.cols, draws, lm)
      ensures Snapshot() == old(Snapshot())
      ensures fresh(input) && fresh(input.data) && input.Elems() == old(x.Elems())
      ensures kind == Dense && activation != 0 ==> gradInput != null && gradInput.Elems() == PreActivation(old(x.Elems()), x.rows)
      ensures old(output) == null ==> fresh(output.data)
      ensures old(output) != null ==> output == old(output)
      ensures forall a :: a in Arrays() ==> a in old(Arrays()) || fresh(a)
    {
      x.ContiguousFlat();
      ParamsOutsideForward();
      ghost var st := Snapshot();
      if kind == Dense {
        DenseForward(x, lm);
        assert weights.Elems() == st.w && biases.Elems() == st.b;
      } else {
        DropoutForward(x, draws);
        if Drops() {
          OwnedLayout(output);
        }
      }
    }

    /**
     * The state a backward pass leaves for the output gradient og: a dense layer that
     * has seen an input holds inputᵀ·ag and the column sums of ag as its gradients;
     * a dropout layer with an input and a mask holds og times the mask.
     */
    ghost predicate BackwardDone(og: Grid, lm: Libm)
      reads this, Arrays()
      requires Valid() && Lawful(lm) && output != null && IsShape(og, output.rows, output.cols)
    {
      if kind == Dense then
        input != null ==>
          && gradWeights.Elems() == WeightGradient(og, lm)
          && gradBiases.Elems() == BiasGradient(og, lm)
      else
        input != null && mask != null ==>
          (FlattenSize(og, output.rows, output.cols);
           gradInput != null && gradInput.data[..] == Masked(Flatten(og), mask.data[..]))
    }

    /** layer->backward: the pass of the layer's kind, for a contiguous gradient of the output's shape. */
    method Backward(og: Matrix, lm: Libm)
      requires Valid() && Lawful(lm)
      requires og.Valid() && og.stride == og.cols && og.data !in Arrays()
      requires output != null ==> og.rows == output.rows && og.cols == output.cols
      modifies this`gradInput, BackwardFrame()
      ensures Valid()
      ensures output != null ==> BackwardDone(old(og.Elems()), lm)
      ensures kind == Dense && input == null ==> gradWeights.Elems() == old(gradWeights.Elems()) && gradBiases.Elems() == old(gradBiases.Elems())
      ensures kind == Dropout && (input == null || mask == null) ==>
        gradInput == old(gradInput) && (gradInput != null ==> gradInput.data[..] == old(gradInput.data[..]))
      ensures kind == Dense ==> gradInput == old(gradInput)
      ensures old(gradInput) == null && gradInput != null ==> fresh(gradInput.data)
      ensures old(gradInput) != null ==> gradInput == old(gradInput)
      ensures forall a :: a in Arrays() ==> a in old(Arrays()) || fresh(a)
      ensures Snapshot() == old(Snapshot())
      ensures Remembered() == old(Remembered())
    {
      ParamsOutsideBackward();
      og.ContiguousFlat();
      if kind == Dense {
        DenseBackward(og, lm);
      } else {
        DropoutBackward(og);
      }
      SnapshotKept();
    }

    /** layer->update: dense_update for a dense layer; a dropout layer has nothing to update. */
    method Update(lr: real)
      requires Valid()
      modifies Params()
      ensures kind == Dense ==>
        && weights.Elems() == SgdStep(old(weights.Elems()), old(gradWeights.Elems()), lr)
        && biases.Elems() == SgdStep(old(biases.Elems()), old(gradBiases.Elems()), lr)
        && gradWeights.Elems() == Zeros(inputSize, outputSize) && gradBiases.Elems() == Zeros(1, outputSize)
      ensures kind == Dropout ==> Params() == {}
    {
      if kind == Dense {
        DenseUpdate(lr);
      }
    }

    /** The arrays dense_free and dropout_free release, in the order they release them. */
    ghost function FreeOrder(): seq<array<real>>
      reads this
    {
      if kind == Dense then
        SeqOf(weights) + SeqOf(biases) + SeqOf(gradWeights) + SeqOf(gradBiases) + SeqOf(input) + SeqOf(output) + SeqOf(gradInput)
      else
        SeqOf(input) + SeqOf(output) + SeqOf(mask) + SeqOf(gradInput)
    }

    /** Freeing releases exactly the arrays the layer holds. */
    lemma FreeReleasesAll()
      requires Valid()
      ensures forall a :: a in FreeOrder() <==> a in Arrays()
    {
    }

    /** No array is released twice: the matrices of a valid layer have arrays of their own. */
    lemma FreeOrderDistinct()
      requires Valid()
      ensures Distinct(FreeOrder())
    {
      if kind == Dense {
        DenseFreeDistinct();
      } else {
        DropoutFreeDistinct();
      }
    }

    /** The dense case of FreeOrderDistinct. */
    lemma DenseFreeDistinct()
      requires Valid() && kind == Dense
      ensures Distinct(FreeOrder())
    {
      var s: seq<array<real>> := [];
      PushDistinct(s, weights); s := s + SeqOf(weights);
      PushDistinct(s, biases); s := s + SeqOf(biases);
      PushDistinct(s, gradWeights); s := s + SeqOf(gradWeights);
      PushDistinct(s, gradBiases); s := s + SeqOf(gradBiases);
      PushDistinct(s, input); s := s + SeqOf(input);
      PushDistinct(s, output); s := s + SeqOf(output);
      PushDistinct(s, gradInput);
    }

    /** The dropout case of FreeOrderDistinct. */
    lemma DropoutFreeDistinct()
      requires Valid() && kind == Dropout
      ensures Distinct(FreeOrder())
    {
      var s: seq<array<real>> := [];
      PushDistinct(s, input); s := s + SeqOf(input);
      PushDistinct(s, output); s := s + SeqOf(output);
      PushDistinct(s, mask); s := s + SeqOf(mask);
      PushDistinct(s, gradInput);
    }

    /** dense_free: weights, biases, their gradients and the three caches, each once. */
    method FreeDense() returns (released: seq<array<real>>)
      requires Valid() && kind == Dense
      ensures released == FreeOrder() && Distinct(released)
    {
      released := Release([], weights);
      assert released == SeqOf(weights);
      released := Release(released, biases);
      released := Release(released, gradWeights);
      released := Release(released, gradBiases);
      released := Release(released, input);
      released := Release(released, output);
      released := Release(released, gradInput);
    }

    /** dropout_free: the input and output caches, the mask and the gradient, each once. */
    method FreeDropout() returns (released: seq<array<real>>)
      requires Valid() && kind == Dropout
      ensures released == FreeOrder() && Distinct(released)
    {
      released := Release([], input);
      assert released == SeqOf(input);
      released := Release(released, output);
      released := Release(released, mask);
      released := Release(released, gradInput);
    }

    /**
     * dense_free and dropout_free: every matrix the layer holds is released once, in
     * the order the source frees them, each taking its own array with it.
     */
    method Free() returns (released: seq<array<real>>)
      requires Valid()
      ensures released == FreeOrder() && Distinct(released)
    {
      if kind == Dense {
        released := FreeDense();
      } else {
        released := FreeDropout();
      }
    }
  }
}