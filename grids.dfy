/**
 * Value-level matrices: the logical content of a matrix as a sequence of rows.
 * These functions are the specifications the in-place matrix routines are proved against.
 */
module Grids {
  import opened Numeric

  /** Rows of equal length; the logical elements of a rows × cols matrix. */
  type Grid = seq<seq<real>>

  predicate IsShape(g: Grid, r: nat, c: nat)
  {
    |g| == r && forall i :: 0 <= i < r ==> |g[i]| == c
  }

  predicate SameShape(g: Grid, h: Grid)
  {
    |g| == |h| && forall i :: 0 <= i < |g| ==> |g[i]| == |h[i]|
  }

  function Constant(r: nat, c: nat, v: real): (g: Grid)
    ensures IsShape(g, r, c)
  {
    seq(r, _ => seq(c, _ => v))
  }

  function Zeros(r: nat, c: nat): (g: Grid)
    ensures IsShape(g, r, c)
  {
    Constant(r, c, 0.0)
  }

  /** A row-major flat buffer of r·c values read back as a grid. */
  function FromFlat(s: seq<real>, r: nat, c: nat): (g: Grid)
    requires |s| == r * c
    ensures IsShape(g, r, c)
  {
    seq(r, (i: int) requires 0 <= i < r => seq(c, (j: int) requires 0 <= j < c => (RowMajorFits(i, j, r, c); s[i * c + j])))
  }

  /** The grid written out row after row. */
  function Flatten(g: Grid): (s: seq<real>)
  {
    if |g| == 0 then [] else Flatten(g[..|g| - 1]) + g[|g| - 1]
  }

  lemma RowMajorFits(i: nat, j: nat, r: nat, c: nat)
    requires i < r && j < c
    ensures i * c + j < r * c
  {
    assert i * c + j < i * c + c == (i + 1) * c;
    assert (i + 1) * c <= r * c;
  }

  /** The per-element transformations applied in place by the matrix routines. */
  datatype UnaryOp = SetTo(v: real) | ScaleBy(s: real) | Shift(s: real) | Apply(f: real -> real)

  function ApplyUnary(op: UnaryOp, x: real): real
  {
    match op
    case SetTo(v) => v
    case ScaleBy(s) => x * s
    case Shift(s) => x + s
    case Apply(f) => f(x)
  }

  /** Replace stands for a plain copy: the element takes the other operand's value. */
  datatype BinaryOp = Plus | Minus | Times | Replace

  function ApplyBinary(op: BinaryOp, x: real, y: real): real
  {
    match op
    case Plus => x + y
    case Minus => x - y
    case Times => x * y
    case Replace => y
  }

  function MapGrid(g: Grid, op: UnaryOp): (h: Grid)
    ensures SameShape(g, h)
  {
    seq(|g|, (i: int) requires 0 <= i < |g| =>
      seq(|g[i]|, (j: int) requires 0 <= j < |g[i]| => ApplyUnary(op, g[i][j])))
  }

  function ZipGrid(g: Grid, h: Grid, op: BinaryOp): (z: Grid)
    requires SameShape(g, h)
    ensures SameShape(g, z)
  {
    seq(|g|, (i: int) requires 0 <= i < |g| =>
      seq(|g[i]|, (j: int) requires 0 <= j < |g[i]| => ApplyBinary(op, g[i][j], h[i][j])))
  }

  /** Sum of a sequence, accumulated front to back. */
  function SeqSum(s: seq<real>): real
  {
    if |s| == 0 then 0.0 else SeqSum(s[..|s| - 1]) + s[|s| - 1]
  }

  /** Σ_k u[k]·v[k], accumulated front to back. */
  function Dot(u: seq<real>, v: seq<real>): real
    requires |u| == |v|
  {
    if |u| == 0 then 0.0 else Dot(u[..|u| - 1], v[..|v| - 1]) + u[|u| - 1] * v[|v| - 1]
  }

  /** One more term of a dot product: the running sum's step. */
  lemma DotStep(u: seq<real>, v: seq<real>, k: nat, x: real, y: real)
    requires |u| == |v| && k < |u| && x == u[k] && y == v[k]
    ensures Dot(u[..k + 1], v[..k + 1]) == Dot(u[..k], v[..k]) + x * y
  {
    assert u[..k + 1][..k] == u[..k] && v[..k + 1][..k] == v[..k];
  }

  /** One more term of a running sum. */
  lemma SumStep(s: seq<real>, k: nat, x: real)
    requires k < |s| && x == s[k]
    ensures SeqSum(s[..k + 1]) == SeqSum(s[..k]) + x
  {
    assert s[..k + 1][..k] == s[..k];
  }

  /** One more row of a grid total. */
  lemma SumAllStep(g: Grid, i: nat, x: real)
    requires i < |g| && x == SeqSum(g[i])
    ensures SumAll(g[..i + 1]) == SumAll(g[..i]) + x
  {
    assert g[..i + 1][..i] == g[..i];
  }

  function Column(g: Grid, j: nat): (col: seq<real>)
    requires forall k :: 0 <= k < |g| ==> j < |g[k]|
    ensures |col| == |g|
  {
    seq(|g|, (k: int) requires 0 <= k < |g| => g[k][j])
  }

  /** The standard matrix product of an r × n and an n × c matrix. */
  function Product(a: Grid, b: Grid, r: nat, n: nat, c: nat): (p: Grid)
    requires IsShape(a, r, n) && IsShape(b, n, c)
    ensures IsShape(p, r, c)
  {
    seq(r, (i: int) requires 0 <= i < r =>
      seq(c, (j: int) requires 0 <= j < c => Dot(a[i], Column(b, j))))
  }

  function Transposed(g: Grid, r: nat, c: nat): (t: Grid)
    requires IsShape(g, r, c)
    ensures IsShape(t, c, r)
  {
    seq(c, (j: int) requires 0 <= j < c => seq(r, (i: int) requires 0 <= i < r => g[i][j]))
  }

  /** Sum of every element, row after row. */
  function SumAll(g: Grid): real
  {
    if |g| == 0 then 0.0 else SumAll(g[..|g| - 1]) + SeqSum(g[|g| - 1])
  }

  /** Column sums of an r × c matrix, as one row. */
  function ColumnSums(g: Grid, r: nat, c: nat): (s: seq<real>)
    requires IsShape(g, r, c)
    ensures |s| == c
  {
    seq(c, (j: int) requires 0 <= j < c => SeqSum(Column(g, j)))
  }

  /** Adds bias[j] to column j of every row. */
  function AddRowToEach(g: Grid, bias: seq<real>): (h: Grid)
    requires forall i :: 0 <= i < |g| ==> |g[i]| <= |bias|
    ensures SameShape(g, h)
  {
    seq(|g|, (i: int) requires 0 <= i < |g| =>
      seq(|g[i]|, (j: int) requires 0 <= j < |g[i]| => g[i][j] + bias[j]))
  }

  /** Same shape, and every pair of corresponding elements differs by at most tol. */
  predicate Within(g: Grid, h: Grid, tol: real)
  {
    SameShape(g, h) && forall i, j :: 0 <= i < |g| && 0 <= j < |g[i]| ==> Abs(g[i][j] - h[i][j]) <= tol
  }

  /** `x` is an element of `g` that no element of `g` exceeds. */
  ghost predicate IsMaxOf(g: Grid, x: real)
  {
    (exists i, j :: 0 <= i < |g| && 0 <= j < |g[i]| && g[i][j] == x)
    && forall i, j :: 0 <= i < |g| && 0 <= j < |g[i]| ==> g[i][j] <= x
  }

  /** `x` is an element of `g` that is no larger than any element of `g`. */
  ghost predicate IsMinOf(g: Grid, x: real)
  {
    (exists i, j :: 0 <= i < |g| && 0 <= j < |g[i]| && g[i][j] == x)
    && forall i, j :: 0 <= i < |g| && 0 <= j < |g[i]| ==> x <= g[i][j]
  }

  /** Two grids with the same shape and the same elements are the same grid. */
  lemma Extensionality(g: Grid, h: Grid)
    requires SameShape(g, h)
    requires forall i, j :: 0 <= i < |g| && 0 <= j < |g[i]| ==> g[i][j] == h[i][j]
    ensures g == h
  {
    forall i | 0 <= i < |g| ensures g[i] == h[i] {
      assert |g[i]| == |h[i]|;
    }
  }

  lemma {:induction false} DotCommutes(u: seq<real>, v: seq<real>)
    requires |u| == |v|
    ensures Dot(u, v) == Dot(v, u)
  {
    if |u| > 0 {
      DotCommutes(u[..|u| - 1], v[..|v| - 1]);
    }
  }

  /** Transposing twice gives back the matrix. */
  lemma TransposeTwice(g: Grid, r: nat, c: nat)
    requires IsShape(g, r, c)
    ensures Transposed(Transposed(g, r, c), c, r) == g
  {
    Extensionality(Transposed(Transposed(g, r, c), c, r), g);
  }

  /** (A·B)ᵀ = Bᵀ·Aᵀ. */
  lemma TransposeOfProduct(a: Grid, b: Grid, r: nat, n: nat, c: nat)
    requires IsShape(a, r, n) && IsShape(b, n, c)
    ensures Transposed(Product(a, b, r, n, c), r, c) == Product(Transposed(b, n, c), Transposed(a, r, n), c, n, r)
  {
    var lhs := Transposed(Product(a, b, r, n, c), r, c);
    var bt, at := Transposed(b, n, c), Transposed(a, r, n);
    var rhs := Product(bt, at, c, n, r);
    forall j, i | 0 <= j < c && 0 <= i < r ensures lhs[j][i] == rhs[j][i] {
      assert bt[j] == Column(b, j);
      assert Column(at, i) == a[i];
      DotCommutes(a[i], Column(b, j));
    }
    Extensionality(lhs, rhs);
  }

  /** The worked product [[1,2,3],[4,5,6]] × [[7,8],[9,10],[11,12]] = [[58,64],[139,154]]. */
  lemma ProductExample()
    ensures Product([[1.0, 2.0, 3.0], [4.0, 5.0, 6.0]], [[7.0, 8.0], [9.0, 10.0], [11.0, 12.0]], 2, 3, 2)
         == [[58.0, 64.0], [139.0, 154.0]]
  {
    var a := [[1.0, 2.0, 3.0], [4.0, 5.0, 6.0]];
    var b := [[7.0, 8.0], [9.0, 10.0], [11.0, 12.0]];
    var p := Product(a, b, 2, 3, 2);
    assert Column(b, 0) == [7.0, 9.0, 11.0];
    assert Column(b, 1) == [8.0, 10.0, 12.0];
    assert Dot([1.0, 2.0, 3.0], [7.0, 9.0, 11.0]) == 58.0 by {
      assert [1.0, 2.0, 3.0][..2] == [1.0, 2.0] && [7.0, 9.0, 11.0][..2] == [7.0, 9.0];
      assert [1.0, 2.0][..1] == [1.0] && [7.0, 9.0][..1] == [7.0];
    }
    assert Dot([1.0, 2.0, 3.0], [8.0, 10.0, 12.0]) == 64.0 by {
      assert [1.0, 2.0, 3.0][..2] == [1.0, 2.0] && [8.0, 10.0, 12.0][..2] == [8.0, 10.0];
      assert [1.0, 2.0][..1] == [1.0] && [8.0, 10.0][..1] == [8.0];
    }
    assert Dot([4.0, 5.0, 6.0], [7.0, 9.0, 11.0]) == 139.0 by {
      assert [4.0, 5.0, 6.0][..2] == [4.0, 5.0] && [7.0, 9.0, 11.0][..2] == [7.0, 9.0];
      assert [4.0, 5.0][..1] == [4.0] && [7.0, 9.0][..1] == [7.0];
    }
    assert Dot([4.0, 5.0, 6.0], [8.0, 10.0, 12.0]) == 154.0 by {
      assert [4.0, 5.0, 6.0][..2] == [4.0, 5.0] && [8.0, 10.0, 12.0][..2] == [8.0, 10.0];
      assert [4.0, 5.0][..1] == [4.0] && [8.0, 10.0][..1] == [8.0];
    }
    Extensionality(p, [[58.0, 64.0], [139.0, 154.0]]);
  }

  /** Adding h and then subtracting it gives back g. */
  lemma AddThenSubtract(g: Grid, h: Grid)
    requires SameShape(g, h)
    ensures ZipGrid(ZipGrid(g, h, Plus), h, Minus) == g
  {
    Extensionality(ZipGrid(ZipGrid(g, h, Plus), h, Minus), g);
  }

  /** Scaling by s and then by 1/s gives back g. */
  lemma ScaleThenUnscale(g: Grid, s: real)
    requires s != 0.0
    ensures MapGrid(MapGrid(g, ScaleBy(s)), ScaleBy(1.0 / s)) == g
  {
    var h := MapGrid(MapGrid(g, ScaleBy(s)), ScaleBy(1.0 / s));
    forall i, j | 0 <= i < |g| && 0 <= j < |g[i]| ensures h[i][j] == g[i][j] {
      assert h[i][j] == (g[i][j] * s) * (1.0 / s);
    }
    Extensionality(h, g);
  }

  /** Shifting by s and then by -s gives back g. */
  lemma ShiftThenUnshift(g: Grid, s: real)
    ensures MapGrid(MapGrid(g, Shift(s)), Shift(-s)) == g
  {
    Extensionality(MapGrid(MapGrid(g, Shift(s)), Shift(-s)), g);
  }

  /** With tolerance 0, "equal within tolerance" is plain equality. */
  lemma WithinZeroIsEquality(g: Grid, h: Grid)
    requires SameShape(g, h)
    ensures Within(g, h, 0.0) <==> g == h
  {
    if Within(g, h, 0.0) {
      forall i, j | 0 <= i < |g| && 0 <= j < |g[i]| ensures g[i][j] == h[i][j] {
        assert Abs(g[i][j] - h[i][j]) <= 0.0;
      }
      Extensionality(g, h);
    }
  }

  /** Reading a row-major buffer as a grid and writing it out again gives back the buffer. */
  lemma {:induction false} FlattenFromFlat(s: seq<real>, r: nat, c: nat)
    requires |s| == r * c
    ensures Flatten(FromFlat(s, r, c)) == s
  {
    if r > 0 {
      var g := FromFlat(s, r, c);
      var n := (r - 1) * c;
      assert n + c == r * c;
      var front := s[..n];
      FlattenFromFlat(front, r - 1, c);
      assert g[..r - 1] == FromFlat(front, r - 1, c) by {
        forall i, j | 0 <= i < r - 1 && 0 <= j < c ensures g[i][j] == FromFlat(front, r - 1, c)[i][j] {
          RowMajorFits(i, j, r - 1, c);
        }
        Extensionality(g[..r - 1], FromFlat(front, r - 1, c));
      }
      assert g[r - 1] == s[n..] by {
        forall j | 0 <= j < c ensures g[r - 1][j] == s[n..][j] {
          assert (r - 1) * c + j == n + j;
        }
      }
      assert s == front + s[n..];
    }
  }

  /** A rows × cols grid written out has rows·cols values. */
  lemma {:induction false} FlattenSize(g: Grid, r: nat, c: nat)
    requires IsShape(g, r, c)
    ensures |Flatten(g)| == r * c
  {
    if r > 0 {
      FlattenSize(g[..r - 1], r - 1, c);
    }
  }

  /** The worked reductions: [[1,2,3],[4,5,6]] sums to 21, its largest element is 6 and its smallest 1. */
  lemma ReductionExample()
    ensures SumAll([[1.0, 2.0, 3.0], [4.0, 5.0, 6.0]]) == 21.0
    ensures IsMaxOf([[1.0, 2.0, 3.0], [4.0, 5.0, 6.0]], 6.0)
    ensures IsMinOf([[1.0, 2.0, 3.0], [4.0, 5.0, 6.0]], 1.0)
  {
    var g: Grid := [[1.0, 2.0, 3.0], [4.0, 5.0, 6.0]];
    assert g[..1] == [[1.0, 2.0, 3.0]] && |g[..1][..0]| == 0;
    assert [1.0, 2.0, 3.0][..2] == [1.0, 2.0] && [1.0, 2.0][..1] == [1.0];
    assert [4.0, 5.0, 6.0][..2] == [4.0, 5.0] && [4.0, 5.0][..1] == [4.0];
    assert SeqSum([1.0, 2.0, 3.0]) == 6.0;
    assert SeqSum([4.0, 5.0, 6.0]) == 15.0;
    assert SumAll(g[..1]) == 6.0;
    assert g[1][2] == 6.0 && g[0][0] == 1.0;
  }
}
