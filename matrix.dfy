/**
 * The strided matrix of src/matrix.c.
 *
 * A matrix is a window on a shared array of floats: element (i, j) lives at
 * data[offset + i * stride + j].  An owned matrix has offset 0 and stride = cols;
 * a view shares its parent's array and stride.  The layout fields never change
 * after creation, so every operation changes only the array, and an operation on
 * one matrix changes nothing outside its own window of that array.
 */
module Matrices {
  import opened Grids
  import opened Numeric

  lemma MulMono(a: nat, b: nat, c: nat)
    requires a <= b
    ensures a * c <= b * c
  {
  }

  class Matrix {
    const data: array<real>
    /** Where element (0, 0) sits in `data` (the C pointer `data` of a view points here). */
    const offset: nat
    const rows: nat
    const cols: nat
    const stride: nat
    const isView: bool

    /** Every element of the window lies inside the array. */
    predicate Valid()
    {
      cols <= stride && (rows > 0 ==> offset + (rows - 1) * stride + cols <= data.Length)
    }

    function RowStart(i: nat): nat
    {
      offset + i * stride
    }

    function Index(i: nat, j: nat): nat
    {
      RowStart(i) + j
    }

    lemma RowFits(i: nat)
      requires Valid() && i < rows
      ensures RowStart(i) + cols <= data.Length
    {
      MulMono(i, rows - 1, stride);
    }

    /** Every cell of the window lies inside the array. */
    lemma CellsFit()
      requires Valid()
      ensures forall i, j :: 0 <= i < rows && 0 <= j < cols ==> Index(i, j) < data.Length
    {
      forall i, j | 0 <= i < rows && 0 <= j < cols
        ensures Index(i, j) < data.Length
      {
        RowFits(i);
      }
    }

    /** An earlier row ends before a later row begins. */
    lemma RowsInOrder(a: nat, b: nat)
      requires Valid() && a < b
      ensures RowStart(a) + cols <= RowStart(b)
    {
      MulMono(a + 1, b, stride);
      assert (a + 1) * stride == a * stride + stride;
    }

    /** Row i's cells do not meet any other row's cells. */
    lemma OtherRowsOutside(i: nat)
      requires Valid() && i < rows
      ensures forall ii, jj :: 0 <= ii < rows && 0 <= jj < cols && ii != i ==>
                Index(ii, jj) < RowStart(i) || RowStart(i) + cols <= Index(ii, jj)
    {
      forall ii, jj | 0 <= ii < rows && 0 <= jj < cols && ii != i
        ensures Index(ii, jj) < RowStart(i) || RowStart(i) + cols <= Index(ii, jj)
      {
        if ii < i {
          RowsInOrder(ii, i);
        } else {
          RowsInOrder(i, ii);
        }
      }
    }

    /** Distinct cells occupy distinct places in the array. */
    lemma CellsDistinct(i: nat, j: nat)
      requires Valid() && i < rows && j < cols
      ensures forall ii, jj :: 0 <= ii < rows && 0 <= jj < cols && (ii != i || jj != j) ==> Index(ii, jj) != Index(i, j)
    {
      OtherRowsOutside(i);
    }

    function At(i: nat, j: nat): real
      reads data
      requires Valid() && i < rows && j < cols
    {
      RowFits(i);
      data[Index(i, j)]
    }

    /** The logical contents, row by row. */
    ghost function Elems(): (g: Grid)
      reads data
      requires Valid()
      ensures IsShape(g, rows, cols)
    {
      seq(rows, (i: int) reads data requires 0 <= i < rows =>
        seq(cols, (j: int) reads data requires 0 <= j < cols => At(i, j)))
    }

    /** Element (i, j) of the contents is the cell at Index(i, j). */
    lemma ElemIs(i: nat, j: nat)
      requires Valid() && i < rows && j < cols
      ensures Index(i, j) < data.Length && Elems()[i][j] == At(i, j) == data[Index(i, j)]
    {
      RowFits(i);
    }

    /** Row i as a slice of the array. */
    lemma RowSlice(i: nat)
      requires Valid() && i < rows
      ensures RowStart(i) + cols <= data.Length
      ensures Elems()[i] == data[RowStart(i)..RowStart(i) + cols]
    {
      RowFits(i);
    }

    /** The rows·cols positions from element (0, 0) on lie inside the array. */
    predicate FlatFits()
    {
      rows * cols == 0 || offset + rows * cols <= data.Length
    }

    /** The rows·cols consecutive values from element (0, 0) on, whatever the stride. */
    function Flat(): (s: seq<real>)
      reads data
      requires FlatFits()
      ensures |s| == rows * cols
    {
      Span(rows * cols)
    }

    /** The n consecutive values from element (0, 0) on, whatever the stride. */
    function Span(n: nat): (s: seq<real>)
      reads data
      requires n == 0 || offset + n <= data.Length
      ensures |s| == n
    {
      if n == 0 then [] else data[offset..offset + n]
    }

    /** Without padding between rows, cell (i, j) is flat position i·cols + j. */
    lemma ContiguousIndex()
      requires Valid() && stride == cols
      ensures FlatFits()
      ensures forall i, j :: 0 <= i < rows && 0 <= j < cols ==> i * cols + j < rows * cols && Index(i, j) == offset + (i * cols + j)
    {
      if rows > 0 {
        assert (rows - 1) * stride + cols == rows * cols;
      }
      forall i, j | 0 <= i < rows && 0 <= j < cols
        ensures i * cols + j < rows * cols && Index(i, j) == offset + (i * cols + j)
      {
        RowMajorFits(i, j, rows, cols);
      }
    }

    /** Without padding between rows, the elements are the rows·cols values from (0, 0) on. */
    lemma Contiguous()
      requires Valid() && stride == cols
      ensures FlatFits()
      ensures forall i, j :: 0 <= i < rows && 0 <= j < cols ==> i * cols + j < rows * cols && Index(i, j) == offset + (i * cols + j)
      ensures Elems() == FromFlat(Flat(), rows, cols)
    {
      ContiguousIndex();
      var e, f, flat := Elems(), FromFlat(Flat(), rows, cols), Flat();
      forall i, j | 0 <= i < rows && 0 <= j < cols
        ensures e[i][j] == f[i][j]
      {
        var k := i * cols + j;
        assert k < rows * cols && Index(i, j) == offset + k;
        calc {
          e[i][j];
        ==
          At(i, j);
        ==
          data[offset + k];
        ==
          flat[k];
        ==
          f[i][j];
        }
      }
      Extensionality(e, f);
    }

    /** Without padding between rows, the flat values are the elements written out row by row. */
    lemma ContiguousFlat()
      requires Valid() && stride == cols
      ensures FlatFits() && Flat() == Flatten(Elems())
    {
      Contiguous();
      FlattenFromFlat(Flat(), rows, cols);
    }

    /** Position k of the array belongs to this matrix's window. */
    ghost predicate InRegion(k: int)
    {
      exists i, j :: 0 <= i < rows && 0 <= j < cols && k == Index(i, j)
    }

    /** Every position of row i's span belongs to the window. */
    lemma RowInRegion(i: nat)
      requires i < rows
      ensures forall k :: RowStart(i) <= k < RowStart(i) + cols ==> InRegion(k)
    {
      forall k | RowStart(i) <= k < RowStart(i) + cols ensures InRegion(k) {
        assert k == Index(i, k - RowStart(i));
      }
    }

    /** Every position of the array outside the window still holds what `d0` holds. */
    ghost predicate SameOutside(d0: seq<real>)
      reads data
    {
      |d0| == data.Length && forall k :: 0 <= k < data.Length && !InRegion(k) ==> data[k] == d0[k]
    }

    /** An owned rows × cols matrix, zero-filled (calloc). */
    constructor (r: nat, c: nat)
      ensures Valid() && rows == r && cols == c && stride == c && offset == 0 && !isView
      ensures fresh(data) && data.Length == r * c
      ensures Elems() == Zeros(r, c)
    {
      rows, cols, stride, offset, isView := r, c, c, 0, false;
      data := new real[r * c](_ => 0.0);
      new;
      if r > 0 {
        MulMono(r - 1, r, c);
      }
      Extensionality(Elems(), Zeros(r, c));
    }

    /**
     * A rows × cols window of `src` whose (0, 0) is src's (rowStart, colStart).
     * It shares src's array and stride, so writes through it are writes to src.
     */
    constructor View(src: Matrix, rowStart: nat, colStart: nat, r: nat, c: nat)
      requires src.Valid()
      requires rowStart + r <= src.rows && colStart + c <= src.cols
      ensures Valid() && isView && data == src.data && stride == src.stride && rows == r && cols == c
      ensures forall i, j :: 0 <= i < r && 0 <= j < c ==> Index(i, j) == src.Index(rowStart + i, colStart + j)
      ensures Elems() == SubGrid(src.Elems(), rowStart, colStart, r, c)
    {
      rows, cols, stride, isView := r, c, src.stride, true;
      data := src.data;
      offset := src.offset + rowStart * src.stride + colStart;
      new;
      if r > 0 {
        MulMono(rowStart + r - 1, src.rows - 1, stride);
      }
      forall i, j | 0 <= i < r && 0 <= j < c
        ensures Index(i, j) == src.Index(rowStart + i, colStart + j)
      {
        assert (rowStart + i) * stride == rowStart * stride + i * stride;
      }
      Extensionality(Elems(), SubGrid(src.Elems(), rowStart, colStart, r, c));
    }

    /** Applies `op` to every element in place; nothing outside the window changes. */
    method MapInPlace(op: UnaryOp)
      requires Valid()
      modifies data
      ensures Elems() == MapGrid(old(Elems()), op)
      ensures SameOutside(old(data[..]))
    {
      ghost var e0 := Elems();
      ghost var d0 := data[..];
      CellsFit();
      var i := 0;
      while i < rows
        invariant i <= rows
        invariant forall ii, jj :: 0 <= ii < i && 0 <= jj < cols ==> data[Index(ii, jj)] == ApplyUnary(op, e0[ii][jj])
        invariant forall ii, jj :: i <= ii < rows && 0 <= jj < cols ==> data[Index(ii, jj)] == e0[ii][jj]
        invariant SameOutside(d0)
      {
        RowFits(i);
        ghost var dr := data[..];
        var j := 0;
        while j < cols
          invariant j <= cols
          invariant forall jj :: 0 <= jj < j ==> data[Index(i, jj)] == ApplyUnary(op, e0[i][jj])
          invariant forall k :: 0 <= k < data.Length && !(RowStart(i) <= k < RowStart(i) + j) ==> data[k] == dr[k]
          invariant SameOutside(d0)
        {
          data[Index(i, j)] := ApplyUnary(op, data[Index(i, j)]);
          j := j + 1;
        }
        OtherRowsOutside(i);
        i := i + 1;
      }
      Extensionality(Elems(), MapGrid(e0, op));
    }

    /** Overwrites every element with the matching element of g; nothing outside the window changes. */
    method Load(g: Grid)
      requires Valid() && IsShape(g, rows, cols)
      modifies data
      ensures Elems() == g
      ensures SameOutside(old(data[..]))
    {
      ghost var d0 := data[..];
      CellsFit();
      var i := 0;
      while i < rows
        invariant i <= rows
        invariant forall ii, jj :: 0 <= ii < i && 0 <= jj < cols ==> data[Index(ii, jj)] == g[ii][jj]
        invariant SameOutside(d0)
      {
        RowFits(i);
        ghost var dr := data[..];
        var j := 0;
        while j < cols
          invariant j <= cols
          invariant forall jj :: 0 <= jj < j ==> data[Index(i, jj)] == g[i][jj]
          invariant forall k :: 0 <= k < data.Length && !(RowStart(i) <= k < RowStart(i) + j) ==> data[k] == dr[k]
          invariant SameOutside(d0)
        {
          data[Index(i, j)] := g[i][j];
          j := j + 1;
        }
        OtherRowsOutside(i);
        i := i + 1;
      }
      Extensionality(Elems(), g);
    }

    /**
     * Combines every element with the matching element of b, in place.  b is this
     * matrix itself or shares no cell with it, and b's elements do not change.
     */
    method ZipInPlace(b: Matrix, op: BinaryOp)
      requires Valid() && b.Valid() && b.rows == rows && b.cols == cols
      requires this == b || Disjoint(this, b)
      modifies data
      ensures Elems() == ZipGrid(old(Elems()), old(b.Elems()), op)
      ensures this != b ==> b.Elems() == old(b.Elems())
      ensures SameOutside(old(data[..]))
    {
      ghost var e0 := Elems();
      ghost var eb := b.Elems();
      ghost var d0 := data[..];
      CellsFit();
      b.CellsFit();
      var i := 0;
      while i < rows
        invariant i <= rows
        invariant forall ii, jj :: 0 <= ii < i && 0 <= jj < cols ==> data[Index(ii, jj)] == ApplyBinary(op, e0[ii][jj], eb[ii][jj])
        invariant forall ii, jj :: i <= ii < rows && 0 <= jj < cols ==> data[Index(ii, jj)] == e0[ii][jj]
        invariant this != b ==> forall ii, jj :: 0 <= ii < rows && 0 <= jj < cols ==> b.data[b.Index(ii, jj)] == eb[ii][jj]
        invariant SameOutside(d0)
      {
        ZipRow(i, b, op);
        OtherRowsOutside(i);
        RowInRegion(i);
        i := i + 1;
      }
      Extensionality(Elems(), ZipGrid(e0, eb, op));
      if this != b {
        Extensionality(b.Elems(), eb);
      }
    }

    /** Row i of `ZipInPlace`: only row i's cells are written, and b's cells keep their values. */
    method ZipRow(i: nat, b: Matrix, op: BinaryOp)
      requires Valid() && b.Valid() && b.rows == rows && b.cols == cols && i < rows
      requires this == b || Disjoint(this, b)
      modifies data
      ensures RowStart(i) + cols <= data.Length && b.RowStart(i) + cols <= b.data.Length
      ensures forall jj :: 0 <= jj < cols ==>
        data[Index(i, jj)] == ApplyBinary(op, old(data[Index(i, jj)]), old(b.data[b.Index(i, jj)]))
      ensures forall k :: 0 <= k < data.Length && !(RowStart(i) <= k < RowStart(i) + cols) ==> data[k] == old(data[k])
      ensures this != b ==> forall ii, jj :: 0 <= ii < rows && 0 <= jj < cols ==> b.data[b.Index(ii, jj)] == old(b.data[b.Index(ii, jj)])
    {
      RowFits(i);
      b.RowFits(i);
      b.CellsFit();
      ghost var dr := data[..];
      ghost var br := b.data[..];
      var j := 0;
      while j < cols
        invariant j <= cols
        invariant forall jj :: 0 <= jj < j ==> data[Index(i, jj)] == ApplyBinary(op, dr[Index(i, jj)], br[b.Index(i, jj)])
        invariant forall k :: 0 <= k < data.Length && !(RowStart(i) <= k < RowStart(i) + j) ==> data[k] == dr[k]
        invariant this != b ==> forall ii, jj :: 0 <= ii < rows && 0 <= jj < cols ==> b.data[b.Index(ii, jj)] == br[b.Index(ii, jj)]
      {
        var y := b.data[b.Index(i, j)];
        data[Index(i, j)] := ApplyBinary(op, data[Index(i, j)], y);
        j := j + 1;
      }
    }
  }

  /** a and b live in different arrays, or no cell of a is a cell of b. */
  ghost predicate Disjoint(a: Matrix, b: Matrix)
  {
    a.data != b.data ||
    forall i, j, ii, jj :: 0 <= i < a.rows && 0 <= j < a.cols && 0 <= ii < b.rows && 0 <= jj < b.cols ==>
      a.Index(i, j) != b.Index(ii, jj)
  }

  /** A matrix made by matrix_create: its own array, no offset, no padding between rows. */
  predicate Owned(m: Matrix)
  {
    m.Valid() && !m.isView && m.offset == 0 && m.stride == m.cols && m.data.Length == m.rows * m.cols
  }

  /** The array of an owned matrix holds its elements in row-major order, and nothing else. */
  lemma OwnedLayout(m: Matrix)
    requires Owned(m)
    ensures m.Flat() == m.data[..]
    ensures forall i, j :: 0 <= i < m.rows && 0 <= j < m.cols ==> i * m.cols + j < m.rows * m.cols && m.Index(i, j) == i * m.cols + j
    ensures m.Elems() == FromFlat(m.data[..], m.rows, m.cols)
  {
    m.Contiguous();
  }

  /** matrix_free: a matrix releases its array only when it is not a view. */
  method Free(m: Matrix) returns (releasesBuffer: bool)
    ensures releasesBuffer <==> !m.isView
  {
    releasesBuffer := !m.isView;
  }

  /**
   * matrix_copy: with equal shapes, dst takes src's elements (each read through its
   * own stride); with different shapes nothing is written.
   */
  method Copy(dst: Matrix, src: Matrix)
    requires dst.Valid() && src.Valid()
    requires dst == src || Disjoint(dst, src)
    modifies dst.data
    ensures dst.rows == src.rows && dst.cols == src.cols ==> dst.Elems() == old(src.Elems())
    ensures !(dst.rows == src.rows && dst.cols == src.cols) ==> dst.data[..] == old(dst.data[..])
    ensures dst != src ==> src.Elems() == old(src.Elems())
    ensures dst.SameOutside(old(dst.data[..]))
  {
    if dst.rows == src.rows && dst.cols == src.cols {
      dst.ZipInPlace(src, Replace);
      Extensionality(dst.Elems(), old(src.Elems()));
    }
  }

  method Fill(m: Matrix, value: real)
    requires m.Valid()
    modifies m.data
    ensures m.Elems() == Constant(m.rows, m.cols, value)
    ensures m.SameOutside(old(m.data[..]))
  {
    m.MapInPlace(SetTo(value));
    Extensionality(m.Elems(), Constant(m.rows, m.cols, value));
  }

  /** matrix_random_uniform, with the rand()/RAND_MAX draws (each in [0, 1]) passed in. */
  method RandomUniform(m: Matrix, min: real, max: real, draws: Grid)
    requires m.Valid() && IsShape(draws, m.rows, m.cols)
    requires forall i, j :: 0 <= i < m.rows && 0 <= j < m.cols ==> 0.0 <= draws[i][j] <= 1.0
    modifies m.data
    ensures m.Elems() == Uniform(min, max, draws)
    ensures m.SameOutside(old(m.data[..]))
  {
    m.Load(Uniform(min, max, draws));
  }

  method Add(a: Matrix, b: Matrix)
    requires a.Valid() && b.Valid() && a.rows == b.rows && a.cols == b.cols
    requires a == b || Disjoint(a, b)
    modifies a.data
    ensures a.Elems() == ZipGrid(old(a.Elems()), old(b.Elems()), Plus)
    ensures a != b ==> b.Elems() == old(b.Elems())
    ensures a.SameOutside(old(a.data[..]))
  {
    a.ZipInPlace(b, Plus);
  }

  method Subtract(a: Matrix, b: Matrix)
    requires a.Valid() && b.Valid() && a.rows == b.rows && a.cols == b.cols
    requires a == b || Disjoint(a, b)
    modifies a.data
    ensures a.Elems() == ZipGrid(old(a.Elems()), old(b.Elems()), Minus)
    ensures a != b ==> b.Elems() == old(b.Elems())
    ensures a.SameOutside(old(a.data[..]))
  {
    a.ZipInPlace(b, Minus);
  }

  /** The Hadamard product; a and b may be the same matrix, which squares it. */
  method MultiplyElementwise(a: Matrix, b: Matrix)
    requires a.Valid() && b.Valid() && a.rows == b.rows && a.cols == b.cols
    requires a == b || Disjoint(a, b)
    modifies a.data
    ensures a.Elems() == ZipGrid(old(a.Elems()), old(b.Elems()), Times)
    ensures a != b ==> b.Elems() == old(b.Elems())
    ensures a.SameOutside(old(a.data[..]))
  {
    a.ZipInPlace(b, Times);
  }

  method Scale(m: Matrix, scalar: real)
    requires m.Valid()
    modifies m.data
    ensures m.Elems() == MapGrid(old(m.Elems()), ScaleBy(scalar))
    ensures m.SameOutside(old(m.data[..]))
  {
    m.MapInPlace(ScaleBy(scalar));
  }

  method AddScalar(m: Matrix, scalar: real)
    requires m.Valid()
    modifies m.data
    ensures m.Elems() == MapGrid(old(m.Elems()), Shift(scalar))
    ensures m.SameOutside(old(m.data[..]))
  {
    m.MapInPlace(Shift(scalar));
  }

  /** sqrtf of every element. */
  method Sqrt(m: Matrix, lm: Libm)
    requires m.Valid()
    modifies m.data
    ensures m.Elems() == MapGrid(old(m.Elems()), Apply(lm.sqrt))
    ensures m.SameOutside(old(m.data[..]))
  {
    m.MapInPlace(Apply(lm.sqrt));
  }

  /** The accumulator loop of matrix_multiply: Σ_k a(i, k)·b(k, j), k ascending. */
  method RowTimesColumn(a: Matrix, b: Matrix, i: nat, j: nat) returns (sum: real)
    requires a.Valid() && b.Valid() && a.cols == b.rows && i < a.rows && j < b.cols
    ensures sum == Dot(a.Elems()[i], Column(b.Elems(), j))
  {
    ghost var u, v := a.Elems()[i], Column(b.Elems(), j);
    assert |u| == |v| == a.cols;
    sum := 0.0;
    var k := 0;
    while k < a.cols
      invariant k <= a.cols
      invariant sum == Dot(u[..k], v[..k])
    {
      var x, y := a.At(i, k), b.At(k, j);
      a.ElemIs(i, k);
      b.ElemIs(k, j);
      DotStep(u, v, k, x, y);
      sum := sum + x * y;
      k := k + 1;
    }
    assert u[..a.cols] == u && v[..a.cols] == v;
  }

  /**
   * matrix_multiply: c := a·b, by the triple loop with a running sum.  The result
   * matrix has an array of its own.
   */
  method Multiply(a: Matrix, b: Matrix, c: Matrix)
    requires a.Valid() && b.Valid() && c.Valid()
    requires a.cols == b.rows && a.rows == c.rows && b.cols == c.cols
    requires c.data != a.data && c.data != b.data
    modifies c.data
    ensures c.Elems() == Product(a.Elems(), b.Elems(), a.rows, a.cols, b.cols)
    ensures c.SameOutside(old(c.data[..]))
  {
    ghost var ea, eb := a.Elems(), b.Elems();
    ghost var d0 := c.data[..];
    c.CellsFit();
    var i := 0;
    while i < a.rows
      invariant i <= a.rows
      invariant forall ii, jj :: 0 <= ii < i && 0 <= jj < c.cols ==> c.data[c.Index(ii, jj)] == Dot(ea[ii], Column(eb, jj))
      invariant c.SameOutside(d0)
    {
      ProductRow(a, b, c, i);
      c.OtherRowsOutside(i);
      c.RowInRegion(i);
      i := i + 1;
    }
    Extensionality(c.Elems(), Product(ea, eb, a.rows, a.cols, b.cols));
  }

  /** Row i of `Multiply`: c(i, j) := Σ_k a(i, k)·b(k, j) for every j; nothing else is written. */
  method ProductRow(a: Matrix, b: Matrix, c: Matrix, i: nat)
    requires a.Valid() && b.Valid() && c.Valid()
    requires a.cols == b.rows && a.rows == c.rows && b.cols == c.cols && i < a.rows
    requires c.data != a.data && c.data != b.data
    modifies c.data
    ensures c.RowStart(i) + c.cols <= c.data.Length
    ensures forall jj :: 0 <= jj < c.cols ==> c.data[c.Index(i, jj)] == Dot(a.Elems()[i], Column(b.Elems(), jj))
    ensures forall k :: 0 <= k < c.data.Length && !(c.RowStart(i) <= k < c.RowStart(i) + c.cols) ==> c.data[k] == old(c.data[k])
  {
    c.RowFits(i);
    ghost var dr := c.data[..];
    var j := 0;
    while j < b.cols
      invariant j <= b.cols
      invariant forall jj :: 0 <= jj < j ==> c.data[c.Index(i, jj)] == Dot(a.Elems()[i], Column(b.Elems(), jj))
      invariant forall k :: 0 <= k < c.data.Length && !(c.RowStart(i) <= k < c.RowStart(i) + j) ==> c.data[k] == dr[k]
    {
      var sum := RowTimesColumn(a, b, i, j);
      c.data[c.Index(i, j)] := sum;
      j := j + 1;
    }
  }

  /**
   * matrix_transpose: dst(j, i) := src(i, j), walking src row by row.  The
   * destination has an array of its own.
   */
  method Transpose(src: Matrix, dst: Matrix)
    requires src.Valid() && dst.Valid()
    requires src.rows == dst.cols && src.cols == dst.rows
    requires dst.data != src.data
    modifies dst.data
    ensures dst.Elems() == Transposed(src.Elems(), src.rows, src.cols)
    ensures dst.SameOutside(old(dst.data[..]))
  {
    ghost var es := src.Elems();
    ghost var d0 := dst.data[..];
    dst.CellsFit();
    var i := 0;
    while i < src.rows
      invariant i <= src.rows
      invariant forall ii, jj :: 0 <= ii < i && 0 <= jj < src.cols ==> dst.data[dst.Index(jj, ii)] == es[ii][jj]
      invariant dst.SameOutside(d0)
    {
      var j := 0;
      while j < src.cols
        invariant j <= src.cols
        invariant forall ii, jj :: 0 <= ii < i && 0 <= jj < src.cols ==> dst.data[dst.Index(jj, ii)] == es[ii][jj]
        invariant forall jj :: 0 <= jj < j ==> dst.data[dst.Index(jj, i)] == es[i][jj]
        invariant dst.SameOutside(d0)
      {
        dst.CellsDistinct(j, i);
        dst.data[dst.Index(j, i)] := src.At(i, j);
        j := j + 1;
      }
      i := i + 1;
    }
    Extensionality(dst.Elems(), Transposed(es, src.rows, src.cols));
  }

  /** matrix_sum: every element added in row-major order. */
  method Sum(m: Matrix) returns (s: real)
    requires m.Valid()
    ensures s == SumAll(m.Elems())
  {
    ghost var e := m.Elems();
    s := 0.0;
    var i := 0;
    while i < m.rows
      invariant i <= m.rows
      invariant s == SumAll(e[..i])
    {
      var j := 0;
      while j < m.cols
        invariant j <= m.cols
        invariant s == SumAll(e[..i]) + SeqSum(e[i][..j])
      {
        s := s + m.At(i, j);
        assert e[i][..j + 1][..j] == e[i][..j];
        j := j + 1;
      }
      assert e[i][..m.cols] == e[i];
      assert e[..i + 1][..i] == e[..i];
      i := i + 1;
    }
    assert e[..m.rows] == e;
  }

  /** matrix_max: starts from element (0, 0) and keeps the larger value. */
  method Max(m: Matrix) returns (best: real)
    requires m.Valid() && m.rows > 0 && m.cols > 0
    ensures IsMaxOf(m.Elems(), best)
  {
    ghost var e := m.Elems();
    best := m.At(0, 0);
    ghost var wi, wj := 0, 0;
    var i := 0;
    while i < m.rows
      invariant i <= m.rows
      invariant wi < m.rows && wj < m.cols && e[wi][wj] == best
      invariant forall ii, jj :: 0 <= ii < i && 0 <= jj < m.cols ==> e[ii][jj] <= best
    {
      var j := 0;
      while j < m.cols
        invariant j <= m.cols
        invariant wi < m.rows && wj < m.cols && e[wi][wj] == best
        invariant forall ii, jj :: 0 <= ii < i && 0 <= jj < m.cols ==> e[ii][jj] <= best
        invariant forall jj :: 0 <= jj < j ==> e[i][jj] <= best
      {
        if m.At(i, j) > best {
          best := m.At(i, j);
          wi, wj := i, j;
        }
        j := j + 1;
      }
      i := i + 1;
    }
  }

  /** matrix_min: starts from element (0, 0) and keeps the smaller value. */
  method Min(m: Matrix) returns (least: real)
    requires m.Valid() && m.rows > 0 && m.cols > 0
    ensures IsMinOf(m.Elems(), least)
  {
    ghost var e := m.Elems();
    least := m.At(0, 0);
    ghost var wi, wj := 0, 0;
    var i := 0;
    while i < m.rows
      invariant i <= m.rows
      invariant wi < m.rows && wj < m.cols && e[wi][wj] == least
      invariant forall ii, jj :: 0 <= ii < i && 0 <= jj < m.cols ==> least <= e[ii][jj]
    {
      var j := 0;
      while j < m.cols
        invariant j <= m.cols
        invariant wi < m.rows && wj < m.cols && e[wi][wj] == least
        invariant forall ii, jj :: 0 <= ii < i && 0 <= jj < m.cols ==> least <= e[ii][jj]
        invariant forall jj :: 0 <= jj < j ==> least <= e[i][jj]
      {
        if m.At(i, j) < least {
          least := m.At(i, j);
          wi, wj := i, j;
        }
        j := j + 1;
      }
      i := i + 1;
    }
  }

  /** matrix_equal: false on a shape mismatch, else whether every pair is within tolerance. */
  method Equal(a: Matrix, b: Matrix, tolerance: real) returns (eq: bool)
    requires a.Valid() && b.Valid()
    ensures eq <==> a.rows == b.rows && a.cols == b.cols && Within(a.Elems(), b.Elems(), tolerance)
  {
    if a.rows != b.rows || a.cols != b.cols {
      return false;
    }
    ghost var ea, eb := a.Elems(), b.Elems();
    var i := 0;
    while i < a.rows
      invariant i <= a.rows
      invariant forall ii, jj :: 0 <= ii < i && 0 <= jj < a.cols ==> Abs(ea[ii][jj] - eb[ii][jj]) <= tolerance
    {
      var j := 0;
      while j < a.cols
        invariant j <= a.cols
        invariant forall ii, jj :: 0 <= ii < i && 0 <= jj < a.cols ==> Abs(ea[ii][jj] - eb[ii][jj]) <= tolerance
        invariant forall jj :: 0 <= jj < j ==> Abs(ea[i][jj] - eb[i][jj]) <= tolerance
      {
        if Abs(a.At(i, j) - b.At(i, j)) > tolerance {
          assert Abs(ea[i][j] - eb[i][j]) > tolerance;
          return false;
        }
        j := j + 1;
      }
      i := i + 1;
    }
    return true;
  }

  /** matrix_from_array: element (i, j) := values[i * cols + j], whatever the stride. */
  method FromArray(m: Matrix, values: seq<real>)
    requires m.Valid() && |values| >= m.rows * m.cols
    modifies m.data
    ensures m.Elems() == FromFlat(values[..m.rows * m.cols], m.rows, m.cols)
    ensures m.SameOutside(old(m.data[..]))
  {
    m.Load(FromFlat(values[..m.rows * m.cols], m.rows, m.cols));
  }

  /** Each draw u in [0, 1] becomes min + (max - min)·u. */
  function Uniform(min: real, max: real, draws: Grid): (g: Grid)
    ensures SameShape(draws, g)
  {
    seq(|draws|, (i: int) requires 0 <= i < |draws| =>
      seq(|draws[i]|, (j: int) requires 0 <= j < |draws[i]| => min + (max - min) * draws[i][j]))
  }

  /** The r × c block of g whose top-left element is g[r0][c0]. */
  function SubGrid(g: Grid, r0: nat, c0: nat, r: nat, c: nat): (s: Grid)
    requires r0 + r <= |g| && forall i :: 0 <= i < |g| ==> c0 + c <= |g[i]|
    ensures IsShape(s, r, c)
  {
    seq(r, (i: int) requires 0 <= i < r => seq(c, (j: int) requires 0 <= j < c => g[r0 + i][c0 + j]))
  }

  /** With min <= max and every draw in [0, 1], every value lies in [min, max]. */
  lemma UniformWithinBounds(min: real, max: real, draws: Grid)
    requires min <= max
    requires forall i, j :: 0 <= i < |draws| && 0 <= j < |draws[i]| ==> 0.0 <= draws[i][j] <= 1.0
    ensures forall i, j :: 0 <= i < |draws| && 0 <= j < |draws[i]| ==> min <= Uniform(min, max, draws)[i][j] <= max
  {
    forall i, j | 0 <= i < |draws| && 0 <= j < |draws[i]|
      ensures min <= Uniform(min, max, draws)[i][j] <= max
    {
      var w, u := max - min, draws[i][j];
      ScaledFraction(w, u);
      assert Uniform(min, max, draws)[i][j] == min + w * u;
    }
  }

  /** A fraction u in [0, 1] of a non-negative width w lies between 0 and w. */
  lemma ScaledFraction(w: real, u: real)
    requires w >= 0.0 && 0.0 <= u <= 1.0
    ensures 0.0 <= w * u <= w
  {
    assert w * (1.0 - u) >= 0.0;
  }
}
