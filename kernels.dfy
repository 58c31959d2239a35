/**
 * The numeric kernels of a MatrixBuffer, stated on values: what each kernel
 * leaves in its destination buffer, or the error it raises before writing.
 * Both the in-place class (buffer.dfy) and the tape replay (runtime.dfy) are
 * proved against these definitions.
 */
module Kernels {
  import opened Wrappers
  import opened Shapes

  /** The contents of a MatrixBuffer: its shape and its row-major elements. */
  datatype Buf = Buf(shape: Shape, elems: seq<real>) {
    predicate Valid() {
      |elems| == shape.Capacity()
    }
  }

  /** ShapeError names the kernel whose shape check failed; RangeError is a bulk copy that does not fit. */
  datatype KernelError = ShapeError(operator: string) | RangeError

  /** The floating-point cosine and sine, which the model does not interpret. */
  datatype Trig = Trig(cos: real -> real, sin: real -> real)

  /** Tolerance of MatrixBuffer equality. */
  const Epsilon: real := 0.0001

  /** A kernel result that, when it succeeds, is a well-formed buffer of the destination's shape. */
  predicate Writes(dst: Buf, r: Result<Buf, KernelError>) {
    r.Ok? ==> r.value.shape == dst.shape && r.value.Valid()
  }

  /** Element (row, col) of a buffer. */
  function Get(b: Buf, row: nat, col: nat): real
    requires b.Valid() && row < b.shape.height && col < b.shape.width
  {
    IdxInRange(b.shape, row, col);
    b.elems[Idx(b.shape.width, row, col)]
  }

  /** A zero-filled buffer of the given shape, as a freshly constructed MatrixBuffer holds. */
  function Blank(shape: Shape): (b: Buf)
    ensures b.shape == shape && b.Valid()
    ensures forall i :: 0 <= i < |b.elems| ==> b.elems[i] == 0.0
  {
    Buf(shape, seq(shape.Capacity(), _ => 0.0))
  }

  /** zero() and one(): every element becomes v. */
  function Fill(dst: Buf, v: real): (r: Buf)
    ensures r.shape == dst.shape && r.Valid()
    ensures forall i :: 0 <= i < |r.elems| ==> r.elems[i] == v
  {
    Buf(dst.shape, seq(dst.shape.Capacity(), _ => v))
  }

  /** set(values): values[i] is written at i for every i the buffer has; the rest is kept. */
  function SetValues(dst: Buf, values: seq<real>): (r: Buf)
    requires dst.Valid()
    ensures r.shape == dst.shape && r.Valid()
    ensures |values| <= |dst.elems| ==> r.elems == values + dst.elems[|values|..]
    ensures |values| >= |dst.elems| ==> r.elems == values[..|dst.elems|]
  {
    Buf(dst.shape, seq(|dst.elems|, i requires 0 <= i < |dst.elems| =>
      if i < |values| then values[i] else dst.elems[i]))
  }

  /** randomUniform(min, max), where random(i) is the i-th draw of the random source. */
  function RandomUniform(dst: Buf, min: real, max: real, random: nat -> real): (r: Buf)
    ensures r.shape == dst.shape && r.Valid()
    ensures forall i :: 0 <= i < |r.elems| ==> r.elems[i] == min + random(i) * (max - min)
  {
    Buf(dst.shape, seq(dst.shape.Capacity(), i requires 0 <= i => min + random(i) * (max - min)))
  }

  /** Applies f to every element of src, passing its flat index along. */
  function Pointwise(src: seq<real>, f: (nat, real) -> real): (r: seq<real>)
    ensures |r| == |src|
    ensures forall i :: 0 <= i < |src| ==> r[i] == f(i, src[i])
  {
    seq(|src|, i requires 0 <= i < |src| => f(i, src[i]))
  }

  /** Combines the elements of a and b at equal flat indices. */
  function Zip(a: seq<real>, b: seq<real>, f: (real, real) -> real): (r: seq<real>)
    requires |a| == |b|
    ensures |r| == |a|
    ensures forall i :: 0 <= i < |a| ==> r[i] == f(a[i], b[i])
  {
    seq(|a|, i requires 0 <= i < |a| => f(a[i], b[i]))
  }

  /** A unary elementwise kernel: the shape check, then f applied at every index. */
  function Elementwise(name: string, dst: Buf, src: Buf, f: (nat, real) -> real): (r: Result<Buf, KernelError>)
    requires dst.Valid() && src.Valid()
    ensures r.Ok? <==> dst.shape == src.shape
    ensures r.Err? ==> r.error == ShapeError(name)
    ensures Writes(dst, r)
  {
    if !dst.shape.Equals(src.shape) then Err(ShapeError(name))
    else Ok(Buf(dst.shape, Pointwise(src.elems, f)))
  }

  function ReluOf(x: real): real {
    if x > 0.0 then x else 0.0
  }

  function Relu(dst: Buf, src: Buf): (r: Result<Buf, KernelError>)
    requires dst.Valid() && src.Valid()
    ensures r.Ok? <==> dst.shape == src.shape
    ensures Writes(dst, r)
  {
    Elementwise("relu", dst, src, (i: nat, x: real) => ReluOf(x))
  }

  function Cos(trig: Trig, dst: Buf, src: Buf): (r: Result<Buf, KernelError>)
    requires dst.Valid() && src.Valid()
    ensures r.Ok? <==> dst.shape == src.shape
    ensures Writes(dst, r)
  {
    Elementwise("cos", dst, src, (i: nat, x: real) => trig.cos(x))
  }

  function Sin(trig: Trig, dst: Buf, src: Buf): (r: Result<Buf, KernelError>)
    requires dst.Valid() && src.Valid()
    ensures r.Ok? <==> dst.shape == src.shape
    ensures Writes(dst, r)
  {
    Elementwise("sin", dst, src, (i: nat, x: real) => trig.sin(x))
  }

  /** Cosine at even flat indices, sine at odd ones. */
  function Cis(trig: Trig, dst: Buf, src: Buf): (r: Result<Buf, KernelError>)
    requires dst.Valid() && src.Valid()
    ensures r.Ok? <==> dst.shape == src.shape
    ensures Writes(dst, r)
  {
    Elementwise("cis", dst, src, (i: nat, x: real) => if i % 2 == 0 then trig.cos(x) else trig.sin(x))
  }

  /** Sine at even flat indices, cosine at odd ones. */
  function Sic(trig: Trig, dst: Buf, src: Buf): (r: Result<Buf, KernelError>)
    requires dst.Valid() && src.Valid()
    ensures r.Ok? <==> dst.shape == src.shape
    ensures Writes(dst, r)
  {
    Elementwise("sic", dst, src, (i: nat, x: real) => if i % 2 == 0 then trig.sin(x) else trig.cos(x))
  }

  /** The shape relation dual() checks: dst is src with its dimensions swapped. */
  predicate DualShapes(dst: Shape, src: Shape) {
    dst.height == src.width && dst.width == src.height
  }

  /** The elements of the transpose of src, laid out in the shape s. */
  function Transposed(s: Shape, src: Buf): (r: seq<real>)
    requires src.Valid() && DualShapes(s, src.shape)
    ensures |r| == s.Capacity()
  {
    seq(s.Capacity(), i requires 0 <= i < s.Capacity() =>
      FlatIdx(s, i);
      Get(src, i % s.width, i / s.width))
  }

  function Dual(dst: Buf, src: Buf): (r: Result<Buf, KernelError>)
    requires dst.Valid() && src.Valid()
    ensures r.Ok? <==> DualShapes(dst.shape, src.shape)
    ensures Writes(dst, r)
  {
    if dst.shape.height != src.shape.width || dst.shape.width != src.shape.height then Err(ShapeError("dual"))
    else Ok(Buf(dst.shape, Transposed(dst.shape, src)))
  }

  /** A binary elementwise kernel: all three shapes equal, then f at every index. */
  function Binary(name: string, dst: Buf, fst: Buf, snd: Buf, f: (real, real) -> real): (r: Result<Buf, KernelError>)
    requires dst.Valid() && fst.Valid() && snd.Valid()
    ensures r.Ok? <==> dst.shape == fst.shape && dst.shape == snd.shape
    ensures r.Err? ==> r.error == ShapeError(name)
    ensures Writes(dst, r)
  {
    if !dst.shape.Equals(fst.shape) || !dst.shape.Equals(snd.shape) then Err(ShapeError(name))
    else Ok(Buf(dst.shape, Zip(fst.elems, snd.elems, f)))
  }

  function Add(dst: Buf, fst: Buf, snd: Buf): (r: Result<Buf, KernelError>)
    requires dst.Valid() && fst.Valid() && snd.Valid()
    ensures r.Ok? <==> dst.shape == fst.shape && dst.shape == snd.shape
    ensures Writes(dst, r)
  {
    Binary("add", dst, fst, snd, (x: real, y: real) => x + y)
  }

  function Point(dst: Buf, fst: Buf, snd: Buf): (r: Result<Buf, KernelError>)
    requires dst.Valid() && fst.Valid() && snd.Valid()
    ensures r.Ok? <==> dst.shape == fst.shape && dst.shape == snd.shape
    ensures Writes(dst, r)
  {
    Binary("point", dst, fst, snd, (x: real, y: real) => x * y)
  }

  /** The shape relation mul() checks. */
  predicate MulShapes(dst: Shape, fst: Shape, snd: Shape) {
    dst.height == fst.height && dst.width == snd.width && fst.width == snd.height
  }

  /** The sum of the first n terms fst[row, d] * snd[d, col]. */
  function Dot(fst: Buf, snd: Buf, row: nat, col: nat, n: nat): real
    requires fst.Valid() && snd.Valid() && fst.shape.width == snd.shape.height
    requires row < fst.shape.height && col < snd.shape.width && n <= fst.shape.width
  {
    if n == 0 then 0.0
    else Dot(fst, snd, row, col, n - 1) + Get(fst, row, n - 1) * Get(snd, n - 1, col)
  }

  /** The matrix product of fst and snd. */
  function Product(fst: Buf, snd: Buf): (r: Buf)
    requires fst.Valid() && snd.Valid() && fst.shape.width == snd.shape.height
    ensures r.shape == Shape(fst.shape.height, snd.shape.width) && r.Valid()
  {
    var s := Shape(fst.shape.height, snd.shape.width);
    Buf(s, seq(s.Capacity(), i requires 0 <= i < s.Capacity() =>
      FlatIdx(s, i);
      Dot(fst, snd, i / s.width, i % s.width, fst.shape.width)))
  }

  /** mul(): adds the product of fst and snd onto what dst already holds. */
  function Mul(dst: Buf, fst: Buf, snd: Buf): (r: Result<Buf, KernelError>)
    requires dst.Valid() && fst.Valid() && snd.Valid()
    ensures r.Ok? <==> MulShapes(dst.shape, fst.shape, snd.shape)
    ensures Writes(dst, r)
  {
    if dst.shape.height != fst.shape.height || dst.shape.width != snd.shape.width
       || fst.shape.width != snd.shape.height then Err(ShapeError("mul"))
    else
      var p := Product(fst, snd);
      Ok(Buf(dst.shape, Zip(dst.elems, p.elems, (x: real, y: real) => x + y)))
  }

  /** The sum of the first n elements of the given row. */
  function RowSum(src: Buf, row: nat, n: nat): real
    requires src.Valid() && row < src.shape.height && n <= src.shape.width
  {
    if n == 0 then 0.0 else RowSum(src, row, n - 1) + Get(src, row, n - 1)
  }

  /** The sum of the first n elements of s. */
  function Total(s: seq<real>, n: nat): real
    requires n <= |s|
  {
    if n == 0 then 0.0 else Total(s, n - 1) + s[n - 1]
  }

  /** sumk() of buffer.ts: each row's sum goes to column k of that row, every other element becomes 0. */
  function SumkRows(dst: Buf, src: Buf, k: real): (r: Result<Buf, KernelError>)
    requires dst.Valid() && src.Valid()
    ensures r.Ok? <==> dst.shape == src.shape
    ensures Writes(dst, r)
  {
    if !dst.shape.Equals(src.shape) then Err(ShapeError("sumk"))
    else
      var s := dst.shape;
      Ok(Buf(s, seq(s.Capacity(), i requires 0 <= i < s.Capacity() =>
        FlatIdx(s, i);
        if (i % s.width) as real == k then RowSum(src, i / s.width, s.width) else 0.0)))
  }

  /** sumk() of circuit.ts: the sum of all elements goes to flat index k, every other element becomes 0. */
  function SumkFlat(dst: Buf, src: Buf, k: real): (r: Result<Buf, KernelError>)
    requires dst.Valid() && src.Valid()
    ensures r.Ok? <==> dst.shape == src.shape
    ensures Writes(dst, r)
  {
    if !dst.shape.Equals(src.shape) then Err(ShapeError("sumk"))
    else
      var total := Total(src.elems, |src.elems|);
      Ok(Buf(dst.shape, seq(|src.elems|, i requires 0 <= i => if i as real == k then total else 0.0)))
  }

  /** equals(): equal dimensions and every pair of elements within Epsilon. */
  predicate Close(a: Buf, b: Buf)
    requires a.Valid() && b.Valid()
    ensures Close(a, b) ==> a.shape == b.shape
    ensures a == b ==> Close(a, b)
  {
    && a.shape.height == b.shape.height
    && a.shape.width == b.shape.width
    && forall i :: 0 <= i < |a.elems| ==> -Epsilon <= a.elems[i] - b.elems[i] <= Epsilon
  }

  /* Properties of the kernels. */

  function Max(x: real, y: real): real {
    if x >= y then x else y
  }

  /** relu keeps positive elements and zeroes the rest: it is max(x, 0) at every index, never negative, and idempotent. */
  lemma ReluIsMaxWithZero(dst: Buf, src: Buf)
    requires dst.Valid() && src.Valid() && dst.shape == src.shape
    ensures var r := Relu(dst, src).value;
      && (forall i :: 0 <= i < |r.elems| ==> r.elems[i] == Max(src.elems[i], 0.0) && r.elems[i] >= 0.0)
      && Relu(dst, r) == Ok(r)
  {
    var r := Relu(dst, src).value;
    assert Pointwise(r.elems, (i: nat, x: real) => ReluOf(x)) == r.elems;
  }

  /** cis picks the cos kernel's element at even indices and the sin kernel's at odd ones; sic does the opposite. */
  lemma CisSicInterleave(trig: Trig, dst: Buf, src: Buf)
    requires dst.Valid() && src.Valid() && dst.shape == src.shape
    ensures forall i :: 0 <= i < |src.elems| ==>
      && Cis(trig, dst, src).value.elems[i]
         == (if i % 2 == 0 then Cos(trig, dst, src) else Sin(trig, dst, src)).value.elems[i]
      && Sic(trig, dst, src).value.elems[i]
         == (if i % 2 == 0 then Sin(trig, dst, src) else Cos(trig, dst, src)).value.elems[i]
  {
  }

  /** On matching shapes, cis and sic are the same kernel with cosine and sine exchanged. */
  lemma CisIsSicSwapped(trig: Trig, dst: Buf, src: Buf)
    requires dst.Valid() && src.Valid() && dst.shape == src.shape
    ensures Cis(trig, dst, src) == Sic(Trig(trig.sin, trig.cos), dst, src)
  {
    var swapped := Trig(trig.sin, trig.cos);
    var a := Pointwise(src.elems, (i: nat, x: real) => if i % 2 == 0 then trig.cos(x) else trig.sin(x));
    var b := Pointwise(src.elems, (i: nat, x: real) => if i % 2 == 0 then swapped.sin(x) else swapped.cos(x));
    assert a == b;
    assert Cis(trig, dst, src) == Ok(Buf(dst.shape, a));
    assert Sic(swapped, dst, src) == Ok(Buf(dst.shape, b));
  }

  lemma TransposedAt(s: Shape, src: Buf, i: nat)
    requires src.Valid() && DualShapes(s, src.shape) && i < s.Capacity()
    ensures s.width > 0 && i % s.width < src.shape.height && i / s.width < src.shape.width
    ensures Transposed(s, src)[i] == Get(src, i % s.width, i / s.width)
  {
    FlatIdx(s, i);
  }

  /** dual writes src[col, row] at (row, col). */
  lemma DualAt(dst: Buf, src: Buf, row: nat, col: nat)
    requires dst.Valid() && src.Valid() && DualShapes(dst.shape, src.shape)
    requires row < dst.shape.height && col < dst.shape.width
    ensures Get(Dual(dst, src).value, row, col) == Get(src, col, row)
  {
    var i := Idx(dst.shape.width, row, col);
    IdxInRange(dst.shape, row, col);
    IdxDivMod(dst.shape.width, row, col);
    TransposedAt(dst.shape, src, i);
    assert Get(Dual(dst, src).value, row, col) == Transposed(dst.shape, src)[i];
  }

  /** Transposing twice, into buffers of the right shapes, gives back the source. */
  lemma DualInvolution(a: Buf, b: Buf, c: Buf)
    requires a.Valid() && b.Valid() && c.Valid()
    requires DualShapes(b.shape, a.shape) && c.shape == a.shape
    ensures Dual(b, a).Ok?
    ensures Dual(c, Dual(b, a).value) == Ok(a)
  {
    var t := Dual(b, a).value;
    var r := Dual(c, t).value;
    forall i | 0 <= i < |a.elems|
      ensures r.elems[i] == a.elems[i]
    {
      FlatIdx(a.shape, i);
      var row, col := i / a.shape.width, i % a.shape.width;
      assert Idx(a.shape.width, row, col) == i;
      DualAt(c, t, row, col);
      DualAt(b, a, col, row);
      assert r.elems[i] == Get(r, row, col);
      assert a.elems[i] == Get(a, row, col);
    }
    assert r.elems == a.elems;
  }

  /** add is commutative in its operands. */
  lemma AddCommutes(dst: Buf, fst: Buf, snd: Buf)
    requires dst.Valid() && fst.Valid() && snd.Valid()
    ensures Add(dst, fst, snd) == Add(dst, snd, fst)
  {
    if dst.shape == fst.shape && dst.shape == snd.shape {
      assert Add(dst, fst, snd).value.elems == Add(dst, snd, fst).value.elems;
    }
  }

  /** point is commutative in its operands. */
  lemma PointCommutes(dst: Buf, fst: Buf, snd: Buf)
    requires dst.Valid() && fst.Valid() && snd.Valid()
    ensures Point(dst, fst, snd) == Point(dst, snd, fst)
  {
    if dst.shape == fst.shape && dst.shape == snd.shape {
      assert Point(dst, fst, snd).value.elems == Point(dst, snd, fst).value.elems;
    }
  }

  /** mul adds the dot product of row `row` of fst and column `col` of snd to dst[row, col]. */
  lemma MulAt(dst: Buf, fst: Buf, snd: Buf, row: nat, col: nat)
    requires dst.Valid() && fst.Valid() && snd.Valid() && MulShapes(dst.shape, fst.shape, snd.shape)
    requires row < dst.shape.height && col < dst.shape.width
    ensures Get(Mul(dst, fst, snd).value, row, col) == Get(dst, row, col) + Dot(fst, snd, row, col, fst.shape.width)
  {
    IdxDivMod(dst.shape.width, row, col);
    IdxInRange(dst.shape, row, col);
  }

  /** Into a zero-filled destination, mul yields exactly the matrix product. */
  lemma MulFromZero(dst: Buf, fst: Buf, snd: Buf)
    requires dst.Valid() && fst.Valid() && snd.Valid() && MulShapes(dst.shape, fst.shape, snd.shape)
    requires forall i :: 0 <= i < |dst.elems| ==> dst.elems[i] == 0.0
    ensures Mul(dst, fst, snd) == Ok(Product(fst, snd))
  {
    var r := Mul(dst, fst, snd).value;
    assert r.elems == Product(fst, snd).elems;
  }

  /** mul does not clear its destination: running it again adds the product a second time. */
  lemma MulAccumulates(dst: Buf, fst: Buf, snd: Buf)
    requires dst.Valid() && fst.Valid() && snd.Valid() && MulShapes(dst.shape, fst.shape, snd.shape)
    ensures var once := Mul(dst, fst, snd).value;
      var twice := Mul(once, fst, snd).value;
      forall i :: 0 <= i < |dst.elems| ==>
        twice.elems[i] == dst.elems[i] + 2.0 * Product(fst, snd).elems[i]
  {
  }

  /* Associativity of the matrix product. The sums are first exchanged on matrices given as
     functions from (row, column) to their entries, then carried over to buffers. */

  /** A matrix given by its entries. */
  type Entries = (nat, nat) -> real

  /** The entries of a buffer, and 0 outside its shape. */
  function AsEntries(b: Buf): Entries
    requires b.Valid()
  {
    (r: nat, c: nat) => if r < b.shape.height && c < b.shape.width then Get(b, r, c) else 0.0
  }

  /** The sum of g(k) over k < n. */
  function Sum(g: nat -> real, n: nat): real {
    if n == 0 then 0.0 else Sum(g, n - 1) + g(n - 1)
  }

  /** The terms of entry (i, j) of the product of a and b. */
  function RowCol(a: Entries, b: Entries, i: nat, j: nat): nat -> real {
    (k: nat) => a(i, k) * b(k, j)
  }

  /** The product of a and b over a shared dimension n. */
  function MatMul(a: Entries, b: Entries, n: nat): Entries {
    (i: nat, j: nat) => Sum(RowCol(a, b, i, j), n)
  }

  /** The terms a(i, l) * b(l, k) * c(k, j) of entry (i, j) of a triple product. */
  function Triple(a: Entries, b: Entries, c: Entries, i: nat, j: nat): Entries {
    (l: nat, k: nat) => a(i, l) * b(l, k) * c(k, j)
  }

  /** The sum of f(l, k) over k < n, for a fixed l. */
  function SumRow(f: Entries, l: nat, n: nat): real {
    if n == 0 then 0.0 else SumRow(f, l, n - 1) + f(l, n - 1)
  }

  /** The sum of f(l, k) over l < n, for a fixed k. */
  function SumCol(f: Entries, k: nat, n: nat): real {
    if n == 0 then 0.0 else SumCol(f, k, n - 1) + f(n - 1, k)
  }

  /** The sum of f over l < rows and k < cols, row by row. */
  function ByRows(f: Entries, rows: nat, cols: nat): real {
    if rows == 0 then 0.0 else ByRows(f, rows - 1, cols) + SumRow(f, rows - 1, cols)
  }

  /** The same sum, column by column. */
  function ByCols(f: Entries, rows: nat, cols: nat): real {
    if cols == 0 then 0.0 else ByCols(f, rows, cols - 1) + SumCol(f, cols - 1, rows)
  }

  lemma {:induction false} ByRowsZeroCols(f: Entries, rows: nat)
    ensures ByRows(f, rows, 0) == 0.0
  {
    if rows > 0 {
      ByRowsZeroCols(f, rows - 1);
    }
  }

  /** Adding a column to a row-by-row sum adds that column's sum. */
  lemma {:induction false} ByRowsLastCol(f: Entries, rows: nat, cols: nat)
    requires cols > 0
    ensures ByRows(f, rows, cols) == ByRows(f, rows, cols - 1) + SumCol(f, cols - 1, rows)
  {
    if rows > 0 {
      ByRowsLastCol(f, rows - 1, cols);
    }
  }

  /** Summing row by row or column by column gives the same total. */
  lemma {:induction false} ByRowsIsByCols(f: Entries, rows: nat, cols: nat)
    ensures ByRows(f, rows, cols) == ByCols(f, rows, cols)
  {
    if cols == 0 {
      ByRowsZeroCols(f, rows);
    } else {
      ByRowsLastCol(f, rows, cols);
      ByRowsIsByCols(f, rows, cols - 1);
    }
  }

  /** Sums of functions that agree below n are equal. */
  lemma {:induction false} SumCongruent(g: nat -> real, h: nat -> real, n: nat)
    requires forall k: nat :: k < n ==> g(k) == h(k)
    ensures Sum(g, n) == Sum(h, n)
  {
    if n > 0 {
      SumCongruent(g, h, n - 1);
    }
  }

  lemma DistributesRight(x: real, y: real, z: real)
    ensures (x + y) * z == x * z + y * z
  {
  }

  lemma DistributesLeft(a: real, x: real, y: real)
    ensures a * (x + y) == a * x + a * y
  {
  }

  /** Entry (i, k) of a b, times c(k, j), is column k of the triple sum. */
  lemma {:induction false} SumTimesRight(a: Entries, b: Entries, c: Entries, i: nat, j: nat, k: nat, n: nat)
    ensures Sum(RowCol(a, b, i, k), n) * c(k, j) == SumCol(Triple(a, b, c, i, j), k, n)
  {
    if n > 0 {
      SumTimesRight(a, b, c, i, j, k, n - 1);
      DistributesRight(Sum(RowCol(a, b, i, k), n - 1), a(i, n - 1) * b(n - 1, k), c(k, j));
    }
  }

  /** a(i, l) times entry (l, j) of b c is row l of the triple sum. */
  lemma {:induction false} SumTimesLeft(a: Entries, b: Entries, c: Entries, i: nat, j: nat, l: nat, n: nat)
    ensures a(i, l) * Sum(RowCol(b, c, l, j), n) == SumRow(Triple(a, b, c, i, j), l, n)
  {
    if n > 0 {
      SumTimesLeft(a, b, c, i, j, l, n - 1);
      DistributesLeft(a(i, l), Sum(RowCol(b, c, l, j), n - 1), b(l, n - 1) * c(n - 1, j));
      assert a(i, l) * (b(l, n - 1) * c(n - 1, j)) == a(i, l) * b(l, n - 1) * c(n - 1, j);
    }
  }

  /** Entry (i, j) of (a b) c, over its first p terms, sums the triple terms column by column. */
  lemma {:induction false} LeftNested(a: Entries, b: Entries, c: Entries, i: nat, j: nat, n: nat, p: nat)
    ensures Sum(RowCol(MatMul(a, b, n), c, i, j), p) == ByCols(Triple(a, b, c, i, j), n, p)
  {
    if p > 0 {
      LeftNested(a, b, c, i, j, n, p - 1);
      SumTimesRight(a, b, c, i, j, p - 1, n);
    }
  }

  /** Entry (i, j) of a (b c), over its first n terms, sums the triple terms row by row. */
  lemma {:induction false} RightNested(a: Entries, b: Entries, c: Entries, i: nat, j: nat, n: nat, p: nat)
    ensures Sum(RowCol(a, MatMul(b, c, p), i, j), n) == ByRows(Triple(a, b, c, i, j), n, p)
  {
    if n > 0 {
      RightNested(a, b, c, i, j, n - 1, p);
      SumTimesLeft(a, b, c, i, j, n - 1, p);
    }
  }

  /** The product of matrices given by their entries is associative. */
  lemma MatMulAssociative(a: Entries, b: Entries, c: Entries, n: nat, p: nat, i: nat, j: nat)
    ensures MatMul(MatMul(a, b, n), c, p)(i, j) == MatMul(a, MatMul(b, c, p), n)(i, j)
  {
    LeftNested(a, b, c, i, j, n, p);
    RightNested(a, b, c, i, j, n, p);
    ByRowsIsByCols(Triple(a, b, c, i, j), n, p);
  }

  /** A dot product of buffers is the sum of their entries' products. */
  lemma {:induction false} DotIsSum(fst: Buf, snd: Buf, row: nat, col: nat, n: nat)
    requires fst.Valid() && snd.Valid() && fst.shape.width == snd.shape.height
    requires row < fst.shape.height && col < snd.shape.width && n <= fst.shape.width
    ensures Dot(fst, snd, row, col, n) == Sum(RowCol(AsEntries(fst), AsEntries(snd), row, col), n)
  {
    if n > 0 {
      DotIsSum(fst, snd, row, col, n - 1);
    }
  }

  /** The entries of Product are those of MatMul on the operands' entries. */
  lemma ProductEntries(fst: Buf, snd: Buf, row: nat, col: nat)
    requires fst.Valid() && snd.Valid() && fst.shape.width == snd.shape.height
    ensures AsEntries(Product(fst, snd))(row, col)
      == if row < fst.shape.height && col < snd.shape.width
         then MatMul(AsEntries(fst), AsEntries(snd), fst.shape.width)(row, col) else 0.0
  {
    if row < fst.shape.height && col < snd.shape.width {
      IdxDivMod(snd.shape.width, row, col);
      IdxInRange(Product(fst, snd).shape, row, col);
      DotIsSum(fst, snd, row, col, fst.shape.width);
    }
  }

  /** Changing a's row i only where it is not read leaves entry (i, j) of a b unchanged. */
  lemma MatMulCongruentLeft(a: Entries, a2: Entries, b: Entries, n: nat, i: nat, j: nat)
    requires forall k: nat :: k < n ==> a(i, k) == a2(i, k)
    ensures MatMul(a, b, n)(i, j) == MatMul(a2, b, n)(i, j)
  {
    forall k: nat | k < n
      ensures RowCol(a, b, i, j)(k) == RowCol(a2, b, i, j)(k)
    {
    }
    SumCongruent(RowCol(a, b, i, j), RowCol(a2, b, i, j), n);
  }

  /** Changing b's column j only where it is not read leaves entry (i, j) of a b unchanged. */
  lemma MatMulCongruentRight(a: Entries, b: Entries, b2: Entries, n: nat, i: nat, j: nat)
    requires forall k: nat :: k < n ==> b(k, j) == b2(k, j)
    ensures MatMul(a, b, n)(i, j) == MatMul(a, b2, n)(i, j)
  {
    forall k: nat | k < n
      ensures RowCol(a, b, i, j)(k) == RowCol(a, b2, i, j)(k)
    {
    }
    SumCongruent(RowCol(a, b, i, j), RowCol(a, b2, i, j), n);
  }

  /** Buffers of one shape with the same entries are equal. */
  lemma SameEntries(x: Buf, y: Buf)
    requires x.Valid() && y.Valid() && x.shape == y.shape
    requires forall r: nat, c: nat :: r < x.shape.height && c < x.shape.width ==> AsEntries(x)(r, c) == AsEntries(y)(r, c)
    ensures x == y
  {
    forall i | 0 <= i < |x.elems|
      ensures x.elems[i] == y.elems[i]
    {
      FlatIdx(x.shape, i);
      var r, c := i / x.shape.width, i % x.shape.width;
      assert AsEntries(x)(r, c) == AsEntries(y)(r, c);
    }
  }

  /** The matrix product is associative. */
  lemma ProductAssociative(fst: Buf, snd: Buf, third: Buf)
    requires fst.Valid() && snd.Valid() && third.Valid()
    requires fst.shape.width == snd.shape.height && snd.shape.width == third.shape.height
    ensures Product(Product(fst, snd), third) == Product(fst, Product(snd, third))
  {
    var a, b, c := AsEntries(fst), AsEntries(snd), AsEntries(third);
    var n, p := fst.shape.width, snd.shape.width;
    var ab, bc := Product(fst, snd), Product(snd, third);
    forall r: nat, k: nat | r < ab.shape.height && k < ab.shape.width
      ensures AsEntries(ab)(r, k) == MatMul(a, b, n)(r, k)
    {
      ProductEntries(fst, snd, r, k);
    }
    forall r: nat, k: nat | r < bc.shape.height && k < bc.shape.width
      ensures AsEntries(bc)(r, k) == MatMul(b, c, p)(r, k)
    {
      ProductEntries(snd, third, r, k);
    }
    forall r: nat, k: nat | r < fst.shape.height && k < third.shape.width
      ensures AsEntries(Product(ab, third))(r, k) == AsEntries(Product(fst, bc))(r, k)
    {
      ProductEntries(ab, third, r, k);
      MatMulCongruentLeft(AsEntries(ab), MatMul(a, b, n), c, p, r, k);
      ProductEntries(fst, bc, r, k);
      MatMulCongruentRight(a, AsEntries(bc), MatMul(b, c, p), n, r, k);
      MatMulAssociative(a, b, c, n, p, r, k);
    }
    SameEntries(Product(ab, third), Product(fst, bc));
  }

  /** k designates a column of a matrix of the given width (sumk compares the column with === k). */
  predicate IsIndex(k: real, bound: nat) {
    k == k.Floor as real && 0 <= k.Floor < bound
  }

  /** Per-row sumk: column k of each row holds that row's sum, and every other element is 0. */
  lemma SumkRowsAt(dst: Buf, src: Buf, k: real, row: nat, col: nat)
    requires dst.Valid() && src.Valid() && dst.shape == src.shape
    requires row < dst.shape.height && col < dst.shape.width
    ensures Get(SumkRows(dst, src, k).value, row, col)
      == if IsIndex(k, dst.shape.width) && col == k.Floor then RowSum(src, row, src.shape.width) else 0.0
  {
    var i := Idx(dst.shape.width, row, col);
    IdxInRange(dst.shape, row, col);
    IdxDivMod(dst.shape.width, row, col);
    var r := SumkRows(dst, src, k).value;
    assert Get(r, row, col) == r.elems[i];
    assert r.elems[i] == if (i % dst.shape.width) as real == k then RowSum(src, i / dst.shape.width, dst.shape.width) else 0.0;
  }

  /** Per-row sumk with k outside the columns leaves every element 0. */
  lemma SumkRowsOutOfRange(dst: Buf, src: Buf, k: real)
    requires dst.Valid() && src.Valid() && dst.shape == src.shape
    requires !IsIndex(k, dst.shape.width)
    ensures forall i :: 0 <= i < |dst.elems| ==> SumkRows(dst, src, k).value.elems[i] == 0.0
  {
    forall i | 0 <= i < |dst.elems|
      ensures SumkRows(dst, src, k).value.elems[i] == 0.0
    {
      FlatIdx(dst.shape, i);
    }
  }

  /** Flat sumk: index k holds the sum of all elements of src, every other index holds 0. */
  lemma SumkFlatAt(dst: Buf, src: Buf, k: real, i: nat)
    requires dst.Valid() && src.Valid() && dst.shape == src.shape
    requires i < |dst.elems|
    ensures SumkFlat(dst, src, k).value.elems[i]
      == if IsIndex(k, |src.elems|) && i == k.Floor then Total(src.elems, |src.elems|) else 0.0
  {
  }

  /** Flat sumk with k outside the buffer leaves every element 0. */
  lemma SumkFlatOutOfRange(dst: Buf, src: Buf, k: real)
    requires dst.Valid() && src.Valid() && dst.shape == src.shape
    requires !IsIndex(k, |src.elems|)
    ensures forall i :: 0 <= i < |dst.elems| ==> SumkFlat(dst, src, k).value.elems[i] == 0.0
  {
  }

  /** set() with exactly one value per element replaces the whole contents by those values. */
  lemma SetValuesFull(dst: Buf, values: seq<real>)
    requires dst.Valid() && |values| == |dst.elems|
    ensures SetValues(dst, values) == Buf(dst.shape, values)
  {
  }

  /** equals() is reflexive and symmetric, and fails on any difference of dimensions. */
  lemma CloseProperties(a: Buf, b: Buf)
    requires a.Valid() && b.Valid()
    ensures Close(a, a)
    ensures Close(a, b) <==> Close(b, a)
    ensures a.shape != b.shape ==> !Close(a, b)
  {
    if Close(a, b) {
      forall i | 0 <= i < |b.elems| ensures -Epsilon <= b.elems[i] - a.elems[i] <= Epsilon {
        assert -Epsilon <= a.elems[i] - b.elems[i] <= Epsilon;
      }
    }
  }
}
