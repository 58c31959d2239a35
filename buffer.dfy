/**
 * MatrixBuffer: a shape and a row-major array of elements that the kernels
 * overwrite in place. Every kernel is proved to leave exactly what its
 * value-level definition in Kernels describes, and to raise its ShapeError
 * before writing anything.
 */
module Buffers {
  import opened Wrappers
  import opened Shapes
  import K = Kernels

  /** A kernel call ended as r describes: the error it raised and the contents it left behind. */
  predicate Reports(r: Result<K.Buf, K.KernelError>, err: Option<K.KernelError>, before: K.Buf, after: K.Buf) {
    if r.Ok? then err == None && after == r.value else err == Some(r.error) && after == before
  }

  /** Row row starts where row - 1 ends, and no later than the end of the buffer. */
  lemma RowStart(s: Shape, row: nat)
    requires row <= s.height
    ensures Idx(s.width, row, 0) <= s.Capacity()
    ensures Idx(s.width, row, 0) + s.width == Idx(s.width, row + 1, 0)
    ensures row == s.height ==> Idx(s.width, row, 0) == s.Capacity()
  {
    MulMono(row, s.height, s.width);
  }

  /** The element dual() copies to (row, col) is the transpose's element there. */
  lemma DualStep(s: Shape, src: K.Buf, row: nat, col: nat)
    requires src.Valid() && K.DualShapes(s, src.shape) && row < s.height && col < s.width
    ensures Idx(s.width, row, col) < s.Capacity()
    ensures Idx(s.width, row, col) + 1 == Idx(s.width, row, col + 1)
    ensures Idx(src.shape.width, col, row) < |src.elems|
    ensures K.Transposed(s, src)[Idx(s.width, row, col)] == src.elems[Idx(src.shape.width, col, row)]
  {
    var i := Idx(s.width, row, col);
    IdxInRange(s, row, col);
    IdxDivMod(s.width, row, col);
    IdxInRange(src.shape, col, row);
    K.TransposedAt(s, src, i);
    assert K.Transposed(s, src)[i] == K.Get(src, col, row);
  }

  /**
   * How many products of its dot product element (r, c) has received when mul()'s loops
   * stand at (row, dot, col), out of n in all.
   */
  function Terms(r: nat, c: nat, row: nat, dot: nat, col: nat, n: nat): nat {
    if r < row then n else if r > row then 0 else if c < col then dot + 1 else dot
  }

  /** What dst holds when mul()'s loops stand at (row, dot, col). */
  function Accumulated(dst: K.Buf, fst: K.Buf, snd: K.Buf, row: nat, dot: nat, col: nat): (r: seq<real>)
    requires dst.Valid() && fst.Valid() && snd.Valid() && K.MulShapes(dst.shape, fst.shape, snd.shape)
    requires dot <= fst.shape.width && (col > 0 ==> dot < fst.shape.width)
    ensures |r| == |dst.elems|
  {
    var s := dst.shape;
    seq(s.Capacity(), i requires 0 <= i < s.Capacity() =>
      FlatIdx(s, i);
      dst.elems[i] + K.Dot(fst, snd, i / s.width, i % s.width, Terms(i / s.width, i % s.width, row, dot, col, fst.shape.width)))
  }

  lemma AccumulatedStart(dst: K.Buf, fst: K.Buf, snd: K.Buf)
    requires dst.Valid() && fst.Valid() && snd.Valid() && K.MulShapes(dst.shape, fst.shape, snd.shape)
    ensures Accumulated(dst, fst, snd, 0, 0, 0) == dst.elems
  {
    var a := Accumulated(dst, fst, snd, 0, 0, 0);
    forall i | 0 <= i < |a|
      ensures a[i] == dst.elems[i]
    {
      FlatIdx(dst.shape, i);
    }
  }

  lemma AccumulatedEnd(dst: K.Buf, fst: K.Buf, snd: K.Buf)
    requires dst.Valid() && fst.Valid() && snd.Valid() && K.MulShapes(dst.shape, fst.shape, snd.shape)
    ensures Accumulated(dst, fst, snd, dst.shape.height, 0, 0) == K.Mul(dst, fst, snd).value.elems
  {
    var a := Accumulated(dst, fst, snd, dst.shape.height, 0, 0);
    var m := K.Mul(dst, fst, snd).value.elems;
    var p := K.Product(fst, snd);
    forall i | 0 <= i < |a|
      ensures a[i] == m[i]
    {
      FlatIdx(dst.shape, i);
      assert m[i] == dst.elems[i] + p.elems[i];
    }
  }

  lemma AccumulatedNextDot(dst: K.Buf, fst: K.Buf, snd: K.Buf, row: nat, dot: nat)
    requires dst.Valid() && fst.Valid() && snd.Valid() && K.MulShapes(dst.shape, fst.shape, snd.shape)
    requires dot < fst.shape.width
    ensures Accumulated(dst, fst, snd, row, dot, dst.shape.width) == Accumulated(dst, fst, snd, row, dot + 1, 0)
  {
    var a := Accumulated(dst, fst, snd, row, dot, dst.shape.width);
    var b := Accumulated(dst, fst, snd, row, dot + 1, 0);
    forall i | 0 <= i < |a|
      ensures a[i] == b[i]
    {
      FlatIdx(dst.shape, i);
    }
  }

  lemma AccumulatedNextRow(dst: K.Buf, fst: K.Buf, snd: K.Buf, row: nat)
    requires dst.Valid() && fst.Valid() && snd.Valid() && K.MulShapes(dst.shape, fst.shape, snd.shape)
    ensures Accumulated(dst, fst, snd, row, fst.shape.width, 0) == Accumulated(dst, fst, snd, row + 1, 0, 0)
  {
    var a := Accumulated(dst, fst, snd, row, fst.shape.width, 0);
    var b := Accumulated(dst, fst, snd, row + 1, 0, 0);
    forall i | 0 <= i < |a|
      ensures a[i] == b[i]
    {
      FlatIdx(dst.shape, i);
    }
  }

  /**
   * One pass of mul()'s innermost loop adds lhs * rhs = fst[row, dot] * snd[dot, col] at (row, col)
   * and changes nothing else.
   */
  lemma MulStep(dst: K.Buf, fst: K.Buf, snd: K.Buf, row: nat, dot: nat, col: nat, before: seq<real>, lhs: real, rhs: real)
    requires dst.Valid() && fst.Valid() && snd.Valid() && K.MulShapes(dst.shape, fst.shape, snd.shape)
    requires row < dst.shape.height && dot < fst.shape.width && col < dst.shape.width
    requires before == Accumulated(dst, fst, snd, row, dot, col)
    requires lhs == K.Get(fst, row, dot) && rhs == K.Get(snd, dot, col)
    ensures Idx(dst.shape.width, row, col) < |before|
    ensures Accumulated(dst, fst, snd, row, dot, col + 1)
      == before[Idx(dst.shape.width, row, col) := before[Idx(dst.shape.width, row, col)] + lhs * rhs]
  {
    var w := dst.shape.width;
    var j := Idx(w, row, col);
    IdxInRange(dst.shape, row, col);
    IdxDivMod(w, row, col);
    var b := Accumulated(dst, fst, snd, row, dot, col + 1);
    forall i | 0 <= i < |before|
      ensures b[i] == before[j := before[j] + lhs * rhs][i]
    {
      FlatIdx(dst.shape, i);
      if i != j {
        assert i / w != row || i % w != col;
      }
    }
  }

  /** Where cell (row, col) sits in the flat layout, relative to its neighbours and its row. */
  lemma RowCell(s: Shape, row: nat, col: nat)
    requires row < s.height && col < s.width
    ensures Idx(s.width, row, 0) <= Idx(s.width, row, col) < Idx(s.width, row + 1, 0) <= s.Capacity()
    ensures Idx(s.width, row, col) + 1 == Idx(s.width, row, col + 1)
  {
    IdxInRange(s, row, col);
  }

  /** What the per-row sumk leaves at (row, col): the row's sum in column k, 0 elsewhere. */
  lemma SumkRowsCell(dst: K.Buf, src: K.Buf, k: real, row: nat, col: nat)
    requires dst.Valid() && src.Valid() && dst.shape == src.shape
    requires row < dst.shape.height && col < dst.shape.width
    ensures Idx(dst.shape.width, row, col) < |dst.elems|
    ensures K.SumkRows(dst, src, k).value.elems[Idx(dst.shape.width, row, col)]
      == if col as real == k then K.RowSum(src, row, src.shape.width) else 0.0
  {
    IdxInRange(dst.shape, row, col);
    IdxDivMod(dst.shape.width, row, col);
  }

  /** A row's sum depends only on the elements from that row's start onwards. */
  lemma {:induction false} RowSumFrom(a: K.Buf, b: K.Buf, row: nat, n: nat)
    requires a.Valid() && b.Valid() && a.shape == b.shape && row < a.shape.height && n <= a.shape.width
    requires forall i :: Idx(a.shape.width, row, 0) <= i < |a.elems| ==> a.elems[i] == b.elems[i]
    ensures K.RowSum(a, row, n) == K.RowSum(b, row, n)
  {
    if n > 0 {
      RowSumFrom(a, b, row, n - 1);
      RowCell(a.shape, row, n - 1);
    }
  }

  class MatrixBuffer {
    const shape: Shape
    const buffer: array<real>

    predicate Valid() {
      buffer.Length == shape.Capacity()
    }

    /** The current contents, as a value. */
    function Value(): K.Buf
      reads buffer
    {
      K.Buf(shape, buffer[..])
    }

    /** A buffer holding the given elements, or zero-filled when none are given. */
    constructor (shape: Shape, init: Option<seq<real>>)
      requires init.Some? ==> |init.value| == shape.Capacity()
      ensures Valid() && fresh(buffer)
      ensures Value() == if init.Some? then K.Buf(shape, init.value) else K.Blank(shape)
    {
      var a: array<real>;
      match init {
        case Some(values) =>
          a := new real[|values|](i requires 0 <= i < |values| => values[i]);
          assert a[..] == values;
        case None =>
          a := new real[shape.Capacity()](_ => 0.0);
          assert a[..] == K.Blank(shape).elems;
      }
      this.shape := shape;
      buffer := a;
    }

    method Fill(v: real)
      requires Valid()
      modifies buffer
      ensures Value() == K.Fill(old(Value()), v)
    {
      for i := 0 to buffer.Length
        invariant forall j :: 0 <= j < i ==> buffer[j] == v
      {
        buffer[i] := v;
      }
      assert buffer[..] == K.Fill(old(Value()), v).elems;
    }

    method Zero()
      requires Valid()
      modifies buffer
      ensures Value() == K.Fill(old(Value()), 0.0)
    {
      Fill(0.0);
    }

    method One()
      requires Valid()
      modifies buffer
      ensures Value() == K.Fill(old(Value()), 1.0)
    {
      Fill(1.0);
    }

    /** Copies values in from index 0; writes past the end of the buffer are dropped. */
    method Set(values: seq<real>)
      requires Valid()
      modifies buffer
      ensures Value() == K.SetValues(old(Value()), values)
      ensures forall i :: 0 <= i < buffer.Length ==>
        buffer[i] == if i < |values| then values[i] else old(buffer[i])
    {
      for i := 0 to |values|
        invariant forall j :: 0 <= j < buffer.Length ==>
          buffer[j] == if j < i && j < |values| then values[j] else old(buffer[j])
      {
        if i < buffer.Length {
          buffer[i] := values[i];
        }
      }
      assert buffer[..] == K.SetValues(old(Value()), values).elems;
    }

    /** Fills with min + random(i) * (max - min), where random(i) is the i-th draw of the random source. */
    method RandomUniform(min: real, max: real, random: nat -> real)
      requires Valid()
      modifies buffer
      ensures Value() == K.RandomUniform(old(Value()), min, max, random)
    {
      var delta := max - min;
      for i := 0 to buffer.Length
        invariant forall j :: 0 <= j < i ==> buffer[j] == min + random(j) * (max - min)
      {
        buffer[i] := min + random(i) * delta;
      }
      assert buffer[..] == K.RandomUniform(old(Value()), min, max, random).elems;
    }

    /** Writes f(i, src[i]) at every index i; src may be this very buffer. */
    method MapFrom(src: MatrixBuffer, f: (nat, real) -> real)
      requires Valid() && src.Valid() && src.shape == shape
      modifies buffer
      ensures forall j :: 0 <= j < buffer.Length ==> buffer[j] == f(j, old(src.buffer[j]))
    {
      for i := 0 to buffer.Length
        invariant forall j :: 0 <= j < i ==> buffer[j] == f(j, old(src.buffer[j]))
        invariant forall j :: i <= j < buffer.Length ==> src.buffer[j] == old(src.buffer[j])
      {
        buffer[i] := f(i, src.buffer[i]);
      }
    }

    method Relu(src: MatrixBuffer) returns (err: Option<K.KernelError>)
      requires Valid() && src.Valid()
      modifies buffer
      ensures Reports(K.Relu(old(Value()), old(src.Value())), err, old(Value()), Value())
    {
      if !shape.Equals(src.shape) {
        return Some(K.ShapeError("relu"));
      }
      MapFrom(src, (i: nat, x: real) => K.ReluOf(x));
      assert buffer[..] == K.Relu(old(Value()), old(src.Value())).value.elems;
      return None;
    }

    method Cos(trig: K.Trig, src: MatrixBuffer) returns (err: Option<K.KernelError>)
      requires Valid() && src.Valid()
      modifies buffer
      ensures Reports(K.Cos(trig, old(Value()), old(src.Value())), err, old(Value()), Value())
    {
      if !shape.Equals(src.shape) {
        return Some(K.ShapeError("cos"));
      }
      MapFrom(src, (i: nat, x: real) => trig.cos(x));
      assert buffer[..] == K.Cos(trig, old(Value()), old(src.Value())).value.elems;
      return None;
    }

    method Sin(trig: K.Trig, src: MatrixBuffer) returns (err: Option<K.KernelError>)
      requires Valid() && src.Valid()
      modifies buffer
      ensures Reports(K.Sin(trig, old(Value()), old(src.Value())), err, old(Value()), Value())
    {
      if !shape.Equals(src.shape) {
        return Some(K.ShapeError("sin"));
      }
      MapFrom(src, (i: nat, x: real) => trig.sin(x));
      assert buffer[..] == K.Sin(trig, old(Value()), old(src.Value())).value.elems;
      return None;
    }

    method Cis(trig: K.Trig, src: MatrixBuffer) returns (err: Option<K.KernelError>)
      requires Valid() && src.Valid()
      modifies buffer
      ensures Reports(K.Cis(trig, old(Value()), old(src.Value())), err, old(Value()), Value())
    {
      if !shape.Equals(src.shape) {
        return Some(K.ShapeError("cis"));
      }
      MapFrom(src, (i: nat, x: real) => if i % 2 == 0 then trig.cos(x) else trig.sin(x));
      assert buffer[..] == K.Cis(trig, old(Value()), old(src.Value())).value.elems;
      return None;
    }

    method Sic(trig: K.Trig, src: MatrixBuffer) returns (err: Option<K.KernelError>)
      requires Valid() && src.Valid()
      modifies buffer
      ensures Reports(K.Sic(trig, old(Value()), old(src.Value())), err, old(Value()), Value())
    {
      if !shape.Equals(src.shape) {
        return Some(K.ShapeError("sic"));
      }
      MapFrom(src, (i: nat, x: real) => if i % 2 == 0 then trig.sin(x) else trig.cos(x));
      assert buffer[..] == K.Sic(trig, old(Value()), old(src.Value())).value.elems;
      return None;
    }

    /** Writes f(fst[i], snd[i]) at every index i; either operand may be this very buffer. */
    method ZipFrom(fst: MatrixBuffer, snd: MatrixBuffer, f: (real, real) -> real)
      requires Valid() && fst.Valid() && snd.Valid() && fst.shape == shape && snd.shape == shape
      modifies buffer
      ensures forall j :: 0 <= j < buffer.Length ==> buffer[j] == f(old(fst.buffer[j]), old(snd.buffer[j]))
    {
      for i := 0 to buffer.Length
        invariant forall j :: 0 <= j < i ==> buffer[j] == f(old(fst.buffer[j]), old(snd.buffer[j]))
        invariant forall j :: i <= j < buffer.Length ==> fst.buffer[j] == old(fst.buffer[j])
        invariant forall j :: i <= j < buffer.Length ==> snd.buffer[j] == old(snd.buffer[j])
      {
        buffer[i] := f(fst.buffer[i], snd.buffer[i]);
      }
    }

    method Add(fst: MatrixBuffer, snd: MatrixBuffer) returns (err: Option<K.KernelError>)
      requires Valid() && fst.Valid() && snd.Valid()
      modifies buffer
      ensures Reports(K.Add(old(Value()), old(fst.Value()), old(snd.Value())), err, old(Value()), Value())
    {
      if !shape.Equals(fst.shape) || !shape.Equals(snd.shape) {
        return Some(K.ShapeError("add"));
      }
      ZipFrom(fst, snd, (x: real, y: real) => x + y);
      assert buffer[..] == K.Add(old(Value()), old(fst.Value()), old(snd.Value())).value.elems;
      return None;
    }

    method Point(fst: MatrixBuffer, snd: MatrixBuffer) returns (err: Option<K.KernelError>)
      requires Valid() && fst.Valid() && snd.Valid()
      modifies buffer
      ensures Reports(K.Point(old(Value()), old(fst.Value()), old(snd.Value())), err, old(Value()), Value())
    {
      if !shape.Equals(fst.shape) || !shape.Equals(snd.shape) {
        return Some(K.ShapeError("point"));
      }
      ZipFrom(fst, snd, (x: real, y: real) => x * y);
      assert buffer[..] == K.Point(old(Value()), old(fst.Value()), old(snd.Value())).value.elems;
      return None;
    }

    /** Writes src[col, row] at (row, col), visiting dst row by row; src must be another buffer. */
    method Dual(src: MatrixBuffer) returns (err: Option<K.KernelError>)
      requires Valid() && src.Valid() && src.buffer != buffer
      modifies buffer
      ensures Reports(K.Dual(old(Value()), old(src.Value())), err, old(Value()), Value())
    {
      if shape.height != src.shape.width || shape.width != src.shape.height {
        return Some(K.ShapeError("dual"));
      }
      ghost var t := K.Transposed(shape, src.Value());
      for row := 0 to shape.height
        invariant Idx(shape.width, row, 0) <= buffer.Length
        invariant forall i :: 0 <= i < Idx(shape.width, row, 0) ==> buffer[i] == t[i]
      {
        DualRow(src, row, t);
      }
      RowStart(shape, shape.height);
      assert buffer[..] == t;
      return None;
    }

    /** One row of dual(): the elements before the row are kept, the row receives its transposed elements. */
    method DualRow(src: MatrixBuffer, row: nat, ghost t: seq<real>)
      requires Valid() && src.Valid() && src.buffer != buffer && K.DualShapes(shape, src.shape)
      requires row < shape.height && t == K.Transposed(shape, src.Value())
      requires forall i :: 0 <= i < Idx(shape.width, row, 0) ==> buffer[i] == t[i]
      modifies buffer
      ensures Idx(shape.width, row + 1, 0) <= buffer.Length
      ensures forall i :: 0 <= i < Idx(shape.width, row + 1, 0) ==> buffer[i] == t[i]
    {
      RowStart(shape, row);
      RowStart(shape, row + 1);
      for col := 0 to shape.width
        invariant forall i :: 0 <= i < Idx(shape.width, row, col) ==> buffer[i] == t[i]
      {
        DualStep(shape, src.Value(), row, col);
        buffer[Idx(shape.width, row, col)] := src.buffer[Idx(src.shape.width, col, row)];
      }
    }
  
    /** Adds the matrix product of fst and snd onto the current contents; neither operand may be this buffer. */
    method Mul(fst: MatrixBuffer, snd: MatrixBuffer) returns (err: Option<K.KernelError>)
      requires Valid() && fst.Valid() && snd.Valid() && fst.buffer != buffer && snd.buffer != buffer
      modifies buffer
      ensures Reports(K.Mul(old(Value()), old(fst.Value()), old(snd.Value())), err, old(Value()), Value())
    {
      if shape.height != fst.shape.height || shape.width != snd.shape.width || fst.shape.width != snd.shape.height {
        return Some(K.ShapeError("mul"));
      }
      ghost var d, f, g := Value(), fst.Value(), snd.Value();
      AccumulatedStart(d, f, g);
      for row := 0 to fst.shape.height
        invariant buffer[..] == Accumulated(d, f, g, row, 0, 0)
      {
        for dot := 0 to fst.shape.width
          invariant buffer[..] == Accumulated(d, f, g, row, dot, 0)
        {
          IdxInRange(fst.shape, row, dot);
          var lhs := fst.buffer[Idx(fst.shape.width, row, dot)];
          assert lhs == K.Get(f, row, dot);
          MulDot(snd, row, dot, lhs, d, f);
        }
        AccumulatedNextRow(d, f, g, row);
      }
      AccumulatedEnd(d, f, g);
      return None;
    }

    /** mul()'s innermost loop: adds lhs = fst[row, dot] times row `dot` of snd onto row `row`. */
    method MulDot(snd: MatrixBuffer, row: nat, dot: nat, lhs: real, ghost d: K.Buf, ghost f: K.Buf)
      requires Valid() && snd.Valid() && snd.buffer != buffer && d.Valid() && f.Valid()
      requires d.shape == shape && K.MulShapes(shape, f.shape, snd.shape)
      requires row < shape.height && dot < f.shape.width && lhs == K.Get(f, row, dot)
      requires buffer[..] == Accumulated(d, f, snd.Value(), row, dot, 0)
      modifies buffer
      ensures buffer[..] == Accumulated(d, f, snd.Value(), row, dot + 1, 0)
    {
      ghost var g := snd.Value();
      for col := 0 to snd.shape.width
        invariant buffer[..] == Accumulated(d, f, g, row, dot, col)
      {
        IdxInRange(snd.shape, dot, col);
        var rhs := snd.buffer[Idx(snd.shape.width, dot, col)];
        assert rhs == K.Get(g, dot, col);
        MulStep(d, f, g, row, dot, col, buffer[..], lhs, rhs);
        buffer[Idx(shape.width, row, col)] := buffer[Idx(shape.width, row, col)] + lhs * rhs;
      }
      AccumulatedNextDot(d, f, g, row, dot);
    }
  
    /** The sum of the elements of the given row. */
    method RowSumOf(row: nat) returns (sum: real)
      requires Valid() && row < shape.height
      ensures sum == K.RowSum(Value(), row, shape.width)
    {
      sum := 0.0;
      for col := 0 to shape.width
        invariant sum == K.RowSum(Value(), row, col)
      {
        RowCell(shape, row, col);
        sum := sum + buffer[Idx(shape.width, row, col)];
      }
    }

    /**
     * One row of the per-row sumk: the row is summed from src, then its column k receives the sum
     * and its other columns 0. Rows before it are left alone, rows after it are not read.
     */
    method SumkRow(src: MatrixBuffer, k: real, row: nat, ghost s0: K.Buf, ghost e: seq<real>)
      requires Valid() && src.Valid() && src.shape == shape && s0.Valid() && s0.shape == shape
      requires row < shape.height && |e| == buffer.Length
      requires forall col :: 0 <= col < shape.width ==>
        && Idx(shape.width, row, col) < |e|
        && e[Idx(shape.width, row, col)] == if col as real == k then K.RowSum(s0, row, shape.width) else 0.0
      requires forall i :: Idx(shape.width, row, 0) <= i < buffer.Length ==> src.buffer[i] == s0.elems[i]
      modifies buffer
      ensures forall i :: 0 <= i < Idx(shape.width, row, 0) ==> buffer[i] == old(buffer[i])
      ensures forall i :: Idx(shape.width, row, 0) <= i < Idx(shape.width, row + 1, 0) ==> buffer[i] == e[i]
      ensures forall i :: Idx(shape.width, row + 1, 0) <= i < buffer.Length ==> src.buffer[i] == s0.elems[i]
    {
      RowStart(shape, row);
      var sum := src.RowSumOf(row);
      RowSumFrom(src.Value(), s0, row, shape.width);
      for col := 0 to shape.width
        invariant forall i :: 0 <= i < Idx(shape.width, row, 0) ==> buffer[i] == old(buffer[i])
        invariant forall i :: Idx(shape.width, row, 0) <= i < Idx(shape.width, row, col) ==> buffer[i] == e[i]
        invariant forall i :: Idx(shape.width, row + 1, 0) <= i < buffer.Length ==> src.buffer[i] == s0.elems[i]
      {
        RowCell(shape, row, col);
        if col as real == k {
          buffer[Idx(shape.width, row, col)] := sum;
        } else {
          buffer[Idx(shape.width, row, col)] := 0.0;
        }
      }
    }

    /**
     * Per-row sumk: each row's sum goes to its column k and every other element of the row
     * becomes 0. A row is summed before it is written, so src may be this very buffer.
     */
    method Sumk(src: MatrixBuffer, k: real) returns (err: Option<K.KernelError>)
      requires Valid() && src.Valid()
      modifies buffer
      ensures Reports(K.SumkRows(old(Value()), old(src.Value()), k), err, old(Value()), Value())
    {
      if !shape.Equals(src.shape) {
        return Some(K.ShapeError("sumk"));
      }
      ghost var s0 := src.Value();
      ghost var e := K.SumkRows(Value(), s0, k).value.elems;
      for row := 0 to shape.height
        invariant Idx(shape.width, row, 0) <= buffer.Length
        invariant forall i :: 0 <= i < Idx(shape.width, row, 0) ==> buffer[i] == e[i]
        invariant forall i :: Idx(shape.width, row, 0) <= i < buffer.Length ==> src.buffer[i] == s0.elems[i]
      {
        forall col | 0 <= col < shape.width
          ensures Idx(shape.width, row, col) < |e| && e[Idx(shape.width, row, col)] == if col as real == k then K.RowSum(s0, row, shape.width) else 0.0
        {
          SumkRowsCell(old(Value()), s0, k, row, col);
        }
        SumkRow(src, k, row, s0, e);
        RowStart(shape, row + 1);
      }
      RowStart(shape, shape.height);
      assert buffer[..] == e;
      return None;
    }

    /** Flat sumk: the sum of all elements goes to flat index k and every other element becomes 0. */
    method SumkFlat(src: MatrixBuffer, k: real) returns (err: Option<K.KernelError>)
      requires Valid() && src.Valid()
      modifies buffer
      ensures Reports(K.SumkFlat(old(Value()), old(src.Value()), k), err, old(Value()), Value())
    {
      if !shape.Equals(src.shape) {
        return Some(K.ShapeError("sumk"));
      }
      var sum := 0.0;
      for i := 0 to buffer.Length
        invariant sum == K.Total(old(src.buffer[..]), i)
      {
        sum := sum + src.buffer[i];
      }
      for i := 0 to buffer.Length
        invariant forall j :: 0 <= j < i ==> buffer[j] == if j as real == k then sum else 0.0
      {
        if i as real == k {
          buffer[i] := sum;
        } else {
          buffer[i] := 0.0;
        }
      }
      assert buffer[..] == K.SumkFlat(old(Value()), old(src.Value()), k).value.elems;
      return None;
    }

    /** Equal dimensions and every pair of elements within Epsilon of each other. */
    method Equals(rhs: MatrixBuffer) returns (b: bool)
      requires Valid() && rhs.Valid()
      ensures b == K.Close(Value(), rhs.Value())
    {
      if shape.height != rhs.shape.height || shape.width != rhs.shape.width {
        return false;
      }
      for i := 0 to buffer.Length
        invariant forall j :: 0 <= j < i ==> -K.Epsilon <= buffer[j] - rhs.buffer[j] <= K.Epsilon
      {
        var delta := buffer[i] - rhs.buffer[i];
        if (if delta < 0.0 then -delta else delta) > K.Epsilon {
          assert !K.Close(Value(), rhs.Value()) by {
            assert Value().elems[i] - rhs.Value().elems[i] == delta;
          }
          return false;
        }
      }
      return true;
    }
  }
}
