/** The (height, width) descriptor of a matrix, and its row-major layout. */
module Shapes {

  /** An immutable matrix shape. Elements are laid out row by row. */
  datatype Shape = Shape(height: nat, width: nat) {

    /** Number of elements a buffer of this shape holds. */
    function Capacity(): nat {
      height * width
    }

    /** Two shapes are equal when both dimensions agree, which is equality of the two records. */
    predicate Equals(rhs: Shape)
      ensures Equals(rhs) <==> this == rhs
    {
      height == rhs.height && width == rhs.width
    }
  }

  /** Flat position of element (row, col) in a row-major layout of the given width. */
  function Idx(width: nat, row: nat, col: nat): nat {
    row * width + col
  }

  lemma MulMono(a: nat, b: nat, w: nat)
    requires a <= b
    ensures a * w <= b * w
  {
    var d := b - a;
    assert b * w == a * w + d * w;
  }

  /** Every (row, col) inside the shape lands inside the buffer. */
  lemma IdxInRange(s: Shape, row: nat, col: nat)
    requires row < s.height && col < s.width
    ensures Idx(s.width, row, col) < s.Capacity()
    ensures Idx(s.width, row, 0) + s.width <= s.Capacity()
  {
    MulMono(row + 1, s.height, s.width);
  }

  /** The row and column of a flat position are recovered by division and remainder. */
  lemma IdxDivMod(width: nat, row: nat, col: nat)
    requires col < width
    ensures Idx(width, row, col) / width == row
    ensures Idx(width, row, col) % width == col
  {
    var i := Idx(width, row, col);
    var q, m := i / width, i % width;
    assert q * width + m == row * width + col;
    if q < row {
      MulMono(q + 1, row, width);
      assert false;
    } else if row < q {
      MulMono(row + 1, q, width);
      assert false;
    }
  }

  /** Every flat position inside the buffer is the position of one (row, col) inside the shape. */
  lemma FlatIdx(s: Shape, i: nat)
    requires i < s.Capacity()
    ensures s.width > 0
    ensures i / s.width < s.height && i % s.width < s.width
    ensures Idx(s.width, i / s.width, i % s.width) == i
  {
    if s.width == 0 {
      assert false;
    }
    var q := i / s.width;
    if s.height <= q {
      MulMono(s.height, q, s.width);
      assert false;
    }
  }

  /** A shape holds no elements exactly when one of its dimensions is 0. */
  lemma EmptyCapacity(s: Shape)
    ensures s.Capacity() == 0 <==> s.height == 0 || s.width == 0
  {
    if s.height > 0 && s.width > 0 {
      MulMono(1, s.height, s.width);
    }
  }

  lemma EqualsReflexive(a: Shape)
    ensures a.Equals(a)
  {
  }

  lemma EqualsSymmetric(a: Shape, b: Shape)
    ensures a.Equals(b) <==> b.Equals(a)
  {
  }

  lemma EqualShapesEqualCapacity(a: Shape, b: Shape)
    requires a.Equals(b)
    ensures a.Capacity() == b.Capacity()
  {
  }
}
