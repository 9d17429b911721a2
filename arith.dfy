// Index arithmetic shared by the NCHW loops: flat offsets of a 4-D
// row-major tensor, their bounds, and the inverse decomposition.

module Arith {

  lemma MulMono(a: nat, b: nat, n: nat)
    requires a <= b
    ensures a * n <= b * n
  {
  }

  /** Euclidean division undoes a row-major encoding `q * n + r` with `r < n`. */
  lemma DivMod(q: nat, r: nat, n: nat)
    requires r < n
    ensures (q * n + r) / n == q && (q * n + r) % n == r
  {
    var x := q * n + r;
    var k, s := x / n, x % n;
    assert x == k * n + s;
    if k < q {
      MulMono(k + 1, q, n);
      assert false;
    } else if k > q {
      MulMono(q + 1, k, n);
      assert false;
    }
  }

  /** Appending one more row-major digit keeps the offset below the new extent. */
  lemma RowMajorBound(a: nat, extentA: nat, x: nat, extentX: nat)
    requires a < extentA && x < extentX
    ensures a * extentX + x < extentA * extentX
  {
    MulMono(a + 1, extentA, extentX);
  }

  /** A value below `q * n` has quotient below `q`. */
  lemma DivBound(x: nat, q: nat, n: nat)
    requires n > 0 && x < q * n
    ensures x / n < q
  {
    DivMod(x / n, x % n, n);
    if x / n >= q {
      MulMono(q, x / n, n);
    }
  }

  lemma MulAssoc(x: nat, y: nat, z: nat)
    ensures x * y * z == x * (y * z)
  {
  }

  /** One full row of `n` cells moves the offset to the start of the next row. */
  lemma NextRow(x: nat, n: nat)
    ensures x * n + n == (x + 1) * n
  {
  }

  // ---- 4-D row-major (NCHW) offsets ----

  datatype Dims4 = Dims4(d0: nat, d1: nat, d2: nat, d3: nat)

  function Count(d: Dims4): nat
  {
    d.d0 * d.d1 * d.d2 * d.d3
  }

  /**
   * The offset of cell (a, b, c, e) of a contiguous `d0 x d1 x d2 x d3`
   * tensor; a cell inside the shape lies inside the buffer.
   */
  function Offset(d: Dims4, a: nat, b: nat, c: nat, e: nat): (r: nat)
    ensures InRange(d, a, b, c, e) ==> r < Count(d)
  {
    var r := ((a * d.d1 + b) * d.d2 + c) * d.d3 + e;
    if InRange(d, a, b, c, e) then
      RowMajorBound(a, d.d0, b, d.d1);
      RowMajorBound(a * d.d1 + b, d.d0 * d.d1, c, d.d2);
      RowMajorBound((a * d.d1 + b) * d.d2 + c, d.d0 * d.d1 * d.d2, e, d.d3);
      r
    else
      r
  }

  predicate InRange(d: Dims4, a: nat, b: nat, c: nat, e: nat)
  {
    a < d.d0 && b < d.d1 && c < d.d2 && e < d.d3
  }

  /** The offset of a row start, written out as a sum of strides. */
  lemma OffsetExpanded(d: Dims4, a: nat, b: nat, c: nat)
    ensures Offset(d, a, b, c, 0) == a * d.d1 * d.d2 * d.d3 + b * d.d2 * d.d3 + c * d.d3
  {
    calc {
      ((a * d.d1 + b) * d.d2 + c) * d.d3;
      (a * d.d1 + b) * d.d2 * d.d3 + c * d.d3;
      { assert (a * d.d1 + b) * d.d2 == a * d.d1 * d.d2 + b * d.d2; }
      (a * d.d1 * d.d2 + b * d.d2) * d.d3 + c * d.d3;
    }
  }

  /** The four coordinates of the cell at flat offset `i`. */
  datatype Coord = Coord(a: nat, b: nat, c: nat, e: nat)

  lemma CountPositive(d: Dims4, i: nat)
    requires i < Count(d)
    ensures d.d0 > 0 && d.d1 > 0 && d.d2 > 0 && d.d3 > 0
  {
  }

  /** Splitting `x` into quotient and remainder by `n`, with the quotient bounded. */
  lemma Split(x: nat, q: nat, n: nat)
    requires n > 0 && x < q * n
    ensures x / n < q && x % n < n && x == (x / n) * n + x % n
  {
    DivBound(x, q, n);
  }

  function Quotient(x: nat, n: nat): nat
    requires n > 0
  {
    x / n
  }

  function Remainder(x: nat, n: nat): nat
    requires n > 0
  {
    x % n
  }

  function Decode(d: Dims4, i: nat): (p: Coord)
    requires i < Count(d)
    ensures InRange(d, p.a, p.b, p.c, p.e)
    ensures Offset(d, p.a, p.b, p.c, p.e) == i
  {
    CountPositive(d, i);
    DecodeDigits(d, i);
    var q2 := Quotient(i, d.d3);
    var q1 := Quotient(q2, d.d2);
    Coord(Quotient(q1, d.d1), Remainder(q1, d.d1), Remainder(q2, d.d2), Remainder(i, d.d3))
  }

  /** The mixed-radix digits of `i` name a cell inside the shape whose offset is `i`. */
  lemma DecodeDigits(d: Dims4, i: nat)
    requires d.d1 > 0 && d.d2 > 0 && d.d3 > 0
    requires i < Count(d)
    ensures var q2 := Quotient(i, d.d3); var q1 := Quotient(q2, d.d2);
      InRange(d, Quotient(q1, d.d1), Remainder(q1, d.d1), Remainder(q2, d.d2), Remainder(i, d.d3)) &&
      Offset(d, Quotient(q1, d.d1), Remainder(q1, d.d1), Remainder(q2, d.d2), Remainder(i, d.d3)) == i
  {
    var q2 := i / d.d3;
    Split(i, d.d0 * d.d1 * d.d2, d.d3);
    var q1 := q2 / d.d2;
    Split(q2, d.d0 * d.d1, d.d2);
    Split(q1, d.d0, d.d1);
    Digits(d, q1 / d.d1, q1 % d.d1, q2 % d.d2, i % d.d3, q1, q2, i);
  }

  /** Offset of cell (a, b, c, e) from its partial row-major sums. */
  lemma Digits(d: Dims4, a: nat, b: nat, c: nat, e: nat, q1: nat, q2: nat, i: nat)
    requires q1 == a * d.d1 + b && q2 == q1 * d.d2 + c && i == q2 * d.d3 + e
    ensures Offset(d, a, b, c, e) == i
  {
  }

  /** Decoding inverts `Offset`: distinct cells never share an offset. */
  lemma {:induction false} DecodeOffset(d: Dims4, a: nat, b: nat, c: nat, e: nat)
    requires InRange(d, a, b, c, e)
    ensures Decode(d, Offset(d, a, b, c, e)) == Coord(a, b, c, e)
  {
    var q1 := a * d.d1 + b;
    var q2 := q1 * d.d2 + c;
    var i := q2 * d.d3 + e;
    assert Offset(d, a, b, c, e) == i;
    DivMod(q2, e, d.d3);
    DivMod(q1, c, d.d2);
    DivMod(a, b, d.d1);
    assert i / d.d3 == q2 && i % d.d3 == e;
    assert q2 / d.d2 == q1 && q2 % d.d2 == c;
    assert q1 / d.d1 == a && q1 % d.d1 == b;
  }
}
