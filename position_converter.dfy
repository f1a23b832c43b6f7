/** The static helper that maps a linear cell index to grid coordinates.
    Cells are numbered like a numeric keypad: 1 2 3 is the bottom row,
    7 8 9 the top row, so cell 7 is row 0 and cell 3 is row 2. */
module PositionConverter {

  /** Java's `/` on `int`: the quotient is truncated toward zero. */
  function JavaDiv(a: int, b: int): int
    requires b > 0
  {
    if a >= 0 then a / b else -((-a) / b)
  }

  /** Java's `%` on `int`: the remainder takes the sign of the dividend,
      so that `JavaDiv(a, b) * b + JavaRem(a, b) == a`. */
  function JavaRem(a: int, b: int): int
    requires b > 0
  {
    a - JavaDiv(a, b) * b
  }

  /** The zero-based row of cell `index` on a `dimension` x `dimension`
      grid: cells 1 .. `dimension` are the bottom row. */
  function PositionToRow(index: int, dimension: int): (row: int)
    requires dimension >= 1
    ensures 1 <= index <= dimension * dimension ==> 0 <= row < dimension
  {
    // Both branches compute the same row; the first one only brings in the
    // fact that an in-range index has a quotient below `dimension`.
    if 1 <= index <= dimension * dimension then
      QuotientBelow(index - 1, dimension);
      dimension - 1 - JavaDiv(index - 1, dimension)
    else
      dimension - 1 - JavaDiv(index - 1, dimension)
  }

  /** The zero-based column of cell `index` on a `dimension` x `dimension` grid. */
  function PositionToColumn(index: int, dimension: int): (column: int)
    requires dimension >= 1
    ensures index >= 1 ==> 0 <= column < dimension
  {
    JavaRem(index - 1, dimension)
  }

  /** The cell index that lies at (`row`, `column`): the inverse of the two
      conversions above. */
  function PositionOf(row: int, column: int, dimension: int): int
    requires dimension >= 1
  {
    (dimension - 1 - row) * dimension + column + 1
  }

  /** For non-negative dividends Java's operators agree with Dafny's. */
  lemma JavaDivMod(a: int, b: int)
    requires b > 0 && a >= 0
    ensures JavaDiv(a, b) == a / b && JavaRem(a, b) == a % b
  {
  }

  /** Every index in `[1, dimension * dimension]` lands on the grid. */
  lemma PositionInRange(index: int, dimension: int)
    requires dimension >= 1 && 1 <= index <= dimension * dimension
    ensures 0 <= PositionToRow(index, dimension) < dimension
    ensures 0 <= PositionToColumn(index, dimension) < dimension
  {
    JavaDivMod(index - 1, dimension);
    QuotientBelow(index - 1, dimension);
  }

  /** A non-negative offset below `d * d` has a quotient below `d`. */
  lemma QuotientBelow(a: int, d: int)
    requires d >= 1 && 0 <= a < d * d
    ensures 0 <= a / d < d
  {
    MulCancel(a / d, d, d);
  }

  /** `x * d < y * d` with `d` positive gives `x < y`. */
  lemma MulCancel(x: int, y: int, d: int)
    requires d >= 1 && x * d < y * d
    ensures x < y
  {
  }

  /** An offset `q * d + c` with `q, c` in `[0, d)` lies in `[0, d * d)`. */
  lemma OffsetBelow(q: int, c: int, d: int)
    requires 0 <= q < d && 0 <= c < d
    ensures 0 <= q * d + c < d * d
  {
    assert q * d <= (d - 1) * d;
  }

  /** Converting a cell index to coordinates and back gives the index again,
      for every index (the conversions lose nothing). */
  lemma PositionRoundTrip(index: int, dimension: int)
    requires dimension >= 1
    ensures PositionOf(PositionToRow(index, dimension), PositionToColumn(index, dimension), dimension) == index
  {
    var q := JavaDiv(index - 1, dimension);
    var r := JavaRem(index - 1, dimension);
    assert PositionToRow(index, dimension) == dimension - 1 - q;
    assert q * dimension + r == index - 1;
  }

  /** Every cell of the grid is reached by exactly the index `PositionOf`
      gives it: the conversions map `[1, dimension * dimension]` onto the grid. */
  lemma CoordinatesRoundTrip(row: int, column: int, dimension: int)
    requires dimension >= 1 && 0 <= row < dimension && 0 <= column < dimension
    ensures 1 <= PositionOf(row, column, dimension) <= dimension * dimension
    ensures PositionToRow(PositionOf(row, column, dimension), dimension) == row
    ensures PositionToColumn(PositionOf(row, column, dimension), dimension) == column
  {
    var q := dimension - 1 - row;
    var offset := q * dimension + column;
    assert PositionOf(row, column, dimension) - 1 == offset;
    OffsetBelow(q, column, dimension);
    DivModUnique(offset, dimension, q, column);
  }

  /** Quotient and remainder are determined by `a == q * d + c`, `0 <= c < d`. */
  lemma DivModUnique(a: int, d: int, q: int, c: int)
    requires d >= 1 && 0 <= c < d && a == q * d + c
    ensures a / d == q && a % d == c
  {
    var q', c' := a / d, a % d;
    assert q' * d + c' == a;
    MulCancel(q', q + 1, d);
    MulCancel(q, q' + 1, d);
  }

  /** Two different indices in range never share a cell. */
  lemma PositionInjective(i: int, j: int, dimension: int)
    requires dimension >= 1 && i != j
    ensures PositionToRow(i, dimension) != PositionToRow(j, dimension)
         || PositionToColumn(i, dimension) != PositionToColumn(j, dimension)
  {
    PositionRoundTrip(i, dimension);
    PositionRoundTrip(j, dimension);
  }

  /** With dimension 3, cell `i` in `[1, 9]` has `(2 - row) * 3 + column == i - 1`. */
  lemma PositionLayout(index: int)
    requires 1 <= index <= 9
    ensures 0 <= PositionToRow(index, 3) < 3 && 0 <= PositionToColumn(index, 3) < 3
    ensures (2 - PositionToRow(index, 3)) * 3 + PositionToColumn(index, 3) == index - 1
  {
    PositionRoundTrip(index, 3);
  }

  /** The values the suite asserts for cells 3, 5 and 7 at dimension 3. */
  lemma PositionSamples()
    ensures PositionToRow(3, 3) == 2 && PositionToRow(5, 3) == 1 && PositionToRow(7, 3) == 0
    ensures PositionToColumn(3, 3) == 2 && PositionToColumn(5, 3) == 1 && PositionToColumn(7, 3) == 0
  {
  }
}
