/** The pure grid arithmetic of the pitch (frontend/src/components/Pitch.tsx):
    normalised cursor coordinates to a 1-based row-major cell, and a cell to
    its column, row and centre in the 71 by 100 drawing space. Coordinates
    are exact reals, not IEEE doubles. */
module PitchGeometry {

  /** `GRID_COLS` and `GRID_ROWS`: 63 squares, 7 by 9. */
  const GridCols: int := 7
  const GridRows: int := 9

  /** The drawing space is 71 wide and 100 high. */
  const PitchWidth: real := 71.0
  const PitchHeight: real := 100.0
  const SquareWidth: real := PitchWidth / 7.0
  const SquareHeight: real := PitchHeight / 9.0

  function Max(a: int, b: int): int { if a >= b then a else b }
  function Min(a: int, b: int): int { if a <= b then a else b }

  /** The floor of `norm * n`, clamped to `0..n-1`: the index along one
      axis, clamped so that a cursor past an edge lands on the edge. */
  function AxisIndex(norm: real, n: int): (k: int)
    ensures n >= 1 ==> 0 <= k < n
    ensures n >= 1 && norm <= 0.0 ==> k == 0
    ensures n >= 1 && norm >= 1.0 ==> k == n - 1
    ensures n >= 1 && 0.0 <= norm && (norm * n as real).Floor < n ==> k == (norm * n as real).Floor
  {
    assert n >= 1 && norm <= 0.0 ==> norm * n as real <= 0.0;
    assert n >= 1 && norm >= 1.0 ==> norm * n as real >= n as real;
    Min(n - 1, Max(0, (norm * n as real).Floor))
  }

  /** `positionToSquare`. */
  function PositionToSquare(normX: real, normY: real, cols: int, rows: int): (s: int)
    ensures cols >= 1 && rows >= 1 ==> 1 <= s <= cols * rows
    ensures cols >= 1 ==>
              (s - 1) % cols == AxisIndex(normX, cols) && (s - 1) / cols == AxisIndex(normY, rows)
  {
    var col := AxisIndex(normX, cols);
    var row := AxisIndex(normY, rows);
    CellBound(row, col, rows, cols);
    DivModOfCell(row, col, cols);
    row * cols + col + 1
  }

  lemma CellBound(row: int, col: int, rows: int, cols: int)
    ensures 0 <= row < rows && 0 <= col < cols ==> 1 <= row * cols + col + 1 <= cols * rows
  {
    if 0 <= row < rows && 0 <= col < cols {
      assert row * cols <= (rows - 1) * cols;
    }
  }

  lemma DivModOfCell(row: int, col: int, cols: int)
    ensures 0 <= col < cols ==> (row * cols + col) % cols == col && (row * cols + col) / cols == row
  {
    if 0 <= col < cols {
      var a := row * cols + col;
      var q, r := a / cols, a % cols;
      assert a == cols * q + r && 0 <= r < cols;
      var k := q - row;
      assert cols * k == col - r by {
        assert cols * q == cols * row + cols * k;
      }
      MultipleBounds(cols, k);
    }
  }

  lemma MultipleBounds(c: int, k: int)
    ensures c > 0 && k >= 1 ==> c * k >= c
    ensures c > 0 && k <= -1 ==> c * k <= -c
  {
    if c > 0 && k >= 1 {
      assert c * k == c + c * (k - 1);
    }
    if c > 0 && k <= -1 {
      assert c * k == -c + c * (k + 1);
    }
  }

  /** JavaScript `a % b` for a positive `b`: the remainder takes the sign of `a`. */
  function JsRem(a: int, b: int): (r: int)
    requires b > 0
    ensures a >= 0 ==> r == a % b
    ensures -b < r < b
  {
    if a >= 0 then a % b else -((-a) % b)
  }

  /** The column of a cell when its centre is computed: the JavaScript remainder
      of the zero-based cell number by the column count. */
  function SquareCol(s: int): int {
    JsRem(s - 1, GridCols)
  }

  /** The row of a cell when its centre is computed: the zero-based cell number
      divided by the column count, rounded down
      (Dafny's division by a positive divisor rounds down). */
  function SquareRow(s: int): int {
    (s - 1) / GridCols
  }

  /** Every cell of the 7 by 9 board has a column in 0..6 and a row in 0..8,
      and they give the cell back. */
  lemma CellDecomposes(s: int)
    requires 1 <= s <= GridCols * GridRows
    ensures 0 <= SquareCol(s) < GridCols && 0 <= SquareRow(s) < GridRows
    ensures SquareRow(s) * GridCols + SquareCol(s) + 1 == s
  {
  }

  /** And every column and row in range names one cell whose decomposition
      they are: the cells and the (column, row) pairs are in bijection. */
  lemma CellComposes(col: int, row: int)
    requires 0 <= col < GridCols && 0 <= row < GridRows
    ensures 1 <= row * GridCols + col + 1 <= GridCols * GridRows
    ensures SquareCol(row * GridCols + col + 1) == col && SquareRow(row * GridCols + col + 1) == row
  {
  }

  /** `squareToCenter`, x coordinate. */
  function CenterX(s: int): real {
    SquareCol(s) as real * SquareWidth + SquareWidth / 2.0
  }

  /** `squareToCenter`, y coordinate. */
  function CenterY(s: int): real {
    SquareRow(s) as real * SquareHeight + SquareHeight / 2.0
  }

  lemma FloorOfHalf(k: int)
    ensures (k as real + 0.5).Floor == k
  {
  }

  /** Normalising a cell's centre and mapping it back through
      `positionToSquare` gives the cell again. */
  lemma {:induction false} CenterRoundTrip(s: int)
    requires 1 <= s <= GridCols * GridRows
    ensures PositionToSquare(CenterX(s) / PitchWidth, CenterY(s) / PitchHeight, GridCols, GridRows) == s
  {
    var col, row := SquareCol(s), SquareRow(s);
    CellDecomposes(s);
    assert CenterX(s) / PitchWidth * GridCols as real == col as real + 0.5;
    assert CenterY(s) / PitchHeight * GridRows as real == row as real + 0.5;
    FloorOfHalf(col);
    FloorOfHalf(row);
  }

  /** Hence the centre is stable through the mapping pair. */
  lemma CenterStable(s: int)
    requires 1 <= s <= GridCols * GridRows
    ensures var s' := PositionToSquare(CenterX(s) / PitchWidth, CenterY(s) / PitchHeight, GridCols, GridRows);
            CenterX(s') == CenterX(s) && CenterY(s') == CenterY(s)
  {
    CenterRoundTrip(s);
  }
}
