/** The server's grid configuration (app/core/grid.py): a frozen record of
    columns and rows with a computed total. A datatype value cannot be
    changed after it is built, which is what `frozen=True` promises. */
module Grid {

  datatype GridConfig = GridConfig(cols: int, rows: int) {
    /** `total`: the number of squares. */
    function Total(): (t: int)
      ensures cols >= 0 && rows >= 0 ==> t >= 0
      ensures cols >= 1 && rows >= 1 ==> t >= cols && t >= rows
    {
      cols * rows
    }
  }

  /** `GridConfig()` with its defaults. */
  const DefaultGrid := GridConfig(7, 5)

  /** `GRID_4V4`. */
  const Grid4v4 := DefaultGrid

  /** The server's default grid is 7 by 5, 35 squares: not the 7 by 9 board
      (63 squares) that the detail view announces and the pitch draws. */
  lemma Grid4v4Total()
    ensures Grid4v4.cols == 7 && Grid4v4.rows == 5
    ensures Grid4v4.Total() == 35
    ensures Grid4v4.Total() != GridConfig(7, 9).Total()
  {
  }
}
