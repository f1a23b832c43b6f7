/** The 3 x 3 playing field (the converter is always called with
    dimension 3). A cell holds 0 while empty and the mark of the
    player who took it otherwise. */
module Boards {
  import opened PositionConverter
  import opened Users

  class Board {
    /** The grid itself, indexed `[row, column]`; row 0 holds cells 7, 8, 9. */
    const grid: array2<int>

    /** The grid is 3 x 3. */
    ghost predicate Valid() {
      grid.Length0 == 3 && grid.Length1 == 3
    }

    /** An empty board: every cell holds 0. */
    constructor ()
      ensures Valid() && fresh(grid)
      ensures forall r, c :: 0 <= r < 3 && 0 <= c < 3 ==> grid[r, c] == 0
    {
      grid := new int[3, 3]((r, c) => 0);
    }

    /** The grid, shared rather than copied: writes through the board are
        visible in it. */
    function GetBoard(): (g: array2<int>)
      requires Valid()
      ensures g == grid && g.Length0 == 3 && g.Length1 == 3
    {
      grid
    }

    /** The mark stored at cell `index`. */
    function At(index: int): (m: int)
      reads grid
      requires Valid() && 1 <= index <= 9
      ensures m == grid[2 - (index - 1) / 3, (index - 1) % 3]
    {
      JavaDivMod(index - 1, 3);
      grid[PositionToRow(index, 3), PositionToColumn(index, 3)]
    }

    /** Writes `user`'s mark into the cell it has selected, whatever that cell
        held before; every other cell keeps its value. */
    method AddToBoard(user: User)
      requires Valid() && 1 <= user.selection <= 9
      modifies grid
      ensures grid[PositionToRow(user.selection, 3), PositionToColumn(user.selection, 3)] == user.mark
      ensures forall r, c :: 0 <= r < 3 && 0 <= c < 3
                && (r != PositionToRow(user.selection, 3) || c != PositionToColumn(user.selection, 3))
                ==> grid[r, c] == old(grid[r, c])
    {
      var row := PositionToRow(user.selection, 3);
      var column := PositionToColumn(user.selection, 3);
      PositionLayout(user.selection);
      grid[row, column] := user.mark;
    }
  }

  /** Reading a cell back after `AddToBoard` wrote it: `At` and the grid agree
      on every cell. */
  lemma AtCoordinates(board: Board, row: int, column: int)
    requires board.Valid() && 0 <= row < 3 && 0 <= column < 3
    ensures 1 <= PositionOf(row, column, 3) <= 9
    ensures board.At(PositionOf(row, column, 3)) == board.grid[row, column]
  {
    CoordinatesRoundTrip(row, column, 3);
  }

  /** The cell each index names with dimension 3, written out. */
  lemma AtTable(board: Board)
    requires board.Valid()
    ensures board.At(7) == board.grid[0, 0] && board.At(8) == board.grid[0, 1] && board.At(9) == board.grid[0, 2]
    ensures board.At(4) == board.grid[1, 0] && board.At(5) == board.grid[1, 1] && board.At(6) == board.grid[1, 2]
    ensures board.At(1) == board.grid[2, 0] && board.At(2) == board.grid[2, 1] && board.At(3) == board.grid[2, 2]
  {
  }
}
