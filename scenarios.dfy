/** The behaviour the suite fixes, case by case: each method plays the same
    calls on fresh objects and returns the values the case asserts on; its
    postcondition is the assertion. */
module Scenarios {
  import opened PositionConverter
  import opened Users
  import opened Boards
  import opened Mechanics

  /** `[r][c]` of `board` reads as the grid drawn below, row 0 first. */
  ghost predicate Shows(board: Board, c00: int, c01: int, c02: int,
                       c10: int, c11: int, c12: int, c20: int, c21: int, c22: int)
    reads board.grid
    requires board.Valid()
  {
    board.grid[0, 0] == c00 && board.grid[0, 1] == c01 && board.grid[0, 2] == c02 &&
    board.grid[1, 0] == c10 && board.grid[1, 1] == c11 && board.grid[1, 2] == c12 &&
    board.grid[2, 0] == c20 && board.grid[2, 1] == c21 && board.grid[2, 2] == c22
  }

  /** Users with marks 1, 2, 1 select cells 2, 4, 9 and are then added to a
      new board, in that order. */
  method ThreeMovesBoard() returns (board: Board)
    ensures fresh(board) && board.Valid()
    ensures Shows(board, 0, 0, 1,  2, 0, 0,  0, 1, 0)
  {
    board := new Board();
    var user1 := new User(1);
    user1.SetUserSelection(2);
    var user2 := new User(2);
    user2.SetUserSelection(4);
    var user3 := new User(1);
    user3.SetUserSelection(9);
    board.AddToBoard(user1);
    board.AddToBoard(user2);
    board.AddToBoard(user3);
  }

  /** The three writes land at `[2, 1]`, `[1, 0]` and `[0, 2]`; `[0, 0]`
      stays empty. */
  method AddToBoardScenario() returns (at21: int, at10: int, at02: int, at00: int)
    ensures at21 == 1 && at10 == 2 && at02 == 1 && at00 == 0
  {
    var board := ThreeMovesBoard();
    var grid := board.GetBoard();
    at21, at10, at02, at00 := grid[2, 1], grid[1, 0], grid[0, 2], grid[0, 0];
  }

  /** The same three writes read back by cell index; cell 7 was never
      written and reads 0. */
  method AtScenario() returns (at2: int, at4: int, at9: int, at7: int)
    ensures at2 == 1 && at4 == 2 && at9 == 1 && at7 == 0
  {
    var board := ThreeMovesBoard();
    AtTable(board);
    at2, at4, at9, at7 := board.At(2), board.At(4), board.At(9), board.At(7);
  }

  /** A new board on which `user` has played cells `i`, `j` and `k`, in
      that order; `user` is left with `k` selected. */
  method InitializeBoardWith(user: User, i: int, j: int, k: int) returns (board: Board)
    requires 1 <= i <= 9 && 1 <= j <= 9 && 1 <= k <= 9
    modifies user
    ensures fresh(board) && fresh(board.grid) && board.Valid()
    ensures user.selection == k
    ensures HoldsExactly(board, user.mark, i, j, k)
  {
    board := new Board();
    user.SetUserSelection(i);
    board.AddToBoard(user);
    user.SetUserSelection(j);
    board.AddToBoard(user);
    user.SetUserSelection(k);
    board.AddToBoard(user);
    forall n | 1 <= n <= 9
      ensures board.At(n) == if Among(n, i, j, k) then user.mark else 0
    {
      PositionInRange(n, 3);
      if n != i { PositionInjective(n, i, 3); }
      if n != j { PositionInjective(n, j, 3); }
      if n != k { PositionInjective(n, k, 3); }
    }
  }

  /** `n` is one of the three cells `i`, `j`, `k`. */
  predicate Among(n: int, i: int, j: int, k: int) {
    n == i || n == j || n == k
  }

  /** Every cell of the three-cell `line` is one of `i`, `j`, `k`. */
  predicate Covers(line: seq<int>, i: int, j: int, k: int)
    requires |line| == 3
  {
    Among(line[0], i, j, k) && Among(line[1], i, j, k) && Among(line[2], i, j, k)
  }

  /** Cells `i`, `j`, `k` hold `mark` and every other cell is empty. */
  ghost predicate HoldsExactly(board: Board, mark: int, i: int, j: int, k: int)
    reads board.grid
    requires board.Valid()
  {
    forall n :: 1 <= n <= 9 ==> board.At(n) == if Among(n, i, j, k) then mark else 0
  }

  /** On a board holding exactly three cells, the row check reports
      whether those cells make up a whole row. */
  lemma RowsOnThree(gm: GameMechanics, board: Board, user: User, i: int, j: int, k: int)
    requires board.Valid() && user.mark != 0 && HoldsExactly(board, user.mark, i, j, k)
    ensures gm.WinByRows(board, user) <==>
              Covers(WinLines[0], i, j, k) || Covers(WinLines[1], i, j, k) || Covers(WinLines[2], i, j, k)
  {
    WinByRowsOnCells(gm, board, user);
    assert WinLines[0] == [7, 8, 9] && WinLines[1] == [4, 5, 6] && WinLines[2] == [1, 2, 3];
  }

  /** The same for columns. */
  lemma ColumnsOnThree(gm: GameMechanics, board: Board, user: User, i: int, j: int, k: int)
    requires board.Valid() && user.mark != 0 && HoldsExactly(board, user.mark, i, j, k)
    ensures gm.WinByColumns(board, user) <==>
              Covers(WinLines[3], i, j, k) || Covers(WinLines[4], i, j, k) || Covers(WinLines[5], i, j, k)
  {
    WinByColumnsOnCells(gm, board, user);
    assert WinLines[3] == [7, 4, 1] && WinLines[4] == [8, 5, 2] && WinLines[5] == [9, 6, 3];
  }

  /** The same for the diagonal. */
  lemma DiagonalOnThree(gm: GameMechanics, board: Board, user: User, i: int, j: int, k: int)
    requires board.Valid() && user.mark != 0 && HoldsExactly(board, user.mark, i, j, k)
    ensures gm.WinByDiagonal(board, user) <==> Covers(WinLines[6], i, j, k)
  {
    WinByDiagonalOnCells(gm, board, user);
    assert WinLines[6] == [7, 5, 3];
  }

  /** The same for the anti-diagonal. */
  lemma AntiDiagonalOnThree(gm: GameMechanics, board: Board, user: User, i: int, j: int, k: int)
    requires board.Valid() && user.mark != 0 && HoldsExactly(board, user.mark, i, j, k)
    ensures gm.WinByAntiDiagonal(board, user) <==> Covers(WinLines[7], i, j, k)
  {
    WinByAntiDiagonalOnCells(gm, board, user);
    assert WinLines[7] == [9, 5, 1];
  }

  /** `InitializeBoardWith` followed by the row check on the new board. */
  method RowsAfter(gm: GameMechanics, user: User, i: int, j: int, k: int) returns (won: bool)
    requires 1 <= i <= 9 && 1 <= j <= 9 && 1 <= k <= 9 && user.mark != 0
    modifies user
    ensures won <==> Covers(WinLines[0], i, j, k) || Covers(WinLines[1], i, j, k) || Covers(WinLines[2], i, j, k)
  {
    var board := InitializeBoardWith(user, i, j, k);
    won := gm.WinByRows(board, user);
    RowsOnThree(gm, board, user, i, j, k);
  }

  /** `InitializeBoardWith` followed by the column check on the new board. */
  method ColumnsAfter(gm: GameMechanics, user: User, i: int, j: int, k: int) returns (won: bool)
    requires 1 <= i <= 9 && 1 <= j <= 9 && 1 <= k <= 9 && user.mark != 0
    modifies user
    ensures won <==> Covers(WinLines[3], i, j, k) || Covers(WinLines[4], i, j, k) || Covers(WinLines[5], i, j, k)
  {
    var board := InitializeBoardWith(user, i, j, k);
    won := gm.WinByColumns(board, user);
    ColumnsOnThree(gm, board, user, i, j, k);
  }

  /** `InitializeBoardWith` followed by the diagonal check on the new board. */
  method DiagonalAfter(gm: GameMechanics, user: User, i: int, j: int, k: int) returns (won: bool)
    requires 1 <= i <= 9 && 1 <= j <= 9 && 1 <= k <= 9 && user.mark != 0
    modifies user
    ensures won <==> Covers(WinLines[6], i, j, k)
  {
    var board := InitializeBoardWith(user, i, j, k);
    won := gm.WinByDiagonal(board, user);
    DiagonalOnThree(gm, board, user, i, j, k);
  }

  /** `InitializeBoardWith` followed by the anti-diagonal check on the new board. */
  method AntiDiagonalAfter(gm: GameMechanics, user: User, i: int, j: int, k: int) returns (won: bool)
    requires 1 <= i <= 9 && 1 <= j <= 9 && 1 <= k <= 9 && user.mark != 0
    modifies user
    ensures won <==> Covers(WinLines[7], i, j, k)
  {
    var board := InitializeBoardWith(user, i, j, k);
    won := gm.WinByAntiDiagonal(board, user);
    AntiDiagonalOnThree(gm, board, user, i, j, k);
  }

  /** `InitializeBoardWith` followed by the combined check on the new board:
      a win exactly when the three cells make up one of the eight lines. */
  method WinAfter(gm: GameMechanics, user: User, i: int, j: int, k: int) returns (won: bool)
    requires 1 <= i <= 9 && 1 <= j <= 9 && 1 <= k <= 9 && user.mark != 0
    modifies user
    ensures won <==> exists t :: 0 <= t < |WinLines| && Covers(WinLines[t], i, j, k)
  {
    var board := InitializeBoardWith(user, i, j, k);
    won := gm.Win(board, user);
    RowsOnThree(gm, board, user, i, j, k);
    ColumnsOnThree(gm, board, user, i, j, k);
    DiagonalOnThree(gm, board, user, i, j, k);
    AntiDiagonalOnThree(gm, board, user, i, j, k);
    if won {
      var t :| 0 <= t < 8 && Covers(WinLines[t], i, j, k);
    }
  }

  /** One switch hands the move to the other user, a second switch back. */
  method SwitchActiveUserScenario() returns (initial: User, afterOne: User, afterTwo: User)
    ensures initial != afterOne && initial == afterTwo
  {
    var gm := new GameMechanics();
    initial := gm.GetActiveUser();
    gm.SwitchActiveUser();
    afterOne := gm.GetActiveUser();
    gm.SwitchActiveUser();
    afterTwo := gm.GetActiveUser();
  }

  /** Selection 10 on an empty board is out of scope. */
  method ValidateOutOfScopeScenario() returns (r: Outcome)
    ensures r == Fail(SelectionOutOfScope)
  {
    var gm := new GameMechanics();
    var active := gm.GetActiveUser();
    active.SetUserSelection(10);
    var board := new Board();
    r := gm.ValidateSelection(board);
  }

  /** Cell 9, taken by a user the mechanics does not know, is already set
      for the active user. */
  method ValidatePositionAlreadySetScenario() returns (r: Outcome)
    ensures r == Fail(PositionAlreadySet)
  {
    var gm := new GameMechanics();
    var board := new Board();
    var user := new User(1);
    user.SetUserSelection(9);
    board.AddToBoard(user);
    var active := gm.GetActiveUser();
    active.SetUserSelection(9);
    r := gm.ValidateSelection(board);
  }

  /** Any cell 1 .. 9 of an empty board, among them 1 and 9, passes. */
  method ValidateFreePositionScenario(selection: int) returns (r: Outcome)
    requires 1 <= selection <= 9
    ensures r == Pass
  {
    var gm := new GameMechanics();
    var active := gm.GetActiveUser();
    active.SetUserSelection(selection);
    var board := new Board();
    r := gm.ValidateSelection(board);
  }

  /** For a user with any non-empty mark, X (1) and O (2) among them: each
      full row is a row win, the cells 7, 5, 9 are not. */
  method WinByRowsScenario(mark: int) returns (r1: bool, r2: bool, r3: bool, r4: bool)
    requires mark != 0
    ensures r1 && r2 && r3 && !r4
  {
    var gm := new GameMechanics();
    var user := new User(mark);
    r1 := RowsAfter(gm, user, 7, 8, 9);
    r2 := RowsAfter(gm, user, 4, 5, 6);
    r3 := RowsAfter(gm, user, 1, 2, 3);
    r4 := RowsAfter(gm, user, 7, 5, 9);
  }

  /** Each full column is a column win, the cells 7, 5, 1 are not. */
  method WinByColumnsScenario(mark: int) returns (r1: bool, r2: bool, r3: bool, r4: bool)
    requires mark != 0
    ensures r1 && r2 && r3 && !r4
  {
    var gm := new GameMechanics();
    var user := new User(mark);
    r1 := ColumnsAfter(gm, user, 7, 4, 1);
    r2 := ColumnsAfter(gm, user, 8, 5, 2);
    r3 := ColumnsAfter(gm, user, 9, 6, 3);
    r4 := ColumnsAfter(gm, user, 7, 5, 1);
  }

  /** Cells 7, 5, 3 are a diagonal win, cells 7, 6, 3 are not. */
  method WinByDiagonalScenario(mark: int) returns (r1: bool, r2: bool)
    requires mark != 0
    ensures r1 && !r2
  {
    var gm := new GameMechanics();
    var user := new User(mark);
    r1 := DiagonalAfter(gm, user, 7, 5, 3);
    r2 := DiagonalAfter(gm, user, 7, 6, 3);
  }

  /** Cells 9, 5, 1 are an anti-diagonal win, cells 9, 6, 1 are not. */
  method WinByAntiDiagonalScenario(mark: int) returns (r1: bool, r2: bool)
    requires mark != 0
    ensures r1 && !r2
  {
    var gm := new GameMechanics();
    var user := new User(mark);
    r1 := AntiDiagonalAfter(gm, user, 9, 5, 1);
    r2 := AntiDiagonalAfter(gm, user, 9, 6, 1);
  }

  /** A row, a column, the diagonal and the anti-diagonal are each a win. */
  method WinScenario(mark: int) returns (r1: bool, r2: bool, r3: bool, r4: bool)
    requires mark != 0
    ensures r1 && r2 && r3 && r4
  {
    var gm := new GameMechanics();
    var user := new User(mark);
    r1 := WinAfter(gm, user, 7, 8, 9);
    r2 := WinAfter(gm, user, 8, 5, 2);
    r3 := WinAfter(gm, user, 7, 5, 3);
    r4 := WinAfter(gm, user, 9, 5, 1);
    assert Covers(WinLines[0], 7, 8, 9) && Covers(WinLines[4], 8, 5, 2);
    assert Covers(WinLines[6], 7, 5, 3) && Covers(WinLines[7], 9, 5, 1);
  }

  /** `board.AddToBoard(user)` for a user whose selection lies at
      (`row`, `column`). */
  method Add(board: Board, user: User, row: int, column: int)
    requires board.Valid() && 0 <= row < 3 && 0 <= column < 3
    requires PositionOf(row, column, 3) == user.selection
    modifies board.grid
    ensures board.grid[row, column] == user.mark
    ensures forall r, c :: 0 <= r < 3 && 0 <= c < 3 && (r != row || c != column)
              ==> board.grid[r, c] == old(board.grid[r, c])
  {
    CoordinatesRoundTrip(row, column, 3);
    board.AddToBoard(user);
  }

  /** One move: `user` selects `cell`, which lies at (`row`, `column`),
      and its mark is added to `board`. */
  method Play(board: Board, user: User, cell: int, row: int, column: int)
    requires board.Valid() && 0 <= row < 3 && 0 <= column < 3
    requires PositionOf(row, column, 3) == cell
    modifies user, board.grid
    ensures user.selection == cell
    ensures board.grid[row, column] == user.mark
    ensures forall r, c :: 0 <= r < 3 && 0 <= c < 3 && (r != row || c != column)
              ==> board.grid[r, c] == old(board.grid[r, c])
  {
    user.SetUserSelection(cell);
    Add(board, user, row, column);
  }

  /** X and O alternate, X first, on cells 7 8 9 5 4 1 6 3 2: the board
      reads X O X / X O X / O X O. */
  method DrawnBoard() returns (board: Board)
    ensures fresh(board) && board.Valid()
    ensures Shows(board, 1, 2, 1,  1, 2, 1,  2, 1, 2)
  {
    var userX := new User(1);
    var userO := new User(2);
    board := new Board();
    Play(board, userX, 7, 0, 0);
    Play(board, userO, 8, 0, 1);
    Play(board, userX, 9, 0, 2);
    Play(board, userO, 5, 1, 1);
    Play(board, userX, 4, 1, 0);
    Play(board, userO, 1, 2, 0);
    Play(board, userX, 6, 1, 2);
    Play(board, userO, 3, 2, 2);
    Play(board, userX, 2, 2, 1);
  }

  /** The full board is a draw. */
  method DrawScenario() returns (draw: bool)
    ensures draw
  {
    var gm := new GameMechanics();
    var board := DrawnBoard();
    draw := gm.Draw(board);
    DrawOnCells(gm, board);
  }

  /** On the board X O X / X O X / O X O every line holds both marks, so
      no user wins on it, whatever its mark. */
  lemma NoLineOnDrawnBoard(gm: GameMechanics, board: Board, user: User)
    requires board.Valid() && Shows(board, 1, 2, 1,  1, 2, 1,  2, 1, 2)
    ensures !gm.Win(board, user)
  {
    AtTable(board);
    WinByRowsOnCells(gm, board, user);
    WinByColumnsOnCells(gm, board, user);
    WinByDiagonalOnCells(gm, board, user);
    WinByAntiDiagonalOnCells(gm, board, user);
  }

  /** The same moves, except that after O selects cell 1 it is X that is
      added, with X's selection still 4: cell 4 is written again and
      cell 1 stays empty. */
  method StaleSelectionBoard() returns (board: Board)
    ensures fresh(board) && board.Valid()
    ensures Shows(board, 1, 2, 1,  1, 2, 1,  0, 1, 2)
  {
    var userX := new User(1);
    var userO := new User(2);
    board := new Board();
    Play(board, userX, 7, 0, 0);
    Play(board, userO, 8, 0, 1);
    Play(board, userX, 9, 0, 2);
    Play(board, userO, 5, 1, 1);
    Play(board, userX, 4, 1, 0);
    userO.SetUserSelection(1);
    Add(board, userX, 1, 0);
    Play(board, userX, 6, 1, 2);
    Play(board, userO, 3, 2, 2);
    Play(board, userX, 2, 2, 1);
  }

  /** With cell 1 empty the board is not a draw. */
  method NotDrawScenario() returns (draw: bool, cell1: int, cell4: int)
    ensures !draw && cell1 == 0 && cell4 == 1
  {
    var gm := new GameMechanics();
    var board := StaleSelectionBoard();
    draw := gm.Draw(board);
    DrawOnCells(gm, board);
    AtTable(board);
    cell1, cell4 := board.At(1), board.At(4);
  }

  /** The board the drawing beside `testNotDraw` shows, X O X / X O X / X X O:
      the same moves with X, not O, selecting cell 1. */
  method DrawingBoard() returns (board: Board)
    ensures fresh(board) && board.Valid()
    ensures Shows(board, 1, 2, 1,  1, 2, 1,  1, 1, 2)
  {
    var userX := new User(1);
    var userO := new User(2);
    board := new Board();
    Play(board, userX, 7, 0, 0);
    Play(board, userO, 8, 0, 1);
    Play(board, userX, 9, 0, 2);
    Play(board, userO, 5, 1, 1);
    Play(board, userX, 4, 1, 0);
    Play(board, userX, 1, 2, 0);
    Play(board, userX, 6, 1, 2);
    Play(board, userO, 3, 2, 2);
    Play(board, userX, 2, 2, 1);
  }

  /** On X O X / X O X / X X O every cell is taken and X holds the column
      7, 4, 1: the fullness check reports a draw although X has won. */
  lemma DrawingBoardIsFullAndWon(gm: GameMechanics, board: Board, user: User)
    requires board.Valid() && Shows(board, 1, 2, 1,  1, 2, 1,  1, 1, 2) && user.mark == 1
    ensures gm.Draw(board) && gm.Win(board, user)
  {
    DrawOnCells(gm, board);
    AtTable(board);
    WinByColumnsOnCells(gm, board, user);
  }

  /** The drawn board of `testNotDraw`, built as drawn, is reported as a
      draw and as a win for X. */
  method DrawingScenario() returns (draw: bool, won: bool)
    ensures draw && won
  {
    var gm := new GameMechanics();
    var userX := new User(1);
    var board := DrawingBoard();
    draw := gm.Draw(board);
    won := gm.Win(board, userX);
    DrawingBoardIsFullAndWon(gm, board, userX);
  }
}
