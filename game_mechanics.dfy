/** Turn alternation, move validation and win/draw detection. */
module Mechanics {
  import opened PositionConverter
  import opened Users
  import opened Boards

  /** The two ways a selection is refused. */
  datatype SelectionError = SelectionOutOfScope | PositionAlreadySet

  /** What `ValidateSelection` reports: the move may be played, or why not. */
  datatype Outcome = Pass | Fail(error: SelectionError)

  /** The other of the two player slots. */
  function Other(slot: nat): (other: nat)
    requires slot < 2
    ensures other < 2 && other != slot
  {
    1 - slot
  }

  /** The active slot after `n` switches starting from `slot`. */
  function AfterSwitches(slot: nat, n: nat): (s: nat)
    requires slot < 2
    ensures s < 2
  {
    if n == 0 then slot else Other(AfterSwitches(slot, n - 1))
  }

  /** Switching is an involution: an even number of switches restores the
      starting player, an odd number yields the other one. */
  lemma {:induction false} SwitchParity(slot: nat, n: nat)
    requires slot < 2
    ensures AfterSwitches(slot, n) == if n % 2 == 0 then slot else Other(slot)
  {
    if n > 0 {
      SwitchParity(slot, n - 1);
    }
  }

  // The four line shapes, stated over the grid. Row 0 is the top row
  // (cells 7, 8, 9); the diagonal runs from cell 7 to cell 3, the
  // anti-diagonal from cell 9 to cell 1.

  ghost predicate RowFilled(board: Board, mark: int, row: int)
    reads board.grid
    requires board.Valid() && 0 <= row < 3
  {
    forall c :: 0 <= c < 3 ==> board.grid[row, c] == mark
  }

  ghost predicate ColumnFilled(board: Board, mark: int, column: int)
    reads board.grid
    requires board.Valid() && 0 <= column < 3
  {
    forall r :: 0 <= r < 3 ==> board.grid[r, column] == mark
  }

  ghost predicate DiagonalFilled(board: Board, mark: int)
    reads board.grid
    requires board.Valid()
  {
    forall k :: 0 <= k < 3 ==> board.grid[k, k] == mark
  }

  ghost predicate AntiDiagonalFilled(board: Board, mark: int)
    reads board.grid
    requires board.Valid()
  {
    forall r, c :: 0 <= r < 3 && 0 <= c < 3 && r + c == 2 ==> board.grid[r, c] == mark
  }

  /** The three cells of row `row` hold `mark`. */
  function RowHolds(board: Board, mark: int, row: int): (b: bool)
    reads board.grid
    requires board.Valid() && 0 <= row < 3
    ensures b <==> RowFilled(board, mark, row)
  {
    board.grid[row, 0] == mark && board.grid[row, 1] == mark && board.grid[row, 2] == mark
  }

  /** The three cells of column `column` hold `mark`. */
  function ColumnHolds(board: Board, mark: int, column: int): (b: bool)
    reads board.grid
    requires board.Valid() && 0 <= column < 3
    ensures b <==> ColumnFilled(board, mark, column)
  {
    board.grid[0, column] == mark && board.grid[1, column] == mark && board.grid[2, column] == mark
  }

  /** Scans rows `row` .. 2 for one that holds `mark` in all three cells. */
  function RowsFrom(board: Board, mark: int, row: nat): (found: bool)
    reads board.grid
    requires board.Valid() && row <= 3
    ensures found <==> exists r :: row <= r < 3 && RowFilled(board, mark, r)
    decreases 3 - row
  {
    row < 3 &&
    (RowHolds(board, mark, row) || RowsFrom(board, mark, row + 1))
  }

  /** Scans columns `column` .. 2 for one that holds `mark` in all three cells. */
  function ColumnsFrom(board: Board, mark: int, column: nat): (found: bool)
    reads board.grid
    requires board.Valid() && column <= 3
    ensures found <==> exists c :: column <= c < 3 && ColumnFilled(board, mark, c)
    decreases 3 - column
  {
    column < 3 &&
    (ColumnHolds(board, mark, column) || ColumnsFrom(board, mark, column + 1))
  }

  /** Checks the diagonal cells `[k, k]` from `k` on. */
  function DiagonalFrom(board: Board, mark: int, k: nat): (all: bool)
    reads board.grid
    requires board.Valid() && k <= 3
    ensures all <==> forall j :: k <= j < 3 ==> board.grid[j, j] == mark
    decreases 3 - k
  {
    k == 3 || (board.grid[k, k] == mark && DiagonalFrom(board, mark, k + 1))
  }

  /** Checks the anti-diagonal cells `[k, 2 - k]` from `k` on. */
  function AntiDiagonalFrom(board: Board, mark: int, k: nat): (all: bool)
    reads board.grid
    requires board.Valid() && k <= 3
    ensures all <==> forall r, c :: k <= r < 3 && 0 <= c < 3 && r + c == 2 ==> board.grid[r, c] == mark
    decreases 3 - k
  {
    k == 3 || (board.grid[k, 2 - k] == mark && AntiDiagonalFrom(board, mark, k + 1))
  }

  /** Checks that rows `row` .. 2 hold no empty cell. */
  function TakenFrom(board: Board, row: nat): (full: bool)
    reads board.grid
    requires board.Valid() && row <= 3
    ensures full <==> forall r, c :: row <= r < 3 && 0 <= c < 3 ==> board.grid[r, c] != 0
    decreases 3 - row
  {
    row == 3 ||
    (board.grid[row, 0] != 0 && board.grid[row, 1] != 0 && board.grid[row, 2] != 0
     && TakenFrom(board, row + 1))
  }

  /** The eight winning lines as cell indices: three rows, three columns,
      the diagonal and the anti-diagonal. */
  const WinLines: seq<seq<int>> :=
    [[7, 8, 9], [4, 5, 6], [1, 2, 3], [7, 4, 1], [8, 5, 2], [9, 6, 3], [7, 5, 3], [9, 5, 1]]

  /** Every cell of `line` holds `mark`. */
  ghost predicate LineTaken(board: Board, mark: int, line: seq<int>)
    reads board.grid
    requires board.Valid() && forall k :: 0 <= k < |line| ==> 1 <= line[k] <= 9
  {
    forall k :: 0 <= k < |line| ==> board.At(line[k]) == mark
  }

  class GameMechanics {
    /** The two players; slot 0 holds X (mark 1), slot 1 holds O (mark 2). */
    const users: seq<User>
    /** The slot of the player whose move is expected. */
    var active: nat

    ghost predicate Valid()
      reads this
    {
      |users| == 2 && users[0] != users[1] && active < 2
    }

    /** A new game: X and O with no move chosen, X to move. */
    constructor ()
      ensures Valid() && active == 0
      ensures users[0].mark == 1 && users[1].mark == 2
      ensures users[0].selection == 0 && users[1].selection == 0
      ensures fresh(users[0]) && fresh(users[1])
    {
      var x := new User(1);
      var o := new User(2);
      users := [x, o];
      active := 0;
    }

    /** The player whose move is expected: one of the two, by reference. */
    function GetActiveUser(): (u: User)
      reads this
      requires Valid()
      ensures u in users && u == users[active]
    {
      users[active]
    }

    /** Hands the move to the other player. */
    method SwitchActiveUser()
      requires Valid()
      modifies this
      ensures Valid() && active == Other(old(active))
      ensures GetActiveUser() != old(GetActiveUser())
    {
      active := Other(active);
    }

    /** Whether the active player's pending selection may be played on
        `board`: out of scope when it names no cell, already set when the
        cell it names is occupied (by either player), otherwise passed.
        The range is checked first. */
    function ValidateSelection(board: Board): (r: Outcome)
      reads this, users, board.grid
      requires Valid() && board.Valid()
      ensures r == Fail(SelectionOutOfScope) <==> !(1 <= users[active].selection <= 9)
      ensures r == Fail(PositionAlreadySet) <==>
                exists row, column :: 0 <= row < 3 && 0 <= column < 3
                  && PositionOf(row, column, 3) == users[active].selection && board.grid[row, column] != 0
      ensures r == Pass <==>
                exists row, column :: 0 <= row < 3 && 0 <= column < 3
                  && PositionOf(row, column, 3) == users[active].selection && board.grid[row, column] == 0
    {
      var selection := GetActiveUser().selection;
      if !(1 <= selection <= 9) then
        Fail(SelectionOutOfScope)
      else
        CellOfSelection(board, selection);
        if board.At(selection) != 0 then Fail(PositionAlreadySet) else Pass
    }

    /** A row holds `user`'s mark in all three cells. */
    function WinByRows(board: Board, user: User): (won: bool)
      reads board.grid
      requires board.Valid()
      ensures won <==> exists row :: 0 <= row < 3 && RowFilled(board, user.mark, row)
    {
      RowsFrom(board, user.mark, 0)
    }

    /** A column holds `user`'s mark in all three cells. */
    function WinByColumns(board: Board, user: User): (won: bool)
      reads board.grid
      requires board.Valid()
      ensures won <==> exists column :: 0 <= column < 3 && ColumnFilled(board, user.mark, column)
    {
      ColumnsFrom(board, user.mark, 0)
    }

    /** The diagonal (cells 7, 5, 3) holds `user`'s mark throughout. */
    function WinByDiagonal(board: Board, user: User): (won: bool)
      reads board.grid
      requires board.Valid()
      ensures won <==> DiagonalFilled(board, user.mark)
    {
      DiagonalFrom(board, user.mark, 0)
    }

    /** The anti-diagonal (cells 9, 5, 1) holds `user`'s mark throughout. */
    function WinByAntiDiagonal(board: Board, user: User): (won: bool)
      reads board.grid
      requires board.Valid()
      ensures won <==> AntiDiagonalFilled(board, user.mark)
    {
      AntiDiagonalFrom(board, user.mark, 0)
    }

    /** Any of the four line checks succeeds: some row, some column, the
        diagonal or the anti-diagonal is filled with `user`'s mark. */
    function Win(board: Board, user: User): (won: bool)
      reads board.grid
      requires board.Valid()
      ensures won <==>
                ((exists row :: 0 <= row < 3 && RowFilled(board, user.mark, row))
                 || (exists column :: 0 <= column < 3 && ColumnFilled(board, user.mark, column))
                 || DiagonalFilled(board, user.mark) || AntiDiagonalFilled(board, user.mark))
    {
      WinByRows(board, user) || WinByColumns(board, user)
      || WinByDiagonal(board, user) || WinByAntiDiagonal(board, user)
    }

    /** No cell is empty. Winning lines are not looked at. */
    function Draw(board: Board): (full: bool)
      reads board.grid
      requires board.Valid()
      ensures full <==> forall r, c :: 0 <= r < 3 && 0 <= c < 3 ==> board.grid[r, c] != 0
    {
      TakenFrom(board, 0)
    }
  }

  /** A selection in range names exactly one cell, the converted one,
      which is the cell `At` reads. */
  lemma CellOfSelection(board: Board, selection: int)
    requires board.Valid() && 1 <= selection <= 9
    ensures forall row, column :: 0 <= row < 3 && 0 <= column < 3 && PositionOf(row, column, 3) == selection
              ==> row == PositionToRow(selection, 3) && column == PositionToColumn(selection, 3)
    ensures forall row, column :: 0 <= row < 3 && 0 <= column < 3 && PositionOf(row, column, 3) == selection
              ==> board.grid[row, column] == board.At(selection)
    ensures exists row, column :: 0 <= row < 3 && 0 <= column < 3 && PositionOf(row, column, 3) == selection
  {
    forall row, column | 0 <= row < 3 && 0 <= column < 3 && PositionOf(row, column, 3) == selection
      ensures row == PositionToRow(selection, 3) && column == PositionToColumn(selection, 3)
      ensures board.grid[row, column] == board.At(selection)
    {
      CoordinatesRoundTrip(row, column, 3);
    }
    PositionRoundTrip(selection, 3);
  }

  /** `n` consecutive calls of `SwitchActiveUser`: after an even number the
      same user is active again, after an odd number the other one. */
  method SwitchTimes(gm: GameMechanics, n: nat)
    requires gm.Valid()
    modifies gm
    ensures gm.Valid()
    ensures gm.active == if n % 2 == 0 then old(gm.active) else Other(old(gm.active))
  {
    var i := 0;
    while i < n
      invariant 0 <= i <= n && gm.Valid()
      invariant gm.active == AfterSwitches(old(gm.active), i)
    {
      gm.SwitchActiveUser();
      i := i + 1;
    }
    SwitchParity(old(gm.active), n);
  }

  /** A caller's move: the active user's selection is validated and added to
      `board` only when it passes. A passed move fills one empty cell, and
      no cell that was already taken is ever overwritten. */
  method ValidatedMove(gm: GameMechanics, board: Board) returns (r: Outcome)
    requires gm.Valid() && board.Valid()
    modifies board.grid
    ensures r == old(gm.ValidateSelection(board))
    ensures r != Pass ==>
              forall row, column :: 0 <= row < 3 && 0 <= column < 3 ==> board.grid[row, column] == old(board.grid[row, column])
    ensures r == Pass ==>
              forall row, column :: 0 <= row < 3 && 0 <= column < 3 && old(board.grid[row, column]) != 0
                ==> board.grid[row, column] == old(board.grid[row, column])
    ensures r == Pass ==>
              forall row, column :: 0 <= row < 3 && 0 <= column < 3
                && PositionOf(row, column, 3) != gm.users[gm.active].selection
                ==> board.grid[row, column] == old(board.grid[row, column])
    ensures r == Pass ==>
              exists row, column :: 0 <= row < 3 && 0 <= column < 3
                && PositionOf(row, column, 3) == gm.users[gm.active].selection
                && old(board.grid[row, column]) == 0 && board.grid[row, column] == gm.users[gm.active].mark
  {
    r := gm.ValidateSelection(board);
    if r == Pass {
      var user := gm.GetActiveUser();
      var row, column := PositionToRow(user.selection, 3), PositionToColumn(user.selection, 3);
      PositionInRange(user.selection, 3);
      PositionRoundTrip(user.selection, 3);
      CellOfSelection(board, user.selection);
      assert board.grid[row, column] == 0;
      board.AddToBoard(user);
      assert board.grid[row, column] == user.mark;
    }
  }

  /** A three-cell line is taken when each of its cells is. */
  lemma LineOfThree(board: Board, m: int, a: int, b: int, c: int)
    requires board.Valid() && 1 <= a <= 9 && 1 <= b <= 9 && 1 <= c <= 9
    ensures LineTaken(board, m, [a, b, c]) <==> board.At(a) == m && board.At(b) == m && board.At(c) == m
  {
    assert [a, b, c][0] == a && [a, b, c][1] == b && [a, b, c][2] == c;
  }

  /** Row `row` of the grid is the line of the three cells the converter
      places in it. */
  lemma RowIsLine(board: Board, m: int, row: int)
    requires board.Valid() && 0 <= row < 3
    ensures RowFilled(board, m, row) <==>
              LineTaken(board, m, [PositionOf(row, 0, 3), PositionOf(row, 1, 3), PositionOf(row, 2, 3)])
  {
    AtCoordinates(board, row, 0);
    AtCoordinates(board, row, 1);
    AtCoordinates(board, row, 2);
    LineOfThree(board, m, PositionOf(row, 0, 3), PositionOf(row, 1, 3), PositionOf(row, 2, 3));
    assert RowHolds(board, m, row) == RowFilled(board, m, row);
  }

  /** Column `column` of the grid is the line of the three cells the converter
      places in it. */
  lemma ColumnIsLine(board: Board, m: int, column: int)
    requires board.Valid() && 0 <= column < 3
    ensures ColumnFilled(board, m, column) <==>
              LineTaken(board, m, [PositionOf(0, column, 3), PositionOf(1, column, 3), PositionOf(2, column, 3)])
  {
    AtCoordinates(board, 0, column);
    AtCoordinates(board, 1, column);
    AtCoordinates(board, 2, column);
    LineOfThree(board, m, PositionOf(0, column, 3), PositionOf(1, column, 3), PositionOf(2, column, 3));
    assert ColumnHolds(board, m, column) == ColumnFilled(board, m, column);
  }

  /** The diagonal is the line of cells 7, 5, 3. */
  lemma DiagonalIsLine(board: Board, m: int)
    requires board.Valid()
    ensures DiagonalFilled(board, m) <==> LineTaken(board, m, [7, 5, 3])
  {
    AtCoordinates(board, 0, 0);
    AtCoordinates(board, 1, 1);
    AtCoordinates(board, 2, 2);
    LineOfThree(board, m, 7, 5, 3);
    assert DiagonalFrom(board, m, 0) == DiagonalFilled(board, m);
  }

  /** The anti-diagonal is the line of cells 9, 5, 1. */
  lemma AntiDiagonalIsLine(board: Board, m: int)
    requires board.Valid()
    ensures AntiDiagonalFilled(board, m) <==> LineTaken(board, m, [9, 5, 1])
  {
    AtCoordinates(board, 0, 2);
    AtCoordinates(board, 1, 1);
    AtCoordinates(board, 2, 0);
    LineOfThree(board, m, 9, 5, 1);
    assert AntiDiagonalFrom(board, m, 0) == AntiDiagonalFilled(board, m);
  }

  /** The line shape that `WinLines[k]` names: rows first, then columns,
      then the diagonal and the anti-diagonal. */
  ghost predicate Shape(board: Board, m: int, k: int)
    reads board.grid
    requires board.Valid() && 0 <= k < |WinLines|
  {
    if k < 3 then RowFilled(board, m, k)
    else if k < 6 then ColumnFilled(board, m, k - 3)
    else if k == 6 then DiagonalFilled(board, m)
    else AntiDiagonalFilled(board, m)
  }

  /** Line `k` of `WinLines`, read through `At`, is its grid shape. */
  lemma LineIsShape(board: Board, m: int, k: int)
    requires board.Valid() && 0 <= k < |WinLines|
    ensures LineTaken(board, m, WinLines[k]) == Shape(board, m, k)
  {
    match k
    case 0 => RowIsLine(board, m, 0);
    case 1 => RowIsLine(board, m, 1);
    case 2 => RowIsLine(board, m, 2);
    case 3 => ColumnIsLine(board, m, 0);
    case 4 => ColumnIsLine(board, m, 1);
    case 5 => ColumnIsLine(board, m, 2);
    case 6 => DiagonalIsLine(board, m);
    case 7 => AntiDiagonalIsLine(board, m);
  }

  /** `Win` holds exactly when one of the eight lines, named by cell index,
      is entirely `user`'s mark. */
  lemma WinMatchesLines(gm: GameMechanics, board: Board, user: User)
    requires board.Valid()
    ensures gm.Win(board, user) <==> exists k :: 0 <= k < |WinLines| && LineTaken(board, user.mark, WinLines[k])
  {
    var m := user.mark;
    forall k | 0 <= k < |WinLines|
      ensures LineTaken(board, m, WinLines[k]) == Shape(board, m, k)
    {
      LineIsShape(board, m, k);
    }
    if gm.WinByRows(board, user) {
      var row :| 0 <= row < 3 && RowFilled(board, m, row);
      assert Shape(board, m, row);
    } else if gm.WinByColumns(board, user) {
      var column :| 0 <= column < 3 && ColumnFilled(board, m, column);
      assert Shape(board, m, column + 3);
    } else if gm.WinByDiagonal(board, user) {
      assert Shape(board, m, 6);
    } else if gm.WinByAntiDiagonal(board, user) {
      assert Shape(board, m, 7);
    } else {
      forall k | 0 <= k < |WinLines|
        ensures !Shape(board, m, k)
      {
      }
    }
  }

  /** The row check read on cell indices: cells 7 8 9, 4 5 6 or 1 2 3. */
  lemma WinByRowsOnCells(gm: GameMechanics, board: Board, user: User)
    requires board.Valid()
    ensures var m := user.mark;
      gm.WinByRows(board, user) <==>
        (board.At(7) == m && board.At(8) == m && board.At(9) == m) ||
        (board.At(4) == m && board.At(5) == m && board.At(6) == m) ||
        (board.At(1) == m && board.At(2) == m && board.At(3) == m)
  {
    var m := user.mark;
    LineIsShape(board, m, 0);
    LineIsShape(board, m, 1);
    LineIsShape(board, m, 2);
    LineOfThree(board, m, 7, 8, 9);
    LineOfThree(board, m, 4, 5, 6);
    LineOfThree(board, m, 1, 2, 3);
    assert WinLines[0] == [7, 8, 9] && WinLines[1] == [4, 5, 6] && WinLines[2] == [1, 2, 3];
    RowsAsShapes(gm, board, user);
  }

  /** The row check is one of the three row shapes. */
  lemma RowsAsShapes(gm: GameMechanics, board: Board, user: User)
    requires board.Valid()
    ensures gm.WinByRows(board, user) <==>
              Shape(board, user.mark, 0) || Shape(board, user.mark, 1) || Shape(board, user.mark, 2)
  {
    if gm.WinByRows(board, user) {
      var row :| 0 <= row < 3 && RowFilled(board, user.mark, row);
      assert Shape(board, user.mark, row);
    }
  }

  /** The column check read on cell indices: cells 7 4 1, 8 5 2 or 9 6 3. */
  lemma WinByColumnsOnCells(gm: GameMechanics, board: Board, user: User)
    requires board.Valid()
    ensures var m := user.mark;
      gm.WinByColumns(board, user) <==>
        (board.At(7) == m && board.At(4) == m && board.At(1) == m) ||
        (board.At(8) == m && board.At(5) == m && board.At(2) == m) ||
        (board.At(9) == m && board.At(6) == m && board.At(3) == m)
  {
    var m := user.mark;
    LineIsShape(board, m, 3);
    LineIsShape(board, m, 4);
    LineIsShape(board, m, 5);
    LineOfThree(board, m, 7, 4, 1);
    LineOfThree(board, m, 8, 5, 2);
    LineOfThree(board, m, 9, 6, 3);
    assert WinLines[3] == [7, 4, 1] && WinLines[4] == [8, 5, 2] && WinLines[5] == [9, 6, 3];
    ColumnsAsShapes(gm, board, user);
  }

  /** The column check is one of the three column shapes. */
  lemma ColumnsAsShapes(gm: GameMechanics, board: Board, user: User)
    requires board.Valid()
    ensures gm.WinByColumns(board, user) <==>
              Shape(board, user.mark, 3) || Shape(board, user.mark, 4) || Shape(board, user.mark, 5)
  {
    if gm.WinByColumns(board, user) {
      var column :| 0 <= column < 3 && ColumnFilled(board, user.mark, column);
      assert Shape(board, user.mark, column + 3);
    }
  }

  /** The diagonal check read on cell indices: cells 7 5 3. */
  lemma WinByDiagonalOnCells(gm: GameMechanics, board: Board, user: User)
    requires board.Valid()
    ensures var m := user.mark;
      gm.WinByDiagonal(board, user) <==> board.At(7) == m && board.At(5) == m && board.At(3) == m
  {
    DiagonalIsLine(board, user.mark);
    LineOfThree(board, user.mark, 7, 5, 3);
  }

  /** The anti-diagonal check read on cell indices: cells 9 5 1. */
  lemma WinByAntiDiagonalOnCells(gm: GameMechanics, board: Board, user: User)
    requires board.Valid()
    ensures var m := user.mark;
      gm.WinByAntiDiagonal(board, user) <==> board.At(9) == m && board.At(5) == m && board.At(1) == m
  {
    AntiDiagonalIsLine(board, user.mark);
    LineOfThree(board, user.mark, 9, 5, 1);
  }

  /** `Draw` holds exactly when every cell index 1 .. 9 reads non-zero. */
  lemma DrawIffEveryCellTaken(gm: GameMechanics, board: Board)
    requires board.Valid()
    ensures gm.Draw(board) <==> forall i :: 1 <= i <= 9 ==> board.At(i) != 0
  {
    forall r, c | 0 <= r < 3 && 0 <= c < 3
      ensures board.grid[r, c] == board.At(PositionOf(r, c, 3))
    {
      AtCoordinates(board, r, c);
    }
    forall i | 1 <= i <= 9
      ensures exists r, c :: 0 <= r < 3 && 0 <= c < 3 && PositionOf(r, c, 3) == i && board.At(i) == board.grid[r, c]
    {
      CellOfSelection(board, i);
    }
  }

  /** The fullness check spelled out on the nine cells of the grid. */
  lemma DrawOnCells(gm: GameMechanics, board: Board)
    requires board.Valid()
    ensures gm.Draw(board) <==>
              board.grid[0, 0] != 0 && board.grid[0, 1] != 0 && board.grid[0, 2] != 0 &&
              board.grid[1, 0] != 0 && board.grid[1, 1] != 0 && board.grid[1, 2] != 0 &&
              board.grid[2, 0] != 0 && board.grid[2, 1] != 0 && board.grid[2, 2] != 0
  {
    assert TakenFrom(board, 2) == (board.grid[2, 0] != 0 && board.grid[2, 1] != 0 && board.grid[2, 2] != 0);
  }
}
