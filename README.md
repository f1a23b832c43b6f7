# XO rules engine

A model of the rules engine of a two-player tic-tac-toe ("XO") game on a
3 x 3 grid:

- `PositionConverter` maps a cell index to grid coordinates.
- `Board` holds the grid and writes a player's mark into the cell that player selected.
- `User` is a player: a fixed mark and a mutable pending selection.
- `GameMechanics` keeps the two players and whose turn it is. It validates a selection, and checks for a win along rows, columns and both diagonals, and for a draw.

The behaviour is the one fixed by the JUnit suite
`xo/src/test/java/com/kodilla/xo/XOTestSuite.java`. The production classes
are not part of this model. Every member of the classes above is
reconstructed from how the suite calls it and what it asserts.

## Modules

- `position_converter.dfy` (`PositionConverter`):
  - the two conversions;
  - Java's truncating `/` and `%` (`JavaDiv`, `JavaRem`);
  - the inverse map `PositionOf`;
  - the proof that, at dimension 3, the conversions are a bijection from 1..9 onto the grid.
- `user.dfy` (`Users`): the `User` class. Its mark is a `const`; its selection is a field that `SetUserSelection` overwrites.
- `board.dfy` (`Boards`): the `Board` class.
  - The grid is an `array2<int>`, written in place by `AddToBoard`.
  - `GetBoard` hands out the grid itself, not a copy.
  - `At` reads a cell by index.
- `game_mechanics.dfy` (`Mechanics`):
  - the `GameMechanics` class;
  - the selection errors as the `Outcome` datatype (`Pass | Fail(SelectionOutOfScope | PositionAlreadySet)`) instead of exceptions;
  - the four line scans and the fullness check, each stated against a quantified reference predicate;
  - lemmas relating them to the eight winning lines written as cell indices.
- `scenarios.dfy` (`Scenarios`): each test case as a method.
  - Each method builds fresh objects, makes the same calls the test makes, and returns the values the test asserts on.
  - Its postcondition is the test's assertion.
  - The helper `initializeBoardWithX/O` becomes `InitializeBoardWith`. Its postcondition says exactly which cells hold the mark.

The cell layout follows a numeric keypad:
- row = `2 - (i - 1) / 3` and column = `(i - 1) % 3`;
- cells 7 8 9 are row 0, 4 5 6 are row 1, 1 2 3 are row 2.

A row-major layout (cell 1 at the top left, row `(i - 1) / 3`) is ruled out by the suite: `positionToRow(3, 3) == 2` and `positionToRow(7, 3) == 0`.

## Model

| member | source | states |
|---|---|---|
| PositionConverter.PositionToRow | xo/src/test/java/com/kodilla/xo/XOTestSuite.java:20-32 | a cell index in 1 .. dimension² has a row in [0, dimension) |
| PositionConverter.PositionToColumn | xo/src/test/java/com/kodilla/xo/XOTestSuite.java:35-47 | a positive cell index has a column in [0, dimension) |
| PositionConverter.PositionSamples | xo/src/test/java/com/kodilla/xo/XOTestSuite.java:20-47 | cells 3, 5, 7 have rows 2, 1, 0 and columns 2, 1, 0 at dimension 3 |
| PositionConverter.PositionInRange | xo/src/test/java/com/kodilla/xo/XOTestSuite.java:20-47 | every index in 1 .. dimension² lands on the grid |
| PositionConverter.PositionLayout | xo/src/test/java/com/kodilla/xo/XOTestSuite.java:20-47 | at dimension 3, `(2 - row) * 3 + column == i - 1` for every i in 1..9 |
| PositionConverter.PositionRoundTrip | xo/src/test/java/com/kodilla/xo/XOTestSuite.java:20-47 | index → (row, column) → index is the identity |
| PositionConverter.CoordinatesRoundTrip | xo/src/test/java/com/kodilla/xo/XOTestSuite.java:20-47 | (row, column) → index → (row, column) is the identity, and the index is in range, so the map is onto the grid |
| PositionConverter.PositionInjective | xo/src/test/java/com/kodilla/xo/XOTestSuite.java:20-47 | two different indices never share a cell |
| PositionConverter.JavaDivMod | xo/src/test/java/com/kodilla/xo/XOTestSuite.java:20-47 | Java's truncating `/` and `%` agree with Euclidean division on non-negative operands |
| Users.User.constructor | xo/src/test/java/com/kodilla/xo/XOTestSuite.java:53-58 | a new user has the given mark and selection 0 |
| Users.User.SetUserSelection | xo/src/test/java/com/kodilla/xo/XOTestSuite.java:54-58 | the selection becomes the argument and nothing else changes |
| Boards.Board.constructor | xo/src/test/java/com/kodilla/xo/XOTestSuite.java:52 | a new board is 3 x 3, freshly allocated and all zero |
| Boards.Board.GetBoard | xo/src/test/java/com/kodilla/xo/XOTestSuite.java:66-69 | returns the board's own 3 x 3 grid, not a copy |
| Boards.Board.AddToBoard | xo/src/test/java/com/kodilla/xo/XOTestSuite.java:50-70 | the user's mark is written at the converted cell of its selection, whatever was there before; every other cell keeps its value |
| Boards.Board.At | xo/src/test/java/com/kodilla/xo/XOTestSuite.java:73-98 | cell `i` in 1..9 reads grid cell `[2 - (i-1)/3, (i-1)%3]`, the keypad layout |
| Boards.AtCoordinates | xo/src/test/java/com/kodilla/xo/XOTestSuite.java:73-98 | `At(PositionOf(r, c, 3))` reads grid cell `[r, c]`, for every cell |
| Boards.AtTable | xo/src/test/java/com/kodilla/xo/XOTestSuite.java:73-98 | each of the cells 1..9 read by `At` is grid cell `[2 - (i-1)/3, (i-1)%3]` |
| Scenarios.ThreeMovesBoard | xo/src/test/java/com/kodilla/xo/XOTestSuite.java:52-63 | after selections 2, 4, 9 are added for marks 1, 2, 1, the grid is 0 0 1 / 2 0 0 / 0 1 0 |
| Scenarios.AddToBoardScenario | xo/src/test/java/com/kodilla/xo/XOTestSuite.java:50-70 | `getBoard()[2][1] == 1`, `[1][0] == 2`, `[0][2] == 1`, `[0][0] == 0` |
| Scenarios.AtScenario | xo/src/test/java/com/kodilla/xo/XOTestSuite.java:73-98 | `at(2) == 1`, `at(4) == 2`, `at(9) == 1`, and the unwritten `at(7) == 0` |
| Mechanics.Other | xo/src/test/java/com/kodilla/xo/XOTestSuite.java:139-153 | the other slot is a slot and differs from the current one |
| Mechanics.AfterSwitches | xo/src/test/java/com/kodilla/xo/XOTestSuite.java:139-153 | any number of switches keeps the active slot one of the two |
| Mechanics.SwitchParity | xo/src/test/java/com/kodilla/xo/XOTestSuite.java:139-153 | an even number of switches restores the starting player and an odd number gives the other one, so switching is an involution |
| Mechanics.SwitchTimes | xo/src/test/java/com/kodilla/xo/XOTestSuite.java:139-153 | after `n` calls of `switchActiveUser` the starting user is active again when `n` is even and the other user when `n` is odd |
| Mechanics.GameMechanics.constructor | xo/src/test/java/com/kodilla/xo/XOTestSuite.java:141 | two distinct fresh users with marks 1 and 2, no selection, the first active |
| Mechanics.GameMechanics.GetActiveUser | xo/src/test/java/com/kodilla/xo/XOTestSuite.java:144-148 | the active user is one of the two, by reference |
| Mechanics.GameMechanics.SwitchActiveUser | xo/src/test/java/com/kodilla/xo/XOTestSuite.java:145-147 | the active slot becomes the other one, so the active user changes |
| Scenarios.SwitchActiveUserScenario | xo/src/test/java/com/kodilla/xo/XOTestSuite.java:139-153 | the user after one switch differs from the initial one; after two switches it is the initial one again |
| Mechanics.GameMechanics.ValidateSelection | xo/src/test/java/com/kodilla/xo/XOTestSuite.java:156-203 | out of scope exactly when the selection is outside 1..9; already set exactly when it names an occupied cell, whoever holds it; passed exactly when it names an empty cell |
| Mechanics.CellOfSelection | xo/src/test/java/com/kodilla/xo/XOTestSuite.java:166-183 | every grid cell whose index is a selection in 1..9 is the converted cell of that selection, such a cell exists, and it holds what `At` reads |
| Mechanics.ValidatedMove | xo/src/test/java/com/kodilla/xo/XOTestSuite.java:166-183 | validation followed by `addToBoard` only on a pass: the outcome is the validation's; a refused move changes no cell; a passed move fills exactly the selected empty cell with the user's mark and never overwrites a taken cell |
| Scenarios.ValidateOutOfScopeScenario | xo/src/test/java/com/kodilla/xo/XOTestSuite.java:156-164 | selection 10 on a new board fails as out of scope |
| Scenarios.ValidatePositionAlreadySetScenario | xo/src/test/java/com/kodilla/xo/XOTestSuite.java:166-183 | selection 9 fails as already set when another user holds cell 9 |
| Scenarios.ValidateFreePositionScenario | xo/src/test/java/com/kodilla/xo/XOTestSuite.java:185-203 | every selection 1..9 on a new board passes, 1 and 9 among them |
| Mechanics.RowHolds | xo/src/test/java/com/kodilla/xo/XOTestSuite.java:206-247 | a row's three cells hold the mark iff the row is filled with it |
| Mechanics.ColumnHolds | xo/src/test/java/com/kodilla/xo/XOTestSuite.java:250-293 | a column's three cells hold the mark iff the column is filled with it |
| Mechanics.RowsFrom | xo/src/test/java/com/kodilla/xo/XOTestSuite.java:206-247 | the scan from row `row` finds a row iff some row at or after it is filled with the mark |
| Mechanics.ColumnsFrom | xo/src/test/java/com/kodilla/xo/XOTestSuite.java:250-293 | likewise for columns |
| Mechanics.DiagonalFrom | xo/src/test/java/com/kodilla/xo/XOTestSuite.java:296-327 | the diagonal scan from `k` succeeds iff cells `[j, j]`, j ≥ k, all hold the mark |
| Mechanics.AntiDiagonalFrom | xo/src/test/java/com/kodilla/xo/XOTestSuite.java:330-361 | the anti-diagonal scan from `k` succeeds iff cells `[r, 2 - r]`, r ≥ k, all hold the mark |
| Mechanics.GameMechanics.WinByRows | xo/src/test/java/com/kodilla/xo/XOTestSuite.java:206-247 | true iff some row is filled with the user's mark |
| Mechanics.GameMechanics.WinByColumns | xo/src/test/java/com/kodilla/xo/XOTestSuite.java:250-293 | true iff some column is filled with the user's mark |
| Mechanics.GameMechanics.WinByDiagonal | xo/src/test/java/com/kodilla/xo/XOTestSuite.java:296-327 | true iff `[0,0]`, `[1,1]`, `[2,2]` (cells 7, 5, 3) hold the user's mark |
| Mechanics.GameMechanics.WinByAntiDiagonal | xo/src/test/java/com/kodilla/xo/XOTestSuite.java:330-361 | true iff `[0,2]`, `[1,1]`, `[2,0]` (cells 9, 5, 1) hold the user's mark |
| Mechanics.RowIsLine | xo/src/test/java/com/kodilla/xo/XOTestSuite.java:206-247 | a grid row is filled iff its three cell indices all read the mark through `At` |
| Mechanics.ColumnIsLine | xo/src/test/java/com/kodilla/xo/XOTestSuite.java:250-293 | a grid column is filled iff its three cell indices all read the mark |
| Mechanics.DiagonalIsLine | xo/src/test/java/com/kodilla/xo/XOTestSuite.java:296-327 | the diagonal is filled iff cells 7, 5, 3 read the mark |
| Mechanics.AntiDiagonalIsLine | xo/src/test/java/com/kodilla/xo/XOTestSuite.java:330-361 | the anti-diagonal is filled iff cells 9, 5, 1 read the mark |
| Mechanics.LineOfThree | xo/src/test/java/com/kodilla/xo/XOTestSuite.java:364-405 | a three-cell line is taken iff each of its cells holds the mark |
| Mechanics.LineIsShape | xo/src/test/java/com/kodilla/xo/XOTestSuite.java:364-405 | each of the eight index lines is taken iff its grid shape is filled |
| Mechanics.RowsAsShapes | xo/src/test/java/com/kodilla/xo/XOTestSuite.java:206-247 | the row check is one of the three row shapes |
| Mechanics.ColumnsAsShapes | xo/src/test/java/com/kodilla/xo/XOTestSuite.java:250-293 | the column check is one of the three column shapes |
| Mechanics.WinByRowsOnCells | xo/src/test/java/com/kodilla/xo/XOTestSuite.java:206-247 | the row check on cell indices: iff 7 8 9, 4 5 6 or 1 2 3 all hold the mark |
| Mechanics.WinByColumnsOnCells | xo/src/test/java/com/kodilla/xo/XOTestSuite.java:250-293 | the column check on cell indices: iff 7 4 1, 8 5 2 or 9 6 3 all hold the mark |
| Mechanics.WinByDiagonalOnCells | xo/src/test/java/com/kodilla/xo/XOTestSuite.java:296-327 | the diagonal check on cell indices: iff 7, 5, 3 hold the mark |
| Mechanics.WinByAntiDiagonalOnCells | xo/src/test/java/com/kodilla/xo/XOTestSuite.java:330-361 | the anti-diagonal check on cell indices: iff 9, 5, 1 hold the mark |
| Mechanics.GameMechanics.Win | xo/src/test/java/com/kodilla/xo/XOTestSuite.java:364-405 | true iff some row, some column, the diagonal or the anti-diagonal is filled with the user's mark |
| Mechanics.WinMatchesLines | xo/src/test/java/com/kodilla/xo/XOTestSuite.java:364-405 | `win` holds iff one of the eight winning lines is entirely the user's mark |
| Mechanics.TakenFrom | xo/src/test/java/com/kodilla/xo/XOTestSuite.java:408-477 | the scan from row `row` succeeds iff no cell of rows `row` .. 2 is empty |
| Mechanics.GameMechanics.Draw | xo/src/test/java/com/kodilla/xo/XOTestSuite.java:408-477 | true iff no cell of the grid is 0; winning lines are not looked at |
| Mechanics.DrawIffEveryCellTaken | xo/src/test/java/com/kodilla/xo/XOTestSuite.java:408-477 | `draw` holds iff every cell index 1..9 reads non-zero |
| Mechanics.DrawOnCells | xo/src/test/java/com/kodilla/xo/XOTestSuite.java:408-477 | `draw` holds iff each of the nine grid cells is non-zero |
| Scenarios.InitializeBoardWith | xo/src/test/java/com/kodilla/xo/XOTestSuite.java:108-136 | on the new board the three selected cells hold the user's mark and every other cell is 0; the user keeps the last selection |
| Scenarios.RowsOnThree | xo/src/test/java/com/kodilla/xo/XOTestSuite.java:206-247 | on a board holding exactly three cells, the row check holds iff those cells cover one of the three rows |
| Scenarios.ColumnsOnThree | xo/src/test/java/com/kodilla/xo/XOTestSuite.java:250-293 | likewise for the three columns |
| Scenarios.DiagonalOnThree | xo/src/test/java/com/kodilla/xo/XOTestSuite.java:296-327 | likewise for the diagonal 7, 5, 3 |
| Scenarios.AntiDiagonalOnThree | xo/src/test/java/com/kodilla/xo/XOTestSuite.java:330-361 | likewise for the anti-diagonal 9, 5, 1 |
| Scenarios.RowsAfter | xo/src/test/java/com/kodilla/xo/XOTestSuite.java:206-247 | the row check on a board built from i, j, k is true iff i, j, k cover a row |
| Scenarios.ColumnsAfter | xo/src/test/java/com/kodilla/xo/XOTestSuite.java:250-293 | the column check on such a board is true iff i, j, k cover a column |
| Scenarios.DiagonalAfter | xo/src/test/java/com/kodilla/xo/XOTestSuite.java:296-327 | the diagonal check on such a board is true iff i, j, k cover the diagonal |
| Scenarios.AntiDiagonalAfter | xo/src/test/java/com/kodilla/xo/XOTestSuite.java:330-361 | the anti-diagonal check on such a board is true iff i, j, k cover the anti-diagonal |
| Scenarios.WinAfter | xo/src/test/java/com/kodilla/xo/XOTestSuite.java:364-405 | `win` on such a board is true iff i, j, k cover one of the eight lines |
| Scenarios.WinByRowsScenario | xo/src/test/java/com/kodilla/xo/XOTestSuite.java:206-247 | for any non-zero mark, X and O among them: rows 7 8 9, 4 5 6, 1 2 3 win by rows, cells 7 5 9 do not |
| Scenarios.WinByColumnsScenario | xo/src/test/java/com/kodilla/xo/XOTestSuite.java:250-293 | columns 7 4 1, 8 5 2, 9 6 3 win by columns, cells 7 5 1 do not |
| Scenarios.WinByDiagonalScenario | xo/src/test/java/com/kodilla/xo/XOTestSuite.java:296-327 | cells 7 5 3 win by the diagonal, cells 7 6 3 do not |
| Scenarios.WinByAntiDiagonalScenario | xo/src/test/java/com/kodilla/xo/XOTestSuite.java:330-361 | cells 9 5 1 win by the anti-diagonal, cells 9 6 1 do not |
| Scenarios.WinScenario | xo/src/test/java/com/kodilla/xo/XOTestSuite.java:364-405 | a row, a column, the diagonal and the anti-diagonal are each a win |
| Scenarios.Add | xo/src/test/java/com/kodilla/xo/XOTestSuite.java:417-470 | `addToBoard` for a user whose selection lies at (row, column) writes that grid cell and no other |
| Scenarios.Play | xo/src/test/java/com/kodilla/xo/XOTestSuite.java:417-470 | a `setUserSelection` followed by `addToBoard` of the same user writes the selected cell and no other |
| Scenarios.DrawnBoard | xo/src/test/java/com/kodilla/xo/XOTestSuite.java:411-434 | the nine alternating moves of `testDraw` build X O X / X O X / O X O |
| Scenarios.DrawScenario | xo/src/test/java/com/kodilla/xo/XOTestSuite.java:408-441 | `draw` is true on that board |
| Scenarios.NoLineOnDrawnBoard | xo/src/test/java/com/kodilla/xo/XOTestSuite.java:413-416 | no user wins on X O X / X O X / O X O, whatever its mark |
| Scenarios.StaleSelectionBoard | xo/src/test/java/com/kodilla/xo/XOTestSuite.java:447-470 | the moves of `testNotDraw` as written: adding X after O selects 1 writes cell 4 again, so the board is X O X / X O X / 0 X O with cell 1 empty |
| Scenarios.NotDrawScenario | xo/src/test/java/com/kodilla/xo/XOTestSuite.java:444-477 | `draw` is false on that board; `at(1) == 0` and `at(4) == 1` |
| Scenarios.DrawingBoard | xo/src/test/java/com/kodilla/xo/XOTestSuite.java:449-452 | with X selecting cell 1, the same moves build the board the drawing shows, X O X / X O X / X X O |
| Scenarios.DrawingBoardIsFullAndWon | xo/src/test/java/com/kodilla/xo/XOTestSuite.java:449-452 | on X O X / X O X / X X O every cell is taken and X holds column 7 4 1 |
| Scenarios.DrawingScenario | xo/src/test/java/com/kodilla/xo/XOTestSuite.java:444-477 | on the drawn board both `draw` and `win` for X are true |

## Findings

`testNotDraw` does not build the board its drawing shows.
- The drawing at lines 449-452 shows X O X / X O X / X X O.
- Line 464 adds `userX` right after `userO` selects 1. X's selection is still 4, so cell 4 is written again and cell 1 stays empty.
- With `draw` as a fullness check, as modelled here, the assertion holds only because of that empty cell.
- On the drawn board every cell is taken and X holds column 7, 4, 1. A fullness check reports a draw there, so `assertFalse(draw)` would not hold on it.
- The other reading is a `draw` that excludes won boards. The test's name and drawing fit that reading, and under it the drawn board would give `draw == false`. That `draw` is not the one modelled here.

| source | as written | input that shows it | evidently intended | confidence | as-written member | corrected member |
|---|---|---|---|---|---|---|
| xo/src/test/java/com/kodilla/xo/XOTestSuite.java:463-464 | `userO.setUserSelection(1)` is followed by `addToBoard(userX)`, while X's selection is still 4 | the moves of `testNotDraw`: cell 4 is written twice and cell 1 stays 0 | X takes cell 1, giving the drawn X O X / X O X / X X O, which is full and won by X; a fullness `draw` is true there | not executed | Scenarios.StaleSelectionBoard | Scenarios.DrawingBoardIsFullAndWon |

## Left out

- The JUnit harness: `@Nested`, `assertAll`, `assertThrows` and `assertDoesNotThrow`. Each test becomes a scenario method whose postcondition is the test's assertion.
- The exceptions `SelectionOutOfScopeException` and `PositionAlreadySetException`. They are the `Fail` variants of `Outcome`; a normal return is `Pass`.
- Object equality of `User` in `assertEquals` and `assertNotEquals`: it is reference equality on the two `User` objects.
- The production classes are not part of this model. The following are reconstructed from the suite:
  - the initial active player is the first of the two (mark 1);
  - a new user's selection is 0, Java's default for an `int` field;
  - a user's mark never changes, so it is a `const`.
- Mechanics.GameMechanics.ValidateSelection: rejects every selection outside 1..9. The suite shows only 10; selections of 0 or below are not asserted.
- Mechanics.GameMechanics.Draw: does not exclude boards with a winning line, as the suite leaves it. How a full board with a line should be reported is not decided here.
- Boards.Board.AddToBoard: requires a selection in 1..9. Outside that range the Java array access throws, which is not modelled.
- Boards.Board.At: also requires an index in 1..9, for the same reason.
- Board dimensions other than 3. The converter is general in `dimension`; the board and the mechanics are fixed at 3 x 3.
- 32-bit overflow of Java `int`: cell indices and marks are small, and the model uses unbounded integers.
- The game loop, user interface and input reading that would drive these classes.
- Scenarios.RowsAfter, ColumnsAfter, DiagonalAfter, AntiDiagonalAfter and WinAfter:
  - each builds its board and checks it at once;
  - the test builds all its boards first and then checks them;
  - the boards are independent, so the results are the same.
