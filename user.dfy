/** A player: a fixed mark (1 for X, 2 for O) and the cell it has picked for
    its next move. */
module Users {

  class User {
    /** The number written into the cells this player occupies. */
    const mark: int
    /** The pending move, a cell index; the caller sets it before each turn. */
    var selection: int

    /** A new player with the given mark and no move chosen yet (Java's
        default value 0 for an `int` field). */
    constructor (mark: int)
      ensures this.mark == mark && selection == 0
    {
      this.mark := mark;
      selection := 0;
    }

    /** Overwrites the pending move; the mark is untouched. */
    method SetUserSelection(selection: int)
      modifies this`selection
      ensures this.selection == selection
    {
      this.selection := selection;
    }
  }
}
