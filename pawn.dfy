/** The pawn record of `santorinai/pawn.py`. */
module PawnModel {
  import opened Wrappers
  import opened Positions

  /**
   * A pawn: its number and owning player are fixed at construction,
   * its position is reassigned in place; `None` stands for the
   * unplaced position `(None, None)`.
   */
  class Pawn {
    var pos: Option<Pos>
    const pawnNumber: int
    const playerNumber: int

    constructor (pawnNumber: int, playerNumber: int)
      ensures pos == None
      ensures this.pawnNumber == pawnNumber
      ensures this.playerNumber == playerNumber
    {
      this.pos := None;
      this.pawnNumber := pawnNumber;
      this.playerNumber := playerNumber;
    }
  }
}
