/**
 * Board coordinates: the bounds check and king-move adjacency of
 * `Board.is_position_within_board` and `Board.is_position_adjacent`.
 * Neither reads any board state other than the fixed board size.
 */
module Positions {

  /** Side length of the square board (`board_size`). */
  const BoardSize: int := 5

  /** A cell `(x, y)`; `x` selects the row of the height grid, `y` the column. */
  datatype Pos = Pos(x: int, y: int)

  function Abs(n: int): (r: nat)
    ensures r == n || r == -n
  {
    if n < 0 then -n else n
  }

  /** True iff both coordinates lie in `[0, BoardSize)`. */
  predicate IsPositionWithinBoard(p: Pos) {
    0 <= p.x < BoardSize && 0 <= p.y < BoardSize
  }

  /** True iff the two cells differ and are at most one step apart on each axis. */
  predicate IsPositionAdjacent(a: Pos, b: Pos) {
    Abs(a.x - b.x) <= 1 && Abs(a.y - b.y) <= 1 && (a.x != b.x || a.y != b.y)
  }

  /** Independent reference: the eight cells a king can step to from `p`. */
  function KingSteps(p: Pos): (r: seq<Pos>)
    ensures |r| == 8
  {
    [Pos(p.x - 1, p.y - 1), Pos(p.x - 1, p.y), Pos(p.x - 1, p.y + 1),
     Pos(p.x, p.y - 1),                        Pos(p.x, p.y + 1),
     Pos(p.x + 1, p.y - 1), Pos(p.x + 1, p.y), Pos(p.x + 1, p.y + 1)]
  }

  /** Any coordinate below zero or at least `BoardSize` puts a position off the board. */
  lemma OutsideIsRejected(p: Pos)
    ensures IsPositionWithinBoard(p) <==> !(p.x < 0 || p.y < 0 || p.x >= 5 || p.y >= 5)
  {
  }

  /** Within the board means exactly: a valid row and column index of a grid with `BoardSize` rows and columns. */
  lemma WithinBoardIsGridIndex(rows: seq<seq<int>>, p: Pos)
    requires |rows| == BoardSize
    requires forall i :: 0 <= i < |rows| ==> |rows[i]| == BoardSize
    ensures IsPositionWithinBoard(p) <==> 0 <= p.x < |rows| && 0 <= p.y < |rows[p.x]|
  {
  }

  /** Adjacency is exactly the king-move neighbourhood. */
  lemma AdjacentIffKingStep(a: Pos, b: Pos)
    ensures IsPositionAdjacent(a, b) <==> b in KingSteps(a)
  {
  }

  /** No cell is adjacent to itself. */
  lemma AdjacentIrreflexive(p: Pos)
    ensures !IsPositionAdjacent(p, p)
  {
  }

  /** Adjacency does not depend on the order of its arguments. */
  lemma AdjacentSymmetric(a: Pos, b: Pos)
    ensures IsPositionAdjacent(a, b) <==> IsPositionAdjacent(b, a)
  {
  }
}
