/**
 * The `Board` object of `santorinai/board.py`: it owns the pawns and the
 * height grid. The constructor builds the state; the two legality queries
 * read it and change nothing.
 */
module BoardState {
  import opened Wrappers
  import opened Positions
  import opened Rules
  import opened Roster
  import opened PawnModel

  class Board {
    /** The pawns in construction order: `pawns[i]` is pawn number `i + 1`. */
    var pawns: seq<Pawn>
    /** Tower heights, `board[x, y]`: 0 empty, 1-3 tower levels, 4 terminated tower. */
    var board: array2<int>
    var pawnTurn: int
    var winnerPlayerNumber: Option<int>

    ghost predicate Valid()
      reads this
    {
      board.Length0 == BoardSize && board.Length1 == BoardSize
    }

    /** The height grid as a value. */
    ghost function Heights(): Grid
      reads this, board
      requires Valid()
    {
      var b := board;
      seq(BoardSize, i requires 0 <= i < BoardSize reads b =>
        seq(BoardSize, j requires 0 <= j < BoardSize reads b => b[i, j]))
    }

    /** Each pawn's position, in roster order. */
    ghost function PawnPositions(): (positions: seq<Option<Pos>>)
      reads this, pawns
      ensures |positions| == |pawns|
    {
      var ps := pawns;
      seq(|ps|, i requires 0 <= i < |ps| reads ps => ps[i].pos)
    }

    /** Each pawn's owner, in roster order. */
    ghost function PlayerNumbers(): (owners: seq<int>)
      reads this
      ensures |owners| == |pawns|
    {
      seq(|pawns|, i requires 0 <= i < |pawns| reads this => pawns[i].playerNumber)
    }

    /**
     * A new game: `2n` unplaced pawns numbered `1 .. 2n`, pawn `k` owned by
     * player `(k - 1) mod n + 1`; a 5x5 grid of zeros; turn 1; no winner.
     */
    constructor (numberOfPlayers: int)
      ensures Valid() && fresh(board)
      ensures Heights() == ZeroGrid()
      ensures |pawns| == PawnCount(numberOfPlayers)
      ensures forall i :: 0 <= i < |pawns| ==> fresh(pawns[i]) && pawns[i].pawnNumber == i + 1
      ensures PlayerNumbers() == Owners(numberOfPlayers)
      ensures PawnPositions() == Unplaced(|pawns|)
      ensures pawnTurn == 1 && winnerPlayerNumber == None
    {
      var ps: seq<Pawn> := [];
      var pawnNumber := 1;
      while pawnNumber < numberOfPlayers * 2 + 1
        invariant numberOfPlayers > 0 ==> 1 <= pawnNumber <= numberOfPlayers * 2 + 1
        invariant numberOfPlayers <= 0 ==> pawnNumber == 1
        invariant |ps| == pawnNumber - 1
        invariant forall i :: 0 <= i < |ps| ==>
          fresh(ps[i]) && ps[i].pawnNumber == i + 1 && ps[i].pos == None
          && ps[i].playerNumber == Owners(numberOfPlayers)[i]
      {
        var playerNumber := (pawnNumber - 1) % numberOfPlayers + 1;
        var p := new Pawn(pawnNumber, playerNumber);
        ps := ps + [p];
        pawnNumber := pawnNumber + 1;
      }
      pawns := ps;
      board := new int[BoardSize, BoardSize]((i, j) => 0);
      pawnTurn := 1;
      winnerPlayerNumber := None;
      new;
      assert PlayerNumbers() == Owners(numberOfPlayers);
      assert PawnPositions() == Unplaced(|pawns|);
      assert Heights() == ZeroGrid() by {
        forall i | 0 <= i < BoardSize ensures Heights()[i] == ZeroGrid()[i] { }
      }
    }

    /**
     * `is_move_possible`: whether a pawn may move from `startPos` to `endPos`,
     * and the reason of the first check that fails.
     */
    method IsMovePossible(startPos: Pos, endPos: Pos) returns (possible: bool, reason: string)
      requires Valid()
      ensures possible <==> MoveVerdictOf(Heights(), PawnPositions(), startPos, endPos) == MovePossible
      ensures reason == MoveMessage(MoveVerdictOf(Heights(), PawnPositions(), startPos, endPos))
    {
      if !IsPositionWithinBoard(startPos) {
        return false, MoveMessage(MoveFromOutside);
      }
      if !IsPositionWithinBoard(endPos) {
        return false, MoveMessage(MoveOutside);
      }
      if startPos == endPos {
        return false, MoveMessage(MoveToSamePosition);
      }
      var startLevel := board[startPos.x, startPos.y];
      var endLevel := board[endPos.x, endPos.y];
      if endLevel == TerminatedTower {
        return false, MoveMessage(MoveOnTerminatedTower);
      }
      if endLevel - startLevel > 1 {
        return false, MoveMessage(MoveTwoLevels);
      }
      if !IsPositionAdjacent(startPos, endPos) {
        return false, MoveMessage(MoveTooFar);
      }
      var i := 0;
      while i < |pawns|
        invariant 0 <= i <= |pawns|
        invariant Some(endPos) !in PawnPositions()[..i]
      {
        if pawns[i].pos == Some(endPos) {
          assert PawnPositions()[i] == Some(endPos);
          return false, MoveMessage(MoveOnPawn);
        }
        i := i + 1;
      }
      assert PawnPositions()[..i] == PawnPositions();
      return true, MoveMessage(MovePossible);
    }

    /**
     * `is_build_possible`: whether a pawn standing on `builderPosition` may
     * build on `buildPosition`, and the reason of the first check that fails.
     */
    method IsBuildPossible(builderPosition: Pos, buildPosition: Pos) returns (possible: bool, reason: string)
      requires Valid()
      ensures possible <==> BuildVerdictOf(Heights(), PawnPositions(), builderPosition, buildPosition) == BuildPossible
      ensures reason == BuildMessage(BuildVerdictOf(Heights(), PawnPositions(), builderPosition, buildPosition))
    {
      if !IsPositionWithinBoard(builderPosition) {
        return false, BuildMessage(BuildFromOutside);
      }
      if !IsPositionWithinBoard(buildPosition) {
        return false, BuildMessage(BuildOutside);
      }
      if builderPosition == buildPosition {
        return false, BuildMessage(BuildWhereStanding);
      }
      if board[buildPosition.x, buildPosition.y] == TerminatedTower {
        return false, BuildMessage(BuildOnTerminatedTower);
      }
      if !IsPositionAdjacent(builderPosition, buildPosition) {
        return false, BuildMessage(BuildTooFar);
      }
      var i := 0;
      while i < |pawns|
        invariant 0 <= i <= |pawns|
        invariant Some(buildPosition) !in PawnPositions()[..i]
      {
        if pawns[i].pos == Some(buildPosition) {
          assert PawnPositions()[i] == Some(buildPosition);
          return false, BuildMessage(BuildOnPawn);
        }
        i := i + 1;
      }
      assert PawnPositions()[..i] == PawnPositions();
      return true, BuildMessage(BuildPossible);
    }
  }

  /** On a new board every player owns exactly two pawns, none of them placed,
      and every move or build between adjacent cells of the board is possible. */
  method NewGame(numberOfPlayers: int, player: int, s: Pos, e: Pos) returns (board: Board)
    requires numberOfPlayers > 0
    ensures fresh(board) && board.Valid()
    ensures Count(board.PlayerNumbers(), player) == if 1 <= player <= numberOfPlayers then 2 else 0
    ensures forall p :: !Occupied(board.PawnPositions(), p)
    ensures MoveVerdictOf(board.Heights(), board.PawnPositions(), s, e) == MovePossible
        <==> IsPositionWithinBoard(s) && IsPositionWithinBoard(e) && IsPositionAdjacent(s, e)
  {
    board := new Board(numberOfPlayers);
    EachPlayerOwnsTwoPawns(numberOfPlayers, player);
    NothingPlaced(|board.pawns|);
    forall p ensures !Occupied(board.PawnPositions(), p) {
      OccupiedIffPlaced(board.PawnPositions(), p);
    }
    FreshBoardRules(|board.pawns|, s, e);
  }
}
