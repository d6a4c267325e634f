/**
 * The legality rules of `Board.is_move_possible` and `Board.is_build_possible`
 * as pure functions of a snapshot of the board: the height grid and the list
 * of pawn positions, in roster order.
 */
module Rules {
  import opened Wrappers
  import opened Positions

  /** Height of a capped ("terminated") tower: it can be neither entered nor built on. */
  const TerminatedTower: int := 4

  predicate IsGrid(h: seq<seq<int>>) {
    |h| == BoardSize && forall i :: 0 <= i < |h| ==> |h[i]| == BoardSize
  }

  /** A `BoardSize` x `BoardSize` grid of tower heights, indexed `h[x][y]`. */
  type Grid = h: seq<seq<int>> | IsGrid(h) witness ZeroGrid()

  /** The grid of a new board: every height 0. */
  function ZeroGrid(): (h: seq<seq<int>>)
    ensures IsGrid(h)
    ensures forall i, j :: 0 <= i < BoardSize && 0 <= j < BoardSize ==> h[i][j] == 0
  {
    seq(BoardSize, _ => seq(BoardSize, _ => 0))
  }

  function Height(h: Grid, p: Pos): int
    requires IsPositionWithinBoard(p)
  {
    h[p.x][p.y]
  }

  /** A cell is occupied when some pawn's position equals it; unplaced pawns (`None`) never match. */
  predicate Occupied(positions: seq<Option<Pos>>, p: Pos) {
    Some(p) in positions
  }

  /** The cells actually held by placed pawns. */
  function PlacedCells(positions: seq<Option<Pos>>): set<Pos> {
    if positions == [] then {}
    else
      var rest := PlacedCells(positions[1..]);
      match positions[0]
      case None => rest
      case Some(c) => {c} + rest
  }

  /** Positions of `n` pawns none of which has been placed. */
  function Unplaced(n: nat): (positions: seq<Option<Pos>>)
    ensures |positions| == n
  {
    seq(n, _ => None)
  }

  // ---------------------------------------------------------------- moves

  /** The outcome categories of `is_move_possible`, one per returned reason. */
  datatype MoveVerdict =
    | MovePossible
    | MoveFromOutside
    | MoveOutside
    | MoveToSamePosition
    | MoveOnTerminatedTower
    | MoveTwoLevels
    | MoveTooFar
    | MoveOnPawn

  /** The reason string returned alongside each verdict. */
  function MoveMessage(v: MoveVerdict): string {
    match v
    case MovePossible => "The move is possible."
    case MoveFromOutside => "It is not possible to move from outside the board."
    case MoveOutside => "It is not possible to move outside the board."
    case MoveToSamePosition => "It is not possible to move to the same position."
    case MoveOnTerminatedTower => "It is not possible to move on a terminated tower."
    case MoveTwoLevels => "It is not possible to move two levels in one move."
    case MoveTooFar => "It is not possible to move that far."
    case MoveOnPawn => "It is not possible to move on another pawn."
  }

  /** The checks of `is_move_possible`, made in the source's order. */
  function MoveVerdictOf(h: Grid, positions: seq<Option<Pos>>, s: Pos, e: Pos): MoveVerdict {
    if !IsPositionWithinBoard(s) then MoveFromOutside
    else if !IsPositionWithinBoard(e) then MoveOutside
    else if s == e then MoveToSamePosition
    else if Height(h, e) == TerminatedTower then MoveOnTerminatedTower
    else if Height(h, e) - Height(h, s) > 1 then MoveTwoLevels
    else if !IsPositionAdjacent(s, e) then MoveTooFar
    else if Occupied(positions, e) then MoveOnPawn
    else MovePossible
  }

  // --------------------------------------------------------------- builds

  /** The outcome categories of `is_build_possible`, one per returned reason. */
  datatype BuildVerdict =
    | BuildPossible
    | BuildFromOutside
    | BuildOutside
    | BuildWhereStanding
    | BuildOnTerminatedTower
    | BuildTooFar
    | BuildOnPawn

  /** The reason string returned alongside each verdict. */
  function BuildMessage(v: BuildVerdict): string {
    match v
    case BuildPossible => "The build is possible."
    case BuildFromOutside => "It is not possible to build from outside the board."
    case BuildOutside => "It is not possible to build outside the board."
    case BuildWhereStanding => "It is not possible to build where you are standing."
    case BuildOnTerminatedTower => "It is not possible to build on a terminated tower."
    case BuildTooFar => "It is not possible to build that far."
    case BuildOnPawn => "It is not possible to build on another pawn."
  }

  /** The checks of `is_build_possible`, made in the source's order. */
  function BuildVerdictOf(h: Grid, positions: seq<Option<Pos>>, b: Pos, t: Pos): BuildVerdict {
    if !IsPositionWithinBoard(b) then BuildFromOutside
    else if !IsPositionWithinBoard(t) then BuildOutside
    else if b == t then BuildWhereStanding
    else if Height(h, t) == TerminatedTower then BuildOnTerminatedTower
    else if !IsPositionAdjacent(b, t) then BuildTooFar
    else if Occupied(positions, t) then BuildOnPawn
    else BuildPossible
  }

  // --------------------------------------------- first failing check

  /**
   * Reference semantics of a guard chain: the verdict attached to the first
   * check that fails, or `success` when every check passes.
   */
  function FirstFailing<V>(checks: seq<(bool, V)>, success: V): V {
    if checks == [] then success
    else if !checks[0].0 then checks[0].1
    else FirstFailing(checks[1..], success)
  }

  /** Height of a cell, or 0 off the board (only consulted after the bounds checks pass). */
  function HeightOrZero(h: Grid, p: Pos): int {
    if IsPositionWithinBoard(p) then Height(h, p) else 0
  }

  /** The requirements of a move, listed in the order the source tests them. */
  function MoveChecks(h: Grid, positions: seq<Option<Pos>>, s: Pos, e: Pos): seq<(bool, MoveVerdict)> {
    [ (IsPositionWithinBoard(s), MoveFromOutside),
      (IsPositionWithinBoard(e), MoveOutside),
      (s != e, MoveToSamePosition),
      (HeightOrZero(h, e) != TerminatedTower, MoveOnTerminatedTower),
      (HeightOrZero(h, e) - HeightOrZero(h, s) <= 1, MoveTwoLevels),
      (IsPositionAdjacent(s, e), MoveTooFar),
      (!Occupied(positions, e), MoveOnPawn) ]
  }

  /** The requirements of a build, listed in the order the source tests them. */
  function BuildChecks(h: Grid, positions: seq<Option<Pos>>, b: Pos, t: Pos): seq<(bool, BuildVerdict)> {
    [ (IsPositionWithinBoard(b), BuildFromOutside),
      (IsPositionWithinBoard(t), BuildOutside),
      (b != t, BuildWhereStanding),
      (HeightOrZero(h, t) != TerminatedTower, BuildOnTerminatedTower),
      (IsPositionAdjacent(b, t), BuildTooFar),
      (!Occupied(positions, t), BuildOnPawn) ]
  }

  /** A failing move reports the first requirement, in the fixed order, that it breaks. */
  lemma MoveVerdictIsFirstFailing(h: Grid, positions: seq<Option<Pos>>, s: Pos, e: Pos)
    ensures MoveVerdictOf(h, positions, s, e) == FirstFailing(MoveChecks(h, positions, s, e), MovePossible)
  {
    var c := MoveChecks(h, positions, s, e);
    assert FirstFailing(c[6..], MovePossible) == if c[6].0 then MovePossible else c[6].1;
    assert FirstFailing(c[5..], MovePossible) == if c[5].0 then FirstFailing(c[6..], MovePossible) else c[5].1;
    assert FirstFailing(c[4..], MovePossible) == if c[4].0 then FirstFailing(c[5..], MovePossible) else c[4].1;
    assert FirstFailing(c[3..], MovePossible) == if c[3].0 then FirstFailing(c[4..], MovePossible) else c[3].1;
    assert FirstFailing(c[2..], MovePossible) == if c[2].0 then FirstFailing(c[3..], MovePossible) else c[2].1;
    assert FirstFailing(c[1..], MovePossible) == if c[1].0 then FirstFailing(c[2..], MovePossible) else c[1].1;
  }

  /** A failing build reports the first requirement, in the fixed order, that it breaks. */
  lemma BuildVerdictIsFirstFailing(h: Grid, positions: seq<Option<Pos>>, b: Pos, t: Pos)
    ensures BuildVerdictOf(h, positions, b, t) == FirstFailing(BuildChecks(h, positions, b, t), BuildPossible)
  {
    var c := BuildChecks(h, positions, b, t);
    assert FirstFailing(c[5..], BuildPossible) == if c[5].0 then BuildPossible else c[5].1;
    assert FirstFailing(c[4..], BuildPossible) == if c[4].0 then FirstFailing(c[5..], BuildPossible) else c[4].1;
    assert FirstFailing(c[3..], BuildPossible) == if c[3].0 then FirstFailing(c[4..], BuildPossible) else c[3].1;
    assert FirstFailing(c[2..], BuildPossible) == if c[2].0 then FirstFailing(c[3..], BuildPossible) else c[2].1;
    assert FirstFailing(c[1..], BuildPossible) == if c[1].0 then FirstFailing(c[2..], BuildPossible) else c[1].1;
  }

  // ------------------------------------------------------------ properties

  /** A move is possible iff both cells are on the board and distinct, the target is not capped,
      the climb is at most one level (any descent is allowed), the cells are adjacent and the target is free. */
  lemma MovePossibleIff(h: Grid, positions: seq<Option<Pos>>, s: Pos, e: Pos)
    ensures MoveVerdictOf(h, positions, s, e) == MovePossible
        <==> IsPositionWithinBoard(s) && IsPositionWithinBoard(e) && s != e
             && h[e.x][e.y] != 4 && h[e.x][e.y] <= h[s.x][s.y] + 1
             && IsPositionAdjacent(s, e) && !Occupied(positions, e)
  {
  }

  /** A build is possible iff both cells are on the board and distinct, the target is not capped,
      the cells are adjacent and the target is free; heights impose nothing else. */
  lemma BuildPossibleIff(h: Grid, positions: seq<Option<Pos>>, b: Pos, t: Pos)
    ensures BuildVerdictOf(h, positions, b, t) == BuildPossible
        <==> IsPositionWithinBoard(b) && IsPositionWithinBoard(t) && b != t
             && h[t.x][t.y] != 4 && IsPositionAdjacent(b, t) && !Occupied(positions, t)
  {
  }

  /** The build verdict that corresponds to a move verdict other than the climb rule's. */
  function AsBuildVerdict(v: MoveVerdict): BuildVerdict
    requires v != MoveTwoLevels
  {
    match v
    case MovePossible => BuildPossible
    case MoveFromOutside => BuildFromOutside
    case MoveOutside => BuildOutside
    case MoveToSamePosition => BuildWhereStanding
    case MoveOnTerminatedTower => BuildOnTerminatedTower
    case MoveTooFar => BuildTooFar
    case MoveOnPawn => BuildOnPawn
  }

  /** Every possible move `s -> e` is also a possible build from `s` onto `e`. */
  lemma PossibleMoveIsPossibleBuild(h: Grid, positions: seq<Option<Pos>>, s: Pos, e: Pos)
    requires MoveVerdictOf(h, positions, s, e) == MovePossible
    ensures BuildVerdictOf(h, positions, s, e) == BuildPossible
  {
  }

  /** Apart from the climb rule, moving and building from `s` onto `e` give the same outcome;
      a move refused only for the climb is refused by the build for adjacency or a pawn, or allowed. */
  lemma MoveAndBuildDifferOnlyByClimb(h: Grid, positions: seq<Option<Pos>>, s: Pos, e: Pos)
    ensures MoveVerdictOf(h, positions, s, e) != MoveTwoLevels
        ==> BuildVerdictOf(h, positions, s, e) == AsBuildVerdict(MoveVerdictOf(h, positions, s, e))
    ensures MoveVerdictOf(h, positions, s, e) == MoveTwoLevels
        ==> BuildVerdictOf(h, positions, s, e) in {BuildPossible, BuildTooFar, BuildOnPawn}
  {
  }

  /** A build looks at the height of its target cell only: the builder's own height is irrelevant. */
  lemma BuildReadsOnlyTargetHeight(h1: Grid, h2: Grid, positions: seq<Option<Pos>>, b: Pos, t: Pos)
    requires IsPositionWithinBoard(t) ==> h1[t.x][t.y] == h2[t.x][t.y]
    ensures BuildVerdictOf(h1, positions, b, t) == BuildVerdictOf(h2, positions, b, t)
  {
  }

  /** A build refused only because a pawn stands on the target reports exactly this text. */
  lemma BuildOnPawnMessage(h: Grid, positions: seq<Option<Pos>>, b: Pos, t: Pos)
    requires IsPositionWithinBoard(b) && IsPositionWithinBoard(t) && b != t
    requires h[t.x][t.y] != 4 && IsPositionAdjacent(b, t) && Occupied(positions, t)
    ensures BuildMessage(BuildVerdictOf(h, positions, b, t)) == "It is not possible to build on another pawn."
  {
  }

  /** Distinct move outcomes are reported with distinct reasons, so the reason identifies the failing check. */
  lemma MoveMessagesIdentifyVerdicts(v1: MoveVerdict, v2: MoveVerdict)
    ensures MoveMessage(v1) == MoveMessage(v2) ==> v1 == v2
  {
    match v1
    case MovePossible =>
    case MoveFromOutside =>
    case MoveOutside =>
    case MoveToSamePosition =>
    case MoveOnTerminatedTower =>
    case MoveTwoLevels =>
    case MoveTooFar =>
    case MoveOnPawn =>
  }

  /** Distinct build outcomes are reported with distinct reasons, so the reason identifies the failing check. */
  lemma BuildMessagesIdentifyVerdicts(w1: BuildVerdict, w2: BuildVerdict)
    ensures BuildMessage(w1) == BuildMessage(w2) ==> w1 == w2
  {
    match w1
    case BuildPossible =>
    case BuildFromOutside =>
    case BuildOutside =>
    case BuildWhereStanding =>
    case BuildOnTerminatedTower =>
    case BuildTooFar =>
    case BuildOnPawn =>
  }

  /** Unplaced pawns never make a cell occupied: occupancy is membership in the placed cells. */
  lemma {:induction false} OccupiedIffPlaced(positions: seq<Option<Pos>>, p: Pos)
    ensures Occupied(positions, p) <==> p in PlacedCells(positions)
  {
    if positions != [] {
      OccupiedIffPlaced(positions[1..], p);
      assert positions == [positions[0]] + positions[1..];
    }
  }

  /** On the board as constructed (all heights 0, no pawn placed) a move, and equally a build,
      is possible exactly between adjacent cells of the board. */
  lemma FreshBoardRules(n: nat, s: Pos, e: Pos)
    ensures MoveVerdictOf(ZeroGrid(), Unplaced(n), s, e) == MovePossible
        <==> IsPositionWithinBoard(s) && IsPositionWithinBoard(e) && IsPositionAdjacent(s, e)
    ensures BuildVerdictOf(ZeroGrid(), Unplaced(n), s, e) == BuildPossible
        <==> IsPositionWithinBoard(s) && IsPositionWithinBoard(e) && IsPositionAdjacent(s, e)
  {
  }

  lemma {:induction false} NothingPlaced(n: nat)
    ensures PlacedCells(Unplaced(n)) == {}
  {
    if n > 0 {
      assert Unplaced(n)[1..] == Unplaced(n - 1);
      NothingPlaced(n - 1);
    }
  }
}
