# Santorini board rules in Dafny

This project models the rules core of SantorinAI, a rules engine for the board game Santorini.
It covers the `Board` object and the `pawn` record it owns. A `Board` for `n` players holds:

- `2n` pawns, numbered `1 .. 2n`; pawn `k` belongs to player `(k - 1) mod n + 1`, so player 1 of 2 owns pawns 1 and 3;
- a 5x5 grid of tower heights, where 0 is empty ground, 1-3 are tower levels and 4 is a terminated (capped) tower;
- the current turn (`pawn_turn`, initially 1) and the winner (initially none).

Two read-only queries decide the legal actions. `is_move_possible(start, end)` and `is_build_possible(builder, target)` each return a flag and a reason. The reason belongs to the first check that fails, and the checks run in a fixed order.

Layout:

- `wrappers.dfy`: `Option`. It models Python's `None` for an unplaced pawn and for "no winner".
- `positions.dfy` (`Positions`): cells, the bounds check and king-move adjacency.
- `rules.dfy` (`Rules`): the two queries as pure functions of a snapshot. The snapshot is the height `Grid` plus the pawn positions in roster order. The module has the verdict enumerations, the exact reason strings and the lemmas.
- `roster.dfy` (`Roster`): the pawn numbering and ownership arithmetic of the constructor.
- `pawn.dfy` (`PawnModel`): the `Pawn` class. `pos` is mutable; `pawnNumber` and `playerNumber` are fixed.
- `board.dfy` (`BoardState`): the `Board` class. It has the `pawns` sequence, an `array2<int>` grid, `pawnTurn` and `winnerPlayerNumber`. The constructor builds the pawns with a loop. `IsMovePossible` and `IsBuildPossible` are methods with no `modifies` clause, so they provably change neither the grid nor any pawn. Each searches the pawns with a loop, and each is proved equal to the pure verdict functions. Dafny's array bounds checks show that the grid is indexed only after both bounds checks pass.

## Model

| member | source | states |
|---|---|---|
| `Positions.OutsideIsRejected` | santorinai/board.py:123-124 | a position is on the board iff neither coordinate is negative or at least 5 |
| `Positions.WithinBoardIsGridIndex` | santorinai/board.py:123-124 | being on the board is exactly being a valid row/column index of a 5x5 grid, so the later grid reads never go out of range or wrap to a negative index |
| `Positions.AdjacentIffKingStep` | santorinai/board.py:137-139 | two cells are adjacent iff the second is one of the eight king steps from the first |
| `Positions.AdjacentIrreflexive` | santorinai/board.py:137-139 | no cell is adjacent to itself |
| `Positions.AdjacentSymmetric` | santorinai/board.py:137-139 | adjacency is symmetric |
| `PawnModel.Pawn.constructor` | santorinai/pawn.py:2-10 | a new pawn is unplaced and stores its pawn number and player number exactly as given |
| `Roster.OwnerOf` | santorinai/board.py:49 | the owner of any pawn is a player number in `1 .. n` |
| `Roster.Owners` | santorinai/board.py:48-50 | the owner roster has `2n` entries for `n > 0` and none otherwise |
| `Roster.OwnedPawnNumbers` | santorinai/board.py:39-50 | among pawns `1 .. 2n`, player `q` owns exactly pawns `q` and `q + n` |
| `Roster.RosterIsTwoRounds` | santorinai/board.py:48-50 | the owners in roster order are players `1 .. n` followed by `1 .. n` again |
| `Roster.EachPlayerOwnsTwoPawns` | santorinai/board.py:48-50 | every player `1 .. n` owns exactly two pawns and any other number owns none; with `n <= 0` there are no pawns at all |
| `Rules.ZeroGrid` | santorinai/board.py:53-56 | the initial grid is 5x5 with every height 0 |
| `Rules.MovePossibleIff` | santorinai/board.py:82-111 | a move succeeds iff both cells are on the board, they differ, the target is not height 4, it is at most one level above the start (any descent is allowed), the cells are adjacent and no pawn stands on the target |
| `Rules.MoveVerdictIsFirstFailing` | santorinai/board.py:82-111 | a move's reason is that of the first failing check in the order: start outside, end outside, same cell, terminated, two levels, too far, on a pawn |
| `Rules.BuildPossibleIff` | santorinai/board.py:154-180 | a build succeeds iff both cells are on the board, they differ, the target is not height 4, they are adjacent and no pawn stands on the target; heights impose nothing else |
| `Rules.BuildVerdictIsFirstFailing` | santorinai/board.py:154-180 | a build's reason is that of the first failing check in the order: builder outside, target outside, same cell, terminated, too far, on a pawn |
| `Rules.PossibleMoveIsPossibleBuild` | santorinai/board.py:82-180 | every possible move `s -> e` is also a possible build from `s` onto `e` |
| `Rules.MoveAndBuildDifferOnlyByClimb` | santorinai/board.py:82-180 | except when the climb rule refuses a move, the move and the build from `s` onto `e` give corresponding verdicts; a move refused for the climb is a possible build or is refused as too far or on a pawn |
| `Rules.BuildReadsOnlyTargetHeight` | santorinai/board.py:165-167 | the build verdict depends on the target's height only, never on the builder's |
| `Rules.BuildOnPawnMessage` | santorinai/board.py:173-178 | a build refused because a pawn stands on the target reports exactly "It is not possible to build on another pawn." |
| `Rules.MoveMessagesIdentifyVerdicts` | santorinai/board.py:69-111 | distinct move outcomes have distinct reason strings, so the reason identifies the failing check |
| `Rules.BuildMessagesIdentifyVerdicts` | santorinai/board.py:141-180 | distinct build outcomes have distinct reason strings, so the reason identifies the failing check |
| `Rules.OccupiedIffPlaced` | santorinai/pawn.py:8 | a cell counts as occupied iff a placed pawn stands on it; unplaced pawns never occupy a cell |
| `Rules.NothingPlaced` | santorinai/board.py:48-50 | a roster of freshly constructed pawns occupies no cell |
| `Rules.FreshBoardRules` | santorinai/board.py:52-67 | on a new board, a move and a build are each possible exactly between adjacent on-board cells |
| `BoardState.Board.constructor` | santorinai/board.py:28-67 | a new board has `2n` fresh unplaced pawns numbered `1 .. 2n` with owners `(k - 1) mod n + 1`, a fresh 5x5 zero grid, turn 1 and no winner |
| `BoardState.Board.IsMovePossible` | santorinai/board.py:69-111 | returns the flag and exact reason string of the move verdict for the current grid and pawns, changing nothing |
| `BoardState.Board.IsBuildPossible` | santorinai/board.py:141-180 | returns the flag and exact reason string of the build verdict for the current grid and pawns, changing nothing |
| `BoardState.NewGame` | santorinai/board.py:28-67 | on a new board each player owns two pawns, no cell is occupied and moves follow adjacency alone |

## Left out

- Positions are pairs of integers. Python compares lists and tuples as unequal (`[0, 1] != (0, 1)`), which could hide occupancy or the same-cell check when callers mix the two. The model does not capture this. All callers in the repository pass tuples.
- `Pos` holds only integer pairs. Python accepts any pair of numbers. A non-integer position outside the board is rejected by the bounds check like any other. One inside the board raises `TypeError` when it is used as a grid index: the start and end of a move, or the target of a build. A build's builder position is never used as an index, so a non-integer one is accepted (`is_build_possible((1.5, 1.5), (2, 2))` returns `True`). A position of the wrong length raises at its bounds check unless an earlier check already failed. `bool` coordinates act as 0 and 1.
- `board_size` is a plain attribute in Python but is never reassigned. The model uses the constant `BoardSize = 5`.
- `is_position_within_board` and `is_position_adjacent` are `Board` methods in Python. They read no board state besides the board size, so they are module-level predicates here.
- Heights are unrestricted integers, as in Python, where the grid can be written directly. Nothing in the core keeps them within 0-4.
- The two `print` calls inside `is_build_possible` (console output with no effect on the result) and `pawn.__repr__` (diagnostic text) are not modelled.
- The tests read a pawn attribute `.number`, but `pawn.py` defines `pawn_number`. The model follows `pawn.py`.
- `place_pawn`, `play_move`, `copy`, `get_possible_movement_positions`, `is_everyone_stuck`, `is_game_over`, `get_playing_pawn` and `turn_number` are used by the tests and the match runner, but `santorinai/board.py` does not define them, so they are not part of this model. Placement, move-and-build with rollback, turn advance, stuck detection and board copying are left as future extensions.
- The match runner (`santorinai/tester.py`), the board displayers, the player interface and the bot strategies are not part of this model. They are I/O, GUI and randomised decision code.
