# Backgammon engine: rules and move generation

A Dafny model of the rules and move-generation core of class `Game` in
`backgammon/game.py`. That class is the engine a TD-Gammon style learner plays against
itself. The model covers:

- **The board.** 24 points, each a stack of player tokens; per-player bar and off stacks;
  per-player checker counts; the order of the two players.
- **Building a board.** The fresh board of the constructor, and `reset`, which reads the
  layout string `loc-num-token,...`.
- **Legality rules.** `is_valid_move`, `can_onboard`, `can_offboard` and `remove_piece`.
- **Playing and undoing.** `take_action` plays a move sequence and returns its hit list;
  `undo_action` uses that list to take the sequence back.
- **Move generation.** `find_moves` is a depth-first search that changes the board before
  each branch and changes it back afterwards; `get_actions_doubles` drives it for a roll.
- **Turns and queries.** `take_turn` applies an externally chosen action; `reverse`,
  `clone`, `opponent`, `is_over`, `winner`, `is_won` and `is_lost`.

The project has six modules:

| file | module | contents |
|---|---|---|
| `board.dfy` | `BoardState` | the board value, its list operations as functions, checker counts, the reversed board |
| `rules.dfy` | `Legality` | the read-only rules and queries, with exact characterisations |
| `actions.dfy` | `Actions` | `take_action` and `undo_action` as functions on boards; conservation; round trip |
| `search.dfy` | `MoveGen` | `find_moves` and `get_actions_doubles` as functions; what they return |
| `layout.dfy` | `Layout` | the layout parser and `reset`; the default position |
| `game.dfy` | `Engine` | class `Game`, with the source's fields, and its methods |

The methods of `Engine.Game` change the board in place, as the source does. Each one is
proved against the function that specifies it (`State()` is the board the fields make up).

Moves are `Move(src, dst)`, with endpoints `Pt(i)`, `On` (the bar) and `Off`. Dice are
signed: the second player in `players` moves toward point 0 with negated dice.

Notable behaviours of the code, as the model states them:

- **Bearing off with a larger die.** `remove_piece` allows it only when none of the
  player's checkers stands on a home point *farther* from the edge than the origin.
- **Doubles.** The loop in `get_actions_doubles` tries 4, 3, 2, then 1 copies of the die
  and keeps the *longest* length that finds anything.
- **A single die of a mixed roll.** When the dice differ and no action plays both,
  the single moves of *either* die are offered (`MoveGen.ActionsForMixed`). The usual
  rule requires the larger die to be played when only one can be; the code does not
  enforce that.
- **Bar entry.** With a checker on the bar and a die that cannot enter, `find_moves` does
  not stop: it falls through to the ordinary point loop (`MoveGen.BarFallThrough`), so
  a checker on the bar does not freeze the other checkers.
- **The `start` cursor.** `start` is read and passed on to the recursive calls, but it
  never filters a move, so `nodups` does not change the result.

## Model

| member | source | states |
|---|---|---|
| BoardState.Opponent | backgammon/game.py:503-509 | the opponent of a token is the other of the two tokens |
| BoardState.OpponentInvolution | backgammon/game.py:503-509 | the opponent's opponent is the token itself |
| BoardState.PointRoundTrip | backgammon/game.py:474-480 | appending a checker to a point and popping it gives the checker and the board back |
| BoardState.PointUnpop | backgammon/game.py:464-481 | popping a point's top checker and appending it again gives the board back |
| BoardState.BarRoundTrip | backgammon/game.py:416-429 | appending to a bar and popping gives the checker and the board back |
| BoardState.BarUnpop | backgammon/game.py:406-424 | popping a bar checker and appending it again gives the board back |
| BoardState.OffRoundTrip | backgammon/game.py:496-499 | appending to an off stack and popping gives the checker and the board back |
| BoardState.ReversedInvolution | backgammon/game.py:523-529 | reversing the grid and the player order twice gives the board back |
| BoardState.ReversedPreserves | backgammon/game.py:523-529 | reversing keeps every player's checker count and keeps a well-formed board well formed |
| BoardState.Wellformed | backgammon/game.py:160-172 | the invariant the moves keep: every point has one owner, and each bar and off stack holds only its own player's checkers |
| BoardState.Reversed | backgammon/game.py:523-529 | the board `reverse` leaves: point i holds what point 23-i held, the player order is swapped, bars, off stacks and counts are kept |
| Legality.ValidMoveRule | backgammon/game.py:665-680 | on a board without mixed points: a move is valid iff the origin holds a checker of the token, the destination is on the board, and the destination does not hold two or more opposing checkers |
| Legality.ValidMoveReversed | backgammon/game.py:665-680 | a move is valid iff its mirror image is valid on the reversed board |
| Legality.IsValidMove | backgammon/game.py:665-680 | `is_valid_move`: the origin's bottom checker is the token's, the destination is on the board, and it holds at most one checker or is topped by the token |
| Legality.EntryPoint | backgammon/game.py:599-626 | the entry point for die r is r-1 (points 0..5) for the first player and 24+r (points 18..23) for the other; it lies exactly r pips from the opponent's edge |
| Legality.CanOnboardReversed | backgammon/game.py:599-626 | entering with die r equals entering with -r on the reversed board, at the mirrored point |
| Legality.CanOnboard | backgammon/game.py:599-626 | `can_onboard`: the entry point holds at most one checker or its bottom checker is the player's |
| Legality.CanOffboardGating | backgammon/game.py:570-597 | when a player's checkers are all accounted for, bearing off is allowed iff its bar is empty and none of its checkers is outside the home quadrant |
| Legality.CanOffboardReversed | backgammon/game.py:570-597 | bearing off is allowed on the reversed board iff it is allowed on the board |
| Legality.CanOffboard | backgammon/game.py:570-597 | `can_offboard`: the player's checkers on its home points plus those borne off equal its checker count |
| Legality.OccupiesRule | backgammon/game.py:648-660 | the scan in `remove_piece` finds an occupied point iff some point in its range holds a checker of the player |
| Legality.RemovePieceRule | backgammon/game.py:628-663 | bearing off from `start` is allowed iff `start` is in the player's home, holds the player's checker, and the die either is exactly the distance to the edge or is larger and no own checker stands on a home point farther from the edge |
| Legality.RemovePieceReversed | backgammon/game.py:628-663 | bearing off from a point with die r equals bearing off from the mirrored point with -r on the reversed board |
| Legality.RemovePiece | backgammon/game.py:628-663 | `remove_piece`, branch by branch: the home and ownership tests, the exact die, and the larger die with the scan of the farther home points |
| Legality.IsOver | backgammon/game.py:561-568 | the game is over iff some player has borne off as many checkers as it has |
| Legality.Winner | backgammon/game.py:542-554 | the winner's index is 0 or 1; its player has at least as many checkers off; on a tie in off checkers, it has no more on the bar; a full tie goes to index 1 |
| Legality.OutcomeExclusive | backgammon/game.py:511-521 | once the game is over, exactly one of won and lost holds for a token, and a token wins iff its opponent loses |
| Legality.IsWon | backgammon/game.py:511-515 | `is_won`: the game is over and the token is the winner's |
| Legality.IsLost | backgammon/game.py:517-521 | `is_lost`: the game is over and the token is not the winner's |
| Legality.BorneOffAllWins | backgammon/game.py:542-554 | with equal checker counts, the player who has borne off all its checkers, while the opponent has not, has won and the opponent has lost |
| Actions.Lift | backgammon/game.py:161-164 | the first half of a `take_action` step: pop the moving checker off the player's bar or the origin point |
| Actions.Drop | backgammon/game.py:165-172 | the second half: append the checker to the player's off stack, or to the destination after, when its bottom checker is not the player's, popping its top checker onto that checker's owner's bar; and report the hit |
| Actions.ApplyStep | backgammon/game.py:160-172 | one iteration of `take_action`'s loop: lift then drop, with the hit flag |
| Actions.ApplySeq | backgammon/game.py:159-173 | the whole loop: the board after the moves in order, and one hit flag per move |
| Actions.Undrop | backgammon/game.py:181-187 | the first half of an `undo_action` iteration: pop the off stack or the destination, and return a hit checker from the opponent's bar |
| Actions.Unlift | backgammon/game.py:188-191 | the second half: push the checker back on the player's bar or the origin point |
| Actions.UndoStep | backgammon/game.py:180-191 | one iteration of `undo_action`'s loop with its hit flag |
| Actions.UndoSeq | backgammon/game.py:175-191 | the whole loop: the moves undone last first, each with its own flag |
| Actions.StepLegal | backgammon/game.py:151-155 | the moves `take_action` assumes valid: an entry onto any open point (not only the entry point of a die) with a checker on the bar, a valid point move, or bearing off one of the player's own checkers; such a move can be played |
| Actions.LegalSeq | backgammon/game.py:151-155 | every move is legal on the board the moves before it leave; such a sequence can be played |
| Actions.LiftCounts | backgammon/game.py:161-164 | taking the moving checker off the bar or its point leaves a well-formed board with one fewer checker for the mover and the same for the opponent |
| Actions.DropHit | backgammon/game.py:168-172 | landing on a lone opposing checker sends it to its owner's bar; the point then holds the mover's checker alone, and the counts are kept |
| Actions.DropCounts | backgammon/game.py:165-172 | landing the checker on an open destination, or bearing it off, keeps the board well formed and adds one checker to the mover |
| Actions.LegalLiftDrop | backgammon/game.py:160-172 | for a legal move, the origin is the mover's and the destination is still open once the checker is lifted |
| Actions.StepConserves | backgammon/game.py:160-172 | one legal move keeps the board well formed and keeps every player's total of point, bar and off checkers |
| Actions.Conservation | backgammon/game.py:151-173 | a legal move sequence keeps the board well formed and conserves every player's checkers |
| Actions.DropRestores | backgammon/game.py:181-187 | undoing the destination half of a move (with its hit flag) gives back the checker and the board before the drop |
| Actions.LiftRestores | backgammon/game.py:188-191 | pushing the checker back on its bar or point undoes the lift |
| Actions.StepRestores | backgammon/game.py:160-191 | undoing one played move with the hit flag it produced is possible and gives back the board |
| Actions.RoundTrip | backgammon/game.py:151-191 | undoing a legal sequence with the hit flags it produced is possible and gives back exactly the board before it |
| MoveGen.Land | backgammon/game.py:468-474 | `find_moves` landing a checker: a lone checker that is not the player's is sent to the other player's bar first |
| MoveGen.Enter | backgammon/game.py:406-439 | the bar branch's change: pop the player's bar and land on the entry point |
| MoveGen.Shift | backgammon/game.py:462-474 | the point branch's change: pop the origin and land on the destination |
| MoveGen.BearOff | backgammon/game.py:495-496 | the bear-off branch's change: pop the origin and append to the player's off stack |
| MoveGen.Found | backgammon/game.py:395-501 | `find_moves` as written: the prefix when no dice remain; the forced entry; otherwise the point loop |
| MoveGen.Scan | backgammon/game.py:455-501 | the point loop over points 0..n-1 |
| MoveGen.At | backgammon/game.py:461-501 | one iteration: the point move when valid, then the bear-off when allowed and accepted |
| MoveGen.Follows | backgammon/game.py:401-501 | the independent description of a found action: each move is a choice for its die (the forced entry, or a valid move or accepted bear-off) on the board the moves before it leave |
| MoveGen.LandAgrees | backgammon/game.py:468-474 | where the destination is open, `find_moves`' way of landing a checker equals `take_action`'s |
| MoveGen.EnterAgrees | backgammon/game.py:406-439 | `find_moves`' bar entry changes the board as `take_action` playing the entry does |
| MoveGen.ShiftAgrees | backgammon/game.py:462-474 | `find_moves`' point move changes the board as `take_action` playing it does |
| MoveGen.FoundSpec | backgammon/game.py:395-501 | an action is found by `find_moves` from a prefix iff it extends the prefix and the rest uses the dice in order, each move a choice for its die on the board the earlier moves left |
| MoveGen.ScanSpec | backgammon/game.py:455-501 | the point loop up to point n finds exactly those actions whose next move starts on a point below n |
| MoveGen.AtSpec | backgammon/game.py:461-501 | one loop iteration finds exactly those actions whose next move starts on point i |
| MoveGen.FollowsFrom | backgammon/game.py:461-501 | from point i, the next move is either the move of r pips when valid, or the bear-off when allowed and accepted |
| MoveGen.ShiftBranch | backgammon/game.py:462-487 | the recursive call after a point move finds exactly the actions continuing with that move |
| MoveGen.OffBranch | backgammon/game.py:493-501 | the recursive call after bearing off finds exactly the actions continuing with that bear-off |
| MoveGen.FollowsLegal | backgammon/game.py:395-501 | an action that follows the dice has one move per die and is a legal sequence |
| MoveGen.FoundLegal | backgammon/game.py:395-501 | every action found has exactly one move per die, is legal, and conserves both players' checkers |
| MoveGen.FoundMember | backgammon/game.py:395-501 | from an empty prefix, an action is found iff it follows the dice |
| MoveGen.FoundPlayable | backgammon/game.py:395-501 | the search finds something iff some action follows the dice |
| MoveGen.BarEntryForced | backgammon/game.py:401-452 | with a checker on the bar and an open entry point, every action found starts with that entry |
| MoveGen.BarFallThrough | backgammon/game.py:401-462 | with a checker on the bar whose entry point is blocked, a valid point move is still found |
| MoveGen.Signed | backgammon/game.py:256-259 | each die is passed on as is for the first player and negated for the other |
| MoveGen.Repeat | backgammon/game.py:269 | `k` copies of the die |
| MoveGen.RepeatPlayableDown | backgammon/game.py:265-270 | if the die can be played k times it can be played any fewer times |
| MoveGen.Doubles | backgammon/game.py:265-270 | the doubles loop from i copies down: the first nonempty search result |
| MoveGen.DoublesSpec | backgammon/game.py:265-270 | the doubles loop from i copies keeps exactly the actions that play the die as many times as any action can, at most i |
| MoveGen.LongestTop | backgammon/game.py:265-270 | when the die can be played i times, the longest actions are those playing it i times |
| MoveGen.LongestBelow | backgammon/game.py:265-270 | when it cannot be played i times, the longest actions are those of the loop's next round |
| MoveGen.DoublesNonempty | backgammon/game.py:265-270 | the doubles result is empty iff not even one copy of the die can be played |
| MoveGen.ActionsFor | backgammon/game.py:246-282 | `get_actions_doubles` as written: signed dice, the doubles loop, or both orders with the single-die fallback |
| MoveGen.ActionsForDoubles | backgammon/game.py:246-270 | for doubles, an action is returned iff it plays the die the largest playable number of times; the result is empty iff no single move exists |
| MoveGen.ActionsForMixed | backgammon/game.py:271-277 | for different dice, an action is returned iff it plays both dice in either order when some such action exists, and otherwise iff it plays one of the dice |
| MoveGen.ActionsLegal | backgammon/game.py:246-282 | every returned action has 1 to 4 moves, is legal, and keeps the board well formed and the checkers conserved |
| Layout.Split | backgammon/game.py:535-536 | `split` gives at least one piece and no piece contains the separator |
| Layout.SplitJoin | backgammon/game.py:535-536 | joining the pieces of a split gives back the string |
| Layout.JoinSplit | backgammon/game.py:535-536 | splitting a join of separator-free pieces gives back the pieces |
| Layout.NatRoundTrip | backgammon/game.py:537 | `int` reads back the decimal digits of a number as that number |
| Layout.ParseToken | backgammon/game.py:537 | the tokens the model knows are the keys of the game's dictionaries: a token field `o` or `x` names that token (other tokens are under "## Left out") |
| Layout.ParseEntry | backgammon/game.py:536-537 | a field splits on `-` into exactly three parts: the point, the number and the token |
| Layout.ParseLayout | backgammon/game.py:535-537 | the fields of the comma-separated layout, or failure when one is malformed |
| Layout.EntryRoundTrip | backgammon/game.py:536-537 | a field `loc-num-token` written out reads back as itself and contains no comma |
| Layout.ParseAllFormat | backgammon/game.py:535-537 | the fields of a written-out layout read back as themselves |
| Layout.LayoutRoundTrip | backgammon/game.py:535-537 | a nonempty layout written as one string parses back to its fields |
| Layout.Stack | backgammon/game.py:537 | `[token for _ in range(num)]` has `num` checkers, all of the token |
| Layout.Place | backgammon/game.py:535-537 | each field in order replaces its point with its stack; a point off the board fails |
| Layout.PlaceFieldsSpec | backgammon/game.py:535-537 | placing the fields one at a time equals parsing them all and then placing them; a bad field fails both |
| Layout.PlaceSpec | backgammon/game.py:535-537 | with fields on distinct points of the board, each named point holds its stack and every other point is unchanged |
| Layout.PlaceOwned | backgammon/game.py:535-537 | placing fields on empty points adds exactly the checkers the fields declare |
| Layout.PlaceUniform | backgammon/game.py:537 | placing fields keeps every point single-owner |
| Layout.Tally | backgammon/game.py:538-540 | the nested counting loop: how many checkers on the grid are the token's |
| Layout.TallyOwned | backgammon/game.py:538-540 | counting tokens piece by piece equals the owned-checker count of a grid without mixed points |
| Layout.Fresh | backgammon/game.py:31-39 | the board the constructor builds is well formed |
| Layout.Reset | backgammon/game.py:531-540 | a successful reset keeps the bars, the off stacks and the player order |
| Layout.ResetPlaced | backgammon/game.py:531-540 | from a board with no counted checkers, reset places the fields and counts exactly the checkers then on the grid |
| Layout.ResetFresh | backgammon/game.py:531-540 | a layout of fields on distinct points resets the fresh board to exactly those stacks, with the declared counts |
| Layout.ResetCounts | backgammon/game.py:538-540 | the counts reset records equal what the fields declare and the checkers on the board |
| Layout.PlayerCount | backgammon/game.py:538-540 | a player's checkers on the placed grid, and its tally, equal what the fields declare |
| Layout.DefaultLayoutParses | backgammon/game.py:9 | the default layout parses to its eight fields |
| Layout.DefaultPoints | backgammon/game.py:9 | the default fields name distinct points on the board |
| Layout.DefaultDeclared | backgammon/game.py:9 | the default fields declare 15 checkers for each token |
| Layout.DefaultGame | backgammon/game.py:531-540 | resetting the fresh board to the default layout succeeds, is well formed, and gives each token 15 counted checkers, with empty bars and off stacks |
| Engine.AteList | backgammon/game.py:159-173 | the hit list has four entries, and the flags `undo_action` reads from it (`Hits`: set where the entry is nonzero, as at line 185) are the hits of the moves played |
| Engine.ShiftUndo | backgammon/game.py:462-487 | popping the moved checker, pushing it back on its point, and returning a hit checker from the opponent's bar gives back the board |
| Engine.ShiftHitUndo | backgammon/game.py:468-487 | the same, in the case where the move hit |
| Engine.EnterUndo | backgammon/game.py:406-450 | popping the entered checker, pushing it back on the bar, and returning a hit checker gives back the board |
| Engine.EnterHitUndo | backgammon/game.py:413-450 | the same, in the case where the entry hit |
| Engine.BearOffUndo | backgammon/game.py:495-501 | popping the off stack and pushing the checker back on its point gives back the board |
| Engine.Game.constructor | backgammon/game.py:17-40 | given a board with a grid, the game holds a copy of it; otherwise it holds the fresh board |
| Engine.Game.New | backgammon/game.py:42-46 | the new game holds the default position: well formed, 15 checkers each, counted |
| Engine.Game.Clone | backgammon/game.py:143-149 | a new game with the same board and no layout |
| Engine.Game.TakeAction | backgammon/game.py:151-173 | the board becomes the sequence applied move by move, and the hit list records which moves hit |
| Engine.Game.PlayMove | backgammon/game.py:160-172 | one move changes the board as one step of the sequence does, and reports whether it hit |
| Engine.Game.UndoAction | backgammon/game.py:175-191 | the board becomes the sequence undone last move first, each with the flag its hit-list entry gives |
| Engine.Game.UnplayMove | backgammon/game.py:180-191 | one iteration undoes one move with its hit flag |
| Engine.Game.Opponent | backgammon/game.py:503-509 | the loop finds the token's opponent, which is in `players` |
| Engine.Game.CanOffboard | backgammon/game.py:570-597 | the counting loop answers exactly the bear-off rule |
| Engine.Game.RemovePiece | backgammon/game.py:628-663 | the scanning loops answer exactly the bear-off-from-a-point rule |
| Engine.Game.IsOver | backgammon/game.py:561-568 | the loop answers exactly whether the game is over |
| Engine.Game.FindMoves | backgammon/game.py:372-501 | the board is unchanged on return, and exactly the actions the search specifies are added to `moves` |
| Engine.Game.ScanMoves | backgammon/game.py:455-501 | the point loop leaves the board unchanged and adds the loop's actions |
| Engine.Game.PointMoves | backgammon/game.py:461-501 | one loop iteration leaves the board unchanged and adds that point's actions |
| Engine.Game.EnterMoves | backgammon/game.py:401-452 | the bar branch leaves the board unchanged and adds the actions that start with the entry |
| Engine.Game.ShiftMoves | backgammon/game.py:462-487 | the point-move branch leaves the board unchanged and adds the actions continuing after the move |
| Engine.Game.ShiftOn | backgammon/game.py:464-474 | moving the checker gives the shifted board and returns what the undo needs |
| Engine.Game.LandOn | backgammon/game.py:468-474 | landing gives the landed board and returns the checker hit, if any |
| Engine.Game.Unland | backgammon/game.py:480-487 | the undo after the recursive call restores the checker and any hit checker |
| Engine.Game.BearOffMoves | backgammon/game.py:493-501 | the bear-off branch leaves the board unchanged and adds the actions continuing after it |
| Engine.Game.GetActionsDoubles | backgammon/game.py:246-282 | the board is unchanged, and the result is exactly the actions for the roll |
| Engine.Game.MixedMoves | backgammon/game.py:271-277 | both dice orders are tried, and single dice only when neither order found anything |
| Engine.Game.DoublesMoves | backgammon/game.py:265-270 | the loop returns the first nonempty result for 4, 3, 2, 1 copies of the die |
| Engine.Game.TakeTurn | backgammon/game.py:127-141 | with no action for the roll the board is unchanged; otherwise the chosen action is legal and is applied; either way the board stays well formed and the counts are kept |
| Engine.Game.Reverse | backgammon/game.py:523-529 | the board becomes its reverse: the points mirrored and the players swapped |
| Engine.Game.Reset | backgammon/game.py:531-540 | reset succeeds iff the layout is present and valid, and then the board is the one the reset function gives |
| Engine.Game.PlaceColumns | backgammon/game.py:535-537 | the field loop succeeds iff every field parses and names a point on the board, and then places them |
| Engine.Game.CountPieces | backgammon/game.py:538-540 | the counting loop adds every checker on the grid to its token's count |

## Left out

- `extract_features`, the neural-network model and its training: floating point and a
  foreign library.
- `roll_dice`, `play` and `next_step`: randomness. The roll is a parameter of
  `Engine.Game.TakeTurn`.
- The agents' choice of action in `take_turn`: agent code is not part of this model. The
  chosen action is a parameter, required to be one of the offered actions.
- Printing, `draw`, `draw_col` and the pause in `take_turn`: terminal output and a clock.
- `get_actions`: `take_turn` does not call it. `get_second_move`: only commented-out code
  calls it.
- Sharing of `players`: the source's `TOKENS` and a new game's `players` are one list, so
  `reverse` also reverses `TOKENS`; `clone` shares `players` with the original. The model
  keeps `players` per game and reads `TOKENS[k]` as `players[k]`; it does not model this
  aliasing.
- `int()` accepting a sign, surrounding spaces or underscores: the model accepts plain
  decimal digits only, and a point beyond 23 fails the reset.
- Layout.ParseToken: rejects a token other than `o` or `x` when the field is parsed. The
  source places such a field (line 537) and fails only at the count (line 540), and only
  if a checker of that token is still on the grid; so a layout such as `0-0-z`, or
  `0-2-z,0-2-o`, completes in the source and fails in the model.
- Layout.Reset: fails on every layout with an unknown token, for the reason above.
- Engine.Game.PlaceColumns: stops at a field with an unknown token, for the reason above.
- Engine.Game.Reset: does not state the board after a failed reset; the source raises
  part way through, with some points already replaced. It also fails on every layout with
  an unknown token, for the reason given for Layout.ParseToken.
- Engine.Game.TakeAction: requires at most four moves, since its hit list has four slots;
  it also requires that each move can be played.
- Engine.Game.FindMoves: requires dice in the range the roll gives (1..6, negated for the
  second player); those are the only values its callers (lines 256-277) pass.
- The `die` field: it always holds 6 and is modelled as the constant `Quad`.
