# Connect Four game state, modelled in Dafny

This project models the game logic of a browser Connect Four page
(`script.js`). A `Game` object holds a board of `height` rows by
`width` columns (6 by 7 by default), two players, the player whose piece
the next click drops (`currPlayer`), and a `gameOver` flag. A click on the
top of a column runs `handleClick`, which does four things in order:

1. It finds the landing row with `findSpotForCol`, scanning the column from
   the bottom row upward. If the column is full, it returns.
2. It writes `currPlayer` into that cell.
3. It checks whether every cell is occupied. If so, it ends the game as a
   tie.
4. It checks for a win with `checkForWin`. That function tries every anchor
   cell in four directions: horizontal, vertical, down-right and down-left.
   On a win it sets `gameOver` and ends the game.

Ending the game detaches the click listener, so no later click reaches
`handleClick`.

Files:

- `board.dfy`, module `Board`. This is the board as a value (`Grid`). It
  holds the landing row (`LandingRow`, with its declarative
  characterisation `IsLandingRow`/`ColumnFull`) and a single-cell write
  (`Place`). It holds the four-cell check lists of the source (`Line`,
  `AllOwned`, `AnchorWins`) and the quantified reference definition of a
  win (`IsWinAt`, `HasWin`). It also states what one move does
  (`AfterMove`, `MoveOutcome`) and the gravity invariant (`Gravity`), with
  lemmas connecting all of these.
- `game.dfy`, module `ConnectFour`. Class `Game` keeps the board in an
  `array2<Cell>` that the methods update in place. The object invariant
  `Valid()` includes gravity, and it says that `currPlayer` is always the
  first player and that every piece on the board is the first player's.
  `FindSpotForCol`, `CheckForWin` and `HandleClick` are
  loops and in-place updates. Each is proved against the functions of
  `Board` through `Snapshot()`, the board read as a value.
- `scenarios.dfy`, module `Scenarios`. Concrete boards that pin down how a
  move ends: the tie-before-win ordering, a seven-click game from the
  empty board that ends in a vertical win, and a diagonal found by the
  down-left scan.

Points where the code does something other than a reader might expect,
and the model does what the code does:

- **Tie before win.** The full-board test (script.js:109) runs before the
  win test (script.js:114). A drop that fills the last cell is reported as
  a tie even if it completes a line (`Scenarios.WinningLastDropIsTie`).
- **`gameOver` on a win only.** `gameOver` becomes true only on a win
  (script.js:115). After a tie it stays false, but the listener is gone, so
  no further move happens (`ConnectFour.Game.Click`).
- **No turn alternation.** `switchPlayer` is declared under the comment
  "switch players" but never called (script.js:119-131). So `currPlayer`
  never changes, and every piece on the board belongs to the first player.
  `HandleClick` ensures `currPlayer == old(currPlayer)`. `Valid()` holds
  `currPlayer == players[0]` and `OnlyHeldBy(Snapshot(), players[0])`,
  and `Board.OnlyHeldByPreserved` keeps the latter across moves.
- **No validation.** Neither the dimensions nor the clicked column are
  checked. Dimensions are natural numbers, and the column is a
  precondition (see below).
- **Diagonals.** The line (5,0), (4,1), (3,2), (2,3) is found by the
  down-left check list anchored at (2,3). The down-right list anchored at
  (5,0) leaves the board at its first step
  (`Scenarios.DiagonalFoundDownLeft`).

## Model

| member | source | states |
|---|---|---|
| `ConnectFour.Game.constructor` | script.js:7-15 | The game holds `players == [p1, p2]` with `p1` to move. It has the given dimensions (default 6 by 7) and a board with every cell empty. `gameOver` is false, the click listener is attached, and the object invariant (including gravity, and every piece being the first player's) holds. |
| `ConnectFour.Game.MakeBoard` | script.js:20-25 | Yields a fresh board of exactly `height` rows of `width` cells, every cell empty. |
| `Board.ScanUp` | script.js:68-73 | Looking at rows n-1 down to 0 of a column, it answers None exactly when all of them are occupied. Otherwise it answers the first empty row met from the bottom, and every scanned row below it is occupied. |
| `Board.LandingRow` | script.js:67-74 | None exactly when every cell of the column is occupied. Otherwise the row returned is empty, and every row below it (greater index) in that column is occupied, so it is the largest empty row. |
| `Board.LandingRowUnique` | script.js:67-74 | Any row satisfying that characterisation is the one `LandingRow` returns, so the characterisation fixes the landing row. |
| `ConnectFour.Game.FindSpotForCol` | script.js:67-74 | The bottom-up loop over the array returns exactly `LandingRow` of the current board. It returns None iff the column is full, and otherwise the empty row with every cell below it occupied. |
| `Board.IsFull` | script.js:109 | The tie test (every cell of every row occupied). A full board leaves every column full, so every later click takes the early return of script.js:101-103. |
| `Board.Place` | script.js:105 | Writing a piece sets cell (y, x) to that player and leaves every other cell and the board's shape as they were. |
| `Board.Line` | script.js:149-172 | Each check list has four cells, and its first cell is the anchor. |
| `Board.LineSteps` | script.js:149-172 | The k-th cell of each check list is (y + k·dy, x + k·dx) for its direction's step: (0,1), (1,0), (1,1) or (1,-1). |
| `Board.AllOwnedLine` | script.js:136-172 | The `_win` test of a check list (every cell inside the board and held by the player) holds exactly when the quantified line (y + k·dy, x + k·dx), k = 0..3, lies on the board and is held by the player. |
| `Board.AnchorWins` | script.js:175 | The `||` of the four check lists at an anchor. When it holds, the anchor is on the board and holds the player. |
| `Board.AnchorWinsIff` | script.js:149-177 | The four check lists tried at an anchor succeed exactly when some direction gives a winning line anchored there. |
| `Board.WinAnchorInBounds` | script.js:136-146 | Every winning line starts at a cell of the board held by the player, so scanning only on-board anchors misses no win. |
| `Board.NoAnchorNoWin` | script.js:135-180 | If no anchor cell of the board wins in any of the four directions, the player has no four in a row anywhere, so the scan falling off its end means no win. |
| `ConnectFour.Game.CheckForWin` | script.js:135-180 | The nested row/column scan answers true iff some anchor and some direction among horizontal, vertical, down-right and down-left make all four cells lie on the board and hold `currPlayer` (`HasWin`). Otherwise it answers false, where the source falls off the end and returns `undefined`. |
| `Board.AfterMove` | script.js:100-105 | The board after a click keeps its shape. On a full column it is the old board. Otherwise it is the old board with the player written into the column's landing row. |
| `Board.MoveOutcome` | script.js:100-118 | The move reports a full column exactly when the column is full. Otherwise it reports the landing row. The outcome is a tie exactly when the drop filled the board. It is a win exactly when the board is not full and the player has four in a row, so the tie test comes first. |
| `Board.FullColumnIsNoOp` | script.js:100-103 | A click on a full column leaves the board unchanged and reports that the column was full. |
| `Board.DropWritesLandingCell` | script.js:100-105 | A click on a column with room writes the player into the landing cell of that column, reports that row, and leaves every other cell unchanged. |
| `Board.OccupancyGrows` | script.js:100-105 | No occupied cell is cleared or reassigned by a move, so occupancy only grows. |
| `Board.OnlyHeldByPreserved` | script.js:105-131 | If every piece is p's and p moves, every piece is still p's. Since `switchPlayer` is never called, every piece on the board is the first player's. |
| `Board.GravityPreserved` | script.js:67-74 | If each column's occupied cells form a bottom-contiguous block, they still do after a move, because the piece lands on top of the block. |
| `ConnectFour.Game.EndGame` | script.js:88-92 | Detaches the click listener and changes nothing else in the game state. |
| `ConnectFour.Game.HandleClick` | script.js:94-131 | The new board is `AfterMove` of the old board and the reported outcome is `MoveOutcome` (full column, then full board before win). `gameOver` becomes true exactly on a win. The listener is detached exactly on a tie or a win. `currPlayer` never changes, and the invariant is kept: gravity, and every piece being the first player's. |
| `ConnectFour.Game.Click` | script.js:37-41 | Once the listener is detached (after a tie or a win), a click changes nothing. While it is attached, the click runs `HandleClick` with the same effect. |
| `Scenarios.WinningLastDropIsTie` | script.js:108-118 | On a 4 by 1 board with three of A's pieces, A's drop completes a vertical line and fills the board. The move is reported as a tie. |
| `Scenarios.DropOnThreeOwnWins` | script.js:100-118 | A drop landing on three of the mover's own pieces in its column wins, with the vertical line anchored at the landing cell, unless the drop filled the board. |
| `Scenarios.FourthDropInColumnWins` | script.js:100-118 | On the 6 by 7 board whose rows 3-5 of columns 3 and 4 are all held by A, A's click on column 3 lands in row 2 and wins vertically with rows 2-5. |
| `Scenarios.SeventhClickWins` | script.js:94-131 | From the empty 6 by 7 board, the clicks 3, 4, 3, 4, 3, 4 all drop A's pieces, because the player never switches. Each click's board is stated and proved to be the move applied to the previous one, and the sixth gives exactly the board above. The seventh click, on column 3, then wins in row 2. |
| `Scenarios.DiagonalFoundDownLeft` | script.js:161-177 | Pieces at (5,0), (4,1), (3,2), (2,3) win through the down-left list anchored at (2,3). The down-right list from (5,0) does not win. |

## Left out

- Rendering and browser I/O are not modelled. This covers `makeHtmlBoard`
  (script.js:29-63), `placeInTable` (script.js:78-86) and the `alert` in
  `endGame`. Detaching the listener is modelled by the `listening` field.
- Event wiring and player setup are not modelled. This covers the start-game
  handler that reads the colour pickers (script.js:189-193) and
  `Player.color` (script.js:183-187). Players are opaque identities, and
  `===` on player objects is equality of those identities.
- ConnectFour.Game.HandleClick: it takes the column as an integer with
  precondition `0 <= x < width`. The source derives it from the clicked
  element's id (script.js:97). A click that does not hit a column cell gives
  `NaN`. The source then writes a `NaN` property (script.js:105) on the
  lowest row where that property is still unset (the test at script.js:69). After `height` such clicks
  every row has it, so `findSpotForCol` returns null and the handler
  returns at script.js:101-103 without throwing. Before that,
  `placeInTable` finds no element with id `"<row>-NaN"`, so
  `spot.append` throws (script.js:84-85). The handler stops before the tie
  and win tests. That path is not modelled.
- ConnectFour.Game.FindSpotForCol: it requires `0 <= x < width`, for the
  same reason.
- The DOM updates inside the uncalled `switchPlayer` (script.js:122-129) are
  not modelled. It is never invoked, so they never run.
- The module-level `gameIsRunning` flag (script.js:2, script.js:116) is not
  modelled. It is written but never read.
- Dimension validation is not modelled. The source has none. `height` and
  `width` are natural numbers. In the source a negative height skips the
  row loops, and a negative width gives rows with no cells. Both behave
  like 0, which the model covers.
