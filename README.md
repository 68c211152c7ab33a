# Tic-tac-toe game state, modelled in Dafny

This project models the game logic of the tic-tac-toe component `AppComponent`
(`src/app/app.component.ts`). The component holds three pieces of game state:

- `board`: nine string cells in row-major order, each `""`, `"X"` or `"O"`;
- `currentPlayer`: `"X"` or `"O"`;
- `winner`: `"X"`, `"O"` or `null`.

It has three operations on that state and one derived value:

- `makeMove(index)` places the current player's mark. It then records a win or hands the turn over.
- `checkWinner(board)` scans the eight fixed winning combinations.
- `resetGame()` restores the initial state.
- `isDraw` is true when there is no winner and no empty cell.

Files:

- `Board.dfy`, module `Board`, holds the win evaluator. `CheckWinner` runs `AnyComplete`, the `.some` scan, over the
  source's table `WinningCombinations`. `LineComplete` is the scan's predicate, written with JavaScript semantics:
  - `CellAt` gives `None` for an index outside the array, standing for `undefined`.
  - `Truthy` is JavaScript truthiness, so `""`, `null` and `undefined` are all false.

  This module also holds an independent geometric statement of "three in a row" (rows, columns and diagonals in
  grid coordinates), mark counting, and the lemmas about placing one mark. A small `Wrappers` module supplies `Option`.
- `Game.dfy`, module `GameState`, holds the class `Game`. Its fields `board`, `currentPlayer` and `winner` stand for
  the component's signals. `MakeMove` and `ResetGame` are methods with `modifies this`, and `IsDraw` is a function of
  the fields. `MakeMove` copies the board into a fresh array and writes one cell, as the source does. It then stores
  the copy as the new board.
- `Scenarios.dfy` holds two complete games played through `MakeMove`, `IsDraw` and `ResetGame`. They are split into
  short stretches of moves so that each proof stays small.

The class invariant `Game.Valid()` holds in every state the component can reach:

- There are nine cells, each `""`, `"X"` or `"O"`, and the player to move is `"X"` or `"O"`.
- While no winner is set, no line is complete and the mark counts say it is `currentPlayer`'s turn.
  That means equal counts when X is to move, and one more X than O when O is to move.
- Once a winner is set, that player is `currentPlayer` and owns a complete line. The opponent owns none, and the
  counts show that the winner moved last.

The component's methods have no preconditions. `MakeMove` requires `Valid()` only as this class invariant, which the
constructor, `MakeMove` and `ResetGame` all re-establish. `ResetGame` requires nothing at all.

Moves use an `int` index. As in the source, there is no explicit range check. An index outside 0..8 reads
`undefined`, which is not `""`, so the move changes nothing. `MakeMove` states this as part of its guard.

## Model

| member | source | states |
|---|---|---|
| `Board.Opponent` | src/app/app.component.ts:88 | the turn hand-over `p === 'X' ? 'O' : 'X'` always yields a player different from `p`, and it maps X to O and every other value to X |
| `Board.LineComplete` | src/app/app.component.ts:106 | the `.some` callback holds exactly when all three indices lie inside the board and the three cells hold the same non-empty mark; an index that reads `undefined` never completes a line |
| `Board.CheckWinner` | src/app/app.component.ts:93-108 | `checkWinner(board)` is true exactly when some mark owns a complete entry of the winning table |
| `Board.AnyComplete` | src/app/app.component.ts:105-107 | `.some` over a list of combinations is true exactly when some listed combination satisfies the line predicate |
| `Board.CheckWinnerByLines` | src/app/app.component.ts:93-108 | `checkWinner` is true exactly when one of the eight listed triples has a truthy first cell equal to the other two cells |
| `Board.WinsForIsThreeInARow` | src/app/app.component.ts:94-103 | a table entry is complete with mark m exactly when m is non-empty and fills a row, a column or one of the two diagonals of the 3x3 grid, so the table is exactly the 8 lines |
| `Board.CheckWinnerIsThreeInARow` | src/app/app.component.ts:93-108 | `checkWinner` is true exactly when some non-empty mark fills a whole row, column or diagonal; an all-empty line never counts |
| `Board.CheckWinnerIsXOrO` | src/app/app.component.ts:105-107 | on a board of `""`/`"X"`/`"O"` cells, `checkWinner` is true exactly when X or O owns a complete line |
| `Board.AllFilled` | src/app/app.component.ts:36 | `board.every(cell => cell !== '')` is true exactly when every cell is non-empty |
| `Board.NewLinesBelongToMover` | src/app/app.component.ts:79-85 | if a board has no complete line, writing mark p into an empty cell completes only lines owned by p |
| `Board.WinningMoveWinsForMover` | src/app/app.component.ts:84-85 | if a move makes `checkWinner` true, the mover owns a complete line on the new board |
| `Board.CountAfterPlacing` | src/app/app.component.ts:80-82 | writing p into an empty cell raises p's count by one, lowers the count of empty cells by one and leaves every other count unchanged |
| `Board.CountPartition` | src/app/app.component.ts:22 | helper for the turn-count invariant `Valid()`, which has no counterpart in the source: on a board of `""`/`"X"`/`"O"` cells, the three counts add up to the board length |
| `Board.CountAbsent` | src/app/app.component.ts:111 | helper for the turn-count invariant `Valid()`, which has no counterpart in the source: a mark that no cell holds is counted zero times, so the reset board holds no X or O |
| `Board.FilledHasNoEmpty` | src/app/app.component.ts:36 | helper for the turn-count invariant `Valid()`, which has no counterpart in the source: a board that passes the `.every(cell !== '')` test has no empty cell to count |
| `Board.EmptyBoardIsStart` | src/app/app.component.ts:110-114 | the reset board has 9 empty cells and no complete line, holds no X and no O, and makes it X's turn |
| `Board.PlacingKeepsBalance` | src/app/app.component.ts:81-88 | the current player writing into an empty cell on a turn-balanced board leaves a board on which it is the opponent's turn |
| `Board.FullBoardShape` | src/app/app.component.ts:35-37 | a full, turn-balanced 3x3 board holds five X and four O, and O is nominally to move |
| `GameState.Game.constructor` | src/app/app.component.ts:22-24 | initial state: 9 empty cells, X to move, no winner; the invariant holds |
| `GameState.Game.CanMove` | src/app/app.component.ts:79 | the guard `board[index] === '' && !winner` holds exactly when `index` lies inside the board, that cell is `""` and the winner is unset (null or `""`) |
| `GameState.Game.MakeMove` | src/app/app.component.ts:77-91 | the move happens exactly when 0 <= index < 9, the cell is `""` and no winner is set. Otherwise board, player and winner are all unchanged, so a set winner is never changed. A move writes the mover's mark at exactly `index` and leaves the other cells alone. Then either the new board wins, the mover becomes winner and keeps the turn, or the winner stays unset and the turn passes X<->O. The invariant is kept |
| `GameState.Game.ResetGame` | src/app/app.component.ts:110-114 | from any prior state, even one that breaks the invariant: 9 empty cells, X to move, no winner, and the invariant holds |
| `GameState.Game.IsDraw` | src/app/app.component.ts:35-37 | `isDraw` is true exactly when the winner is not truthy and every cell is non-empty |
| `GameState.DrawIsStalemate` | src/app/app.component.ts:35-37 | in a reachable state, a draw has no winner and no complete line, holds five X and four O, and admits no further move |
| `GameState.WinnerOwnsOnlyLine` | src/app/app.component.ts:84-85 | in a reachable state with a winner: no draw, `checkWinner` holds, and the winner is the only mark owning a complete line |
| `Scenarios.ColumnWin` | src/app/app.component.ts:77-91 | moves X->0, O->1, X->3, O->2, X->6 make X the winner on column 0, and a later click on cell 8 changes nothing |
| `Scenarios.Quiet` | src/app/app.component.ts:79-89 | a legal move whose new board completes no line writes the mark, leaves the winner unset and passes the turn |
| `Scenarios.Winning` | src/app/app.component.ts:79-85 | a legal move whose new board completes a line writes the mark, records the mover as winner and keeps the turn |
| `Scenarios.Draw` | src/app/app.component.ts:35-37 | filling the board as X,O,X / X,O,O / O,X,X gives `isDraw` with no winner; `resetGame` then restores the empty board |

`checkWinner` is modelled as a function on a sequence value. It therefore cannot change the board it is given
(src/app/app.component.ts:105-107).

## Left out

- Theme handling is not modelled: the constructor's `effect` that edits `document.body.classList` and writes
  `localStorage`, the theme read in `ngOnInit`, and `toggleTheme`. All of it is browser I/O around a boolean flip.
- Visit tracking is not modelled: `trackVisit`, the `TrackService` subscription and the visitor-count fields. This is
  an asynchronous HTTP call with callbacks and console logging, and its only output is UI state.
- Angular's `signal`/`computed`/`effect`/`inject` machinery and change notification are not modelled. Signals are
  plain fields, and `computed` is a function of them.
- GameState.Game.MakeMove: the index is an integer. A JavaScript `number` such as `1.5` or `NaN` also reads
  `undefined`, so such a move also changes nothing, but the model does not cover it.
- The signal's old and new board arrays are distinct objects in the source; the model keeps the board as a sequence
  value, so aliasing of the old array is not represented.
