# Game rules and score storage, modelled in Dafny

This project models the rule engines of the board and grid games of a
browser game portal, plus the in-memory storage on its server:

- two tic-tac-toe components, plain and "enhanced" (the enhanced one keeps a win/draw/loss tally)
- a Sudoku validator and editor
- a simplified chess board with per-piece legality
- Ludo with human and computer seats
- two snake games, plain and "enhanced"
- `MemStorage`, the server's map-backed table of users and game scores

Each React component is a `class` whose fields are its state variables.
Every event handler, and every timer callback the handler schedules, is one
atomic method on that state, and each `setX(...)` is a field assignment.
Random choices become method parameters, each restricted to the values the
code can produce:

- which free square the computer plays
- the die roll
- the cells the food generator draws

Pure helpers (`checkWinner`, `isValidMove`, `checkCollision`, the storage
queries) are functions. The loops of the code (the Sudoku validators,
`getPossibleMoves`, the food generator, the local-mode seat loop of
`createPlayers`, and the score scan of `deleteUser`, which removes what it
finds) are methods with loop invariants, proved against specification
functions and predicates.

Files, one module each:

| file | module | models |
|---|---|---|
| `tictactoe_rules.dfy` | `TicTacToeRules` | the eight winning triples, `checkWinner` and the random computer move, shared by both tic-tac-toe components |
| `tictactoe.dfy` | `TicTacToe` | `TicTacToe.tsx` |
| `enhanced_tictactoe.dfy` | `EnhancedTicTacToe` | `EnhancedTicTacToe.tsx` |
| `sudoku.dfy` | `Sudoku` | `Sudoku.tsx` |
| `chess.dfy` | `Chess` | `Chess.tsx` |
| `ludo.dfy` | `Ludo` | `Ludo.tsx` |
| `snake_rules.dfy` | `SnakeRules` | positions, `checkCollision` and well-formed snakes, shared by both snake components |
| `snake.dfy` | `Snake` | `SnakeGame.tsx` |
| `enhanced_snake.dfy` | `EnhancedSnake` | `EnhancedSnakeGame.tsx` |
| `storage.dfy` | `Storage` | `server/storage.ts`, with the record fields of `shared/schema.ts` |

## Model

| member | source | states |
|---|---|---|
| TicTacToeRules.CheckWinner | client/src/components/Games/TicTacToe.tsx:15-32 | A win is reported only for a mark that fills one of the eight triples, and always when either mark does. Tie means no triple matches and all nine squares are full. No result means no triple matches and some square is empty. |
| TicTacToeRules.ScanFrom | client/src/components/Games/TicTacToe.tsx:22-31 | The loop from triple `k` on: a win is a matching triple at or after `k`; tie and no result hold exactly when none matches and the board is full or not full. |
| TicTacToeRules.FirstMatchWins | client/src/components/Games/TicTacToe.tsx:22-27 | With several matching triples, the first in the list decides the winner, because of the early return. |
| TicTacToeRules.ScanPrefix | client/src/components/Games/TicTacToe.tsx:22-27 | Scanning from any `i` up to the first matching triple `k` returns that triple's mark. |
| TicTacToeRules.Count | client/src/components/Games/TicTacToe.tsx:48-55 | The measure behind the X/O balance: the number of squares holding a given mark, at most the board size. |
| TicTacToeRules.CountWrite | client/src/components/Games/TicTacToe.tsx:37-39 | Writing a mark into an empty square raises that mark's count by one and leaves the other mark's count unchanged. |
| TicTacToeRules.FreeCells | client/src/components/Games/TicTacToe.tsx:58-62 | The list of free squares: every element is empty, indexes ascend, and the list is empty exactly when the board is full. |
| TicTacToeRules.FreeCellsComplete | client/src/components/Games/TicTacToe.tsx:58-62 | Every empty square is in the free list. |
| TicTacToeRules.ComputerMove | client/src/components/Games/EnhancedTicTacToe.tsx:55-63 | A full board is returned unchanged. Otherwise exactly one previously empty square becomes O: the O count rises by one and the X count stays. |
| TicTacToe.Game.constructor | client/src/components/Games/TicTacToe.tsx:9-13 | Empty board, X to move, no mode, no winner, inactive. |
| TicTacToe.Game.MakeMove | client/src/components/Games/TicTacToe.tsx:34-55 | Nothing changes on an occupied square, after a result, or when inactive. Otherwise the mover's mark is written into exactly that square. A result sets `winner` and deactivates the game; no result passes the turn. The X-minus-O count invariant (0 or 1, and 1 exactly when O is to move) is preserved. |
| TicTacToe.Game.MakeAIMove | client/src/components/Games/TicTacToe.tsx:57-77 | Nothing changes on a full board. Otherwise the board is the computer move on the given board; a result ends the game, and no result gives the turn back to X. The count invariant is preserved when the computer answers on the current board. |
| TicTacToe.Game.StartGame | client/src/components/Games/TicTacToe.tsx:79-85 | The chosen mode, an empty board, X to move, no winner, active. |
| TicTacToe.Game.ResetGame | client/src/components/Games/TicTacToe.tsx:87-93 | No mode, an empty board, X to move, no winner, inactive. |
| EnhancedTicTacToe.RecordResult | client/src/components/Games/EnhancedTicTacToe.tsx:78-85 | An X win raises wins, a tie raises draws, an O win raises losses; the other two counters are unchanged and the total rises by exactly one. |
| EnhancedTicTacToe.Game.constructor | client/src/components/Games/EnhancedTicTacToe.tsx:12-18 | Empty board, X to move, inactive, no result shown, and the tally starts at 0 wins, 1 loss, 1 draw. |
| EnhancedTicTacToe.Game.HandleCellClick | client/src/components/Games/EnhancedTicTacToe.tsx:65-106 | On an occupied square, after a result, or when inactive, nothing changes. Otherwise exactly that square is written. A result sets `winner`, shows it, deactivates, and records it in the tally. With no result, computer mode hands the turn to O and local mode toggles the turn. |
| EnhancedTicTacToe.Game.ComputerReply | client/src/components/Games/EnhancedTicTacToe.tsx:89-101 | The board is the computer move on the clicked board. A result sets `winner`, shows it and deactivates, with the tally untouched. No result returns the turn to X. |
| EnhancedTicTacToe.Game.StartGame | client/src/components/Games/EnhancedTicTacToe.tsx:108-115 | The chosen mode, an empty board, X to move, active, the tally kept. |
| EnhancedTicTacToe.Game.ResetGame | client/src/components/Games/EnhancedTicTacToe.tsx:117-123 | The mode and the tally are kept; the board is emptied, X is to move, and the game is active. |
| Sudoku.IsValidNumber | client/src/components/Games/Sudoku.tsx:34-59 | True exactly when `num` appears in no other cell of the row, the column or the 3×3 box. |
| Sudoku.UnitsCoverPeers | client/src/components/Games/Sudoku.tsx:36-56 | The row loop, the column loop and the box loop, which skips the row and column mates, together reject every other cell of the same row, column or box. |
| Sudoku.BoxBounds | client/src/components/Games/Sudoku.tsx:46-47 | `Math.floor(x / 3) * 3` starts the box: two indexes share a band exactly when one lies in the other's box range. |
| Sudoku.CheckComplete | client/src/components/Games/Sudoku.tsx:61-68 | True exactly when no cell is empty. |
| Sudoku.ValidateGrid | client/src/components/Games/Sudoku.tsx:70-80 | True exactly when every filled cell passes `isValidNumber` for its own value. |
| Sudoku.PuzzleIsValid | client/src/components/Games/Sudoku.tsx:16-31 | The built-in puzzle passes validation, consistent with `isValid` being set true at generation. |
| Sudoku.Write | client/src/components/Games/Sudoku.tsx:88-90 | The target cell holds the new entry and every other cell is unchanged. |
| Sudoku.Game.constructor | client/src/components/Games/Sudoku.tsx:9-12 | Blank grids, not complete, valid. |
| Sudoku.Game.GeneratePuzzle | client/src/components/Games/Sudoku.tsx:14-31 | Both grids hold the puzzle, not complete, and `isValid` agrees with the validator. |
| Sudoku.Game.HandleCellChange | client/src/components/Games/Sudoku.tsx:82-98 | A given cell, or a number outside 1..9, changes nothing. An accepted edit writes only the target cell and sets `isValid` to the validator's verdict on the new grid. `isComplete` becomes true only when the new grid is valid and full, and is never reset here. The given cells never change. |
| Sudoku.Game.ResetPuzzle | client/src/components/Games/Sudoku.tsx:100-104 | The grid returns to the given cells: not complete, valid, in agreement with the validator. |
| Chess.CreateInitialBoard | client/src/components/Games/Chess.tsx:43-73 | Row 0 holds the black back rank R N B Q K B N R, row 1 black pawns, rows 2-5 are empty, row 6 holds white pawns and row 7 the white back rank. |
| Chess.InitialPieceCount | client/src/components/Games/Chess.tsx:43-73 | The initial board holds 32 pieces. |
| Chess.PieceCountSuffix | client/src/components/Games/Chess.tsx:43-73 | On a board whose rows 0, 1, 6 and 7 hold 8 pieces and whose other rows hold none, rows `i..7` hold 8 pieces per filled row among them. |
| Chess.IsValidMove | client/src/components/Games/Chess.tsx:108-151 | A valid move starts from a square holding the player's own piece, ends on a square not holding one, and is never the null move. The per-piece rules are stated by the lemmas below. |
| Chess.MoveGuards | client/src/components/Games/Chess.tsx:108-114 | No move is valid from a square not holding the current player's piece, onto the player's own piece, or onto the source square itself. |
| Chess.RookMoves | client/src/components/Games/Chess.tsx:133-134 | For a rook of the player to move, a move is valid exactly when it stays on the row or the column and the target is not the player's own piece. |
| Chess.BishopMoves | client/src/components/Games/Chess.tsx:136-137 | For a bishop: exactly when the row and column differences are equal. |
| Chess.QueenMoves | client/src/components/Games/Chess.tsx:139-140 | For a queen: exactly a rook move or a bishop move. |
| Chess.KingMoves | client/src/components/Games/Chess.tsx:142-143 | For a king: exactly the eight neighbouring squares. |
| Chess.KnightMoves | client/src/components/Games/Chess.tsx:145-146 | For a knight: exactly the eight (1, 2) and (2, 1) jumps. |
| Chess.PawnMoves | client/src/components/Games/Chess.tsx:121-131 | For a pawn: one square forward onto an empty square, two forward from the start row onto an empty target, or one square diagonally forward onto an opponent's piece. |
| Chess.RookJumpsOverPieces | client/src/components/Games/Chess.tsx:133-134 | There is no path blocking: a rook on a1 may move past a piece on b1. |
| Chess.PawnJumpsOverPieces | client/src/components/Games/Chess.tsx:125-127 | The two-square pawn advance does not check the square in between. |
| Chess.GetPossibleMoves | client/src/components/Games/Chess.tsx:75-88 | A target is in the list exactly when `isValidMove` holds. The list is in row-major order without duplicates, and it is empty when the square does not hold the player's piece. |
| Chess.RowCount | client/src/components/Games/Chess.tsx:162-169 | The measure behind "the piece count never rises": the occupied squares of a row, at most its length. |
| Chess.RowCountWrite | client/src/components/Games/Chess.tsx:164-166 | Overwriting a square changes the row's count by the pieces removed and added. |
| Chess.PieceCountWrite | client/src/components/Games/Chess.tsx:164-166 | Replacing a row changes the board's count by the difference of the two rows' counts. |
| Chess.Put | client/src/components/Games/Chess.tsx:164-166 | One square is rewritten, every other square is unchanged, and the piece count changes accordingly. |
| Chess.MovePiece | client/src/components/Games/Chess.tsx:164-166 | The piece is on the target, the source is empty, all other squares are unchanged, and the count drops by one exactly when the target held a piece. |
| Chess.Game.constructor | client/src/components/Games/Chess.tsx:36-41 | The board is `createInitialBoard()`, white to move, nothing selected, no possible moves, not started. |
| Chess.Game.StartGame | client/src/components/Games/Chess.tsx:90-97 | The chosen mode, the board is a fresh `createInitialBoard()`, white to move, nothing selected, started. |
| Chess.Game.ResetGame | client/src/components/Games/Chess.tsx:99-106 | No mode, the board is a fresh `createInitialBoard()`, white to move, nothing selected, not started. |
| Chess.Game.HandleSquareClick | client/src/components/Games/Chess.tsx:153-186 | Before the start, nothing changes. Clicking the selected square deselects it. A valid move from the selection moves the piece, flips the turn and clears the selection. Otherwise the click selects the square when it holds the player's piece and clears the selection when it does not. A selection always holds a current-player piece, and the piece count never rises. |
| Ludo.CreatePlayers | client/src/components/Games/Ludo.tsx:34-65 | Four seats coloured red, blue, green and yellow, all tokens at 0. The first 1, 2, 3 or 4 seats (1p-3cpu, 2p-2cpu, 3p-1cpu, local) are people named "Player n"; the rest are computer players named "CPU n". |
| Ludo.AdvanceToken | client/src/components/Games/Ludo.tsx:122-126 | A home token enters at 1 only on a six and otherwise stays home. A token on the track advances by the roll, capped at 57. |
| Ludo.AdvanceStaysOnTrack | client/src/components/Games/Ludo.tsx:122-126 | For a roll of 1..6, a token in 0..57 stays in 0..57, never moves back, and stays at 57 once there. |
| Ludo.Advanced | client/src/components/Games/Ludo.tsx:118-128 | The player after the move: only the chosen token changes, by `AdvanceToken`; colour, kind, name and the other tokens are kept. |
| Ludo.FirstUnfinished | client/src/components/Games/Ludo.tsx:101-102 | `findIndex(token => token < 57)`: the first token below 57, or -1 exactly when every token is at least 57. |
| Ludo.NextSeat | client/src/components/Games/Ludo.tsx:146-157 | `(currentPlayer + 1) % players.length`: the next seat, wrapping from the last to 0. |
| Ludo.SeatAfter | client/src/components/Games/Ludo.tsx:146-157 | Passing the turn `k` times stays on a seat. |
| Ludo.RoundRobin | client/src/components/Games/Ludo.tsx:146-157 | Up to a full round, `k` passes from seat `c` reach `c + k`, wrapped once. |
| Ludo.FullRound | client/src/components/Games/Ludo.tsx:146-157 | After `n` passes the turn is back with the same seat. |
| Ludo.EverySeatPlays | client/src/components/Games/Ludo.tsx:146-157 | Every seat gets the turn within one round. |
| Ludo.ClickAsWritten | client/src/components/Games/Ludo.tsx:285-289 | The click as written: when the written guard fails the seats are unchanged; when it passes, the token of that index of the player to move (not of the clicked seat) advances by the roll and every other seat is unchanged. |
| Ludo.SecondClickAccepted | client/src/components/Games/Ludo.tsx:139-140 | After an accepted click on a roll other than six that does not win, the roll is still showing while the turn change waits on its 500 ms timer, so the same player's next click passes the guard again. |
| Ludo.ClickMovesAnotherPlayersToken | client/src/components/Games/Ludo.tsx:285-289 | In 1p-3cpu, with the computer in seat 1 to move and a six showing, the written guard accepts a click on the person's red token. The click then brings the computer's blue token onto the board while the red token stays home. The corrected guard refuses the click. |
| Ludo.Game.constructor | client/src/components/Games/Ludo.tsx:30-32 | No mode and no game state; the seat invariant, which binds only while a game is on, holds. |
| Ludo.Game.StartGame | client/src/components/Games/Ludo.tsx:67-75 | The chosen mode, seats as `createPlayers` lays them out, seat 0 to move, and no roll or winner. |
| Ludo.Game.ResetGame | client/src/components/Games/Ludo.tsx:159-162 | No mode and no game state. |
| Ludo.Game.RollDice | client/src/components/Games/Ludo.tsx:77-95 | Once started, the roll shows the drawn value 1..6; nothing else changes. |
| Ludo.Game.NextTurn | client/src/components/Games/Ludo.tsx:146-157 | With a game on, the next seat is to move and the roll is cleared; without one nothing changes. Players, winner and mode are unchanged. |
| Ludo.Game.MoveToken | client/src/components/Games/Ludo.tsx:111-144 | Only the chosen token of the player to move changes, by `AdvanceToken`, and every other token of every player is unchanged. `winner` becomes the mover's colour when all four tokens are at 57. On a six the roll is cleared and the same player moves again; otherwise turn and roll are left for the scheduled `nextTurn` (`NextTurn`). All tokens stay in 0..57. |
| Ludo.Game.MakeAIMove | client/src/components/Games/Ludo.tsx:97-109 | The computer advances its first token below 57 by the roll, with `moveToken`'s winner and roll updates and the turn left for the scheduled `nextTurn`. With no such token the turn passes at once. Without a game nothing changes. |
| Ludo.Game.ClickToken | client/src/components/Games/Ludo.tsx:285-289 | Under the corrected guard (the owner is a person, is the player to move, a roll shows and nobody has won), the clicked token advances by the roll. The winner is set when all four tokens finish, the roll is cleared on a six, and the turn is left for the scheduled `nextTurn`. Otherwise nothing changes. |
| SnakeRules.HitsBody | client/src/components/Games/SnakeGame.tsx:29-33 | `some(segment => ...)`: true exactly when the head is one of the segments. |
| SnakeRules.CheckCollision | client/src/components/Games/SnakeGame.tsx:27-34 | True exactly when the head is off the grid or on a segment, the tail included. |
| SnakeRules.StepKeepsWellFormed | client/src/components/Games/SnakeGame.tsx:45-52 | A non-colliding step keeps every segment on the grid and all segments distinct, whether the snake grows or its tail is popped. |
| Snake.Steer | client/src/components/Games/SnakeGame.tsx:74-87 | An arrow key sets its own unit step (up, down, left, right) exactly when that step lies across the current axis (a vertical key while `direction.y` is 0, a horizontal key while `direction.x` is 0); otherwise the direction is kept. Other keys change nothing, the snake never reverses, and unit directions stay unit. |
| Snake.Game.constructor | client/src/components/Games/SnakeGame.tsx:14-19 | The snake at (10, 10), food at (5, 5), stopped, score 0, not running, not over. |
| Snake.Game.MoveSnake | client/src/components/Games/SnakeGame.tsx:36-63 | Nothing changes unless running. On a collision the snake is unchanged, the game is over and stops. Otherwise the head moves by the direction and is prepended; on food the snake grows by one, the score by 10 and the food is redrawn, and elsewhere the tail is popped. The snake stays well formed on the 20×20 grid and the score a multiple of 10. |
| Snake.Game.KeyPress | client/src/components/Games/SnakeGame.tsx:70-91 | While running, the direction becomes `Steer` of the old direction and the key, and never reverses. Nothing else changes. |
| Snake.Game.StartGame | client/src/components/Games/SnakeGame.tsx:94-101 | The snake at (10, 10), moving right, food redrawn, score 0, running, not over. |
| EnhancedSnake.Neighbour | client/src/components/Games/EnhancedSnakeGame.tsx:69-75 | UP, DOWN, LEFT and RIGHT move the head by one square along one axis. |
| EnhancedSnake.NeighbourBack | client/src/components/Games/EnhancedSnakeGame.tsx:69-75 | A step followed by a step in the opposite direction returns to the start. |
| EnhancedSnake.Turn | client/src/components/Games/EnhancedSnakeGame.tsx:121-126 | The requested direction is taken exactly when it is not the opposite of the current one; otherwise the direction is kept. |
| EnhancedSnake.FirstFree | client/src/components/Games/EnhancedSnakeGame.tsx:42-51 | The first drawn cell not in the avoided cells, and every earlier draw was avoided. |
| EnhancedSnake.GenerateFood | client/src/components/Games/EnhancedSnakeGame.tsx:42-51 | The do-while loop returns the first free draw: an on-board cell not occupied by the snake. |
| EnhancedSnake.FoodOnHeadAsWritten | client/src/components/Games/EnhancedSnakeGame.tsx:86-91 | Moving right from (10, 10) onto food at (11, 10), a food draw of (11, 10) is accepted against the old snake and lands on the new head. |
| EnhancedSnake.FoodOffSnake | client/src/components/Games/EnhancedSnakeGame.tsx:86-91 | Food drawn against the snake after the move never lands on it. |
| EnhancedSnake.TailKeepsFoodOff | client/src/components/Games/EnhancedSnakeGame.tsx:92-94 | A move that misses the food keeps the food off the snake. |
| EnhancedSnake.Game.constructor | client/src/components/Games/EnhancedSnakeGame.tsx:14-21 | The snake at (10, 10), food at (15, 15), no direction, scores 0, not running. |
| EnhancedSnake.Game.MoveSnake | client/src/components/Games/EnhancedSnakeGame.tsx:62-98 | Nothing changes unless running with a direction. On a collision the snake is unchanged, the game stops and shows the result, and `highScore` becomes the maximum of score and high score. Eating grows the snake by one and the score by 10, and puts the food on a free cell. Any other move keeps the length. Both non-colliding moves keep `gameOver` and `showResult`. The food is always off the snake and `highScore` never drops. A free draw is required only on the step that eats. |
| EnhancedSnake.Game.KeyPress | client/src/components/Games/EnhancedSnakeGame.tsx:105-132 | While running, an arrow or w/s/a/d key requests its direction, refused only when it is the opposite of the current one. |
| EnhancedSnake.Game.DirectionClick | client/src/components/Games/EnhancedSnakeGame.tsx:144-150 | The same opposite-direction rule for the on-screen buttons. |
| EnhancedSnake.Game.StartGame | client/src/components/Games/EnhancedSnakeGame.tsx:134-142 | The snake at (10, 10), food at (15, 15), no direction, score 0, running, the high score kept. |
| Storage.Merge | server/storage.ts:66-69 | `{ ...existingUser, ...updates }`: a field given in the update is overwritten, others are kept, and `id` and `createdAt` never change. |
| Storage.MergeLaws | server/storage.ts:66-69 | An empty update changes nothing, and applying the same update twice is the same as once. |
| Storage.IdOrder | server/storage.ts:38 | The map's iteration order: its keys in the range, strictly ascending. |
| Storage.IdOrderComplete | server/storage.ts:38 | Every key in the range appears in that order. |
| Storage.Values | server/storage.ts:38 | `Array.from(map.values())`: the records in key order. |
| Storage.Find | server/storage.ts:37-47 | `find`: a matching user that no earlier user matches, or nothing exactly when no user matches. |
| Storage.FindIsFirst | server/storage.ts:37-47 | In id order, no user with a smaller id than the one found matches. |
| Storage.Filter | server/storage.ts:102-119 | `filter` keeps exactly the selected records, each with its multiplicity. |
| Storage.Insert | server/storage.ts:102-119 | Inserting into a descending list keeps it descending and adds exactly one element. |
| Storage.SortDescending | server/storage.ts:102-119 | The sort result is descending by the key and a permutation of its input. |
| Storage.Query | server/storage.ts:102-119 | Filter then sort: only selected records, descending, a permutation of the filtered list. |
| Storage.Take | server/storage.ts:112 | `slice(0, limit)`: a prefix of `limit` elements, or of all but `-limit` when the limit is negative. |
| Storage.HighScores | server/storage.ts:108-113 | Only scores of the game type, descending by score, and a prefix of the full sorted list. The prefix is exactly as long as `slice(0, limit)` makes it: `min(limit, n)` for a non-negative limit, `max(n + limit, 0)` for a negative one. |
| Storage.WithoutUser | server/storage.ts:79-85 | Exactly the scores not belonging to the user, unchanged. |
| Storage.MemStorage.constructor | server/storage.ts:25-30 | Empty maps and both counters at 1. |
| Storage.MemStorage.AllUsers | server/storage.ts:38 | The stored users in ascending id order. |
| Storage.MemStorage.AllScores | server/storage.ts:103 | The stored scores in ascending id order. |
| Storage.MemStorage.AllUsersComplete | server/storage.ts:38 | Every stored user is in that list. |
| Storage.MemStorage.AllScoresComplete | server/storage.ts:103 | Every stored score is in that list. |
| Storage.MemStorage.GetUser | server/storage.ts:33-35 | The user under `id`, or nothing exactly when there is none. |
| Storage.MemStorage.GetUserByEmail | server/storage.ts:37-41 | The user with the smallest id having that email, or nothing when no stored user has it. |
| Storage.MemStorage.GetUserByFirebaseUid | server/storage.ts:43-47 | The user with the smallest id having that Firebase uid, or nothing when none has it. |
| Storage.MemStorage.FindFirst | server/storage.ts:37-47 | The search both lookups share: the lowest-id matching user, or nothing exactly when none matches. |
| Storage.MemStorage.FindNone | server/storage.ts:37-47 | When the search finds nothing, no stored user matches. |
| Storage.MemStorage.FindSome | server/storage.ts:37-47 | When the search finds a user, no user with a smaller id matches. |
| Storage.MemStorage.GetUserGameScores | server/storage.ts:102-106 | The user's scores, newest first, with every score of that user included. |
| Storage.MemStorage.GetGameHighScores | server/storage.ts:108-113 | Only the game's scores, best first, and a prefix of the full sorted list, of exactly `min(limit, n)` elements (`max(n + limit, 0)` for a negative limit). |
| Storage.MemStorage.HighScoresAreTop | server/storage.ts:108-113 | Every returned score is at least every score the limit cut off. |
| Storage.MemStorage.GetUserGameScoresByType | server/storage.ts:115-119 | The user's scores in that game, best first, every such score included. |
| Storage.MemStorage.CreateUser | server/storage.ts:49-58 | The new user gets the counter's value as id, then the counter rises. The id is fresh and above every existing id, the record is the input with that id and the timestamp, and no other user or score changes. |
| Storage.MemStorage.UpdateUser | server/storage.ts:60-73 | A missing id returns nothing and changes nothing. An existing user is replaced by the merge, which is stored and returned. Scores and counters are unchanged. |
| Storage.MemStorage.DeleteUser | server/storage.ts:75-88 | Returns true exactly when the user existed. Afterwards the user is gone and, when it existed, exactly its scores are removed. On false, the scores are unchanged. Counters are unchanged. |
| Storage.MemStorage.CreateGameScore | server/storage.ts:91-100 | The score's id comes from its own counter, which then rises. The id is fresh and above every existing score id, the record is the input with that id and the timestamp, and users are unchanged. |

## Left out

- Rendering, JSX, styles, canvas, `useEffect` wiring, keyboard and mouse listeners: user interface only.
- The timers are not modelled: the `setTimeout` delays (500 ms, 1000 ms), the `setInterval` ticks of the snakes and `GAME_SPEED`. Each scheduled callback is its own method and callers choose the order: Ludo's `moveToken` on a roll other than six leaves the turn and the roll showing, and the `nextTurn` it schedules is the separate `NextTurn`. Clicks that land while a callback is pending are not ruled out, so a second Ludo click with the same roll, and the second `nextTurn` it schedules, are within the model (`Ludo.SecondClickAccepted`).
- React batching and stale closures are not modelled. Each handler is one atomic transition on the current state. In particular, Ludo's `moveToken` decides whether to pass the turn from `gameState.diceValue` as it stands when the handler runs.
- Ludo `moveToken` writes `tokens` into the player object it shares with the previous state (a shallow copy). The model replaces the player by value, so this aliasing is not modelled.
- Ludo `isRolling` (the flag that ignores a second roll during the animation) belongs to the timing and is dropped. `RollDice` only takes the roll.
- `Math.random` is not modelled. The computer's square `pick`, the die `roll`, the snake food cell and the enhanced snake's sequence of food `draws` are parameters, restricted to the values the code can produce.
- Sudoku `parseInt` on text that is not a number (NaN) is not modelled. The input is either empty or an integer.
- Chess has no path blocking, check, castling, en passant or promotion in the source, so nothing of these is modelled. `getPossibleMoves` is never called by the click handler, so `possibleMoves` stays empty.
- The plain snake draws food on any grid cell, including the snake, because `generateFood` there does not look at the snake. The model keeps that.
- Two key presses within one snake tick can turn the snake back onto itself, because each press only looks at the current direction. The model has the same per-press rule and no tick-level property about it.
- Enhanced snake direction names outside UP/DOWN/LEFT/RIGHT cannot arise: directions are a datatype, so the "unrecognised direction" branch is unreachable.
- EnhancedSnake.GenerateFood: its do-while loop runs forever when every cell is taken. The model requires the draws to contain a free cell and does not model the endless loop.
- EnhancedSnake.Game.MoveSnake: the step on which a 399-segment snake eats the food in the last free cell is excluded by its requires, because with the food drawn against the snake after the move no cell is free. As written, the source draws against the snake before the move, so that step ends with the food on the new head.
- Collisions count the tail segment that is about to move away, in both snakes, exactly as the source does.
- Server routes, zod parsing, drizzle schema declarations, Firebase and `UserContext`: foreign libraries or I/O. Only the schema's record fields are reused.
- Storage timestamps: `new Date()` is an integer parameter `now`; `createdAt` is that integer.
- Storage.MemStorage.CreateUser: the schema's database default avatar of 1 is not applied, because `MemStorage` spreads the insert record as it is.
- Storage.Merge: an update that names a field with the value `undefined` is modelled as leaving the field out.
- Storage.MemStorage.GetGameHighScores: the default `limit = 10` is a TypeScript default argument; callers pass the limit.
- Storage.SortDescending: the ties' order (JavaScript's sort is stable) is not stated, only descending order and permutation. The comparator's subtraction is exact on integers.
- Storage map order: a JavaScript `Map` iterates in insertion order. Keys are only ever added with a rising counter, so that order is ascending id, which the model uses directly.
- Other games (Pong, Breakout, FlappyBird, DinoRun, HelixJump): floating-point physics driven by timers, not part of this model.

## Findings

| source | as written | input that shows it | evidently intended | confidence | as-written member | corrected member |
|---|---|---|---|---|---|---|
| client/src/components/Games/Ludo.tsx:285-289 | A token click is accepted when the token's owner is a person, a roll shows and nobody has won. It then moves the token of that index belonging to the player to move, whoever that is. | 1p-3cpu, computer seat 1 to move, a six showing: a click on the person's red token passes the guard and moves the computer's blue token. | Only the player to move may click, and the clicked player's token moves. | not executed | Ludo.ClickGuardAsWritten, Ludo.ClickAsWritten, Ludo.ClickMovesAnotherPlayersToken | Ludo.ClickGuard, Ludo.Game.ClickToken |
| client/src/components/Games/EnhancedSnakeGame.tsx:86-91 | When food is eaten, `generateFood` checks draws against the snake from before the move, which lacks the new head. | Snake [(10, 10)], food at (11, 10), direction RIGHT, first draw (11, 10): the new food lands on the new head. | Draw the food off the snake after the move. | not executed | EnhancedSnake.FoodAvoidAsWritten, EnhancedSnake.FoodOnHeadAsWritten | EnhancedSnake.FoodAvoid, EnhancedSnake.FoodOffSnake, EnhancedSnake.Game.MoveSnake |
