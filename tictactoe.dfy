/**
 * The plain tic-tac-toe component (`TicTacToe.tsx`): its React state as the
 * fields of a class, each handler as one method.
 */
module TicTacToe {
  import opened TicTacToeRules

  datatype GameMode = NoMode | Local | Computer

  class Game {
    var board: Board
    var currentPlayer: Mark
    var gameMode: GameMode
    var winner: Outcome
    var gameActive: bool

    /**
     * Turns alternate from X: X has as many marks as O, or one more; while
     * play goes on, X is to move exactly when the counts are equal.
     */
    ghost predicate Balanced()
      reads this
    {
      var d := Count(board, X) - Count(board, O);
      (d == 0 || d == 1) &&
      (gameActive && winner == NoResult ==> d == (if currentPlayer == X then 0 else 1))
    }

    /** The initial `useState` values. */
    constructor ()
      ensures board == EmptyBoard && currentPlayer == X && gameMode == NoMode
      ensures winner == NoResult && !gameActive
      ensures Balanced()
    {
      board := EmptyBoard;
      currentPlayer := X;
      gameMode := NoMode;
      winner := NoResult;
      gameActive := false;
      CountEmptyBoard(EmptyBoard, X);
      CountEmptyBoard(EmptyBoard, O);
    }

    /** `makeMove(index)`: a click on square `index`. */
    method MakeMove(index: Index)
      modifies this
      ensures old(board[index] != Empty || winner != NoResult || !gameActive) ==>
        board == old(board) && currentPlayer == old(currentPlayer) &&
        winner == old(winner) && gameActive == old(gameActive)
      ensures old(board[index] == Empty && winner == NoResult && gameActive) ==>
        board == old(board)[index := Marked(old(currentPlayer))] &&
        (CheckWinner(board) != NoResult ==>
          winner == CheckWinner(board) && !gameActive && currentPlayer == old(currentPlayer)) &&
        (CheckWinner(board) == NoResult ==>
          winner == NoResult && gameActive && currentPlayer == Other(old(currentPlayer)))
      ensures gameMode == old(gameMode)
      ensures old(Balanced()) ==> Balanced()
    {
      if board[index] != Empty || winner != NoResult || !gameActive {
        return;
      }
      var newBoard := board[index := Marked(currentPlayer)];
      CountWrite(board, index, currentPlayer, X);
      CountWrite(board, index, currentPlayer, O);
      board := newBoard;

      var gameResult := CheckWinner(newBoard);
      if gameResult != NoResult {
        winner := gameResult;
        gameActive := false;
        return;
      }

      if gameMode == Computer && currentPlayer == X {
        // the computer's answer is the separate transition MakeAIMove
        currentPlayer := O;
      } else {
        currentPlayer := if currentPlayer == X then O else X;
      }
    }

    /**
     * `makeAIMove(currentBoard)`, run by the timer that `MakeMove` starts in
     * computer mode. `pick` is the value of
     * `Math.floor(Math.random() * availableMoves.length)`.
     */
    method MakeAIMove(currentBoard: Board, pick: nat)
      requires Full(currentBoard) || pick < |FreeCells(currentBoard)|
      modifies this
      ensures Full(currentBoard) ==>
        board == old(board) && currentPlayer == old(currentPlayer) &&
        winner == old(winner) && gameActive == old(gameActive)
      ensures !Full(currentBoard) ==>
        board == ComputerMove(currentBoard, pick) &&
        var result := CheckWinner(board);
        (result != NoResult ==>
          winner == result && !gameActive && currentPlayer == old(currentPlayer)) &&
        (result == NoResult ==>
          winner == old(winner) && gameActive == old(gameActive) && currentPlayer == X)
      ensures gameMode == old(gameMode)
      ensures (old(Balanced() && gameActive && winner == NoResult && currentPlayer == O) &&
               currentBoard == old(board)) ==> Balanced()
    {
      if !Full(currentBoard) {
        var newBoard := ComputerMove(currentBoard, pick);
        var gameResult := CheckWinner(newBoard);
        board := newBoard;
        if gameResult != NoResult {
          winner := gameResult;
          gameActive := false;
        } else {
          currentPlayer := X;
        }
      }
    }

    /** `startGame(mode)`: an empty board, X to move, the game active. */
    method StartGame(mode: GameMode)
      modifies this
      ensures gameMode == mode && board == EmptyBoard && currentPlayer == X
      ensures winner == NoResult && gameActive
      ensures Balanced()
    {
      gameMode := mode;
      board := EmptyBoard;
      currentPlayer := X;
      winner := NoResult;
      gameActive := true;
      CountEmptyBoard(EmptyBoard, X);
      CountEmptyBoard(EmptyBoard, O);
    }

    /** `resetGame()`: back to the mode menu with an inactive, empty board. */
    method ResetGame()
      modifies this
      ensures gameMode == NoMode && board == EmptyBoard && currentPlayer == X
      ensures winner == NoResult && !gameActive
      ensures Balanced()
    {
      gameMode := NoMode;
      board := EmptyBoard;
      currentPlayer := X;
      winner := NoResult;
      gameActive := false;
      CountEmptyBoard(EmptyBoard, X);
      CountEmptyBoard(EmptyBoard, O);
    }
  }
}
