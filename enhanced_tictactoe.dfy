/**
 * The enhanced tic-tac-toe component (`EnhancedTicTacToe.tsx`): the same
 * rules as the plain one, a pure computer move, and a win/draw/loss tally
 * that only the human player's click updates.
 */
module EnhancedTicTacToe {
  import opened TicTacToeRules

  datatype GameMode = NoMode | Local | Computer

  datatype Stats = Stats(wins: nat, draws: nat, losses: nat)

  /** The `useState` default of the tally. */
  const InitialStats := Stats(0, 1, 1)

  /**
   * The tally update after the player's move ended the game: X's win is a
   * win, a tie a draw, anything else (O's win) a loss.
   */
  function RecordResult(s: Stats, result: Outcome): (t: Stats)
    requires result != NoResult
    ensures result == Win(X) ==> t == s.(wins := s.wins + 1)
    ensures result == Tie ==> t == s.(draws := s.draws + 1)
    ensures result == Win(O) ==> t == s.(losses := s.losses + 1)
    ensures t.wins + t.draws + t.losses == s.wins + s.draws + s.losses + 1
  {
    if result == Win(X) then s.(wins := s.wins + 1)
    else if result == Tie then s.(draws := s.draws + 1)
    else s.(losses := s.losses + 1)
  }

  class Game {
    var board: Board
    var currentPlayer: Mark
    var gameMode: GameMode
    var winner: Outcome
    var gameActive: bool
    var showResult: bool
    var stats: Stats

    constructor ()
      ensures board == EmptyBoard && currentPlayer == X && gameMode == NoMode
      ensures winner == NoResult && !gameActive && !showResult && stats == InitialStats
    {
      board := EmptyBoard;
      currentPlayer := X;
      gameMode := NoMode;
      winner := NoResult;
      gameActive := false;
      showResult := false;
      stats := InitialStats;
    }

    /**
     * `handleCellClick(index)` up to the point where, in computer mode, it
     * starts the timer; the timer's body is `ComputerReply`.
     */
    method HandleCellClick(index: Index)
      modifies this
      ensures old(board[index] != Empty || winner != NoResult || !gameActive) ==>
        board == old(board) && currentPlayer == old(currentPlayer) &&
        winner == old(winner) && gameActive == old(gameActive) &&
        showResult == old(showResult) && stats == old(stats)
      ensures old(board[index] == Empty && winner == NoResult && gameActive) ==>
        board == old(board)[index := Marked(old(currentPlayer))] &&
        (CheckWinner(board) != NoResult ==>
          winner == CheckWinner(board) && !gameActive && showResult &&
          currentPlayer == old(currentPlayer) &&
          stats == RecordResult(old(stats), winner)) &&
        (CheckWinner(board) == NoResult ==>
          winner == NoResult && gameActive && showResult == old(showResult) &&
          stats == old(stats) &&
          currentPlayer == (if gameMode == Computer && old(currentPlayer) == X then O
                            else Other(old(currentPlayer))))
      ensures gameMode == old(gameMode)
    {
      if board[index] != Empty || winner != NoResult || !gameActive {
        return;
      }
      var newBoard := board[index := Marked(currentPlayer)];
      board := newBoard;

      var gameResult := CheckWinner(newBoard);
      if gameResult != NoResult {
        winner := gameResult;
        showResult := true;
        gameActive := false;
        stats := RecordResult(stats, gameResult);
        return;
      }

      if gameMode == Computer && currentPlayer == X {
        currentPlayer := O;
      } else {
        currentPlayer := if currentPlayer == X then O else X;
      }
    }

    /**
     * The body of the timer `HandleCellClick` starts in computer mode:
     * `newBoard` is the board the click produced, `pick` the random index
     * into its free squares. The tally is never touched here.
     */
    method ComputerReply(newBoard: Board, pick: nat)
      requires Full(newBoard) || pick < |FreeCells(newBoard)|
      modifies this
      ensures board == ComputerMove(newBoard, pick)
      ensures CheckWinner(board) != NoResult ==>
        winner == CheckWinner(board) && showResult && !gameActive &&
        currentPlayer == old(currentPlayer)
      ensures CheckWinner(board) == NoResult ==>
        winner == old(winner) && showResult == old(showResult) &&
        gameActive == old(gameActive) && currentPlayer == X
      ensures stats == old(stats) && gameMode == old(gameMode)
    {
      var computerBoard := ComputerMove(newBoard, pick);
      board := computerBoard;
      var computerResult := CheckWinner(computerBoard);
      if computerResult != NoResult {
        winner := computerResult;
        showResult := true;
        gameActive := false;
      } else {
        currentPlayer := X;
      }
    }

    /** `startGame(mode)`. */
    method StartGame(mode: GameMode)
      modifies this
      ensures gameMode == mode && board == EmptyBoard && currentPlayer == X
      ensures winner == NoResult && gameActive && !showResult
      ensures stats == old(stats)
    {
      gameMode := mode;
      board := EmptyBoard;
      currentPlayer := X;
      winner := NoResult;
      gameActive := true;
      showResult := false;
    }

    /** `resetGame()`: a new round in the same mode, the tally kept. */
    method ResetGame()
      modifies this
      ensures gameMode == old(gameMode) && board == EmptyBoard && currentPlayer == X
      ensures winner == NoResult && gameActive && !showResult
      ensures stats == old(stats)
    {
      board := EmptyBoard;
      currentPlayer := X;
      winner := NoResult;
      gameActive := true;
      showResult := false;
    }
  }
}
