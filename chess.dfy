/**
 * The simplified chess component (`Chess.tsx`): the initial position, the
 * per-piece geometric legality test (no path blocking, check, castling,
 * en passant or promotion), the list of legal targets, and the
 * select-then-move click handler.
 */
module Chess {

  datatype PieceType = King | Queen | Rook | Bishop | Knight | Pawn
  datatype PieceColor = White | Black
  datatype Piece = Piece(kind: PieceType, color: PieceColor)
  datatype Square = Empty | Occupied(piece: Piece)

  datatype GameMode = NoMode | Local | Computer

  type Idx = i: int | 0 <= i < 8

  /** `selectedSquare`: null or a `[row, col]` pair. */
  datatype Option = None | Some(row: Idx, col: Idx)

  type Row = r: seq<Square> | |r| == 8
    witness [Empty, Empty, Empty, Empty, Empty, Empty, Empty, Empty]

  type Board = b: seq<Row> | |b| == 8
    witness seq(8, _ => [Empty, Empty, Empty, Empty, Empty, Empty, Empty, Empty])

  const EmptyRow: Row := [Empty, Empty, Empty, Empty, Empty, Empty, Empty, Empty]

  function Opponent(c: PieceColor): PieceColor {
    if c == White then Black else White
  }

  /** The back-rank order: rook, knight, bishop, queen, king, bishop, knight, rook. */
  function BackRankKind(col: Idx): PieceType {
    if col == 0 || col == 7 then Rook
    else if col == 1 || col == 6 then Knight
    else if col == 2 || col == 5 then Bishop
    else if col == 3 then Queen
    else King
  }

  function BackRank(c: PieceColor): Row {
    [Occupied(Piece(Rook, c)), Occupied(Piece(Knight, c)), Occupied(Piece(Bishop, c)),
     Occupied(Piece(Queen, c)), Occupied(Piece(King, c)), Occupied(Piece(Bishop, c)),
     Occupied(Piece(Knight, c)), Occupied(Piece(Rook, c))]
  }

  function PawnRow(c: PieceColor): Row {
    seq(8, _ => Occupied(Piece(Pawn, c)))
  }

  /**
   * `createInitialBoard()`: an empty 8×8 board whose rows 0, 1, 6 and 7 are
   * then overwritten.
   */
  function CreateInitialBoard(): (board: Board)
    ensures forall c: Idx :: board[0][c] == Occupied(Piece(BackRankKind(c), Black))
    ensures forall c: Idx :: board[1][c] == Occupied(Piece(Pawn, Black))
    ensures forall r: Idx, c: Idx :: 2 <= r <= 5 ==> board[r][c] == Empty
    ensures forall c: Idx :: board[6][c] == Occupied(Piece(Pawn, White))
    ensures forall c: Idx :: board[7][c] == Occupied(Piece(BackRankKind(c), White))
  {
    var board: Board := seq(8, _ => EmptyRow);
    board[0 := BackRank(Black)][1 := PawnRow(Black)][6 := PawnRow(White)][7 := BackRank(White)]
  }

  /** The initial position has sixteen pieces of each colour. */
  lemma InitialPieceCount()
    ensures PieceCount(CreateInitialBoard()) == 32
  {
    var b := CreateInitialBoard();
    forall r: Idx | r <= 1 || r >= 6 ensures RowCount(b[r]) == 8 {
      RowCountAll(b[r]);
    }
    forall r: Idx | 2 <= r <= 5 ensures RowCount(b[r]) == 0 {
      RowCountNone(b[r]);
    }
    PieceCountSuffix(b, 0);
  }

  /** How many of the rows `i..7` are filled rows of the initial position (0, 1, 6 and 7). */
  function FilledRowsFrom(i: nat): nat
    decreases 8 - i
  {
    if i >= 8 then 0 else (if i <= 1 || i >= 6 then 1 else 0) + FilledRowsFrom(i + 1)
  }

  /** Rows `i..7` of a board whose filled rows hold 8 pieces and whose others hold none. */
  lemma {:induction false} PieceCountSuffix(b: Board, i: nat)
    requires i <= 8
    requires forall r: Idx :: RowCount(b[r]) == (if r <= 1 || r >= 6 then 8 else 0)
    ensures PieceCount(b[i..]) == 8 * FilledRowsFrom(i)
    decreases 8 - i
  {
    if i < 8 {
      PieceCountSuffix(b, i + 1);
      assert b[i..][1..] == b[i + 1..];
    }
  }

  lemma {:induction false} RowCountAll(r: seq<Square>)
    requires forall i :: 0 <= i < |r| ==> r[i].Occupied?
    ensures RowCount(r) == |r|
  {
    if r != [] {
      RowCountAll(r[1..]);
    }
  }

  lemma {:induction false} RowCountNone(r: seq<Square>)
    requires forall i :: 0 <= i < |r| ==> r[i] == Empty
    ensures RowCount(r) == 0
  {
    if r != [] {
      RowCountNone(r[1..]);
    }
  }

  function Abs(x: int): nat {
    if x < 0 then -x else x
  }

  predicate Holds(s: Square, c: PieceColor) {
    s.Occupied? && s.piece.color == c
  }

  /**
   * `isValidMove(fromRow, fromCol, toRow, toCol)` for the position `board`
   * with `player` to move.
   */
  predicate IsValidMove(board: Board, player: PieceColor, fromRow: Idx, fromCol: Idx, toRow: Idx, toCol: Idx): (valid: bool)
    ensures valid ==> Holds(board[fromRow][fromCol], player) && !Holds(board[toRow][toCol], player)
    ensures valid ==> fromRow != toRow || fromCol != toCol
  {
    var from := board[fromRow][fromCol];
    var target := board[toRow][toCol];
    if !Holds(from, player) then false
    else if Holds(target, from.piece.color) then false
    else
      var rowDiff := Abs(toRow - fromRow);
      var colDiff := Abs(toCol - fromCol);
      match from.piece.kind
      case Pawn =>
        var direction := if from.piece.color == White then -1 else 1;
        var startRow := if from.piece.color == White then 6 else 1;
        if colDiff == 0 then
          (toRow == fromRow + direction && target == Empty) ||
          (fromRow == startRow && toRow == fromRow + 2 * direction && target == Empty)
        else
          colDiff == 1 && toRow == fromRow + direction && target.Occupied?
      case Rook => rowDiff == 0 || colDiff == 0
      case Bishop => rowDiff == colDiff
      case Queen => rowDiff == colDiff || rowDiff == 0 || colDiff == 0
      case King => rowDiff <= 1 && colDiff <= 1
      case Knight => (rowDiff == 2 && colDiff == 1) || (rowDiff == 1 && colDiff == 2)
  }

  /**
   * The guards in front of the per-piece test: a move needs a piece of the
   * player's own on the source and none on the target. Hence no piece can
   * move onto its own square.
   */
  lemma MoveGuards(board: Board, player: PieceColor, fr: Idx, fc: Idx, tr: Idx, tc: Idx)
    ensures !Holds(board[fr][fc], player) ==> !IsValidMove(board, player, fr, fc, tr, tc)
    ensures Holds(board[tr][tc], player) ==> !IsValidMove(board, player, fr, fc, tr, tc)
    ensures !IsValidMove(board, player, fr, fc, fr, fc)
  {
  }

  /** What a rook may do, stated as its geometric move set. */
  lemma RookMoves(board: Board, player: PieceColor, fr: Idx, fc: Idx, tr: Idx, tc: Idx)
    requires board[fr][fc] == Occupied(Piece(Rook, player))
    ensures IsValidMove(board, player, fr, fc, tr, tc) <==>
      !Holds(board[tr][tc], player) && (tr == fr || tc == fc)
  {
  }

  lemma BishopMoves(board: Board, player: PieceColor, fr: Idx, fc: Idx, tr: Idx, tc: Idx)
    requires board[fr][fc] == Occupied(Piece(Bishop, player))
    ensures IsValidMove(board, player, fr, fc, tr, tc) <==>
      !Holds(board[tr][tc], player) && (tr - fr == tc - fc || tr - fr == fc - tc)
  {
  }

  lemma QueenMoves(board: Board, player: PieceColor, fr: Idx, fc: Idx, tr: Idx, tc: Idx)
    requires board[fr][fc] == Occupied(Piece(Queen, player))
    ensures IsValidMove(board, player, fr, fc, tr, tc) <==>
      !Holds(board[tr][tc], player) &&
      (tr == fr || tc == fc || tr - fr == tc - fc || tr - fr == fc - tc)
  {
  }

  /** The eight neighbours of a square. */
  const KingSteps: set<(int, int)> :=
    {(-1, -1), (-1, 0), (-1, 1), (0, -1), (0, 1), (1, -1), (1, 0), (1, 1)}

  const KnightJumps: set<(int, int)> :=
    {(-2, -1), (-2, 1), (-1, -2), (-1, 2), (1, -2), (1, 2), (2, -1), (2, 1)}

  lemma KingMoves(board: Board, player: PieceColor, fr: Idx, fc: Idx, tr: Idx, tc: Idx)
    requires board[fr][fc] == Occupied(Piece(King, player))
    ensures IsValidMove(board, player, fr, fc, tr, tc) <==>
      !Holds(board[tr][tc], player) && (tr - fr, tc - fc) in KingSteps
  {
    var d := (tr - fr, tc - fc);
    if IsValidMove(board, player, fr, fc, tr, tc) {
      assert d != (0, 0);
      assert -1 <= d.0 <= 1 && -1 <= d.1 <= 1;
      assert d.0 == -1 || d.0 == 0 || d.0 == 1;
      assert d.1 == -1 || d.1 == 0 || d.1 == 1;
    }
  }

  lemma KnightMoves(board: Board, player: PieceColor, fr: Idx, fc: Idx, tr: Idx, tc: Idx)
    requires board[fr][fc] == Occupied(Piece(Knight, player))
    ensures IsValidMove(board, player, fr, fc, tr, tc) <==>
      !Holds(board[tr][tc], player) && (tr - fr, tc - fc) in KnightJumps
  {
    var d := (tr - fr, tc - fc);
    if IsValidMove(board, player, fr, fc, tr, tc) {
      assert d.0 == -2 || d.0 == -1 || d.0 == 1 || d.0 == 2;
      assert d.1 == -2 || d.1 == -1 || d.1 == 1 || d.1 == 2;
    }
  }

  /**
   * A pawn steps one square forward onto an empty square, two from its
   * start row onto an empty target, or one diagonally forward onto an
   * opponent's piece.
   */
  lemma PawnMoves(board: Board, player: PieceColor, fr: Idx, fc: Idx, tr: Idx, tc: Idx)
    requires board[fr][fc] == Occupied(Piece(Pawn, player))
    ensures IsValidMove(board, player, fr, fc, tr, tc) <==>
      var forward := if player == White then -1 else 1;
      var start := if player == White then 6 else 1;
      (tc == fc && tr == fr + forward && board[tr][tc] == Empty) ||
      (tc == fc && fr == start && tr == fr + 2 * forward && board[tr][tc] == Empty) ||
      ((tc == fc + 1 || tc == fc - 1) && tr == fr + forward && Holds(board[tr][tc], Opponent(player)))
  {
  }

  /** Nothing blocks a path: a rook passes over a piece between it and its target. */
  lemma RookJumpsOverPieces()
    ensures var board := seq(8, r => if r == 0 then [Occupied(Piece(Rook, White)), Occupied(Piece(Pawn, Black))] + seq(6, _ => Empty) else EmptyRow);
      IsValidMove(board, White, 0, 0, 0, 7)
  {
  }

  /** The two-square pawn advance does not look at the square it passes. */
  lemma PawnJumpsOverPieces()
    ensures var board := seq(8, r => if r == 6 then [Occupied(Piece(Pawn, White))] + seq(7, _ => Empty)
                                     else if r == 5 then [Occupied(Piece(Knight, Black))] + seq(7, _ => Empty)
                                     else EmptyRow);
      IsValidMove(board, White, 6, 0, 4, 0)
  {
  }

  /** The position of a square in row-major order. */
  function Ordinal(sq: (Idx, Idx)): int {
    sq.0 as int * 8 + sq.1 as int
  }

  /**
   * `getPossibleMoves(row, col)`: every square in row-major order for which
   * `isValidMove` holds.
   */
  method GetPossibleMoves(board: Board, player: PieceColor, row: Idx, col: Idx)
    returns (moves: seq<(Idx, Idx)>)
    ensures forall tr: Idx, tc: Idx :: (tr, tc) in moves <==> IsValidMove(board, player, row, col, tr, tc)
    ensures forall k, l :: 0 <= k < l < |moves| ==> Ordinal(moves[k]) < Ordinal(moves[l])
    ensures !Holds(board[row][col], player) ==> moves == []
  {
    moves := [];
    var piece := board[row][col];
    if !Holds(piece, player) {
      return moves;
    }
    for toRow := 0 to 8
      invariant forall tr: Idx, tc: Idx :: (tr, tc) in moves <==> tr < toRow && IsValidMove(board, player, row, col, tr, tc)
      invariant forall k, l :: 0 <= k < l < |moves| ==> Ordinal(moves[k]) < Ordinal(moves[l])
      invariant forall k :: 0 <= k < |moves| ==> Ordinal(moves[k]) < toRow as int * 8
    {
      for toCol := 0 to 8
        invariant forall tr: Idx, tc: Idx :: (tr, tc) in moves <==>
          (tr < toRow || (tr == toRow && tc < toCol)) && IsValidMove(board, player, row, col, tr, tc)
        invariant forall k, l :: 0 <= k < l < |moves| ==> Ordinal(moves[k]) < Ordinal(moves[l])
        invariant forall k :: 0 <= k < |moves| ==> Ordinal(moves[k]) < toRow * 8 + toCol as int
      {
        if IsValidMove(board, player, row, col, toRow, toCol) {
          moves := moves + [(toRow, toCol)];
        }
      }
    }
  }

  /** Number of occupied squares in a row. */
  function RowCount(r: seq<Square>): (n: nat)
    ensures n <= |r|
  {
    if r == [] then 0 else (if r[0].Occupied? then 1 else 0) + RowCount(r[1..])
  }

  /** Number of pieces on the board. */
  function PieceCount(rows: seq<Row>): nat {
    if rows == [] then 0 else RowCount(rows[0]) + PieceCount(rows[1..])
  }

  function Occ(s: Square): nat {
    if s.Occupied? then 1 else 0
  }

  lemma {:induction false} RowCountWrite(r: seq<Square>, c: nat, s: Square)
    requires c < |r|
    ensures RowCount(r[c := s]) == RowCount(r) - Occ(r[c]) + Occ(s)
  {
    if c == 0 {
      assert r[c := s][1..] == r[1..];
    } else {
      assert r[c := s][1..] == r[1..][c - 1 := s];
      RowCountWrite(r[1..], c - 1, s);
    }
  }

  lemma {:induction false} PieceCountWrite(rows: seq<Row>, i: nat, row: Row)
    requires i < |rows|
    ensures PieceCount(rows[i := row]) == PieceCount(rows) - RowCount(rows[i]) + RowCount(row)
  {
    if i == 0 {
      assert rows[i := row][1..] == rows[1..];
    } else {
      assert rows[i := row][1..] == rows[1..][i - 1 := row];
      PieceCountWrite(rows[1..], i - 1, row);
    }
  }

  /** The board with square (r, c) replaced by `s`. */
  function Put(board: Board, r: Idx, c: Idx, s: Square): (b: Board)
    ensures b[r][c] == s
    ensures forall r': Idx, c': Idx :: (r' != r || c' != c) ==> b[r'][c'] == board[r'][c']
    ensures PieceCount(b) == PieceCount(board) - Occ(board[r][c]) + Occ(s)
  {
    var row: Row := board[r][c := s];
    RowCountWrite(board[r], c, s);
    PieceCountWrite(board, r, row);
    board[r := row]
  }

  /**
   * The board after a move: the moving piece on the target, the source
   * empty. A capture removes exactly one piece; otherwise the count stays.
   */
  function MovePiece(board: Board, fr: Idx, fc: Idx, tr: Idx, tc: Idx): (b: Board)
    requires (fr, fc) != (tr, tc) && board[fr][fc].Occupied?
    ensures b[tr][tc] == board[fr][fc] && b[fr][fc] == Empty
    ensures forall r: Idx, c: Idx :: (r, c) != (fr, fc) && (r, c) != (tr, tc) ==> b[r][c] == board[r][c]
    ensures PieceCount(b) == PieceCount(board) - Occ(board[tr][tc])
  {
    Put(Put(board, tr, tc, board[fr][fc]), fr, fc, Empty)
  }

  class Game {
    var gameMode: GameMode
    var board: Board
    var currentPlayer: PieceColor
    var selectedSquare: Option
    var possibleMoves: seq<(Idx, Idx)>
    var gameStarted: bool

    /** A selected square always holds a piece of the player to move. */
    ghost predicate Valid()
      reads this
    {
      selectedSquare.Some? ==> Holds(board[selectedSquare.row][selectedSquare.col], currentPlayer)
    }

    constructor ()
      ensures gameMode == NoMode && currentPlayer == White && selectedSquare == None
      ensures possibleMoves == [] && !gameStarted
      ensures board == CreateInitialBoard()
      ensures Valid()
    {
      gameMode := NoMode;
      board := CreateInitialBoard();
      currentPlayer := White;
      selectedSquare := None;
      possibleMoves := [];
      gameStarted := false;
    }

    /** `startGame(mode)`. */
    method StartGame(mode: GameMode)
      modifies this
      ensures gameMode == mode && currentPlayer == White && selectedSquare == None
      ensures possibleMoves == [] && gameStarted
      ensures board == CreateInitialBoard()
      ensures Valid()
    {
      gameMode := mode;
      board := CreateInitialBoard();
      currentPlayer := White;
      selectedSquare := None;
      possibleMoves := [];
      gameStarted := true;
    }

    /** `resetGame()`: the same position, back to the mode menu. */
    method ResetGame()
      modifies this
      ensures gameMode == NoMode && currentPlayer == White && selectedSquare == None
      ensures possibleMoves == [] && !gameStarted
      ensures board == CreateInitialBoard()
      ensures Valid()
    {
      gameMode := NoMode;
      board := CreateInitialBoard();
      currentPlayer := White;
      selectedSquare := None;
      possibleMoves := [];
      gameStarted := false;
    }

    /** `handleSquareClick(row, col)`. */
    method HandleSquareClick(row: Idx, col: Idx)
      requires Valid()
      modifies this
      ensures Valid()
      ensures gameMode == old(gameMode) && gameStarted == old(gameStarted) && possibleMoves == old(possibleMoves)
      ensures !old(gameStarted) ==>
        board == old(board) && currentPlayer == old(currentPlayer) && selectedSquare == old(selectedSquare)
      ensures old(gameStarted) && old(selectedSquare) == Some(row, col) ==>
        board == old(board) && currentPlayer == old(currentPlayer) && selectedSquare == None
      ensures old(gameStarted) && old(selectedSquare).Some? && old(selectedSquare) != Some(row, col) &&
              IsValidMove(old(board), old(currentPlayer), old(selectedSquare).row, old(selectedSquare).col, row, col) ==>
        board == MovePiece(old(board), old(selectedSquare).row, old(selectedSquare).col, row, col) &&
        currentPlayer == Opponent(old(currentPlayer)) && selectedSquare == None
      ensures old(gameStarted) && old(selectedSquare).Some? && old(selectedSquare) != Some(row, col) &&
              !IsValidMove(old(board), old(currentPlayer), old(selectedSquare).row, old(selectedSquare).col, row, col) ==>
        board == old(board) && currentPlayer == old(currentPlayer) &&
        selectedSquare == (if Holds(board[row][col], currentPlayer) then Some(row, col) else None)
      ensures old(gameStarted) && old(selectedSquare) == None ==>
        board == old(board) && currentPlayer == old(currentPlayer) &&
        selectedSquare == (if Holds(board[row][col], currentPlayer) then Some(row, col) else None)
      ensures PieceCount(board) <= old(PieceCount(board))
    {
      if !gameStarted {
        return;
      }
      if selectedSquare.Some? {
        var fromRow, fromCol := selectedSquare.row, selectedSquare.col;
        if fromRow == row && fromCol == col {
          selectedSquare := None;
        } else if IsValidMove(board, currentPlayer, fromRow, fromCol, row, col) {
          board := MovePiece(board, fromRow, fromCol, row, col);
          currentPlayer := if currentPlayer == White then Black else White;
          selectedSquare := None;
        } else {
          var piece := board[row][col];
          if Holds(piece, currentPlayer) {
            selectedSquare := Some(row, col);
          } else {
            selectedSquare := None;
          }
        }
      } else {
        var piece := board[row][col];
        if Holds(piece, currentPlayer) {
          selectedSquare := Some(row, col);
        }
      }
    }
  }
}
