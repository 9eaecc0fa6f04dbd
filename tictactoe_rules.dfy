/**
 * Rules shared by both tic-tac-toe components: the board, the eight winning
 * triples, the winner/tie detector and the list of free cells the computer
 * player draws from. Both components contain the same `checkWinner`; it is
 * defined once here.
 */
module TicTacToeRules {

  datatype Mark = X | O

  /** One square of the board: `null` or a player's mark. */
  datatype Cell = Empty | Marked(mark: Mark)

  /** What `checkWinner` returns: a player, 'tie', or null. */
  datatype Outcome = NoResult | Win(mark: Mark) | Tie

  type Index = i: nat | i < 9

  type Board = b: seq<Cell> | |b| == 9
    witness [Empty, Empty, Empty, Empty, Empty, Empty, Empty, Empty, Empty]

  type Triple = (Index, Index, Index)

  const EmptyBoard: Board := [Empty, Empty, Empty, Empty, Empty, Empty, Empty, Empty, Empty]

  /** Rows, columns and diagonals, in the order the detector scans them. */
  const WinningCombinations: seq<Triple> :=
    [(0, 1, 2), (3, 4, 5), (6, 7, 8),
     (0, 3, 6), (1, 4, 7), (2, 5, 8),
     (0, 4, 8), (2, 4, 6)]

  function Other(m: Mark): Mark {
    if m == X then O else X
  }

  /** The triple's three squares hold the same non-null mark. */
  predicate Matches(b: Board, t: Triple) {
    b[t.0].Marked? && b[t.0] == b[t.1] && b[t.0] == b[t.2]
  }

  /** Mark `m` occupies all three squares of some winning triple. */
  predicate HasLine(b: Board, m: Mark) {
    exists k :: 0 <= k < |WinningCombinations| && LineOf(b, WinningCombinations[k], m)
  }

  predicate LineOf(b: Board, t: Triple, m: Mark) {
    b[t.0] == Marked(m) && b[t.1] == Marked(m) && b[t.2] == Marked(m)
  }

  predicate Full(b: Board) {
    forall i :: 0 <= i < 9 ==> b[i] != Empty
  }

  /** No winning triple at position `from` or later is matched. */
  predicate NoMatchFrom(b: Board, from: nat) {
    forall k :: from <= k < |WinningCombinations| ==> !Matches(b, WinningCombinations[k])
  }

  /**
   * The `for (const combo of winningCombinations)` loop with its early
   * return, continued from triple `k`; after the last triple, the tie test.
   */
  function ScanFrom(b: Board, k: nat): (r: Outcome)
    requires k <= |WinningCombinations|
    decreases |WinningCombinations| - k
    ensures r.Win? ==>
      exists j :: k <= j < |WinningCombinations| && LineOf(b, WinningCombinations[j], r.mark)
    ensures r.Win? <==> !NoMatchFrom(b, k)
    ensures r == Tie <==> NoMatchFrom(b, k) && Full(b)
    ensures r == NoResult <==> NoMatchFrom(b, k) && !Full(b)
  {
    if k == |WinningCombinations| then
      if Full(b) then Tie else NoResult
    else
      var t := WinningCombinations[k];
      if Matches(b, t) then Win(b[t.0].mark) else ScanFrom(b, k + 1)
  }

  /** `checkWinner(squares)`. */
  function CheckWinner(b: Board): (r: Outcome)
    ensures r.Win? ==> HasLine(b, r.mark)
    ensures r.Win? <==> (HasLine(b, X) || HasLine(b, O))
    ensures r == Tie <==> !HasLine(b, X) && !HasLine(b, O) && Full(b)
    ensures r == NoResult <==> !HasLine(b, X) && !HasLine(b, O) && !Full(b)
  {
    var r := ScanFrom(b, 0);
    assert NoMatchFrom(b, 0) <==> !HasLine(b, X) && !HasLine(b, O) by {
      if !NoMatchFrom(b, 0) {
        var k :| 0 <= k < |WinningCombinations| && Matches(b, WinningCombinations[k]);
        var m := b[WinningCombinations[k].0].mark;
        assert LineOf(b, WinningCombinations[k], m);
        assert HasLine(b, m);
        assert m == X || m == O;
      }
      forall m | HasLine(b, m) ensures !NoMatchFrom(b, 0) {
        var k :| 0 <= k < |WinningCombinations| && LineOf(b, WinningCombinations[k], m);
        assert Matches(b, WinningCombinations[k]);
      }
    }
    r
  }

  /**
   * The first matching triple decides: a board on which the triples of both
   * players match is reported for the player owning the earlier triple.
   */
  lemma {:induction false} FirstMatchWins(b: Board, k: nat)
    requires k < |WinningCombinations|
    requires Matches(b, WinningCombinations[k])
    requires forall j :: 0 <= j < k ==> !Matches(b, WinningCombinations[j])
    ensures CheckWinner(b) == Win(b[WinningCombinations[k].0].mark)
  {
    ScanPrefix(b, 0, k);
  }

  lemma {:induction false} ScanPrefix(b: Board, i: nat, k: nat)
    requires i <= k < |WinningCombinations|
    requires Matches(b, WinningCombinations[k])
    requires forall j :: i <= j < k ==> !Matches(b, WinningCombinations[j])
    ensures ScanFrom(b, i) == Win(b[WinningCombinations[k].0].mark)
    decreases k - i
  {
    if i < k {
      ScanPrefix(b, i + 1, k);
    }
  }

  /** Number of squares holding mark `m`. */
  function Count(s: seq<Cell>, m: Mark): (n: nat)
    ensures n <= |s|
  {
    if s == [] then 0 else (if s[0] == Marked(m) then 1 else 0) + Count(s[1..], m)
  }

  /** Writing a mark into a free square adds one to that mark's count only. */
  lemma {:induction false} CountWrite(s: seq<Cell>, i: nat, m: Mark, n: Mark)
    requires i < |s| && s[i] == Empty
    ensures Count(s[i := Marked(m)], n) == Count(s, n) + (if m == n then 1 else 0)
  {
    if i > 0 {
      assert s[i := Marked(m)][1..] == s[1..][i - 1 := Marked(m)];
      CountWrite(s[1..], i - 1, m, n);
    }
    else {
      assert s[i := Marked(m)][1..] == s[1..];
    }
  }

  lemma {:induction false} CountEmptyBoard(s: seq<Cell>, m: Mark)
    requires forall i :: 0 <= i < |s| ==> s[i] == Empty
    ensures Count(s, m) == 0
  {
    if s != [] {
      CountEmptyBoard(s[1..], m);
    }
  }

  /**
   * The indices of the null squares from `i` on, in increasing order: the
   * `map`/`filter` that builds `availableMoves`.
   */
  function FreeFrom(b: Board, i: nat): (r: seq<Index>)
    requires i <= 9
    decreases 9 - i
    ensures forall k :: 0 <= k < |r| ==> i <= r[k] && b[r[k]] == Empty
    ensures forall k, l :: 0 <= k < l < |r| ==> r[k] < r[l]
    ensures r == [] <==> forall j :: i <= j < 9 ==> b[j] != Empty
  {
    if i == 9 then []
    else if b[i] == Empty then [i as Index] + FreeFrom(b, i + 1)
    else FreeFrom(b, i + 1)
  }

  /** Every null square from `i` on is listed. */
  lemma {:induction false} FreeFromComplete(b: Board, i: nat, j: Index)
    requires i <= j && b[j] == Empty
    ensures j in FreeFrom(b, i)
    decreases j - i
  {
    if i < j {
      FreeFromComplete(b, i + 1, j);
    }
  }

  /** `availableMoves`: exactly the null squares, in increasing order. */
  function FreeCells(b: Board): (r: seq<Index>)
    ensures forall k :: 0 <= k < |r| ==> b[r[k]] == Empty
    ensures forall k, l :: 0 <= k < l < |r| ==> r[k] < r[l]
    ensures r == [] <==> Full(b)
  {
    FreeFrom(b, 0)
  }

  lemma FreeCellsComplete(b: Board, j: Index)
    requires b[j] == Empty
    ensures j in FreeCells(b)
  {
    FreeFromComplete(b, 0, j);
  }

  /**
   * The computer's random reply: an 'O' in the free square `FreeCells(b)[pick]`,
   * where `pick` stands for `Math.floor(Math.random() * availableMoves.length)`;
   * a full board is returned as it is.
   */
  function ComputerMove(b: Board, pick: nat): (r: Board)
    requires Full(b) || pick < |FreeCells(b)|
    ensures Full(b) ==> r == b
    ensures !Full(b) ==> exists i: Index :: b[i] == Empty && r == b[i := Marked(O)]
    ensures !Full(b) ==> Count(r, O) == Count(b, O) + 1 && Count(r, X) == Count(b, X)
  {
    var availableMoves := FreeCells(b);
    if |availableMoves| == 0 then b
    else
      var randomMove := availableMoves[pick];
      CountWrite(b, randomMove, O, X);
      CountWrite(b, randomMove, O, O);
      b[randomMove := Marked(O)]
  }
}
