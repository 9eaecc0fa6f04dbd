/**
 * The Sudoku component (`Sudoku.tsx`): the row/column/box validator, the
 * completeness check, the whole-grid validation and the cell-edit handler
 * that protects the puzzle's given cells.
 */
module Sudoku {

  /** A cell: `null` or a number. */
  datatype Entry = Blank | Num(n: int)

  type Idx = i: int | 0 <= i < 9

  type Grid = g: seq<seq<Entry>> | |g| == 9 && forall r :: 0 <= r < 9 ==> |g[r]| == 9
    witness seq(9, _ => seq(9, _ => Blank))

  const BlankGrid: Grid := seq(9, _ => seq(9, _ => Blank))

  /** The one puzzle `generatePuzzle` installs. */
  const Puzzle: Grid := [
    [Num(5), Num(3), Blank, Blank, Num(7), Blank, Blank, Blank, Blank],
    [Num(6), Blank, Blank, Num(1), Num(9), Num(5), Blank, Blank, Blank],
    [Blank, Num(9), Num(8), Blank, Blank, Blank, Blank, Num(6), Blank],
    [Num(8), Blank, Blank, Blank, Num(6), Blank, Blank, Blank, Num(3)],
    [Num(4), Blank, Blank, Num(8), Blank, Num(3), Blank, Blank, Num(1)],
    [Num(7), Blank, Blank, Blank, Num(2), Blank, Blank, Blank, Num(6)],
    [Blank, Num(6), Blank, Blank, Blank, Blank, Num(2), Num(8), Blank],
    [Blank, Blank, Blank, Num(4), Num(1), Num(9), Blank, Blank, Num(5)],
    [Blank, Blank, Blank, Blank, Num(8), Blank, Blank, Num(7), Num(9)]
  ]

  /** Which third of the grid a row or column lies in. */
  function Band(i: Idx): int {
    if i < 3 then 0 else if i < 6 then 1 else 2
  }

  /** Two cells share a row, a column or a 3×3 box. */
  predicate SameUnit(r1: Idx, c1: Idx, r2: Idx, c2: Idx) {
    r1 == r2 || c1 == c2 || (Band(r1) == Band(r2) && Band(c1) == Band(c2))
  }

  /** No cell other than (row, col) in its row, column or box holds `num`. */
  predicate NoConflict(g: Grid, row: Idx, col: Idx, num: int) {
    forall r: Idx, c: Idx :: (r != row || c != col) && SameUnit(r, c, row, col) ==> g[r][c] != Num(num)
  }

  /** Every filled cell is free of conflicts with its own value. */
  predicate GridValid(g: Grid) {
    forall r: Idx, c: Idx :: g[r][c].Num? ==> NoConflict(g, r, c, g[r][c].n)
  }

  predicate Filled(g: Grid) {
    forall r: Idx, c: Idx :: g[r][c] != Blank
  }

  /** Every number in the grid is a digit 1..9. */
  predicate Digits(g: Grid) {
    forall r: Idx, c: Idx :: g[r][c].Num? ==> 1 <= g[r][c].n <= 9
  }

  /** The box loop's `Math.floor(row / 3) * 3` is the first index of the row's band. */
  lemma BoxBounds(a: Idx, b: Idx)
    ensures Band(a) == Band(b) <==> (b / 3) * 3 <= a < (b / 3) * 3 + 3
  {
  }

  /**
   * `isValidNumber(grid, row, col, num)`. Its box loop skips every cell in
   * the same row or the same column as (row, col); those cells were already
   * scanned by the row and column loops, so the result is still exactly
   * "no other cell of the row, column or box holds num".
   */
  method IsValidNumber(g: Grid, row: Idx, col: Idx, num: int) returns (ok: bool)
    ensures ok <==> NoConflict(g, row, col, num)
  {
    for x := 0 to 9
      invariant forall c: Idx :: c < x && c != col ==> g[row][c] != Num(num)
    {
      if x != col && g[row][x] == Num(num) {
        assert SameUnit(row, x, row, col);
        return false;
      }
    }
    for x := 0 to 9
      invariant forall r: Idx :: r < x && r != row ==> g[r][col] != Num(num)
    {
      if x != row && g[x][col] == Num(num) {
        assert SameUnit(x, col, row, col);
        return false;
      }
    }
    var boxRow := (row / 3) * 3;
    var boxCol := (col / 3) * 3;
    for i := 0 to 3
      invariant forall r: Idx, c: Idx ::
        boxRow <= r < boxRow + i && boxCol <= c < boxCol + 3 && r != row && c != col ==>
        g[r][c] != Num(num)
    {
      for j := 0 to 3
        invariant forall r: Idx, c: Idx ::
          boxRow <= r < boxRow + i && boxCol <= c < boxCol + 3 && r != row && c != col ==>
          g[r][c] != Num(num)
        invariant forall r: Idx, c: Idx ::
          r == boxRow + i && boxCol <= c < boxCol + j && r != row && c != col ==>
          g[r][c] != Num(num)
      {
        var currentRow := boxRow + i;
        var currentCol := boxCol + j;
        if currentRow != row && currentCol != col && g[currentRow][currentCol] == Num(num) {
          BoxBounds(currentRow, row);
          BoxBounds(currentCol, col);
          assert SameUnit(currentRow, currentCol, row, col);
          return false;
        }
      }
    }
    forall r: Idx, c: Idx | (r != row || c != col) && SameUnit(r, c, row, col)
      ensures g[r][c] != Num(num)
    {
      BoxBounds(r, row);
      BoxBounds(c, col);
    }
    return true;
  }

  /** `checkComplete(grid)`: no cell is null. */
  method CheckComplete(g: Grid) returns (ok: bool)
    ensures ok <==> Filled(g)
  {
    for i := 0 to 9
      invariant forall r: Idx, c: Idx :: r < i ==> g[r][c] != Blank
    {
      for j := 0 to 9
        invariant forall r: Idx, c: Idx :: r < i ==> g[r][c] != Blank
        invariant forall c: Idx :: c < j ==> g[i][c] != Blank
      {
        if g[i][j] == Blank {
          return false;
        }
      }
    }
    return true;
  }

  /** `validateGrid(grid)`: every filled cell passes `isValidNumber`. */
  method ValidateGrid(g: Grid) returns (ok: bool)
    ensures ok <==> GridValid(g)
  {
    for i := 0 to 9
      invariant forall r: Idx, c: Idx :: r < i && g[r][c].Num? ==> NoConflict(g, r, c, g[r][c].n)
    {
      for j := 0 to 9
        invariant forall r: Idx, c: Idx :: r < i && g[r][c].Num? ==> NoConflict(g, r, c, g[r][c].n)
        invariant forall c: Idx :: c < j && g[i][c].Num? ==> NoConflict(g, i, c, g[i][c].n)
      {
        var num := g[i][j];
        if num != Blank {
          var v := IsValidNumber(g, i, j, num.n);
          if !v {
            return false;
          }
        }
      }
    }
    return true;
  }

  /** `num` occurs in no other column of the row. */
  predicate RowFree(g: Grid, row: Idx, col: Idx, num: int) {
    forall c: Idx :: c != col ==> g[row][c] != Num(num)
  }

  /** `num` occurs in no other row of the column. */
  predicate ColumnFree(g: Grid, row: Idx, col: Idx, num: int) {
    forall r: Idx :: r != row ==> g[r][col] != Num(num)
  }

  /** Cell (i, j) of the 3×3 box holding (row, col). */
  function BoxCell(g: Grid, row: Idx, col: Idx, i: int, j: int): Entry
    requires 0 <= i < 3 && 0 <= j < 3
  {
    g[3 * Band(row) + i][3 * Band(col) + j]
  }

  /** `num` occurs in no other cell of the box. */
  predicate BoxFree(g: Grid, row: Idx, col: Idx, num: int) {
    forall i, j :: 0 <= i < 3 && 0 <= j < 3 && (3 * Band(row) + i != row || 3 * Band(col) + j != col) ==>
      BoxCell(g, row, col, i, j) != Num(num)
  }

  /** A filled cell whose value is unique in its row, its column and its box. */
  predicate UnitsFree(g: Grid, r: Idx, c: Idx) {
    g[r][c].Num? ==>
      RowFree(g, r, c, g[r][c].n) && ColumnFree(g, r, c, g[r][c].n) && BoxFree(g, r, c, g[r][c].n)
  }

  /** Row, column and box together are exactly the cells `SameUnit` relates. */
  lemma UnitsCoverPeers(g: Grid, row: Idx, col: Idx, num: int)
    ensures NoConflict(g, row, col, num) <==>
      RowFree(g, row, col, num) && ColumnFree(g, row, col, num) && BoxFree(g, row, col, num)
  {
    if RowFree(g, row, col, num) && ColumnFree(g, row, col, num) && BoxFree(g, row, col, num) {
      forall r: Idx, c: Idx | (r != row || c != col) && SameUnit(r, c, row, col)
        ensures g[r][c] != Num(num)
      {
        if r != row && c != col {
          assert BoxCell(g, row, col, r - 3 * Band(row), c - 3 * Band(col)) == g[r][c];
        }
      }
    }
    if NoConflict(g, row, col, num) {
      forall i, j | 0 <= i < 3 && 0 <= j < 3 && (3 * Band(row) + i != row || 3 * Band(col) + j != col)
        ensures BoxCell(g, row, col, i, j) != Num(num)
      {
        var r: Idx, c: Idx := 3 * Band(row) + i, 3 * Band(col) + j;
        assert SameUnit(r, c, row, col);
      }
    }
  }

  lemma PuzzleRow0() ensures forall c: Idx :: UnitsFree(Puzzle, 0, c) {}
  lemma PuzzleRow1() ensures forall c: Idx :: UnitsFree(Puzzle, 1, c) {}
  lemma PuzzleRow2() ensures forall c: Idx :: UnitsFree(Puzzle, 2, c) {}
  lemma PuzzleRow3() ensures forall c: Idx :: UnitsFree(Puzzle, 3, c) {}
  lemma PuzzleRow4() ensures forall c: Idx :: UnitsFree(Puzzle, 4, c) {}
  lemma PuzzleRow5() ensures forall c: Idx :: UnitsFree(Puzzle, 5, c) {}
  lemma PuzzleRow6() ensures forall c: Idx :: UnitsFree(Puzzle, 6, c) {}
  lemma PuzzleRow7() ensures forall c: Idx :: UnitsFree(Puzzle, 7, c) {}
  lemma PuzzleRow8() ensures forall c: Idx :: UnitsFree(Puzzle, 8, c) {}

  /** The built-in puzzle passes `validateGrid`. */
  lemma PuzzleIsValid()
    ensures GridValid(Puzzle)
  {
    PuzzleRow0(); PuzzleRow1(); PuzzleRow2(); PuzzleRow3(); PuzzleRow4();
    PuzzleRow5(); PuzzleRow6(); PuzzleRow7(); PuzzleRow8();
    forall r: Idx, c: Idx | Puzzle[r][c].Num?
      ensures NoConflict(Puzzle, r, c, Puzzle[r][c].n)
    {
      assert r == 0 || r == 1 || r == 2 || r == 3 || r == 4 || r == 5 || r == 6 || r == 7 || r == 8;
      assert UnitsFree(Puzzle, r, c);
      UnitsCoverPeers(Puzzle, r, c, Puzzle[r][c].n);
    }
  }

  /** The grid with cell (row, col) replaced by `e`. */
  function Write(g: Grid, row: Idx, col: Idx, e: Entry): (h: Grid)
    ensures h[row][col] == e
    ensures forall r: Idx, c: Idx :: (r != row || c != col) ==> h[r][c] == g[r][c]
  {
    g[row := g[row][col := e]]
  }

  class Game {
    var grid: Grid
    var initialGrid: Grid
    var isComplete: bool
    var isValid: bool

    /**
     * The given cells of the puzzle never change, every number on the board
     * is a digit, and the given cells on their own pass validation.
     */
    ghost predicate Valid()
      reads this
    {
      (forall r: Idx, c: Idx :: initialGrid[r][c] != Blank ==> grid[r][c] == initialGrid[r][c]) &&
      Digits(grid) && Digits(initialGrid) && GridValid(initialGrid)
    }

    /** The initial `useState` values, before the mount effect runs. */
    constructor ()
      ensures grid == BlankGrid && initialGrid == BlankGrid && !isComplete && isValid
      ensures Valid()
    {
      grid := BlankGrid;
      initialGrid := BlankGrid;
      isComplete := false;
      isValid := true;
    }

    /** `generatePuzzle()`, also run once when the component mounts. */
    method GeneratePuzzle()
      modifies this
      ensures grid == Puzzle && initialGrid == Puzzle && !isComplete && isValid
      ensures Valid() && isValid == GridValid(grid)
    {
      PuzzleIsValid();
      grid := Puzzle;
      initialGrid := Puzzle;
      isComplete := false;
      isValid := true;
    }

    /**
     * `handleCellChange(row, col, value)`, with the text input already read
     * as `Blank` (the empty string) or `Num(n)`.
     */
    method HandleCellChange(row: Idx, col: Idx, value: Entry)
      requires Valid()
      modifies this
      ensures Valid() && initialGrid == old(initialGrid)
      ensures old(initialGrid[row][col] != Blank) || (value.Num? && !(1 <= value.n <= 9)) ==>
        grid == old(grid) && isValid == old(isValid) && isComplete == old(isComplete)
      ensures old(initialGrid[row][col] == Blank) && (value.Num? ==> 1 <= value.n <= 9) ==>
        grid == Write(old(grid), row, col, value) &&
        isValid == GridValid(grid) &&
        isComplete == (old(isComplete) || (GridValid(grid) && Filled(grid)))
    {
      if initialGrid[row][col] != Blank {
        return;
      }
      var num := value;
      if num.Num? && (num.n < 1 || num.n > 9) {
        return;
      }
      var newGrid := Write(grid, row, col, num);
      grid := newGrid;

      var valid := ValidateGrid(newGrid);
      isValid := valid;

      if valid {
        var complete := CheckComplete(newGrid);
        if complete {
          isComplete := true;
        }
      }
    }

    /** `resetPuzzle()`: back to the given cells. */
    method ResetPuzzle()
      requires Valid()
      modifies this
      ensures grid == initialGrid && initialGrid == old(initialGrid)
      ensures !isComplete && isValid
      ensures Valid() && isValid == GridValid(grid)
    {
      grid := initialGrid;
      isComplete := false;
      isValid := true;
    }
  }
}
