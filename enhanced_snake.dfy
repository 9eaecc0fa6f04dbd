/**
 * The enhanced snake component (`EnhancedSnakeGame.tsx`): a named
 * direction, food redrawn until it misses the snake, a result dialog and a
 * high score that survives restarts.
 */
module EnhancedSnake {
  import opened SnakeRules

  const BoardSize := 20

  /** `direction`: '' before the first key, else 'UP', 'DOWN', 'LEFT' or 'RIGHT'. */
  datatype Direction = NoDirection | Up | Down | Left | Right

  /** The `opposites` table. */
  function Opposite(d: Direction): Direction {
    match d
    case Up => Down
    case Down => Up
    case Left => Right
    case Right => Left
    case NoDirection => NoDirection
  }

  /** The key table: arrows and w/s/a/d; any other key maps to nothing. */
  function KeyDirection(key: string): Direction {
    if key == "ArrowUp" || key == "w" then Up
    else if key == "ArrowDown" || key == "s" then Down
    else if key == "ArrowLeft" || key == "a" then Left
    else if key == "ArrowRight" || key == "d" then Right
    else NoDirection
  }

  /** The cell one step from `p` in direction `d`. */
  function Neighbour(p: Pos, d: Direction): (q: Pos)
    requires d != NoDirection
    ensures (q.x == p.x && (q.y == p.y - 1 || q.y == p.y + 1)) ||
            (q.y == p.y && (q.x == p.x - 1 || q.x == p.x + 1))
  {
    match d
    case Up => Pos(p.x, p.y - 1)
    case Down => Pos(p.x, p.y + 1)
    case Left => Pos(p.x - 1, p.y)
    case Right => Pos(p.x + 1, p.y)
  }

  /** The opposite direction undoes a step. */
  lemma NeighbourBack(p: Pos, d: Direction)
    requires d != NoDirection
    ensures Neighbour(Neighbour(p, d), Opposite(d)) == p
  {
  }

  /**
   * The direction after a request for `requested`: refused when it is the
   * exact opposite of the current one, taken otherwise.
   */
  function Turn(current: Direction, requested: Direction): (d: Direction)
    ensures d == current || d == requested
    ensures requested != NoDirection && current != NoDirection ==> d != Opposite(current) || requested == current
    ensures d == requested <==> current != Opposite(requested) || current == requested
  {
    if current != Opposite(requested) then requested else current
  }

  /** The first draw that is not in `avoid`: where the redraw loop stops. */
  function FirstFree(avoid: seq<Pos>, draws: seq<Pos>): (r: Pos)
    requires exists i :: 0 <= i < |draws| && draws[i] !in avoid
    ensures r !in avoid
    ensures exists k :: 0 <= k < |draws| && draws[k] == r && forall j :: 0 <= j < k ==> draws[j] in avoid
  {
    if draws[0] !in avoid then draws[0]
    else
      var i :| 0 <= i < |draws| && draws[i] !in avoid;
      assert draws[1..][i - 1] == draws[i];
      var r := FirstFree(avoid, draws[1..]);
      var k :| 0 <= k < |draws[1..]| && draws[1..][k] == r && forall j :: 0 <= j < k ==> draws[1..][j] in avoid;
      assert draws[k + 1] == r;
      assert forall j :: 0 <= j < k + 1 ==> draws[j] in avoid by {
        forall j | 0 <= j < k + 1 ensures draws[j] in avoid {
          if j > 0 {
            assert draws[j] == draws[1..][j - 1];
          }
        }
      }
      r
  }

  /**
   * The do-while loop of `generateFood`: `draws` are the successive random
   * cells, and the loop ends at the first one that no segment of `snake`
   * covers. It stops only if some draw is free.
   */
  method GenerateFood(snake: seq<Pos>, draws: seq<Pos>) returns (newFood: Pos)
    requires exists i :: 0 <= i < |draws| && draws[i] !in snake
    requires forall i :: 0 <= i < |draws| ==> OnGrid(draws[i], BoardSize)
    ensures newFood == FirstFree(snake, draws)
    ensures newFood !in snake && OnGrid(newFood, BoardSize)
  {
    ghost var w :| 0 <= w < |draws| && draws[w] !in snake;
    var i := 0;
    newFood := draws[0];
    while HitsBody(newFood, snake)
      invariant 0 <= i <= w && newFood == draws[i]
      invariant draws[i..][w - i] !in snake
      invariant FirstFree(snake, draws) == FirstFree(snake, draws[i..])
      decreases w - i
    {
      FirstFreeSkip(snake, draws[i..]);
      assert draws[i..][1..] == draws[i + 1..];
      i := i + 1;
      newFood := draws[i];
    }
    assert draws[i..][0] == draws[i];
  }

  /** A draw that hits the snake is skipped. */
  lemma FirstFreeSkip(avoid: seq<Pos>, draws: seq<Pos>)
    requires exists i :: 0 <= i < |draws| && draws[i] !in avoid
    requires draws[0] in avoid
    ensures exists i :: 0 <= i < |draws[1..]| && draws[1..][i] !in avoid
    ensures FirstFree(avoid, draws) == FirstFree(avoid, draws[1..])
  {
    var i :| 0 <= i < |draws| && draws[i] !in avoid;
    assert draws[1..][i - 1] == draws[i];
  }

  /**
   * The cells the food must miss, as written: the snake `generateFood`
   * closes over is the one from before the move, without the new head.
   */
  function FoodAvoidAsWritten(oldSnake: seq<Pos>, newSnake: seq<Pos>): seq<Pos> {
    oldSnake
  }

  /** The cells the food must miss, as intended: the snake after the move. */
  function FoodAvoid(oldSnake: seq<Pos>, newSnake: seq<Pos>): seq<Pos> {
    newSnake
  }

  /**
   * As written, eating the food at (11, 10) while moving right from (10, 10)
   * can put the next food on the new head.
   */
  lemma FoodOnHeadAsWritten()
    ensures var oldSnake := [Pos(10, 10)];
      var head := Neighbour(oldSnake[0], Right);
      var newSnake := [head] + oldSnake;
      var draws := [Pos(11, 10)];
      head == Pos(11, 10) && !CheckCollision(head, oldSnake, BoardSize) &&
      draws[0] !in FoodAvoidAsWritten(oldSnake, newSnake) &&
      FirstFree(FoodAvoidAsWritten(oldSnake, newSnake), draws) in newSnake
  {
    var oldSnake := [Pos(10, 10)];
    assert Pos(11, 10) !in oldSnake;
  }

  /** Drawn against the snake after the move, the food never lands on it. */
  lemma FoodOffSnake(oldSnake: seq<Pos>, newSnake: seq<Pos>, draws: seq<Pos>)
    requires exists i :: 0 <= i < |draws| && draws[i] !in newSnake
    ensures FirstFree(FoodAvoid(oldSnake, newSnake), draws) !in newSnake
  {
  }

  /** A step that does not reach the food keeps the food off the snake. */
  lemma TailKeepsFoodOff(snake: seq<Pos>, head: Pos, food: Pos)
    requires |snake| >= 1 && food !in snake && head != food
    ensures food !in ([head] + snake)[..|snake|]
  {
    var s := ([head] + snake)[..|snake|];
    forall i | 0 <= i < |s| ensures s[i] != food {
      if i > 0 {
        assert s[i] == snake[i - 1];
      }
    }
  }

  class Game {
    var snake: seq<Pos>
    var food: Pos
    var direction: Direction
    var gameRunning: bool
    var score: int
    var highScore: int
    var gameOver: bool
    var showResult: bool

    /** The snake is well formed, the food is off the snake, the scores count in tens. */
    ghost predicate Valid()
      reads this
    {
      WellFormed(snake, BoardSize) && food !in snake &&
      score >= 0 && highScore >= 0 && score % 10 == 0
    }

    constructor ()
      ensures snake == StartSnake && food == Pos(15, 15) && direction == NoDirection
      ensures !gameRunning && score == 0 && highScore == 0 && !gameOver && !showResult
      ensures Valid()
    {
      snake := StartSnake;
      food := Pos(15, 15);
      direction := NoDirection;
      gameRunning := false;
      score := 0;
      highScore := 0;
      gameOver := false;
      showResult := false;
    }

    /**
     * One tick of `moveSnake`. `draws` are the random cells the food
     * generator would try if the food is eaten; only then must one of them
     * be free.
     */
    method MoveSnake(draws: seq<Pos>)
      requires Valid()
      requires forall i :: 0 <= i < |draws| ==> OnGrid(draws[i], BoardSize)
      requires gameRunning && direction != NoDirection ==>
        var head := Neighbour(snake[0], direction);
        !CheckCollision(head, snake, BoardSize) && head == food ==>
        exists i :: 0 <= i < |draws| && draws[i] !in [head] + snake
      modifies this
      ensures Valid()
      ensures direction == old(direction) && highScore >= old(highScore)
      ensures !old(gameRunning) || old(direction) == NoDirection ==>
        snake == old(snake) && food == old(food) && score == old(score) && highScore == old(highScore) &&
        gameRunning == old(gameRunning) && gameOver == old(gameOver) && showResult == old(showResult)
      ensures old(gameRunning) && direction != NoDirection ==>
        var head := Neighbour(old(snake[0]), direction);
        (CheckCollision(head, old(snake), BoardSize) ==>
          snake == old(snake) && food == old(food) && score == old(score) &&
          !gameRunning && gameOver && showResult &&
          highScore == (if old(score) > old(highScore) then old(score) else old(highScore))) &&
        (!CheckCollision(head, old(snake), BoardSize) && head == old(food) ==>
          snake == [head] + old(snake) && score == old(score) + 10 &&
          food == FirstFree(FoodAvoid(old(snake), snake), draws) &&
          gameRunning && highScore == old(highScore) &&
          gameOver == old(gameOver) && showResult == old(showResult)) &&
        (!CheckCollision(head, old(snake), BoardSize) && head != old(food) ==>
          snake == [head] + old(snake)[..|old(snake)| - 1] && |snake| == |old(snake)| &&
          score == old(score) && food == old(food) &&
          gameRunning && highScore == old(highScore) &&
          gameOver == old(gameOver) && showResult == old(showResult))
    {
      if gameRunning && direction != NoDirection {
        var newSnake := snake;
        var head := Neighbour(newSnake[0], direction);
        if CheckCollision(head, newSnake, BoardSize) {
          gameRunning := false;
          gameOver := true;
          showResult := true;
          highScore := if score > highScore then score else highScore;
        } else {
          StepKeepsWellFormed(snake, head, BoardSize);
          newSnake := [head] + newSnake;
          if head == food {
            score := score + 10;
            food := GenerateFood(FoodAvoid(snake, newSnake), draws);
          } else {
            newSnake := newSnake[..|newSnake| - 1];
            TailKeepsFoodOff(snake, head, food);
          }
          snake := newSnake;
        }
      }
    }

    /** The keyboard handler: a mapped key asks for its direction. */
    method KeyPress(key: string)
      modifies this
      ensures old(gameRunning) && KeyDirection(key) != NoDirection ==>
        direction == Turn(old(direction), KeyDirection(key))
      ensures !old(gameRunning) || KeyDirection(key) == NoDirection ==> direction == old(direction)
      ensures snake == old(snake) && food == old(food) && score == old(score) && highScore == old(highScore)
      ensures gameRunning == old(gameRunning) && gameOver == old(gameOver) && showResult == old(showResult)
    {
      if !gameRunning {
        return;
      }
      var newDirection := KeyDirection(key);
      if newDirection != NoDirection {
        if direction != Opposite(newDirection) {
          direction := newDirection;
        }
      }
    }

    /** `handleDirectionClick(newDirection)`: an on-screen arrow button. */
    method DirectionClick(newDirection: Direction)
      requires newDirection != NoDirection
      modifies this
      ensures old(gameRunning) ==> direction == Turn(old(direction), newDirection)
      ensures !old(gameRunning) ==> direction == old(direction)
      ensures snake == old(snake) && food == old(food) && score == old(score) && highScore == old(highScore)
      ensures gameRunning == old(gameRunning) && gameOver == old(gameOver) && showResult == old(showResult)
    {
      if !gameRunning {
        return;
      }
      if direction != Opposite(newDirection) {
        direction := newDirection;
      }
    }

    /** `startGame()`: a fresh snake and food; the high score is kept. */
    method StartGame()
      requires Valid()
      modifies this
      ensures snake == StartSnake && food == Pos(15, 15) && direction == NoDirection
      ensures gameRunning && score == 0 && !gameOver && !showResult
      ensures highScore == old(highScore)
      ensures Valid()
    {
      snake := StartSnake;
      food := Pos(15, 15);
      direction := NoDirection;
      score := 0;
      gameRunning := true;
      gameOver := false;
      showResult := false;
    }
  }
}
