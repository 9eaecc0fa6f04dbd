/**
 * The plain snake component (`SnakeGame.tsx`): a 20 × 20 grid, a direction
 * vector, food drawn anywhere on the grid, and a tick that moves, grows or
 * ends the game.
 */
module Snake {
  import opened SnakeRules

  const GridSize := 20

  /** The stopped direction (0, 0) or one of the four unit steps. */
  predicate UnitOrStill(d: Pos) {
    d == Pos(0, 0) || d == Pos(0, -1) || d == Pos(0, 1) || d == Pos(-1, 0) || d == Pos(1, 0)
  }

  function Reverse(d: Pos): Pos {
    Pos(-d.x, -d.y)
  }

  predicate IsArrow(key: string) {
    key == "ArrowUp" || key == "ArrowDown" || key == "ArrowLeft" || key == "ArrowRight"
  }

  /** The unit step each arrow key asks for (y grows downwards). */
  function KeyStep(key: string): Pos
    requires IsArrow(key)
  {
    match key
    case "ArrowUp" => Pos(0, -1)
    case "ArrowDown" => Pos(0, 1)
    case "ArrowLeft" => Pos(-1, 0)
    case "ArrowRight" => Pos(1, 0)
  }

  /**
   * A vertical step is taken only while the snake is not moving vertically,
   * a horizontal one only while it is not moving horizontally.
   */
  predicate Across(direction: Pos, step: Pos) {
    if step.x == 0 then direction.y == 0 else direction.x == 0
  }

  /**
   * The direction after key `key` while the game runs: an arrow turns the
   * snake only across its current axis.
   */
  function Steer(direction: Pos, key: string): (d: Pos)
    ensures IsArrow(key) && Across(direction, KeyStep(key)) ==> d == KeyStep(key)
    ensures IsArrow(key) && !Across(direction, KeyStep(key)) ==> d == direction
    ensures !IsArrow(key) ==> d == direction
    ensures d == direction || d.x * direction.x + d.y * direction.y == 0
    ensures UnitOrStill(direction) && direction != Pos(0, 0) ==> d != Reverse(direction)
    ensures UnitOrStill(direction) ==> UnitOrStill(d)
  {
    if key == "ArrowUp" then (if direction.y == 0 then Pos(0, -1) else direction)
    else if key == "ArrowDown" then (if direction.y == 0 then Pos(0, 1) else direction)
    else if key == "ArrowLeft" then (if direction.x == 0 then Pos(-1, 0) else direction)
    else if key == "ArrowRight" then (if direction.x == 0 then Pos(1, 0) else direction)
    else direction
  }

  class Game {
    var snake: seq<Pos>
    var food: Pos
    var direction: Pos
    var gameRunning: bool
    var score: int
    var gameOver: bool

    ghost predicate Valid()
      reads this
    {
      WellFormed(snake, GridSize) && UnitOrStill(direction) && score >= 0 && score % 10 == 0
    }

    constructor ()
      ensures snake == StartSnake && food == Pos(5, 5) && direction == Pos(0, 0)
      ensures !gameRunning && score == 0 && !gameOver
      ensures Valid()
    {
      snake := StartSnake;
      food := Pos(5, 5);
      direction := Pos(0, 0);
      gameRunning := false;
      score := 0;
      gameOver := false;
    }

    /**
     * One tick of `moveSnake`; `newFood` is the cell `generateFood` would
     * draw, a uniformly random cell of the grid.
     */
    method MoveSnake(newFood: Pos)
      requires Valid() && OnGrid(newFood, GridSize)
      modifies this
      ensures Valid()
      ensures direction == old(direction)
      ensures !old(gameRunning) ==>
        snake == old(snake) && food == old(food) && score == old(score) &&
        gameOver == old(gameOver) && !gameRunning
      ensures old(gameRunning) ==>
        var head := Pos(old(snake[0].x + direction.x), old(snake[0].y + direction.y));
        (CheckCollision(head, old(snake), GridSize) ==>
          snake == old(snake) && gameOver && !gameRunning &&
          score == old(score) && food == old(food)) &&
        (!CheckCollision(head, old(snake), GridSize) && head == old(food) ==>
          snake == [head] + old(snake) && score == old(score) + 10 && food == newFood &&
          gameRunning && gameOver == old(gameOver)) &&
        (!CheckCollision(head, old(snake), GridSize) && head != old(food) ==>
          snake == [head] + old(snake)[..|old(snake)| - 1] && |snake| == |old(snake)| &&
          score == old(score) && food == old(food) &&
          gameRunning && gameOver == old(gameOver))
    {
      if !gameRunning {
        return;
      }
      var newSnake := snake;
      var head := Pos(newSnake[0].x + direction.x, newSnake[0].y + direction.y);
      if CheckCollision(head, newSnake, GridSize) {
        gameOver := true;
        gameRunning := false;
        return;
      }
      StepKeepsWellFormed(snake, head, GridSize);
      newSnake := [head] + newSnake;
      if head == food {
        score := score + 10;
        food := newFood;
      } else {
        newSnake := newSnake[..|newSnake| - 1];
      }
      snake := newSnake;
    }

    /** The keyboard handler: ignored unless the game runs. */
    method KeyPress(key: string)
      requires Valid()
      modifies this
      ensures Valid()
      ensures old(gameRunning) ==> direction == Steer(old(direction), key)
      ensures !old(gameRunning) ==> direction == old(direction)
      ensures old(direction) != Pos(0, 0) ==> direction != Reverse(old(direction))
      ensures snake == old(snake) && food == old(food) && score == old(score)
      ensures gameRunning == old(gameRunning) && gameOver == old(gameOver)
    {
      if gameRunning {
        direction := Steer(direction, key);
      }
    }

    /** `startGame()` with `newFood` the cell `generateFood` draws. */
    method StartGame(newFood: Pos)
      requires OnGrid(newFood, GridSize)
      modifies this
      ensures snake == StartSnake && food == newFood && direction == Pos(1, 0)
      ensures gameRunning && score == 0 && !gameOver
      ensures Valid()
    {
      snake := StartSnake;
      food := newFood;
      direction := Pos(1, 0);
      gameRunning := true;
      score := 0;
      gameOver := false;
    }
  }
}
