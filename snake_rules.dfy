/**
 * What both snake components share: grid positions, the wall-and-body
 * collision test, and the shape of a well-formed snake (on the grid, no
 * two segments on one cell, head first).
 */
module SnakeRules {

  datatype Pos = Pos(x: int, y: int)

  predicate OnGrid(p: Pos, size: int) {
    0 <= p.x < size && 0 <= p.y < size
  }

  /** `snakeBody.some(segment => segment.x === head.x && segment.y === head.y)`. */
  function HitsBody(head: Pos, body: seq<Pos>): (r: bool)
    ensures r <==> head in body
  {
    if body == [] then false
    else
      assert body == [body[0]] + body[1..];
      body[0] == head || HitsBody(head, body[1..])
  }

  /**
   * `checkCollision(head, snakeBody)`: the head is off the `size` × `size`
   * grid or on a segment, the tail segment included.
   */
  function CheckCollision(head: Pos, body: seq<Pos>, size: int): (r: bool)
    ensures r <==> !OnGrid(head, size) || head in body
  {
    if head.x < 0 || head.x >= size || head.y < 0 || head.y >= size then true
    else HitsBody(head, body)
  }

  /** A non-empty snake whose segments are all on the grid and pairwise distinct. */
  predicate WellFormed(snake: seq<Pos>, size: int) {
    |snake| >= 1 &&
    (forall i :: 0 <= i < |snake| ==> OnGrid(snake[i], size)) &&
    (forall i, j :: 0 <= i < j < |snake| ==> snake[i] != snake[j])
  }

  /**
   * A step that does not collide keeps the snake well formed, whether it
   * grows (the head prepended) or not (the head prepended, the tail popped).
   */
  lemma StepKeepsWellFormed(snake: seq<Pos>, head: Pos, size: int)
    requires WellFormed(snake, size) && !CheckCollision(head, snake, size)
    ensures WellFormed([head] + snake, size)
    ensures WellFormed(([head] + snake)[..|snake|], size)
  {
    var grown := [head] + snake;
    forall i, j | 0 <= i < j < |grown| ensures grown[i] != grown[j] {
      if i == 0 {
        assert grown[j] == snake[j - 1];
      } else {
        assert grown[i] == snake[i - 1] && grown[j] == snake[j - 1];
      }
    }
  }

  /** The initial snake `[{ x: 10, y: 10 }]`. */
  const StartSnake: seq<Pos> := [Pos(10, 10)]
}
