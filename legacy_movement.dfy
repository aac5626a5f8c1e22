/**
  The older movement system: one step per frame along the arrow keys,
  horizontal presses taking priority, and only onto a tile of the board.
*/
module LegacyMovement {
  import opened Engine
  import Board

  /** The step the older system takes: a pressed horizontal direction cancels the vertical one. */
  function Step(pressed: set<Key>): (d: IVec2)
    ensures d.x == Board.KeyDirection(pressed).x
    ensures d.x != 0 ==> d.y == 0
    ensures d.x == 0 ==> d.y == Board.KeyDirection(pressed).y
    ensures (if d.x < 0 then -d.x else d.x) + (if d.y < 0 then -d.y else d.y) <= 1
  {
    var d := Board.KeyDirection(pressed);
    if d.x != 0 then IVec2(d.x, 0) else d
  }

  /**
    The movement system: compute the direction, drop its vertical part when a
    horizontal key is pressed, and move only if the target is a tile.
  */
  method Movement(position: Board.Position, board: Board.Board, input: Input)
    modifies position
    ensures Add(old(position.vec), Step(input.justPressed)) in board.tiles ==>
      position.vec == Add(old(position.vec), Step(input.justPressed))
    ensures Add(old(position.vec), Step(input.justPressed)) !in board.tiles ==>
      position.vec == old(position.vec)
    // the player stays on the board
    ensures old(position.vec) in board.tiles ==> position.vec in board.tiles
  {
    var direction := Board.KeyDirection(input.justPressed);
    if direction.x != 0 {
      direction := direction.(y := 0);
    }
    var newPosition := Add(position.vec, direction);
    if newPosition in board.tiles {
      position.vec := newPosition;
    }
  }
}
