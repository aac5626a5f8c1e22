/**
  The older lasers: two horizontal lasers above and below the board that
  follow the player's column every frame.
*/
module LegacyLasers {
  import opened Engine
  import Board

  /** The only axis of the older lasers. */
  datatype Axis = Horizontal

  /** An older laser entity: its position and its axis. */
  class LaserEntity {
    const position: Board.Position
    const movement: Axis

    constructor (x: int, y: int, movement: Axis)
      ensures fresh(position) && position.vec == IVec2(x, y) && this.movement == movement
    {
      position := new Board.Position.FromXy(x, y);
      this.movement := movement;
    }
  }

  /** The startup system: one laser two rows above the centre, one two rows below. */
  method Setup() returns (ls: seq<LaserEntity>)
    ensures |ls| == 2
    ensures ls[0].position.vec == IVec2(0, 2) && ls[1].position.vec == IVec2(0, -2)
    ensures ls[0].movement == Horizontal && ls[1].movement == Horizontal
    ensures fresh(ls[0].position) && fresh(ls[1].position) && ls[0].position != ls[1].position
  {
    var above := new LaserEntity(0, 2, Horizontal);
    var below := new LaserEntity(0, -2, Horizontal);
    ls := [above, below];
  }

  /** The ghost set of the lasers' positions. */
  ghost function Positions(ls: seq<LaserEntity>): set<Board.Position>
  {
    set l | l in ls :: l.position
  }

  /**
    The movement system: every laser moves to the player's column and keeps
    its row; the player's position is only read.
  */
  method LaserMovement(ls: seq<LaserEntity>, player: Board.Position)
    requires forall i :: 0 <= i < |ls| ==> ls[i].position != player
    modifies Positions(ls)
    ensures player.vec == old(player.vec)
    ensures forall i :: 0 <= i < |ls| ==>
      ls[i].position.vec.x == player.vec.x && ls[i].position.vec.y == old(ls[i].position.vec.y)
  {
    for k := 0 to |ls|
      invariant player.vec == old(player.vec)
      invariant forall i :: 0 <= i < k ==> ls[i].position.vec.x == player.vec.x
      invariant forall i :: 0 <= i < |ls| ==> ls[i].position.vec.y == old(ls[i].position.vec.y)
    {
      match ls[k].movement
      case Horizontal => ls[k].position.vec := ls[k].position.vec.(x := player.vec.x);
    }
  }
}
