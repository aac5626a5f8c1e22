/**
  The 3x3 board: the set of tiles the player may stand on, the grid position
  component shared by the player and the lasers, and the mapping of grid
  positions to world coordinates.
*/
module Board {
  import opened Engine

  /** A grid point on the board: both coordinates in -1..1. */
  predicate OnBoard(v: IVec2)
  {
    -1 <= v.x <= 1 && -1 <= v.y <= 1
  }

  /** The tiles of the rows `-1..row-1`, all three columns each. */
  function Rows(row: int): set<IVec2>
  {
    set x: int, y: int | -1 <= x <= 1 && -1 <= y < row && y <= 1 :: IVec2(x, y)
  }

  /** The tiles of row `row` in the columns `-1..col-1`. */
  function RowPrefix(row: int, col: int): set<IVec2>
  {
    set x: int | -1 <= x < col && x <= 1 :: IVec2(x, row)
  }

  /** The whole board. */
  function Grid(): set<IVec2>
  {
    Rows(2)
  }

  /** The board is exactly the nine points with both coordinates in -1..1, the origin among them. */
  lemma GridIsTheBoard()
    ensures forall v :: v in Grid() <==> OnBoard(v)
    ensures Zero in Grid()
    ensures |Grid()| == 9
  {
    assert forall v :: v in Grid() ==> OnBoard(v);
    forall v | OnBoard(v) ensures v in Grid() {
      assert v == IVec2(v.x, v.y);
    }
    var low := {IVec2(-1, -1), IVec2(0, -1), IVec2(1, -1), IVec2(-1, 0)};
    var high := {IVec2(0, 0), IVec2(1, 0), IVec2(-1, 1), IVec2(0, 1), IVec2(1, 1)};
    assert |low| == 4;
    assert |high| == 5;
    assert low !! high;
    forall v | v in Grid() ensures v in low + high {
      assert OnBoard(v);
    }
    assert Grid() == low + high;
  }

  /** The centre tile is on the board. */
  lemma OriginOnGrid()
    ensures Zero in Grid()
  {
    assert Zero == IVec2(0, 0);
  }

  /** The board resource: the set of walkable tiles. */
  class Board {
    var tiles: set<IVec2>

    /** The default board has no tiles. */
    constructor ()
      ensures tiles == {}
    {
      tiles := {};
    }

    /** The startup system: insert the nine tiles, row by row. */
    method Setup()
      modifies this
      ensures tiles == old(tiles) + Grid()
    {
      for i := -1 to 2
        invariant tiles == old(tiles) + Rows(i)
      {
        for j := -1 to 2
          invariant tiles == old(tiles) + Rows(i) + RowPrefix(i, j)
        {
          tiles := tiles + {IVec2(j, i)};
          assert RowPrefix(i, j + 1) == RowPrefix(i, j) + {IVec2(j, i)};
        }
        assert Rows(i + 1) == Rows(i) + RowPrefix(i, 2);
      }
    }
  }

  /** The grid position component. */
  class Position {
    var vec: IVec2

    constructor New(vec: IVec2)
      ensures this.vec == vec
    {
      this.vec := vec;
    }

    constructor FromXy(x: int, y: int)
      ensures vec == IVec2(x, y)
    {
      vec := IVec2(x, y);
    }
  }

  /** The translation of an entity's transform. */
  class Transform {
    var x: real
    var y: real
    var z: real
  }

  /** One entity seen by the world-mapping system: its transform and its grid position. */
  datatype Placed = Placed(transform: Transform, position: Position)

  /**
    The world-mapping system: grid x becomes world x, grid y becomes world
    -z, and the height is left alone.
  */
  method ToWorld(query: seq<Placed>)
    requires forall i, j :: 0 <= i < j < |query| ==> query[i].transform != query[j].transform
    modifies set p | p in query :: p.transform
    ensures forall i :: 0 <= i < |query| ==>
      && query[i].transform.x == query[i].position.vec.x as real
      && query[i].transform.z == - query[i].position.vec.y as real
      && query[i].transform.y == old(query[i].transform.y)
  {
    for k := 0 to |query|
      invariant forall i :: 0 <= i < k ==>
        && query[i].transform.x == query[i].position.vec.x as real
        && query[i].transform.z == - query[i].position.vec.y as real
      invariant forall i :: 0 <= i < |query| ==> query[i].transform.y == old(query[i].transform.y)
    {
      var t := query[k].transform;
      t.x := query[k].position.vec.x as real;
      t.z := - query[k].position.vec.y as real;
    }
  }

  /** The unit step read from the arrow keys pressed this frame: (right - left, up - down). */
  function KeyDirection(pressed: set<Key>): (d: IVec2)
    ensures -1 <= d.x <= 1 && -1 <= d.y <= 1
    ensures d.x == 1 <==> Right in pressed && Left !in pressed
    ensures d.x == -1 <==> Left in pressed && Right !in pressed
    ensures d.y == 1 <==> Up in pressed && Down !in pressed
    ensures d.y == -1 <==> Down in pressed && Up !in pressed
  {
    IVec2((if Right in pressed then 1 else 0) - (if Left in pressed then 1 else 0),
          (if Up in pressed then 1 else 0) - (if Down in pressed then 1 else 0))
  }
}
