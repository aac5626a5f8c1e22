/**
  The player: a cube on the board that moves one tile per key press, starts
  the round by leaving the centre, gets a fresh colour every round and sinks
  off the board in a diagonal wave at teardown.
*/
module Player {
  import opened Engine
  import opened Modes
  import opened Phases
  import opened App
  import Board

  /** The number of colours a living player can take. */
  const AliveColors := 5

  /** The health resource: set by a laser hit, cleared on setup. */
  class Health {
    var dead: bool

    constructor ()
      ensures !dead
    {
      dead := false;
    }
  }

  /** The colour the player's model is drawn with. */
  datatype Look = Alive(index: nat) | Dead

  /** The player component: the colour index of the round and the look of the model. */
  class Player {
    var color: nat
    var look: Look

    constructor ()
      ensures color == 0 && look == Alive(0)
    {
      color := 0;
      look := Alive(0);
    }
  }

  /** The player's root entity and its components. */
  class PlayerEntity {
    const position: Board.Position
    const player: Player
    const phases: Phases<BoardMode>

    /** The startup system: the player waits hidden on the centre tile. */
    constructor ()
      ensures fresh(position) && fresh(player) && fresh(phases)
      ensures position.vec == Zero
      ensures player.color == 0 && player.look == Alive(0)
      ensures phases.vec == [Phase(Hidden, 0)] && phases.start == 0
    {
      position := new Board.Position.FromXy(0, 0);
      player := new Player();
      phases := new Phases<BoardMode>.Placeholder(Hidden);
    }
  }

  /** The timeline the player follows on entering Setup: wait 0.4 s, rise for 1 s, stay. */
  const SetupPhases: seq<Phase<BoardMode>> := [Phase(Waiting, 400), Phase(Entering, 1000), Phase(Shown, 0)]

  /**
    The setup hook. `draws` are the successive outcomes of the random colour
    generator; the loop draws until the colour differs from the last round's.
  */
  method EnterSetup(e: PlayerEntity, health: Health, draws: seq<nat>)
    requires e.player.color < AliveColors
    requires forall k :: 0 <= k < |draws| ==> draws[k] < AliveColors
    requires exists k :: 0 <= k < |draws| && draws[k] != e.player.color
    modifies e.position, e.player, e.phases, health
    ensures e.position.vec == Zero
    ensures e.phases.vec == SetupPhases
    ensures !health.dead
    // the model is painted with the colour chosen in the previous round
    ensures e.player.look == Alive(old(e.player.color))
    // the new colour is the first draw that differs from the old one
    ensures e.player.color < AliveColors && e.player.color != old(e.player.color)
    ensures exists k :: (0 <= k < |draws| && e.player.color == draws[k] &&
      forall m :: 0 <= m < k ==> draws[m] == old(e.player.color))
  {
    e.position.vec := Zero;
    e.phases.Reset(SetupPhases);
    e.player.look := Alive(e.player.color);
    var previous := e.player.color;
    var color := previous;
    var k := 0;
    while color == previous
      invariant 0 <= k <= |draws|
      invariant forall m :: 0 <= m < k - 1 ==> draws[m] == previous
      invariant k > 0 ==> color == draws[k - 1]
      invariant color == previous ==> exists w :: k <= w < |draws| && draws[w] != previous
      invariant color != previous ==> k > 0
      decreases |draws| - k
    {
      color := draws[k];
      k := k + 1;
    }
    assert draws[k - 1] == color;
    e.player.color := color;
    health.dead := false;
  }

  /** The defeat hook: the model turns black. */
  method EnterDefeat(e: PlayerEntity)
    modifies e.player
    ensures e.player.look == Dead && e.player.color == old(e.player.color)
  {
    e.player.look := Dead;
  }

  /** The wait before the teardown sink of a player at `v`, in milliseconds: 0.1 s plus 0.05 s per unit of x - y. */
  function TeardownWait(v: IVec2): (w: int)
    // on the board the wait lies between 0 and 0.2 s
    ensures Board.OnBoard(v) ==> 0 <= w <= 200
  {
    100 + 50 * (v.x - v.y)
  }

  /** The sink of the board's players runs as a diagonal wave: one tile right or down starts 0.05 s later. */
  lemma TeardownWave(v: IVec2)
    ensures TeardownWait(IVec2(v.x + 1, v.y)) == TeardownWait(v) + 50
    ensures TeardownWait(IVec2(v.x, v.y - 1)) == TeardownWait(v) + 50
  {
  }

  /**
    The teardown hook. A negative wait would make the conversion of seconds
    into a duration panic; `ok` is false in that case and nothing changes.
  */
  method EnterTeardown(e: PlayerEntity) returns (ok: bool)
    modifies e.phases
    ensures ok <==> TeardownWait(e.position.vec) >= 0
    ensures ok ==>
      e.phases.vec == [Phase(Waiting, TeardownWait(e.position.vec) as nat), Phase(Exiting, 1000), Phase(Hidden, 0)]
    ensures !ok ==> e.phases.Value() == old(e.phases.Value())
  {
    var offset := e.position.vec.x - e.position.vec.y;
    var wait := 100 + 50 * offset;
    if wait < 0 {
      return false;
    }
    e.phases.Reset([Phase(Waiting, wait), Phase(Exiting, 1000), Phase(Hidden, 0)]);
    return true;
  }

  /** A player standing on the board never makes the teardown hook panic. */
  lemma TeardownNeverPanicsOnBoard(v: IVec2)
    requires v in Board.Grid()
    ensures TeardownWait(v) >= 0
  {
    Board.GridIsTheBoard();
  }

  /**
    The movement system of the current player: the step is read from the
    arrow keys, diagonals included; no step, no move; otherwise the player
    moves exactly when the target is a tile.
  */
  method Movement(position: Board.Position, board: Board.Board, input: Input)
    modifies position
    ensures Board.KeyDirection(input.justPressed) == Zero ==> position.vec == old(position.vec)
    ensures Board.KeyDirection(input.justPressed) != Zero ==>
      var target := Add(old(position.vec), Board.KeyDirection(input.justPressed));
      && (target in board.tiles ==> position.vec == target)
      && (target !in board.tiles ==> position.vec == old(position.vec))
    // the player stays on the board
    ensures old(position.vec) in board.tiles ==> position.vec in board.tiles
  {
    var direction := Board.KeyDirection(input.justPressed);
    if direction == Zero {
      return;
    }
    var newPosition := Add(position.vec, direction);
    if newPosition in board.tiles {
      position.vec := newPosition;
    }
  }

  /** Leaving the centre tile during Start starts the game. */
  method StartTrigger(position: Board.Position, state: State<AppState>)
    modifies state
    ensures state.current == old(state.current)
    ensures position.vec != Zero ==> state.scheduled == Some(Game)
    ensures position.vec == Zero ==> state.scheduled == old(state.scheduled)
  {
    if position.vec != Zero {
      state.OverwriteSet(Game);
    }
  }

  /** A hit player loses the game. */
  method Defeat(health: Health, state: State<AppState>)
    modifies state
    ensures state.current == old(state.current)
    ensures health.dead ==> state.scheduled == Some(AppState.Defeat)
    ensures !health.dead ==> state.scheduled == old(state.scheduled)
  {
    if health.dead {
      state.OverwriteSet(AppState.Defeat);
    }
  }
}
