/**
  One frame of the game: the update systems of the current state in the
  order the plugins declare them, then the pending state request applied
  together with the on-enter hooks of the state entered. The world keeps an
  invariant from frame to frame: the clock holds the target of the current
  state, the player stays on the board, the fixed lasers stay in their
  lanes, and the player is dead exactly in Defeat (and possibly Teardown).
*/
module Schedule {
  import opened Engine
  import opened Modes
  import opened Phases
  import opened App
  import Board
  import Background
  import Player
  import Lasers

  /** Whether the health flag fits the state: dead in Defeat, alive everywhere before Teardown. */
  predicate HealthFits(s: AppState, dead: bool)
  {
    (s == Defeat ==> dead) && (s in {Splash, Setup, Start, Game, Victory} ==> !dead)
  }

  /** The resources and entities of the game. */
  class World {
    const input: Input
    const state: State<AppState>
    const countdown: Background.Countdown
    const board: Board.Board
    const health: Player.Health
    const player: Player.PlayerEntity
    const lasers: seq<Lasers.LaserEntity>
    /** The default value of the laser mode, reported by an exhausted laser timeline. */
    const emptyMode: LaserMode

    /** The clock holds the target of the current state. */
    ghost predicate Clock()
      reads this, state, countdown, countdown.timer
    {
      countdown.timer.Valid() && countdown.transition == Background.HeldTarget(state.current)
    }

    /** The board is the 3x3 grid, the player stands on it, and the lasers are apart from the player and in their lanes. */
    ghost predicate Placed()
      reads this, board, player.position, player.player, lasers
      reads set l | l in lasers :: l.position
    {
      && board.tiles == Board.Grid()
      && player.position.vec in board.tiles
      && player.player.color < Player.AliveColors
      && Apart()
      && Lasers.InLanes(lasers)
    }

    /** No two lasers share a component, and no laser shares the player's position component. */
    ghost predicate Apart()
    {
      && Lasers.Distinct(lasers)
      && forall i :: 0 <= i < |lasers| ==> lasers[i].position != player.position
    }

    /** The invariant between the systems of a frame, whatever request is pending. */
    ghost predicate Sound()
      reads this, state, countdown, countdown.timer, board, player.position, player.player, lasers
      reads set l | l in lasers :: l.position
    {
      Clock() && Placed()
    }

    /** The invariant between frames. */
    ghost predicate Valid()
      reads this, state, countdown, countdown.timer, board, health, player.position, player.player, lasers
      reads set l | l in lasers :: l.position
    {
      && Sound()
      && state.scheduled == None
      && HealthFits(state.current, health.dead)
    }

    /** The invariant after the update systems: any pending request follows an edge of the cycle and fits the health flag. */
    ghost predicate Pending()
      reads this, state, countdown, countdown.timer, board, health, player.position, player.player, lasers
      reads set l | l in lasers :: l.position
    {
      && Sound()
      && (state.scheduled.None? ==> HealthFits(state.current, health.dead))
      && (state.scheduled.Some? ==>
            && Edge(state.current, state.scheduled.value)
            && (state.scheduled.value == Setup || HealthFits(state.scheduled.value, health.dead)))
    }

    /** The startup systems: an empty input, Splash, an idle clock, the board, the player and the lasers. */
    constructor (emptyMode: LaserMode)
      ensures Valid() && state.current == InitialState
      ensures |lasers| == 4
    {
      input := new Input({});
      state := new State(InitialState);
      countdown := new Background.Countdown();
      var b := new Board.Board();
      b.Setup();
      board := b;
      health := new Player.Health();
      player := new Player.PlayerEntity();
      var ls := Lasers.Setup();
      lasers := ls;
      this.emptyMode := emptyMode;
      new;
      Board.OriginOnGrid();
    }
  }

  /** The laser timelines of all lasers. */
  function LaserQuery(ls: seq<Lasers.LaserEntity>): (r: seq<Phases<LaserMode>>)
    ensures |r| == |ls| && forall i :: 0 <= i < |ls| ==> r[i] == ls[i].laserPhases
  {
    seq(|ls|, i requires 0 <= i < |ls| => ls[i].laserPhases)
  }

  /**
    The update systems of the current state: the countdown plugin and the
    laser timelines first, then the laser and player systems of Start, Game
    and Victory, and the key-driven requests of Splash, Defeat and Victory.
    `ok` is false when a laser timeline update panics.
  */
  method Update(w: World, delta: nat) returns (ok: bool)
    requires w.Valid()
    modifies w.input, w.state, w.countdown.timer, w.health, w.player.position
    modifies Lasers.Positions(w.lasers), Lasers.LaserTimelines(w.lasers)
    ensures w.state.current == old(w.state.current)
    // no laser timeline underflows against the clock reading after the tick
    ensures ok <==> forall i :: 0 <= i < |w.lasers| ==>
      Step(old(w.lasers[i].laserPhases.Value()),
           if Background.Ticks(old(w.state.current))
           then (if old(w.countdown.timer.elapsed) + delta <= old(w.countdown.timer.duration)
                 then old(w.countdown.timer.elapsed) + delta else old(w.countdown.timer.duration))
           else old(w.countdown.timer.elapsed)).Some?
    ensures ok ==> w.Pending()
  {
    ok := UpdateClock(w, delta);
    if !ok {
      return;
    }
    match w.state.current
    case Start => UpdateStart(w);
    case Game => UpdateGame(w);
    case Victory => UpdateVictory(w);
    case Splash => StartOnSpace(w.input, w.state);
    case Defeat => Restart(w.input, w.state);
    case _ =>
  }

  /**
    The countdown plugin and the laser timelines, against the clock reading
    after the tick. The clock can only ask for the successor it holds.
  */
  method UpdateClock(w: World, delta: nat) returns (ok: bool)
    requires w.Valid()
    modifies w.state, w.countdown.timer, Lasers.LaserTimelines(w.lasers)
    ensures w.state.current == old(w.state.current)
    // the clock ticks in the states where the countdown system runs
    ensures w.countdown.timer.duration == old(w.countdown.timer.duration)
    ensures Background.Ticks(w.state.current) ==>
      w.countdown.timer.elapsed ==
        (if old(w.countdown.timer.elapsed) + delta <= w.countdown.timer.duration
         then old(w.countdown.timer.elapsed) + delta else w.countdown.timer.duration)
    ensures !Background.Ticks(w.state.current) ==> w.countdown.timer.elapsed == old(w.countdown.timer.elapsed)
    // every laser timeline is updated against the new reading
    ensures ok <==> forall i :: 0 <= i < |w.lasers| ==>
      Step(old(w.lasers[i].laserPhases.Value()), w.countdown.timer.elapsed).Some?
    ensures ok ==> forall i :: 0 <= i < |w.lasers| ==>
      Step(old(w.lasers[i].laserPhases.Value()), w.countdown.timer.elapsed) == Some(w.lasers[i].laserPhases.Value())
    ensures ok ==> w.Pending()
  {
    Background.OnUpdate(w.countdown, w.state, delta);
    var outcome := TransitionAll(LaserQuery(w.lasers), w.countdown.timer.elapsed);
    ok := outcome == Done;
  }

  /** In Start: leaving the centre asks for Game, and the player moves on the board. */
  method UpdateStart(w: World)
    requires w.Pending() && w.state.current == Start
    modifies w.state, w.player.position
    ensures w.Pending() && w.state.current == Start
  {
    Player.StartTrigger(w.player.position, w.state);
    Player.Movement(w.player.position, w.board, w.input);
  }

  /** In Game: the lasers track the player, the player moves, any hit kills, and a death asks for Defeat over any other request. */
  method UpdateGame(w: World)
    requires w.Pending() && w.state.current == Game
    modifies w.state, w.player.position, w.health, Lasers.Positions(w.lasers)
    ensures w.Clock() && w.Placed() && w.state.current == Game
    ensures w.state.scheduled.None? ==> !w.health.dead
    ensures w.state.scheduled.Some? ==>
      || (w.state.scheduled == Some(AppState.Defeat) && w.health.dead)
      || (w.state.scheduled == Some(Victory) && !w.health.dead)
    ensures w.health.dead ==> w.state.scheduled == Some(AppState.Defeat)
  {
    Lasers.Movement(w.lasers, w.player.position, w.emptyMode);
    Player.Movement(w.player.position, w.board, w.input);
    Lasers.Attack(w.lasers, w.player.position, w.health, w.emptyMode);
    Player.Defeat(w.health, w.state);
  }

  /** In Victory: the player still moves, and the space key asks for Teardown. */
  method UpdateVictory(w: World)
    requires w.Pending() && w.state.current == Victory
    modifies w.input, w.state, w.player.position
    ensures w.Pending() && w.state.current == Victory
  {
    Player.Movement(w.player.position, w.board, w.input);
    Restart(w.input, w.state);
  }

  /**
    The end of the frame: a pending request becomes the current state, and
    the on-enter hooks of the new state run. `draws` are the outcomes of the
    random colour generator.
  */
  method Enter(w: World, draws: seq<nat>)
    requires w.Pending()
    requires forall k :: 0 <= k < |draws| ==> draws[k] < Player.AliveColors
    requires exists k :: 0 <= k < |draws| && draws[k] != w.player.player.color
    modifies w.state, w.countdown, w.countdown.timer, w.health
    modifies w.player.position, w.player.player, w.player.phases
    modifies Lasers.Positions(w.lasers), Lasers.BoardTimelines(w.lasers), Lasers.LaserTimelines(w.lasers)
    ensures w.Valid()
    ensures old(w.state.scheduled).None? ==> w.state.current == old(w.state.current)
    ensures old(w.state.scheduled).Some? ==>
      w.state.current == old(w.state.scheduled).value && Edge(old(w.state.current), w.state.current)
  {
    var previous := w.state.current;
    var pending := w.state.scheduled;
    w.state.Apply();
    if pending.None? {
      return;
    }
    match pending.value
    case Setup => EnterSetup(w, draws);
    case Start => EnterStart(w);
    case Game =>
    case Defeat => EnterDefeat(w);
    case Victory => EnterVictory(w);
    case Teardown => EnterTeardown(w);
  }

  /** Entering Setup: a fifteen-hundred-millisecond clock aimed at Start, a revived recoloured player on the centre, idle lasers. */
  method EnterSetup(w: World, draws: seq<nat>)
    requires w.Placed() && w.countdown.timer.Valid()
    requires w.state.current == Setup && w.state.scheduled == None
    requires forall k :: 0 <= k < |draws| ==> draws[k] < Player.AliveColors
    requires exists k :: 0 <= k < |draws| && draws[k] != w.player.player.color
    modifies w.countdown, w.countdown.timer, w.health
    modifies w.player.position, w.player.player, w.player.phases
    modifies Lasers.Positions(w.lasers), Lasers.BoardTimelines(w.lasers), Lasers.LaserTimelines(w.lasers)
    ensures w.Clock() && w.Placed()
    ensures w.state.scheduled == None && HealthFits(w.state.current, w.health.dead)
  {
    Player.EnterSetup(w.player, w.health, draws);
    Lasers.EnterSetup(w.lasers);
    Background.OnEnter(w.countdown, Setup);
    Board.OriginOnGrid();
  }

  /** Entering Start: the round clock aimed at Victory and the lane scripts; no fixed laser is off its lane, so the hook never panics. */
  method EnterStart(w: World)
    requires w.Placed() && w.countdown.timer.Valid() && !w.health.dead
    requires w.state.current == Start && w.state.scheduled == None
    modifies w.countdown, w.countdown.timer, Lasers.BoardTimelines(w.lasers), Lasers.LaserTimelines(w.lasers)
    ensures w.Clock() && w.Placed()
    ensures w.state.scheduled == None && HealthFits(w.state.current, w.health.dead)
  {
    var ok := Lasers.EnterStart(w.lasers);
    assert ok by {
      forall i | 0 <= i < |w.lasers|
        ensures Lasers.BoardScript(w.lasers[i].laser, w.lasers[i].position.vec).Some?
      {
        assert w.lasers[i].laser.mobile || -1 <= w.lasers[i].position.vec.y <= 1;
      }
    }
    Background.OnEnter(w.countdown, Start);
  }

  /** Entering Defeat: the player turns black; the clock keeps the round's target. */
  method EnterDefeat(w: World)
    requires w.Placed() && w.countdown.timer.Valid() && w.health.dead
    requires w.countdown.transition == Background.HeldTarget(Game)
    requires w.state.current == Defeat && w.state.scheduled == None
    modifies w.player.player
    ensures w.Clock() && w.Placed()
    ensures w.state.scheduled == None && HealthFits(w.state.current, w.health.dead)
  {
    Player.EnterDefeat(w.player);
  }

  /** Entering Victory: a one-second clock with no target, and the lasers sink. */
  method EnterVictory(w: World)
    requires w.Placed() && w.countdown.timer.Valid() && !w.health.dead
    requires w.state.current == Victory && w.state.scheduled == None
    modifies w.countdown, w.countdown.timer, Lasers.BoardTimelines(w.lasers), Lasers.LaserTimelines(w.lasers)
    ensures w.Clock() && w.Placed()
    ensures w.state.scheduled == None && HealthFits(w.state.current, w.health.dead)
  {
    Lasers.EnterTeardown(w.lasers);
    Background.OnEnter(w.countdown, Victory);
  }

  /** Entering Teardown: a fifteen-hundred-millisecond clock aimed at Setup; the player and the lasers sink, and the player's wait is never negative. */
  method EnterTeardown(w: World)
    requires w.Placed() && w.countdown.timer.Valid()
    requires w.state.current == Teardown && w.state.scheduled == None
    modifies w.countdown, w.countdown.timer, w.player.phases, Lasers.BoardTimelines(w.lasers), Lasers.LaserTimelines(w.lasers)
    ensures w.Clock() && w.Placed()
    ensures w.state.scheduled == None && HealthFits(w.state.current, w.health.dead)
  {
    Player.TeardownNeverPanicsOnBoard(w.player.position.vec);
    var ok := Player.EnterTeardown(w.player);
    assert ok;
    Lasers.EnterTeardown(w.lasers);
    Background.OnEnter(w.countdown, Teardown);
  }

  /**
    A whole frame: the update systems, then the state change. Starting from a
    sound world, a frame whose timelines do not underflow ends in a sound
    world, in the same state or one step further along the level cycle.
  */
  method Frame(w: World, delta: nat, draws: seq<nat>) returns (ok: bool)
    requires w.Valid()
    requires forall k :: 0 <= k < |draws| ==> draws[k] < Player.AliveColors
    requires exists k :: 0 <= k < |draws| && draws[k] != w.player.player.color
    modifies w.input, w.state, w.countdown, w.countdown.timer, w.health
    modifies w.player.position, w.player.player, w.player.phases
    modifies Lasers.Positions(w.lasers), Lasers.BoardTimelines(w.lasers), Lasers.LaserTimelines(w.lasers)
    ensures ok ==> w.Valid()
    ensures ok ==> w.state.current == old(w.state.current) || Edge(old(w.state.current), w.state.current)
    // no laser timeline underflows against the clock reading after the tick
    ensures ok <==> forall i :: 0 <= i < |w.lasers| ==>
      Step(old(w.lasers[i].laserPhases.Value()),
           if Background.Ticks(old(w.state.current))
           then (if old(w.countdown.timer.elapsed) + delta <= old(w.countdown.timer.duration)
                 then old(w.countdown.timer.elapsed) + delta else old(w.countdown.timer.duration))
           else old(w.countdown.timer.elapsed)).Some?
  {
    ok := Update(w, delta);
    if ok {
      Enter(w, draws);
    }
  }
}
