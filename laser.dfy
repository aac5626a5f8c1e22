/**
  The lasers: one mobile vertical laser that follows the player's column
  while idle, and three fixed horizontal lasers on the rows 1, 0 and -1.
  Each carries a board timeline (rising into and sinking out of view) and a
  laser timeline (idle, charging, shooting); a shooting laser aligned with
  the player kills it.
*/
module Lasers {
  import opened Engine
  import opened Modes
  import opened Phases
  import opened Content
  import Board
  import Player

  datatype Axis = Horizontal | Vertical

  /** The laser component: the direction of the ray and whether the laser follows the player. */
  datatype Laser = Laser(axis: Axis, mobile: bool)

  /** A laser entity and its components. */
  class LaserEntity {
    const position: Board.Position
    const laser: Laser
    const boardPhases: Phases<BoardMode>
    const laserPhases: Phases<LaserMode>

    /** The spawning helper: the laser starts hidden and idle at `vec`. */
    constructor (vec: IVec2, axis: Axis, mobile: bool)
      ensures fresh(position) && fresh(boardPhases) && fresh(laserPhases)
      ensures position.vec == vec && laser == Laser(axis, mobile)
      ensures boardPhases.vec == [Phase(Hidden, 0)] && boardPhases.start == 0
      ensures laserPhases.vec == [Phase(Ready, 0)] && laserPhases.start == 0
    {
      position := new Board.Position.New(vec);
      laser := Laser(axis, mobile);
      boardPhases := new Phases<BoardMode>.Placeholder(Hidden);
      laserPhases := new Phases<LaserMode>.Placeholder(Ready);
    }
  }

  /** No two lasers share a component. */
  ghost predicate Distinct(ls: seq<LaserEntity>)
  {
    forall i, j :: 0 <= i < j < |ls| ==>
      && ls[i].position != ls[j].position
      && ls[i].boardPhases != ls[j].boardPhases
      && ls[i].laserPhases != ls[j].laserPhases
  }

  /** The positions of the lasers. */
  ghost function Positions(ls: seq<LaserEntity>): set<Board.Position>
  {
    set l | l in ls :: l.position
  }

  /** The board timelines of the lasers. */
  ghost function BoardTimelines(ls: seq<LaserEntity>): set<Phases<BoardMode>>
  {
    set l | l in ls :: l.boardPhases
  }

  /** The laser timelines of the lasers. */
  ghost function LaserTimelines(ls: seq<LaserEntity>): set<Phases<LaserMode>>
  {
    set l | l in ls :: l.laserPhases
  }

  /** Every fixed laser stands on one of the three rows of the board. */
  ghost predicate InLanes(ls: seq<LaserEntity>)
    reads set l | l in ls :: l.position
  {
    forall i :: 0 <= i < |ls| && !ls[i].laser.mobile ==> -1 <= ls[i].position.vec.y <= 1
  }

  /** The startup system: a mobile vertical laser at the centre and fixed horizontal ones on rows 1, 0, -1. */
  method Setup() returns (ls: seq<LaserEntity>)
    ensures |ls| == 4 && Distinct(ls)
    ensures ls[0].position.vec == Zero && ls[0].laser == Laser(Vertical, true)
    ensures ls[1].position.vec == IVec2(0, 1) && ls[1].laser == Laser(Horizontal, false)
    ensures ls[2].position.vec == IVec2(0, 0) && ls[2].laser == Laser(Horizontal, false)
    ensures ls[3].position.vec == IVec2(0, -1) && ls[3].laser == Laser(Horizontal, false)
    ensures forall i :: 0 <= i < 4 ==>
      && fresh(ls[i].position) && fresh(ls[i].boardPhases) && fresh(ls[i].laserPhases)
      && ls[i].boardPhases.vec == [Phase(Hidden, 0)] && ls[i].laserPhases.vec == [Phase(Ready, 0)]
    ensures InLanes(ls)
  {
    var mobile := new LaserEntity(Zero, Vertical, true);
    var upper := new LaserEntity(IVec2(0, 1), Horizontal, false);
    var middle := new LaserEntity(IVec2(0, 0), Horizontal, false);
    var lower := new LaserEntity(IVec2(0, -1), Horizontal, false);
    ls := [mobile, upper, middle, lower];
  }

  /** The board timeline a laser gets on entering Setup: the mobile one rises, the fixed ones stay hidden. */
  function SetupBoardPhases(l: Laser): (r: seq<Phase<BoardMode>>)
    ensures l.mobile ==> r == [Phase(Entering, 1000), Phase(Shown, 0)]
    ensures !l.mobile ==> r == [Phase(Hidden, 0)]
  {
    if l.mobile then [Phase(Entering, 1000), Phase(Shown, 0)] else [Phase(Hidden, 0)]
  }

  /** The idle laser timeline set on entering Setup and Teardown. */
  const IdlePhases: seq<Phase<LaserMode>> := [Phase(Ready, 0)]

  /** The setup hook: the mobile laser goes back to the centre, and every laser gets its setup timelines. */
  method EnterSetup(ls: seq<LaserEntity>)
    requires Distinct(ls)
    modifies Positions(ls), BoardTimelines(ls), LaserTimelines(ls)
    ensures forall i :: 0 <= i < |ls| ==>
      && ls[i].position.vec == (if ls[i].laser.mobile then Zero else old(ls[i].position.vec))
      && ls[i].boardPhases.vec == SetupBoardPhases(ls[i].laser)
      && ls[i].laserPhases.vec == IdlePhases
    // only the mobile laser moves, so the fixed ones stay in their lanes
    ensures old(InLanes(ls)) ==> InLanes(ls)
  {
    for k := 0 to |ls|
      invariant forall i :: 0 <= i < k ==>
        && ls[i].position.vec == (if ls[i].laser.mobile then Zero else old(ls[i].position.vec))
        && ls[i].boardPhases.vec == SetupBoardPhases(ls[i].laser)
        && ls[i].laserPhases.vec == IdlePhases
      invariant forall i :: k <= i < |ls| ==> ls[i].position.vec == old(ls[i].position.vec)
    {
      SetupOne(ls[k]);
    }
  }

  /** The setup hook's body for one laser of the query. */
  method SetupOne(l: LaserEntity)
    modifies l.position, l.boardPhases, l.laserPhases
    ensures l.position.vec == (if l.laser.mobile then Zero else old(l.position.vec))
    ensures l.boardPhases.vec == SetupBoardPhases(l.laser) && l.laserPhases.vec == IdlePhases
  {
    if l.laser.mobile {
      l.position.vec := Zero;
    }
    var vec := if l.laser.mobile then [Phase(Entering, 1000), Phase(Shown, 0)] else [Phase(Hidden, 0)];
    l.boardPhases.Reset(vec);
    l.laserPhases.Reset([Phase(Ready, 0)]);
  }

  /**
    The board script of a laser standing at `vec`; `None` is the unreachable
    arm of the selection. The middle lane gets its table as written.
  */
  function BoardScript(l: Laser, vec: IVec2): (r: Option<seq<Phase<BoardMode>>>)
    ensures r.None? <==> !l.mobile && !(-1 <= vec.y <= 1)
  {
    if l.mobile then Some(MobileLaserBoardPhases())
    else if vec.y == 1 then Some(UpperLaserBoardPhases())
    else if vec.y == 0 then Some(MiddleLaserBoardPhasesAsWritten())
    else if vec.y == -1 then Some(LowerLaserBoardPhases())
    else None
  }

  /** The laser script of a laser standing at `vec`; `None` is the unreachable arm of the selection. */
  function LaserScript(l: Laser, vec: IVec2): (r: Option<seq<Phase<LaserMode>>>)
    ensures r.None? <==> !l.mobile && !(-1 <= vec.y <= 1)
  {
    if l.mobile then Some(MobileLaserPhases())
    else if vec.y == 1 then Some(UpperLaserPhases())
    else if vec.y == 0 then Some(MiddleLaserPhases())
    else if vec.y == -1 then Some(LowerLaserPhases())
    else None
  }

  /** Whatever script pair a laser is given, it fires only while its board script shows it. */
  lemma ScriptsFireInView(l: Laser, vec: IVec2)
    requires l.mobile || -1 <= vec.y <= 1
    ensures BoardScript(l, vec).Some? && LaserScript(l, vec).Some?
    ensures FiringInsideShown(LaserScript(l, vec).value, BoardScript(l, vec).value)
  {
    if l.mobile {
      MobileFiresInView();
    } else if vec.y == 1 {
      UpperFiresInView();
    } else if vec.y == 0 {
      MiddleFiresInViewAsWritten();
    } else {
      LowerFiresInView();
    }
  }

  /**
    The start hook: every laser gets the scripts of its lane. A fixed laser
    off the three rows stops the hook with a panic (`ok` false) after the
    lasers before it were handled.
  */
  method EnterStart(ls: seq<LaserEntity>) returns (ok: bool)
    requires Distinct(ls)
    modifies BoardTimelines(ls), LaserTimelines(ls)
    ensures ok <==> forall i :: 0 <= i < |ls| ==> BoardScript(ls[i].laser, ls[i].position.vec).Some?
    ensures ok ==> forall i :: 0 <= i < |ls| ==>
      && Some(ls[i].boardPhases.vec) == BoardScript(ls[i].laser, ls[i].position.vec)
      && Some(ls[i].laserPhases.vec) == LaserScript(ls[i].laser, ls[i].position.vec)
  {
    for k := 0 to |ls|
      invariant forall i :: 0 <= i < k ==>
        && BoardScript(ls[i].laser, ls[i].position.vec).Some?
        && Some(ls[i].boardPhases.vec) == BoardScript(ls[i].laser, ls[i].position.vec)
        && Some(ls[i].laserPhases.vec) == LaserScript(ls[i].laser, ls[i].position.vec)
    {
      var l := ls[k];
      var board := BoardScript(l.laser, l.position.vec);
      if board.None? {
        return false;
      }
      l.boardPhases.Reset(board.value);
      var laser := LaserScript(l.laser, l.position.vec);
      l.laserPhases.Reset(laser.value);
    }
    return true;
  }

  /** The board timeline of the teardown: sink for one second, then stay hidden. */
  const TeardownBoardPhases: seq<Phase<BoardMode>> := [Phase(Exiting, 1000), Phase(Hidden, 0)]

  /** The teardown hook, run on entering Victory and Teardown. */
  method EnterTeardown(ls: seq<LaserEntity>)
    requires Distinct(ls)
    modifies BoardTimelines(ls), LaserTimelines(ls)
    ensures forall i :: 0 <= i < |ls| ==>
      ls[i].boardPhases.vec == TeardownBoardPhases && ls[i].laserPhases.vec == IdlePhases
  {
    for k := 0 to |ls|
      invariant forall i :: 0 <= i < k ==>
        ls[i].boardPhases.vec == TeardownBoardPhases && ls[i].laserPhases.vec == IdlePhases
    {
      ls[k].boardPhases.Reset([Phase(Exiting, 1000), Phase(Hidden, 0)]);
      ls[k].laserPhases.Reset([Phase(Ready, 0)]);
    }
  }

  /** A laser at `at` covers `target` when its ray runs along the target's row (horizontal) or column (vertical). */
  predicate Aligned(axis: Axis, at: IVec2, target: IVec2)
  {
    match axis
    case Horizontal => at.y == target.y
    case Vertical => at.x == target.x
  }

  /**
    Where a laser at `at` goes when the player stands at `player`: a mobile
    idle laser moves across its ray onto the player's line; any other laser
    stays.
  */
  function Track(l: Laser, mode: LaserMode, at: IVec2, player: IVec2): (r: IVec2)
    ensures l.mobile && mode == Ready ==> Aligned(l.axis, r, player)
    // only the coordinate across the ray changes
    ensures l.axis == Horizontal ==> r.x == at.x
    ensures l.axis == Vertical ==> r.y == at.y
    ensures !(l.mobile && mode == Ready) ==> r == at
    // a laser already on the player's line stays
    ensures Aligned(l.axis, at, player) ==> r == at
  {
    if l.mobile && mode == Ready then
      match l.axis
      case Horizontal => at.(y := player.y)
      case Vertical => at.(x := player.x)
    else at
  }

  /**
    The movement system. `emptyMode` is the laser mode's default value, the
    mode of a laser whose timeline has run out.
  */
  method Movement(ls: seq<LaserEntity>, player: Board.Position, emptyMode: LaserMode)
    requires Distinct(ls)
    requires forall i :: 0 <= i < |ls| ==> ls[i].position != player
    modifies Positions(ls)
    ensures player.vec == old(player.vec)
    ensures forall i :: 0 <= i < |ls| ==>
      ls[i].position.vec == Track(ls[i].laser, ls[i].laserPhases.Mode(emptyMode), old(ls[i].position.vec), player.vec)
    // only the mobile laser moves, so the fixed ones stay in their lanes
    ensures old(InLanes(ls)) ==> InLanes(ls)
  {
    for k := 0 to |ls|
      invariant forall i :: 0 <= i < k ==>
        ls[i].position.vec == Track(ls[i].laser, ls[i].laserPhases.Mode(emptyMode), old(ls[i].position.vec), player.vec)
      invariant forall i :: k <= i < |ls| ==> ls[i].position.vec == old(ls[i].position.vec)
      invariant player.vec == old(player.vec)
    {
      var l := ls[k];
      if l.laser.mobile && l.laserPhases.Mode(emptyMode) == Ready {
        match l.laser.axis
        case Horizontal => l.position.vec := l.position.vec.(y := player.vec.y);
        case Vertical => l.position.vec := l.position.vec.(x := player.vec.x);
      }
    }
  }

  /** The laser hits the player: it is shooting along the player's line. */
  predicate Hits(l: LaserEntity, player: IVec2, emptyMode: LaserMode)
    reads l.position, l.laserPhases
  {
    l.laserPhases.Mode(emptyMode) == Shooting && Aligned(l.laser.axis, l.position.vec, player)
  }

  /** The attack system: any hit kills the player; nothing revives it. */
  method Attack(ls: seq<LaserEntity>, player: Board.Position, health: Player.Health, emptyMode: LaserMode)
    modifies health
    ensures health.dead <==> old(health.dead) || exists i :: 0 <= i < |ls| && Hits(ls[i], player.vec, emptyMode)
  {
    for k := 0 to |ls|
      invariant health.dead <==> old(health.dead) || exists i :: 0 <= i < k && Hits(ls[i], player.vec, emptyMode)
    {
      var l := ls[k];
      var aligned := match l.laser.axis
        case Horizontal => l.position.vec.y == player.vec.y
        case Vertical => l.position.vec.x == player.vec.x;
      if l.laserPhases.Mode(emptyMode) == Shooting && aligned {
        health.dead := true;
      }
    }
  }
}
