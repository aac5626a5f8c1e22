/**
  The earlier copy of the four laser scripts, written over the older laser
  `Mode` type. They are the same scripts as the current ones once the mode
  type is renamed, so every property proved of the current tables carries
  over.
*/
module LegacyPhases {
  import opened Phases
  import Modes
  import opened Content

  /** The older laser mode type. */
  datatype Mode = Ready | Charging | Shooting

  function Rename(m: Mode): (r: Modes.LaserMode)
    ensures (m == Ready) == (r == Modes.Ready)
    ensures (m == Charging) == (r == Modes.Charging)
    ensures (m == Shooting) == (r == Modes.Shooting)
  {
    match m
    case Ready => Modes.Ready
    case Charging => Modes.Charging
    case Shooting => Modes.Shooting
  }

  /** A table over the older mode type, read over the current one. */
  function RenameAll(v: seq<Phase<Mode>>): (r: seq<Phase<Modes.LaserMode>>)
    ensures |r| == |v|
  {
    seq(|v|, i requires 0 <= i < |v| => Phase(Rename(v[i].mode), v[i].duration))
  }

  lemma RenameConcat(a: seq<Phase<Mode>>, b: seq<Phase<Mode>>)
    ensures RenameAll(a + b) == RenameAll(a) + RenameAll(b)
  {
    assert forall i :: 0 <= i < |a + b| ==> RenameAll(a + b)[i] == (RenameAll(a) + RenameAll(b))[i];
  }

  /** Renaming keeps every duration, so it keeps every running sum. */
  lemma RenameKeepsSums(v: seq<Phase<Mode>>, base: nat, sums: seq<nat>)
    ensures RunningFrom(RenameAll(v), base, sums) <==> RunningFrom(v, base, sums)
  {
    var r := RenameAll(v);
    assert forall i :: 0 <= i < |v| ==> r[i].duration == v[i].duration;
  }

  lemma {:induction false} RenameKeepsTotal(v: seq<Phase<Mode>>)
    ensures Total(RenameAll(v)) == Total(v)
    decreases |v|
  {
    if v != [] {
      assert RenameAll(v)[1..] == RenameAll(v[1..]);
      RenameKeepsTotal(v[1..]);
    }
  }

  // ---------------------------------------------------------------------
  // The moving laser, in its five commented rounds

  function MovingFirstRound(): seq<Phase<Mode>>
  {
    [ Phase(Charging, 200), Phase(Shooting, 200), Phase(Ready, 800),
      Phase(Charging, 500), Phase(Shooting, 200), Phase(Ready, 800),
      Phase(Charging, 500), Phase(Shooting, 200), Phase(Ready, 1000) ]
  }

  function MovingSecondRound(): seq<Phase<Mode>>
  {
    [ Phase(Charging, 500), Phase(Shooting, 200), Phase(Ready, 800),
      Phase(Charging, 500), Phase(Shooting, 200), Phase(Ready, 800),
      Phase(Charging, 500), Phase(Shooting, 200), Phase(Ready, 1000) ]
  }

  function MovingThirdRound(): seq<Phase<Mode>>
  {
    [ Phase(Charging, 500), Phase(Shooting, 200), Phase(Ready, 300),
      Phase(Charging, 500), Phase(Shooting, 200), Phase(Ready, 300),
      Phase(Charging, 500), Phase(Shooting, 200), Phase(Ready, 1000) ]
  }

  function MovingFourthRound(): seq<Phase<Mode>>
  {
    [ Phase(Charging, 500), Phase(Shooting, 200), Phase(Ready, 300),
      Phase(Charging, 500), Phase(Shooting, 200), Phase(Ready, 300),
      Phase(Charging, 500), Phase(Shooting, 200), Phase(Ready, 1000) ]
  }

  function MovingFifthRound(): seq<Phase<Mode>>
  {
    [ Phase(Charging, 500), Phase(Shooting, 200), Phase(Ready, 0),
      Phase(Charging, 500), Phase(Shooting, 200), Phase(Ready, 0),
      Phase(Charging, 500), Phase(Shooting, 200), Phase(Ready, 0),
      Phase(Charging, 500), Phase(Shooting, 200), Phase(Ready, 0),
      Phase(Charging, 500), Phase(Shooting, 200) ]
  }

  function MovingLaserPhases(): seq<Phase<Mode>>
  {
    MovingFirstRound() + MovingSecondRound() + MovingThirdRound() + MovingFourthRound() + MovingFifthRound()
  }

  function UpperLaserPhases(): seq<Phase<Mode>>
  {
    [ Phase(Ready, 4400),
      Phase(Charging, 500), Phase(Shooting, 200), Phase(Ready, 2300),
      Phase(Charging, 500), Phase(Shooting, 200), Phase(Ready, 4700),
      Phase(Charging, 500), Phase(Shooting, 200), Phase(Ready, 1300),
      Phase(Charging, 500), Phase(Shooting, 4700) ]
  }

  function MiddleLaserPhases(): seq<Phase<Mode>>
  {
    [ Phase(Ready, 4400),
      Phase(Ready, 1500), Phase(Charging, 500), Phase(Shooting, 200), Phase(Ready, 6200),
      Phase(Charging, 500), Phase(Shooting, 200), Phase(Ready, 300),
      Phase(Charging, 500), Phase(Shooting, 200) ]
  }

  function LowerLaserPhases(): seq<Phase<Mode>>
  {
    [ Phase(Ready, 4400),
      Phase(Charging, 500), Phase(Shooting, 200), Phase(Ready, 2300),
      Phase(Charging, 500), Phase(Shooting, 200), Phase(Ready, 4700),
      Phase(Ready, 1000), Phase(Charging, 500), Phase(Shooting, 200), Phase(Ready, 300),
      Phase(Charging, 500), Phase(Shooting, 4700) ]
  }

  // ---------------------------------------------------------------------
  // The older tables are the current ones

  lemma EarlyRoundsRenamed()
    ensures RenameAll(MovingFirstRound()) == FirstRound()
    ensures RenameAll(MovingSecondRound()) == SecondRound()
  {
  }

  lemma MiddleRoundsRenamed()
    ensures RenameAll(MovingThirdRound()) == ThirdRound()
    ensures RenameAll(MovingFourthRound()) == FourthRound()
  {
  }

  lemma FifthRoundRenamed()
    ensures RenameAll(MovingFifthRound()) == FifthRound()
  {
  }

  /** The moving laser table is the mobile laser table. */
  lemma MovingIsMobile()
    ensures RenameAll(MovingLaserPhases()) == MobileLaserPhases()
  {
    var r1, r2, r3, r4, r5 :=
      MovingFirstRound(), MovingSecondRound(), MovingThirdRound(), MovingFourthRound(), MovingFifthRound();
    EarlyRoundsRenamed();
    MiddleRoundsRenamed();
    FifthRoundRenamed();
    RenameConcat(r1 + r2 + r3 + r4, r5);
    RenameConcat(r1 + r2 + r3, r4);
    RenameConcat(r1 + r2, r3);
    RenameConcat(r1, r2);
  }

  lemma FixedLasersRenamed()
    ensures RenameAll(UpperLaserPhases()) == Content.UpperLaserPhases()
    ensures RenameAll(MiddleLaserPhases()) == Content.MiddleLaserPhases()
    ensures RenameAll(LowerLaserPhases()) == Content.LowerLaserPhases()
  {
  }

  /** The comments of the older tables are their running sums, as in the current ones. */
  lemma LegacyComments()
    ensures RunningFrom(MovingLaserPhases(), 0, MobileLaserOffsets)
    ensures RunningFrom(UpperLaserPhases(), 0, UpperLaserOffsets)
    ensures RunningFrom(MiddleLaserPhases(), 0, MiddleLaserOffsets)
    ensures RunningFrom(LowerLaserPhases(), 0, LowerLaserOffsets)
  {
    MovingIsMobile();
    FixedLasersRenamed();
    MobileLaserTable();
    Content.UpperLaserComments();
    Content.MiddleLaserComments();
    Content.LowerLaserComments();
    RenameKeepsSums(MovingLaserPhases(), 0, MobileLaserOffsets);
    RenameKeepsSums(UpperLaserPhases(), 0, UpperLaserOffsets);
    RenameKeepsSums(MiddleLaserPhases(), 0, MiddleLaserOffsets);
    RenameKeepsSums(LowerLaserPhases(), 0, LowerLaserOffsets);
  }

  lemma LegacyTotals()
    ensures Total(MovingLaserPhases()) == 20000
    ensures Total(UpperLaserPhases()) == 20000
    ensures Total(MiddleLaserPhases()) == 14500
    ensures Total(LowerLaserPhases()) == 20000
  {
    MovingIsMobile();
    FixedLasersRenamed();
    Totals();
    RenameKeepsTotal(MovingLaserPhases());
    RenameKeepsTotal(UpperLaserPhases());
    RenameKeepsTotal(MiddleLaserPhases());
    RenameKeepsTotal(LowerLaserPhases());
  }

  /** The zero-length phases of the moving laser table are the Ready phases at 38, 41, 44 and 47. */
  lemma MovingZeroPhases()
    ensures forall i :: 0 <= i < |MovingLaserPhases()| ==>
      (MovingLaserPhases()[i].duration == 0 <==> i == 38 || i == 41 || i == 44 || i == 47)
    ensures forall i :: 0 <= i < |MovingLaserPhases()| && MovingLaserPhases()[i].duration == 0 ==>
      MovingLaserPhases()[i].mode == Ready
  {
    var m := MovingLaserPhases();
    MovingIsMobile();
    MobileZeroPhases();
    forall i | 0 <= i < |m|
      ensures (m[i].duration == 0 <==> i == 38 || i == 41 || i == 44 || i == 47)
      ensures m[i].duration == 0 ==> m[i].mode == Ready
    {
      assert RenameAll(m)[i] == MobileLaserPhases()[i];
    }
  }
}
