/**
  The level script: for each of the four lasers (the mobile one and the fixed
  upper, middle and lower ones) a board timeline, saying when the laser is in
  view, and a laser timeline, saying when it charges and shoots. Durations
  are milliseconds. Each literal phase of the game's content.rs carries a
  comment with the clock time at which it ends; the `...Offsets` constants below are
  those comments, and the lemmas prove that they are the running sums.
*/
module Content {
  import opened Phases
  import opened Modes

  /** Clock time at which phase `i` begins, given the end times `sums` and the table start `base`. */
  function Begin(sums: seq<nat>, base: nat, i: nat): nat
    requires i <= |sums|
  {
    if i == 0 then base else sums[i - 1]
  }

  /** `sums[i]` is the clock time at which phase `i` of `vec`, started at `base`, ends. */
  predicate RunningFrom<T>(vec: seq<Phase<T>>, base: nat, sums: seq<nat>)
  {
    |sums| == |vec| &&
    forall i {:trigger vec[i]} :: 0 <= i < |vec| ==> sums[i] == Begin(sums, base, i) + vec[i].duration
  }

  /** Every Shooting phase comes straight after a Charging phase. */
  ghost predicate ShotsCharged(vec: seq<Phase<LaserMode>>)
  {
    && (0 < |vec| ==> vec[0].mode != Shooting)
    && forall i, j :: 0 <= i < j < |vec| && j == i + 1 && vec[j].mode == Shooting ==> vec[i].mode == Charging
  }

  /** Every Entering phase is followed by Shown, and every Shown phase by Exiting. */
  ghost predicate BoardOrdered(vec: seq<Phase<BoardMode>>)
  {
    && (0 < |vec| ==> vec[|vec| - 1].mode != Entering && vec[|vec| - 1].mode != Shown)
    && forall i, j :: 0 <= i < j < |vec| && j == i + 1 ==>
      && (vec[i].mode == Entering ==> vec[j].mode == Shown)
      && (vec[i].mode == Shown ==> vec[j].mode == Exiting)
  }

  predicate NoZeroDurations<T>(vec: seq<Phase<T>>)
  {
    forall i :: 0 <= i < |vec| ==> vec[i].duration > 0
  }

  /**
    Every Charging or Shooting phase of `laser` lies, on the clock, inside one
    Shown phase of `board`: the laser fires only while it is in view.
  */
  predicate FiringInsideShown(laser: seq<Phase<LaserMode>>, board: seq<Phase<BoardMode>>)
  {
    forall i :: 0 <= i < |laser| && Firing(laser[i].mode) ==>
      exists j :: 0 <= j < |board| && board[j].mode == Shown &&
        Total(board[..j]) <= Total(laser[..i]) && Total(laser[..i + 1]) <= Total(board[..j + 1])
  }

  // ---------------------------------------------------------------------
  // Facts about running sums

  lemma RunningConcat<T>(a: seq<Phase<T>>, b: seq<Phase<T>>, base: nat, sa: seq<nat>, sb: seq<nat>)
    requires RunningFrom(a, base, sa)
    requires RunningFrom(b, Begin(sa, base, |sa|), sb)
    ensures RunningFrom(a + b, base, sa + sb)
  {
    var mid := Begin(sa, base, |sa|);
    forall i | 0 <= i < |a + b|
      ensures (sa + sb)[i] == Begin(sa + sb, base, i) + (a + b)[i].duration
    {
      if i < |a| {
        assert (a + b)[i] == a[i];
        assert (sa + sb)[i] == sa[i];
        assert Begin(sa + sb, base, i) == Begin(sa, base, i);
      } else {
        var k := i - |a|;
        assert (a + b)[i] == b[k];
        assert (sa + sb)[i] == sb[k];
        if k == 0 {
          assert Begin(sa + sb, base, i) == mid;
        } else {
          assert (sa + sb)[i - 1] == sb[k - 1];
        }
      }
    }
  }

  /**
    Running sums are the sums of the prefixes: phase `i` begins at `base`
    plus the durations of the phases before it.
  */
  lemma {:induction false} RunningOffsets<T>(vec: seq<Phase<T>>, base: nat, sums: seq<nat>)
    requires RunningFrom(vec, base, sums)
    ensures forall i :: 0 <= i <= |vec| ==> base + Total(vec[..i]) == Begin(sums, base, i)
    decreases |vec|
  {
    if vec == [] {
      assert vec[..0] == [];
    } else {
      var d := vec[0].duration;
      assert RunningFrom(vec[1..], base + d, sums[1..]) by {
        forall i | 0 <= i < |vec| - 1
          ensures sums[1..][i] == Begin(sums[1..], base + d, i) + vec[1..][i].duration
        {
          assert sums[1..][i] == sums[i + 1];
        }
      }
      RunningOffsets(vec[1..], base + d, sums[1..]);
      forall i | 0 <= i <= |vec|
        ensures base + Total(vec[..i]) == Begin(sums, base, i)
      {
        if i == 0 {
          assert vec[..0] == [];
        } else {
          TotalPrefix(vec, i);
          assert base + d + Total(vec[1..][..i - 1]) == Begin(sums[1..], base + d, i - 1);
        }
      }
    }
  }

  /** The last running sum is the end of the whole table. */
  lemma RunningTotal<T>(vec: seq<Phase<T>>, base: nat, sums: seq<nat>)
    requires RunningFrom(vec, base, sums)
    ensures base + Total(vec) == Begin(sums, base, |vec|)
  {
    RunningOffsets(vec, base, sums);
    assert vec[..|vec|] == vec;
  }

  /** No prefix of a table lasts longer than the table. */
  lemma {:induction false} TotalPrefixBound<T>(vec: seq<Phase<T>>)
    ensures forall k :: 0 <= k <= |vec| ==> Total(vec[..k]) <= Total(vec)
    decreases |vec|
  {
    if vec != [] {
      TotalPrefixBound(vec[1..]);
      forall k | 0 < k <= |vec| ensures Total(vec[..k]) <= Total(vec) {
        TotalPrefix(vec, k);
      }
    }
  }

  lemma ShotsChargedConcat(a: seq<Phase<LaserMode>>, b: seq<Phase<LaserMode>>)
    requires ShotsCharged(a) && ShotsCharged(b)
    ensures ShotsCharged(a + b)
  {
    forall i | 0 <= i < |a + b| && (a + b)[i].mode == Shooting
      ensures 0 < i && (a + b)[i - 1].mode == Charging
    {
      if i >= |a| {
        assert b[i - |a|].mode == Shooting;
      }
    }
  }

  /** `FiringInsideShown`, read off the end times of both tables. */
  predicate FiringInsideShownAt(laser: seq<Phase<LaserMode>>, ls: seq<nat>, board: seq<Phase<BoardMode>>, bs: seq<nat>)
    requires |ls| == |laser| && |bs| == |board|
  {
    forall i :: 0 <= i < |laser| && Firing(laser[i].mode) ==>
      exists j :: 0 <= j < |board| && board[j].mode == Shown &&
        Begin(bs, 0, j) <= Begin(ls, 0, i) && ls[i] <= bs[j]
  }

  lemma FiringFromOffsets(laser: seq<Phase<LaserMode>>, ls: seq<nat>, board: seq<Phase<BoardMode>>, bs: seq<nat>)
    requires RunningFrom(laser, 0, ls) && RunningFrom(board, 0, bs)
    requires FiringInsideShownAt(laser, ls, board, bs)
    ensures FiringInsideShown(laser, board)
  {
    RunningOffsets(laser, 0, ls);
    RunningOffsets(board, 0, bs);
    forall i | 0 <= i < |laser| && Firing(laser[i].mode)
      ensures exists j :: (0 <= j < |board| && board[j].mode == Shown &&
        Total(board[..j]) <= Total(laser[..i]) && Total(laser[..i + 1]) <= Total(board[..j + 1]))
    {
      var j :| 0 <= j < |board| && board[j].mode == Shown &&
        Begin(bs, 0, j) <= Begin(ls, 0, i) && ls[i] <= bs[j];
      assert Total(board[..j]) == Begin(bs, 0, j);
      assert Total(board[..j + 1]) == Begin(bs, 0, j + 1) == bs[j];
      assert Total(laser[..i]) == Begin(ls, 0, i);
      assert Total(laser[..i + 1]) == Begin(ls, 0, i + 1) == ls[i];
    }
  }

  /** A laser script that ends before a board script's first phase, a Shown one, fires in view. */
  lemma FiringInsideFirstShown(laser: seq<Phase<LaserMode>>, board: seq<Phase<BoardMode>>)
    requires 0 < |board| && board[0].mode == Shown
    requires Total(board[..0]) == 0 && Total(laser) <= Total(board[..1])
    ensures FiringInsideShown(laser, board)
  {
    TotalPrefixBound(laser);
    forall i | 0 <= i < |laser| && Firing(laser[i].mode)
      ensures exists j :: (0 <= j < |board| && board[j].mode == Shown &&
        Total(board[..j]) <= Total(laser[..i]) && Total(laser[..i + 1]) <= Total(board[..j + 1]))
    {
      assert Total(laser[..i + 1]) <= Total(laser);
    }
  }

  /** End times only grow along a table. */
  lemma SumsMonotone<T>(vec: seq<Phase<T>>, base: nat, sums: seq<nat>, a: nat, b: nat)
    requires RunningFrom(vec, base, sums) && a <= b < |sums|
    ensures sums[a] <= sums[b]
    decreases b - a
  {
    if a < b {
      SumsMonotone(vec, base, sums, a, b - 1);
      assert sums[b] == sums[b - 1] + vec[b].duration;
    }
  }

  /**
    A phase `i` in the run `lo..hi` of a laser table lies inside board phase
    `j` when the run starts no earlier and ends no later than that phase.
  */
  lemma InsideWindow(ls: seq<nat>, laser: seq<Phase<LaserMode>>, bs: seq<nat>, i: nat, lo: nat, hi: nat, j: nat)
    requires RunningFrom(laser, 0, ls)
    requires 1 <= lo <= i <= hi < |ls| && 0 < j < |bs|
    requires bs[j - 1] <= ls[lo - 1] && ls[hi] <= bs[j]
    ensures Begin(bs, 0, j) <= Begin(ls, 0, i) && ls[i] <= bs[j]
  {
    SumsMonotone(laser, 0, ls, lo - 1, i - 1);
    SumsMonotone(laser, 0, ls, i, hi);
  }

  // ---------------------------------------------------------------------
  // The mobile laser: one board table and a laser table in five rounds

  const MobileBoardOffsets: seq<nat> := [20000, 21000]

  function MobileLaserBoardPhases(): seq<Phase<BoardMode>>
  {
    [Phase(Shown, 20000), Phase(Exiting, 1000)]
  }

  const FirstRoundOffsets: seq<nat> := [200, 400, 1200, 1700, 1900, 2700, 3200, 3400, 4400]
  const SecondRoundOffsets: seq<nat> := [4900, 5100, 5900, 6400, 6600, 7400, 7900, 8100, 9100]
  const ThirdRoundOffsets: seq<nat> := [9600, 9800, 10100, 10600, 10800, 11100, 11600, 11800, 12800]
  const FourthRoundOffsets: seq<nat> := [13300, 13500, 13800, 14300, 14500, 14800, 15300, 15500, 16500]
  const FifthRoundOffsets: seq<nat> :=
    [17000, 17200, 17200, 17700, 17900, 17900, 18400, 18600, 18600, 19100, 19300, 19300, 19800, 20000]

  /** The comments of the whole mobile laser table, in order. */
  const MobileLaserOffsets: seq<nat> :=
    FirstRoundOffsets + SecondRoundOffsets + ThirdRoundOffsets + FourthRoundOffsets + FifthRoundOffsets

  function FirstRound(): seq<Phase<LaserMode>>
  {
    [ Phase(Charging, 200), Phase(Shooting, 200), Phase(Ready, 800),
      Phase(Charging, 500), Phase(Shooting, 200), Phase(Ready, 800),
      Phase(Charging, 500), Phase(Shooting, 200), Phase(Ready, 1000) ]
  }

  function SecondRound(): seq<Phase<LaserMode>>
  {
    [ Phase(Charging, 500), Phase(Shooting, 200), Phase(Ready, 800),
      Phase(Charging, 500), Phase(Shooting, 200), Phase(Ready, 800),
      Phase(Charging, 500), Phase(Shooting, 200), Phase(Ready, 1000) ]
  }

  function ThirdRound(): seq<Phase<LaserMode>>
  {
    [ Phase(Charging, 500), Phase(Shooting, 200), Phase(Ready, 300),
      Phase(Charging, 500), Phase(Shooting, 200), Phase(Ready, 300),
      Phase(Charging, 500), Phase(Shooting, 200), Phase(Ready, 1000) ]
  }

  function FourthRound(): seq<Phase<LaserMode>>
  {
    [ Phase(Charging, 500), Phase(Shooting, 200), Phase(Ready, 300),
      Phase(Charging, 500), Phase(Shooting, 200), Phase(Ready, 300),
      Phase(Charging, 500), Phase(Shooting, 200), Phase(Ready, 1000) ]
  }

  /** The fifth round: four volleys separated by zero-length Ready phases, and a last one. */
  function FifthRound(): seq<Phase<LaserMode>>
  {
    [ Phase(Charging, 500), Phase(Shooting, 200), Phase(Ready, 0),
      Phase(Charging, 500), Phase(Shooting, 200), Phase(Ready, 0),
      Phase(Charging, 500), Phase(Shooting, 200), Phase(Ready, 0),
      Phase(Charging, 500), Phase(Shooting, 200), Phase(Ready, 0),
      Phase(Charging, 500), Phase(Shooting, 200) ]
  }

  /** The mobile laser table, written as its five commented rounds. */
  function MobileLaserPhases(): seq<Phase<LaserMode>>
  {
    FirstRound() + SecondRound() + ThirdRound() + FourthRound() + FifthRound()
  }

  lemma EarlyRoundsShape()
    ensures ShotsCharged(FirstRound()) && NoZeroDurations(FirstRound())
    ensures ShotsCharged(SecondRound()) && NoZeroDurations(SecondRound())
  {
  }

  lemma MiddleRoundsShape()
    ensures ShotsCharged(ThirdRound()) && NoZeroDurations(ThirdRound())
    ensures ShotsCharged(FourthRound()) && NoZeroDurations(FourthRound())
  {
  }

  lemma FifthRoundShape()
    ensures ShotsCharged(FifthRound())
    ensures forall i :: 0 <= i < |FifthRound()| ==>
      (FifthRound()[i].duration == 0 <==> i == 2 || i == 5 || i == 8 || i == 11)
    ensures forall i :: 0 <= i < |FifthRound()| && FifthRound()[i].duration == 0 ==>
      FifthRound()[i].mode == Ready
  {
  }

  /**
    The comments of the mobile laser table are its running sums, and each of
    its Shooting phases comes straight after a Charging phase.
  */
  lemma MobileLaserTable()
    ensures RunningFrom(MobileLaserPhases(), 0, MobileLaserOffsets)
    ensures ShotsCharged(MobileLaserPhases())
  {
    var r1, r2, r3, r4, r5 := FirstRound(), SecondRound(), ThirdRound(), FourthRound(), FifthRound();
    var s1, s2, s3, s4, s5 :=
      FirstRoundOffsets, SecondRoundOffsets, ThirdRoundOffsets, FourthRoundOffsets, FifthRoundOffsets;
    FirstRoundComments();
    SecondRoundComments();
    ThirdRoundComments();
    FourthRoundComments();
    FifthRoundComments();
    RunningConcat(r1, r2, 0, s1, s2);
    RunningConcat(r1 + r2, r3, 0, s1 + s2, s3);
    RunningConcat(r1 + r2 + r3, r4, 0, s1 + s2 + s3, s4);
    RunningConcat(r1 + r2 + r3 + r4, r5, 0, s1 + s2 + s3 + s4, s5);
    EarlyRoundsShape();
    MiddleRoundsShape();
    FifthRoundShape();
    ShotsChargedConcat(r1, r2);
    ShotsChargedConcat(r1 + r2, r3);
    ShotsChargedConcat(r1 + r2 + r3, r4);
    ShotsChargedConcat(r1 + r2 + r3 + r4, r5);
  }

  /**
    The only zero-length phases of the mobile laser table are the four Ready
    phases of the fifth round, at positions 38, 41, 44 and 47.
  */
  lemma MobileZeroPhases()
    ensures forall i :: 0 <= i < |MobileLaserPhases()| ==>
      (MobileLaserPhases()[i].duration == 0 <==> i == 38 || i == 41 || i == 44 || i == 47)
    ensures forall i :: 0 <= i < |MobileLaserPhases()| && MobileLaserPhases()[i].duration == 0 ==>
      MobileLaserPhases()[i].mode == Ready
  {
    var r1, r2, r3, r4, r5 := FirstRound(), SecondRound(), ThirdRound(), FourthRound(), FifthRound();
    EarlyRoundsShape();
    MiddleRoundsShape();
    FifthRoundShape();
    var m := MobileLaserPhases();
    assert |r1| == |r2| == |r3| == |r4| == 9;
    forall i | 0 <= i < |m|
      ensures (m[i].duration == 0 <==> i == 38 || i == 41 || i == 44 || i == 47)
      ensures m[i].duration == 0 ==> m[i].mode == Ready
    {
      if i < 36 {
        assert m[i] == (r1 + r2 + r3 + r4)[i];
        if i < 27 {
          assert m[i] == (r1 + r2 + r3)[i];
          if i < 18 {
            assert m[i] == (r1 + r2)[i];
            if i < 9 { assert m[i] == r1[i]; } else { assert m[i] == r2[i - 9]; }
          } else {
            assert m[i] == r3[i - 18];
          }
        } else {
          assert m[i] == r4[i - 27];
        }
      } else {
        assert m[i] == r5[i - 36];
      }
    }
  }

  // ---------------------------------------------------------------------
  // The fixed lasers

  const UpperBoardOffsets: seq<nat> := [3400, 4400, 8100, 9100, 11800, 12800, 20000, 21000]
  const UpperLaserOffsets: seq<nat> :=
    [4400, 4900, 5100, 7400, 7900, 8100, 12800, 13300, 13500, 14800, 15300, 20000]

  function UpperLaserBoardPhases(): seq<Phase<BoardMode>>
  {
    [ Phase(Hidden, 3400), Phase(Entering, 1000), Phase(Shown, 3700), Phase(Exiting, 1000),
      Phase(Hidden, 2700), Phase(Entering, 1000), Phase(Shown, 7200), Phase(Exiting, 1000) ]
  }

  function UpperLaserPhases(): seq<Phase<LaserMode>>
  {
    [ Phase(Ready, 4400),
      Phase(Charging, 500), Phase(Shooting, 200), Phase(Ready, 2300),
      Phase(Charging, 500), Phase(Shooting, 200), Phase(Ready, 4700),
      Phase(Charging, 500), Phase(Shooting, 200), Phase(Ready, 1300),
      Phase(Charging, 500), Phase(Shooting, 4700) ]
  }

  const MiddleBoardOffsets: seq<nat> := [4900, 5900, 6600, 7600, 11800, 12800, 14500, 15500]
  /** The running sums of the middle board table as it is written. */
  const MiddleBoardSumsAsWritten: seq<nat> := [4900, 5900, 6600, 7600, 11800, 12800, 15500, 16500]
  /** The first entry has no comment in the game's content.rs; it is the phase's own length. */
  const MiddleLaserOffsets: seq<nat> :=
    [4400, 5900, 6400, 6600, 12800, 13300, 13500, 13800, 14300, 14500]

  /**
    The middle board table as it is written: its second Shown phase lasts
    2.7 s, while the comments put its end at 14.5 s, that is 1.7 s.
  */
  function MiddleLaserBoardPhasesAsWritten(): seq<Phase<BoardMode>>
  {
    [ Phase(Hidden, 4900), Phase(Entering, 1000), Phase(Shown, 700), Phase(Exiting, 1000),
      Phase(Hidden, 4200), Phase(Entering, 1000), Phase(Shown, 2700), Phase(Exiting, 1000) ]
  }

  /**
    As written, the last two comments of the middle board table are one
    second early: the table really ends at 16.5 s, not 15.5 s.
  */
  lemma MiddleBoardCommentsDisagree()
    ensures !RunningFrom(MiddleLaserBoardPhasesAsWritten(), 0, MiddleBoardOffsets)
    ensures RunningFrom(MiddleLaserBoardPhasesAsWritten(), 0, MiddleBoardSumsAsWritten)
    ensures Total(MiddleLaserBoardPhasesAsWritten()) == 16500
  {
    var w := MiddleLaserBoardPhasesAsWritten();
    assert MiddleBoardOffsets[6] != Begin(MiddleBoardOffsets, 0, 6) + w[6].duration;
    MiddleBoardAsWrittenSums();
    RunningTotal(w, 0, MiddleBoardSumsAsWritten);
  }

  /** The running sums of the middle board table as written end at 15.5 s and 16.5 s. */
  lemma MiddleBoardAsWrittenSums()
    ensures RunningFrom(MiddleLaserBoardPhasesAsWritten(), 0, MiddleBoardSumsAsWritten)
  {
  }

  /**
    The middle board table with its second Shown phase at 1.7 s, so that it
    closes with the middle laser's last shot at 14.5 s, as the comments say.
  */
  function MiddleLaserBoardPhases(): seq<Phase<BoardMode>>
  {
    [ Phase(Hidden, 4900), Phase(Entering, 1000), Phase(Shown, 700), Phase(Exiting, 1000),
      Phase(Hidden, 4200), Phase(Entering, 1000), Phase(Shown, 1700), Phase(Exiting, 1000) ]
  }

  function MiddleLaserPhases(): seq<Phase<LaserMode>>
  {
    [ Phase(Ready, 4400),
      Phase(Ready, 1500), Phase(Charging, 500), Phase(Shooting, 200), Phase(Ready, 6200),
      Phase(Charging, 500), Phase(Shooting, 200), Phase(Ready, 300),
      Phase(Charging, 500), Phase(Shooting, 200) ]
  }

  const LowerBoardOffsets: seq<nat> := [3400, 4400, 8100, 9100, 12800, 13800, 20000, 21000]
  const LowerLaserOffsets: seq<nat> :=
    [4400, 4900, 5100, 7400, 7900, 8100, 12800, 13800, 14300, 14500, 14800, 15300, 20000]

  function LowerLaserBoardPhases(): seq<Phase<BoardMode>>
  {
    [ Phase(Hidden, 3400), Phase(Entering, 1000), Phase(Shown, 3700), Phase(Exiting, 1000),
      Phase(Hidden, 3700), Phase(Entering, 1000), Phase(Shown, 6200), Phase(Exiting, 1000) ]
  }

  function LowerLaserPhases(): seq<Phase<LaserMode>>
  {
    [ Phase(Ready, 4400),
      Phase(Charging, 500), Phase(Shooting, 200), Phase(Ready, 2300),
      Phase(Charging, 500), Phase(Shooting, 200), Phase(Ready, 4700),
      Phase(Ready, 1000), Phase(Charging, 500), Phase(Shooting, 200), Phase(Ready, 300),
      Phase(Charging, 500), Phase(Shooting, 4700) ]
  }

  // ---------------------------------------------------------------------
  // The end-time comments are the running sums of the tables

  lemma MobileBoardComments()
    ensures RunningFrom(MobileLaserBoardPhases(), 0, MobileBoardOffsets)
  {
  }

  lemma FirstRoundComments()
    ensures RunningFrom(FirstRound(), 0, FirstRoundOffsets)
  {
  }

  lemma SecondRoundComments()
    ensures RunningFrom(SecondRound(), 4400, SecondRoundOffsets)
  {
  }

  lemma ThirdRoundComments()
    ensures RunningFrom(ThirdRound(), 9100, ThirdRoundOffsets)
  {
  }

  lemma FourthRoundComments()
    ensures RunningFrom(FourthRound(), 12800, FourthRoundOffsets)
  {
  }

  lemma FifthRoundComments()
    ensures RunningFrom(FifthRound(), 16500, FifthRoundOffsets)
  {
  }

  lemma UpperBoardComments()
    ensures RunningFrom(UpperLaserBoardPhases(), 0, UpperBoardOffsets)
  {
  }

  lemma UpperLaserComments()
    ensures RunningFrom(UpperLaserPhases(), 0, UpperLaserOffsets)
  {
  }

  lemma MiddleBoardComments()
    ensures RunningFrom(MiddleLaserBoardPhases(), 0, MiddleBoardOffsets)
  {
  }

  lemma MiddleLaserComments()
    ensures RunningFrom(MiddleLaserPhases(), 0, MiddleLaserOffsets)
  {
  }

  lemma LowerBoardComments()
    ensures RunningFrom(LowerLaserBoardPhases(), 0, LowerBoardOffsets)
  {
  }

  lemma LowerLaserComments()
    ensures RunningFrom(LowerLaserPhases(), 0, LowerLaserOffsets)
  {
  }

  // ---------------------------------------------------------------------
  // Whole-table properties

  /** The fixed lasers too only shoot right after charging, and no phase of theirs is empty. */
  lemma UpperLaserShape()
    ensures ShotsCharged(UpperLaserPhases()) && NoZeroDurations(UpperLaserPhases())
  {
  }

  lemma MiddleLaserShape()
    ensures ShotsCharged(MiddleLaserPhases()) && NoZeroDurations(MiddleLaserPhases())
  {
  }

  lemma LowerLaserShape()
    ensures ShotsCharged(LowerLaserPhases()) && NoZeroDurations(LowerLaserPhases())
  {
  }

  /** Every board table rises into view, stays, and sinks, and none has an empty phase. */
  lemma MobileAndUpperBoardShape()
    ensures BoardOrdered(MobileLaserBoardPhases()) && NoZeroDurations(MobileLaserBoardPhases())
    ensures BoardOrdered(UpperLaserBoardPhases()) && NoZeroDurations(UpperLaserBoardPhases())
  {
  }

  lemma MiddleAndLowerBoardShape()
    ensures BoardOrdered(MiddleLaserBoardPhases()) && NoZeroDurations(MiddleLaserBoardPhases())
    ensures BoardOrdered(LowerLaserBoardPhases()) && NoZeroDurations(LowerLaserBoardPhases())
  {
  }

  /** The middle board table as written also rises into view, stays, and sinks, with no empty phase. */
  lemma MiddleAsWrittenBoardShape()
    ensures BoardOrdered(MiddleLaserBoardPhasesAsWritten()) && NoZeroDurations(MiddleLaserBoardPhasesAsWritten())
  {
  }

  /**
    Each laser script lasts as long as the Start/Game countdown (20 s; the
    middle one 14.5 s), and each board script one second longer, which is the
    closing Exiting phase. The middle board table as written is the
    exception: it lasts 16.5 s, two seconds past its laser script.
  */
  lemma Totals()
    ensures Total(MobileLaserPhases()) == 20000
    ensures Total(UpperLaserPhases()) == 20000
    ensures Total(MiddleLaserPhases()) == 14500
    ensures Total(LowerLaserPhases()) == 20000
    ensures Total(MobileLaserBoardPhases()) == 21000
    ensures Total(UpperLaserBoardPhases()) == 21000
    ensures Total(MiddleLaserBoardPhases()) == 15500
    ensures Total(MiddleLaserBoardPhasesAsWritten()) == 16500
    ensures Total(LowerLaserBoardPhases()) == 21000
  {
    MiddleBoardCommentsDisagree();
    MobileLaserTable();
    UpperLaserComments();
    MiddleLaserComments();
    LowerLaserComments();
    MobileBoardComments();
    UpperBoardComments();
    MiddleBoardComments();
    LowerBoardComments();
    RunningTotal(MobileLaserPhases(), 0, MobileLaserOffsets);
    RunningTotal(UpperLaserPhases(), 0, UpperLaserOffsets);
    RunningTotal(MiddleLaserPhases(), 0, MiddleLaserOffsets);
    RunningTotal(LowerLaserPhases(), 0, LowerLaserOffsets);
    RunningTotal(MobileLaserBoardPhases(), 0, MobileBoardOffsets);
    RunningTotal(UpperLaserBoardPhases(), 0, UpperBoardOffsets);
    RunningTotal(MiddleLaserBoardPhases(), 0, MiddleBoardOffsets);
    RunningTotal(LowerLaserBoardPhases(), 0, LowerBoardOffsets);
  }

  /** The mobile laser is in view for its whole script. */
  lemma MobileFiresInView()
    ensures FiringInsideShown(MobileLaserPhases(), MobileLaserBoardPhases())
  {
    MobileLaserTable();
    RunningTotal(MobileLaserPhases(), 0, MobileLaserOffsets);
    assert MobileLaserBoardPhases()[..1] == [Phase(Shown, 20000)];
    assert MobileLaserBoardPhases()[..0] == [];
    FiringInsideFirstShown(MobileLaserPhases(), MobileLaserBoardPhases());
  }

  /** The upper laser fires only inside its Shown windows 4.4-8.1 s and 12.8-20 s. */
  lemma UpperFiresInView()
    ensures FiringInsideShown(UpperLaserPhases(), UpperLaserBoardPhases())
  {
    var laser, board := UpperLaserPhases(), UpperLaserBoardPhases();
    var ls, bs := UpperLaserOffsets, UpperBoardOffsets;
    UpperLaserComments();
    UpperBoardComments();
    forall i | 0 <= i < |laser| && Firing(laser[i].mode)
      ensures exists j :: (0 <= j < |board| && board[j].mode == Shown &&
        Begin(bs, 0, j) <= Begin(ls, 0, i) && ls[i] <= bs[j])
    {
      if i <= 5 {
        InsideWindow(ls, laser, bs, i, 1, 5, 2);
      } else {
        InsideWindow(ls, laser, bs, i, 7, 11, 6);
      }
    }
    FiringFromOffsets(laser, ls, board, bs);
  }

  /** The middle laser fires only inside its Shown windows 5.9-6.6 s and 12.8-14.5 s. */
  lemma MiddleFiresInView()
    ensures FiringInsideShown(MiddleLaserPhases(), MiddleLaserBoardPhases())
  {
    var laser, board := MiddleLaserPhases(), MiddleLaserBoardPhases();
    var ls, bs := MiddleLaserOffsets, MiddleBoardOffsets;
    MiddleLaserComments();
    MiddleBoardComments();
    forall i | 0 <= i < |laser| && Firing(laser[i].mode)
      ensures exists j :: (0 <= j < |board| && board[j].mode == Shown &&
        Begin(bs, 0, j) <= Begin(ls, 0, i) && ls[i] <= bs[j])
    {
      if i <= 3 {
        InsideWindow(ls, laser, bs, i, 2, 3, 2);
      } else {
        InsideWindow(ls, laser, bs, i, 5, 9, 6);
      }
    }
    FiringFromOffsets(laser, ls, board, bs);
  }

  /**
    The middle board table as written also keeps the middle laser in view
    while it fires: its windows are 5.9-6.6 s and 12.8-15.5 s.
  */
  lemma MiddleFiresInViewAsWritten()
    ensures FiringInsideShown(MiddleLaserPhases(), MiddleLaserBoardPhasesAsWritten())
  {
    var laser, board := MiddleLaserPhases(), MiddleLaserBoardPhasesAsWritten();
    var ls, bs := MiddleLaserOffsets, MiddleBoardSumsAsWritten;
    MiddleLaserComments();
    MiddleBoardAsWrittenSums();
    forall i | 0 <= i < |laser| && Firing(laser[i].mode)
      ensures exists j :: (0 <= j < |board| && board[j].mode == Shown &&
        Begin(bs, 0, j) <= Begin(ls, 0, i) && ls[i] <= bs[j])
    {
      if i <= 3 {
        InsideWindow(ls, laser, bs, i, 2, 3, 2);
      } else {
        InsideWindow(ls, laser, bs, i, 5, 9, 6);
      }
    }
    FiringFromOffsets(laser, ls, board, bs);
  }

  /** The lower laser fires only inside its Shown windows 4.4-8.1 s and 13.8-20 s. */
  lemma LowerFiresInView()
    ensures FiringInsideShown(LowerLaserPhases(), LowerLaserBoardPhases())
  {
    var laser, board := LowerLaserPhases(), LowerLaserBoardPhases();
    var ls, bs := LowerLaserOffsets, LowerBoardOffsets;
    LowerLaserComments();
    LowerBoardComments();
    forall i | 0 <= i < |laser| && Firing(laser[i].mode)
      ensures exists j :: (0 <= j < |board| && board[j].mode == Shown &&
        Begin(bs, 0, j) <= Begin(ls, 0, i) && ls[i] <= bs[j])
    {
      if i <= 5 {
        InsideWindow(ls, laser, bs, i, 1, 5, 2);
      } else {
        InsideWindow(ls, laser, bs, i, 8, 12, 6);
      }
    }
    FiringFromOffsets(laser, ls, board, bs);
  }
}
