/**
  The older countdown: a single 20.01-second clock, rewound on entering
  Start, ticking only during Game, shown as the remaining time, and ending
  the game in Victory when it runs out.
*/
module LegacyBackground {
  import opened Engine
  import opened App

  /** The length of the older clock: 20 s plus 10 ms of slack against rounding. */
  const RoundLength: nat := 20010

  /** The older countdown resource. */
  class Countdown {
    const timer: Timer

    constructor ()
      ensures fresh(timer) && timer.duration == RoundLength && timer.elapsed == 0 && timer.Valid()
    {
      timer := new Timer(RoundLength);
    }
  }

  /** The start hook: rewind the clock, keeping its length. */
  method EnterStart(countdown: Countdown)
    modifies countdown.timer
    ensures countdown.timer.elapsed == 0 && countdown.timer.duration == old(countdown.timer.duration)
    ensures countdown.timer.Valid()
  {
    countdown.timer.Reset();
  }

  /** The time left on the clock, in milliseconds; the clamp of the timer keeps it from going negative. */
  function Remaining(countdown: Countdown): (r: nat)
    requires countdown.timer.Valid()
    reads countdown.timer
    ensures r + countdown.timer.elapsed == countdown.timer.duration
    ensures r == 0 <==> countdown.timer.Finished()
  {
    countdown.timer.duration - countdown.timer.elapsed
  }

  /** A run-out clock ends the game in Victory. */
  method Victory(countdown: Countdown, state: State<AppState>)
    modifies state
    ensures state.current == old(state.current)
    ensures countdown.timer.Finished() ==> state.scheduled == Some(AppState.Victory)
    ensures !countdown.timer.Finished() ==> state.scheduled == old(state.scheduled)
  {
    if countdown.timer.Finished() {
      state.OverwriteSet(AppState.Victory);
    }
  }

  /**
    One frame of the older background's systems: in Game the clock ticks by
    `delta`, the remaining time is shown and the end of the clock is checked;
    in every other state nothing happens. Returns the remaining time shown,
    if any.
  */
  method OnUpdate(countdown: Countdown, state: State<AppState>, delta: nat) returns (shown: Option<nat>)
    requires countdown.timer.Valid()
    modifies countdown.timer, state
    ensures countdown.timer.Valid() && countdown.timer.duration == old(countdown.timer.duration)
    ensures state.current == old(state.current)
    ensures state.current != Game ==>
      countdown.timer.elapsed == old(countdown.timer.elapsed) && state.scheduled == old(state.scheduled) && shown == None
    ensures state.current == Game ==>
      && countdown.timer.elapsed == Min(old(countdown.timer.elapsed) + delta, countdown.timer.duration)
      && shown == Some(Remaining(countdown))
      && (countdown.timer.Finished() ==> state.scheduled == Some(AppState.Victory))
      && (!countdown.timer.Finished() ==> state.scheduled == old(state.scheduled))
  {
    shown := None;
    if state.current == Game {
      countdown.timer.Tick(delta);
      shown := Some(Remaining(countdown));
      Victory(countdown, state);
    }
  }

  function Min(a: nat, b: nat): nat
  {
    if a <= b then a else b
  }
}
