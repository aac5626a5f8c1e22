/**
  The countdown clock: one process-wide resettable timer together with the
  state to enter when it runs out, and the per-state hooks that re-arm it.
*/
module Background {
  import opened Engine
  import opened App

  class Countdown {
    const timer: Timer
    var transition: Option<AppState>

    /** A finished zero-length clock with no target. */
    constructor ()
      ensures fresh(timer) && timer.duration == 0 && timer.elapsed == 0 && timer.Valid()
      ensures transition == None
    {
      timer := new Timer(0);
      transition := None;
    }

    /** Re-arm the clock: `ms` to run, nothing elapsed, `target` on expiry. */
    method Reset(ms: nat, target: Option<AppState>)
      modifies this, timer
      ensures timer.duration == ms && timer.elapsed == 0 && timer.Valid()
      ensures transition == target
    {
      timer.SetDuration(ms);
      timer.Reset();
      transition := target;
    }
  }

  /** The countdown system: advance the clock by the frame's delta. */
  method Tick(countdown: Countdown, delta: nat)
    requires countdown.timer.Valid()
    modifies countdown.timer
    ensures countdown.timer.Valid() && countdown.timer.duration == old(countdown.timer.duration)
    ensures countdown.timer.elapsed ==
      if old(countdown.timer.elapsed) + delta <= countdown.timer.duration
      then old(countdown.timer.elapsed) + delta else countdown.timer.duration
  {
    countdown.timer.Tick(delta);
  }

  /** The transition system: once the clock has run out, ask for its target state. */
  method Transition(countdown: Countdown, state: State<AppState>)
    modifies state
    ensures state.current == old(state.current)
    ensures countdown.transition.Some? && countdown.timer.Finished() ==>
      state.scheduled == Some(countdown.transition.value)
    ensures countdown.transition.None? || !countdown.timer.Finished() ==>
      state.scheduled == old(state.scheduled)
  {
    match countdown.transition
    case None =>
    case Some(target) =>
      if countdown.timer.Finished() {
        state.OverwriteSet(target);
      }
  }

  method EnterSetup(countdown: Countdown)
    modifies countdown, countdown.timer
    ensures countdown.timer.duration == 1500 && countdown.timer.elapsed == 0 && countdown.timer.Valid()
    ensures countdown.transition == Some(Start)
  {
    countdown.Reset(1500, Some(Start));
  }

  method EnterStart(countdown: Countdown)
    modifies countdown, countdown.timer
    ensures countdown.timer.duration == 20000 && countdown.timer.elapsed == 0 && countdown.timer.Valid()
    ensures countdown.transition == Some(Victory)
  {
    countdown.Reset(20000, Some(Victory));
  }

  method EnterVictory(countdown: Countdown)
    modifies countdown, countdown.timer
    ensures countdown.timer.duration == 1000 && countdown.timer.elapsed == 0 && countdown.timer.Valid()
    ensures countdown.transition == None
  {
    countdown.Reset(1000, None);
  }

  method EnterTeardown(countdown: Countdown)
    modifies countdown, countdown.timer
    ensures countdown.timer.duration == 1500 && countdown.timer.elapsed == 0 && countdown.timer.Valid()
    ensures countdown.transition == Some(Setup)
  {
    countdown.Reset(1500, Some(Setup));
  }

  /** The states in which the countdown system runs. */
  predicate Ticks(s: AppState)
  {
    s == Setup || s == Game || s == Victory || s == Teardown
  }

  /** The states in which the transition system runs. */
  predicate Transitions(s: AppState)
  {
    s == Setup || s == Game || s == Teardown
  }

  /**
    The target the countdown holds while the app is in `s`: what the hook of
    the last state entered that re-armed the clock left there.
  */
  function HeldTarget(s: AppState): (r: Option<AppState>)
    // wherever the transition system runs, it can only ask for a successor
    ensures Transitions(s) ==> r.Some? && Edge(s, r.value)
  {
    match s
    case Splash => None
    case Setup => Some(Start)
    case Start => Some(Victory)
    case Game => Some(Victory)
    case Defeat => Some(Victory)
    case Victory => None
    case Teardown => Some(Setup)
  }

  /** The on-enter hooks of this plugin for the state just entered. */
  method OnEnter(countdown: Countdown, s: AppState)
    requires countdown.timer.Valid()
    modifies countdown, countdown.timer
    ensures countdown.timer.Valid()
    ensures s == Setup ==> countdown.timer.duration == 1500 && countdown.transition == Some(Start)
    ensures s == Start ==> countdown.timer.duration == 20000 && countdown.transition == Some(Victory)
    ensures s == Victory ==> countdown.timer.duration == 1000 && countdown.transition == None
    ensures s == Teardown ==> countdown.timer.duration == 1500 && countdown.transition == Some(Setup)
    ensures s in {Setup, Start, Victory, Teardown} ==> countdown.timer.elapsed == 0
    ensures s in {Splash, Game, Defeat} ==>
      && countdown.transition == old(countdown.transition)
      && countdown.timer.duration == old(countdown.timer.duration)
      && countdown.timer.elapsed == old(countdown.timer.elapsed)
  {
    match s
    case Setup => EnterSetup(countdown);
    case Start => EnterStart(countdown);
    case Victory => EnterVictory(countdown);
    case Teardown => EnterTeardown(countdown);
    case _ =>
  }

  /**
    This plugin's update systems in state `s`: the clock ticks in Setup, Game,
    Victory and Teardown, and is read for a transition in Setup, Game and
    Teardown.
  */
  method OnUpdate(countdown: Countdown, state: State<AppState>, delta: nat)
    requires countdown.timer.Valid()
    modifies countdown.timer, state
    ensures countdown.timer.Valid() && countdown.timer.duration == old(countdown.timer.duration)
    ensures state.current == old(state.current)
    ensures !Ticks(state.current) ==> countdown.timer.elapsed == old(countdown.timer.elapsed)
    ensures Ticks(state.current) ==>
      countdown.timer.elapsed ==
        (if old(countdown.timer.elapsed) + delta <= countdown.timer.duration
         then old(countdown.timer.elapsed) + delta else countdown.timer.duration)
    ensures Transitions(state.current) && countdown.transition.Some? && countdown.timer.Finished() ==>
      state.scheduled == Some(countdown.transition.value)
    ensures !(Transitions(state.current) && countdown.transition.Some? && countdown.timer.Finished()) ==>
      state.scheduled == old(state.scheduled)
  {
    var s := state.current;
    if Ticks(s) {
      Tick(countdown, delta);
    }
    if Transitions(s) {
      Transition(countdown, state);
    }
  }
}
