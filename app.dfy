/** The top-level game states and the two key-driven transitions. */
module App {
  import opened Engine

  datatype AppState = Splash | Setup | Start | Game | Defeat | Victory | Teardown

  /** The state the app is built with. */
  const InitialState: AppState := Splash

  const AllStates: set<AppState> := {Splash, Setup, Start, Game, Defeat, Victory, Teardown}

  /**
    The level cycle: Splash -> Setup -> Start -> Game -> (Victory | Defeat)
    -> Teardown -> Setup. No state is its own successor, so no request along
    an edge asks for the state the app is already in.
  */
  predicate Edge(from: AppState, to: AppState): (r: bool)
    ensures r ==> from != to
  {
    match from
    case Splash => to == Setup
    case Setup => to == Start
    case Start => to == Game
    case Game => to == Victory || to == Defeat
    case Defeat => to == Teardown
    case Victory => to == Teardown
    case Teardown => to == Setup
  }

  /** The state type has exactly seven values. */
  lemma SevenStates()
    ensures forall s: AppState :: s in AllStates
    ensures |AllStates| == 7
  {
    var a := {Splash, Setup, Start};
    var b := {Game, Defeat, Victory, Teardown};
    assert |a| == 3;
    assert |b| == 4;
    assert a !! b;
    assert AllStates == a + b;
    forall s: AppState ensures s in AllStates {
      match s
      case Splash =>
      case Setup =>
      case Start =>
      case Game =>
      case Defeat =>
      case Victory =>
      case Teardown =>
    }
  }

  /** In Splash: the space key asks for Setup and empties the input buffer. */
  method StartOnSpace(input: Input, state: State<AppState>)
    modifies input, state
    ensures state.current == old(state.current)
    ensures old(input.JustPressed(Space)) ==> state.scheduled == Some(Setup) && input.justPressed == {}
    ensures !old(input.JustPressed(Space)) ==>
      state.scheduled == old(state.scheduled) && input.justPressed == old(input.justPressed)
  {
    if input.JustPressed(Space) {
      state.OverwriteSet(Setup);
      input.Clear();
    }
  }

  /** In Defeat or Victory: the space key asks for Teardown and empties the input buffer. */
  method Restart(input: Input, state: State<AppState>)
    modifies input, state
    ensures state.current == old(state.current)
    ensures old(input.JustPressed(Space)) ==> state.scheduled == Some(Teardown) && input.justPressed == {}
    ensures !old(input.JustPressed(Space)) ==>
      state.scheduled == old(state.scheduled) && input.justPressed == old(input.justPressed)
  {
    if input.JustPressed(Space) {
      state.OverwriteSet(Teardown);
      input.Clear();
    }
  }
}
