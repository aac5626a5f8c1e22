/**
  Stand-ins for the pieces of the game engine that the core reads and writes:
  an integer 2-vector, the keyboard input buffer, the once-mode timer inside
  the countdown, and the state resource with its pending-transition slot.
  Their bodies are not the engine's; their contracts are the assumptions the
  rest of the model relies on.
*/
module Engine {

  datatype Option<+T> = None | Some(value: T)

  /** An integer 2-vector (the engine's IVec2; i32 wrap-around is not modelled). */
  datatype IVec2 = IVec2(x: int, y: int)

  const Zero := IVec2(0, 0)

  function Add(a: IVec2, b: IVec2): IVec2
  {
    IVec2(a.x + b.x, a.y + b.y)
  }

  /** The keys the game reads. */
  datatype Key = Space | Left | Right | Up | Down

  /** The keyboard buffer: the keys pressed since the last frame. */
  class Input {
    var justPressed: set<Key>

    constructor (pressed: set<Key>)
      ensures justPressed == pressed
    {
      justPressed := pressed;
    }

    predicate JustPressed(k: Key)
      reads this
    {
      k in justPressed
    }

    /** Forget every pending press. */
    method Clear()
      modifies this
      ensures justPressed == {}
    {
      justPressed := {};
    }
  }

  /**
    A once-mode timer with millisecond resolution. The clamp
    `elapsed <= duration` is the assumed behaviour of the engine's timer:
    ticking past the end stops at the end.
  */
  class Timer {
    var duration: nat
    var elapsed: nat

    ghost predicate Valid()
      reads this
    {
      elapsed <= duration
    }

    constructor (duration: nat)
      ensures this.duration == duration && elapsed == 0 && Valid()
    {
      this.duration := duration;
      elapsed := 0;
    }

    /** The timer has run its full length. */
    predicate Finished()
      reads this
    {
      elapsed >= duration
    }

    method Tick(delta: nat)
      requires Valid()
      modifies this
      ensures Valid() && duration == old(duration)
      ensures elapsed == if old(elapsed) + delta <= duration then old(elapsed) + delta else duration
    {
      elapsed := if elapsed + delta <= duration then elapsed + delta else duration;
    }

    /** Change the length; the elapsed time is kept. */
    method SetDuration(d: nat)
      modifies this
      ensures duration == d && elapsed == old(elapsed)
    {
      duration := d;
    }

    /** Rewind to zero; the length is kept. */
    method Reset()
      modifies this
      ensures duration == old(duration) && elapsed == 0 && Valid()
    {
      elapsed := 0;
    }
  }

  /**
    The state resource: the current state and the one pending transition
    request. A later request in the same frame replaces an earlier one.
  */
  class State<S> {
    var current: S
    var scheduled: Option<S>

    constructor (initial: S)
      ensures current == initial && scheduled == None
    {
      current := initial;
      scheduled := None;
    }

    method OverwriteSet(s: S)
      modifies this
      ensures current == old(current) && scheduled == Some(s)
    {
      scheduled := Some(s);
    }

    /** End of the frame: a pending request becomes the current state. */
    method Apply()
      modifies this
      ensures old(scheduled).Some? ==> current == old(scheduled).value
      ensures old(scheduled).None? ==> current == old(current)
      ensures scheduled == None
    {
      if scheduled.Some? {
        current := scheduled.value;
      }
      scheduled := None;
    }
  }
}
