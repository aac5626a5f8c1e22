/**
  The phase timeline: an ordered list of (mode, duration) phases driven by the
  absolute elapsed time of the shared countdown. Durations are whole
  milliseconds; progress is a real in [0, 1].
*/
module Phases {
  import opened Engine

  /** One segment of a timeline: a mode held for `duration` milliseconds. */
  datatype Phase<T> = Phase(mode: T, duration: nat)

  /** Sum of the durations of a phase list. */
  function Total<T>(vec: seq<Phase<T>>): nat
  {
    if vec == [] then 0 else vec[0].duration + Total(vec[1..])
  }

  /** The value held by one timeline component. */
  datatype Timeline<T> = Timeline(vec: seq<Phase<T>>, start: nat, progress: real)

  /** Whether an update ran to the end or hit the Duration subtraction that panics. */
  datatype Outcome = Done | Underflow

  function Min(a: real, b: real): real
  {
    if a <= b then a else b
  }

  /** Progress of the front phase of `vec`, `e` milliseconds after it began. */
  function Progress<T>(vec: seq<Phase<T>>, e: nat): (p: real)
    ensures 0.0 <= p <= 1.0
  {
    if vec == [] || vec[0].duration == 0 then 1.0
    else Min(e as real / vec[0].duration as real, 1.0)
  }

  /**
    One transition of one timeline at clock time `elapsed`. `None` stands for
    the panic of the subtraction `elapsed - start` when the clock is behind the
    segment start.
  */
  function Step<T>(t: Timeline<T>, elapsed: nat): (r: Option<Timeline<T>>)
    // an empty timeline is skipped and left exactly as it was
    ensures t.vec == [] ==> r == Some(t)
    // the update fails exactly when a non-empty timeline is ahead of the clock
    ensures r.None? <==> t.vec != [] && elapsed < t.start
    // at most the front phase is removed, and only when it has expired
    ensures r.Some? && t.vec != [] ==>
      var popped := elapsed >= t.start + t.vec[0].duration;
      && r.value.vec == (if popped then t.vec[1..] else t.vec)
      && r.value.start == (if popped then t.start + t.vec[0].duration else t.start)
    // the end of the timeline on the clock does not move
    ensures r.Some? ==> r.value.start + Total(r.value.vec) == t.start + Total(t.vec)
    // a timeline that is not ahead of the clock stays so
    ensures t.start <= elapsed ==> r.Some? && r.value.start <= elapsed
    // progress of the new front phase
    ensures r.Some? && t.vec != [] ==>
      && 0.0 <= r.value.progress <= 1.0
      && (r.value.vec == [] || r.value.vec[0].duration == 0 ==> r.value.progress == 1.0)
      && (r.value.vec != [] && r.value.vec[0].duration > 0 ==>
            r.value.progress ==
              Min((elapsed - r.value.start) as real / r.value.vec[0].duration as real, 1.0))
  {
    if t.vec == [] then Some(t)
    else
      var d := t.vec[0].duration;
      var vec', start' := if elapsed >= t.start + d then t.vec[1..] else t.vec,
                          if elapsed >= t.start + d then t.start + d else t.start;
      if elapsed < start' then None
      else Some(Timeline(vec', start', Progress(vec', elapsed - start')))
  }

  /** `n` successive transitions at the same clock time. */
  function Run<T>(t: Timeline<T>, elapsed: nat, n: nat): Option<Timeline<T>>
    decreases n
  {
    if n == 0 then Some(t)
    else
      match Step(t, elapsed)
      case None => None
      case Some(t') => Run(t', elapsed, n - 1)
  }

  lemma TotalPrefix<T>(vec: seq<Phase<T>>, k: nat)
    requires 0 < k <= |vec|
    ensures Total(vec[..k]) == vec[0].duration + Total(vec[1..][..k - 1])
  {
    assert vec[..k][1..] == vec[1..][..k - 1];
  }

  /**
    Once the clock has reached the end of a timeline, each transition removes
    exactly one phase, zero-duration phases included: after `k` calls the
    first `k` phases are gone and `start` has moved by their durations. After
    `|vec|` calls the timeline is empty and its progress is 1.
  */
  lemma {:induction false} Drain<T>(t: Timeline<T>, elapsed: nat, k: nat)
    requires t.start + Total(t.vec) <= elapsed
    requires k <= |t.vec|
    ensures Run(t, elapsed, k).Some?
    ensures Run(t, elapsed, k).value.vec == t.vec[k..]
    ensures Run(t, elapsed, k).value.start == t.start + Total(t.vec[..k])
    ensures 0 < k == |t.vec| ==> Run(t, elapsed, k).value.progress == 1.0
    decreases k
  {
    if k == 0 {
      assert t.vec[..0] == [];
    } else {
      var t' := Step(t, elapsed).value;
      assert t'.vec == t.vec[1..];
      Drain(t', elapsed, k - 1);
      TotalPrefix(t.vec, k);
      assert t.vec[1..][k - 1..] == t.vec[k..];
    }
  }

  lemma DivMonotone(a: real, b: real, d: real)
    requires a <= b && 0.0 < d
    ensures a / d <= b / d
  {
    assert b / d - a / d == (b - a) / d;
  }

  /**
    Within one segment, a later clock reading never lowers the progress: if
    the second transition pops nothing, its progress is at least the first's.
  */
  lemma ProgressMonotone<T>(t: Timeline<T>, e1: nat, e2: nat)
    requires t.vec != [] && e1 <= e2
    requires Step(t, e1).Some?
    requires Step(Step(t, e1).value, e2).Some?
    requires Step(Step(t, e1).value, e2).value.vec == Step(t, e1).value.vec
    ensures Step(t, e1).value.progress <= Step(Step(t, e1).value, e2).value.progress
  {
    var t1 := Step(t, e1).value;
    var t2 := Step(t1, e2).value;
    if t1.vec != [] && t1.vec[0].duration > 0 {
      var d := t1.vec[0].duration as real;
      assert t2.start == t1.start;
      DivMonotone((e1 - t1.start) as real, (e2 - t1.start) as real, d);
    }
  }

  /** A timeline component, updated in place by `Transition`. */
  class Phases<T> {
    var vec: seq<Phase<T>>
    var start: nat
    var progress: real

    /** A timeline over `vec`, starting at clock time zero. */
    constructor (vec: seq<Phase<T>>)
      ensures this.vec == vec && start == 0 && progress == 0.0
    {
      this.vec := vec;
      start := 0;
      progress := 0.0;
    }

    /** A timeline made of a single zero-duration placeholder phase. */
    constructor Placeholder(mode: T)
      ensures vec == [Phase(mode, 0)] && start == 0 && progress == 0.0
    {
      vec := [Phase(mode, 0)];
      start := 0;
      progress := 0.0;
    }

    function Value(): Timeline<T>
      reads this
    {
      Timeline(vec, start, progress)
    }

    /** The current mode: the front phase's, or the mode type's default once empty. */
    function Mode(default: T): (m: T)
      reads this
      ensures vec != [] ==> m == vec[0].mode
      ensures vec == [] ==> m == default
    {
      if vec == [] then default else vec[0].mode
    }

    /**
      Replace the phase list. What the replacement does to `start` and
      `progress` is not known here, so the model leaves them arbitrary.
    */
    method Reset(vec: seq<Phase<T>>)
      modifies this
      ensures this.vec == vec
    {
      var s: nat, p: real :| true;
      this.vec, start, progress := vec, s, p;
    }

    /** The body of the transition system for one timeline. */
    method Transition(elapsed: nat) returns (outcome: Outcome)
      modifies this
      ensures outcome == Done <==> Step(old(Value()), elapsed).Some?
      ensures outcome == Done ==> Step(old(Value()), elapsed) == Some(Value())
      ensures outcome == Underflow ==> Value() == old(Value())
    {
      if vec == [] {
        return Done;
      }
      var duration := vec[0].duration;
      if elapsed >= start + duration {
        start := start + duration;
        vec := vec[1..];
      }
      if elapsed < start {
        return Underflow;
      }
      var e := elapsed - start;
      progress := if vec == [] || vec[0].duration == 0 then 1.0
                  else Min(e as real / vec[0].duration as real, 1.0);
      outcome := Done;
    }
  }

  /**
    The transition system: every timeline of the query, in order, against the
    same clock reading. The first underflow aborts the whole update.
  */
  method TransitionAll<T>(query: seq<Phases<T>>, elapsed: nat) returns (outcome: Outcome)
    requires forall i, j :: 0 <= i < j < |query| ==> query[i] != query[j]
    modifies set p | p in query
    ensures outcome == Done <==>
      forall i :: 0 <= i < |query| ==> Step(old(query[i].Value()), elapsed).Some?
    ensures outcome == Done ==>
      forall i :: 0 <= i < |query| ==> Step(old(query[i].Value()), elapsed) == Some(query[i].Value())
  {
    for i := 0 to |query|
      invariant forall j :: 0 <= j < i ==>
        Step(old(query[j].Value()), elapsed) == Some(query[j].Value())
      invariant forall j :: i <= j < |query| ==> query[j].Value() == old(query[j].Value())
    {
      var o := query[i].Transition(elapsed);
      if o == Underflow {
        return Underflow;
      }
    }
    return Done;
  }
}
