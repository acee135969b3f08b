// Playing a list of steps of a protocol from a given state.
module Plays {
  import opened Wrappers

  // None when some step is not enabled where it stands.
  function Play<S, A>(s: S, steps: seq<A>, next: (S, A) -> Option<S>): Option<S> {
    if steps == [] then Some(s)
    else
      var before := Play(s, steps[..|steps| - 1], next);
      if before.Some? then next(before.value, steps[|steps| - 1]) else None
  }

  lemma Then<S, A>(s: S, steps: seq<A>, next: (S, A) -> Option<S>, now: S, a: A)
    requires Play(s, steps, next) == Some(now)
    ensures Play(s, steps + [a], next) == next(now, a)
  {
    assert (steps + [a])[..|steps|] == steps;
  }
}
