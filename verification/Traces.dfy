/** Runs of a state machine whose moves either apply or do not. */
module Traces {
  import opened Common

  // The states a run goes through, one more than its moves.
  ghost predicate Trace<S, M>(apply: (S, M) -> Option<S>, states: seq<S>, moves: seq<M>) {
    && |states| == |moves| + 1
    && forall i | 0 <= i < |moves| :: apply(states[i], moves[i]) == Some(states[i + 1])
  }

  // Where the run that makes these moves from s ends, if all of them apply.
  function After<S, M>(apply: (S, M) -> Option<S>, s: S, moves: seq<M>): Option<S>
    decreases |moves|
  {
    if moves == [] then Some(s)
    else
      match After(apply, s, moves[..|moves| - 1])
      case None => None
      case Some(t) => apply(t, moves[|moves| - 1])
  }

  lemma AfterOne<S, M>(apply: (S, M) -> Option<S>, s: S, moves: seq<M>, m: M)
    requires After(apply, s, moves).Some?
    ensures After(apply, s, moves + [m]) == apply(After(apply, s, moves).value, m)
  {
    assert (moves + [m])[..|moves|] == moves;
  }

  lemma {:induction false} AfterThen<S, M>(apply: (S, M) -> Option<S>, s: S, first: seq<M>, second: seq<M>)
    requires After(apply, s, first).Some?
    ensures After(apply, s, first + second) == After(apply, After(apply, s, first).value, second)
    decreases |second|
  {
    if second == [] {
      assert first + second == first;
    } else {
      var init := second[..|second| - 1];
      AfterThen(apply, s, first, init);
      assert (first + second)[..|first + second| - 1] == first + init;
    }
  }

  /** Moves that apply one after the other make a run; its states are those after the moves made so far. */
  lemma {:induction false} RunExists<S, M>(apply: (S, M) -> Option<S>, s: S, moves: seq<M>) returns (states: seq<S>)
    requires After(apply, s, moves).Some?
    ensures Trace(apply, states, moves) && states[0] == s
    ensures forall i | 0 <= i < |states| :: After(apply, s, moves[..i]) == Some(states[i])
    decreases |moves|
  {
    if moves == [] {
      states := [s];
    } else {
      var init := moves[..|moves| - 1];
      var before := RunExists(apply, s, init);
      states := before + [After(apply, s, moves).value];
      assert init[..|init|] == init;
      forall i | 0 <= i < |states| ensures After(apply, s, moves[..i]) == Some(states[i]) {
        if i < |before| {
          assert moves[..i] == init[..i];
        } else {
          assert moves[..i] == moves;
        }
      }
    }
  }
}
