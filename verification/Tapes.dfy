/** Step functions run along a tape of what each API call meets. */
module Tapes {
  // What one step leaves behind: the world it acted on, and the process after it.
  datatype Effect<W, P> = Effect(world: W, proc: P)

  /** The process after the calls numbered lo to hi - 1. */
  function Run<T, W, P>(step: (T, P) -> Effect<W, P>, tape: nat -> T, p: P, lo: nat, hi: nat): P
    requires lo <= hi
    decreases hi - lo
  {
    if lo == hi then p else step(tape(hi - 1), Run(step, tape, p, lo, hi - 1)).proc
  }

  // The process p, begun at call lo, has made the calls lo .. |effects| - 1 with these effects and is now q.
  ghost predicate Ran<T, W, P>(step: (T, P) -> Effect<W, P>, tape: nat -> T, p: P, lo: nat, effects: seq<W>, q: P) {
    && lo <= |effects|
    && Run(step, tape, p, lo, |effects|) == q
    && forall i | lo <= i < |effects| :: effects[i] == step(tape(i), Run(step, tape, p, lo, i)).world
  }

  lemma {:induction false} RunSplits<T, W, P>(step: (T, P) -> Effect<W, P>, tape: nat -> T, p: P,
                                              lo: nat, mid: nat, hi: nat)
    requires lo <= mid <= hi
    ensures Run(step, tape, p, lo, hi) == Run(step, tape, Run(step, tape, p, lo, mid), mid, hi)
    decreases hi - mid
  {
    if mid < hi {
      RunSplits(step, tape, p, lo, mid, hi - 1);
    }
  }

  // A run depends on the calls it makes only.
  lemma {:induction false} RunAgrees<T, W, P>(step: (T, P) -> Effect<W, P>, tape: nat -> T, tape': nat -> T, p: P,
                                              lo: nat, hi: nat)
    requires lo <= hi && forall i: nat | lo <= i < hi :: tape(i) == tape'(i)
    ensures Run(step, tape, p, lo, hi) == Run(step, tape', p, lo, hi)
    decreases hi - lo
  {
    if lo < hi {
      RunAgrees(step, tape, tape', p, lo, hi - 1);
    }
  }

  /** Runs compose: what happened first, then the rest. */
  lemma RanThen<T, W, P>(step: (T, P) -> Effect<W, P>, tape: nat -> T, p: P, lo: nat,
                                            first: seq<W>, q: P, both: seq<W>, r: P)
    requires Ran(step, tape, p, lo, first, q) && Ran(step, tape, q, |first|, both, r) && first <= both
    ensures Ran(step, tape, p, lo, both, r)
  {
    RunSplits(step, tape, p, lo, |first|, |both|);
    forall i | lo <= i < |both| ensures both[i] == step(tape(i), Run(step, tape, p, lo, i)).world {
      if i < |first| {
        assert both[i] == first[i];
      } else {
        RunSplits(step, tape, p, lo, |first|, i);
      }
    }
  }

  lemma RanOne<T, W, P>(step: (T, P) -> Effect<W, P>, tape: nat -> T, p: P, lo: nat,
                        first: seq<W>, q: P, e: Effect<W, P>)
    requires Ran(step, tape, p, lo, first, q) && e == step(tape(|first|), q)
    ensures Ran(step, tape, p, lo, first + [e.world], e.proc)
  {
    var both := first + [e.world];
    forall i | lo <= i < |both| ensures both[i] == step(tape(i), Run(step, tape, p, lo, i)).world {
      if i < |first| {
        assert both[i] == first[i];
      }
    }
  }

  lemma RanNone<T, W, P>(step: (T, P) -> Effect<W, P>, tape: nat -> T, p: P, effects: seq<W>)
    ensures Ran(step, tape, p, |effects|, effects, p)
  {
  }

  // ---- Runs that nobody interferes with ----

  /** Where a process is after n calls on a world that only it changes; `choose` says what each call meets. */
  ghost function Unroll<T, W, P>(step: (T, P) -> Effect<W, P>, choose: (W, P) -> T, w: W, p: P, n: nat): Effect<W, P> {
    if n == 0 then Effect(w, p)
    else
      var e := Unroll(step, choose, w, p, n - 1);
      step(choose(e.world, e.proc), e.proc)
  }

  ghost function Solo<T, W, P>(step: (T, P) -> Effect<W, P>, choose: (W, P) -> T, w: W, p: P): nat -> T {
    (n: nat) => choose(Unroll(step, choose, w, p, n).world, Unroll(step, choose, w, p, n).proc)
  }

  lemma {:induction false} SoloRuns<T, W, P>(step: (T, P) -> Effect<W, P>, choose: (W, P) -> T, w: W, p: P, n: nat)
    ensures Run(step, Solo(step, choose, w, p), p, 0, n) == Unroll(step, choose, w, p, n).proc
    ensures var e := Unroll(step, choose, w, p, n); Solo(step, choose, w, p)(n) == choose(e.world, e.proc)
    ensures n == 0 ==> Unroll(step, choose, w, p, n) == Effect(w, p)
  {
    if n > 0 {
      SoloRuns(step, choose, w, p, n - 1);
    }
  }
}
