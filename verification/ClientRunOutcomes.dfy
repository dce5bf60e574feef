/** Every pass of every run is a pass along a tape: what ClientOutcomes says of passes holds in runs, whatever is
    interleaved. */
module ClientRunOutcomes {
  import opened Common
  import opened ClientPass
  import opened ClientRuns
  import opened ClientOutcomes
  import F = ClientFields
  import S = ClientStatus
  import Tapes
  import Traces

  // The moves numbered at[0], at[1], ... make the calls of the pass over `key`, on these worlds, from its beginning p
  // on.
  ghost predicate Plays(states: seq<State>, moves: seq<Move>, key: ObjectKey, p: Proc, tape: nat -> Tick, at: seq<nat>)
    requires |states| == |moves| + 1
  {
    && (forall k: nat | k < |at| :: PlaysAt(states, moves, key, p, tape, k, at[k]))
    && forall k: nat, l: nat | k < l < |at| :: at[k] < at[l]
  }

  // Move i is call k of the pass.
  ghost predicate PlaysAt(states: seq<State>, moves: seq<Move>, key: ObjectKey, p: Proc, tape: nat -> Tick, k: nat,
                           i: nat)
    requires |states| == |moves| + 1
  {
    && i < |moves| && moves[i].Call? && moves[i].key == key
    && tape(k) == TickOf(states[i].world, moves[i])
    && key in states[i].procs && states[i].procs[key] == Run(tape, p, 0, k)
  }

  // The pass read its object at this state.
  ghost predicate BeganWith(states: seq<State>, begin: nat, p: Proc) {
    && begin < |states|
    && p.obj.key in states[begin].world.cluster && p == Start(states[begin].world.cluster[p.obj.key])
  }

  // Where the pass over `key` at state n began, and the calls it has made since.
  ghost predicate PassOf(states: seq<State>, moves: seq<Move>, key: ObjectKey, n: nat, begin: nat, p: Proc,
                         tape: nat -> Tick, at: seq<nat>)
    requires |states| == |moves| + 1
  {
    && n < |states| && begin <= n && key in states[n].procs
    && BeganWith(states, begin, p) && Plays(states, moves, key, p, tape, at)
    && (|at| > 0 ==> begin <= at[0] && at[|at| - 1] < n)
    && states[n].procs[key] == Run(tape, p, 0, |at|)
  }

  lemma CallMove(states: seq<State>, moves: seq<Move>, key: ObjectKey, n: nat)
    requires Trace(states, moves) && n < |moves| && moves[n].Call? && moves[n].key == key
    ensures key in states[n].procs && key in states[n + 1].procs
    ensures states[n + 1].procs[key] == Step(TickOf(states[n].world, moves[n]), states[n].procs[key]).proc
  {
    hide Step;
    assert Apply(states[n], moves[n]) == Some(states[n + 1]);
  }

  lemma OneCallMore(states: seq<State>, moves: seq<Move>, key: ObjectKey, n: nat, begin: nat, p: Proc,
                    tape: nat -> Tick, at: seq<nat>) returns (tape': nat -> Tick)
    requires Trace(states, moves) && n < |moves| && PassOf(states, moves, key, n, begin, p, tape, at)
    requires moves[n].Call? && moves[n].key == key
    ensures PassOf(states, moves, key, n + 1, begin, p, tape', at + [n])
  {
    hide Step, BeganWith;
    CallMove(states, moves, key, n);
    hide Trace;
    var at' := at + [n];
    tape' := (k: nat) => if k == |at| then TickOf(states[n].world, moves[n]) else tape(k);
    forall k: nat | k < |at'| ensures PlaysAt(states, moves, key, p, tape', k, at'[k]) {
      Tapes.RunAgrees(Step, tape, tape', p, 0, k);
      if k < |at| {
        assert PlaysAt(states, moves, key, p, tape, k, at[k]);
      }
    }
    Tapes.RunAgrees(Step, tape, tape', p, 0, |at|);
    assert Run(tape', p, 0, |at'|) == Step(tape'(|at|), Run(tape', p, 0, |at|)).proc;
  }

  lemma OtherMove(states: seq<State>, moves: seq<Move>, key: ObjectKey, n: nat)
    requires Trace(states, moves) && n < |moves| && key in states[n + 1].procs
    requires !(moves[n].Call? && moves[n].key == key) && !(moves[n].Begin? && moves[n].key == key)
    ensures key in states[n].procs && states[n + 1].procs[key] == states[n].procs[key]
  {
    hide Step;
    assert Apply(states[n], moves[n]) == Some(states[n + 1]);
  }

  lemma BeginMove(states: seq<State>, moves: seq<Move>, key: ObjectKey, n: nat)
    requires Trace(states, moves) && n < |moves| && moves[n].Begin? && moves[n].key == key
    requires forall k | k in states[n].world.cluster :: states[n].world.cluster[k].key == k
    ensures key in states[n + 1].procs && BeganWith(states, n + 1, states[n + 1].procs[key])
  {
    assert Apply(states[n], moves[n]) == Some(states[n + 1]);
    assert states[n + 1].world == states[n].world;
  }

  lemma KeysAgreeIn(states: seq<State>, moves: seq<Move>, n: nat)
    requires Trace(states, moves) && Initial(states[0]) && n < |states|
    ensures forall k | k in states[n].world.cluster :: states[n].world.cluster[k].key == k
  {
    RunInvariant(states, moves, n);
  }

  /** In every run, every pass at every state is the pass its beginning and its calls make. */
  lemma {:induction false} PassFollowsTape(states: seq<State>, moves: seq<Move>, key: ObjectKey, n: nat)
      returns (begin: nat, p: Proc, tape: nat -> Tick, at: seq<nat>)
    requires Trace(states, moves) && Initial(states[0]) && n < |states| && key in states[n].procs
    ensures PassOf(states, moves, key, n, begin, p, tape, at)
    decreases n
  {
    var move := if n > 0 then moves[n - 1] else DropClient("");
    if n > 0 && move.Begin? && move.key == key {
      KeysAgreeIn(states, moves, n - 1);
      BeginMove(states, moves, key, n - 1);
      begin, p, at := n, states[n].procs[key], [];
      tape := (k: nat) => Tick(states[0].world, false, "", "", 0, map[], map[]);
    } else if n > 0 {
      if !(move.Call? && move.key == key) {
        OtherMove(states, moves, key, n - 1);
      } else {
        CallMove(states, moves, key, n - 1);
      }
      hide Apply, Step;
      begin, p, tape, at := PassFollowsTape(states, moves, key, n - 1);
      if move.Call? && move.key == key {
        tape := OneCallMore(states, moves, key, n - 1, begin, p, tape, at);
        at := at + [n - 1];
      }
    }
  }

  /** No pass of any run creates a client over a tracked one that is there. */
  lemma NoCreateOverLiveClient(states: seq<State>, moves: seq<Move>, key: ObjectKey, n: nat) returns (i: nat)
    requires Trace(states, moves) && Initial(states[0]) && n < |states|
    requires key in states[n].procs && states[n].procs[key].pc.Create?
    ensures i < n && moves[i].Call? && moves[i].key == key && key in states[i].procs && states[i].procs[key].pc.Fetch?
    ensures var obj := states[i].procs[key].obj; var id := obj.status.clientUuid;
      id == "" || (!moves[i].fault && !states[i].world.Live(obj.spec.realm.name, id))
  {
    var begin, p, tape, at := PassFollowsTape(states, moves, key, n);
    var m := |at|;
    hide Step, Trace, Initial;
    i := at[m - 1];
    assert PlaysAt(states, moves, key, p, tape, m - 1, i);
    var q := Run(tape, p, 0, m - 1);
    assert Run(tape, p, 0, m) == Step(tape(m - 1), q).proc;
    CameFrom(tape(m - 1), q);
    FetchOne(tape(m - 1), q);
  }

  /** In every run, a pass that is about to report Ready got to its client, found or made it, and dealt with its roles,
      its state and its secret, in the worlds its calls met. */
  lemma ReadyInRuns(states: seq<State>, moves: seq<Move>, key: ObjectKey, n: nat)
      returns (begin: nat, obj: Client, tape: nat -> Tick, at: seq<nat>)
    requires Trace(states, moves) && Initial(states[0]) && n < |states| && key in states[n].procs
    requires Reports(states[n].procs[key]) && states[n].procs[key].pc.result.ready
    ensures PassOf(states, moves, key, n, begin, Start(obj), tape, at)
    ensures Succeeds(tape, obj, |at|)
  {
    var p;
    begin, p, tape, at := PassFollowsTape(states, moves, key, n);
    obj := p.obj;
    hide Step, Trace, Initial, Succeeds;
    ReadyExactly(tape, obj, |at|);
  }
}
