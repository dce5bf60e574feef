/** Every pass of every run is a pass along a tape: what GroupOutcomes says of passes holds in runs, whatever is
    interleaved. */
module GroupRunOutcomes {
  import opened Common
  import opened GroupTypes
  import opened GroupPass
  import opened GroupRuns
  import opened GroupOutcomes
  import Tapes
  import Traces

  function Meets(w: World, m: Move): Tick
    requires m.Call?
  {
    Tick(w, m.fault, m.id, m.text, m.now)
  }

  // The moves numbered at[0], at[1], ... make the calls of the pass `pid`, on these worlds, from its beginning p on.
  ghost predicate Plays(states: seq<State>, moves: seq<Move>, pid: nat, p: Proc, tape: nat -> Tick, at: seq<nat>)
    requires |states| == |moves| + 1
  {
    && (forall k: nat | k < |at| :: PlaysAt(states, moves, pid, p, tape, k, at[k]))
    && forall k: nat, l: nat | k < l < |at| :: at[k] < at[l]
  }

  // Move i is call k of the pass.
  ghost predicate PlaysAt(states: seq<State>, moves: seq<Move>, pid: nat, p: Proc, tape: nat -> Tick, k: nat, i: nat)
    requires |states| == |moves| + 1
  {
    && i < |moves| && moves[i].Call? && moves[i].pid == pid
    && tape(k) == Meets(states[i].world, moves[i])
    && pid in states[i].procs && states[i].procs[pid] == Run(tape, p, 0, k)
  }

  // The pass read its object at this state.
  ghost predicate BeganWith(states: seq<State>, begin: nat, p: Proc) {
    && begin < |states|
    && exists obj, early: Option<Result> ::
         p == Begun(obj, early) && (early.Some? ==> !early.value.ready)
         && obj.key in states[begin].world.cluster && states[begin].world.cluster[obj.key] == obj
  }

  // Where the pass that is `pid` at state n began, and the calls it has made since.
  ghost predicate PassOf(states: seq<State>, moves: seq<Move>, pid: nat, n: nat, begin: nat, p: Proc, tape: nat -> Tick,
                         at: seq<nat>)
    requires |states| == |moves| + 1
  {
    && n < |states| && begin <= n && pid in states[n].procs
    && BeganWith(states, begin, p) && Plays(states, moves, pid, p, tape, at)
    && (|at| > 0 ==> begin <= at[0] && at[|at| - 1] < n)
    && states[n].procs[pid] == Run(tape, p, 0, |at|)
  }

  lemma CallMove(states: seq<State>, moves: seq<Move>, pid: nat, n: nat)
    requires Trace(states, moves) && n < |moves| && moves[n].Call? && moves[n].pid == pid
    ensures pid in states[n].procs && pid in states[n + 1].procs
    ensures states[n + 1].procs[pid] == Step(Meets(states[n].world, moves[n]), states[n].procs[pid]).proc
  {
    hide Step;
    assert Apply(states[n], moves[n]) == Some(states[n + 1]);
  }

  lemma OneCallMore(states: seq<State>, moves: seq<Move>, pid: nat, n: nat, begin: nat, p: Proc, tape: nat -> Tick,
                    at: seq<nat>) returns (tape': nat -> Tick)
    requires Trace(states, moves) && n < |moves| && PassOf(states, moves, pid, n, begin, p, tape, at)
    requires moves[n].Call? && moves[n].pid == pid
    ensures PassOf(states, moves, pid, n + 1, begin, p, tape', at + [n])
  {
    hide Step, BeganWith;
    CallMove(states, moves, pid, n);
    hide Trace;
    var at' := at + [n];
    tape' := (k: nat) => if k == |at| then Meets(states[n].world, moves[n]) else tape(k);
    forall k: nat | k < |at'| ensures PlaysAt(states, moves, pid, p, tape', k, at'[k]) {
      Tapes.RunAgrees(Step, tape, tape', p, 0, k);
      if k < |at| {
        assert PlaysAt(states, moves, pid, p, tape, k, at[k]);
      }
    }
    Tapes.RunAgrees(Step, tape, tape', p, 0, |at|);
    assert Run(tape', p, 0, |at'|) == Step(tape'(|at|), Run(tape', p, 0, |at|)).proc;
  }

  lemma OtherMove(states: seq<State>, moves: seq<Move>, pid: nat, n: nat)
    requires Trace(states, moves) && n < |moves| && pid in states[n + 1].procs
    requires !(moves[n].Call? && moves[n].pid == pid) && !(moves[n].Begin? && moves[n].pid == pid)
    ensures pid in states[n].procs && states[n + 1].procs[pid] == states[n].procs[pid]
  {
    hide Step;
    assert Apply(states[n], moves[n]) == Some(states[n + 1]);
  }

  lemma BeginMove(states: seq<State>, moves: seq<Move>, pid: nat, n: nat)
    requires Trace(states, moves) && n < |moves| && moves[n].Begin? && moves[n].pid == pid
    requires forall k | k in states[n].world.cluster :: states[n].world.cluster[k].key == k
    ensures pid in states[n + 1].procs && BeganWith(states, n + 1, states[n + 1].procs[pid])
  {
    assert Apply(states[n], moves[n]) == Some(states[n + 1]);
    var obj := states[n].world.cluster[moves[n].key];
    assert states[n + 1].procs[pid] == Begun(obj, moves[n].early);
    assert states[n + 1].world == states[n].world;
  }

  lemma KeysAgreeIn(states: seq<State>, moves: seq<Move>, n: nat)
    requires Trace(states, moves) && Initial(states[0]) && n < |states|
    ensures forall k | k in states[n].world.cluster :: states[n].world.cluster[k].key == k
  {
    RunInvariant(states, moves, n);
  }

  /** In every run, every pass at every state is the pass its beginning and its calls make. */
  lemma {:induction false} PassFollowsTape(states: seq<State>, moves: seq<Move>, pid: nat, n: nat)
      returns (begin: nat, p: Proc, tape: nat -> Tick, at: seq<nat>)
    requires Trace(states, moves) && Initial(states[0]) && n < |states| && pid in states[n].procs
    ensures PassOf(states, moves, pid, n, begin, p, tape, at)
    decreases n
  {
    var move := if n > 0 then moves[n - 1] else DropGroup("");
    if n > 0 && move.Begin? && move.pid == pid {
      KeysAgreeIn(states, moves, n - 1);
      BeginMove(states, moves, pid, n - 1);
      begin, p, at := n, states[n].procs[pid], [];
      tape := (k: nat) => Tick(states[0].world, false, "", "", 0);
    } else if n > 0 {
      if !(move.Call? && move.pid == pid) {
        OtherMove(states, moves, pid, n - 1);
      } else {
        CallMove(states, moves, pid, n - 1);
      }
      hide Apply, Step;
      begin, p, tape, at := PassFollowsTape(states, moves, pid, n - 1);
      if move.Call? && move.pid == pid {
        tape := OneCallMore(states, moves, pid, n - 1, begin, p, tape, at);
        at := at + [n - 1];
      }
    }
  }

  /** No pass of any run creates a group over a tracked one that is there: before every create, the pass has asked for
      what it tracked, and the answer was that it is not in the realm. */
  lemma NoCreateOverLiveGroup(states: seq<State>, moves: seq<Move>, pid: nat, n: nat) returns (i: nat)
    requires Trace(states, moves) && Initial(states[0]) && n < |states|
    requires pid in states[n].procs && states[n].procs[pid].pc.Create?
    ensures i < n && moves[i].Call? && moves[i].pid == pid && pid in states[i].procs && states[i].procs[pid].pc.Fetch?
    ensures var obj := states[i].procs[pid].obj; var id := obj.status.groupUuid;
      id == "" || (!moves[i].fault && !states[i].world.keycloak.Live(obj.spec.realm, id))
  {
    var begin, p, tape, at := PassFollowsTape(states, moves, pid, n);
    var m := |at|;
    hide Step, Trace, Initial;
    if m == 0 {
      BegunNotCreating(p, states, begin);
    }
    i := at[m - 1];
    assert PlaysAt(states, moves, pid, p, tape, m - 1, i);
    var q := Run(tape, p, 0, m - 1);
    assert Run(tape, p, 0, m) == Step(tape(m - 1), q).proc;
    CameFrom(tape(m - 1), q);
    FetchOne(tape(m - 1), q);
  }

  lemma BegunNotCreating(p: Proc, states: seq<State>, begin: nat)
    requires BeganWith(states, begin, p)
    ensures !p.pc.Create?
  {
  }

  /** In every run, a pass that is about to report Ready has had its parent resolved and its group kept or made, in the
      worlds its calls met. */
  lemma ReadyInRuns(states: seq<State>, moves: seq<Move>, pid: nat, n: nat)
      returns (begin: nat, obj: Group, tape: nat -> Tick, at: seq<nat>, h: nat, parent: Uuid)
    requires Trace(states, moves) && Initial(states[0]) && n < |states| && pid in states[n].procs
    requires Reports(states[n].procs[pid]) && states[n].procs[pid].pc.result.ready
    ensures PassOf(states, moves, pid, n, begin, Start(obj), tape, at)
    ensures Succeeds(tape, obj, h, parent, |at|)
  {
    var p;
    begin, p, tape, at := PassFollowsTape(states, moves, pid, n);
    obj := p.obj;
    hide Step, Trace, Initial, Succeeds;
    EarlyNeverReady(states, begin, p, tape, |at|);
    ReadyExactly(tape, obj, |at|);
    h, parent :| Succeeds(tape, obj, h, parent, |at|);
  }

  lemma EarlyNeverReady(states: seq<State>, begin: nat, p: Proc, tape: nat -> Tick, n: nat)
    requires BeganWith(states, begin, p) && Reports(Run(tape, p, 0, n)) && Run(tape, p, 0, n).pc.result.ready
    ensures p == Start(p.obj)
  {
    if p.pc.ReadStatus? && n > 0 {
      RankRisesLater(tape, p, 0, 0, n);
    }
  }
}
