/** What the finalizer is for, over whole runs: Keycloak clients are created under its protection, and it is only
    taken away once the tracked client is gone. */
module ClientSafety {
  import opened Common
  import opened ClientPass
  import opened ClientRuns
  import F = ClientFields
  import S = ClientStatus

  // ---- Creation ----

  lemma OnlyCreateAdds(t: Tick, p: Proc, id: Uuid)
    requires id in Step(t, p).world.clients && id !in t.world.clients
    ensures p.pc.Create?
  {
    if p.pc.Update? {
      UpdateAddsNothing(t, p);
    }
    hide F.ClientDiffs, F.ApplyChanges, F.BuildClient;
  }

  lemma UpdateAddsNothing(t: Tick, p: Proc)
    requires p.pc.Update?
    ensures Step(t, p).world.clients.Keys == t.world.clients.Keys
  {
    hide F.ClientDiffs, F.BuildClient;
  }

  /** Whenever a pass adds a client to Keycloak, the finalizer of its object is stored at that moment. */
  lemma CreationIsProtected(states: seq<State>, moves: seq<Move>, n: nat, id: Uuid)
    requires Trace(states, moves) && Initial(states[0]) && n < |moves| && moves[n].Call?
    requires id in states[n + 1].world.clients && id !in states[n].world.clients
    ensures FinalizerStored(states[n].world, moves[n].key)
    ensures moves[n].key in states[n].procs
    ensures states[n + 1].world.clients[id] == Built(states[n].procs[moves[n].key].obj, id)
  {
    RunInvariant(states, moves, n);
    assert Apply(states[n], moves[n]) == Some(states[n + 1]);
    var t, p := TickOf(states[n].world, moves[n]), states[n].procs[moves[n].key];
    OnlyCreateAdds(t, p, id);
    assert ProcInv(states[n].world, p);
    assert Step(t, p) == StepCreate(t, p);
  }

  // ---- Deletion ----

  // The call on a client object that takes its finalizer away.
  lemma OnlyRemoveUnprotects(t: Tick, p: Proc, key: ObjectKey)
    requires WorldInv(t.world) && ProcInv(t.world, p)
    requires FinalizerStored(t.world, key) && !FinalizerStored(Step(t, p).world, key)
    ensures p.pc.RemoveFinalizer? && key == p.obj.key && t.world.cluster[key] == p.obj
  {
    hide F.ClientDiffs, F.ApplyChanges, F.BuildClient, S.MergeStatus, WorldInv;
  }

  // The Realm object was absent when this very pass looked for it, at state m.
  ghost predicate SawNoRealm(states: seq<State>, p: Proc, m: nat, n: nat) {
    && m < n < |states|
    && RealmKey(p.obj) !in states[m].world.realms
    && p.obj.key in states[m].procs && states[m].procs[p.obj.key] == p.(pc := FindRealm)
    && forall k | m < k <= n :: p.obj.key in states[k].procs && states[k].procs[p.obj.key] == p
  }

  lemma OnlyFindRealm(t: Tick, p: Proc)
    requires Step(t, p).proc.pc == RemoveFinalizer(RealmAbsent) && !p.pc.RemoveFinalizer?
    ensures p.pc.FindRealm? && RealmKey(p.obj) !in t.world.realms && p == Step(t, p).proc.(pc := FindRealm)
  {
    hide F.ClientDiffs, F.ApplyChanges, F.BuildClient, S.MergeStatus, S.StatusUnchanged, SaysNotReady, ClientIdTaken,
        Resolve, Built;
  }

  // A pass in the middle got there by a call of its own, or was there before.
  lemma OwnCallsOnly(s: State, m: Move, key: ObjectKey)
    requires Apply(s, m).Some? && key in Apply(s, m).value.procs && !Apply(s, m).value.procs[key].pc.Config?
    ensures key in s.procs
    ensures m.Call? && m.key == key ==> Apply(s, m).value.procs[key] == Step(TickOf(s.world, m), s.procs[key]).proc
    ensures !(m.Call? && m.key == key) ==> Apply(s, m).value.procs[key] == s.procs[key]
  {
    hide Step;
  }

  lemma {:induction false} RealmWasAbsent(states: seq<State>, moves: seq<Move>, n: nat, key: ObjectKey) returns (m: nat)
    requires Trace(states, moves) && Initial(states[0]) && n < |states|
    requires key in states[n].procs && states[n].procs[key].pc == RemoveFinalizer(RealmAbsent)
    ensures SawNoRealm(states, states[n].procs[key], m, n)
    decreases n
  {
    hide Step;
    RunInvariant(states, moves, n);
    hide RunInv;
    assert n > 0;
    RunInvariant(states, moves, n - 1);
    var s, move, p := states[n - 1], moves[n - 1], states[n].procs[key];
    assert Apply(s, move) == Some(states[n]);
    OwnCallsOnly(s, move, key);
    hide Apply;
    KeysMatch(states[n], key);
    if move.Call? && move.key == key {
      RemovalIsLast(TickOf(s.world, move), s.procs[key]);
      OnlyFindRealm(TickOf(s.world, move), s.procs[key]);
      m := n - 1;
    } else {
      m := RealmWasAbsent(states, moves, n - 1, key);
    }
  }

  lemma KeysMatch(s: State, key: ObjectKey)
    requires RunInv(s) && key in s.procs
    ensures s.procs[key].obj.key == key
  {
  }

  lemma RemovalIsLast(t: Tick, p: Proc)
    ensures p.pc.RemoveFinalizer? ==> Step(t, p).proc.pc.Done?
  {
  }

  /** At move n the operator takes the finalizer from an object that is marked for deletion, and whose tracked client
      does not exist, or is not in the realm the object refers to, or whose Realm object was absent in this pass. */
  ghost predicate SafeRemoval(states: seq<State>, moves: seq<Move>, key: ObjectKey, n: nat) {
    && n < |moves| < |states| && moves[n].Call? && moves[n].key == key
    && FinalizerStored(states[n].world, key)
    && var g := states[n].world.cluster[key];
       g.deleting
       && (g.status.clientUuid == ""
           || !states[n].world.Live(g.spec.realm.name, g.status.clientUuid)
           || exists m :: SawNoRealm(states, Proc(g, RemoveFinalizer(RealmAbsent), 0, []), m, n))
  }

  /** Every removal of the finalizer, in every run, is safe. */
  lemma RemovalIsSafe(states: seq<State>, moves: seq<Move>, n: nat, key: ObjectKey)
    requires Trace(states, moves) && Initial(states[0]) && n < |moves|
    requires FinalizerStored(states[n].world, key) && !FinalizerStored(states[n + 1].world, key)
    ensures SafeRemoval(states, moves, key, n)
  {
    RunInvariant(states, moves, n);
    assert Apply(states[n], moves[n]) == Some(states[n + 1]);
    var s, move := states[n], moves[n];
    if !move.Call? {
      EnvironmentKeeps(s, move);
      assert false;
    } else {
      var t, p := TickOf(s.world, move), s.procs[move.key];
      assert p.obj.key == move.key && ProcInv(s.world, p);
      OnlyRemoveUnprotects(t, p, key);
      if p.pc.reason == RealmAbsent {
        var m := RealmWasAbsent(states, moves, n, key);
        assert p == Proc(s.world.cluster[key], RemoveFinalizer(RealmAbsent), 0, []);
      }
    }
  }

  lemma UuidStays(s: State, m: Move, key: ObjectKey)
    requires RunInv(s) && Apply(s, m).Some? && key in s.world.cluster && key in Apply(s, m).value.world.cluster
    requires s.world.cluster[key].status.clientUuid != ""
    ensures Apply(s, m).value.world.cluster[key].status.clientUuid != ""
  {
    if m.Call? {
      StepKeeps(TickOf(s.world, m), s.procs[m.key]);
    } else {
      EnvironmentKeeps(s, m);
    }
  }

  /** When an object that tracked a client under the finalizer has disappeared, somewhere on the way its finalizer was
      removed safely while it tracked a client, not necessarily the same one. Module ClientIdentity says what becomes
      of the very client that was tracked. */
  lemma {:induction false} TrackedClientIsCleanedUp(states: seq<State>, moves: seq<Move>, key: ObjectKey, i: nat,
      j: nat)
    returns (n: nat)
    requires Trace(states, moves) && Initial(states[0]) && i <= j < |states|
    requires FinalizerStored(states[i].world, key) && states[i].world.cluster[key].status.clientUuid != ""
    requires key !in states[j].world.cluster
    ensures i <= n < j && SafeRemoval(states, moves, key, n)
    ensures states[n].world.cluster[key].status.clientUuid != ""
    decreases j - i
  {
    RunInvariant(states, moves, i);
    assert Apply(states[i], moves[i]) == Some(states[i + 1]);
    if FinalizerStored(states[i + 1].world, key) {
      UuidStays(states[i], moves[i], key);
      n := TrackedClientIsCleanedUp(states, moves, key, i + 1, j);
    } else {
      RemovalIsSafe(states, moves, i, key);
      n := i;
    }
  }

  /** A failed update goes unnoticed: the pass carries on the same way, and the client matches its spec exactly if
      it did before or the update went through. */
  lemma UpdateFailureIsSwallowed(t: Tick, p: Proc)
    requires WorldInv(t.world) && p.pc.Update? && p.pc.found.id in t.world.clients
    requires t.world.clients[p.pc.found.id] == p.pc.found
    ensures var e := Step(t, p); var spec := p.obj.spec.fields;
      e.proc.pc.SyncRoles? && e.proc.obj == p.obj
      && (e.proc.pc.changed <==> !F.Matches(spec, p.pc.found) && !t.fault)
      && (F.Matches(spec, e.world.clients[p.pc.found.id]) <==> F.Matches(spec, p.pc.found) || !t.fault)
  {
    F.NoDiffsMeansMatch(p.obj.spec.fields, p.pc.found);
    F.BuildAndApplyMatch(p.obj.spec.fields, p.pc.found, p.pc.found, "");
    hide F.ClientDiffs, F.ApplyChanges, F.BuildClient, F.Matches;
  }
}
