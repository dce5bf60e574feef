/** What becomes of one tracked client: as long as the object refers to the same realm, the very client that was
    tracked is gone from that realm when the object is. */
module ClientIdentity {
  import opened Common
  import opened ClientPass
  import opened ClientRuns
  import opened ClientSafety
  import F = ClientFields
  import S = ClientStatus

  // What a pass holds against what is stored: the stored identifier is the one it holds, or is dead in its realm.
  predicate Holds(w: World, p: Proc) {
    p.obj.key in w.cluster && !p.pc.Done? ==>
      var stored := w.cluster[p.obj.key].status.clientUuid;
      stored in {"", p.obj.status.clientUuid} || !w.Live(p.obj.spec.realm.name, stored)
  }

  ghost predicate AllHold(s: State) {
    forall key | key in s.procs :: Holds(s.world, s.procs[key])
  }

  // ---- One call of the pass itself ----

  lemma PreparingHolds(t: Tick, p: Proc)
    requires WorldInv(t.world) && ProcInv(t.world, p) && Holds(t.world, p)
    requires p.pc.Config? || p.pc.AddFinalizer? || p.pc.CheckRealm? || p.pc.SetOwner? || p.pc.FindRealm?
          || p.pc.RemoveFinalizer?
    ensures Holds(Step(t, p).world, Step(t, p).proc)
  {
    hide RetryState, PcInv, SaysNotReady, WorldInv;
  }

  lemma ClientHolds(t: Tick, p: Proc)
    requires WorldInv(t.world) && ProcInv(t.world, p) && Holds(t.world, p)
    requires p.pc.Fetch? || p.pc.Lookup? || p.pc.SyncRoles? || p.pc.FetchCurrent? || p.pc.SyncSecret?
          || p.pc.DeleteRoles?
    ensures Holds(Step(t, p).world, Step(t, p).proc)
  {
    hide RetryState, WorldInv;
  }

  lemma OnlyKeycloakChanges(t: Tick, p: Proc)
    requires p.pc.Create? || p.pc.Update? || p.pc.DeleteClient?
    ensures Step(t, p).world.cluster == t.world.cluster && Step(t, p).proc.obj == p.obj
  {
    hide F.ClientDiffs, F.ApplyChanges, F.BuildClient;
  }

  lemma KeycloakHolds(t: Tick, p: Proc)
    requires WorldInv(t.world) && ProcInv(t.world, p) && Holds(t.world, p)
    requires p.pc.Create? || p.pc.Update? || p.pc.DeleteClient?
    ensures Holds(Step(t, p).world, Step(t, p).proc)
  {
    hide Step, Evolves, PcInv, RetryState;
    StepKeeps(t, p);
    OnlyKeycloakChanges(t, p);
    if p.obj.key in t.world.cluster {
      var stored := t.world.cluster[p.obj.key].status.clientUuid;
      if !t.world.Live(p.obj.spec.realm.name, stored) {
        GoneForGood(t.world, Step(t, p).world, p.obj.spec.realm.name, stored);
      }
    }
  }

  lemma ReportHolds(t: Tick, p: Proc)
    requires Holds(t.world, p)
    requires p.pc.ReadStatus? || p.pc.WriteStatus? || p.pc.Done?
    ensures Holds(Step(t, p).world, Step(t, p).proc)
  {
    hide S.MergeStatus;
  }

  lemma StepHolds(t: Tick, p: Proc)
    requires WorldInv(t.world) && ProcInv(t.world, p) && Holds(t.world, p)
    ensures Holds(Step(t, p).world, Step(t, p).proc)
  {
    hide Step, Holds, WorldInv, ProcInv;
    match p.pc
    case Create => KeycloakHolds(t, p);
    case Update(_) => KeycloakHolds(t, p);
    case DeleteClient => KeycloakHolds(t, p);
    case Fetch => ClientHolds(t, p);
    case Lookup => ClientHolds(t, p);
    case SyncRoles(_) => ClientHolds(t, p);
    case FetchCurrent(_) => ClientHolds(t, p);
    case SyncSecret(_) => ClientHolds(t, p);
    case DeleteRoles => ClientHolds(t, p);
    case ReadStatus(_) => ReportHolds(t, p);
    case WriteStatus(_, _) => ReportHolds(t, p);
    case Done(_) => ReportHolds(t, p);
    case _ => PreparingHolds(t, p);
  }

  // ---- Every run ----

  // The identifier recorded for an object changes only by a call of the object's own pass.
  lemma OnlyOwnCallsRecord(s: State, m: Move, key: ObjectKey)
    requires RunInv(s) && Apply(s, m).Some? && !(m.Call? && m.key == key)
    requires key in Apply(s, m).value.world.cluster
    ensures var after := Apply(s, m).value.world.cluster[key].status.clientUuid;
      if key in s.world.cluster then after == s.world.cluster[key].status.clientUuid else after == ""
  {
    if m.Call? {
      var t := TickOf(s.world, m);
      StepKeeps(t, s.procs[m.key]);
    }
    hide Step;
  }

  lemma MoveHolds(s: State, m: Move)
    requires RunInv(s) && AllHold(s) && Apply(s, m).Some?
    ensures AllHold(Apply(s, m).value)
  {
    var s' := Apply(s, m).value;
    WorldsEvolve(s, m);
    hide Step;
    forall key | key in s'.procs ensures Holds(s'.world, s'.procs[key]) {
      if m.Call? && m.key == key {
        StepHolds(TickOf(s.world, m), s.procs[key]);
      } else if m != Begin(key) {
        assert s'.procs[key] == s.procs[key] && s.procs[key].obj.key == key;
        if key in s'.world.cluster {
          OnlyOwnCallsRecord(s, m, key);
        }
        hide Apply, Evolves, WorldInv;
        StillHolds(s.world, s'.world, s.procs[key]);
      }
    }
  }

  lemma WorldsEvolve(s: State, m: Move)
    requires RunInv(s) && Apply(s, m).Some?
    ensures WorldInv(Apply(s, m).value.world) && Evolves(s.world, Apply(s, m).value.world)
  {
    hide Step;
    if m.Call? {
      StepKeeps(TickOf(s.world, m), s.procs[m.key]);
    } else {
      EnvironmentKeeps(s, m);
    }
  }

  lemma StillHolds(w: World, w': World, p: Proc)
    requires WorldInv(w) && WorldInv(w') && Evolves(w, w') && Holds(w, p)
    requires p.obj.key in w'.cluster ==>
      var after := w'.cluster[p.obj.key].status.clientUuid;
      if p.obj.key in w.cluster then after == w.cluster[p.obj.key].status.clientUuid else after == ""
    ensures Holds(w', p)
  {
    if p.obj.key in w.cluster && p.obj.key in w'.cluster {
      var stored := w.cluster[p.obj.key].status.clientUuid;
      assert Known(w, stored);
      if !w.Live(p.obj.spec.realm.name, stored) {
        GoneForGood(w, w', p.obj.spec.realm.name, stored);
      }
    }
  }

  lemma {:induction false} RunHolds(states: seq<State>, moves: seq<Move>, n: nat)
    requires Trace(states, moves) && Initial(states[0]) && n < |states|
    ensures AllHold(states[n])
    decreases n
  {
    if n > 0 {
      RunHolds(states, moves, n - 1);
      RunInvariant(states, moves, n - 1);
      assert Apply(states[n - 1], moves[n - 1]) == Some(states[n]);
      MoveHolds(states[n - 1], moves[n - 1]);
    }
  }

  // ---- One client ----

  // The object still has its finalizer and refers to `realm`, and so does a pass under way; the client `id` is still
  // tracked, or gone from the realm.
  ghost predicate Followed(s: State, key: ObjectKey, realm: string, id: Uuid) {
    && FinalizerStored(s.world, key) && s.world.cluster[key].spec.realm.name == realm
    && (key in s.procs && !s.procs[key].pc.Done? ==> s.procs[key].obj.spec.realm.name == realm)
    && id in s.world.issued
    && (s.world.cluster[key].status.clientUuid == id || !s.world.Live(realm, id))
  }

  lemma EarlySpecStays(t: Tick, p: Proc)
    requires p.pc.Config? || p.pc.AddFinalizer? || p.pc.CheckRealm? || p.pc.SetOwner? || p.pc.Fetch? || p.pc.Create?
          || p.pc.Lookup? || p.pc.Update?
    ensures Step(t, p).proc.obj.spec == p.obj.spec
  {
    hide F.ClientDiffs, F.ApplyChanges, F.BuildClient, ClientIdTaken, SaysNotReady, Resolve;
  }

  lemma LateSpecStays(t: Tick, p: Proc)
    requires !p.pc.Config? && !p.pc.AddFinalizer? && !p.pc.CheckRealm? && !p.pc.SetOwner? && !p.pc.Fetch?
    requires !p.pc.Create? && !p.pc.Lookup? && !p.pc.Update?
    ensures Step(t, p).proc.obj.spec == p.obj.spec
  {
    hide S.MergeStatus, S.StatusUnchanged, Resolve;
  }

  lemma SpecStays(t: Tick, p: Proc)
    ensures Step(t, p).proc.obj.spec == p.obj.spec
  {
    hide Step;
    if p.pc.Config? || p.pc.AddFinalizer? || p.pc.CheckRealm? || p.pc.SetOwner? || p.pc.Fetch? || p.pc.Create?
       || p.pc.Lookup? || p.pc.Update? {
      EarlySpecStays(t, p);
    } else {
      LateSpecStays(t, p);
    }
  }

  // A pass records nothing but what it holds.
  lemma WritesWhatItHolds(t: Tick, p: Proc)
    requires ProcInv(t.world, p) && p.pc.WriteStatus? && p.obj.key in t.world.cluster
    ensures p.obj.key in Step(t, p).world.cluster && Step(t, p).world.cluster[p.obj.key].status.clientUuid
         in {t.world.cluster[p.obj.key].status.clientUuid, p.obj.status.clientUuid}
  {
    hide RetryState;
  }

  lemma PutRecordsNothing(t: Tick, p: Proc, wanted: Client, next: Pc, failed: Proc)
    requires p.obj.key in t.world.cluster
    ensures var w' := StepPut(t, p, wanted, next, failed).world;
      p.obj.key in w'.cluster && w'.cluster[p.obj.key].status == t.world.cluster[p.obj.key].status
  {
  }

  lemma OthersRecordNothing(t: Tick, p: Proc)
    requires !p.pc.WriteStatus? && !p.pc.AddFinalizer? && !p.pc.SetOwner? && !p.pc.RemoveFinalizer?
    ensures Step(t, p).world.cluster == t.world.cluster
  {
    hide StepWriteStatus, StepPut, StepConfig, StepCheckRealm, StepFetch, StepLookup, StepFetchCurrent, StepSyncSecret,
         StepFindRealm, StepReadStatus, F.ClientDiffs, F.ApplyChanges, F.BuildClient, ClientIdTaken;
  }

  lemma RecordsNothing(t: Tick, p: Proc)
    requires !p.pc.WriteStatus? && p.obj.key in t.world.cluster
    ensures p.obj.key in Step(t, p).world.cluster
    ensures Step(t, p).world.cluster[p.obj.key].status == t.world.cluster[p.obj.key].status
  {
    hide StepPut;
    match p.pc
    case AddFinalizer => PutRecordsNothing(t, p, p.obj.(finalizer := true), CheckRealm, p.(pc := Done(Failed)));
    case SetOwner(uid) => PutRecordsNothing(t, p, Owned(p.obj, uid), Fetch, Report(p, true, OWNER_FAILED + t.text));
    case RemoveFinalizer(_) => PutRecordsNothing(t, p, p.obj.(finalizer := false), Done(Stopped),
        p.(pc := Done(Failed)));
    case _ => OthersRecordNothing(t, p);
  }

  lemma OwnCallFollows(t: Tick, p: Proc, realm: string, id: Uuid)
    requires ProcInv(t.world, p) && Holds(t.world, p) && !p.pc.Done? && p.obj.spec.realm.name == realm
    requires p.obj.key in t.world.cluster && id != ""
    requires t.world.cluster[p.obj.key].status.clientUuid == id || !t.world.Live(realm, id)
    ensures p.obj.key in Step(t, p).world.cluster
    ensures Step(t, p).world.cluster[p.obj.key].status.clientUuid == id || !t.world.Live(realm, id)
  {
    hide Step;
    if p.pc.WriteStatus? {
      WritesWhatItHolds(t, p);
    } else {
      RecordsNothing(t, p);
    }
  }

  lemma DoneIsDone(t: Tick, p: Proc)
    requires p.pc.Done?
    ensures Step(t, p).world == t.world && Step(t, p).proc == p
  {
  }

  lemma MoveKeepsGone(s: State, m: Move, realm: string, id: Uuid)
    requires RunInv(s) && Apply(s, m).Some? && id in s.world.issued && !s.world.Live(realm, id)
    ensures var w' := Apply(s, m).value.world; id in w'.issued && !w'.Live(realm, id)
  {
    WorldsEvolve(s, m);
    hide Apply;
    GoneForGood(s.world, Apply(s, m).value.world, realm, id);
  }

  lemma FollowedOn(s: State, m: Move, key: ObjectKey, realm: string, id: Uuid)
    requires RunInv(s) && AllHold(s) && Apply(s, m).Some? && Followed(s, key, realm, id)
    requires var w' := Apply(s, m).value.world; FinalizerStored(w', key) && w'.cluster[key].spec.realm.name == realm
    ensures Followed(Apply(s, m).value, key, realm, id)
  {
    WorldsEvolve(s, m);
    assert id != "";
    if !s.world.Live(realm, id) {
      MoveKeepsGone(s, m, realm, id);
    }
    hide Step, Evolves, WorldInv, ProcInv;
    if m.Call? && m.key == key {
      var t, p := TickOf(s.world, m), s.procs[key];
      assert p.obj.key == key;
      if p.pc.Done? {
        DoneIsDone(t, p);
      } else {
        SpecStays(t, p);
        OwnCallFollows(t, p, realm, id);
      }
    } else {
      OnlyOwnCallsRecord(s, m, key);
    }
  }

  lemma {:induction false} StaysGone(states: seq<State>, moves: seq<Move>, i: nat, j: nat, realm: string, id: Uuid)
    requires Trace(states, moves) && Initial(states[0]) && i <= j < |states|
    requires id in states[i].world.issued && !states[i].world.Live(realm, id)
    ensures id in states[j].world.issued && !states[j].world.Live(realm, id)
    decreases j
  {
    hide Apply, RunInv, Initial;
    if i < j {
      StaysGone(states, moves, i, j - 1, realm, id);
      RunInvariant(states, moves, j - 1);
      assert Apply(states[j - 1], moves[j - 1]) == Some(states[j]);
      MoveKeepsGone(states[j - 1], moves[j - 1], realm, id);
    }
  }

  // From state i to state k the object has had its finalizer.
  ghost predicate ProtectedUpTo(states: seq<State>, key: ObjectKey, i: nat, k: nat) {
    k < |states| && forall l | i <= l <= k :: FinalizerStored(states[l].world, key)
  }

  ghost predicate NoRealmSeen(states: seq<State>, key: ObjectKey, n: nat) {
    n < |states| && key in states[n].world.cluster
    && exists m :: SawNoRealm(states, Proc(states[n].world.cluster[key], RemoveFinalizer(RealmAbsent), 0, []), m, n)
  }

  lemma {:induction false} FollowedToTheEnd(states: seq<State>, moves: seq<Move>, key: ObjectKey, realm: string,
                                            id: Uuid, i: nat, j: nat) returns (n: nat)
    requires Trace(states, moves) && Initial(states[0]) && i <= j < |states|
    requires Followed(states[i], key, realm, id) && states[i].world.cluster[key].status.clientUuid != ""
    requires forall k | i <= k <= j && ProtectedUpTo(states, key, i, k) ::
      states[k].world.cluster[key].spec.realm.name == realm
    requires key !in states[j].world.cluster
    ensures i <= n < j && SafeRemoval(states, moves, key, n) && states[n].world.cluster[key].status.clientUuid != ""
    ensures !states[j].world.Live(realm, id) || NoRealmSeen(states, key, n)
    decreases j - i
  {
    RunInvariant(states, moves, i);
    RunHolds(states, moves, i);
    assert Apply(states[i], moves[i]) == Some(states[i + 1]);
    hide Apply, RunInv, AllHold;
    if FinalizerStored(states[i + 1].world, key) {
      assert ProtectedUpTo(states, key, i, i + 1);
      UuidStays(states[i], moves[i], key);
      FollowedOn(states[i], moves[i], key, realm, id);
      forall k | i + 1 <= k <= j && ProtectedUpTo(states, key, i + 1, k)
        ensures states[k].world.cluster[key].spec.realm.name == realm
      {
        assert ProtectedUpTo(states, key, i, k);
      }
      n := FollowedToTheEnd(states, moves, key, realm, id, i + 1, j);
    } else {
      RemovalIsSafe(states, moves, i, key);
      n := i;
      if !NoRealmSeen(states, key, i) {
        StaysGone(states, moves, i, j, realm, id);
      }
    }
  }

  /** The client that was tracked is gone: suppose an object tracked `id` under its finalizer at state i, referred to
      one realm until the finalizer went, a pass under way at state i worked in that realm, and the object is gone
      at state j. Then `id` no longer lives in the realm, or the pass that took the finalizer saw no Realm object. */
  lemma TrackedClientIsGone(states: seq<State>, moves: seq<Move>, key: ObjectKey, realm: string,
                                               i: nat, j: nat) returns (n: nat)
    requires Trace(states, moves) && Initial(states[0]) && i <= j < |states|
    requires FinalizerStored(states[i].world, key) && states[i].world.cluster[key].status.clientUuid != ""
    requires forall k | i <= k <= j && ProtectedUpTo(states, key, i, k) ::
      states[k].world.cluster[key].spec.realm.name == realm
    requires key in states[i].procs && !states[i].procs[key].pc.Done? ==>
      states[i].procs[key].obj.spec.realm.name == realm
    requires key !in states[j].world.cluster
    ensures i <= n < j && SafeRemoval(states, moves, key, n)
    ensures !states[j].world.Live(realm, states[i].world.cluster[key].status.clientUuid) || NoRealmSeen(states, key, n)
  {
    RunInvariant(states, moves, i);
    assert ProtectedUpTo(states, key, i, i);
    assert ObjectInv(states[i].world, states[i].world.cluster[key]);
    n := FollowedToTheEnd(states, moves, key, realm, states[i].world.cluster[key].status.clientUuid, i, j);
  }
}
