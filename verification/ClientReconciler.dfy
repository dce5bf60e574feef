/** The client controller's methods, as the code has them: an object updated in place, early returns, the loop of
    the status retries. Every method is proved to perform, call by call, the pass of module ClientPass on the
    worlds its calls meet; the results about passes and their runs therefore hold of this code. */
module ClientReconciler {
  import opened Common
  import opened ClientPass
  import F = ClientFields
  import S = ClientStatus
  import opened Replies
  import Outcomes = ClientOutcomes
  import Tapes

  ghost predicate Ran(tape: nat -> Tick, p: Proc, lo: nat, effects: seq<World>, q: Proc) {
    Tapes.Ran(Step, tape, p, lo, effects, q)
  }

  lemma RanThen(tape: nat -> Tick, p: Proc, lo: nat, first: seq<World>, q: Proc, both: seq<World>, r: Proc)
    requires Ran(tape, p, lo, first, q) && Ran(tape, q, |first|, both, r) && first <= both
    ensures Ran(tape, p, lo, both, r)
  {
    Tapes.RanThen(Step, tape, p, lo, first, q, both, r);
  }

  lemma RanFirst(tape: nat -> Tick, p: Proc, effects: seq<World>)
    ensures Ran(tape, p, |effects|, effects + [Step(tape(|effects|), p).world], Step(tape(|effects|), p).proc)
  {
    Tapes.RanNone(Step, tape, p, effects);
    Tapes.RanOne(Step, tape, p, |effects|, effects, p, Step(tape(|effects|), p));
  }

  // Merging this status into the stored one leaves the stored identifiers as they are.
  predicate KeepsIdentifiers(latest: S.Status, held: S.Status, result: S.Result, now: int) {
    var merged := S.MergeStatus(latest, held, result, now);
    merged.clientUuid == latest.clientUuid && S.Roles(merged) == S.Roles(latest)
  }

  class Reconciler {
    // The worlds the calls of this pass meet.
    const tape: nat -> Tick

    var obj: Client
    // What each call made so far left behind.
    var effects: seq<World>
    var attempts: nat
    var writes: seq<StatusWrite>

    ghost function At(pc: Pc): Proc
      reads this
    {
      Proc(obj, pc, attempts, writes)
    }

    ghost function Reporting(realmReady: bool, message: string): Proc
      reads this
    {
      At(ReadStatus(S.Result(false, realmReady, message)))
    }

    constructor (tape: nat -> Tick, obj: Client)
      ensures this.tape == tape && this.obj == obj
      ensures At(Config) == Start(obj) && effects == []
    {
      this.tape := tape;
      this.obj := obj;
      effects, attempts, writes := [], 0, [];
    }

    // ---- API calls ----

    // A point where the pass makes no call.
    method Proceed()
      modifies this`effects
      ensures effects == old(effects) + [tape(old(|effects|)).world]
    {
      effects := effects + [tape(|effects|).world];
    }

    method GetRealm(key: ObjectKey) returns (r: Reply<Realm>)
      modifies this`effects
      ensures effects == old(effects) + [tape(old(|effects|)).world]
      ensures var t := tape(old(|effects|));
        r == if t.fault then Failure(t.text) else if key in t.world.realms then Found(t.world.realms[key]) else NotFound
    {
      var t := tape(|effects|);
      effects := effects + [t.world];
      r := if t.fault then Failure(t.text) else if key in t.world.realms then Found(t.world.realms[key]) else NotFound;
    }

    method GetOpenidClient(realm: string, id: Uuid) returns (r: Reply<F.OpenidClient>)
      modifies this`effects
      ensures effects == old(effects) + [tape(old(|effects|)).world]
      ensures var t := tape(old(|effects|));
        r == if t.fault then Failure(t.text)
             else if t.world.Live(realm, id) then Found(t.world.clients[id])
             else NotFound
    {
      var t := tape(|effects|);
      effects := effects + [t.world];
      r := if t.fault then Failure(t.text)
           else if t.world.Live(realm, id) then Found(t.world.clients[id])
           else NotFound;
    }

    method NewOpenidClient(c: F.OpenidClient) returns (r: Reply<()>)
      modifies this`effects
      ensures var t := tape(old(|effects|));
        if !t.fault && ClientIdTaken(t.world, c.realmId, c.clientId) then
          r == Refused && effects == old(effects) + [t.world]
        else if t.fault || t.id == "" || t.id in t.world.issued then
          r == Failure(t.text) && effects == old(effects) + [t.world]
        else
          r == Found(()) && effects == old(effects) + [t.world.(
            clients := t.world.clients[t.id := c.(id := t.id)], issued := t.world.issued + {t.id},
            roles := t.world.roles[t.id := map[]])]
    {
      var t := tape(|effects|);
      var w := t.world;
      if !t.fault && ClientIdTaken(w, c.realmId, c.clientId) {
        r := Refused;
      } else if t.fault || t.id == "" || t.id in w.issued {
        r := Failure(t.text);
      } else {
        r := Found(());
        w := w.(clients := w.clients[t.id := c.(id := t.id)], issued := w.issued + {t.id},
            roles := w.roles[t.id := map[]]);
      }
      effects := effects + [w];
    }

    method GetOpenidClientByClientId(realm: string, clientId: string) returns (r: Reply<Uuid>)
      modifies this`effects
      ensures effects == old(effects) + [tape(old(|effects|)).world]
      ensures var t := tape(old(|effects|));
        r == if t.fault || !t.world.Live(realm, t.id) || t.world.clients[t.id].clientId != clientId
             then Failure(t.text) else Found(t.id)
    {
      var t := tape(|effects|);
      effects := effects + [t.world];
      r := if t.fault || !t.world.Live(realm, t.id) || t.world.clients[t.id].clientId != clientId
           then Failure(t.text) else Found(t.id);
    }

    method UpdateOpenidClient(c: F.OpenidClient) returns (ok: bool)
      modifies this`effects
      ensures var t := tape(old(|effects|));
        ok == (!t.fault && c.id in t.world.clients)
        && effects == old(effects) + [if ok then t.world.(clients := t.world.clients[c.id := c]) else t.world]
    {
      var t := tape(|effects|);
      ok := !t.fault && c.id in t.world.clients;
      effects := effects + [if ok then t.world.(clients := t.world.clients[c.id := c]) else t.world];
    }

    method DeleteOpenidClient(realm: string, id: Uuid) returns (r: Reply<()>)
      modifies this`effects
      ensures var t := tape(old(|effects|));
        r == (if t.fault then Failure(t.text) else if t.world.Live(realm, id) then Found(()) else NotFound)
        && effects == old(effects) + [if r.Found? then t.world.(clients := t.world.clients - {id}) else t.world]
    {
      var t := tape(|effects|);
      r := if t.fault then Failure(t.text) else if t.world.Live(realm, id) then Found(()) else NotFound;
      effects := effects + [if r.Found? then t.world.(clients := t.world.clients - {id}) else t.world];
    }

    // The main resource: replaced under the version in memory, which then is what the server answered.
    method Put(wanted: Client, ghost p: Proc, ghost next: Pc, ghost failed: Proc) returns (failure: Option<string>)
      requires p == At(p.pc) && wanted.key == obj.key
      modifies this`obj, this`effects
      ensures var e := StepPut(tape(old(|effects|)), p, wanted, next, failed);
        effects == old(effects) + [e.world] && e.proc == if failure.None? then At(next) else failed
      ensures failure.Some? ==> obj == old(obj) && failure.value == tape(old(|effects|)).text
    {
      var t := tape(|effects|);
      var key := obj.key;
      if t.fault || key !in t.world.cluster || t.world.cluster[key].version != obj.version {
        effects := effects + [t.world];
        return Some(t.text);
      }
      var written := wanted.(status := t.world.cluster[key].status, version := t.world.revision + 1);
      effects := effects + [t.world.(cluster := t.world.cluster[key := written], revision := t.world.revision + 1)];
      obj := written;
      return None;
    }

    method GetObject(key: ObjectKey) returns (r: Reply<Client>)
      modifies this`effects
      ensures effects == old(effects) + [tape(old(|effects|)).world]
      ensures var t := tape(old(|effects|));
        r == if t.fault then Failure(t.text)
             else if key in t.world.cluster then Found(t.world.cluster[key])
             else NotFound
    {
      var t := tape(|effects|);
      effects := effects + [t.world];
      r := if t.fault then Failure(t.text)
           else if key in t.world.cluster then Found(t.world.cluster[key])
           else NotFound;
    }

    // The status subresource: replaced under the version that was read, refused as a conflict otherwise.
    method PutStatus(latest: Client, result: S.Result) returns (r: Reply<()>)
      modifies this`effects, this`writes
      ensures var t := tape(old(|effects|));
        var e := StepWriteStatus(t, old(At(WriteStatus(result, latest))), result, latest);
        effects == old(effects) + [e.world]
        && (if t.fault || obj.key !in t.world.cluster then r == Failure(t.text) && writes == old(writes)
            else if t.world.cluster[obj.key].version != latest.version then r == Refused && writes == old(writes)
            else r == Found(()) && writes == e.proc.writes
                 && |writes| > 0 && writes[|writes| - 1].written.status == e.proc.obj.status)
    {
      var t := tape(|effects|);
      if t.fault || obj.key !in t.world.cluster {
        effects := effects + [t.world];
        return Failure(t.text);
      }
      var stored := t.world.cluster[obj.key];
      if stored.version != latest.version {
        effects := effects + [t.world];
        return Refused;
      }
      var written := ApplyStatusUpdate(stored.(status := latest.status), result, t.now);
      written := written.(version := t.world.revision + 1);
      effects := effects + [t.world.(cluster := t.world.cluster[obj.key := written], revision := t.world.revision + 1)];
      writes := writes + [StatusWrite(stored, written, obj.status, result, t.now)];
      return Found(());
    }

    // ---- Before the client itself ----

    // The KeycloakInstanceConfig, and a connection to what it describes.
    method GetKeycloakClient() returns (failure: Option<string>)
      modifies this`effects
      ensures effects == old(effects) + [tape(old(|effects|)).world]
      ensures var t := tape(old(|effects|));
        failure == if t.fault || ConfigKey(obj) !in t.world.configs then Some(t.text)
                   else if !t.world.configs[ConfigKey(obj)] then Some("KeycloakInstanceConfig " + NOT_READY)
                   else None
    {
      var t := tape(|effects|);
      effects := effects + [t.world];
      if t.fault || ConfigKey(obj) !in t.world.configs {
        return Some(t.text);
      }
      if !t.world.configs[ConfigKey(obj)] {
        return Some("KeycloakInstanceConfig " + NOT_READY);
      }
      return None;
    }

    method EnsureFinalizer() returns (ok: bool)
      modifies this`obj, this`effects
      ensures old(effects) <= effects
      ensures Ran(tape, old(At(if obj.finalizer then CheckRealm else AddFinalizer)), old(|effects|), effects,
                  At(if ok then CheckRealm else Done(Failed)))
    {
      if obj.finalizer {
        Tapes.RanNone(Step, tape, At(CheckRealm), effects);
        return true;
      }
      ghost var p := At(AddFinalizer);
      RanFirst(tape, p, effects);
      var failure := Put(obj.(finalizer := true), p, CheckRealm, At(Done(Failed)));
      return failure.None?;
    }

    ghost function AfterRealm(uid: string): Pc
      reads this
    {
      if OwnedBy(obj, uid) || RealmKey(obj).namespace != obj.key.namespace then Fetch else SetOwner(uid)
    }

    method ValidateRealm() returns (uid: string, result: Option<S.Result>)
      modifies this`effects
      ensures old(effects) <= effects
      ensures Ran(tape, old(At(CheckRealm)), old(|effects|), effects,
                  At(if result.Some? then ReadStatus(result.value) else AfterRealm(uid)))
      ensures result.None? <==> Outcomes.RealmUsable(tape(old(|effects|)), obj)
      ensures result.None? ==> uid == tape(old(|effects|)).world.realms[RealmKey(obj)].uid
    {
      RanFirst(tape, At(CheckRealm), effects);
      var realm := GetRealm(RealmKey(obj));
      if realm.Failure? {
        return "", Some(S.Result(false, false, REALM_FAILED + realm.text));
      } else if realm.NotFound? {
        return "", Some(S.Result(false, false, REALM_MISSING));
      } else if !realm.value.ready {
        return "", Some(S.Result(false, false, REALM_NOT_READY));
      }
      return realm.value.uid, None;
    }

    method SetOwnerReference(uid: string) returns (failure: Option<string>)
      modifies this`obj, this`effects
      ensures old(effects) <= effects
      ensures Ran(tape, old(At(AfterRealm(uid))), old(|effects|), effects,
                  if failure.None? then At(Fetch) else Reporting(true, OWNER_FAILED + failure.value))
    {
      if OwnedBy(obj, uid) || RealmKey(obj).namespace != obj.key.namespace {
        Tapes.RanNone(Step, tape, At(Fetch), effects);
        return None;
      }
      ghost var p, text := At(SetOwner(uid)), tape(|effects|).text;
      RanFirst(tape, p, effects);
      failure := Put(Owned(obj, uid), p, Fetch, Reporting(true, OWNER_FAILED + text));
    }

    // ---- The client ----

    method ClearClientState()
      modifies this`obj
      ensures obj == SetUuid(old(obj), "", map[])
      ensures forall latest: S.Status, result: S.Result, now: int :: KeepsIdentifiers(latest, obj.status, result, now)
    {
      forall latest: S.Status, result: S.Result, now: int
        ensures KeepsIdentifiers(latest, SetUuid(obj, "", map[]).status, result, now)
      {
        assert S.Roles(SetUuid(obj, "", map[]).status) == map[];
      }
      obj := obj.(status := obj.status.(clientUuid := ""));
      obj := obj.(status := obj.status.(roleUuids := Some(map[])));
    }

    method GetOrCreateClient() returns (found: Option<F.OpenidClient>, failure: Option<string>)
      requires attempts == 0
      modifies this`obj, this`effects
      ensures old(effects) <= effects
      ensures Ran(tape, old(At(Fetch)), old(|effects|), effects,
                  if failure.Some? then Reporting(true, CLIENT_FAILED + failure.value)
                  else if found.Some? then At(Update(found.value))
                  else At(SyncRoles(true)))
      ensures found.Some? <==> Outcomes.Found(tape(old(|effects|)), old(obj))
      ensures failure.None? && found.None? ==> Outcomes.Absent(tape(old(|effects|)), old(obj))
      ensures old(obj.status.clientUuid) != "" && tape(old(|effects|)).fault ==>
        failure.Some? && obj == old(obj) && |effects| == old(|effects|) + 1
    {
      ghost var p, lo := At(Fetch), |effects|;
      RanFirst(tape, p, effects);
      if obj.status.clientUuid != "" {
        var reply := GetOpenidClient(obj.spec.realm.name, obj.status.clientUuid);
        if reply.Failure? {
          return None, Some(reply.text);
        }
        if reply.Found? {
          return Some(reply.value), None;
        }
        ClearClientState();
      } else {
        Proceed();
      }
      assert Ran(tape, p, lo, effects, At(Create));
      ghost var before, q := effects, At(Create);
      failure := CreateNewClient();
      RanThen(tape, p, lo, before, q, effects,
              if failure.Some? then Reporting(true, CLIENT_FAILED + failure.value) else At(SyncRoles(true)));
      return None, failure;
    }

    method CreateNewClient() returns (failure: Option<string>)
      modifies this`obj, this`effects
      ensures old(effects) <= effects
      ensures Ran(tape, old(At(Create)), old(|effects|), effects,
                  if failure.Some? then Reporting(true, CLIENT_FAILED + failure.value) else At(SyncRoles(true)))
    {
      ghost var p, lo := At(Create), |effects|;
      RanFirst(tape, p, effects);
      var created := NewOpenidClient(F.BuildClient(obj.spec.fields, obj.spec.realm.name));
      if created.Refused? {
        return Some("client exists in Keycloak but UUID not tracked");
      }
      if created.Failure? {
        return Some(created.text);
      }
      assert Ran(tape, p, lo, effects, At(Lookup));
      ghost var before := effects;
      failure := StoreClientUuid();
      RanThen(tape, p, lo, before, old(At(Lookup)), effects,
              if failure.Some? then Reporting(true, CLIENT_FAILED + failure.value) else At(SyncRoles(true)));
    }

    method StoreClientUuid() returns (failure: Option<string>)
      modifies this`obj, this`effects
      ensures old(effects) <= effects
      ensures Ran(tape, old(At(Lookup)), old(|effects|), effects,
                  if failure.Some? then Reporting(true, CLIENT_FAILED + failure.value) else At(SyncRoles(true)))
    {
      RanFirst(tape, At(Lookup), effects);
      var id := GetOpenidClientByClientId(obj.spec.realm.name, obj.spec.fields.clientId);
      if id.Failure? {
        return Some(id.text);
      }
      obj := obj.(status := obj.status.(clientUuid := id.value));
      obj := obj.(status := obj.status.(roleUuids := Some(map[])));
      return None;
    }

    method UpdateClientIfNeeded(found: F.OpenidClient) returns (changed: bool)
      modifies this`effects
      ensures old(effects) <= effects
      ensures Ran(tape, old(At(Update(found))), old(|effects|), effects, At(SyncRoles(changed)))
    {
      RanFirst(tape, At(Update(found)), effects);
      F.BuildAndApplyMatch(obj.spec.fields, found, found, "");
      var diffs := F.GetClientDiffs(obj.spec.fields, found);
      hide F.ClientDiffs, F.ApplyChanges, F.Matches;
      if |diffs| == 0 {
        Proceed();
        return false;
      }
      var updated := F.ApplyChangesToClient(obj.spec.fields, found);
      changed := UpdateOpenidClient(updated);
    }

    // The role pass, whose loops are RoleReconciler's: here it is one step, and what it leaves in Keycloak and in
    // memory is on the tape.
    method ReconcileClientRoles() returns (failure: Option<string>)
      modifies this`obj, this`effects
      ensures var t := tape(old(|effects|));
        effects == old(effects) + [t.world.(roles := t.world.roles[old(obj).status.clientUuid := t.roles])]
        && obj == SetUuid(old(obj), old(obj).status.clientUuid, t.tracked)
        && failure == if t.fault then Some(t.text) else None
    {
      var t := tape(|effects|);
      effects := effects + [t.world.(roles := t.world.roles[obj.status.clientUuid := t.roles])];
      obj := obj.(status := obj.status.(roleUuids := Some(t.tracked)));
      failure := if t.fault then Some(t.text) else None;
    }

    // The secret, which is neither in this world nor in the object.
    method ReconcileClientSecret() returns (failure: Option<string>)
      modifies this`effects
      ensures effects == old(effects) + [tape(old(|effects|)).world]
      ensures var t := tape(old(|effects|)); failure == if t.fault then Some(t.text) else None
    {
      var t := tape(|effects|);
      effects := effects + [t.world];
      failure := if t.fault then Some(t.text) else None;
    }

    function Success(changed: bool): S.Result {
      S.Result(true, true, if changed then CHANGED else UNCHANGED)
    }

    /** A tracked client is reported Ready exactly if its roles, its state and its secret were dealt with without a
        failure. */
    method ReconcileRolesAndSecret(changed: bool) returns (result: S.Result)
      requires attempts == 0
      modifies this`obj, this`effects
      ensures old(effects) <= effects
      ensures Ran(tape, old(At(SyncRoles(changed))), old(|effects|), effects, At(ReadStatus(result)))
      ensures old(obj).status.clientUuid != "" ==>
        result.realmReady
        && (result.ready <==> Outcomes.Completed(tape, old(obj).spec.realm.name, old(|effects|),
                                                 old(obj).status.clientUuid))
    {
      hide Step;
      ghost var p, lo := At(SyncRoles(changed)), |effects|;
      result := DealWithRolesAndSecret(changed);
      if p.obj.status.clientUuid != "" {
        Outcomes.RolesOutcome(tape, p, lo, |effects|);
      }
    }

    method DealWithRolesAndSecret(changed: bool) returns (result: S.Result)
      modifies this`obj, this`effects
      ensures old(effects) <= effects
      ensures Ran(tape, old(At(SyncRoles(changed))), old(|effects|), effects, At(ReadStatus(result)))
    {
      ghost var p, lo := At(SyncRoles(changed)), |effects|;
      RanFirst(tape, p, effects);
      if obj.status.clientUuid == "" {
        Proceed();
        return Success(changed);
      }
      var failure := ReconcileClientRoles();
      if failure.Some? {
        return S.Result(false, true, ROLES_FAILED + failure.value);
      }
      assert Ran(tape, p, lo, effects, At(FetchCurrent(changed)));
      ghost var before, q := effects, At(FetchCurrent(changed));
      result := ReconcileSecret(changed);
      RanThen(tape, p, lo, before, q, effects, At(ReadStatus(result)));
    }

    // With the client as Keycloak now has it.
    method ReconcileSecret(changed: bool) returns (result: S.Result)
      modifies this`effects
      ensures old(effects) <= effects
      ensures Ran(tape, old(At(FetchCurrent(changed))), old(|effects|), effects, At(ReadStatus(result)))
    {
      ghost var p, lo := At(FetchCurrent(changed)), |effects|;
      RanFirst(tape, p, effects);
      var current := GetOpenidClient(obj.spec.realm.name, obj.status.clientUuid);
      if !current.Found? {
        return S.Result(false, true, FETCH_FAILED + tape(|effects| - 1).text);
      }
      assert Ran(tape, p, lo, effects, At(SyncSecret(changed)));
      ghost var before := effects;
      result := ReportSecret(changed);
      RanThen(tape, p, lo, before, At(SyncSecret(changed)), effects, At(ReadStatus(result)));
    }

    method ReportSecret(changed: bool) returns (result: S.Result)
      modifies this`effects
      ensures old(effects) <= effects
      ensures Ran(tape, old(At(SyncSecret(changed))), old(|effects|), effects, At(ReadStatus(result)))
    {
      RanFirst(tape, At(SyncSecret(changed)), effects);
      var failure := ReconcileClientSecret();
      return if failure.Some? then S.Result(false, true, SECRET_FAILED + failure.value) else Success(changed);
    }

    /** reconcileClient, up to the status it reports: Ready exactly if the client was found, or was absent and was made,
        and its roles, its state and its secret were dealt with without a failure. */
    method ReconcileClient() returns (result: S.Result)
      requires attempts == 0
      modifies this`obj, this`effects
      ensures old(effects) <= effects
      ensures Ran(tape, old(At(Fetch)), old(|effects|), effects, At(ReadStatus(result)))
      ensures result.realmReady
      ensures result.ready <==> exists k: nat, id: Uuid ::
        Outcomes.Through(tape, old(|effects|), old(obj), k, id, |effects|)
    {
      hide Step;
      ghost var p, lo := At(Fetch), |effects|;
      result := SyncClient();
      Outcomes.FetchOutcome(tape, p, lo, |effects|);
    }

    method SyncClient() returns (result: S.Result)
      requires attempts == 0
      modifies this`obj, this`effects
      ensures old(effects) <= effects
      ensures Ran(tape, old(At(Fetch)), old(|effects|), effects, At(ReadStatus(result)))
    {
      hide Step;
      ghost var p, lo := At(Fetch), |effects|;
      var found, failure := GetOrCreateClient();
      if failure.Some? {
        return S.Result(false, true, CLIENT_FAILED + failure.value);
      }
      var changed := true;
      ghost var before, q := effects, if found.Some? then At(Update(found.value)) else At(SyncRoles(true));
      if found.Some? {
        changed := UpdateClientIfNeeded(found.value);
        RanThen(tape, p, lo, before, q, effects, At(SyncRoles(changed)));
      }
      before, q := effects, At(SyncRoles(changed));
      result := ReconcileRolesAndSecret(changed);
      RanThen(tape, p, lo, before, q, effects, At(ReadStatus(result)));
    }

    // ---- Deletion ----

    /** What is left to do after Keycloak: take the finalizer away, unless something failed. */
    method DeleteClientFromKeycloak() returns (ok: bool, ghost reason: Reason)
      requires obj.finalizer
      modifies this`effects
      ensures old(effects) <= effects
      ensures Ran(tape, old(At(BeginDelete(obj))), old(|effects|), effects,
                  At(if ok then RemoveFinalizer(reason) else Done(Failed)))
    {
      ghost var p, lo := At(BeginDelete(obj)), |effects|;
      reason := Untracked;
      if obj.status.clientUuid == "" {
        Tapes.RanNone(Step, tape, p, effects);
        return true, reason;
      }
      RanFirst(tape, p, effects);
      var realm := GetRealm(RealmKey(obj));
      if realm.Failure? {
        return false, reason;
      }
      if realm.NotFound? {
        return true, RealmAbsent;
      }
      assert Ran(tape, p, lo, effects, At(DeleteRoles));
      ghost var before, q := effects, At(DeleteRoles);
      ok := DeleteRolesAndClient();
      reason := Gone;
      RanThen(tape, p, lo, before, q, effects, At(if ok then RemoveFinalizer(Gone) else Done(Failed)));
    }

    method DeleteRolesAndClient() returns (ok: bool)
      modifies this`effects
      ensures old(effects) <= effects
      ensures Ran(tape, old(At(DeleteRoles)), old(|effects|), effects,
          At(if ok then RemoveFinalizer(Gone) else Done(Failed)))
    {
      ghost var p, lo := At(DeleteRoles), |effects|;
      RanFirst(tape, p, effects);
      DeleteClientRoles();
      assert Ran(tape, p, lo, effects, At(DeleteClient));
      ghost var before := effects;
      ok := DeleteTheClient();
      RanThen(tape, p, lo, before, At(DeleteClient), effects, At(if ok then RemoveFinalizer(Gone) else Done(Failed)));
    }

    method DeleteTheClient() returns (ok: bool)
      modifies this`effects
      ensures old(effects) <= effects
      ensures Ran(tape, old(At(DeleteClient)), old(|effects|), effects,
          At(if ok then RemoveFinalizer(Gone) else Done(Failed)))
    {
      RanFirst(tape, At(DeleteClient), effects);
      var reply := DeleteOpenidClient(obj.spec.realm.name, obj.status.clientUuid);
      return !reply.Failure?;
    }

    // The deletion of the tracked roles, whose loop is RoleReconciler's DeleteClientRoles: here it is one step, which
    // leaves some roles of this client behind, and makes no call if no role is tracked.
    method DeleteClientRoles()
      modifies this`effects
      ensures effects == old(effects) + [Step(tape(old(|effects|)), At(DeleteRoles)).world]
    {
      var t := tape(|effects|);
      if |S.Roles(obj.status)| == 0 {
        assert S.Roles(obj.status) == map[];
        effects := effects + [t.world];
      } else {
        assert S.Roles(obj.status) != map[];
        effects := effects + [t.world.(roles := t.world.roles[obj.status.clientUuid := t.roles])];
      }
    }

    method TakeFinalizer(ghost reason: Reason) returns (ok: bool)
      modifies this`obj, this`effects
      ensures old(effects) <= effects
      ensures Ran(tape, old(At(RemoveFinalizer(reason))), old(|effects|), effects,
          At(Done(if ok then Stopped else Failed)))
    {
      ghost var p := At(RemoveFinalizer(reason));
      RanFirst(tape, p, effects);
      var failure := Put(obj.(finalizer := false), p, Done(Stopped), At(Done(Failed)));
      return failure.None?;
    }

    method ReconcileDelete() returns (ok: bool)
      modifies this`obj, this`effects
      ensures old(effects) <= effects
      ensures Ran(tape, old(At(BeginDelete(obj))), old(|effects|), effects, At(Done(if ok then Stopped else Failed)))
    {
      ghost var p, lo := At(BeginDelete(obj)), |effects|;
      if !obj.finalizer {
        Tapes.RanNone(Step, tape, p, effects);
        return true;
      }
      hide Step, BeginDelete;
      ghost var reason;
      ok, reason := DeleteClientFromKeycloak();
      if ok {
        ghost var before, q := effects, At(RemoveFinalizer(reason));
        ok := TakeFinalizer(reason);
        RanThen(tape, p, lo, before, q, effects, At(Done(if ok then Stopped else Failed)));
      }
    }

    // ---- Status ----

    // The changes of applyStatusUpdate, field by field.
    method ApplyStatusUpdate(stored: Client, result: S.Result, now: int) returns (latest: Client)
      ensures latest == stored.(status := S.MergeStatus(stored.status, obj.status, result, now))
    {
      latest := stored;
      latest := latest.(status := latest.status.(ready := result.ready));
      latest := latest.(status := latest.status.(realmReady := result.realmReady));
      latest := latest.(status := latest.status.(message := result.message));
      latest := latest.(status := latest.status.(lastSync := Some(now)));
      if obj.status.clientUuid != "" {
        latest := latest.(status := latest.status.(clientUuid := obj.status.clientUuid));
      }
      if |S.Roles(obj.status)| > 0 {
        latest := latest.(status := latest.status.(roleUuids := obj.status.roleUuids));
      } else if latest.status.roleUuids.None? {
        latest := latest.(status := latest.status.(roleUuids := Some(map[])));
      }
    }

    method PerformStatusUpdate(result: S.Result) returns (reply: Reply<Outcome>)
      modifies this`obj, this`effects, this`attempts, this`writes
      ensures old(effects) <= effects && attempts == old(attempts) + 1 && |effects| <= old(|effects|) + 2
      ensures !reply.NotFound?
      ensures Ran(tape, old(At(ReadStatus(result))), old(|effects|), effects, At(AfterAttempt(result, reply)))
      ensures reply.Found? ==> !reply.value.Failed?
    {
      ghost var p, lo := At(ReadStatus(result)), |effects|;
      RanFirst(tape, p, effects);
      attempts := attempts + 1;
      var read := GetObject(obj.key);
      if read.Failure? {
        return Failure(read.text);
      } else if read.NotFound? {
        return Failure("not found");
      }
      var latest := read.value;
      if S.StatusUnchanged(latest.status, result) {
        obj := obj.(status := latest.status);
        return Found(Skipped);
      }
      assert Ran(tape, p, lo, effects, At(WriteStatus(result, latest)));
      ghost var before, q := effects, At(WriteStatus(result, latest));
      reply := WriteBack(result, latest);
      hide Step;
      RanThen(tape, p, lo, before, q, effects, At(AfterAttempt(result, reply)));
    }

    // Where an attempt to update the status leads.
    ghost function AfterAttempt(result: S.Result, reply: Reply<Outcome>): Pc
      reads this
    {
      match reply
      case Found(outcome) => Done(outcome)
      case Refused => if attempts < MAX_STATUS_ATTEMPTS then ReadStatus(result) else Done(Failed)
      case _ => Done(Failed)
    }

    method WriteBack(result: S.Result, latest: Client) returns (reply: Reply<Outcome>)
      modifies this`obj, this`effects, this`writes
      ensures old(effects) <= effects
      ensures !reply.NotFound? && (reply.Found? ==> reply.value == Written) && |effects| == old(|effects|) + 1
      ensures Ran(tape, old(At(WriteStatus(result, latest))), old(|effects|), effects, At(AfterAttempt(result, reply)))
    {
      RanFirst(tape, At(WriteStatus(result, latest)), effects);
      var put := PutStatus(latest, result);
      if put.Refused? {
        return Refused;
      } else if put.Failure? {
        return Failure(put.text);
      }
      obj := obj.(status := writes[|writes| - 1].written.status);
      return Found(Written);
    }

    /** The retry loop: it ends for every sequence of worlds, after three attempts at most, and reports an error exactly
        when the attempt that decides was broken, or was the third to meet a conflict. */
    method UpdateStatus(result: S.Result) returns (ok: bool, ghost outcome: Outcome)
      requires attempts == 0
      modifies this`obj, this`effects, this`attempts, this`writes
      ensures old(effects) <= effects && attempts <= 3
      ensures ok <==> Outcomes.Decision(tape, old(|effects|), old(obj.key), result)
                      in {Outcomes.Stored, Outcomes.Unneeded}
      ensures ok <==> !outcome.Failed?
      ensures Ran(tape, old(At(ReadStatus(result))), old(|effects|), effects, At(Done(outcome)))
    {
      hide Step;
      ghost var p, lo := At(ReadStatus(result)), |effects|;
      Tapes.RanNone(Step, tape, p, effects);
      for i := 0 to MAX_STATUS_ATTEMPTS
        invariant old(effects) <= effects && attempts == i && |effects| <= lo + 2 * i
        invariant Ran(tape, p, lo, effects, At(if i < MAX_STATUS_ATTEMPTS then ReadStatus(result) else Done(Failed)))
      {
        ghost var before, q := effects, At(ReadStatus(result));
        var reply := PerformStatusUpdate(result);
        RanThen(tape, p, lo, before, q, effects, At(AfterAttempt(result, reply)));
        if reply.Found? || reply.Failure? {
          Outcomes.StatusLoopDecides(tape, p, lo, |effects|);
          return reply.Found?, if reply.Found? then reply.value else Failed;
        }
      }
      Outcomes.StatusLoopDecides(tape, p, lo, |effects|);
      return false, Failed;
    }

    // ---- Reconcile ----

    // Everything up to the status of a Client that is not being deleted; `None` ends the pass with an error.
    method ReconcileNormally() returns (result: Option<S.Result>)
      requires attempts == 0
      modifies this`obj, this`effects
      ensures old(effects) <= effects
      ensures Ran(tape, old(At(if obj.finalizer then CheckRealm else AddFinalizer)), old(|effects|), effects,
                  At(if result.Some? then ReadStatus(result.value) else Done(Failed)))
    {
      hide Step, AfterRealm, Outcomes.Through;
      ghost var p, lo := At(if obj.finalizer then CheckRealm else AddFinalizer), |effects|;
      var ok := EnsureFinalizer();
      if !ok {
        return None;
      }
      ghost var before, q := effects, At(CheckRealm);
      var uid;
      uid, result := ValidateRealm();
      RanThen(tape, p, lo, before, q, effects, At(if result.Some? then ReadStatus(result.value) else AfterRealm(uid)));
      if result.Some? {
        return;
      }
      before, q := effects, At(AfterRealm(uid));
      var failure := SetOwnerReference(uid);
      if failure.Some? {
        RanThen(tape, p, lo, before, q, effects, Reporting(true, OWNER_FAILED + failure.value));
        return Some(S.Result(false, true, OWNER_FAILED + failure.value));
      }
      RanThen(tape, p, lo, before, q, effects, At(Fetch));
      before, q := effects, At(Fetch);
      var report := ReconcileClient();
      RanThen(tape, p, lo, before, q, effects, At(ReadStatus(report)));
      return Some(report);
    }

    lemma AfterConfig(t: Tick, failure: Option<string>)
      requires failure == if t.fault || ConfigKey(obj) !in t.world.configs then Some(t.text)
                          else if !t.world.configs[ConfigKey(obj)] then Some("KeycloakInstanceConfig " + NOT_READY)
                          else None
      ensures Step(t, At(Config)) == Tapes.Effect(t.world,
        if failure.None? then
          At(if obj.deleting then BeginDelete(obj) else if obj.finalizer then CheckRealm else AddFinalizer)
        else if obj.deleting && SaysNotReady(failure.value) then Reporting(false, DELETION_PENDING)
        else At(Done(Stopped)))
    {
      SuffixSaysNotReady("KeycloakInstanceConfig ");
    }

    // An object that is being deleted, once getKeycloakClient has answered.
    method ReconcileMarked(failure: Option<string>) returns (ok: bool, ghost outcome: Outcome)
      requires attempts == 0 && obj.deleting
      modifies this`obj, this`effects, this`attempts, this`writes
      ensures old(effects) <= effects
      ensures Ran(tape, old(if failure.None? then At(BeginDelete(obj))
                            else if SaysNotReady(failure.value) then Reporting(false, DELETION_PENDING)
                            else At(Done(Stopped))),
                  old(|effects|), effects, At(Done(outcome)))
    {
      hide Step, BeginDelete, SaysNotReady;
      if failure.None? {
        ok := ReconcileDelete();
        outcome := if ok then Stopped else Failed;
      } else if SaysNotReady(failure.value) {
        ok, outcome := UpdateStatus(S.Result(false, false, DELETION_PENDING));
        ok := true;
      } else {
        Tapes.RanNone(Step, tape, At(Done(Stopped)), effects);
        ok, outcome := false, Stopped;
      }
    }

    // An object that is not being deleted, with a connection at hand.
    method ReconcileUnmarked() returns (ok: bool, ghost outcome: Outcome)
      requires attempts == 0
      modifies this`obj, this`effects, this`attempts, this`writes
      ensures old(effects) <= effects
      ensures Ran(tape, old(At(if obj.finalizer then CheckRealm else AddFinalizer)), old(|effects|), effects,
          At(Done(outcome)))
    {
      hide Step;
      ghost var p, lo := At(if obj.finalizer then CheckRealm else AddFinalizer), |effects|;
      var result := ReconcileNormally();
      if result.None? {
        return false, Failed;
      }
      ghost var before, q := effects, At(ReadStatus(result.value));
      ok, outcome := UpdateStatus(result.value);
      RanThen(tape, p, lo, before, q, effects, At(Done(outcome)));
    }

    /** Reconcile: for every sequence of worlds it performs one whole pass and ends. */
    method Reconcile() returns (ok: bool, ghost outcome: Outcome)
      requires attempts == 0
      modifies this`obj, this`effects, this`attempts, this`writes
      ensures old(effects) <= effects
      ensures Ran(tape, old(At(Config)), old(|effects|), effects, At(Done(outcome)))
    {
      hide Step, BeginDelete, SaysNotReady;
      ghost var p, lo := At(Config), |effects|;
      RanFirst(tape, p, effects);
      var failure := GetKeycloakClient();
      AfterConfig(tape(lo), failure);
      ghost var before, q := effects, Step(tape(lo), p).proc;
      if obj.deleting {
        ok, outcome := ReconcileMarked(failure);
        RanThen(tape, p, lo, before, q, effects, At(Done(outcome)));
        return;
      }
      if failure.Some? {
        return false, Stopped;
      }
      ok, outcome := ReconcileUnmarked();
      RanThen(tape, p, lo, before, q, effects, At(Done(outcome)));
    }
  }

  lemma {:induction false} SuffixSaysNotReady(prefix: string)
    ensures SaysNotReady(prefix + NOT_READY)
  {
    if prefix != "" {
      assert (prefix + NOT_READY)[1..] == prefix[1..] + NOT_READY;
      SuffixSaysNotReady(prefix[1..]);
    } else {
      assert prefix + NOT_READY == NOT_READY;
    }
  }
}
