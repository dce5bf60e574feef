/** Whole runs of the client controller: passes over any number of Clients, interleaved call by call with each
    other and with everything else that touches the cluster and Keycloak. The work queue hands a Client to one
    pass at a time; a pass may be abandoned at any call (the operator restarts). */
module ClientRuns {
  import opened Common
  import opened ClientPass
  import F = ClientFields
  import S = ClientStatus
  import R = ClientRoles
  import Traces

  datatype State = State(world: World, procs: map<ObjectKey, Proc>)

  datatype Move =
    | Begin(key: ObjectKey)
    | Call(key: ObjectKey, fault: bool, id: Uuid, text: string, now: int,
           roles: map<Uuid, R.Role>, tracked: map<string, Uuid>)
    | Abandon(key: ObjectKey)
    | PutObject(object: Client)
    | DropObject(key: ObjectKey)
    | SetReadiness(configs: map<ObjectKey, bool>, realms: map<ObjectKey, Realm>)
    | PutClient(client: F.OpenidClient)
    | DropClient(id: Uuid)
    | SetRoles(all: map<Uuid, map<Uuid, R.Role>>)

  // What others may write: a new object has an empty status; an existing one keeps its finalizer, the operator's
  // status, and its deletion mark, all under a new version.
  predicate PutAllowed(w: World, g: Client) {
    && g.version == w.revision + 1
    && if g.key in w.cluster then
         var stored := w.cluster[g.key];
         (stored.finalizer ==> g.finalizer) && (stored.deleting ==> g.deleting)
         && g.status == stored.status.(secret := g.status.secret)
       else g.status == S.EMPTY_STATUS && !g.deleting
  }

  // Others may create clients under fresh identifiers and edit clients, which stay in their realm.
  predicate PutClientAllowed(w: World, c: F.OpenidClient) {
    if c.id in w.clients then c.realmId == w.clients[c.id].realmId else c.id != "" && c.id !in w.issued
  }

  function TickOf(w: World, m: Move): Tick
    requires m.Call?
  {
    Tick(w, m.fault, m.id, m.text, m.now, m.roles, m.tracked)
  }

  function Apply(s: State, m: Move): Option<State> {
    var w := s.world;
    match m
    case Begin(key) =>
      if key !in w.cluster || (key in s.procs && !s.procs[key].pc.Done?) then None
      else Some(s.(procs := s.procs[key := Start(w.cluster[key])]))
    case Call(key, _, _, _, _, _, _) =>
      if key !in s.procs then None
      else
        var e := Step(TickOf(w, m), s.procs[key]);
        Some(State(e.world, s.procs[key := e.proc]))
    case Abandon(key) => Some(s.(procs := s.procs - {key}))
    case PutObject(g) =>
      if !PutAllowed(w, g) then None
      else Some(s.(world := w.(cluster := w.cluster[g.key := g], revision := w.revision + 1)))
    case DropObject(key) =>
      // The API server keeps an object as long as it carries a finalizer.
      if key !in w.cluster || w.cluster[key].finalizer then None
      else Some(s.(world := w.(cluster := w.cluster - {key})))
    case SetReadiness(configs, realms) => Some(s.(world := w.(configs := configs, realms := realms)))
    case PutClient(c) =>
      if !PutClientAllowed(w, c) then None
      else Some(s.(world := w.(clients := w.clients[c.id := c], issued := w.issued + {c.id})))
    case DropClient(id) => Some(s.(world := w.(clients := w.clients - {id})))
    case SetRoles(all) => Some(s.(world := w.(roles := all)))
  }

  ghost predicate Trace(states: seq<State>, moves: seq<Move>) {
    Traces.Trace(Apply, states, moves)
  }

  // ---- Invariants ----

  predicate Known(w: World, id: Uuid) {
    id == "" || id in w.issued
  }

  // A stored object: identifiers are ones Keycloak issued, and Ready needs one.
  predicate ObjectInv(w: World, g: Client) {
    && g.version <= w.revision
    && Known(w, g.status.clientUuid)
    && (g.status.ready ==> g.status.clientUuid != "")
  }

  ghost predicate WorldInv(w: World) {
    && (forall k | k in w.cluster :: w.cluster[k].key == k && ObjectInv(w, w.cluster[k]))
    && (forall id | id in w.clients :: id in w.issued && w.clients[id].id == id)
    && "" !in w.issued
  }

  // A remembered object with the stored version is the stored object; otherwise the stored one is newer.
  ghost predicate Snapshot(w: World, g: Client) {
    && g.version <= w.revision
    && (g.key in w.cluster && w.cluster[g.key].version == g.version ==> w.cluster[g.key] == g)
  }

  predicate WellWritten(w: StatusWrite) {
    && w.written.version > w.replaced.version
    && w.written == w.replaced.(status := S.MergeStatus(w.replaced.status, w.original, w.result, w.now),
                                version := w.written.version)
  }

  ghost predicate FinalizerStored(w: World, key: ObjectKey) {
    key in w.cluster && w.cluster[key].finalizer
  }

  // The status loop: at most three attempts, nothing written before it ends, and its outcome tells what it wrote.
  predicate RetryState(p: Proc) {
    match p.pc
    case ReadStatus(_) => p.attempts < 3 && p.writes == []
    case WriteStatus(_, _) => 1 <= p.attempts <= 3 && p.writes == []
    case Done(outcome) => p.attempts <= 3 &&
      (if outcome.Written? then |p.writes| == 1 && WellWritten(p.writes[0]) else p.writes == [])
    case _ => p.attempts == 0 && p.writes == []
  }

  // What a pass knows where it is.
  ghost predicate PcInv(w: World, obj: Client, pc: Pc) {
    var normal := obj.finalizer && !obj.deleting;
    var tracked := obj.status.clientUuid != "";
    match pc
    case Config => Snapshot(w, obj)
    case AddFinalizer => !obj.finalizer && !obj.deleting && Snapshot(w, obj)
    case CheckRealm => normal && Snapshot(w, obj)
    case SetOwner(_) => normal && Snapshot(w, obj)
    case Fetch => normal && Snapshot(w, obj)
    case Create => normal && !tracked
    case Lookup => normal && !tracked
    case Update(found) =>
      normal && tracked && found.id in w.issued
      && (found.id in w.clients ==> w.clients[found.id].realmId == found.realmId)
    case SyncRoles(_) => normal && tracked
    case FetchCurrent(_) => normal && tracked
    case SyncSecret(_) => normal && tracked
    case FindRealm => obj.finalizer && obj.deleting && tracked && Snapshot(w, obj)
    case DeleteRoles => obj.finalizer && obj.deleting && tracked && Snapshot(w, obj)
    case DeleteClient => obj.finalizer && obj.deleting && tracked && Snapshot(w, obj)
    case RemoveFinalizer(reason) =>
      obj.finalizer && obj.deleting && Snapshot(w, obj)
      && (reason == Untracked <==> !tracked)
      && (reason == Gone ==> !w.Live(obj.spec.realm.name, obj.status.clientUuid))
    case ReadStatus(result) => result.ready ==> tracked
    case WriteStatus(result, latest) => (result.ready ==> tracked) && latest.key == obj.key && Snapshot(w, latest)
    case Done(_) => true
  }

  ghost predicate ProcInv(w: World, p: Proc) {
    && RetryState(p)
    && Known(w, p.obj.status.clientUuid)
    && (p.obj.finalizer && !p.pc.Done? ==> FinalizerStored(w, p.obj.key))
    && PcInv(w, p.obj, p.pc)
  }

  // A run starts when the operator does: no pass is under way, and the stores are in order.
  ghost predicate Initial(s: State) {
    s.procs == map[] && WorldInv(s.world)
  }

  ghost predicate RunInv(s: State) {
    && WorldInv(s.world)
    && forall k | k in s.procs :: s.procs[k].obj.key == k && ProcInv(s.world, s.procs[k])
  }

  // ---- Every step keeps them ----

  // Objects change only under a new version, identifiers are not reused, and clients stay in their realm.
  ghost predicate Evolves(w: World, w': World) {
    && w.revision <= w'.revision && w.issued <= w'.issued
    && (forall k | k in w'.cluster ::
        (k in w.cluster && w'.cluster[k] == w.cluster[k]) || w'.cluster[k].version > w.revision)
    && (forall id | id in w.issued && id in w'.clients ::
        id in w.clients && w'.clients[id].realmId == w.clients[id].realmId)
  }

  lemma GoneForGood(w: World, w': World, realm: string, id: Uuid)
    requires WorldInv(w) && WorldInv(w') && Evolves(w, w') && Known(w, id) && !w.Live(realm, id)
    ensures !w'.Live(realm, id)
  {
  }

  lemma OthersKept(w: World, w': World, p: Proc)
    requires WorldInv(w) && WorldInv(w') && Evolves(w, w') && ProcInv(w, p)
    requires FinalizerStored(w, p.obj.key) ==> FinalizerStored(w', p.obj.key)
    ensures ProcInv(w', p)
  {
    if !w.Live(p.obj.spec.realm.name, p.obj.status.clientUuid) {
      GoneForGood(w, w', p.obj.spec.realm.name, p.obj.status.clientUuid);
    }
  }

  // What one call does to the world, for the caller's own object and for all the others.
  ghost predicate WorldKept(w: World, w': World, key: ObjectKey) {
    && WorldInv(w') && Evolves(w, w')
    && w'.cluster.Keys == w.cluster.Keys
    && (forall k | k in w.cluster && k != key :: w'.cluster[k] == w.cluster[k])
    && (forall k | k in w.cluster :: w.cluster[k].status.clientUuid != "" ==> w'.cluster[k].status.clientUuid != "")
  }

  ghost predicate Kept(w: World, p: Proc, e: Effect) {
    WorldKept(w, e.world, p.obj.key) && ProcInv(e.world, e.proc) && e.proc.obj.key == p.obj.key
  }

  lemma SameWorldKept(w: World, key: ObjectKey)
    requires WorldInv(w)
    ensures WorldKept(w, w, key)
  {
  }

  // What the calls do to Keycloak: a client is created, changed or dropped, or roles change.
  lemma ClientAdded(w: World, c: F.OpenidClient, roles: map<Uuid, map<Uuid, R.Role>>, key: ObjectKey)
    requires WorldInv(w) && c.id != "" && c.id !in w.issued
    ensures WorldKept(w, w.(clients := w.clients[c.id := c], issued := w.issued + {c.id}, roles := roles), key)
  {
  }

  lemma ClientDropped(w: World, id: Uuid, key: ObjectKey)
    requires WorldInv(w)
    ensures WorldKept(w, w.(clients := w.clients - {id}), key)
  {
  }

  lemma ClientReplaced(w: World, c: F.OpenidClient, key: ObjectKey)
    requires WorldInv(w) && c.id in w.clients && c.realmId == w.clients[c.id].realmId
    ensures WorldKept(w, w.(clients := w.clients[c.id := c]), key)
  {
  }

  lemma RolesChanged(w: World, roles: map<Uuid, map<Uuid, R.Role>>, key: ObjectKey)
    requires WorldInv(w)
    ensures WorldKept(w, w.(roles := roles), key)
  {
  }

  lemma ReportKeeps(w: World, p: Proc, realmReady: bool, message: string)
    requires p.attempts == 0 && p.writes == [] && Known(w, p.obj.status.clientUuid)
    requires p.obj.finalizer ==> FinalizerStored(w, p.obj.key)
    ensures ProcInv(w, Report(p, realmReady, message))
  {
  }

  lemma ConfigKeeps(t: Tick, p: Proc)
    requires ProcInv(t.world, p) && p.pc.Config?
    ensures ProcInv(t.world, StepConfig(t, p)) && StepConfig(t, p).obj.key == p.obj.key
  {
  }

  lemma RealmKeeps(t: Tick, p: Proc)
    requires ProcInv(t.world, p)
    ensures p.pc.CheckRealm? ==> ProcInv(t.world, StepCheckRealm(t, p)) && StepCheckRealm(t, p).obj.key == p.obj.key
    ensures p.pc.FindRealm? ==> ProcInv(t.world, StepFindRealm(t, p)) && StepFindRealm(t, p).obj.key == p.obj.key
  {
  }

  lemma FetchKeeps(t: Tick, p: Proc)
    requires WorldInv(t.world) && ProcInv(t.world, p)
    ensures p.pc.Fetch? ==> ProcInv(t.world, StepFetch(t, p)) && StepFetch(t, p).obj.key == p.obj.key
    ensures p.pc.Lookup? ==> ProcInv(t.world, StepLookup(t, p)) && StepLookup(t, p).obj.key == p.obj.key
  {
  }

  lemma ConfirmKeeps(t: Tick, p: Proc, changed: bool)
    requires ProcInv(t.world, p)
    ensures p.pc == FetchCurrent(changed) ==>
      ProcInv(t.world, StepFetchCurrent(t, p, changed)) && StepFetchCurrent(t, p, changed).obj.key == p.obj.key
    ensures p.pc == SyncSecret(changed) ==>
      ProcInv(t.world, StepSyncSecret(t, p, changed)) && StepSyncSecret(t, p, changed).obj.key == p.obj.key
  {
  }

  lemma ReadStatusKeeps(t: Tick, p: Proc)
    requires WorldInv(t.world) && ProcInv(t.world, p) && p.pc.ReadStatus?
    ensures ProcInv(t.world, StepReadStatus(t, p, p.pc.result))
    ensures StepReadStatus(t, p, p.pc.result).obj.key == p.obj.key
  {
  }

  // ---- Calls that write ----

  lemma ObjectReplaced(w: World, written: Client)
    requires WorldInv(w) && written.key in w.cluster && written.version == w.revision + 1
    requires written.status == w.cluster[written.key].status
    ensures WorldKept(w, w.(cluster := w.cluster[written.key := written], revision := w.revision + 1), written.key)
  {
  }

  // An accepted write of the main resource.
  lemma PutAccepted(t: Tick, p: Proc, wanted: Client, next: Pc, failed: Proc)
    requires WorldInv(t.world) && Snapshot(t.world, p.obj) && Known(t.world, p.obj.status.clientUuid)
    requires wanted == p.obj.(finalizer := wanted.finalizer, owners := wanted.owners)
    requires !t.fault && p.obj.key in t.world.cluster && t.world.cluster[p.obj.key].version == p.obj.version
    ensures var e := StepPut(t, p, wanted, next, failed);
      WorldKept(t.world, e.world, p.obj.key)
      && e.proc == p.(obj := wanted.(version := t.world.revision + 1), pc := next)
      && p.obj.key in e.world.cluster && e.world.cluster[p.obj.key] == e.proc.obj && Snapshot(e.world, e.proc.obj)
      && e.world.clients == t.world.clients && e.world.issued == t.world.issued
  {
    hide WorldKept, WorldInv;
    assert t.world.cluster[p.obj.key] == p.obj;
    ObjectReplaced(t.world, wanted.(version := t.world.revision + 1));
  }

  lemma PutKeeps(t: Tick, p: Proc, wanted: Client, next: Pc, failed: Proc)
    requires WorldInv(t.world) && ProcInv(t.world, p) && Snapshot(t.world, p.obj)
    requires wanted == p.obj.(finalizer := wanted.finalizer, owners := wanted.owners)
    requires p.attempts == 0 && p.writes == []
    requires if p.pc.RemoveFinalizer? then next == Done(Stopped)
             else wanted.finalizer && !wanted.deleting && (next == CheckRealm || next == Fetch)
    requires ProcInv(t.world, failed) && failed.obj == p.obj
    ensures Kept(t.world, p, StepPut(t, p, wanted, next, failed))
  {
    var key := p.obj.key;
    if !t.fault && key in t.world.cluster && t.world.cluster[key].version == p.obj.version {
      PutAccepted(t, p, wanted, next, failed);
    } else {
      SameWorldKept(t.world, key);
    }
  }

  lemma RolesKeep(t: Tick, p: Proc, changed: bool)
    requires WorldInv(t.world) && ProcInv(t.world, p) && p.pc == SyncRoles(changed)
    ensures Kept(t.world, p, StepSyncRoles(t, p, changed))
  {
    hide WorldKept, Evolves, WorldInv;
    var e := StepSyncRoles(t, p, changed);
    RolesChanged(t.world, e.world.roles, p.obj.key);
    ReportKeeps(e.world, p.(obj := e.proc.obj), true, ROLES_FAILED + t.text);
  }

  lemma CreateKeeps(t: Tick, p: Proc)
    requires WorldInv(t.world) && ProcInv(t.world, p) && p.pc.Create?
    ensures Kept(t.world, p, StepCreate(t, p))
  {
    hide WorldKept, Evolves, WorldInv, ClientIdTaken, F.BuildClient;
    if StepCreate(t, p).proc.pc.Lookup? {
      assert Built(p.obj, t.id).id == t.id;
      ClientAdded(t.world, Built(p.obj, t.id), t.world.roles[t.id := map[]], p.obj.key);
      hide Built;
    } else {
      SameWorldKept(t.world, p.obj.key);
      ReportKeeps(t.world, p, true, CLIENT_FAILED + "client exists in Keycloak but UUID not tracked");
      ReportKeeps(t.world, p, true, CLIENT_FAILED + t.text);
      hide ProcInv;
    }
  }

  lemma UpdateKeeps(t: Tick, p: Proc)
    requires WorldInv(t.world) && ProcInv(t.world, p) && p.pc.Update?
    ensures Kept(t.world, p, StepUpdate(t, p, p.pc.found))
  {
    hide WorldKept, Evolves, WorldInv, F.ClientDiffs, F.BuildClient, F.Matches;
    var found := p.pc.found;
    F.BuildAndApplyMatch(p.obj.spec.fields, found, found, "");
    hide F.ApplyChanges;
    SameWorldKept(t.world, p.obj.key);
    if found.id in t.world.clients {
      ClientReplaced(t.world, F.ApplyChanges(p.obj.spec.fields, found), p.obj.key);
    }
  }

  lemma DeleteKeeps(t: Tick, p: Proc)
    requires WorldInv(t.world) && ProcInv(t.world, p) && p.pc.DeleteClient?
    ensures Kept(t.world, p, StepDeleteClient(t, p))
  {
    hide WorldKept, Evolves, WorldInv;
    ClientDropped(t.world, p.obj.status.clientUuid, p.obj.key);
    SameWorldKept(t.world, p.obj.key);
  }

  // An accepted status write: the world, and the history.
  lemma StatusReplaced(w: World, latest: Client, original: S.Status, result: S.Result, now: int)
    requires WorldInv(w) && Known(w, original.clientUuid) && (result.ready ==> original.clientUuid != "")
    requires latest.key in w.cluster && w.cluster[latest.key] == latest
    ensures var merged := S.MergeStatus(latest.status, original, result, now);
      Known(w, merged.clientUuid) && WorldKept(w, w.(
        cluster := w.cluster[latest.key := latest.(status := merged, version := w.revision + 1)],
        revision := w.revision + 1), latest.key)
  {
  }

  lemma MergeIsWellWritten(latest: Client, original: S.Status, result: S.Result, now: int, version: nat)
    requires version > latest.version
    ensures WellWritten(StatusWrite(
      latest, latest.(status := S.MergeStatus(latest.status, original, result, now), version := version),
      original, result, now))
  {
  }

  lemma StatusAccepted(t: Tick, p: Proc)
    requires WorldInv(t.world) && ProcInv(t.world, p) && p.pc.WriteStatus? && !t.fault
    requires p.obj.key in t.world.cluster && t.world.cluster[p.obj.key].version == p.pc.latest.version
    ensures var e := StepWriteStatus(t, p, p.pc.result, p.pc.latest);
      WorldKept(t.world, e.world, p.obj.key) && e.proc.pc == Done(Written) && RetryState(e.proc)
      && Known(e.world, e.proc.obj.status.clientUuid) && e.proc.obj.key == p.obj.key
  {
    hide WorldKept, S.MergeStatus, WellWritten;
    var w, latest := t.world, p.pc.latest;
    assert w.cluster[p.obj.key] == latest && latest.version <= w.revision;
    StatusReplaced(w, latest, p.obj.status, p.pc.result, t.now);
    MergeIsWellWritten(latest, p.obj.status, p.pc.result, t.now, w.revision + 1);
    hide WorldInv, PcInv;
  }

  lemma WriteStatusKeeps(t: Tick, p: Proc)
    requires WorldInv(t.world) && ProcInv(t.world, p) && p.pc.WriteStatus?
    ensures Kept(t.world, p, StepWriteStatus(t, p, p.pc.result, p.pc.latest))
  {
    var key := p.obj.key;
    if !t.fault && key in t.world.cluster && t.world.cluster[key].version == p.pc.latest.version {
      StatusAccepted(t, p);
      hide StepWriteStatus, WorldKept, RetryState;
    } else {
      SameWorldKept(t.world, key);
      hide WorldKept, S.MergeStatus, WellWritten;
    }
  }

  lemma DeleteRolesKeep(t: Tick, p: Proc)
    requires WorldInv(t.world) && ProcInv(t.world, p) && p.pc.DeleteRoles?
    ensures Kept(t.world, p, Step(t, p))
  {
    hide WorldKept, Evolves, WorldInv;
    RolesChanged(t.world, Step(t, p).world.roles, p.obj.key);
  }

  lemma StepKeeps(t: Tick, p: Proc)
    requires WorldInv(t.world) && ProcInv(t.world, p)
    ensures Kept(t.world, p, Step(t, p))
  {
    hide StepConfig, StepPut, StepCheckRealm, StepFetch, StepCreate, StepLookup, StepUpdate, StepSyncRoles,
         StepFetchCurrent, StepSyncSecret, StepFindRealm, StepDeleteClient, StepReadStatus, StepWriteStatus,
         WorldKept, WorldInv, Snapshot;
    SameWorldKept(t.world, p.obj.key);
    match p.pc
    case Config => ConfigKeeps(t, p);
    case AddFinalizer =>
      PutKeeps(t, p, p.obj.(finalizer := true), CheckRealm, p.(pc := Done(Failed)));
    case SetOwner(uid) =>
      ReportKeeps(t.world, p, true, OWNER_FAILED + t.text);
      PutKeeps(t, p, Owned(p.obj, uid), Fetch, Report(p, true, OWNER_FAILED + t.text));
    case RemoveFinalizer(_) =>
      PutKeeps(t, p, p.obj.(finalizer := false), Done(Stopped), p.(pc := Done(Failed)));
    case CheckRealm => RealmKeeps(t, p);
    case FindRealm => RealmKeeps(t, p);
    case Fetch => FetchKeeps(t, p);
    case Lookup => FetchKeeps(t, p);
    case Create => CreateKeeps(t, p);
    case Update(_) => UpdateKeeps(t, p);
    case SyncRoles(changed) => RolesKeep(t, p, changed);
    case FetchCurrent(changed) => ConfirmKeeps(t, p, changed);
    case SyncSecret(changed) => ConfirmKeeps(t, p, changed);
    case DeleteRoles => DeleteRolesKeep(t, p);
    case DeleteClient => DeleteKeeps(t, p);
    case ReadStatus(_) => ReadStatusKeeps(t, p);
    case WriteStatus(_, _) => WriteStatusKeeps(t, p);
    case Done(_) =>
  }

  // ---- Runs ----

  lemma EnvironmentKeeps(s: State, m: Move)
    requires RunInv(s) && !m.Call? && Apply(s, m).Some?
    ensures var w, w' := s.world, Apply(s, m).value.world;
      WorldInv(w') && Evolves(w, w') && (forall k | FinalizerStored(w, k) :: FinalizerStored(w', k))
      && (forall k | k in w.cluster && k in w'.cluster ::
            w.cluster[k].status.clientUuid != "" ==> w'.cluster[k].status.clientUuid != "")
  {
  }

  lemma MoveKeeps(s: State, m: Move)
    requires RunInv(s) && Apply(s, m).Some?
    ensures RunInv(Apply(s, m).value)
  {
    var s' := Apply(s, m).value;
    hide PcInv, RetryState, Step;
    if m.Call? {
      StepKeeps(TickOf(s.world, m), s.procs[m.key]);
      hide ProcInv, WorldInv;
      forall k | k in s'.procs ensures s'.procs[k].obj.key == k && ProcInv(s'.world, s'.procs[k]) {
        if k != m.key {
          OthersKept(s.world, s'.world, s.procs[k]);
        }
      }
    } else {
      EnvironmentKeeps(s, m);
      forall k | k in s'.procs ensures s'.procs[k].obj.key == k && ProcInv(s'.world, s'.procs[k]) {
        if m == Begin(k) {
          BegunKept(s.world, k);
        } else {
          OthersKept(s.world, s'.world, s.procs[k]);
        }
      }
    }
  }

  lemma BegunKept(w: World, key: ObjectKey)
    requires WorldInv(w) && key in w.cluster
    ensures Start(w.cluster[key]).obj.key == key && ProcInv(w, Start(w.cluster[key]))
  {
  }

  /** Every run, every state: a stored Ready has a stored ClientUUID that Keycloak issued, and every pass is as
      `ProcInv` says; in particular its status loop makes at most three attempts and at most one write, which is
      the merge over the very version it replaces. */
  lemma {:induction false} RunInvariant(states: seq<State>, moves: seq<Move>, n: nat)
    requires Trace(states, moves) && Initial(states[0]) && n < |states|
    ensures RunInv(states[n])
    decreases n
  {
    if n > 0 {
      RunInvariant(states, moves, n - 1);
      assert Apply(states[n - 1], moves[n - 1]) == Some(states[n]);
      MoveKeeps(states[n - 1], moves[n - 1]);
    }
  }
}
