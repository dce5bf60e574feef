/** One reconcile pass over a Client (internal/controller/client/controller.go and keycloak_ops.go), cut at its
    API calls. `Step` runs the pass up to and including its next call, on the world that call meets. */
module ClientPass {
  import opened Common
  import F = ClientFields
  import S = ClientStatus
  import R = ClientRoles
  import Tapes

  const MAX_STATUS_ATTEMPTS: nat := 3

  const NOT_READY := "is not ready"
  const DELETION_PENDING := "Deletion pending: waiting for KeycloakInstanceConfig to become ready"
  const REALM_FAILED := "Failed to get realm: "
  const REALM_MISSING := "Referenced realm not found"
  const REALM_NOT_READY := "Referenced realm is not ready"
  const OWNER_FAILED := "Failed to set owner reference: "
  const CLIENT_FAILED := "Failed to reconcile client: "
  const ROLES_FAILED := "Client ready but failed to reconcile roles: "
  const FETCH_FAILED := "Failed to fetch current client state: "
  const SECRET_FAILED := "Client ready but failed to reconcile secret: "
  const CHANGED := "Client and roles reconciled successfully"
  const UNCHANGED := "Client and roles reconciled"

  datatype Ref = Ref(name: string, namespace: string)

  datatype Spec = Spec(instanceConfig: Ref, realm: Ref, fields: F.ClientSpec, roles: seq<R.RoleSpec>)

  // A Realm object: whether it is ready, and the UID that tells it from others of its name.
  datatype Realm = Realm(ready: bool, uid: string)

  // `owners` are the realms named in owner references, with the UIDs recorded for them.
  datatype Client = Client(
    key: ObjectKey,
    spec: Spec,
    finalizer: bool,
    deleting: bool,
    owners: map<string, string>,
    status: S.Status,
    version: nat)

  /** The cluster's Client, KeycloakInstanceConfig (whether it is ready) and Realm objects, and Keycloak's clients and
      the roles of each client, with every client identifier it ever issued. */
  datatype World = World(
    cluster: map<ObjectKey, Client>,
    configs: map<ObjectKey, bool>,
    realms: map<ObjectKey, Realm>,
    clients: map<Uuid, F.OpenidClient>,
    issued: set<Uuid>,
    roles: map<Uuid, map<Uuid, R.Role>>,
    revision: nat)
  {
    predicate Live(realm: string, id: Uuid) {
      id in clients && clients[id].realmId == realm
    }
  }

  /** What one API call meets: the world, whether the call fails for a reason of its own, the identifier Keycloak
      answers with, an error text, the clock, and what a role pass that happens here leaves behind: the roles of the
      client, and their tracking. */
  datatype Tick = Tick(world: World, fault: bool, id: Uuid, text: string, now: int,
                       roles: map<Uuid, R.Role>, tracked: map<string, Uuid>)

  datatype Reason = Untracked | RealmAbsent | Gone

  datatype Outcome = Skipped | Written | Stopped | Failed

  datatype Pc =
    | Config
    | AddFinalizer
    | CheckRealm
    | SetOwner(uid: string)
    | Fetch
    | Create
    | Lookup
    | Update(found: F.OpenidClient)
    | SyncRoles(changed: bool)
    | FetchCurrent(changed: bool)
    | SyncSecret(changed: bool)
    | FindRealm
    | DeleteRoles
    | DeleteClient
    | RemoveFinalizer(reason: Reason)
    | ReadStatus(result: S.Result)
    | WriteStatus(result: S.Result, latest: Client)
    | Done(outcome: Outcome)

  datatype StatusWrite = StatusWrite(replaced: Client, written: Client, original: S.Status, result: S.Result, now: int)

  datatype Proc = Proc(obj: Client, pc: Pc, attempts: nat, writes: seq<StatusWrite>)

  type Effect = Tapes.Effect<World, Proc>

  // An empty namespace in a reference means the client's own.
  function Resolve(obj: Client, ref: Ref): ObjectKey {
    ObjectKey(if ref.namespace != "" then ref.namespace else obj.key.namespace, ref.name)
  }

  function ConfigKey(obj: Client): ObjectKey {
    Resolve(obj, obj.spec.instanceConfig)
  }

  function RealmKey(obj: Client): ObjectKey {
    Resolve(obj, obj.spec.realm)
  }

  // strings.Contains(text, "is not ready")
  predicate SaysNotReady(text: string) {
    NOT_READY <= text || (text != "" && SaysNotReady(text[1..]))
  }

  /** The text says so anywhere. */
  lemma {:induction false} SaysNotReadyMeans(text: string)
    ensures SaysNotReady(text) <==> exists i | 0 <= i <= |text| :: NOT_READY <= text[i..]
    decreases |text|
  {
    assert text[0..] == text;
    if text != [] {
      SaysNotReadyMeans(text[1..]);
      forall i | 1 <= i <= |text| ensures text[i..] == text[1..][i - 1..] {}
    }
  }

  function SetUuid(obj: Client, id: Uuid, roles: map<string, Uuid>): Client {
    obj.(status := obj.status.(clientUuid := id, roleUuids := Some(roles)))
  }

  function Report(p: Proc, realmReady: bool, message: string): Proc {
    p.(pc := ReadStatus(S.Result(false, realmReady, message)))
  }

  function Succeed(p: Proc, changed: bool): Proc {
    p.(pc := ReadStatus(S.Result(true, true, if changed then CHANGED else UNCHANGED)))
  }

  // ---- The two branches of Reconcile ----

  function BeginDelete(obj: Client): Pc {
    if !obj.finalizer then Done(Stopped)
    else if obj.status.clientUuid == "" then RemoveFinalizer(Untracked)
    else FindRealm
  }

  function StepConfig(t: Tick, p: Proc): Proc {
    var key := ConfigKey(p.obj);
    var found := !t.fault && key in t.world.configs;
    if found && t.world.configs[key] then
      p.(pc := if p.obj.deleting then BeginDelete(p.obj) else if p.obj.finalizer then CheckRealm else AddFinalizer)
    else if p.obj.deleting && (found || SaysNotReady(t.text)) then Report(p, false, DELETION_PENDING)
    else p.(pc := Done(Stopped))
  }

  /** The main resource: replaced under the version that was read; the stored status stays, and the object in
      memory becomes what is stored. */
  function StepPut(t: Tick, p: Proc, wanted: Client, next: Pc, failed: Proc): Effect {
    var key := p.obj.key;
    if t.fault || key !in t.world.cluster || t.world.cluster[key].version != p.obj.version then
      Tapes.Effect(t.world, failed)
    else
      var written := wanted.(status := t.world.cluster[key].status, version := t.world.revision + 1);
      Tapes.Effect(t.world.(cluster := t.world.cluster[key := written], revision := t.world.revision + 1),
                   p.(obj := written, pc := next))
  }

  // The owner reference to the realm is there, and means this very object.
  predicate OwnedBy(obj: Client, uid: string) {
    var name := obj.spec.realm.name;
    name in obj.owners && obj.owners[name] == uid
  }

  function Owned(obj: Client, uid: string): Client {
    obj.(owners := obj.owners[obj.spec.realm.name := uid])
  }

  function StepCheckRealm(t: Tick, p: Proc): Proc {
    var key := RealmKey(p.obj);
    if t.fault then Report(p, false, REALM_FAILED + t.text)
    else if key !in t.world.realms then Report(p, false, REALM_MISSING)
    else
      var realm := t.world.realms[key];
      if !realm.ready then Report(p, false, REALM_NOT_READY)
      else if OwnedBy(p.obj, realm.uid) || key.namespace != p.obj.key.namespace then p.(pc := Fetch)
      else p.(pc := SetOwner(realm.uid))
  }

  // ---- reconcileClient ----

  function StepFetch(t: Tick, p: Proc): Proc {
    var id := p.obj.status.clientUuid;
    if id == "" then p.(pc := Create)
    else if t.fault then Report(p, true, CLIENT_FAILED + t.text)
    else if t.world.Live(p.obj.spec.realm.name, id) then p.(pc := Update(t.world.clients[id]))
    else p.(obj := SetUuid(p.obj, "", map[]), pc := Create)
  }

  // Keycloak refuses a second client of one clientId in a realm.
  predicate ClientIdTaken(w: World, realm: string, clientId: string) {
    exists id | id in w.clients :: w.clients[id].realmId == realm && w.clients[id].clientId == clientId
  }

  function Built(obj: Client, id: Uuid): F.OpenidClient {
    F.BuildClient(obj.spec.fields, obj.spec.realm.name).(id := id)
  }

  function StepCreate(t: Tick, p: Proc): Effect {
    if !t.fault && ClientIdTaken(t.world, p.obj.spec.realm.name, p.obj.spec.fields.clientId) then
      Tapes.Effect(t.world, Report(p, true, CLIENT_FAILED + "client exists in Keycloak but UUID not tracked"))
    else if t.fault || t.id == "" || t.id in t.world.issued then
      Tapes.Effect(t.world, Report(p, true, CLIENT_FAILED + t.text))
    else
      Tapes.Effect(t.world.(clients := t.world.clients[t.id := Built(p.obj, t.id)], issued := t.world.issued + {t.id},
                            roles := t.world.roles[t.id := map[]]),
                   p.(pc := Lookup))
  }

  function StepLookup(t: Tick, p: Proc): Proc {
    if t.fault || !t.world.Live(p.obj.spec.realm.name, t.id)
       || t.world.clients[t.id].clientId != p.obj.spec.fields.clientId then
      Report(p, true, CLIENT_FAILED + t.text)
    else p.(obj := SetUuid(p.obj, t.id, map[]), pc := SyncRoles(true))
  }

  // A failing update is only logged.
  function StepUpdate(t: Tick, p: Proc, found: F.OpenidClient): Effect {
    if F.ClientDiffs(p.obj.spec.fields, found) == [] || t.fault || found.id !in t.world.clients then
      Tapes.Effect(t.world, p.(pc := SyncRoles(false)))
    else
      var updated := F.ApplyChanges(p.obj.spec.fields, found);
      Tapes.Effect(t.world.(clients := t.world.clients[found.id := updated]), p.(pc := SyncRoles(true)))
  }

  // The whole role pass, whose writes touch the roles of this client only.
  function StepSyncRoles(t: Tick, p: Proc, changed: bool): Effect {
    if p.obj.status.clientUuid == "" then Tapes.Effect(t.world, Succeed(p, changed))
    else
      var q := p.(obj := SetUuid(p.obj, p.obj.status.clientUuid, t.tracked));
      Tapes.Effect(t.world.(roles := t.world.roles[p.obj.status.clientUuid := t.roles]),
                   if t.fault then Report(q, true, ROLES_FAILED + t.text) else q.(pc := FetchCurrent(changed)))
  }

  function StepFetchCurrent(t: Tick, p: Proc, changed: bool): Proc {
    if t.fault || !t.world.Live(p.obj.spec.realm.name, p.obj.status.clientUuid) then
      Report(p, true, FETCH_FAILED + t.text)
    else p.(pc := SyncSecret(changed))
  }

  // Whether the secret ends up as it should is the subject of module ClientSecret.
  function StepSyncSecret(t: Tick, p: Proc, changed: bool): Proc {
    if t.fault then Report(p, true, SECRET_FAILED + t.text) else Succeed(p, changed)
  }

  // ---- reconcileDelete ----

  function StepFindRealm(t: Tick, p: Proc): Proc {
    if t.fault then p.(pc := Done(Failed))
    else if RealmKey(p.obj) !in t.world.realms then p.(pc := RemoveFinalizer(RealmAbsent))
    else p.(pc := DeleteRoles)
  }

  function StepDeleteClient(t: Tick, p: Proc): Effect {
    var id := p.obj.status.clientUuid;
    if t.fault then Tapes.Effect(t.world, p.(pc := Done(Failed)))
    else if !t.world.Live(p.obj.spec.realm.name, id) then Tapes.Effect(t.world, p.(pc := RemoveFinalizer(Gone)))
    else Tapes.Effect(t.world.(clients := t.world.clients - {id}), p.(pc := RemoveFinalizer(Gone)))
  }

  // ---- The status loop ----

  function StepReadStatus(t: Tick, p: Proc, result: S.Result): Proc {
    var q := p.(attempts := p.attempts + 1);
    if t.fault || p.obj.key !in t.world.cluster then q.(pc := Done(Failed))
    else
      var latest := t.world.cluster[p.obj.key];
      if S.StatusUnchanged(latest.status, result) then
        q.(obj := p.obj.(status := latest.status), pc := Done(Skipped))
      else q.(pc := WriteStatus(result, latest))
  }

  function StepWriteStatus(t: Tick, p: Proc, result: S.Result, latest: Client): Effect {
    var key := p.obj.key;
    if t.fault || key !in t.world.cluster then Tapes.Effect(t.world, p.(pc := Done(Failed)))
    else
      var stored := t.world.cluster[key];
      if stored.version != latest.version then
        Tapes.Effect(t.world, p.(pc := if p.attempts < MAX_STATUS_ATTEMPTS then ReadStatus(result) else Done(Failed)))
      else
        var merged := S.MergeStatus(latest.status, p.obj.status, result, t.now);
        var written := stored.(status := merged, version := t.world.revision + 1);
        Tapes.Effect(t.world.(cluster := t.world.cluster[key := written], revision := t.world.revision + 1),
                     p.(obj := p.obj.(status := merged), pc := Done(Written),
                        writes := p.writes + [StatusWrite(stored, written, p.obj.status, result, t.now)]))
  }

  function Step(t: Tick, p: Proc): Effect {
    match p.pc
    case Config => Tapes.Effect(t.world, StepConfig(t, p))
    case AddFinalizer => StepPut(t, p, p.obj.(finalizer := true), CheckRealm, p.(pc := Done(Failed)))
    case CheckRealm => Tapes.Effect(t.world, StepCheckRealm(t, p))
    case SetOwner(uid) => StepPut(t, p, Owned(p.obj, uid), Fetch, Report(p, true, OWNER_FAILED + t.text))
    case Fetch => Tapes.Effect(t.world, StepFetch(t, p))
    case Create => StepCreate(t, p)
    case Lookup => Tapes.Effect(t.world, StepLookup(t, p))
    case Update(found) => StepUpdate(t, p, found)
    case SyncRoles(changed) => StepSyncRoles(t, p, changed)
    case FetchCurrent(changed) => Tapes.Effect(t.world, StepFetchCurrent(t, p, changed))
    case SyncSecret(changed) => Tapes.Effect(t.world, StepSyncSecret(t, p, changed))
    case FindRealm => Tapes.Effect(t.world, StepFindRealm(t, p))
    case DeleteRoles =>
      Tapes.Effect(if S.Roles(p.obj.status) == map[] then t.world
                   else t.world.(roles := t.world.roles[p.obj.status.clientUuid := t.roles]),
                   p.(pc := DeleteClient))
    case DeleteClient => StepDeleteClient(t, p)
    case RemoveFinalizer(_) => StepPut(t, p, p.obj.(finalizer := false), Done(Stopped), p.(pc := Done(Failed)))
    case ReadStatus(result) => Tapes.Effect(t.world, StepReadStatus(t, p, result))
    case WriteStatus(result, latest) => StepWriteStatus(t, p, result, latest)
    case Done(_) => Tapes.Effect(t.world, p)
  }

  function Start(obj: Client): Proc {
    Proc(obj, Config, 0, [])
  }

  function Run(tape: nat -> Tick, p: Proc, lo: nat, hi: nat): Proc
    requires lo <= hi
  {
    Tapes.Run(Step, tape, p, lo, hi)
  }

  // ---- A pass that finds the instance config not ready ----

  predicate OnlyReports(p: Proc) {
    p.pc.ReadStatus? || p.pc.WriteStatus? || p.pc.Done?
  }

  // Keycloak is as it was, and so is every client object except for its status.
  ghost predicate OnlyStatuses(w: World, w': World) {
    && w'.clients == w.clients && w'.issued == w.issued && w'.roles == w.roles
    && w'.cluster.Keys == w.cluster.Keys
    && forall k | k in w.cluster ::
         w'.cluster[k] == w.cluster[k].(status := w'.cluster[k].status, version := w'.cluster[k].version)
  }

  lemma ReportsTouchNothingElse(t: Tick, p: Proc)
    requires OnlyReports(p)
    ensures OnlyReports(Step(t, p).proc) && OnlyStatuses(t.world, Step(t, p).world)
  {
  }

  // What makes getKeycloakClient fail at this call.
  predicate ConfigUnusable(t: Tick, obj: Client) {
    t.fault || ConfigKey(obj) !in t.world.configs || !t.world.configs[ConfigKey(obj)]
  }

  /** A pass that begins while its instance config is missing or not ready, or while no connection can be opened,
      writes nothing but statuses, whatever its later calls meet; and not even those unless its object is being
      deleted. */
  lemma {:induction false} UnusableConfigIsInert(tape: nat -> Tick, obj: Client, lo: nat, hi: nat)
    requires lo < hi && ConfigUnusable(tape(lo), obj)
    ensures OnlyReports(Run(tape, Start(obj), lo, hi))
    ensures OnlyStatuses(tape(hi).world, Step(tape(hi), Run(tape, Start(obj), lo, hi)).world)
    ensures Step(tape(lo), Start(obj)).world == tape(lo).world
    ensures !obj.deleting ==> Run(tape, Start(obj), lo, hi) == Start(obj).(pc := Done(Stopped))
    decreases hi
  {
    hide StepWriteStatus, StepReadStatus;
    if lo + 1 == hi {
      assert Run(tape, Start(obj), lo, lo) == Start(obj);
    } else {
      UnusableConfigIsInert(tape, obj, lo, hi - 1);
      ReportsTouchNothingElse(tape(hi - 1), Run(tape, Start(obj), lo, hi - 1));
    }
    ReportsTouchNothingElse(tape(hi), Run(tape, Start(obj), lo, hi));
  }
}
