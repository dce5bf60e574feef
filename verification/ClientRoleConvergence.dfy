/** The roles of a Client in an undisturbed pass: when the role pass is the one of module ClientRoles, Keycloak ends up
    with exactly the declared roles; and when the recorded role identifiers are the live ones. */
module ClientRoleConvergence {
  import opened Common
  import opened ClientPass
  import opened ClientRuns
  import opened ClientConvergence
  import F = ClientFields
  import R = ClientRoles
  import Results = ClientRolesResults
  import S = ClientStatus
  import Tapes

  function RolesOf(w: World, id: Uuid): map<Uuid, R.Role> {
    if id in w.roles then w.roles[id] else map[]
  }

  function ServerOf(roles: map<Uuid, R.Role>): R.Server {
    R.Server(roles, [], 0)
  }

  function Context(obj: Client, id: Uuid): R.Context {
    R.Context(obj.spec.realm.name, id)
  }

  // Identifiers of roles that Keycloak has issued, as far as this client shows.
  function UsedIds(w: World, obj: Client): set<Uuid> {
    RolesOf(w, obj.status.clientUuid).Keys
    + if obj.key in w.cluster then S.Roles(w.cluster[obj.key].status).Values else {}
  }

  // What this call leaves behind is what a successful role pass leaves behind.
  ghost predicate RolesServed(t: Tick, obj: Client) {
    exists c: R.Choices :: RolesServedBy(t, obj, c)
  }

  ghost predicate RolesServedBy(t: Tick, obj: Client, c: R.Choices) {
    var id := obj.status.clientUuid;
    var s := ServerOf(RolesOf(t.world, id));
    R.Undisturbed(s, obj.spec.roles, c)
    && Results.Unissued(c.env, UsedIds(t.world, obj))
    && var q := R.Reconcile(s, S.Roles(obj.status), obj.spec.roles, Context(obj, id), c);
       q.ok && q.server.roles == t.roles && q.tracked == t.tracked
  }

  ghost predicate RoleServed(t: Tick, p: Proc) {
    p.pc.SyncRoles? ==> RolesServed(t, p.obj)
  }

  ghost predicate RolesHealthy(tape: nat -> Tick, p: Proc) {
    forall i: nat :: RoleServed(tape(i), Run(tape, p, 0, i))
  }

  // ---- What to expect, from the world at the start ----

  // A client that is still to be created has no roles.
  function RolesBefore(w0: World, obj0: Client): map<Uuid, R.Role> {
    if obj0.status.clientUuid == "" then map[] else RolesOf(w0, obj0.status.clientUuid)
  }

  ghost predicate Changes(w0: World, obj0: Client) {
    obj0.status.clientUuid !in w0.clients || !F.Matches(obj0.spec.fields, w0.clients[obj0.status.clientUuid])
  }

  ghost function Report(w0: World, obj0: Client): S.Result {
    S.Result(true, true, if Changes(w0, obj0) then CHANGED else UNCHANGED)
  }

  // The roles created have identifiers nobody has seen.
  ghost predicate CreatedNew(before: map<Uuid, R.Role>, used: set<Uuid>, live: map<string, Uuid>) {
    forall name | name in live && !ServerOf(before).HasName(name) :: live[name] !in used
  }

  // Exactly the declared roles, with `live` the map from their names to their identifiers.
  ghost predicate RolesExact(w0: World, obj0: Client, w: World, id: Uuid, live: map<string, Uuid>) {
    && Results.Exact(ServerOf(RolesBefore(w0, obj0)), R.DesiredRoles(obj0.spec.roles), Context(obj0, id),
                     ServerOf(RolesOf(w, id)), live)
    && CreatedNew(RolesBefore(w0, obj0), RolesBefore(w0, obj0).Keys + S.Roles(obj0.status).Values, live)
  }

  // Exactly the declared names are recorded, each with the identifier of the role that has that name.
  predicate UpToDate(w0: World, obj0: Client) {
    var recorded, roles := S.Roles(obj0.status), RolesBefore(w0, obj0);
    && recorded.Keys == R.DesiredRoles(obj0.spec.roles).Keys
    && forall name | name in recorded :: recorded[name] in roles && roles[recorded[name]].name == name
  }

  // A declared role that exists stays under its identifier.
  lemma SurvivorsStay(before: map<Uuid, R.Role>, desired: R.Desired, ctx: R.Context, after: map<Uuid, R.Role>,
                      live: map<string, Uuid>)
    requires Results.Exact(ServerOf(before), desired, ctx, ServerOf(after), live)
    ensures live.Keys == desired.Keys
    ensures forall id | id in before && before[id].name in live :: live[before[id].name] == id
  {
  }

  /** The identifiers of the live roles are recorded already exactly if the records were up to date before the pass. */
  lemma UpToDateMeans(w0: World, obj0: Client, w: World, id: Uuid, live: map<string, Uuid>)
    requires RolesExact(w0, obj0, w, id, live)
    ensures S.Roles(obj0.status) == live <==> UpToDate(w0, obj0)
  {
    var recorded, roles := S.Roles(obj0.status), RolesBefore(w0, obj0);
    SurvivorsStay(roles, R.DesiredRoles(obj0.spec.roles), Context(obj0, id), RolesOf(w, id), live);
    hide R.DesiredRoles, Results.Exact, RolesBefore;
    if UpToDate(w0, obj0) {
      assert forall name | name in recorded :: live[name] == recorded[name];
    }
  }

  // What is recorded when the role pass has tracked `live`: nothing new if the report says nothing new, and an empty
  // map never replaces another one.
  ghost function Recorded(w0: World, obj0: Client, live: map<string, Uuid>): map<string, Uuid> {
    if S.StatusUnchanged(obj0.status, Report(w0, obj0)) || live == map[] then S.Roles(obj0.status) else live
  }

  ghost predicate Finished(w0: World, obj0: Client, w: World, live: map<string, Uuid>) {
    && obj0.key in w.cluster
    && RolesExact(w0, obj0, w, w.cluster[obj0.key].status.clientUuid, live)
    && S.Roles(w.cluster[obj0.key].status) == Recorded(w0, obj0, live)
  }

  // Where the roles are, in a pass that is on track otherwise.
  ghost predicate RolesOnTrack(w0: World, obj0: Client, w: World, p: Proc)
    requires OnTrack(w0, obj0, w, p)
  {
    var held := p.obj.status.clientUuid;
    && (!p.pc.Done? ==> w.cluster[obj0.key].status == obj0.status)
    && match p.pc
       case Lookup => forall id | Ours(w, p.obj, id) :: RolesOf(w, id) == map[]
       case Update(found) => w.roles == w0.roles && w.clients == w0.clients
       case SyncRoles(changed) => changed == Changes(w0, obj0) && RolesOf(w, held) == RolesBefore(w0, obj0)
       case FetchCurrent(changed) => changed == Changes(w0, obj0)
           && RolesExact(w0, obj0, w, held, S.Roles(p.obj.status))
       case SyncSecret(changed) => changed == Changes(w0, obj0) && RolesExact(w0, obj0, w, held, S.Roles(p.obj.status))
       case ReadStatus(result) => result == Report(w0, obj0) && RolesExact(w0, obj0, w, held, S.Roles(p.obj.status))
       case WriteStatus(result, _) =>
         result == Report(w0, obj0) && RolesExact(w0, obj0, w, held, S.Roles(p.obj.status))
         && !S.StatusUnchanged(obj0.status, result)
       case Done(_) => exists live :: Finished(w0, obj0, w, live)
       case _ => w.roles == w0.roles
  }

  lemma RolesPrepared(w0: World, obj0: Client, t: Tick, p: Proc)
    requires OnTrack(w0, obj0, t.world, p) && RolesOnTrack(w0, obj0, t.world, p) && Served(t, p)
    requires OnTrack(w0, obj0, Step(t, p).world, Step(t, p).proc)
    requires p.pc.Config? || p.pc.AddFinalizer? || p.pc.CheckRealm? || p.pc.SetOwner? || p.pc.Fetch?
    ensures RolesOnTrack(w0, obj0, Step(t, p).world, Step(t, p).proc)
  {
    hide Good, Settled, OursGood, ClientIdTaken, SaysNotReady, F.BuildClient, F.Matches, S.MergeStatus, RolesExact;
  }

  lemma RolesOfCreated(w0: World, obj0: Client, t: Tick, p: Proc)
    requires OnTrack(w0, obj0, t.world, p) && RolesOnTrack(w0, obj0, t.world, p) && Served(t, p)
    requires OnTrack(w0, obj0, Step(t, p).world, Step(t, p).proc) && WorldInv(t.world) && p.pc.Create?
    ensures RolesOnTrack(w0, obj0, Step(t, p).world, Step(t, p).proc)
  {
    OnlyNewIsOurs(w0, obj0, t, p);
    hide Good, Settled, Ours, OursGood, F.BuildClient, Built, F.Matches, RolesExact, Changes;
  }

  lemma OnlyNewIsOurs(w0: World, obj0: Client, t: Tick, p: Proc)
    requires OnTrack(w0, obj0, t.world, p) && Served(t, p) && p.pc.Create? && WorldInv(t.world)
    ensures forall id | Ours(Step(t, p).world, p.obj, id) :: id == t.id
  {
    hide Good, Settled, OursGood, F.BuildClient, F.Matches;
    var w' := Step(t, p).world;
    assert w'.clients == t.world.clients[t.id := Built(p.obj, t.id)];
  }

  lemma RolesOfFound(w0: World, obj0: Client, t: Tick, p: Proc)
    requires OnTrack(w0, obj0, t.world, p) && RolesOnTrack(w0, obj0, t.world, p) && Served(t, p)
    requires OnTrack(w0, obj0, Step(t, p).world, Step(t, p).proc) && p.pc.Lookup? && "" !in w0.clients
    ensures RolesOnTrack(w0, obj0, Step(t, p).world, Step(t, p).proc)
  {
    hide Good, Settled, OursGood, F.Matches, RolesExact;
  }

  lemma RolesWhenUpdating(w0: World, obj0: Client, t: Tick, p: Proc)
    requires OnTrack(w0, obj0, t.world, p) && RolesOnTrack(w0, obj0, t.world, p) && Served(t, p)
    requires OnTrack(w0, obj0, Step(t, p).world, Step(t, p).proc) && WorldInv(t.world) && p.pc.Update?
    requires p.obj.status.clientUuid != ""
    ensures RolesOnTrack(w0, obj0, Step(t, p).world, Step(t, p).proc)
  {
    hide Step, Good, Settled, F.Matches, RolesExact, WorldInv;
    UpdateOutcome(t, p);
  }

  lemma RolePassIsExact(t: Tick, obj: Client)
    requires RolesServed(t, obj)
    ensures Results.Exact(ServerOf(RolesOf(t.world, obj.status.clientUuid)), R.DesiredRoles(obj.spec.roles),
                          Context(obj, obj.status.clientUuid), ServerOf(t.roles), t.tracked)
  {
    var c: R.Choices :| RolesServedBy(t, obj, c);
    var s := ServerOf(RolesOf(t.world, obj.status.clientUuid));
    hide R.Reconcile, R.DesiredRoles, R.Undisturbed, Results.Unissued, UsedIds;
    Results.PassExact(s, S.Roles(obj.status), obj.spec.roles, Context(obj, obj.status.clientUuid), c);
    var after := R.Reconcile(s, S.Roles(obj.status), obj.spec.roles, Context(obj, obj.status.clientUuid), c).server;
    assert after.roles == ServerOf(t.roles).roles;
  }

  lemma RolePassIsNew(t: Tick, obj: Client)
    requires RolesServed(t, obj)
    ensures CreatedNew(RolesOf(t.world, obj.status.clientUuid), UsedIds(t.world, obj), t.tracked)
  {
    var c: R.Choices :| RolesServedBy(t, obj, c);
    var s := ServerOf(RolesOf(t.world, obj.status.clientUuid));
    RolePassIsExact(t, obj);
    hide R.Reconcile, R.DesiredRoles, R.Undisturbed, Results.Unissued, UsedIds;
    forall name | name in t.tracked && !s.HasName(name) ensures t.tracked[name] !in UsedIds(t.world, obj) {
      Results.CreatedAreNew(s, S.Roles(obj.status), obj.spec.roles, Context(obj, obj.status.clientUuid), c,
          UsedIds(t.world, obj), name);
    }
  }

  lemma RolesWhenSyncing(w0: World, obj0: Client, t: Tick, p: Proc)
    requires OnTrack(w0, obj0, t.world, p) && RolesOnTrack(w0, obj0, t.world, p) && Served(t, p) && RoleServed(t, p)
    requires OnTrack(w0, obj0, Step(t, p).world, Step(t, p).proc) && p.pc.SyncRoles? && p.obj.status.clientUuid != ""
    ensures RolesOnTrack(w0, obj0, Step(t, p).world, Step(t, p).proc)
  {
    hide Good, Settled, F.Matches, RolesServed;
    RolePassIsExact(t, p.obj);
    RolePassIsNew(t, p.obj);
    hide Results.Exact, R.DesiredRoles, CreatedNew;
  }

  lemma RolesWhenConfirming(w0: World, obj0: Client, t: Tick, p: Proc)
    requires OnTrack(w0, obj0, t.world, p) && RolesOnTrack(w0, obj0, t.world, p) && Served(t, p)
    requires OnTrack(w0, obj0, Step(t, p).world, Step(t, p).proc) && (p.pc.FetchCurrent? || p.pc.SyncSecret?)
    ensures RolesOnTrack(w0, obj0, Step(t, p).world, Step(t, p).proc)
  {
    hide Settled, F.Matches, S.MergeStatus, RolesExact;
  }

  // The role map a merge records.
  lemma MergedRoles(latest: S.Status, original: S.Status, result: S.Result, now: int)
    ensures S.Roles(S.MergeStatus(latest, original, result, now))
         == if S.Roles(original) == map[] then S.Roles(latest) else S.Roles(original)
  {
    if |S.Roles(original)| == 0 {
      assert S.Roles(original) == map[];
    }
  }

  lemma StatusAccepted(t: Tick, p: Proc)
    requires p.pc.WriteStatus? && !t.fault && p.obj.key in t.world.cluster && p.obj.status.clientUuid != ""
    requires t.world.cluster[p.obj.key] == p.pc.latest
    ensures var w, w', key := t.world, Step(t, p).world, p.obj.key;
      Step(t, p).proc.pc.Done? && w'.roles == w.roles && key in w'.cluster
      && w'.cluster[key].status == S.MergeStatus(w.cluster[key].status, p.obj.status, p.pc.result, t.now)
      && w'.cluster[key].status.clientUuid == p.obj.status.clientUuid
  {
  }

  lemma RolesExactStays(w0: World, obj0: Client, w: World, w': World, id: Uuid, live: map<string, Uuid>)
    requires RolesExact(w0, obj0, w, id, live) && w'.roles == w.roles
    ensures RolesExact(w0, obj0, w', id, live)
  {
  }

  lemma ReportWritten(w0: World, obj0: Client, t: Tick, p: Proc)
    requires OnTrack(w0, obj0, t.world, p) && RolesOnTrack(w0, obj0, t.world, p) && Served(t, p) && p.pc.WriteStatus?
    requires p.obj.status.clientUuid != ""
    ensures Step(t, p).proc.pc.Done? && Finished(w0, obj0, Step(t, p).world, S.Roles(p.obj.status))
  {
    MergedRoles(p.pc.latest.status, p.obj.status, p.pc.result, t.now);
    StatusAccepted(t, p);
    hide Step, S.MergeStatus, S.Roles, Good, Settled, RolesExact, Changes, S.StatusUnchanged;
    RolesExactStays(w0, obj0, t.world, Step(t, p).world, p.obj.status.clientUuid, S.Roles(p.obj.status));
  }

  lemma ReportRead(w0: World, obj0: Client, t: Tick, p: Proc)
    requires OnTrack(w0, obj0, t.world, p) && RolesOnTrack(w0, obj0, t.world, p) && Served(t, p) && p.pc.ReadStatus?
    requires WorldInv(t.world) && OnTrack(w0, obj0, Step(t, p).world, Step(t, p).proc)
    ensures Step(t, p).proc.pc.WriteStatus? ==> RolesOnTrack(w0, obj0, Step(t, p).world, Step(t, p).proc)
    ensures Step(t, p).proc.pc.Done? ==>
      Finished(w0, obj0, t.world, S.Roles(p.obj.status)) && Step(t, p).world == t.world
  {
    hide Good, Settled, F.Matches, Results.Exact, CreatedNew, R.DesiredRoles, Changes;
  }

  lemma RolesWhenDone(w0: World, obj0: Client, t: Tick, p: Proc)
    requires OnTrack(w0, obj0, t.world, p) && RolesOnTrack(w0, obj0, t.world, p) && p.pc.Done?
    requires OnTrack(w0, obj0, Step(t, p).world, Step(t, p).proc)
    ensures RolesOnTrack(w0, obj0, Step(t, p).world, Step(t, p).proc)
  {
    hide Settled, Finished;
  }

  lemma RolesWhenReading(w0: World, obj0: Client, t: Tick, p: Proc)
    requires OnTrack(w0, obj0, t.world, p) && RolesOnTrack(w0, obj0, t.world, p) && Served(t, p) && p.pc.ReadStatus?
    requires OnTrack(w0, obj0, Step(t, p).world, Step(t, p).proc) && WorldInv(t.world)
    ensures RolesOnTrack(w0, obj0, Step(t, p).world, Step(t, p).proc)
  {
    ReportRead(w0, obj0, t, p);
    AfterReading(t, p);
    hide Step, Settled, Good, Finished, WorldInv, RolesExact;
  }

  lemma AfterReading(t: Tick, p: Proc)
    requires p.pc.ReadStatus?
    ensures Step(t, p).proc.pc.WriteStatus? || Step(t, p).proc.pc.Done?
  {
  }

  lemma RolesWhenWriting(w0: World, obj0: Client, t: Tick, p: Proc)
    requires OnTrack(w0, obj0, t.world, p) && RolesOnTrack(w0, obj0, t.world, p) && Served(t, p) && p.pc.WriteStatus?
    requires OnTrack(w0, obj0, Step(t, p).world, Step(t, p).proc) && p.obj.status.clientUuid != ""
    ensures RolesOnTrack(w0, obj0, Step(t, p).world, Step(t, p).proc)
  {
    hide Step, Settled, Good, Finished;
    ReportWritten(w0, obj0, t, p);
  }

  lemma NoEmptyId(w: World)
    requires WorldInv(w)
    ensures "" !in w.clients
  {
  }

  lemma StepRoles(w0: World, obj0: Client, t: Tick, p: Proc)
    requires OnTrack(w0, obj0, t.world, p) && RolesOnTrack(w0, obj0, t.world, p) && Served(t, p) && RoleServed(t, p)
    requires OnTrack(w0, obj0, Step(t, p).world, Step(t, p).proc) && WorldInv(t.world) && WorldInv(w0)
    requires HeldOnTrack(p)
    ensures RolesOnTrack(w0, obj0, Step(t, p).world, Step(t, p).proc)
  {
    NoEmptyId(w0);
    hide Step, OnTrack, RolesOnTrack, Served, RoleServed, WorldInv, RolesExact, Changes;
    match p.pc
    case Create => RolesOfCreated(w0, obj0, t, p);
    case Lookup => RolesOfFound(w0, obj0, t, p);
    case Update(_) => RolesWhenUpdating(w0, obj0, t, p);
    case SyncRoles(_) => RolesWhenSyncing(w0, obj0, t, p);
    case FetchCurrent(_) => RolesWhenConfirming(w0, obj0, t, p);
    case SyncSecret(_) => RolesWhenConfirming(w0, obj0, t, p);
    case ReadStatus(_) => RolesWhenReading(w0, obj0, t, p);
    case WriteStatus(_, _) => RolesWhenWriting(w0, obj0, t, p);
    case Done(_) => RolesWhenDone(w0, obj0, t, p);
    case _ => RolesPrepared(w0, obj0, t, p);
  }

  // From the update on the pass holds an identifier.
  predicate HeldOnTrack(p: Proc) {
    p.pc.Update? || p.pc.SyncRoles? || p.pc.WriteStatus? ==> p.obj.status.clientUuid != ""
  }

  lemma HeldByInvariant(w0: World, obj0: Client, w: World, p: Proc)
    requires ProcInv(w, p) && OnTrack(w0, obj0, w, p)
    ensures HeldOnTrack(p)
  {
  }

  lemma {:induction false} RolesAlong(tape: nat -> Tick, key: ObjectKey, n: nat)
    requires WorldInv(tape(0).world) && key in tape(0).world.cluster
    requires var obj := tape(0).world.cluster[key];
      Reconcilable(tape(0).world, obj) && Alone(tape, Start(obj)) && Healthy(tape, Start(obj))
      && RolesHealthy(tape, Start(obj))
    ensures var obj := tape(0).world.cluster[key]; var p := Run(tape, Start(obj), 0, n);
      OnTrack(tape(0).world, obj, tape(n).world, p) && RolesOnTrack(tape(0).world, obj, tape(n).world, p)
    decreases n
  {
    var w0, obj := tape(0).world, tape(0).world.cluster[key];
    PassOnTrack(tape, key, n);
    if n > 0 {
      RolesAlong(tape, key, n - 1);
      PassOnTrack(tape, key, n - 1);
      var q := Run(tape, Start(obj), 0, n - 1);
      ServedAt(tape, Start(obj), n - 1);
      assert RoleServed(tape(n - 1), q);
      assert tape((n - 1) + 1).world == Step(tape(n - 1), q).world;
      HeldByInvariant(w0, obj, tape(n - 1).world, q);
      hide Step, OnTrack, RolesOnTrack, WorldInv, ProcInv, Served, RoleServed, Alone, Healthy, RolesHealthy,
          Reconcilable;
      StepRoles(w0, obj, tape(n - 1), q);
    }
  }

  lemma RolesAtTheEnd(w0: World, obj0: Client, w: World, p: Proc) returns (live: map<string, Uuid>)
    requires OnTrack(w0, obj0, w, p) && RolesOnTrack(w0, obj0, w, p) && p.pc.Done?
    ensures Finished(w0, obj0, w, live) && live.Keys == R.DesiredRoles(obj0.spec.roles).Keys
  {
    live :| Finished(w0, obj0, w, live);
  }

  lemma NoRolesDeclared(specs: seq<R.RoleSpec>)
    ensures R.DesiredRoles(specs) == map[] <==> specs == []
  {
    if specs != [] {
      assert specs[|specs| - 1].name in R.DesiredRoles(specs);
    }
  }

  /** An undisturbed pass whose calls and role pass succeed leaves exactly the declared roles in Keycloak. The recorded
      role identifiers are the live ones exactly if, for a report that differs from the last one, no empty map would
      have to replace another; and, for the same report again, the records were up to date before the pass. */
  lemma DeclaredRolesConverge(tape: nat -> Tick, key: ObjectKey, n: nat) returns (live: map<string, Uuid>)
    requires WorldInv(tape(0).world) && key in tape(0).world.cluster && n >= 13
    requires var obj := tape(0).world.cluster[key];
      Reconcilable(tape(0).world, obj) && Alone(tape, Start(obj)) && Healthy(tape, Start(obj))
      && RolesHealthy(tape, Start(obj))
    ensures Finished(tape(0).world, tape(0).world.cluster[key], tape(n).world, live)
    ensures live.Keys == R.DesiredRoles(tape(0).world.cluster[key].spec.roles).Keys
    ensures var w0 := tape(0).world; var obj := w0.cluster[key]; var before := S.Roles(obj.status);
      S.Roles(tape(n).world.cluster[key].status) == live
      <==> if S.StatusUnchanged(obj.status, Report(w0, obj)) then UpToDate(w0, obj)
           else obj.spec.roles != [] || before == map[]
  {
    var w0, obj := tape(0).world, tape(0).world.cluster[key];
    Converges(tape, key, n);
    RolesAlong(tape, key, n);
    KeyIsStored(w0, key);
    NoRolesDeclared(obj.spec.roles);
    hide Step, OnTrack, RolesOnTrack, WorldInv, Alone, Healthy, RolesHealthy, Reconcilable, Settled, RolesExact,
        R.DesiredRoles, Changes, UpToDate;
    live := RolesAtTheEnd(w0, obj, tape(n).world, Run(tape, Start(obj), 0, n));
    UpToDateMeans(w0, obj, tape(n).world, tape(n).world.cluster[key].status.clientUuid, live);
  }

  lemma KeyIsStored(w: World, key: ObjectKey)
    requires WorldInv(w) && key in w.cluster
    ensures w.cluster[key].key == key
  {
  }

  /** So whenever the records are out of date while the report stays the same (role names were added or removed, or a
      declared role was deleted in Keycloak, or deleted and created again), they stay what they were, and are not the
      identifiers of the live roles. */
  lemma StaleRoleTracking(tape: nat -> Tick, key: ObjectKey, n: nat) returns (live: map<string, Uuid>)
    requires WorldInv(tape(0).world) && key in tape(0).world.cluster && n >= 13
    requires var obj := tape(0).world.cluster[key];
      Reconcilable(tape(0).world, obj) && Alone(tape, Start(obj)) && Healthy(tape, Start(obj))
      && RolesHealthy(tape, Start(obj))
    requires var obj := tape(0).world.cluster[key];
      S.StatusUnchanged(obj.status, Report(tape(0).world, obj))
      && !UpToDate(tape(0).world, obj)
    ensures Finished(tape(0).world, tape(0).world.cluster[key], tape(n).world, live)
    ensures S.Roles(tape(n).world.cluster[key].status) == S.Roles(tape(0).world.cluster[key].status) != live
  {
    KeyIsStored(tape(0).world, key);
    hide Alone, Healthy, RolesHealthy, Reconcilable, WorldInv, R.DesiredRoles, Changes, UpToDate;
    live := DeclaredRolesConverge(tape, key, n);
  }

  // ---- Such passes exist ----

  ghost predicate RolesValid(w: World) {
    forall id | id in w.roles :: ServerOf(w.roles[id]).Valid()
  }

  // An answer that helps: that of ClientConvergence, with the outcome of a successful role pass.
  ghost function HelpfulToo(w: World, p: Proc): Tick {
    var t := Helpful(w, p);
    var here := RolesOf(w, p.obj.status.clientUuid);
    if p.pc.SyncRoles? && exists roles, tracked :: RolesServed(t.(roles := roles, tracked := tracked), p.obj) then
      var roles, tracked :| RolesServed(t.(roles := roles, tracked := tracked), p.obj);
      t.(roles := roles, tracked := tracked)
    else t.(roles := here)
  }

  lemma SuccessfulRolePass(t: Tick, obj: Client) returns (roles: map<Uuid, R.Role>, tracked: map<string, Uuid>)
    requires RolesValid(t.world)
    ensures RolesServed(t.(roles := roles, tracked := tracked), obj)
  {
    var id := obj.status.clientUuid;
    var s := ServerOf(RolesOf(t.world, id));
    hide R.Reconcile, R.Undisturbed;
    var c := Results.SuccessfulPassExists(s, S.Roles(obj.status), obj.spec.roles, Context(obj, id),
        UsedIds(t.world, obj));
    assert R.Enumerates(c.order, R.DesiredRoles(obj.spec.roles)) by {
      UndisturbedMeans(s, obj.spec.roles, c);
    }
    var q := R.Reconcile(s, S.Roles(obj.status), obj.spec.roles, Context(obj, id), c);
    roles, tracked := q.server.roles, q.tracked;
    assert RolesServedBy(t.(roles := roles, tracked := tracked), obj, c);
  }

  lemma UndisturbedMeans(s: R.Server, specs: seq<R.RoleSpec>, c: R.Choices)
    requires R.Undisturbed(s, specs, c)
    ensures R.Enumerates(c.order, R.DesiredRoles(specs))
  {
  }

  lemma HelpfulTooServes(w: World, p: Proc)
    requires RolesValid(w)
    ensures var t := HelpfulToo(w, p); t.world == w && Served(t, p) && RoleServed(t, p)
    ensures p.pc.SyncRoles? ==> RolesServed(HelpfulToo(w, p), p.obj)
  {
    HelpfulServes(w, p);
    if p.pc.SyncRoles? {
      var roles, tracked := SuccessfulRolePass(Helpful(w, p), p.obj);
      assert RolesServed(Helpful(w, p).(roles := roles, tracked := tracked), p.obj);
    }
    hide Helpful, RolesServed;
  }

  lemma PutKeepsRoles(t: Tick, p: Proc, wanted: Client, next: Pc, failed: Proc)
    ensures StepPut(t, p, wanted, next, failed).world.roles == t.world.roles
  {
  }

  lemma KeycloakKeepsRoles(t: Tick, p: Proc)
    requires p.pc.Update? || p.pc.DeleteClient? || p.pc.WriteStatus?
    ensures Step(t, p).world.roles == t.world.roles
  {
    hide F.ApplyChanges, F.ClientDiffs, S.MergeStatus;
  }

  lemma ReadsKeepRoles(t: Tick, p: Proc)
    requires p.pc.Config? || p.pc.CheckRealm? || p.pc.Fetch? || p.pc.Lookup? || p.pc.FetchCurrent? || p.pc.SyncSecret?
          || p.pc.FindRealm? || p.pc.ReadStatus? || p.pc.Done?
    ensures Step(t, p).world == t.world
  {
    hide StepConfig, StepCheckRealm, StepFetch, StepLookup, StepFetchCurrent, StepSyncSecret, StepFindRealm,
        StepReadStatus;
  }

  // What a call can do to the roles.
  lemma RoleEffects(t: Tick, p: Proc)
    ensures var roles, roles' := t.world.roles, Step(t, p).world.roles;
      roles' == roles || roles' == roles[t.id := map[]]
      || ((p.pc.SyncRoles? || p.pc.DeleteRoles?) && roles' == roles[p.obj.status.clientUuid := t.roles])
  {
    hide StepPut, StepConfig, StepCheckRealm, StepFetch, StepLookup, StepFetchCurrent, StepSyncSecret, StepFindRealm,
         StepReadStatus, StepWriteStatus, StepUpdate, StepDeleteClient;
    match p.pc
    case AddFinalizer => PutKeepsRoles(t, p, p.obj.(finalizer := true), CheckRealm, p.(pc := Done(Failed)));
    case SetOwner(uid) => PutKeepsRoles(t, p, Owned(p.obj, uid), Fetch,
        ClientPass.Report(p, true, OWNER_FAILED + t.text));
    case RemoveFinalizer(_) => PutKeepsRoles(t, p, p.obj.(finalizer := false), Done(Stopped), p.(pc := Done(Failed)));
    case Update(_) => KeycloakKeepsRoles(t, p);
    case DeleteClient => KeycloakKeepsRoles(t, p);
    case WriteStatus(_, _) => KeycloakKeepsRoles(t, p);
    case Create =>
    case SyncRoles(_) =>
    case DeleteRoles =>
    case _ => ReadsKeepRoles(t, p);
  }

  lemma HelpfulRoles(w: World, p: Proc)
    requires RolesValid(w)
    ensures ServerOf(HelpfulToo(w, p).roles).Valid() && HelpfulToo(w, p).world == w
  {
    HelpfulTooServes(w, p);
    if p.pc.SyncRoles? {
      ServedRolesValid(HelpfulToo(w, p), p.obj);
    }
    hide Helpful, RolesServed;
  }

  lemma RolesStayValid(w: World, p: Proc)
    requires RolesValid(w)
    ensures RolesValid(Step(HelpfulToo(w, p), p).world)
  {
    hide Step, HelpfulToo;
    HelpfulRoles(w, p);
    RoleEffects(HelpfulToo(w, p), p);
  }

  lemma ServedRolesValid(t: Tick, obj: Client)
    requires RolesServed(t, obj)
    ensures ServerOf(t.roles).Valid()
  {
    var c: R.Choices :| RolesServedBy(t, obj, c);
    var id := obj.status.clientUuid;
    hide R.Reconcile;
    Results.PassConserves(ServerOf(RolesOf(t.world, id)), S.Roles(obj.status), obj.spec.roles, Context(obj, id), c);
  }

  /** From every world whose roles are in order there is a pass that is left alone, meets no failure, and whose role
      pass succeeds. */
  lemma HealthyPassExists(w: World, obj: Client) returns (tape: nat -> Tick)
    requires RolesValid(w)
    ensures tape(0).world == w && Alone(tape, Start(obj)) && Healthy(tape, Start(obj)) && RolesHealthy(tape, Start(obj))
  {
    hide Step, HelpfulToo, Served, RoleServed, Start, RolesValid;
    tape := Tapes.Solo(Step, HelpfulToo, w, Start(obj));
    HelpfulTooServes(w, Start(obj));
    Tapes.SoloRuns(Step, HelpfulToo, w, Start(obj), 0);
    forall i: nat
      ensures tape(i + 1).world == Step(tape(i), Run(tape, Start(obj), 0, i)).world
      ensures Served(tape(i), Run(tape, Start(obj), 0, i)) && RoleServed(tape(i), Run(tape, Start(obj), 0, i))
    {
      Tapes.SoloRuns(Step, HelpfulToo, w, Start(obj), i);
      SoloRolesValid(w, Start(obj), i);
      SoloRolesValid(w, Start(obj), i + 1);
      var here := Tapes.Unroll(Step, HelpfulToo, w, Start(obj), i);
      var next := Tapes.Unroll(Step, HelpfulToo, w, Start(obj), i + 1);
      HelpfulTooServes(here.world, here.proc);
      HelpfulTooServes(next.world, next.proc);
      assert tape(i + 1) == HelpfulToo(next.world, next.proc);
      assert next == Step(HelpfulToo(here.world, here.proc), here.proc);
    }
  }

  lemma {:induction false} SoloRolesValid(w: World, p: Proc, n: nat)
    requires RolesValid(w)
    ensures RolesValid(Tapes.Unroll(Step, HelpfulToo, w, p, n).world)
  {
    hide Step, HelpfulToo, RolesValid;
    if n > 0 {
      SoloRolesValid(w, p, n - 1);
      var e := Tapes.Unroll(Step, HelpfulToo, w, p, n - 1);
      RolesStayValid(e.world, e.proc);
    }
  }
}
