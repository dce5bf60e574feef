/** A client whose recorded role identifier is stale for good: a declared role was deleted in Keycloak, and perhaps
    created again, while the object stayed Ready. */
module StaleRoles {
  import opened Common
  import opened ClientPass
  import opened ClientRuns
  import opened ClientConvergence
  import opened ClientRoleConvergence
  import Roles = ClientRoleConvergence
  import F = ClientFields
  import R = ClientRoles
  import Results = ClientRolesResults
  import S = ClientStatus

  const KEY := ObjectKey("ns", "app")
  const CONFIG := ObjectKey("ns", "kc")
  const REALM := ObjectKey("realms", "r")
  const RECORDED: map<string, Uuid> := map["admin" := "old"]

  // The object declares one role, records it as "old", and was last reported as unchanged.
  function Object(f: F.ClientSpec): Client {
    Client(KEY, Spec(Ref("kc", ""), Ref("r", "realms"), f, [R.RoleSpec("admin", "")]), true, false, map[],
           S.Status(true, true, UNCHANGED, None, "c", Some(RECORDED), None), 1)
  }

  // Its client is as declared, and has these roles.
  function Drifted(f: F.ClientSpec, roles: map<Uuid, R.Role>): World {
    World(map[KEY := Object(f)], map[CONFIG := true], map[REALM := Realm(true, "1")],
          map["c" := F.BuildClient(f, "r").(id := "c")], {"c"}, map["c" := roles], 1)
  }

  lemma DriftedPrepared(f: F.ClientSpec, roles: map<Uuid, R.Role>)
    requires "old" !in roles
    ensures var w, obj := Drifted(f, roles), Object(f);
      WorldInv(w) && Reconcilable(w, obj) && !UpToDate(w, obj) && S.StatusUnchanged(obj.status, Roles.Report(w, obj))
  {
    var c := F.BuildClient(f, "r");
    F.BuildAndApplyMatch(f, c, c, "r");
    F.MatchesAnyId(f, c, "c");
    assert c.(id := "c").realmId == "r";
    hide F.BuildClient, F.Matches, R.DesiredRoles;
    assert "admin" in S.Roles(Object(f).status);
  }

  lemma OneRoleDeclared()
    ensures R.DesiredRoles([R.RoleSpec("admin", "")]) == map["admin" := R.RoleSpec("admin", "")]
  {
    assert R.DesiredRoles([R.RoleSpec("admin", "")][..0]) == map[];
  }

  lemma TheOneRole(f: F.ClientSpec, roles: map<Uuid, R.Role>, w: World, live: map<string, Uuid>) returns (id: Uuid)
    requires Finished(Drifted(f, roles), Object(f), w, live) && live != RECORDED
    ensures var after := RolesOf(w, w.cluster[KEY].status.clientUuid);
      after.Keys == {id} && after[id].name == "admin" && id != "old"
    ensures forall i | i in roles && roles[i].name == "admin" :: i == id
  {
    OneRoleDeclared();
    id := live["admin"];
    assert live == map["admin" := id];
    var end := w.cluster[KEY].status.clientUuid;
    SurvivorsStay(roles, R.DesiredRoles(Object(f).spec.roles), Context(Object(f), end), RolesOf(w, end), live);
    hide R.DesiredRoles;
  }

  /** Whatever roles the client has besides the one recorded: every undisturbed pass without failures leaves exactly one
      role, named as declared (the one recreated under that name, if there is one), and leaves an identifier recorded
      that no role has. */
  lemma VanishedRoleStaysRecorded(f: F.ClientSpec, roles: map<Uuid, R.Role>, tape: nat -> Tick, n: nat)
      returns (id: Uuid)
    requires "old" !in roles && tape(0).world == Drifted(f, roles) && n >= 13
    requires Alone(tape, Start(Object(f))) && Healthy(tape, Start(Object(f))) && RolesHealthy(tape, Start(Object(f)))
    ensures var w := tape(n).world;
      KEY in w.cluster && S.Roles(w.cluster[KEY].status) == RECORDED
      && var live := RolesOf(w, w.cluster[KEY].status.clientUuid);
         live.Keys == {id} && live[id].name == "admin" && id != "old"
    ensures forall i | i in roles && roles[i].name == "admin" :: i == id
  {
    hide Alone, Healthy, RolesHealthy, WorldInv, Reconcilable, UpToDate, Roles.Report, S.StatusUnchanged,
        R.DesiredRoles, RolesExact;
    DriftedPrepared(f, roles);
    var live := StaleRoleTracking(tape, KEY, n);
    id := TheOneRole(f, roles, tape(n).world, live);
  }
}
