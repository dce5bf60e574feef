/** Reconciling the roles of one Keycloak client (internal/controller/client/roles.go): what a pass does to
    Keycloak and to the tracked identifiers, whatever the order of Go's map iterations and whichever calls fail. */
module ClientRoles {
  import opened Common

  datatype Role = Role(
    id: Uuid,
    realmId: string,
    clientId: Uuid,
    name: string,
    description: string,
    clientRole: bool,
    containerId: Uuid,
    composite: bool,
    attributes: SliceMap)

  datatype RoleSpec = RoleSpec(name: string, description: string)

  type Desired = map<string, RoleSpec>

  datatype Call = ListRoles | DeleteRole(id: Uuid) | UpdateRole(role: Role) | CreateRole(role: Role)

  /** Keycloak's roles of this client, the calls issued so far and how many of them wrote. */
  datatype Server = Server(roles: map<Uuid, Role>, calls: seq<Call>, writes: nat) {
    // Keycloak keeps role names unique within a client.
    ghost predicate Valid() {
      && (forall id | id in roles :: roles[id].id == id)
      && (forall i, j | i in roles && j in roles && roles[i].name == roles[j].name :: i == j)
    }

    predicate HasName(name: string) {
      exists id | id in roles :: roles[id].name == name
    }
  }

  // How the environment answers the next call: with a failure of its own, or with this fresh identifier.
  datatype Answer = Answer(fault: bool, id: Uuid)

  type Environment = nat -> Answer

  datatype Reply = Ok(id: Uuid) | NotFound | Failed

  datatype Served = Served(server: Server, reply: Reply)

  function Delete(s: Server, env: Environment, id: Uuid): Served {
    var s' := s.(calls := s.calls + [DeleteRole(id)]);
    if env(|s.calls|).fault then Served(s', Failed)
    else if id !in s.roles then Served(s', NotFound)
    else Served(s'.(roles := s.roles - {id}, writes := s.writes + 1), Ok(id))
  }

  function Update(s: Server, env: Environment, role: Role): Served {
    var s' := s.(calls := s.calls + [UpdateRole(role)]);
    if env(|s.calls|).fault then Served(s', Failed)
    else if role.id !in s.roles then Served(s', NotFound)
    else Served(s'.(roles := s.roles[role.id := role], writes := s.writes + 1), Ok(role.id))
  }

  // Creating fails for a name in use, and for an identifier Keycloak could not have issued.
  function Create(s: Server, env: Environment, role: Role): Served {
    var s' := s.(calls := s.calls + [CreateRole(role)]);
    var a := env(|s.calls|);
    if a.fault || s.HasName(role.name) || a.id == "" || a.id in s.roles then Served(s', Failed)
    else Served(s'.(roles := s.roles[a.id := role.(id := a.id)], writes := s.writes + 1), Ok(a.id))
  }

  // ---- The pass, as functions ----

  // Later entries of the spec win.
  function DesiredRoles(specs: seq<RoleSpec>): Desired {
    if specs == [] then map[]
    else DesiredRoles(specs[..|specs| - 1])[specs[|specs| - 1].name := specs[|specs| - 1]]
  }

  function RoleMap(roles: seq<Role>): map<string, Role> {
    if roles == [] then map[]
    else RoleMap(roles[..|roles| - 1])[roles[|roles| - 1].name := roles[|roles| - 1]]
  }

  function StillDesired(tracked: map<string, Uuid>, desired: Desired): map<string, Uuid> {
    map name | name in tracked && name in desired :: tracked[name]
  }

  datatype Pass = Pass(server: Server, tracked: map<string, Uuid>, ok: bool)

  function DeleteUnwanted(s: Server, env: Environment, existing: seq<Role>, desired: Desired): (Server, bool)
    decreases |existing|
  {
    if existing == [] then (s, true)
    else if existing[0].name in desired then DeleteUnwanted(s, env, existing[1..], desired)
    else
      var served := Delete(s, env, existing[0].id);
      if served.reply.Failed? then (served.server, false)
      else DeleteUnwanted(served.server, env, existing[1..], desired)
  }

  // Deletes these roles whatever happens.
  function DeleteTracked(s: Server, env: Environment, ids: seq<Uuid>): Server {
    if ids == [] then s else Delete(DeleteTracked(s, env, ids[..|ids| - 1]), env, ids[|ids| - 1]).server
  }

  function Identifiers(tracked: map<string, Uuid>, names: seq<string>): seq<Uuid>
    requires forall name | name in names :: name in tracked
  {
    seq(|names|, i requires 0 <= i < |names| => tracked[names[i]])
  }

  datatype Context = Context(realm: string, clientUuid: Uuid)

  function NewRole(ctx: Context, spec: RoleSpec, name: string): Role {
    Role("", ctx.realm, ctx.clientUuid, name, spec.description, true, ctx.clientUuid, false, SliceMap(map[]))
  }

  // A plain role of this client, as the spec has it.
  predicate CreatedAs(role: Role, ctx: Context, name: string, spec: RoleSpec, id: Uuid) {
    && role.id == id && role.name == name && role.description == spec.description
    && role.realmId == ctx.realm && role.clientId == role.containerId == ctx.clientUuid
    && role.clientRole && !role.composite && role.attributes == SliceMap(map[])
  }

  function Described(role: Role, spec: RoleSpec): Role {
    role.(description := spec.description, clientRole := true)
  }

  function SyncOne(p: Pass, env: Environment, name: string, existing: map<string, Role>, spec: RoleSpec,
      ctx: Context): Pass {
    if name in existing then
      var role := existing[name];
      if role.description == spec.description then p.(tracked := p.tracked[name := role.id])
      else
        var served := Update(p.server, env, Described(role, spec));
        if !served.reply.Ok? then p.(server := served.server, ok := false)
        else Pass(served.server, p.tracked[name := role.id], true)
    else
      var served := Create(p.server, env, NewRole(ctx, spec, name));
      if !served.reply.Ok? then p.(server := served.server, ok := false)
      else Pass(served.server, p.tracked[name := served.reply.id], true)
  }

  function CreateOrUpdate(p: Pass, env: Environment, order: seq<string>, existing: map<string, Role>, desired: Desired,
                          ctx: Context): Pass
    requires forall name | name in order :: name in desired
    decreases |order|
  {
    if order == [] then p
    else
      var q := SyncOne(p, env, order[0], existing, desired[order[0]], ctx);
      if !q.ok then q else CreateOrUpdate(q, env, order[1..], existing, desired, ctx)
  }

  // What Go and the API choose for one pass: the listing order, and the iteration order of the desired map.
  datatype Choices = Choices(env: Environment, listing: seq<Role>, order: seq<string>)

  function Reconcile(s: Server, tracked: map<string, Uuid>, specs: seq<RoleSpec>, ctx: Context, c: Choices): Pass
    requires forall name | name in c.order :: name in DesiredRoles(specs)
  {
    var desired := DesiredRoles(specs);
    var listed := s.(calls := s.calls + [ListRoles]);
    if c.env(|s.calls|).fault then Pass(listed, tracked, false)
    else
      var (deleted, ok) := DeleteUnwanted(listed, c.env, c.listing, desired);
      var kept := StillDesired(tracked, desired);
      if !ok then Pass(deleted, kept, false)
      else CreateOrUpdate(Pass(deleted, kept, true), c.env, c.order, RoleMap(c.listing), desired, ctx)
  }

  ghost predicate Lists(listing: seq<Role>, roles: map<Uuid, Role>) {
    && (forall i, j | 0 <= i < j < |listing| :: listing[i].id != listing[j].id)
    && (forall r | r in listing :: r.id in roles && roles[r.id] == r)
    && (forall id | id in roles :: roles[id] in listing)
  }

  ghost predicate Enumerates(order: seq<string>, desired: Desired) {
    && (forall i, j | 0 <= i < j < |order| :: order[i] != order[j])
    && (forall name :: name in order <==> name in desired)
  }

  // The choices of a pass that nobody interferes with.
  ghost predicate Undisturbed(s: Server, specs: seq<RoleSpec>, c: Choices) {
    s.Valid() && Lists(c.listing, s.roles) && Enumerates(c.order, DesiredRoles(specs))
  }

  /** Of several specs with one name the last one counts. */
  lemma {:induction false} LastSpecWins(specs: seq<RoleSpec>, i: nat)
    requires i < |specs| && forall j | i < j < |specs| :: specs[j].name != specs[i].name
    ensures specs[i].name in DesiredRoles(specs) && DesiredRoles(specs)[specs[i].name] == specs[i]
  {
    if i < |specs| - 1 {
      LastSpecWins(specs[..|specs| - 1], i);
    }
  }

  lemma {:induction false} RoleMapExact(listing: seq<Role>)
    requires forall i, j | 0 <= i < j < |listing| :: listing[i].name != listing[j].name
    ensures forall name | name in RoleMap(listing) ::
      RoleMap(listing)[name] in listing && RoleMap(listing)[name].name == name
    ensures forall r | r in listing :: r.name in RoleMap(listing) && RoleMap(listing)[r.name] == r
  {
    if listing != [] {
      var init, last := listing[..|listing| - 1], listing[|listing| - 1];
      RoleMapExact(init);
      forall r | r in listing ensures r.name in RoleMap(listing) && RoleMap(listing)[r.name] == r {
        if r != last {
          assert r in init;
        }
      }
    }
  }

  /** Deleting the tracked roles: one call for each, and a role is left exactly if it was there and every call for it
      failed. */
  lemma {:induction false} DeleteTrackedExact(s: Server, env: Environment, ids: seq<Uuid>, id: Uuid)
    ensures var s' := DeleteTracked(s, env, ids);
      s'.calls == s.calls + seq(|ids|, i requires 0 <= i < |ids| => DeleteRole(ids[i]))
      && (id in s'.roles <==> id in s.roles && forall i | 0 <= i < |ids| && ids[i] == id :: env(|s.calls| + i).fault)
      && (id in s'.roles ==> s'.roles[id] == s.roles[id])
  {
    if ids != [] {
      var init, last := ids[..|ids| - 1], |ids| - 1;
      DeleteTrackedExact(s, env, init, id);
      assert forall i | 0 <= i < last :: init[i] == ids[i];
    }
  }

  // ---- The write budget ----

  function Undesired(s: Server, desired: Desired): set<Uuid> {
    set id | id in s.roles && s.roles[id].name !in desired
  }

  function Missing(s: Server, desired: Desired): set<string> {
    set name | name in desired && !s.HasName(name)
  }

  function Misdescribed(s: Server, desired: Desired): set<Uuid> {
    set id | id in s.roles && s.roles[id].name in desired
        && s.roles[id].description != desired[s.roles[id].name].description
  }

  function Mismatch(s: Server, desired: Desired): nat {
    |Undesired(s, desired)| + |Missing(s, desired)| + |Misdescribed(s, desired)|
  }

  // Successful writes and remaining mismatch add up to the same total before and after.
  ghost predicate Conserved(s: Server, s': Server, desired: Desired) {
    s'.writes + Mismatch(s', desired) == s.writes + Mismatch(s, desired) && s'.writes >= s.writes
  }

  lemma DeleteLowers(s: Server, env: Environment, id: Uuid, desired: Desired)
    requires s.Valid() && id in Undesired(s, desired)
    ensures Conserved(s, Delete(s, env, id).server, desired) && Delete(s, env, id).server.Valid()
    ensures Delete(s, env, id).reply.Ok? <==> Mismatch(Delete(s, env, id).server, desired) == Mismatch(s, desired) - 1
  {
    var s' := Delete(s, env, id).server;
    if s'.roles != s.roles {
      assert Undesired(s', desired) == Undesired(s, desired) - {id};
      assert Missing(s', desired) == Missing(s, desired) by {
        forall name | name in desired ensures s'.HasName(name) == s.HasName(name) {
          if i :| i in s.roles && s.roles[i].name == name {
            assert i in s'.roles;
          }
        }
      }
      assert Misdescribed(s', desired) == Misdescribed(s, desired);
    } else {
      SameRolesSameMismatch(s, s', desired);
    }
  }

  lemma SameRolesSameMismatch(s: Server, s': Server, desired: Desired)
    requires s.roles == s'.roles
    ensures Mismatch(s, desired) == Mismatch(s', desired)
  {
    assert Undesired(s, desired) == Undesired(s', desired);
    forall name ensures s'.HasName(name) == s.HasName(name) {}
    assert Missing(s, desired) == Missing(s', desired);
    assert Misdescribed(s, desired) == Misdescribed(s', desired);
  }

  lemma NamesStay(s: Server, s': Server)
    requires s'.roles.Keys == s.roles.Keys && forall id | id in s.roles :: s'.roles[id].name == s.roles[id].name
    ensures forall name :: s'.HasName(name) == s.HasName(name)
  {
    forall name ensures s'.HasName(name) == s.HasName(name) {
      if id :| id in s.roles && s.roles[id].name == name {
        assert s'.roles[id].name == name;
      }
    }
  }

  lemma OneNameMore(s: Server, s': Server, id: Uuid, name: string)
    requires id !in s.roles && id in s'.roles && s'.roles == s.roles[id := s'.roles[id]] && s'.roles[id].name == name
    ensures forall other :: s'.HasName(other) == (s.HasName(other) || other == name)
  {
    forall other ensures s'.HasName(other) == (s.HasName(other) || other == name) {
      if i :| i in s.roles && s.roles[i].name == other {
        assert i in s'.roles && s'.roles[i].name == other;
      }
    }
  }

  // Changing one description leaves names alone and mends just that role.
  lemma MendOne(s: Server, s': Server, role: Role, desired: Desired)
    requires s.Valid() && role.id in s.roles && s.roles[role.id] == role && role.name in desired
    requires role.description != desired[role.name].description
    requires s'.roles == s.roles[role.id := Described(role, desired[role.name])]
    ensures s'.Valid() && Mismatch(s', desired) == Mismatch(s, desired) - 1
  {
    assert s'.roles.Keys == s.roles.Keys;
    NamesStay(s, s');
    assert Undesired(s', desired) == Undesired(s, desired);
    assert Missing(s', desired) == Missing(s, desired);
    assert Misdescribed(s', desired) == Misdescribed(s, desired) - {role.id};
  }

  lemma UpdateLowers(s: Server, env: Environment, role: Role, desired: Desired)
    requires s.Valid() && role.id in s.roles && s.roles[role.id] == role
    requires role.name in desired && role.description != desired[role.name].description
    ensures var r := Update(s, env, Described(role, desired[role.name]));
      Conserved(s, r.server, desired) && r.server.Valid()
      && (r.reply.Ok? <==> Mismatch(r.server, desired) == Mismatch(s, desired) - 1)
  {
    var r := Update(s, env, Described(role, desired[role.name]));
    if r.reply.Ok? {
      MendOne(s, r.server, role, desired);
    } else {
      SameRolesSameMismatch(s, r.server, desired);
    }
  }

  lemma CreateLowers(s: Server, env: Environment, ctx: Context, name: string, desired: Desired)
    requires s.Valid() && name in Missing(s, desired)
    ensures var r := Create(s, env, NewRole(ctx, desired[name], name));
      Conserved(s, r.server, desired) && r.server.Valid()
      && (r.reply.Ok? <==> Mismatch(r.server, desired) == Mismatch(s, desired) - 1)
  {
    var r := Create(s, env, NewRole(ctx, desired[name], name));
    var s' := r.server;
    if r.reply.Ok? {
      OneNameMore(s, s', r.reply.id, name);
      assert Undesired(s', desired) == Undesired(s, desired);
      assert Missing(s', desired) == Missing(s, desired) - {name};
      assert Misdescribed(s', desired) == Misdescribed(s, desired);
    } else {
      SameRolesSameMismatch(s, s', desired);
    }
  }
}
