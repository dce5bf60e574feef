/** The role methods as the code has them: loops that fill maps, delete tracking entries in place and issue
    Keycloak writes one by one. Each is proved to do what the functions of module ClientRoles say. */
module RoleReconciler {
  import opened Common
  import opened ClientRoles

  method BuildRoleMap(roles: seq<Role>) returns (roleMap: map<string, Role>)
    ensures roleMap == RoleMap(roles)
  {
    roleMap := map[];
    for i := 0 to |roles|
      invariant roleMap == RoleMap(roles[..i])
    {
      assert roles[..i + 1][..i] == roles[..i];
      roleMap := roleMap[roles[i].name := roles[i]];
    }
    assert roles[..|roles|] == roles;
  }

  method BuildDesiredRoleMap(specs: seq<RoleSpec>) returns (desired: Desired)
    ensures desired == DesiredRoles(specs)
  {
    desired := map[];
    for i := 0 to |specs|
      invariant desired == DesiredRoles(specs[..i])
    {
      assert specs[..i + 1][..i] == specs[..i];
      desired := desired[specs[i].name := specs[i]];
    }
    assert specs[..|specs|] == specs;
  }

  // The role is stored as it was listed.
  ghost predicate Stored(s: Server, role: Role) {
    s.Valid() && role.id in s.roles && s.roles[role.id] == role
  }

  // Identifier, name, composite flag and attributes survive a change of description.
  predicate OnlyDescribed(role: Role, role': Role) {
    role' == role.(description := role'.description, clientRole := role'.clientRole)
  }

  predicate SameApartFrom(s: Server, s': Server, id: Uuid) {
    s'.roles - {id} == s.roles - {id}
  }

  class Reconciler {
    const env: Environment
    var server: Server
    var tracked: map<string, Uuid>

    constructor (env: Environment, server: Server, tracked: map<string, Uuid>)
      ensures this.env == env && this.server == server && this.tracked == tracked
    {
      this.env, this.server, this.tracked := env, server, tracked;
    }

    // Go's range over a map yields its keys in an order of its own: `names` is that order.
    method CleanupTrackedRoles(desired: Desired, names: seq<string>)
      requires forall name :: name in names <==> name in tracked
      modifies this`tracked
      ensures tracked == StillDesired(old(tracked), desired)
    {
      for i := 0 to |names|
        invariant tracked.Keys <= old(tracked).Keys
        invariant forall name | name in tracked :: tracked[name] == old(tracked)[name]
        invariant forall name | name in old(tracked) :: name in tracked <==> (name in desired || name !in names[..i])
      {
        if names[i] !in desired {
          tracked := tracked - {names[i]};
        }
      }
      assert names[..|names|] == names;
    }

    method DeleteUnwantedRoles(existing: seq<Role>, desired: Desired) returns (ok: bool)
      modifies this`server
      ensures (server, ok) == DeleteUnwanted(old(server), env, existing, desired)
    {
      for i := 0 to |existing|
        invariant DeleteUnwanted(old(server), env, existing, desired)
            == DeleteUnwanted(server, env, existing[i..], desired)
      {
        assert existing[i..][1..] == existing[i + 1..];
        if existing[i].name !in desired {
          var served := Delete(server, env, existing[i].id);
          server := served.server;
          if served.reply.Failed? {
            return false;
          }
        }
      }
      return true;
    }

    method UpdateRoleIfNeeded(role: Role, spec: RoleSpec) returns (ok: bool)
      modifies this`server
      ensures role.description == spec.description ==> ok && server == old(server)
      ensures role.description != spec.description ==>
        var served := Update(old(server), env, Described(role, spec));
        server == served.server && ok == served.reply.Ok?
      ensures Stored(old(server), role) ==>
        role.id in server.roles && (ok <==> server.roles[role.id].description == spec.description)
        && OnlyDescribed(role, server.roles[role.id]) && SameApartFrom(old(server), server, role.id)
      ensures Stored(old(server), role) ==> forall desired: Desired ::
        role.name in desired && desired[role.name] == spec ==>
          Conserved(old(server), server, desired) && server.Valid()
    {
      forall desired: Desired | Stored(server, role) && role.name in desired && desired[role.name] == spec
                                && role.description != spec.description
        ensures var r := Update(server, env, Described(role, desired[role.name])).server;
          Conserved(server, r, desired) && r.Valid()
      {
        UpdateLowers(server, env, role, desired);
      }
      if role.description != spec.description {
        var served := Update(server, env, Described(role, spec));
        server := served.server;
        return served.reply.Ok?;
      }
      return true;
    }

    method CreateRole(name: string, spec: RoleSpec, ctx: Context) returns (ok: bool)
      modifies this`server, this`tracked
      ensures var served := Create(old(server), env, NewRole(ctx, spec, name));
        server == served.server && ok == served.reply.Ok?
        && tracked == if ok then old(tracked)[name := served.reply.id] else old(tracked)
      ensures ok ==> name in tracked && tracked[name] !in old(server).roles && tracked[name] in server.roles
      ensures ok ==> CreatedAs(server.roles[tracked[name]], ctx, name, spec, tracked[name])
      ensures ok ==> SameApartFrom(old(server), server, tracked[name])
      ensures !ok ==> tracked == old(tracked) && server.roles == old(server).roles
      ensures old(server).HasName(name) ==> !ok
      ensures old(server).Valid() && !old(server).HasName(name) ==> forall desired: Desired ::
        name in desired && desired[name] == spec ==> Conserved(old(server), server, desired) && server.Valid()
    {
      forall desired: Desired | server.Valid() && !server.HasName(name) && name in desired && desired[name] == spec
        ensures var r := Create(server, env, NewRole(ctx, desired[name], name)).server;
          Conserved(server, r, desired) && r.Valid()
      {
        CreateLowers(server, env, ctx, name, desired);
      }
      var served := Create(server, env, NewRole(ctx, spec, name));
      server := served.server;
      if !served.reply.Ok? {
        return false;
      }
      tracked := tracked[name := served.reply.id];
      return true;
    }

    method CreateOrUpdateRoles(existing: map<string, Role>, desired: Desired, order: seq<string>, ctx: Context)
      returns (ok: bool)
      requires forall name | name in order :: name in desired
      modifies this`server, this`tracked
      ensures Pass(server, tracked, ok)
           == CreateOrUpdate(Pass(old(server), old(tracked), true), env, order, existing, desired, ctx)
    {
      for i := 0 to |order|
        invariant CreateOrUpdate(Pass(old(server), old(tracked), true), env, order, existing, desired, ctx)
               == CreateOrUpdate(Pass(server, tracked, true), env, order[i..], existing, desired, ctx)
      {
        assert order[i..][1..] == order[i + 1..];
        var name := order[i];
        if name in existing {
          ok := UpdateRoleIfNeeded(existing[name], desired[name]);
          if !ok {
            return;
          }
          tracked := tracked[name := existing[name].id];
        } else {
          ok := CreateRole(name, desired[name], ctx);
          if !ok {
            return;
          }
        }
      }
      return true;
    }

    /** reconcileClientRoles, for every listing order, every iteration order and every pattern of failing calls. */
    method ReconcileClientRoles(specs: seq<RoleSpec>, ctx: Context, listing: seq<Role>, order: seq<string>,
        names: seq<string>)
      returns (ok: bool)
      requires forall name | name in order :: name in DesiredRoles(specs)
      requires forall name :: name in names <==> name in tracked
      modifies this`server, this`tracked
      ensures Pass(server, tracked, ok)
           == Reconcile(old(server), old(tracked), specs, ctx, Choices(env, listing, order))
    {
      var fault := env(|server.calls|).fault;
      server := server.(calls := server.calls + [ListRoles]);
      if fault {
        return false;
      }
      var existing := BuildRoleMap(listing);
      var desired := BuildDesiredRoleMap(specs);
      CleanupTrackedRoles(desired, names);
      ok := DeleteUnwantedRoles(listing, desired);
      if !ok {
        return;
      }
      ok := CreateOrUpdateRoles(existing, desired, order, ctx);
    }

    // deleteClientRoles: one call for each tracked role, in any order; failures are ignored.
    method DeleteClientRoles(names: seq<string>)
      requires forall name :: name in names <==> name in tracked
      modifies this`server
      ensures server == DeleteTracked(old(server), env, Identifiers(tracked, names))
    {
      ghost var ids := Identifiers(tracked, names);
      for i := 0 to |names|
        invariant server == DeleteTracked(old(server), env, ids[..i])
      {
        assert ids[..i + 1][..i] == ids[..i];
        server := Delete(server, env, tracked[names[i]]).server;
      }
      assert ids[..|names|] == ids;
    }
  }
}
