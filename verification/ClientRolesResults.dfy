/** What a role pass achieves: the exact budget of writes, the exact final state, and what it does not depend on. */
module ClientRolesResults {
  import opened Common
  import opened ClientRoles

  // ---- The delete phase ----

  // These listed roles are still stored as listed.
  ghost predicate Pending(s: Server, existing: seq<Role>) {
    && (forall i, j | 0 <= i < j < |existing| :: existing[i].id != existing[j].id)
    && (forall r | r in existing :: r.id in s.roles && s.roles[r.id] == r)
  }

  // Only undesired roles went away, and nothing else changed.
  ghost predicate OnlyUndesiredGone(s: Server, s': Server, desired: Desired) {
    && (forall id | id in s'.roles :: id in s.roles && s'.roles[id] == s.roles[id])
    && (forall id | id in s.roles && s.roles[id].name in desired :: id in s'.roles)
  }

  lemma DeleteOne(s: Server, env: Environment, existing: seq<Role>, desired: Desired)
    requires s.Valid() && Pending(s, existing) && existing != [] && existing[0].name !in desired
    ensures Conserved(s, Delete(s, env, existing[0].id).server, desired)
    ensures Delete(s, env, existing[0].id).server.Valid()
    ensures OnlyUndesiredGone(s, Delete(s, env, existing[0].id).server, desired)
    ensures Pending(Delete(s, env, existing[0].id).server, existing[1..])
    ensures !Delete(s, env, existing[0].id).reply.NotFound?
    ensures Delete(s, env, existing[0].id).reply.Ok? ==> existing[0].id !in Delete(s, env, existing[0].id).server.roles
  {
    assert existing[0] in existing;
    DeleteLowers(s, env, existing[0].id, desired);
    hide Conserved;
    var s' := Delete(s, env, existing[0].id).server;
    forall r | r in existing[1..] ensures r.id in s'.roles && s'.roles[r.id] == r {
      assert r in existing;
    }
  }

  lemma {:induction false} DeletePhase(s: Server, env: Environment, existing: seq<Role>, desired: Desired)
    requires s.Valid() && Pending(s, existing)
    ensures Conserved(s, DeleteUnwanted(s, env, existing, desired).0, desired)
    ensures DeleteUnwanted(s, env, existing, desired).0.Valid()
    ensures OnlyUndesiredGone(s, DeleteUnwanted(s, env, existing, desired).0, desired)
    decreases |existing|
  {
    if existing != [] {
      if existing[0].name in desired {
        assert Pending(s, existing[1..]);
        DeletePhase(s, env, existing[1..], desired);
      } else {
        DeleteOne(s, env, existing, desired);
        var served := Delete(s, env, existing[0].id);
        if !served.reply.Failed? {
          DeletePhase(served.server, env, existing[1..], desired);
        }
      }
    }
  }

  lemma {:induction false} DeletePhaseComplete(s: Server, env: Environment, existing: seq<Role>, desired: Desired,
      r: Role)
    requires s.Valid() && Pending(s, existing) && r in existing && r.name !in desired
    requires DeleteUnwanted(s, env, existing, desired).1
    ensures r.id !in DeleteUnwanted(s, env, existing, desired).0.roles
    decreases |existing|
  {
    var rest := existing[1..];
    if existing[0].name in desired {
      assert Pending(s, rest);
      DeletePhaseComplete(s, env, rest, desired, r);
    } else {
      DeleteOne(s, env, existing, desired);
      var served := Delete(s, env, existing[0].id);
      if r == existing[0] {
        DeletePhase(served.server, env, rest, desired);
      } else {
        DeletePhaseComplete(served.server, env, rest, desired, r);
      }
    }
  }

  lemma {:induction false} DeletePhaseQuiet(s: Server, env: Environment, existing: seq<Role>, desired: Desired)
    requires forall r | r in existing :: r.name in desired
    ensures DeleteUnwanted(s, env, existing, desired) == (s, true)
    decreases |existing|
  {
    if existing != [] {
      assert existing[0] in existing;
      DeletePhaseQuiet(s, env, existing[1..], desired);
    }
  }

  // ---- The create and update phase ----

  // The names in `order` are still stored as they were listed, or missing if they were not listed.
  ghost predicate Ready(s: Server, order: seq<string>, existing: map<string, Role>) {
    && (forall i, j | 0 <= i < j < |order| :: order[i] != order[j])
    && (forall name | name in order && name in existing ::
          existing[name].name == name && existing[name].id in s.roles && s.roles[existing[name].id] == existing[name])
    && (forall name | name in order && name !in existing :: !s.HasName(name))
  }

  // How the role called `name` must come out of the pass.
  ghost predicate Settled(before: map<Uuid, Role>, after: map<Uuid, Role>, tracked: map<string, Uuid>, name: string,
                          existing: map<string, Role>, spec: RoleSpec, ctx: Context) {
    && name in tracked && tracked[name] in after
    && after[tracked[name]] == (
         if name !in existing then NewRole(ctx, spec, name).(id := tracked[name])
         else if existing[name].description == spec.description then existing[name]
         else Described(existing[name], spec))
    && (if name in existing then tracked[name] == existing[name].id else tracked[name] !in before)
  }

  // Roles with other names are the same before and after.
  ghost predicate OthersSame(s: Server, s': Server, names: seq<string>) {
    && (forall id | id in s.roles && s.roles[id].name !in names :: id in s'.roles && s'.roles[id] == s.roles[id])
    && (forall id | id in s'.roles && s'.roles[id].name !in names :: id in s.roles && s'.roles[id] == s.roles[id])
  }

  // One step changes the one role it is about, and nothing else.
  lemma OneRole(p: Pass, env: Environment, name: string, existing: map<string, Role>,
                                   desired: Desired, ctx: Context)
    requires p.ok && p.server.Valid() && name in desired && Ready(p.server, [name], existing)
    ensures var q := SyncOne(p, env, name, existing, desired[name], ctx);
      Conserved(p.server, q.server, desired) && q.server.Valid() && OthersSame(p.server, q.server, [name])
      && (forall id | id in p.server.roles :: id in q.server.roles)
      && (q.ok ==> Settled(p.server.roles, q.server.roles, q.tracked, name, existing, desired[name], ctx)
                   && q.tracked == p.tracked[name := q.tracked[name]])
  {
    var spec := desired[name];
    assert name in [name];
    if name in existing {
      var role := existing[name];
      if role.description != spec.description {
        UpdateLowers(p.server, env, role, desired);
      }
    } else {
      assert name in Missing(p.server, desired);
      CreateLowers(p.server, env, ctx, name, desired);
    }
  }

  lemma OthersSameThen(s: Server, s': Server, s'': Server, order: seq<string>)
    requires order != [] && OthersSame(s, s', [order[0]]) && OthersSame(s', s'', order[1..])
    ensures OthersSame(s, s'', order)
  {
    assert order[0] in order;
    assert forall n | n in order[1..] :: n in order;
  }

  lemma {:induction false} SyncPhase(p: Pass, env: Environment, order: seq<string>, existing: map<string, Role>,
                                     desired: Desired, ctx: Context)
    requires p.ok && p.server.Valid() && (forall name | name in order :: name in desired)
    requires Ready(p.server, order, existing)
    ensures Conserved(p.server, CreateOrUpdate(p, env, order, existing, desired, ctx).server, desired)
    ensures CreateOrUpdate(p, env, order, existing, desired, ctx).server.Valid()
    ensures OthersSame(p.server, CreateOrUpdate(p, env, order, existing, desired, ctx).server, order)
    ensures forall id | id in p.server.roles :: id in CreateOrUpdate(p, env, order, existing, desired, ctx).server.roles
    decreases |order|
  {
    if order != [] {
      var name, rest := order[0], order[1..];
      assert name in order;
      assert Ready(p.server, [name], existing);
      OneRole(p, env, name, existing, desired, ctx);
      hide SyncOne;
      var q := SyncOne(p, env, name, existing, desired[name], ctx);
      if q.ok {
        ReadyAfter(p.server, q.server, order, existing);
        SyncPhase(q, env, rest, existing, desired, ctx);
        OthersSameThen(p.server, q.server, CreateOrUpdate(q, env, rest, existing, desired, ctx).server, order);
      } else {
        assert OthersSame(p.server, q.server, order);
      }
    }
  }

  lemma SyncOneTracks(p: Pass, env: Environment, name: string, existing: map<string, Role>, spec: RoleSpec,
      ctx: Context)
    requires p.ok
    ensures var q := SyncOne(p, env, name, existing, spec, ctx);
      q.ok ==> name in q.tracked && q.tracked == p.tracked[name := q.tracked[name]]
  {
  }

  lemma {:induction false} SyncPhaseTracks(p: Pass, env: Environment, order: seq<string>, existing: map<string, Role>,
                                           desired: Desired, ctx: Context)
    requires p.ok && (forall name | name in order :: name in desired)
    requires CreateOrUpdate(p, env, order, existing, desired, ctx).ok
    ensures CreateOrUpdate(p, env, order, existing, desired, ctx).tracked.Keys
         == p.tracked.Keys + (set name | name in order)
    ensures forall name | name in p.tracked && name !in order ::
      CreateOrUpdate(p, env, order, existing, desired, ctx).tracked[name] == p.tracked[name]
    decreases |order|
  {
    if order != [] {
      SyncOneTracks(p, env, order[0], existing, desired[order[0]], ctx);
      hide SyncOne;
      var q := SyncOne(p, env, order[0], existing, desired[order[0]], ctx);
      SyncPhaseTracks(q, env, order[1..], existing, desired, ctx);
      assert (set n | n in order) == {order[0]} + (set n | n in order[1..]);
    }
  }

  lemma {:induction false} SyncPhaseQuiet(p: Pass, env: Environment, order: seq<string>, existing: map<string, Role>,
                                          desired: Desired, ctx: Context)
    requires p.ok && (forall name | name in order :: name in desired)
    requires forall name | name in order :: name in existing && existing[name].description == desired[name].description
    ensures CreateOrUpdate(p, env, order, existing, desired, ctx).server == p.server
    ensures CreateOrUpdate(p, env, order, existing, desired, ctx).ok
    decreases |order|
  {
    if order != [] {
      assert order[0] in order;
      SyncPhaseQuiet(SyncOne(p, env, order[0], existing, desired[order[0]], ctx), env, order[1..], existing, desired,
          ctx);
    }
  }

  lemma ReadyAfter(s: Server, s': Server, order: seq<string>, existing: map<string, Role>)
    requires order != [] && Ready(s, order, existing)
    requires OthersSame(s, s', [order[0]])
    ensures Ready(s', order[1..], existing)
  {
    var rest := order[1..];
    assert forall name | name in rest :: name in order && name !in [order[0]];
    forall name | name in rest && name !in existing ensures !s'.HasName(name) {
      if id :| id in s'.roles && s'.roles[id].name == name {
        assert s.HasName(name);
      }
    }
  }

  // Every name of the phase comes out settled: later steps leave it alone.
  lemma {:induction false} SyncPhaseSettles(p: Pass, env: Environment, order: seq<string>, existing: map<string, Role>,
                                            desired: Desired, ctx: Context, name: string)
    requires p.ok && p.server.Valid() && (forall n | n in order :: n in desired)
    requires Ready(p.server, order, existing) && name in order
    requires CreateOrUpdate(p, env, order, existing, desired, ctx).ok
    ensures var q := CreateOrUpdate(p, env, order, existing, desired, ctx);
      Settled(p.server.roles, q.server.roles, q.tracked, name, existing, desired[name], ctx)
    decreases |order|
  {
    var first, rest := order[0], order[1..];
    assert first in order;
    assert Ready(p.server, [first], existing);
    OneRole(p, env, first, existing, desired, ctx);
    var q := SyncOne(p, env, first, existing, desired[first], ctx);
    ReadyAfter(p.server, q.server, order, existing);
    assert first !in rest;
    if name == first {
      SyncPhase(q, env, rest, existing, desired, ctx);
      SyncPhaseTracks(q, env, rest, existing, desired, ctx);
    } else {
      SyncPhaseSettles(q, env, rest, existing, desired, ctx, name);
    }
  }

  // ---- A whole pass ----

  lemma ReadyToSync(s: Server, deleted: Server, specs: seq<RoleSpec>, c: Choices)
    requires Undisturbed(s, specs, c)
    requires OnlyUndesiredGone(s, deleted, DesiredRoles(specs))
    ensures Ready(deleted, c.order, RoleMap(c.listing))
  {
    RoleMapExact(c.listing);
    forall name | name in c.order && name !in RoleMap(c.listing) ensures !deleted.HasName(name) {
      forall id | id in deleted.roles ensures deleted.roles[id].name != name {
        assert s.roles[id] in c.listing;
      }
    }
  }

  /** One pass, whichever of its calls fail: every successful role write lowers the mismatch by exactly one and
      nothing else changes it. */
  lemma PassConserves(s: Server, tracked: map<string, Uuid>, specs: seq<RoleSpec>, ctx: Context, c: Choices)
    requires Undisturbed(s, specs, c)
    ensures Conserved(s, Reconcile(s, tracked, specs, ctx, c).server, DesiredRoles(specs))
    ensures Reconcile(s, tracked, specs, ctx, c).server.Valid()
  {
    var desired := DesiredRoles(specs);
    var listed := s.(calls := s.calls + [ListRoles]);
    SameRolesSameMismatch(s, listed, desired);
    if !c.env(|s.calls|).fault {
      DeletePhase(listed, c.env, c.listing, desired);
      var (deleted, ok) := DeleteUnwanted(listed, c.env, c.listing, desired);
      if ok {
        ReadyToSync(s, deleted, specs, c);
        SyncPhase(Pass(deleted, StillDesired(tracked, desired), true), c.env, c.order, RoleMap(c.listing), desired,
            ctx);
      }
    }
  }

  // Exactly the desired roles, tracked under exactly their identifiers; survivors keep everything but the description.
  ghost predicate Exact(before: Server, desired: Desired, ctx: Context, after: Server, tracked: map<string, Uuid>) {
    && tracked.Keys == desired.Keys
    && (forall name | name in desired :: tracked[name] in after.roles && after.roles[tracked[name]].name == name)
    && (forall id | id in after.roles :: after.roles[id].name in tracked && tracked[after.roles[id].name] == id)
    && (forall id | id in before.roles && before.roles[id].name in desired ::
          var spec := desired[before.roles[id].name];
          tracked[before.roles[id].name] == id && id in after.roles &&
          SurvivesAs(before.roles[id], spec, after.roles[id]))
    && (forall name | name in desired && !before.HasName(name) ::
          CreatedAs(after.roles[tracked[name]], ctx, name, desired[name], tracked[name]))
  }

  // A role that stays: only its description may change, and then it is marked as a client role.
  predicate SurvivesAs(role: Role, spec: RoleSpec, role': Role) {
    && role'.id == role.id && role'.realmId == role.realmId && role'.clientId == role.clientId
    && role'.name == role.name && role'.containerId == role.containerId
    && role'.composite == role.composite && role'.attributes == role.attributes
    && role'.description == spec.description
    && (role'.clientRole <==> role.clientRole || role.description != spec.description)
  }

  // How the role called `name` comes out, in terms of the listing.
  function Outcome(listed: map<string, Role>, desired: Desired, name: string, id: Uuid, ctx: Context): Role
    requires name in desired
  {
    if name !in listed then NewRole(ctx, desired[name], name).(id := id)
    else if listed[name].description == desired[name].description then listed[name]
    else Described(listed[name], desired[name])
  }

  lemma OutcomeOf(before: map<Uuid, Role>, after: map<Uuid, Role>, tracked: map<string, Uuid>, name: string,
                  listing: seq<Role>, desired: Desired, ctx: Context)
    requires name in desired && Settled(before, after, tracked, name, RoleMap(listing), desired[name], ctx)
    requires forall i, j | 0 <= i < j < |listing| :: listing[i].name != listing[j].name
    ensures name in tracked && tracked[name] in after
    ensures after[tracked[name]] == Outcome(RoleMap(listing), desired, name, tracked[name], ctx)
    ensures name in RoleMap(listing) ==> tracked[name] == RoleMap(listing)[name].id
    ensures after[tracked[name]].name == name
  {
    RoleMapExact(listing);
  }

  lemma NameSettled(s: Server, tracked: map<string, Uuid>, specs: seq<RoleSpec>, ctx: Context, c: Choices,
                                       name: string)
    requires Undisturbed(s, specs, c) && Reconcile(s, tracked, specs, ctx, c).ok && name in DesiredRoles(specs)
    ensures var q := Reconcile(s, tracked, specs, ctx, c);
      name in q.tracked && q.tracked[name] in q.server.roles
      && q.server.roles[q.tracked[name]] == Outcome(RoleMap(c.listing), DesiredRoles(specs), name, q.tracked[name], ctx)
      && q.server.roles[q.tracked[name]].name == name
      && (name in RoleMap(c.listing) ==> q.tracked[name] == RoleMap(c.listing)[name].id)
  {
    hide CreateOrUpdate, DeleteUnwanted, DesiredRoles, RoleMap, Settled;
    var desired := DesiredRoles(specs);
    var listed := s.(calls := s.calls + [ListRoles]);
    DeletePhase(listed, c.env, c.listing, desired);
    var deleted := DeleteUnwanted(listed, c.env, c.listing, desired).0;
    ReadyToSync(s, deleted, specs, c);
    assert name in c.order;
    var p := Pass(deleted, StillDesired(tracked, desired), true);
    SyncPhaseSettles(p, c.env, c.order, RoleMap(c.listing), desired, ctx, name);
    var q := CreateOrUpdate(p, c.env, c.order, RoleMap(c.listing), desired, ctx);
    hide Ready, OnlyUndesiredGone;
    NamesOnce(s, c.listing);
    OutcomeOf(deleted.roles, q.server.roles, q.tracked, name, c.listing, desired, ctx);
  }

  lemma NamesOnce(s: Server, listing: seq<Role>)
    requires s.Valid() && Lists(listing, s.roles)
    ensures forall i, j | 0 <= i < j < |listing| :: listing[i].name != listing[j].name
  {
    forall i, j | 0 <= i < j < |listing| ensures listing[i].name != listing[j].name {
      assert listing[i] in listing && listing[j] in listing;
    }
  }

  lemma TrackedExactly(s: Server, tracked: map<string, Uuid>, specs: seq<RoleSpec>, ctx: Context, c: Choices)
    requires Undisturbed(s, specs, c) && Reconcile(s, tracked, specs, ctx, c).ok
    ensures Reconcile(s, tracked, specs, ctx, c).tracked.Keys == DesiredRoles(specs).Keys
  {
    hide CreateOrUpdate, DeleteUnwanted;
    var desired := DesiredRoles(specs);
    var deleted := DeleteUnwanted(s.(calls := s.calls + [ListRoles]), c.env, c.listing, desired).0;
    var p := Pass(deleted, StillDesired(tracked, desired), true);
    SyncPhaseTracks(p, c.env, c.order, RoleMap(c.listing), desired, ctx);
    assert (set name | name in c.order) == desired.Keys;
  }

  lemma OnlyDesiredLeft(s: Server, tracked: map<string, Uuid>, specs: seq<RoleSpec>, ctx: Context, c: Choices,
                                           id: Uuid)
    requires Undisturbed(s, specs, c) && Reconcile(s, tracked, specs, ctx, c).ok
    requires id in Reconcile(s, tracked, specs, ctx, c).server.roles
    ensures Reconcile(s, tracked, specs, ctx, c).server.roles[id].name in DesiredRoles(specs)
  {
    hide CreateOrUpdate, DeleteUnwanted;
    var desired := DesiredRoles(specs);
    var listed := s.(calls := s.calls + [ListRoles]);
    DeletePhase(listed, c.env, c.listing, desired);
    var deleted := DeleteUnwanted(listed, c.env, c.listing, desired).0;
    ReadyToSync(s, deleted, specs, c);
    SyncPhase(Pass(deleted, StillDesired(tracked, desired), true), c.env, c.order, RoleMap(c.listing), desired, ctx);
    var name := Reconcile(s, tracked, specs, ctx, c).server.roles[id].name;
    if name !in c.order {
      assert deleted.roles[id].name == name && s.roles[id] in c.listing;
      if name !in desired {
        DeletePhaseComplete(listed, c.env, c.listing, desired, s.roles[id]);
      }
    }
  }

  /** A pass that returns no error has made Keycloak's roles and the tracking exact, in any iteration order. */
  lemma PassExact(s: Server, tracked: map<string, Uuid>, specs: seq<RoleSpec>, ctx: Context, c: Choices)
    requires Undisturbed(s, specs, c) && Reconcile(s, tracked, specs, ctx, c).ok
    ensures Exact(s, DesiredRoles(specs), ctx, Reconcile(s, tracked, specs, ctx, c).server,
        Reconcile(s, tracked, specs, ctx, c).tracked)
  {
    var desired := DesiredRoles(specs);
    var q := Reconcile(s, tracked, specs, ctx, c);
    hide Reconcile, CreatedAs, SurvivesAs, NewRole, Described, DesiredRoles, RoleMap;
    TrackedExactly(s, tracked, specs, ctx, c);
    forall id | id in q.server.roles ensures q.server.roles[id].name in desired {
      OnlyDesiredLeft(s, tracked, specs, ctx, c, id);
    }
    PassConserves(s, tracked, specs, ctx, c);
    forall name | name in desired
      ensures q.tracked[name] in q.server.roles && q.server.roles[q.tracked[name]].name == name
      ensures !s.HasName(name) ==>
        CreatedAs(q.server.roles[q.tracked[name]], ctx, name, desired[name], q.tracked[name])
    {
      CreatedExactly(s, tracked, specs, ctx, c, name);
    }
    forall id | id in s.roles && s.roles[id].name in desired
      ensures q.tracked[s.roles[id].name] == id && id in q.server.roles
      ensures SurvivesAs(s.roles[id], desired[s.roles[id].name], q.server.roles[id])
    {
      SurvivesExactly(s, tracked, specs, ctx, c, id);
    }
  }

  lemma CreatedExactly(s: Server, tracked: map<string, Uuid>, specs: seq<RoleSpec>, ctx: Context, c: Choices,
                       name: string)
    requires Undisturbed(s, specs, c) && Reconcile(s, tracked, specs, ctx, c).ok && name in DesiredRoles(specs)
    ensures var q := Reconcile(s, tracked, specs, ctx, c);
      name in q.tracked && q.tracked[name] in q.server.roles && q.server.roles[q.tracked[name]].name == name
      && (!s.HasName(name) ==>
            CreatedAs(q.server.roles[q.tracked[name]], ctx, name, DesiredRoles(specs)[name], q.tracked[name]))
  {
    hide Reconcile, CreatedAs, NewRole, Described, DesiredRoles, RoleMap;
    NamesOnce(s, c.listing);
    RoleMapExact(c.listing);
    NameSettled(s, tracked, specs, ctx, c, name);
    NewRoleMeans(ctx, DesiredRoles(specs)[name], name, Reconcile(s, tracked, specs, ctx, c).tracked[name]);
  }

  lemma SurvivesExactly(s: Server, tracked: map<string, Uuid>, specs: seq<RoleSpec>, ctx: Context, c: Choices, id: Uuid)
    requires Undisturbed(s, specs, c) && Reconcile(s, tracked, specs, ctx, c).ok
    requires id in s.roles && s.roles[id].name in DesiredRoles(specs)
    ensures var q := Reconcile(s, tracked, specs, ctx, c);
      s.roles[id].name in q.tracked && q.tracked[s.roles[id].name] == id && id in q.server.roles
      && SurvivesAs(s.roles[id], DesiredRoles(specs)[s.roles[id].name], q.server.roles[id])
  {
    hide Reconcile, SurvivesAs, NewRole, Described, DesiredRoles, RoleMap;
    NamesOnce(s, c.listing);
    RoleMapExact(c.listing);
    NameSettled(s, tracked, specs, ctx, c, s.roles[id].name);
    SurvivorMeans(s.roles[id], DesiredRoles(specs)[s.roles[id].name]);
    assert s.roles[id] in c.listing;
  }

  lemma NewRoleMeans(ctx: Context, spec: RoleSpec, name: string, id: Uuid)
    ensures CreatedAs(NewRole(ctx, spec, name).(id := id), ctx, name, spec, id)
  {
  }

  lemma SurvivorMeans(role: Role, spec: RoleSpec)
    ensures role.description == spec.description ==> SurvivesAs(role, spec, role)
    ensures role.description != spec.description ==> SurvivesAs(role, spec, Described(role, spec))
  {
  }

  lemma ExactMeansNoMismatch(before: Server, desired: Desired, ctx: Context, after: Server, tracked: map<string, Uuid>)
    requires before.Valid() && Exact(before, desired, ctx, after, tracked)
    ensures Mismatch(after, desired) == 0
    ensures forall id | id in after.roles :: after.roles[id].name in desired
    ensures forall id | id in after.roles :: after.roles[id].description == desired[after.roles[id].name].description
    ensures forall name | name in desired :: after.HasName(name)
  {
    forall id | id in after.roles
      ensures after.roles[id].name in desired
      ensures after.roles[id].description == desired[after.roles[id].name].description
    {
      var name := after.roles[id].name;
      if before.HasName(name) {
        var old_id :| old_id in before.roles && before.roles[old_id].name == name;
        assert tracked[name] == old_id == id;
      }
    }
    assert Undesired(after, desired) == {};
    forall name | name in desired ensures after.HasName(name) {
      assert tracked[name] in after.roles;
    }
    assert Missing(after, desired) == {};
    assert Misdescribed(after, desired) == {};
  }

  /** A pass returns no error only with mismatch zero. */
  lemma SuccessMeansNoMismatch(s: Server, tracked: map<string, Uuid>, specs: seq<RoleSpec>, ctx: Context,
                                                  c: Choices)
    requires Undisturbed(s, specs, c) && Reconcile(s, tracked, specs, ctx, c).ok
    ensures Mismatch(Reconcile(s, tracked, specs, ctx, c).server, DesiredRoles(specs)) == 0
  {
    var q := Reconcile(s, tracked, specs, ctx, c);
    PassExact(s, tracked, specs, ctx, c);
    ExactMeansNoMismatch(s, DesiredRoles(specs), ctx, q.server, q.tracked);
  }

  // Where an identifier is tracked from: before, from the listing, or from a role that is there now.
  predicate TrackedFrom(name: string, id: Uuid, before: map<string, Uuid>, existing: map<string, Role>, s: Server) {
    (name in before && before[name] == id) || (name in existing && existing[name].id == id) || id in s.roles
  }

  lemma {:induction false} SyncTracks(p: Pass, env: Environment, order: seq<string>, existing: map<string, Role>,
                                      desired: Desired, ctx: Context)
    requires forall name | name in order :: name in desired
    ensures var q := CreateOrUpdate(p, env, order, existing, desired, ctx);
      p.tracked.Keys <= q.tracked.Keys <= p.tracked.Keys + (set name | name in order)
      && p.server.roles.Keys <= q.server.roles.Keys
      && forall name | name in q.tracked :: TrackedFrom(name, q.tracked[name], p.tracked, existing, q.server)
    decreases |order|
  {
    if order != [] {
      var q := SyncOne(p, env, order[0], existing, desired[order[0]], ctx);
      assert forall name | name in order[1..] :: name in order;
      if q.ok {
        SyncTracks(q, env, order[1..], existing, desired, ctx);
      }
    }
  }

  /** What is tracked after any pass, however it ends: if the roles could not be listed, what was tracked before;
      otherwise desired names only, all those among them that were tracked before, and no identifier out of nowhere. */
  lemma TrackingAfterAnyPass(s: Server, tracked: map<string, Uuid>, specs: seq<RoleSpec>, ctx: Context, c: Choices)
    requires forall name | name in c.order :: name in DesiredRoles(specs)
    ensures var q := Reconcile(s, tracked, specs, ctx, c);
      if c.env(|s.calls|).fault then !q.ok && q.tracked == tracked && q.server.roles == s.roles
      else
        q.tracked.Keys <= DesiredRoles(specs).Keys
        && (forall name | name in tracked && name in DesiredRoles(specs) :: name in q.tracked)
        && forall name | name in q.tracked :: TrackedFrom(name, q.tracked[name], tracked, RoleMap(c.listing), q.server)
  {
    hide CreateOrUpdate, DeleteUnwanted, DesiredRoles, RoleMap;
    var desired := DesiredRoles(specs);
    var deleted := DeleteUnwanted(s.(calls := s.calls + [ListRoles]), c.env, c.listing, desired).0;
    SyncTracks(Pass(deleted, StillDesired(tracked, desired), true), c.env, c.order, RoleMap(c.listing), desired, ctx);
  }

  // Keycloak answers with none of these identifiers, because it has issued them before.
  ghost predicate Unissued(env: Environment, used: set<Uuid>) {
    forall i: nat :: env(i).id !in used
  }

  lemma {:induction false} SyncIssues(p: Pass, env: Environment, order: seq<string>, existing: map<string, Role>,
                                      desired: Desired, ctx: Context, used: set<Uuid>)
    requires Unissued(env, used) && forall name | name in order :: name in desired
    ensures forall id | id in CreateOrUpdate(p, env, order, existing, desired, ctx).server.roles && id in used ::
      id in p.server.roles
    decreases |order|
  {
    if order != [] {
      var q := SyncOne(p, env, order[0], existing, desired[order[0]], ctx);
      if q.ok {
        SyncIssues(q, env, order[1..], existing, desired, ctx, used);
      }
    }
  }

  // A role under an identifier issued before has been there all the time.
  lemma OldRolesStay(s: Server, tracked: map<string, Uuid>, specs: seq<RoleSpec>, ctx: Context, c: Choices,
                     used: set<Uuid>, id: Uuid)
    requires Undisturbed(s, specs, c) && Reconcile(s, tracked, specs, ctx, c).ok && Unissued(c.env, used)
    requires id in used && id in Reconcile(s, tracked, specs, ctx, c).server.roles
    ensures id in s.roles && s.roles[id].name in DesiredRoles(specs)
  {
    hide CreateOrUpdate, DeleteUnwanted, DesiredRoles, RoleMap, Unissued;
    var desired := DesiredRoles(specs);
    var listed := s.(calls := s.calls + [ListRoles]);
    DeletePhase(listed, c.env, c.listing, desired);
    var deleted := DeleteUnwanted(listed, c.env, c.listing, desired).0;
    SyncIssues(Pass(deleted, StillDesired(tracked, desired), true), c.env, c.order, RoleMap(c.listing), desired, ctx,
        used);
    assert id in deleted.roles && s.roles[id] in c.listing && s.roles[id].id == id;
    if s.roles[id].name !in desired {
      DeletePhaseComplete(listed, c.env, c.listing, desired, s.roles[id]);
    }
  }

  /** If Keycloak never issues an identifier twice, the roles a successful pass creates have new ones. */
  lemma CreatedAreNew(s: Server, tracked: map<string, Uuid>, specs: seq<RoleSpec>, ctx: Context, c: Choices,
                      used: set<Uuid>, name: string)
    requires Undisturbed(s, specs, c) && Reconcile(s, tracked, specs, ctx, c).ok && Unissued(c.env, used)
    requires name in DesiredRoles(specs) && !s.HasName(name)
    ensures var q := Reconcile(s, tracked, specs, ctx, c); name in q.tracked && q.tracked[name] !in used
  {
    var q := Reconcile(s, tracked, specs, ctx, c);
    PassExact(s, tracked, specs, ctx, c);
    hide Reconcile, DesiredRoles, Undisturbed, Unissued;
    if q.tracked[name] in used {
      OldRolesStay(s, tracked, specs, ctx, c, used, q.tracked[name]);
    }
  }

  // One attempt of a longer run: what happened to be tracked, and the choices made.
  datatype Attempt = Attempt(tracked: map<string, Uuid>, choices: Choices)

  ghost predicate RunUndisturbed(s: Server, specs: seq<RoleSpec>, ctx: Context, attempts: seq<Attempt>)
    decreases |attempts|
  {
    attempts != [] ==>
      Undisturbed(s, specs, attempts[0].choices) &&
      RunUndisturbed(Reconcile(s, attempts[0].tracked, specs, ctx, attempts[0].choices).server, specs, ctx,
          attempts[1..])
  }

  ghost function AfterRun(s: Server, specs: seq<RoleSpec>, ctx: Context, attempts: seq<Attempt>): Server
    requires RunUndisturbed(s, specs, ctx, attempts)
    decreases |attempts|
  {
    if attempts == [] then s
    else AfterRun(Reconcile(s, attempts[0].tracked, specs, ctx, attempts[0].choices).server, specs, ctx, attempts[1..])
  }

  /** Any number of partially failing passes together write at most the initial mismatch: the writes made and
      the mismatch left always add up to it. */
  lemma {:induction false} WriteBudget(s: Server, specs: seq<RoleSpec>, ctx: Context, attempts: seq<Attempt>)
    requires RunUndisturbed(s, specs, ctx, attempts)
    ensures var end := AfterRun(s, specs, ctx, attempts);
      end.writes - s.writes + Mismatch(end, DesiredRoles(specs)) == Mismatch(s, DesiredRoles(specs))
          && end.writes >= s.writes
    ensures AfterRun(s, specs, ctx, attempts).writes - s.writes <= Mismatch(s, DesiredRoles(specs))
    decreases |attempts|
  {
    if attempts != [] {
      var first := attempts[0];
      PassConserves(s, first.tracked, specs, ctx, first.choices);
      WriteBudget(Reconcile(s, first.tracked, specs, ctx, first.choices).server, specs, ctx, attempts[1..]);
    }
  }

  /** Two successful passes from one state, in whatever listing and iteration orders, end with the same roles:
      survivors identical, created ones identical up to their fresh identifiers. */
  lemma OrderIrrelevant(s: Server, t1: map<string, Uuid>, t2: map<string, Uuid>, specs: seq<RoleSpec>,
                                           ctx: Context, c1: Choices, c2: Choices)
    requires Undisturbed(s, specs, c1) && Undisturbed(s, specs, c2)
    requires Reconcile(s, t1, specs, ctx, c1).ok && Reconcile(s, t2, specs, ctx, c2).ok
    ensures var a, b := Reconcile(s, t1, specs, ctx, c1), Reconcile(s, t2, specs, ctx, c2);
      a.tracked.Keys == b.tracked.Keys == DesiredRoles(specs).Keys
      && (forall name | name in a.tracked :: a.tracked[name] in a.server.roles && b.tracked[name] in b.server.roles
            && a.server.roles[a.tracked[name]].(id := "") == b.server.roles[b.tracked[name]].(id := "")
            && (s.HasName(name) ==> a.tracked[name] == b.tracked[name]))
      && |a.server.roles| == |b.server.roles| == |DesiredRoles(specs)|
  {
    PassExact(s, t1, specs, ctx, c1);
    PassExact(s, t2, specs, ctx, c2);
    hide Reconcile, CreatedAs, SurvivesAs;
    var a, b := Reconcile(s, t1, specs, ctx, c1), Reconcile(s, t2, specs, ctx, c2);
    forall name | name in a.tracked
      ensures a.server.roles[a.tracked[name]].(id := "") == b.server.roles[b.tracked[name]].(id := "")
      ensures s.HasName(name) ==> a.tracked[name] == b.tracked[name]
    {
      SameOutcome(s, DesiredRoles(specs), ctx, a.server, a.tracked, b.server, b.tracked, name);
    }
    ExactCount(s, DesiredRoles(specs), ctx, a.server, a.tracked);
    ExactCount(s, DesiredRoles(specs), ctx, b.server, b.tracked);
  }

  lemma SameOutcome(before: Server, desired: Desired, ctx: Context, a: Server, ta: map<string, Uuid>, b: Server,
                    tb: map<string, Uuid>, name: string)
    requires Exact(before, desired, ctx, a, ta) && Exact(before, desired, ctx, b, tb) && name in desired
    ensures a.roles[ta[name]].(id := "") == b.roles[tb[name]].(id := "")
    ensures before.HasName(name) ==> ta[name] == tb[name]
  {
    var r, r' := a.roles[ta[name]], b.roles[tb[name]];
    if before.HasName(name) {
      var id :| id in before.roles && before.roles[id].name == name;
      assert ta[name] == id == tb[name];
      SurvivesOneWay(before.roles[id], desired[name], r, r');
    } else {
      CreatedOneWay(r, r', ctx, name, desired[name], ta[name], tb[name]);
    }
    hide CreatedAs, SurvivesAs;
  }

  lemma CreatedOneWay(a: Role, b: Role, ctx: Context, name: string, spec: RoleSpec, i: Uuid, j: Uuid)
    requires CreatedAs(a, ctx, name, spec, i) && CreatedAs(b, ctx, name, spec, j)
    ensures a.(id := "") == b.(id := "")
  {
  }

  lemma SurvivesOneWay(role: Role, spec: RoleSpec, a: Role, b: Role)
    requires SurvivesAs(role, spec, a) && SurvivesAs(role, spec, b)
    ensures a == b
  {
  }

  lemma ExactCount(before: Server, desired: Desired, ctx: Context, after: Server, tracked: map<string, Uuid>)
    requires Exact(before, desired, ctx, after, tracked)
    ensures |after.roles| == |desired|
  {
    Bijection(tracked, after.roles);
    assert |tracked.Keys| == |desired.Keys|;
  }

  lemma {:induction false} Bijection(tracked: map<string, Uuid>, roles: map<Uuid, Role>)
    requires forall name | name in tracked :: tracked[name] in roles && roles[tracked[name]].name == name
    requires forall id | id in roles :: roles[id].name in tracked && tracked[roles[id].name] == id
    ensures |roles.Keys| == |tracked.Keys| && |roles| == |tracked|
    decreases |tracked|
  {
    if name :| name in tracked {
      var id := tracked[name];
      var tracked', roles' := tracked - {name}, roles - {id};
      Bijection(tracked', roles');
      assert tracked.Keys == tracked'.Keys + {name} && roles.Keys == roles'.Keys + {id};
    } else {
      assert forall id :: id !in roles;
      assert roles.Keys == {};
    }
  }

  lemma QuietWhenSettled(s: Server, tracked: map<string, Uuid>, specs: seq<RoleSpec>, ctx: Context, c: Choices)
    requires Undisturbed(s, specs, c)
    requires forall id | id in s.roles :: s.roles[id].name in DesiredRoles(specs)
    requires forall id | id in s.roles :: s.roles[id].description == DesiredRoles(specs)[s.roles[id].name].description
    requires forall name | name in DesiredRoles(specs) :: s.HasName(name)
    ensures Reconcile(s, tracked, specs, ctx, c).server == s.(calls := s.calls + [ListRoles])
  {
    hide CreateOrUpdate, DeleteUnwanted;
    var desired := DesiredRoles(specs);
    var listed := s.(calls := s.calls + [ListRoles]);
    forall r | r in c.listing ensures r.name in desired {
      assert s.roles[r.id] == r;
    }
    DeletePhaseQuiet(listed, c.env, c.listing, desired);
    RoleMapExact(c.listing);
    forall name | name in c.order
      ensures name in RoleMap(c.listing) && RoleMap(c.listing)[name].description == desired[name].description
    {
      var id :| id in s.roles && s.roles[id].name == name;
      assert s.roles[id] in c.listing;
    }
    SyncPhaseQuiet(Pass(listed, StillDesired(tracked, desired), true), c.env, c.order, RoleMap(c.listing), desired,
        ctx);
  }

  /** After a successful pass another one issues no create, update or delete at all, in any order and whatever
      its calls would have met. */
  lemma SecondPassIsQuiet(s: Server, t1: map<string, Uuid>, t2: map<string, Uuid>, specs: seq<RoleSpec>,
                                             ctx: Context, c1: Choices, c2: Choices)
    requires Undisturbed(s, specs, c1) && Reconcile(s, t1, specs, ctx, c1).ok
    requires Undisturbed(Reconcile(s, t1, specs, ctx, c1).server, specs, c2)
    ensures Reconcile(Reconcile(s, t1, specs, ctx, c1).server, t2, specs, ctx, c2).server
         == var q := Reconcile(s, t1, specs, ctx, c1); q.server.(calls := q.server.calls + [ListRoles])
  {
    hide Reconcile;
    var q := Reconcile(s, t1, specs, ctx, c1);
    PassExact(s, t1, specs, ctx, c1);
    ExactMeansNoMismatch(s, DesiredRoles(specs), ctx, q.server, q.tracked);
    QuietWhenSettled(q.server, t2, specs, ctx, c2);
  }

  lemma {:induction false} SyncIgnoresTracking(p: Pass, t: map<string, Uuid>, env: Environment, order: seq<string>,
                                               existing: map<string, Role>, desired: Desired, ctx: Context)
    requires forall name | name in order :: name in desired
    ensures CreateOrUpdate(p.(tracked := t), env, order, existing, desired, ctx).server
         == CreateOrUpdate(p, env, order, existing, desired, ctx).server
    ensures CreateOrUpdate(p.(tracked := t), env, order, existing, desired, ctx).ok
         == CreateOrUpdate(p, env, order, existing, desired, ctx).ok
    decreases |order|
  {
    if order != [] {
      var a := SyncOne(p, env, order[0], existing, desired[order[0]], ctx);
      var b := SyncOne(p.(tracked := t), env, order[0], existing, desired[order[0]], ctx);
      assert b == a.(tracked := b.tracked);
      if a.ok {
        SyncIgnoresTracking(a, b.tracked, env, order[1..], existing, desired, ctx);
      }
    }
  }

  /** What was tracked before never matters: the same calls are issued, with the same effect and outcome. */
  lemma TrackingIrrelevant(s: Server, t1: map<string, Uuid>, t2: map<string, Uuid>, specs: seq<RoleSpec>,
                                              ctx: Context, c: Choices)
    requires forall name | name in c.order :: name in DesiredRoles(specs)
    ensures Reconcile(s, t1, specs, ctx, c).server == Reconcile(s, t2, specs, ctx, c).server
    ensures Reconcile(s, t1, specs, ctx, c).ok == Reconcile(s, t2, specs, ctx, c).ok
  {
    var desired := DesiredRoles(specs);
    var listed := s.(calls := s.calls + [ListRoles]);
    var deleted := DeleteUnwanted(listed, c.env, c.listing, desired).0;
    SyncIgnoresTracking(Pass(deleted, StillDesired(t1, desired), true), StillDesired(t2, desired), c.env, c.order,
                        RoleMap(c.listing), desired, ctx);
  }

  // ---- Successful passes exist ----

  // An environment that neither fails nor repeats an identifier, from the next call on.
  ghost predicate Generous(env: Environment, s: Server) {
    && (forall i: nat | i >= |s.calls| :: !env(i).fault && env(i).id != "" && env(i).id !in s.roles)
    && (forall i: nat, j: nat | i < j :: env(i).id != env(j).id)
  }

  lemma {:induction false} GenerousDeletes(s: Server, env: Environment, existing: seq<Role>, desired: Desired)
    requires Generous(env, s)
    ensures DeleteUnwanted(s, env, existing, desired).1 && Generous(env, DeleteUnwanted(s, env, existing, desired).0)
    decreases |existing|
  {
    if existing != [] {
      if existing[0].name in desired {
        GenerousDeletes(s, env, existing[1..], desired);
      } else {
        GenerousDeletes(Delete(s, env, existing[0].id).server, env, existing[1..], desired);
      }
    }
  }

  lemma GenerousSync(p: Pass, env: Environment, name: string, existing: map<string, Role>, spec: RoleSpec, ctx: Context)
    requires p.ok && Generous(env, p.server) && Ready(p.server, [name], existing)
    ensures SyncOne(p, env, name, existing, spec, ctx).ok
    ensures Generous(env, SyncOne(p, env, name, existing, spec, ctx).server)
  {
    assert name in [name];
  }

  lemma {:induction false} GenerousSyncs(p: Pass, env: Environment, order: seq<string>, existing: map<string, Role>,
                                         desired: Desired, ctx: Context)
    requires p.ok && p.server.Valid() && (forall name | name in order :: name in desired)
    requires Generous(env, p.server) && Ready(p.server, order, existing)
    ensures CreateOrUpdate(p, env, order, existing, desired, ctx).ok
    decreases |order|
  {
    if order != [] {
      assert order[0] in order;
      assert Ready(p.server, [order[0]], existing);
      GenerousSync(p, env, order[0], existing, desired[order[0]], ctx);
      OneRole(p, env, order[0], existing, desired, ctx);
      hide SyncOne, Generous;
      var q := SyncOne(p, env, order[0], existing, desired[order[0]], ctx);
      ReadyAfter(p.server, q.server, order, existing);
      GenerousSyncs(q, env, order[1..], existing, desired, ctx);
    }
  }

  lemma {:induction false} InSomeOrder<T>(s: set<T>) returns (order: seq<T>)
    ensures (forall i, j | 0 <= i < j < |order| :: order[i] != order[j]) && (forall x :: x in order <==> x in s)
    decreases |s|
  {
    order := [];
    if x :| x in s {
      var rest := InSomeOrder(s - {x});
      order := [x] + rest;
    }
  }

  lemma FreshIdentifiers(used: set<Uuid>) returns (env: Environment)
    ensures forall i: nat :: !env(i).fault && env(i).id != "" && env(i).id !in used
    ensures forall i: nat, j: nat | i < j :: env(i).id != env(j).id
  {
    var longest := LengthsBounded(used);
    env := (i: nat) => Answer(false, seq(longest + 1 + i, k => 'a'));
    forall i: nat, j: nat | i < j ensures env(i).id != env(j).id {
      assert |env(i).id| != |env(j).id|;
    }
    forall i: nat ensures env(i).id != "" && env(i).id !in used {
      assert |env(i).id| > longest;
    }
  }

  lemma SomeListing(roles: map<Uuid, Role>) returns (listing: seq<Role>)
    requires forall id | id in roles :: roles[id].id == id
    ensures Lists(listing, roles)
  {
    var ids := InSomeOrder(roles.Keys);
    listing := seq(|ids|, i requires 0 <= i < |ids| => roles[ids[i]]);
    forall id | id in roles ensures roles[id] in listing {
      var i :| 0 <= i < |ids| && ids[i] == id;
      assert listing[i] == roles[id];
    }
  }

  lemma GenerousPass(s: Server, tracked: map<string, Uuid>, specs: seq<RoleSpec>, ctx: Context, c: Choices)
    requires Undisturbed(s, specs, c) && Generous(c.env, s)
    ensures Reconcile(s, tracked, specs, ctx, c).ok
  {
    hide DeleteUnwanted, CreateOrUpdate, DesiredRoles, RoleMap;
    var desired := DesiredRoles(specs);
    var listed := s.(calls := s.calls + [ListRoles]);
    GenerousDeletes(listed, c.env, c.listing, desired);
    DeletePhase(listed, c.env, c.listing, desired);
    var deleted := DeleteUnwanted(listed, c.env, c.listing, desired).0;
    ReadyToSync(s, deleted, specs, c);
    GenerousSyncs(Pass(deleted, StillDesired(tracked, desired), true), c.env, c.order, RoleMap(c.listing), desired,
        ctx);
  }

  /** From every state of a client's roles there is an undisturbed pass that succeeds, with identifiers never used. */
  lemma SuccessfulPassExists(s: Server, tracked: map<string, Uuid>, specs: seq<RoleSpec>, ctx: Context, used: set<Uuid>)
      returns (c: Choices)
    requires s.Valid()
    ensures Undisturbed(s, specs, c) && Reconcile(s, tracked, specs, ctx, c).ok && Unissued(c.env, used)
  {
    hide Reconcile, DesiredRoles;
    var env := FreshIdentifiers(s.roles.Keys + used);
    var listing := SomeListing(s.roles);
    var order := InSomeOrder(DesiredRoles(specs).Keys);
    c := Choices(env, listing, order);
    GenerousPass(s, tracked, specs, ctx, c);
  }
}
