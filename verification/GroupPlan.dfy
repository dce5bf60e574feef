/** A whole hierarchy of groups: undisturbed passes over its groups, parents first, build in Keycloak exactly the
    hierarchy that was declared. */
module GroupPlan {
  import opened Common
  import opened GroupTypes
  import opened GroupHierarchy
  import opened GroupPass
  import opened GroupRuns
  import opened GroupConvergence

  // A pass over this group that nobody disturbs and that meets no failure leads from w to w'.
  ghost predicate Passes(w: World, key: ObjectKey, w': World) {
    key in w.cluster && exists tape: nat -> Tick, n: nat :: PassEndsIn(w, key, w', tape, n)
  }

  ghost predicate PassEndsIn(w: World, key: ObjectKey, w': World, tape: nat -> Tick, n: nat)
    requires key in w.cluster
  {
    && tape(0).world == w && tape(n).world == w' && n >= 10 + KeyCount(w.cluster)
    && Alone(tape, Start(w.cluster[key])) && Healthy(tape, Start(w.cluster[key]))
  }

  // Every group of the order is stored, once in the order, and comes after its parent.
  ghost predicate ParentsFirst(cluster: Cluster, order: seq<ObjectKey>) {
    && (forall i, j | 0 <= i < j < |order| :: order[i] != order[j])
    && forall i | 0 <= i < |order| ::
         order[i] in cluster
         && (HasParent(cluster[order[i]]) ==> ParentKey(cluster[order[i]]) in order[..i])
  }

  // What the declarations have to be like: parents in the same realm; no clash of visit keys on the way up, without
  // which validation would reject a chain that ends; and no two groups of one name in a realm.
  ghost predicate Declarable(cluster: Cluster, order: seq<ObjectKey>) {
    && (forall k | k in order && k in cluster && HasParent(cluster[k]) && ParentKey(cluster[k]) in cluster ::
          var parent := cluster[ParentKey(cluster[k])];
          parent.spec.realm == cluster[k].spec.realm && !KeyClash(cluster, parent))
    && (forall k, l | k in order && l in order && k in cluster && l in cluster
          && cluster[k].spec.realm == cluster[l].spec.realm && cluster[k].spec.name == cluster[l].spec.name :: k == l)
  }

  // The identifier of the declared parent, "" for a root.
  function DeclaredParent(cluster: Cluster, obj: Group): Uuid {
    if HasParent(obj) && ParentKey(obj) in cluster then cluster[ParentKey(obj)].status.groupUuid else ""
  }

  // The recorded parent identifier was issued, and belongs to the declared parent if it is alive.
  predicate ParentRecordSound(w: World, obj: Group) {
    && (obj.status.parentUuid == "" || obj.status.parentUuid in w.keycloak.minted)
    && (HasParent(obj) && CachedParentLive(w, obj) ==> obj.status.parentUuid == DeclaredParent(w.cluster, obj))
  }

  // No two groups of the order track one Keycloak group.
  ghost predicate TrackedApart(cluster: Cluster, order: seq<ObjectKey>) {
    forall k, l | k in order && l in order && k in cluster && l in cluster
        && cluster[k].status.groupUuid == cluster[l].status.groupUuid != "" :: k == l
  }

  // What the passes may start from.
  ghost predicate Orderly(w: World, order: seq<ObjectKey>) {
    && WorldInv(w) && ParentsFirst(w.cluster, order) && Declarable(w.cluster, order) && TrackedApart(w.cluster, order)
    && forall k | k in order :: Trackable(w, w.cluster[k]) && ParentRecordSound(w, w.cluster[k])
  }

  // Ready, tracked and alive, every managed field as declared, and under the declared parent.
  ghost predicate Placed(w: World, obj: Group) {
    && obj.status.ready && obj.status.groupUuid != "" && w.keycloak.Live(obj.spec.realm, obj.status.groupUuid)
    && Actual(w.keycloak.groups[obj.status.groupUuid]) == Wanted(SetParentUuid(obj, DeclaredParent(w.cluster, obj)))
  }

  // After the first `done` passes.
  ghost predicate Halfway(w0: World, order: seq<ObjectKey>, done: nat, w: World)
    requires ParentsFirst(w0.cluster, order) && done <= |order|
  {
    && WorldInv(w) && SameDeclarations(w0.cluster, w.cluster) && TrackedApart(w.cluster, order)
    && (forall k | k in order :: ParentRecordSound(w, w.cluster[k]))
    && (forall k | k in order[..done] :: Placed(w, w.cluster[k]))
    && (forall k | k in order[done..] :: Trackable(w, w.cluster[k]))
  }

  // ---- Validation ----

  lemma {:induction false} ChainsEnd(cluster: Cluster, order: seq<ObjectKey>, i: nat)
    requires ParentsFirst(cluster, order) && i < |order|
    ensures Ancestor(cluster, cluster[order[i]], i + 1).None?
  {
    var obj := cluster[order[i]];
    if HasParent(obj) {
      var j :| 0 <= j < i && order[j] == ParentKey(obj);
      ChainsEnd(cluster, order, j);
      assert Ancestor(cluster, obj, j + 2) == Ancestor(cluster, cluster[order[j]], j + 1);
      if Ancestor(cluster, obj, i + 1).Some? {
        AncestorPrefix(cluster, obj, j + 2, i + 1);
      }
    }
  }

  // Coming after its parent, a group is accepted: here the condition under which validation is exact is needed.
  lemma ParentAccepted(cluster: Cluster, order: seq<ObjectKey>, i: nat)
    requires KeysAgree(cluster) && ParentsFirst(cluster, order) && Declarable(cluster, order) && i < |order|
    requires HasParent(cluster[order[i]])
    ensures var obj := cluster[order[i]];
      ParentKey(obj) in cluster && Validate(cluster, NoFault, obj, cluster[ParentKey(obj)]) == Accepted
  {
    var obj := cluster[order[i]];
    var j :| 0 <= j < i && order[j] == ParentKey(obj);
    ChainsEnd(cluster, order, i);
    assert obj.key in order && Proposed(cluster, obj, cluster[ParentKey(obj)]);
    ValidateExactUnlessClash(cluster, NoFault, obj, cluster[ParentKey(obj)]);
  }

  // A group whose parent is placed resolves to it.
  lemma ResolvesToDeclared(w0: World, order: seq<ObjectKey>, done: nat, w: World, i: nat)
    requires Orderly(w0, order) && done <= |order| && Halfway(w0, order, done, w) && i <= done && i < |order|
    ensures var obj := w.cluster[order[i]];
      Resolvable(w, obj) && ResolvedParent(w, obj) == DeclaredParent(w.cluster, obj)
      && (HasParent(obj) ==> ParentKey(obj) in order[..i] && w.keycloak.Live(obj.spec.realm, ResolvedParent(w, obj)))
  {
    var key := order[i];
    var obj := w.cluster[key];
    assert key in order;
    if HasParent(obj) {
      var parent := ParentKey(obj);
      ParentAccepted(w0.cluster, order, i);
      ValidateReadsDeclarations(w0.cluster, w.cluster, NoFault, key, parent);
      assert parent in order[..i] && order[..i] <= order[..done];
      assert Placed(w, w.cluster[parent]);
      assert ParentUsable(w, obj);
    }
  }

  // ---- What one pass leaves alone ----

  // From w to w' only this object changed, and only the Keycloak group it tracks now.
  ghost predicate OnlyThis(w: World, key: ObjectKey, w': World) {
    && key in w.cluster && key in w'.cluster && w'.cluster == w.cluster[key := w'.cluster[key]]
    && var obj, stored := w.cluster[key], w'.cluster[key];
       var id := stored.status.groupUuid;
       && stored.key == obj.key && stored.spec == obj.spec
       && (if obj.status.groupUuid != "" then id == obj.status.groupUuid && w.keycloak.Live(obj.spec.realm, id)
           else id !in w.keycloak.minted)
       && w.keycloak.minted.Keys <= w'.keycloak.minted.Keys
       && w'.keycloak.Named(obj.spec.realm, obj.spec.name, id)
       && w'.keycloak.groups == w.keycloak.groups[id := w'.keycloak.groups[id]]
  }

  lemma PassTouchesOnlyThis(w: World, key: ObjectKey, w': World)
    requires WorldInv(w) && WorldInv(w') && key in w.cluster && Trackable(w, w.cluster[key])
    requires Resolvable(w, w.cluster[key]) && Landed(w, w.cluster[key], w') && Settled(w', key)
    ensures OnlyThis(w, key, w')
  {
    var obj := w.cluster[key];
    assert obj.key == key;
    assert w'.cluster[key].key == key;
    var id := w'.cluster[key].status.groupUuid;
    assert Actual(w'.keycloak.groups[id]).name == w'.keycloak.groups[id].name;
  }

  // Identifiers issued before are alive after exactly if they were alive before.
  lemma LivesStay(w: World, key: ObjectKey, w': World, realm: string, id: Uuid)
    requires OnlyThis(w, key, w') && w.Valid()
    ensures w.keycloak.Live(realm, id) ==> w'.keycloak.Live(realm, id)
    ensures id in w.keycloak.minted && w'.keycloak.Live(realm, id) ==> w.keycloak.Live(realm, id)
  {
  }

  lemma OthersStayPlaced(w: World, key: ObjectKey, w': World, other: ObjectKey)
    requires OnlyThis(w, key, w') && w.Valid() && other in w.cluster && other != key && Placed(w, w.cluster[other])
    requires w.cluster[other].status.groupUuid != w.cluster[key].status.groupUuid
    requires HasParent(w.cluster[other]) ==> ParentKey(w.cluster[other]) != key
    ensures Placed(w', w'.cluster[other]) && w'.cluster[other] == w.cluster[other]
  {
    var obj := w.cluster[other];
    assert DeclaredParent(w'.cluster, obj) == DeclaredParent(w.cluster, obj);
    LivesStay(w, key, w', obj.spec.realm, obj.status.groupUuid);
  }

  lemma OthersStayTrackable(w: World, key: ObjectKey, w': World, other: ObjectKey)
    requires OnlyThis(w, key, w') && w.Valid() && other in w.cluster && other != key && Trackable(w, w.cluster[other])
    requires w.cluster[other].spec.realm != w.cluster[key].spec.realm
          || w.cluster[other].spec.name != w.cluster[key].spec.name
    ensures Trackable(w', w'.cluster[other])
  {
    var obj := w.cluster[other];
    LivesStay(w, key, w', obj.spec.realm, obj.status.groupUuid);
  }

  lemma ParentRecordsStaySound(w: World, key: ObjectKey, w': World, other: ObjectKey)
    requires OnlyThis(w, key, w') && w.Valid() && other in w.cluster && other != key
    requires ParentRecordSound(w, w.cluster[other])
    ensures ParentRecordSound(w', w'.cluster[other])
  {
    var obj := w.cluster[other];
    LivesStay(w, key, w', obj.spec.realm, obj.status.parentUuid);
  }

  lemma TrackedStayApart(w: World, key: ObjectKey, w': World, order: seq<ObjectKey>)
    requires OnlyThis(w, key, w') && w.Valid() && TrackedApart(w.cluster, order)
    requires forall k | k in order && k in w.cluster && w.cluster[k].status.groupUuid != "" ::
      w.cluster[k].status.groupUuid in w.keycloak.groups
    ensures TrackedApart(w'.cluster, order)
  {
  }

  // ---- One pass more ----

  lemma PassOutcome(w: World, key: ObjectKey, w': World)
    requires WorldInv(w) && Passes(w, key, w') && Resolvable(w, w.cluster[key]) && Trackable(w, w.cluster[key])
    ensures WorldInv(w') && Settled(w', key) && Landed(w, w.cluster[key], w')
  {
    var tape: nat -> Tick, n: nat :| PassEndsIn(w, key, w', tape, n);
    hide WorldInv, Resolvable, Trackable, Alone, Healthy, Settled, Landed, KeyCount;
    Converges(tape, key, n);
    AloneKeeps(tape, w.cluster[key], n);
  }

  // The group whose pass it was.
  lemma ThisIsPlaced(w: World, key: ObjectKey, w': World)
    requires WorldInv(w) && WorldInv(w') && OnlyThis(w, key, w') && ParentRecordSound(w, w.cluster[key])
    requires Resolvable(w, w.cluster[key]) && Landed(w, w.cluster[key], w') && Settled(w', key)
    requires ResolvedParent(w, w.cluster[key]) == DeclaredParent(w.cluster, w.cluster[key])
    requires HasParent(w.cluster[key]) ==>
      ParentKey(w.cluster[key]) != key && w.keycloak.Live(w.cluster[key].spec.realm, ResolvedParent(w, w.cluster[key]))
    ensures Placed(w', w'.cluster[key]) && ParentRecordSound(w', w'.cluster[key])
  {
    var obj, stored := w.cluster[key], w'.cluster[key];
    assert obj.key == key && DeclaredParent(w'.cluster, stored) == DeclaredParent(w.cluster, obj);
    LivesStay(w, key, w', obj.spec.realm, obj.status.parentUuid);
    var parentId := w'.keycloak.groups[stored.status.groupUuid].parentId;
    assert Actual(w'.keycloak.groups[stored.status.groupUuid]).parentId == parentId;
  }

  // What the next pass of the order has done.
  ghost predicate Advanced(w: World, key: ObjectKey, w': World) {
    && WorldInv(w) && WorldInv(w') && OnlyThis(w, key, w')
    && Placed(w', w'.cluster[key]) && ParentRecordSound(w', w'.cluster[key])
  }

  lemma OneAdvanced(w0: World, order: seq<ObjectKey>, done: nat, w: World, w': World)
    requires Orderly(w0, order) && done < |order| && Halfway(w0, order, done, w) && Passes(w, order[done], w')
    ensures Advanced(w, order[done], w')
  {
    var key := order[done];
    ResolvesToDeclared(w0, order, done, w, done);
    NotItsOwnParent(w0, order, done, w);
    NextIsReady(w0, order, done, w);
    hide Orderly, Halfway, ParentsFirst, WorldInv, Resolvable, ResolvedParent, Trackable, ParentRecordSound, Settled,
        Landed, OnlyThis, Placed, Passes;
    PassOutcome(w, key, w');
    PassTouchesOnlyThis(w, key, w');
    ThisIsPlaced(w, key, w');
  }

  lemma NextIsReady(w0: World, order: seq<ObjectKey>, done: nat, w: World)
    requires Orderly(w0, order) && done < |order| && Halfway(w0, order, done, w)
    ensures WorldInv(w) && order[done] in w.cluster
    ensures ParentRecordSound(w, w.cluster[order[done]]) && Trackable(w, w.cluster[order[done]])
  {
    assert order[done] in order && order[done] in order[done..];
  }

  lemma RecordsSoundAfter(w0: World, order: seq<ObjectKey>, done: nat, w: World, w': World)
    requires Orderly(w0, order) && done < |order| && Halfway(w0, order, done, w) && Advanced(w, order[done], w')
    ensures forall k | k in order :: k in w'.cluster && ParentRecordSound(w', w'.cluster[k])
  {
    hide ParentRecordSound, Placed, Trackable, TrackedApart, Declarable;
    forall k | k in order ensures k in w'.cluster && ParentRecordSound(w', w'.cluster[k]) {
      assert ParentRecordSound(w, w.cluster[k]);
      if k != order[done] {
        ParentRecordsStaySound(w, order[done], w', k);
      }
    }
  }

  lemma PlacedAfter(w0: World, order: seq<ObjectKey>, done: nat, w: World, w': World)
    requires Orderly(w0, order) && done < |order| && Halfway(w0, order, done, w) && Advanced(w, order[done], w')
    ensures forall k | k in order[..done + 1] :: k in w'.cluster && Placed(w', w'.cluster[k])
  {
    hide Halfway, Orderly, ParentsFirst, Placed, OnlyThis;
    SameKeys(w, order[done], w');
    forall k | k in order[..done + 1] ensures k in w'.cluster && Placed(w', w'.cluster[k]) {
      if k != order[done] {
        assert k in order[..done];
        PlacedApart(w0, order, done, w, k);
        OthersStayPlaced(w, order[done], w', k);
      }
    }
  }

  lemma SameKeys(w: World, key: ObjectKey, w': World)
    requires OnlyThis(w, key, w')
    ensures w'.cluster.Keys == w.cluster.Keys && key in w.cluster
    ensures SameDeclarations(w.cluster, w'.cluster)
  {
  }

  lemma TrackableAfter(w0: World, order: seq<ObjectKey>, done: nat, w: World, w': World)
    requires Orderly(w0, order) && done < |order| && Halfway(w0, order, done, w) && Advanced(w, order[done], w')
    ensures forall k | k in order[done + 1..] :: k in w'.cluster && Trackable(w', w'.cluster[k])
  {
    hide Halfway, Orderly, ParentsFirst, Trackable, OnlyThis, Placed;
    SameKeys(w, order[done], w');
    forall k | k in order[done + 1..] ensures k in w'.cluster && Trackable(w', w'.cluster[k]) {
      WaitingApart(w0, order, done, w, k);
      OthersStayTrackable(w, order[done], w', k);
    }
  }

  lemma ApartAfter(w0: World, order: seq<ObjectKey>, done: nat, w: World, w': World)
    requires Orderly(w0, order) && done < |order| && Halfway(w0, order, done, w) && Advanced(w, order[done], w')
    ensures TrackedApart(w'.cluster, order)
  {
    TrackedAreThere(w0, order, done, w);
    hide ParentsFirst, Trackable, OnlyThis, Placed, Declarable, ParentRecordSound;
    TrackedStayApart(w, order[done], w', order);
  }

  lemma OneMore(w0: World, order: seq<ObjectKey>, done: nat, w: World, w': World)
    requires Orderly(w0, order) && done < |order| && Halfway(w0, order, done, w) && Passes(w, order[done], w')
    ensures Halfway(w0, order, done + 1, w')
  {
    OneAdvanced(w0, order, done, w, w');
    RecordsSoundAfter(w0, order, done, w, w');
    PlacedAfter(w0, order, done, w, w');
    TrackableAfter(w0, order, done, w, w');
    ApartAfter(w0, order, done, w, w');
    SameKeys(w, order[done], w');
    hide Orderly, Placed, Trackable, OnlyThis, ParentRecordSound, TrackedApart, WorldInv, Passes;
  }

  lemma NotItsOwnParent(w0: World, order: seq<ObjectKey>, done: nat, w: World)
    requires Orderly(w0, order) && done < |order| && Halfway(w0, order, done, w)
    ensures HasParent(w.cluster[order[done]]) ==> ParentKey(w.cluster[order[done]]) != order[done]
  {
    assert order[done] in order;
  }

  lemma TrackedAreThere(w0: World, order: seq<ObjectKey>, done: nat, w: World)
    requires Orderly(w0, order) && done <= |order| && Halfway(w0, order, done, w)
    ensures forall k | k in order && k in w.cluster && w.cluster[k].status.groupUuid != "" ::
      w.cluster[k].status.groupUuid in w.keycloak.groups
  {
    assert order == order[..done] + order[done..];
  }

  // A group placed already does not come under the group whose pass is next, and tracks another Keycloak group.
  lemma PlacedApart(w0: World, order: seq<ObjectKey>, done: nat, w: World, k: ObjectKey)
    requires Orderly(w0, order) && done < |order| && Halfway(w0, order, done, w) && k in order[..done]
    ensures k in w.cluster && k != order[done] && Placed(w, w.cluster[k])
    ensures w.cluster[k].status.groupUuid != w.cluster[order[done]].status.groupUuid
    ensures HasParent(w.cluster[k]) ==> ParentKey(w.cluster[k]) != order[done]
  {
    var i :| 0 <= i < done && order[i] == k;
    assert k in order && order[done] in order && w0.cluster[k].spec == w.cluster[k].spec;
    if HasParent(w.cluster[k]) {
      var j := ParentInOrder(w0.cluster, order, i);
    }
    hide Trackable, ParentRecordSound, Declarable;
  }

  lemma WaitingApart(w0: World, order: seq<ObjectKey>, done: nat, w: World, k: ObjectKey)
    requires Orderly(w0, order) && done < |order| && Halfway(w0, order, done, w) && k in order[done + 1..]
    ensures k in w.cluster && k != order[done] && Trackable(w, w.cluster[k])
    ensures w.cluster[k].spec.realm != w.cluster[order[done]].spec.realm
         || w.cluster[k].spec.name != w.cluster[order[done]].spec.name
  {
    var i :| done + 1 <= i < |order| && order[i] == k;
    assert k in order && order[done] in order && k in order[done..];
  }

  lemma Begun(w0: World, order: seq<ObjectKey>)
    requires Orderly(w0, order)
    ensures Halfway(w0, order, 0, w0)
  {
  }

  lemma {:induction false} AllPlaced(order: seq<ObjectKey>, worlds: seq<World>, done: nat)
    requires |worlds| == |order| + 1 && Orderly(worlds[0], order) && done <= |order|
    requires forall i | 0 <= i < |order| :: Passes(worlds[i], order[i], worlds[i + 1])
    ensures Halfway(worlds[0], order, done, worlds[done])
    decreases done
  {
    hide Orderly, Halfway, Passes, ParentsFirst;
    if done == 0 {
      Begun(worlds[0], order);
    } else {
      AllPlaced(order, worlds, done - 1);
      OneMore(worlds[0], order, done - 1, worlds[done - 1], worlds[done]);
    }
  }

  // ---- The hierarchy in Keycloak ----

  // The identifier n parents above this one in Keycloak.
  function KeycloakAncestor(kc: Keycloak, id: Uuid, n: nat): Option<Uuid>
    decreases n
  {
    if n == 0 then Some(id)
    else if id in kc.groups && kc.groups[id].parentId != "" then KeycloakAncestor(kc, kc.groups[id].parentId, n - 1)
    else None
  }

  function Identifier(obj: Option<Group>): Option<Uuid> {
    if obj.None? then None else Some(obj.value.status.groupUuid)
  }

  lemma PlacedUnderParent(w: World, obj: Group)
    requires Placed(w, obj)
    ensures obj.status.groupUuid in w.keycloak.groups
    ensures w.keycloak.groups[obj.status.groupUuid].parentId == DeclaredParent(w.cluster, obj)
  {
    var id := obj.status.groupUuid;
    assert Actual(w.keycloak.groups[id]).parentId == w.keycloak.groups[id].parentId;
  }

  lemma TrackedIfPlaced(w: World, obj: Group)
    requires Placed(w, obj)
    ensures obj.status.groupUuid != ""
  {
  }

  lemma ParentInOrder(cluster: Cluster, order: seq<ObjectKey>, i: nat) returns (j: nat)
    requires ParentsFirst(cluster, order) && i < |order| && HasParent(cluster[order[i]])
    ensures j < i && order[j] == ParentKey(cluster[order[i]]) && order[j] in cluster
  {
    j :| 0 <= j < i && order[j] == ParentKey(cluster[order[i]]);
  }

  lemma {:induction false} SameAncestors(order: seq<ObjectKey>, w: World, i: nat, n: nat)
    requires ParentsFirst(w.cluster, order) && i < |order| && forall k | k in order :: Placed(w, w.cluster[k])
    ensures var obj := w.cluster[order[i]];
      KeycloakAncestor(w.keycloak, obj.status.groupUuid, n) == Identifier(Ancestor(w.cluster, obj, n))
    decreases n
  {
    var obj := w.cluster[order[i]];
    assert order[i] in order;
    PlacedUnderParent(w, obj);
    if n > 0 && HasParent(obj) {
      var j := ParentInOrder(w.cluster, order, i);
      assert order[j] in order && Placed(w, w.cluster[order[j]]);
      TrackedIfPlaced(w, w.cluster[order[j]]);
      hide Placed, ParentsFirst;
      SameAncestors(order, w, j, n - 1);
    }
  }

  lemma OrderStays(w0: World, order: seq<ObjectKey>, done: nat, w: World)
    requires Orderly(w0, order) && done <= |order| && Halfway(w0, order, done, w)
    ensures ParentsFirst(w.cluster, order) && SameDeclarations(w0.cluster, w.cluster)
    ensures forall k | k in order[..done] :: k in w.cluster && Placed(w, w.cluster[k])
  {
  }

  lemma PlacedIsSettled(w0: World, order: seq<ObjectKey>, w: World, i: nat)
    requires Orderly(w0, order) && Halfway(w0, order, |order|, w) && i < |order|
    ensures Settled(w, order[i]) && w.cluster[order[i]].status.ready
    ensures KeycloakParent(w, order[i]) == Some(DeclaredParent(w.cluster, w.cluster[order[i]]))
  {
    ResolvesToDeclared(w0, order, |order|, w, i);
    OrderStays(w0, order, |order|, w);
    assert order[i] in order[..|order|];
    hide Orderly, Halfway, ParentsFirst, Resolvable, ResolvedParent;
    PlacedUnderParent(w, w.cluster[order[i]]);
  }

  /** Undisturbed passes without failures over an orderly set of groups, parents first: in the end every group is Ready
      and settled, with the declaration it had, and its ancestors in Keycloak are those it declares. */
  lemma PlanConverges(order: seq<ObjectKey>, worlds: seq<World>)
    requires |worlds| == |order| + 1 && Orderly(worlds[0], order)
    requires forall i | 0 <= i < |order| :: Passes(worlds[i], order[i], worlds[i + 1])
    ensures var w := worlds[|order|]; SameDeclarations(worlds[0].cluster, w.cluster)
    ensures var w := worlds[|order|];
      forall k | k in order :: Settled(w, k) && w.cluster[k].status.ready
        && KeycloakParent(w, k) == Some(DeclaredParent(w.cluster, w.cluster[k]))
        && forall n: nat :: KeycloakAncestor(w.keycloak, w.cluster[k].status.groupUuid, n)
                         == Identifier(Ancestor(w.cluster, w.cluster[k], n))
  {
    var w0, w := worlds[0], worlds[|order|];
    AllPlaced(order, worlds, |order|);
    OrderStays(w0, order, |order|, w);
    hide Orderly, Halfway, Placed, Settled, ParentsFirst, Passes;
    assert order[..|order|] == order;
    forall k | k in order
      ensures Settled(w, k) && w.cluster[k].status.ready
      ensures KeycloakParent(w, k) == Some(DeclaredParent(w.cluster, w.cluster[k]))
      ensures forall n: nat :: KeycloakAncestor(w.keycloak, w.cluster[k].status.groupUuid, n)
                            == Identifier(Ancestor(w.cluster, w.cluster[k], n))
    {
      var i :| 0 <= i < |order| && order[i] == k;
      PlacedIsSettled(w0, order, w, i);
      forall n: nat
        ensures KeycloakAncestor(w.keycloak, w.cluster[k].status.groupUuid, n)
             == Identifier(Ancestor(w.cluster, w.cluster[k], n))
      {
        SameAncestors(order, w, i, n);
      }
    }
  }

  // ---- Such plans exist ----

  lemma PassExists(w: World, key: ObjectKey) returns (w': World)
    requires key in w.cluster
    ensures Passes(w, key, w')
  {
    var tape := HealthyPassExists(w, w.cluster[key]);
    var n := 10 + KeyCount(w.cluster);
    w' := tape(n).world;
    assert PassEndsIn(w, key, w', tape, n);
  }

  lemma {:induction false} PassesExist(w: World, order: seq<ObjectKey>, done: nat) returns (worlds: seq<World>)
    requires Orderly(w, order) && done <= |order|
    ensures |worlds| == done + 1 && worlds[0] == w && Halfway(w, order, done, worlds[done])
    ensures forall i | 0 <= i < done :: Passes(worlds[i], order[i], worlds[i + 1])
    decreases done
  {
    hide Orderly, Halfway, Passes, ParentsFirst;
    if done == 0 {
      worlds := [w];
      Begun(w, order);
    } else {
      var before := PassesExist(w, order, done - 1);
      NextIsThere(w, order, done - 1, before[done - 1]);
      var next := PassExists(before[done - 1], order[done - 1]);
      OneMore(w, order, done - 1, before[done - 1], next);
      worlds := before + [next];
      forall i | 0 <= i < done ensures Passes(worlds[i], order[i], worlds[i + 1]) {
        if i < done - 1 {
          assert worlds[i] == before[i] && worlds[i + 1] == before[i + 1];
        }
      }
    }
  }

  lemma NextIsThere(w0: World, order: seq<ObjectKey>, done: nat, w: World)
    requires Orderly(w0, order) && done < |order| && Halfway(w0, order, done, w)
    ensures order[done] in w.cluster
  {
  }

  ghost predicate Covers(cluster: Cluster, order: seq<ObjectKey>) {
    forall k | k in cluster :: k in order
  }

  // Every reference leads to a stored group, and following references ends.
  ghost predicate AllGrounded(cluster: Cluster) {
    forall k | k in cluster ::
      !NeverEnds(cluster, cluster[k]) && (HasParent(cluster[k]) ==> ParentKey(cluster[k]) in cluster)
  }

  // From any group still missing, the first one up the chain whose parent is not missing.
  lemma {:induction false} NextInOrder(cluster: Cluster, order: seq<ObjectKey>, k: ObjectKey, n: nat)
      returns (next: ObjectKey)
    requires AllGrounded(cluster) && k in cluster && k !in order && Ancestor(cluster, cluster[k], n).None?
    ensures next in cluster && next !in order
    ensures HasParent(cluster[next]) ==> ParentKey(cluster[next]) in order
    decreases n
  {
    if HasParent(cluster[k]) && ParentKey(cluster[k]) !in order {
      next := NextInOrder(cluster, order, ParentKey(cluster[k]), n - 1);
    } else {
      next := k;
    }
  }

  function Missing(cluster: Cluster, order: seq<ObjectKey>): set<ObjectKey> {
    set k | k in cluster && k !in order
  }

  lemma {:induction false} OrderFrom(cluster: Cluster, order: seq<ObjectKey>) returns (whole: seq<ObjectKey>)
    requires AllGrounded(cluster) && ParentsFirst(cluster, order)
    ensures ParentsFirst(cluster, whole) && Covers(cluster, whole)
    decreases Missing(cluster, order)
  {
    if k :| k in cluster && k !in order {
      var n: nat :| Ancestor(cluster, cluster[k], n).None?;
      var next := NextInOrder(cluster, order, k, n);
      var longer := order + [next];
      assert forall i | 0 <= i < |order| :: longer[..i] == order[..i];
      assert longer[..|order|] == order;
      assert next in longer && next in Missing(cluster, order);
      whole := OrderFrom(cluster, longer);
    } else {
      whole := order;
    }
  }

  /** There is an order with parents first for exactly the clusters in which all references lead somewhere and end. */
  lemma OrderExists(cluster: Cluster)
    ensures (exists order :: ParentsFirst(cluster, order) && Covers(cluster, order)) <==> AllGrounded(cluster)
  {
    if AllGrounded(cluster) {
      var order := OrderFrom(cluster, []);
    }
    if order :| ParentsFirst(cluster, order) && Covers(cluster, order) {
      forall k | k in cluster
        ensures !NeverEnds(cluster, cluster[k]) && (HasParent(cluster[k]) ==> ParentKey(cluster[k]) in cluster)
      {
        var i :| 0 <= i < |order| && order[i] == k;
        ChainsEnd(cluster, order, i);
        if HasParent(cluster[k]) {
          var j :| 0 <= j < i && order[j] == ParentKey(cluster[k]);
        }
      }
    }
  }

  /** Such passes can follow each other from every orderly world. */
  lemma PlanExists(w: World, order: seq<ObjectKey>) returns (worlds: seq<World>)
    requires Orderly(w, order)
    ensures |worlds| == |order| + 1 && worlds[0] == w
    ensures forall i | 0 <= i < |order| :: Passes(worlds[i], order[i], worlds[i + 1])
  {
    worlds := PassesExist(w, order, |order|);
  }

  /** A cluster the operator has never touched is orderly, if its declarations are and Keycloak has none of its
      groups. */
  lemma FreshWorldOrderly(w: World, order: seq<ObjectKey>)
    requires w.Valid() && ParentsFirst(w.cluster, order) && Declarable(w.cluster, order)
    requires forall k | k in w.cluster :: w.cluster[k].status == EMPTY_STATUS
    requires forall k, id | k in order && k in w.cluster ::
      !w.keycloak.Named(w.cluster[k].spec.realm, w.cluster[k].spec.name, id)
    ensures Orderly(w, order)
  {
  }
}
