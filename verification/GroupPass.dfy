/** One reconcile pass over a Group, cut at its API calls.

    A pass is a `Proc`: the in-memory object, the place in the code, and a history of what it did.
    `Step` runs it up to and including its next API call. The world that call meets is part of the tick,
    so the same function serves a pass that runs alone and one that is interleaved with others. */
module GroupPass {
  import opened Common
  import opened GroupTypes
  import opened GroupHierarchy
  import Tapes

  const MAX_STATUS_ATTEMPTS: nat := 3

  const RESOLVE_FAILED := "Failed to resolve parent group: "
  const RECONCILE_FAILED := "Failed to reconcile group: "
  const UPDATE_FAILED := "Failed to update group: "
  const CHANGED := "Group and members reconciled successfully"
  const UNCHANGED := "Group and members reconciled"

  datatype World = World(cluster: Cluster, keycloak: Keycloak, revision: nat) {
    ghost predicate Valid() {
      && KeysAgree(cluster)
      && keycloak.Valid()
      && (forall k | k in cluster :: cluster[k].version <= revision)
    }
  }

  /** What one API call meets: the stores at that moment, whether the call fails for a reason the stores
      do not explain, the identifier Keycloak answers with, the text of an error, and the clock. */
  datatype Tick = Tick(world: World, fault: bool, id: Uuid, text: string, now: int)

  datatype Result = Result(ready: bool, realmReady: bool, message: string)

  datatype Outcome = Skipped | Written | Failed

  datatype Pc =
    | Resolve
    | FetchParent
    | WalkChain(parent: Group, current: Group, visited: set<string>)
    | VerifyParent(parent: Group)
    | Fetch
    | Create
    | Lookup
    | Update(found: KGroup)
    | ReadStatus(result: Result)
    | WriteStatus(result: Result, latest: Group)
    | Done(outcome: Outcome)

  // History: the stored object that was replaced, its replacement, and what was merged into it.
  datatype StatusWrite = StatusWrite(replaced: Group, written: Group, original: GroupStatus, result: Result, now: int)

  datatype Proc = Proc(obj: Group, pc: Pc, attempts: nat, writes: seq<StatusWrite>)

  type Effect = Tapes.Effect<World, Proc>

  // ---- Comparing and building Keycloak groups ----

  function BuildGroup(obj: Group, id: Uuid): KGroup {
    KGroup(id, obj.spec.realm, obj.status.parentUuid, obj.spec.name,
           obj.spec.realmRoles, obj.spec.clientRoles, obj.spec.attributes, map[])
  }

  function ApplyChanges(obj: Group, found: KGroup): KGroup {
    found.(name := obj.spec.name, realm := obj.spec.realm, parentId := obj.status.parentUuid,
           attributes := obj.spec.attributes, realmRoles := obj.spec.realmRoles, clientRoles := obj.spec.clientRoles)
  }

  function GroupDiffs(obj: Group, found: KGroup): seq<string> {
    (if found.name != obj.spec.name then ["name"] else []) +
    (if found.parentId != obj.status.parentUuid then ["parentId"] else []) +
    (if !SlicesEqual(found.realmRoles, obj.spec.realmRoles) then ["realmRoles"] else []) +
    (if !SliceMapsEqual(found.clientRoles, obj.spec.clientRoles) then ["clientRoles"] else []) +
    (if !SliceMapsEqual(found.attributes, obj.spec.attributes) then ["attributes"] else [])
  }

  // The fields this controller manages, as values: nil and empty collections are the same.
  datatype Managed = Managed(name: string, parentId: Uuid, realmRoles: seq<string>,
                             clientRoles: map<string, Slice>, attributes: map<string, Slice>)

  function Wanted(obj: Group): Managed {
    Managed(obj.spec.name, obj.status.parentUuid, obj.spec.realmRoles.Items(),
            obj.spec.clientRoles.Entries(), obj.spec.attributes.Entries())
  }

  function Actual(g: KGroup): Managed {
    Managed(g.name, g.parentId, g.realmRoles.Items(), g.clientRoles.Entries(), g.attributes.Entries())
  }

  /** Diff, build and apply agree: no difference is reported exactly when every managed field is as wanted,
      both writers produce such a group, and applying keeps the identifier and everything unmanaged. */
  lemma GroupDiffMeaning(obj: Group, found: KGroup, id: Uuid)
    ensures GroupDiffs(obj, found) == [] <==> Actual(found) == Wanted(obj)
    ensures Actual(BuildGroup(obj, id)) == Wanted(obj) && GroupDiffs(obj, BuildGroup(obj, id)) == []
    ensures Actual(ApplyChanges(obj, found)) == Wanted(obj) && GroupDiffs(obj, ApplyChanges(obj, found)) == []
    ensures ApplyChanges(obj, ApplyChanges(obj, found)) == ApplyChanges(obj, found)
    ensures ApplyChanges(obj, found).id == found.id && ApplyChanges(obj, found).rest == found.rest
  {
    SlicesEqualMeaning(found.realmRoles, obj.spec.realmRoles);
    SliceMapsEqualMeaning(found.clientRoles, obj.spec.clientRoles);
    SliceMapsEqualMeaning(found.attributes, obj.spec.attributes);
  }

  // ---- Status ----

  predicate StatusUnchanged(latest: GroupStatus, result: Result) {
    latest.ready == result.ready && latest.realmReady == result.realmReady && latest.message == result.message
  }

  function KeepUuid(original: Uuid, latest: Uuid): Uuid {
    if original != "" then original else latest
  }

  function MergeStatus(latest: GroupStatus, original: GroupStatus, result: Result, now: int): GroupStatus {
    latest.(ready := result.ready, realmReady := result.realmReady, message := result.message,
            lastSync := Some(now),
            groupUuid := KeepUuid(original.groupUuid, latest.groupUuid),
            parentUuid := KeepUuid(original.parentUuid, latest.parentUuid))
  }

  function SetUuid(obj: Group, id: Uuid): Group {
    obj.(status := obj.status.(groupUuid := id))
  }

  function SetParentUuid(obj: Group, id: Uuid): Group {
    obj.(status := obj.status.(parentUuid := id))
  }

  // ---- One API call ----

  function Fail(p: Proc, prefix: string, reason: string): Proc {
    p.(pc := ReadStatus(Result(false, true, prefix + reason)))
  }

  // The checks on the fetched parent between the walk and the call that verifies it in Keycloak.
  function CheckParent(p: Proc, parent: Group): Proc {
    if !parent.status.ready then Fail(p, RESOLVE_FAILED, "parent is not ready")
    else if parent.spec.realm != p.obj.spec.realm then Fail(p, RESOLVE_FAILED, "parent belongs to different realm")
    else if parent.status.groupUuid == "" then Fail(p, RESOLVE_FAILED, "parent does not have a valid GroupUUID")
    else p.(pc := VerifyParent(parent))
  }

  function StepResolve(t: Tick, p: Proc): Proc {
    if !HasParent(p.obj) then
      p.(obj := SetParentUuid(p.obj, ""), pc := Fetch)
    else if p.obj.status.parentUuid == "" then
      p.(pc := FetchParent)
    else if !t.fault && t.world.keycloak.Live(p.obj.spec.realm, p.obj.status.parentUuid) then
      p.(pc := Fetch)
    else
      p.(obj := SetParentUuid(p.obj, ""), pc := FetchParent)
  }

  function StepFetchParent(t: Tick, p: Proc): Proc {
    if !HasParent(p.obj) then p.(pc := Fetch)
    else if t.fault then Fail(p, RESOLVE_FAILED, t.text)
    else if ParentKey(p.obj) !in t.world.cluster then Fail(p, RESOLVE_FAILED, "parent not found")
    else
      var parent := t.world.cluster[ParentKey(p.obj)];
      if parent.key == p.obj.key then Fail(p, RESOLVE_FAILED, "group cannot be its own parent")
      else p.(pc := WalkChain(parent, parent, {}))
  }

  function StepWalk(t: Tick, p: Proc, parent: Group, current: Group, visited: set<string>): Proc {
    if !HasParent(current) then CheckParent(p, parent)
    else if VisitKey(current) in visited then Fail(p, RESOLVE_FAILED, "circular reference detected")
    else if ParentKey(current) == p.obj.key then Fail(p, RESOLVE_FAILED, "circular reference to this group")
    else if t.fault then Fail(p, RESOLVE_FAILED, t.text)
    else if ParentKey(current) !in t.world.cluster then CheckParent(p, parent)
    else p.(pc := WalkChain(parent, t.world.cluster[ParentKey(current)], visited + {VisitKey(current)}))
  }

  function StepVerifyParent(t: Tick, p: Proc, parent: Group): Proc {
    if t.fault then Fail(p, RESOLVE_FAILED, t.text)
    else if !t.world.keycloak.Live(p.obj.spec.realm, parent.status.groupUuid) then
      Fail(p, RESOLVE_FAILED, "parent not found in Keycloak")
    else p.(obj := SetParentUuid(p.obj, parent.status.groupUuid), pc := Fetch)
  }

  function StepFetch(t: Tick, p: Proc): Proc {
    var id := p.obj.status.groupUuid;
    if id == "" then p.(pc := Create)
    else if t.fault then Fail(p, RECONCILE_FAILED, t.text)
    else if t.world.keycloak.Live(p.obj.spec.realm, id) then p.(pc := Update(t.world.keycloak.groups[id]))
    else p.(obj := SetParentUuid(SetUuid(p.obj, ""), ""), pc := Create)
  }

  // Keycloak refuses two siblings of one name.
  predicate SiblingExists(kc: Keycloak, g: KGroup) {
    exists id | id in kc.groups ::
      kc.groups[id].realm == g.realm && kc.groups[id].parentId == g.parentId && kc.groups[id].name == g.name
  }

  function StepCreate(t: Tick, p: Proc): Effect {
    var kc := t.world.keycloak;
    var g := BuildGroup(p.obj, t.id);
    if !t.fault && SiblingExists(kc, g) then
      Tapes.Effect(t.world, Fail(p, RECONCILE_FAILED, "group exists in Keycloak but UUID not tracked"))
    else if t.fault || (g.parentId != "" && !kc.Live(g.realm, g.parentId)) || t.id == "" || t.id in kc.minted then
      Tapes.Effect(t.world, Fail(p, RECONCILE_FAILED, t.text))
    else
      var kc' := Keycloak(kc.groups[t.id := g], kc.minted[t.id := GroupName(g.realm, g.name)]);
      Tapes.Effect(t.world.(keycloak := kc'), p.(pc := Lookup))
  }

  function StepLookup(t: Tick, p: Proc): Proc {
    if t.fault || !t.world.keycloak.Named(p.obj.spec.realm, p.obj.spec.name, t.id) then
      Fail(p, RECONCILE_FAILED, t.text)
    else
      p.(obj := SetUuid(p.obj, t.id), pc := ReadStatus(Result(true, true, CHANGED)))
  }

  function StepUpdate(t: Tick, p: Proc, found: KGroup): Effect {
    var kc := t.world.keycloak;
    if GroupDiffs(p.obj, found) == [] then
      Tapes.Effect(t.world, p.(pc := ReadStatus(Result(true, true, UNCHANGED))))
    else if t.fault || found.id !in kc.groups then
      Tapes.Effect(t.world, Fail(p, UPDATE_FAILED, t.text))
    else
      Tapes.Effect(t.world.(keycloak := kc.(groups := kc.groups[found.id := ApplyChanges(p.obj, found)])),
             p.(pc := ReadStatus(Result(true, true, CHANGED))))
  }

  function StepReadStatus(t: Tick, p: Proc, result: Result): Proc {
    var q := p.(attempts := p.attempts + 1);
    if t.fault || p.obj.key !in t.world.cluster then q.(pc := Done(Failed))
    else
      var latest := t.world.cluster[p.obj.key];
      if StatusUnchanged(latest.status, result) then
        q.(obj := p.obj.(status := latest.status), pc := Done(Skipped))
      else q.(pc := WriteStatus(result, latest))
  }

  // The API server replaces the status only when the version is still the one that was read.
  function StepWriteStatus(t: Tick, p: Proc, result: Result, latest: Group): Effect {
    var key := p.obj.key;
    if t.fault || key !in t.world.cluster then Tapes.Effect(t.world, p.(pc := Done(Failed)))
    else
      var stored := t.world.cluster[key];
      if stored.version != latest.version then
        Tapes.Effect(t.world, p.(pc := if p.attempts < MAX_STATUS_ATTEMPTS then ReadStatus(result) else Done(Failed)))
      else
        var merged := MergeStatus(latest.status, p.obj.status, result, t.now);
        var written := stored.(status := merged, version := t.world.revision + 1);
        Tapes.Effect(t.world.(cluster := t.world.cluster[key := written], revision := t.world.revision + 1),
               p.(obj := p.obj.(status := merged), pc := Done(Written),
                  writes := p.writes + [StatusWrite(stored, written, p.obj.status, result, t.now)]))
  }

  function Step(t: Tick, p: Proc): Effect {
    match p.pc
    case Resolve => Tapes.Effect(t.world, StepResolve(t, p))
    case FetchParent => Tapes.Effect(t.world, StepFetchParent(t, p))
    case WalkChain(parent, current, visited) => Tapes.Effect(t.world, StepWalk(t, p, parent, current, visited))
    case VerifyParent(parent) => Tapes.Effect(t.world, StepVerifyParent(t, p, parent))
    case Fetch => Tapes.Effect(t.world, StepFetch(t, p))
    case Create => StepCreate(t, p)
    case Lookup => Tapes.Effect(t.world, StepLookup(t, p))
    case Update(found) => StepUpdate(t, p, found)
    case ReadStatus(result) => Tapes.Effect(t.world, StepReadStatus(t, p, result))
    case WriteStatus(result, latest) => StepWriteStatus(t, p, result, latest)
    case Done(_) => Tapes.Effect(t.world, p)
  }

  function Start(obj: Group): Proc {
    Proc(obj, Resolve, 0, [])
  }

  /** The pass after the calls numbered lo to hi - 1, whatever world each of them met. */
  function Run(tape: nat -> Tick, p: Proc, lo: nat, hi: nat): Proc
    requires lo <= hi
  {
    Tapes.Run(Step, tape, p, lo, hi)
  }
}
