/** A pass that runs alone and meets no API failure brings Keycloak to the declared state and stays there.

    Keycloak is taken to store the managed fields as sent, the parent included. */
module GroupConvergence {
  import opened Common
  import opened GroupTypes
  import opened GroupHierarchy
  import opened GroupPass
  import opened GroupRuns
  import Tapes

  // Nobody else touches the stores between the calls of the pass p.
  ghost predicate Alone(tape: nat -> Tick, p: Proc) {
    forall i: nat :: tape(i + 1).world == Step(tape(i), Run(tape, p, 0, i)).world
  }

  // No API failure: creating gets an unused identifier, and a search by name finds a group if there is one.
  ghost predicate Served(t: Tick, p: Proc) {
    && !t.fault
    && (p.pc.Create? ==> t.id != "" && t.id !in t.world.keycloak.minted)
    && (p.pc.Lookup? ==> forall id | t.world.keycloak.Named(p.obj.spec.realm, p.obj.spec.name, id) ::
          t.world.keycloak.Named(p.obj.spec.realm, p.obj.spec.name, t.id))
  }

  ghost predicate Healthy(tape: nat -> Tick, p: Proc) {
    forall i: nat :: Served(tape(i), Run(tape, p, 0, i))
  }

  function NoFault(i: nat): bool {
    false
  }

  predicate CachedParentLive(w: World, obj: Group) {
    obj.status.parentUuid != "" && w.keycloak.Live(obj.spec.realm, obj.status.parentUuid)
  }

  predicate ParentUsable(w: World, obj: Group)
    requires HasParent(obj)
  {
    && ParentKey(obj) in w.cluster
    && var parent := w.cluster[ParentKey(obj)];
       && Validate(w.cluster, NoFault, obj, parent) == Accepted
       && parent.status.ready && parent.spec.realm == obj.spec.realm && parent.status.groupUuid != ""
       && w.keycloak.Live(obj.spec.realm, parent.status.groupUuid)
  }

  predicate Resolvable(w: World, obj: Group) {
    HasParent(obj) ==> CachedParentLive(w, obj) || ParentUsable(w, obj)
  }

  function ResolvedParent(w: World, obj: Group): Uuid
    requires Resolvable(w, obj)
  {
    if !HasParent(obj) then ""
    else if CachedParentLive(w, obj) then obj.status.parentUuid
    else w.cluster[ParentKey(obj)].status.groupUuid
  }

  // The group is tracked and alive, or untracked with no group of its name in the realm.
  ghost predicate Trackable(w: World, obj: Group) {
    if obj.status.groupUuid != "" then w.keycloak.Live(obj.spec.realm, obj.status.groupUuid)
    else forall id | id in w.keycloak.groups :: !w.keycloak.Named(obj.spec.realm, obj.spec.name, id)
  }

  // The stored identifier is live and every managed field is as declared.
  ghost predicate Settled(w: World, key: ObjectKey) {
    && key in w.cluster
    && var obj := w.cluster[key];
       && Resolvable(w, obj) && w.keycloak.Live(obj.spec.realm, obj.status.groupUuid)
       && Actual(w.keycloak.groups[obj.status.groupUuid]) == Wanted(SetParentUuid(obj, ResolvedParent(w, obj)))
  }

  // Keycloak differs from w0 by one group at most: the one this object tracks, or a new one.
  ghost predicate OnlyGroup(w0: World, obj0: Group, w: World, id: Uuid) {
    && id in w.keycloak.groups && w.keycloak.groups == w0.keycloak.groups[id := w.keycloak.groups[id]]
    && w0.keycloak.minted.Keys <= w.keycloak.minted.Keys
    && if obj0.status.groupUuid != "" then id == obj0.status.groupUuid else id !in w0.keycloak.minted
  }

  // Where the pass that began in w0 with obj0 has put the group: the declaration is the one it began with, Ready is
  // reported, and Keycloak has the group under the parent it resolved to. Nothing else has changed.
  ghost predicate Landed(w0: World, obj0: Group, w: World)
    requires Resolvable(w0, obj0)
  {
    && obj0.key in w.cluster
    && var stored := w.cluster[obj0.key];
       && stored.spec == obj0.spec && stored.status.ready && stored.status.realmReady
       && stored.status.groupUuid in w.keycloak.groups
       && w.keycloak.groups[stored.status.groupUuid].parentId == ResolvedParent(w0, obj0)
       && stored.status.parentUuid in {obj0.status.parentUuid, ResolvedParent(w0, obj0)}
       && w.cluster == w0.cluster[obj0.key := stored]
       && OnlyGroup(w0, obj0, w, stored.status.groupUuid)
  }

  // The object as the pass holds it once its parent is resolved.
  function Resolved(w0: World, obj0: Group): Group
    requires Resolvable(w0, obj0)
  {
    SetParentUuid(obj0, ResolvedParent(w0, obj0))
  }

  ghost predicate StillLive(w0: World, w: World) {
    forall realm, id | w0.keycloak.Live(realm, id) :: w.keycloak.Live(realm, id)
  }

  // Keycloak holds the group the pass is about to report.
  ghost predicate Synced(w0: World, obj0: Group, w: World, obj: Group)
    requires Resolvable(w0, obj0)
  {
    && obj == SetUuid(Resolved(w0, obj0), obj.status.groupUuid)
    && obj.status.groupUuid != "" && w.keycloak.Live(obj.spec.realm, obj.status.groupUuid)
    && (obj0.status.groupUuid != "" ==> obj.status.groupUuid == obj0.status.groupUuid && StillLive(w, w0))
    && Actual(w.keycloak.groups[obj.status.groupUuid]) == Wanted(obj)
    && StillLive(w0, w)
    && OnlyGroup(w0, obj0, w, obj.status.groupUuid)
  }

  ghost predicate Reported(result: Result) {
    result.ready && result.realmReady
  }

  ghost predicate JustCreated(w0: World, obj0: Group, w: World)
    requires Resolvable(w0, obj0)
  {
    exists id | id in w.keycloak.groups ::
      id != "" && id !in w0.keycloak.minted && w0.keycloak.minted.Keys <= w.keycloak.minted.Keys
      && w.keycloak.groups == w0.keycloak.groups[id := BuildGroup(Resolved(w0, obj0), id)]
  }

  /** Where the pass that started in w0 with obj0 is, and in what world. */
  ghost predicate OnTrack(w0: World, obj0: Group, w: World, q: Proc)
    requires Resolvable(w0, obj0)
  {
    && obj0.key in w0.cluster && w0.cluster[obj0.key] == obj0
    && (!q.pc.Done? ==> w.cluster == w0.cluster)
    && (!q.pc.Done? && !q.pc.ReadStatus? && !q.pc.WriteStatus? && !q.pc.Lookup? ==> w == w0)
    && (Settled(w0, obj0.key) ==> w.keycloak == w0.keycloak)
    && q.obj.key == obj0.key
    && match q.pc
       case Resolve => q.obj == obj0
       case FetchParent => HasParent(obj0) && !CachedParentLive(w0, obj0) && q.obj == SetParentUuid(obj0, "")
       case WalkChain(parent, current, visited) =>
         && HasParent(obj0) && !CachedParentLive(w0, obj0) && q.obj == SetParentUuid(obj0, "")
         && ParentKey(obj0) in w0.cluster && parent == w0.cluster[ParentKey(obj0)]
         && Walk(w0.cluster, NoFault, 0, obj0.key, current, visited) == Accepted
       case VerifyParent(parent) =>
         && HasParent(obj0) && !CachedParentLive(w0, obj0) && q.obj == SetParentUuid(obj0, "")
         && ParentKey(obj0) in w0.cluster && parent == w0.cluster[ParentKey(obj0)]
       case Fetch => q.obj == Resolved(w0, obj0)
       case Create => q.obj == Resolved(w0, obj0) && obj0.status.groupUuid == ""
       case Lookup => q.obj == Resolved(w0, obj0) && obj0.status.groupUuid == "" && JustCreated(w0, obj0, w)
       case Update(found) => q.obj == Resolved(w0, obj0) && obj0.status.groupUuid != ""
         && w0.keycloak.Live(obj0.spec.realm, obj0.status.groupUuid)
         && found == w0.keycloak.groups[obj0.status.groupUuid]
       case ReadStatus(result) => Reported(result) && Synced(w0, obj0, w, q.obj)
       case WriteStatus(result, latest) => Reported(result) && Synced(w0, obj0, w, q.obj) && latest == obj0
       case Done(outcome) => !outcome.Failed? && Settled(w, obj0.key) && Landed(w0, obj0, w)
  }

  lemma {:induction false} WalkAnywhere(cluster: Cluster, i: nat, target: ObjectKey, current: Group,
      visited: set<string>)
    ensures Walk(cluster, NoFault, i, target, current, visited) == Walk(cluster, NoFault, 0, target, current, visited)
    decreases |Unvisited(cluster, current, visited)|
  {
    if HasParent(current) && VisitKey(current) !in visited && ParentKey(current) in cluster {
      UnvisitedShrinks(cluster, current, visited);
      WalkAnywhere(cluster, i + 1, target, cluster[ParentKey(current)], visited + {VisitKey(current)});
      WalkAnywhere(cluster, 1, target, cluster[ParentKey(current)], visited + {VisitKey(current)});
    }
  }

  // The parent's side of the pass: it arrives at Fetch with the parent identifier the world determines.
  lemma ResolvingOnTrack(w0: World, obj0: Group, t: Tick, q: Proc)
    requires Resolvable(w0, obj0) && OnTrack(w0, obj0, t.world, q) && Served(t, q)
    requires w0.Valid() && (q.pc.Resolve? || q.pc.FetchParent? || q.pc.VerifyParent?)
    ensures Step(t, q).world == t.world && OnTrack(w0, obj0, t.world, Step(t, q).proc)
  {
  }

  lemma WalkingOnTrack(w0: World, obj0: Group, t: Tick, q: Proc)
    requires Resolvable(w0, obj0) && OnTrack(w0, obj0, t.world, q) && Served(t, q) && q.pc.WalkChain?
    ensures Step(t, q).world == t.world && OnTrack(w0, obj0, t.world, Step(t, q).proc)
  {
    var current, visited := q.pc.current, q.pc.visited;
    if HasParent(current) && ParentKey(current) in w0.cluster {
      WalkAnywhere(w0.cluster, 1, obj0.key, w0.cluster[ParentKey(current)], visited + {VisitKey(current)});
    }
  }

  lemma FetchingOnTrack(w0: World, obj0: Group, t: Tick, q: Proc)
    requires Resolvable(w0, obj0) && Trackable(w0, obj0) && OnTrack(w0, obj0, t.world, q) && Served(t, q)
    requires w0.Valid() && q.pc.Fetch?
    ensures Step(t, q).world == t.world && OnTrack(w0, obj0, t.world, Step(t, q).proc)
  {
  }

  lemma CreatingOnTrack(w0: World, obj0: Group, t: Tick, q: Proc)
    requires Resolvable(w0, obj0) && Trackable(w0, obj0) && OnTrack(w0, obj0, t.world, q) && Served(t, q)
    requires w0.Valid() && q.pc.Create?
    ensures OnTrack(w0, obj0, Step(t, q).world, Step(t, q).proc)
  {
    var g := BuildGroup(q.obj, t.id);
    assert !SiblingExists(w0.keycloak, g) by {
      var kc := w0.keycloak;
      if id :| id in kc.groups && kc.groups[id].realm == g.realm && kc.groups[id].name == g.name {
        assert w0.keycloak.Named(obj0.spec.realm, obj0.spec.name, id);
      }
    }
    assert Step(t, q).proc.pc.Lookup?;
    assert t.id in Step(t, q).world.keycloak.groups && t.id !in w0.keycloak.minted;
  }

  lemma LookingUpOnTrack(w0: World, obj0: Group, t: Tick, q: Proc)
    requires Resolvable(w0, obj0) && Trackable(w0, obj0) && OnTrack(w0, obj0, t.world, q) && Served(t, q)
    requires w0.Valid() && q.pc.Lookup?
    ensures Step(t, q).world == t.world && OnTrack(w0, obj0, t.world, Step(t, q).proc)
  {
    var kc := t.world.keycloak;
    var id :| id in kc.groups && id != "" && id !in w0.keycloak.minted
      && kc.groups == w0.keycloak.groups[id := BuildGroup(Resolved(w0, obj0), id)];
    assert kc.Named(obj0.spec.realm, obj0.spec.name, id);
    assert t.id == id by {
      if t.id != id {
        assert w0.keycloak.Named(obj0.spec.realm, obj0.spec.name, t.id);
      }
    }
    GroupDiffMeaning(Resolved(w0, obj0), BuildGroup(Resolved(w0, obj0), id), id);
  }

  lemma UpdatingOnTrack(w0: World, obj0: Group, t: Tick, q: Proc)
    requires Resolvable(w0, obj0) && OnTrack(w0, obj0, t.world, q) && Served(t, q)
    requires w0.Valid() && q.pc.Update?
    ensures OnTrack(w0, obj0, Step(t, q).world, Step(t, q).proc)
  {
    GroupDiffMeaning(q.obj, q.pc.found, q.pc.found.id);
  }

  lemma ReadingOnTrack(w0: World, obj0: Group, t: Tick, q: Proc)
    requires Resolvable(w0, obj0) && OnTrack(w0, obj0, t.world, q) && Served(t, q)
    requires w0.Valid() && Tracked(obj0) && q.pc.ReadStatus?
    ensures Step(t, q).world == t.world && OnTrack(w0, obj0, t.world, Step(t, q).proc)
  {
    if StatusUnchanged(obj0.status, q.pc.result) {
      SettledAfter(w0, obj0, t.world, q.obj, obj0);
    }
  }

  // The stored object after the pass still resolves to the same parent, so the group is settled.
  lemma SettledAfter(w0: World, obj0: Group, w: World, obj: Group, stored: Group)
    requires Resolvable(w0, obj0) && Synced(w0, obj0, w, obj)
    requires obj0.key in w0.cluster && w0.cluster[obj0.key] == obj0
    requires w.cluster == w0.cluster[obj0.key := stored]
    requires stored.key == obj0.key && stored.spec == obj0.spec && stored.status.groupUuid == obj.status.groupUuid
    requires stored == obj0 || stored.status.parentUuid == KeepUuid(obj.status.parentUuid, obj0.status.parentUuid)
    requires stored.status.ready && stored.status.realmReady
    ensures Settled(w, obj0.key) && Landed(w0, obj0, w)
  {
    assert HasParent(stored) == HasParent(obj0);
    if HasParent(obj0) {
      assert ParentKey(stored) == ParentKey(obj0);
      if stored == obj0 {
        assert w.cluster == w0.cluster;
        if !CachedParentLive(w0, obj0) {
          assert ParentUsable(w, stored);
        }
      } else if ResolvedParent(w0, obj0) != "" {
        assert CachedParentLive(w, stored);
      }
    }
    assert Resolvable(w, stored) && ResolvedParent(w, stored) == ResolvedParent(w0, obj0);
  }

  lemma WritingOnTrack(w0: World, obj0: Group, t: Tick, q: Proc)
    requires Resolvable(w0, obj0) && OnTrack(w0, obj0, t.world, q) && Served(t, q)
    requires w0.Valid() && q.pc.WriteStatus?
    ensures OnTrack(w0, obj0, Step(t, q).world, Step(t, q).proc)
  {
    var e := Step(t, q);
    SettledAfter(w0, obj0, e.world, q.obj, e.world.cluster[obj0.key]);
  }

  lemma StepOnTrack(w0: World, obj0: Group, t: Tick, q: Proc)
    requires Resolvable(w0, obj0) && Trackable(w0, obj0) && OnTrack(w0, obj0, t.world, q) && Served(t, q)
    requires w0.Valid() && Tracked(obj0)
    ensures OnTrack(w0, obj0, Step(t, q).world, Step(t, q).proc)
  {
    match q.pc
    case Resolve => ResolvingOnTrack(w0, obj0, t, q);
    case FetchParent => ResolvingOnTrack(w0, obj0, t, q);
    case VerifyParent(_) => ResolvingOnTrack(w0, obj0, t, q);
    case WalkChain(_, _, _) => WalkingOnTrack(w0, obj0, t, q);
    case Fetch => FetchingOnTrack(w0, obj0, t, q);
    case Create => CreatingOnTrack(w0, obj0, t, q);
    case Lookup => LookingUpOnTrack(w0, obj0, t, q);
    case Update(_) => UpdatingOnTrack(w0, obj0, t, q);
    case ReadStatus(_) => ReadingOnTrack(w0, obj0, t, q);
    case WriteStatus(_, _) => WritingOnTrack(w0, obj0, t, q);
    case Done(_) =>
  }

  lemma {:induction false} AloneKeeps(tape: nat -> Tick, obj: Group, n: nat)
    requires WorldInv(tape(0).world) && Alone(tape, Start(obj))
    ensures WorldInv(tape(n).world) && ProcInv(tape(n).world, Run(tape, Start(obj), 0, n))
    decreases n
  {
    hide Step, WorldInv;
    if n > 0 {
      AloneKeeps(tape, obj, n - 1);
      assert tape((n - 1) + 1).world == Step(tape(n - 1), Run(tape, Start(obj), 0, n - 1)).world;
      StepKeeps(tape(n - 1), Run(tape, Start(obj), 0, n - 1));
    }
  }

  lemma {:induction false} PassOnTrack(tape: nat -> Tick, key: ObjectKey, n: nat)
    requires WorldInv(tape(0).world) && key in tape(0).world.cluster
    requires var obj := tape(0).world.cluster[key];
      Resolvable(tape(0).world, obj) && Trackable(tape(0).world, obj) && Alone(tape, Start(obj))
      && Healthy(tape, Start(obj))
    ensures var obj := tape(0).world.cluster[key];
      OnTrack(tape(0).world, obj, tape(n).world, Run(tape, Start(obj), 0, n)) && WorldInv(tape(n).world)
      && ProcInv(tape(n).world, Run(tape, Start(obj), 0, n))
    decreases n
  {
    var w0, obj := tape(0).world, tape(0).world.cluster[key];
    AloneKeeps(tape, obj, n);
    if n > 0 {
      PassOnTrack(tape, key, n - 1);
      var q := Run(tape, Start(obj), 0, n - 1);
      assert Served(tape(n - 1), q);
      assert tape((n - 1) + 1).world == Step(tape(n - 1), q).world;
      hide Step;
      StepOnTrack(w0, obj, tape(n - 1), q);
    }
  }

  function KeyCount(cluster: Cluster): nat {
    |VisitKeys(cluster)|
  }

  function UnvisitedCount(cluster: Cluster, current: Group, visited: set<string>): nat {
    |Unvisited(cluster, current, visited)|
  }

  // How many calls a pass on track still makes at most, on this cluster.
  function CallsLeft(cluster: Cluster, pc: Pc): nat {
    match pc
    case Resolve => 10 + KeyCount(cluster)
    case FetchParent => 9 + KeyCount(cluster)
    case WalkChain(_, current, visited) => 8 + UnvisitedCount(cluster, current, visited)
    case VerifyParent(_) => 7
    case Fetch => 6
    case Create => 5
    case Lookup => 4
    case Update(_) => 3
    case ReadStatus(_) => 2
    case WriteStatus(_, _) => 1
    case Done(_) => 0
  }

  lemma FewUnvisited(cluster: Cluster, parent: Group)
    requires HasParent(parent) ==> VisitKey(parent) in VisitKeys(cluster)
    ensures UnvisitedCount(cluster, parent, {}) <= KeyCount(cluster)
  {
    assert Unvisited(cluster, parent, {}) <= VisitKeys(cluster);
    Smaller(Unvisited(cluster, parent, {}), VisitKeys(cluster));
  }

  lemma FetchParentFalls(t: Tick, q: Proc)
    ensures CallsLeft(t.world.cluster, StepFetchParent(t, q).pc) < 9 + KeyCount(t.world.cluster)
  {
    if HasParent(q.obj) && ParentKey(q.obj) in t.world.cluster {
      FewUnvisited(t.world.cluster, t.world.cluster[ParentKey(q.obj)]);
    }
    hide UnvisitedCount, KeyCount, VisitKeys;
  }

  lemma UnvisitedFalls(cluster: Cluster, current: Group, visited: set<string>)
    requires HasParent(current) && VisitKey(current) !in visited && ParentKey(current) in cluster
    ensures UnvisitedCount(cluster, cluster[ParentKey(current)], visited + {VisitKey(current)})
          < UnvisitedCount(cluster, current, visited)
  {
    UnvisitedShrinks(cluster, current, visited);
  }

  lemma WalkFalls(t: Tick, q: Proc, parent: Group, current: Group, visited: set<string>)
    ensures CallsLeft(t.world.cluster, StepWalk(t, q, parent, current, visited).pc)
          < 8 + UnvisitedCount(t.world.cluster, current, visited)
  {
    hide UnvisitedCount, KeyCount;
    var next := StepWalk(t, q, parent, current, visited).pc;
    if next.WalkChain? {
      UnvisitedFalls(t.world.cluster, current, visited);
    } else {
      assert next.VerifyParent? || next.ReadStatus?;
    }
  }

  lemma EarlyCallsFall(t: Tick, q: Proc)
    requires q.pc.Resolve? || q.pc.VerifyParent? || q.pc.Fetch? || q.pc.Create?
    ensures CallsLeft(t.world.cluster, Step(t, q).proc.pc) < CallsLeft(t.world.cluster, q.pc)
  {
    hide KeyCount, UnvisitedCount, SiblingExists, BuildGroup, StepWalk, StepFetchParent;
  }

  lemma LateCallsFall(t: Tick, q: Proc)
    requires q.pc.Lookup? || q.pc.Update? || q.pc.ReadStatus? || q.pc.WriteStatus?
    requires q.pc.WriteStatus? ==> Step(t, q).proc.pc.Done?
    ensures CallsLeft(t.world.cluster, Step(t, q).proc.pc) < CallsLeft(t.world.cluster, q.pc)
  {
    hide KeyCount, UnvisitedCount, GroupDiffs, ApplyChanges, MergeStatus, StatusUnchanged, StepWalk, StepFetchParent;
  }

  lemma EachCallFalls(t: Tick, q: Proc)
    requires !q.pc.Done? && (q.pc.WriteStatus? ==> Step(t, q).proc.pc.Done?)
    ensures CallsLeft(t.world.cluster, Step(t, q).proc.pc) < CallsLeft(t.world.cluster, q.pc)
  {
    hide KeyCount, UnvisitedCount, StepWalk, StepFetchParent, StepResolve, StepVerifyParent, StepFetch, StepCreate,
         StepLookup, StepUpdate, StepReadStatus, StepWriteStatus;
    match q.pc
    case FetchParent => FetchParentFalls(t, q);
    case WalkChain(parent, current, visited) => WalkFalls(t, q, parent, current, visited);
    case Resolve => EarlyCallsFall(t, q);
    case VerifyParent(_) => EarlyCallsFall(t, q);
    case Fetch => EarlyCallsFall(t, q);
    case Create => EarlyCallsFall(t, q);
    case _ => LateCallsFall(t, q);
  }

  // Nobody can get in between reading and writing the status.
  lemma WriteAccepted(w0: World, obj0: Group, t: Tick, q: Proc)
    requires Resolvable(w0, obj0) && OnTrack(w0, obj0, t.world, q) && Served(t, q)
    ensures q.pc.WriteStatus? ==> Step(t, q).proc.pc.Done?
  {
    hide Settled, Synced;
  }

  lemma AtTheEnd(w0: World, obj0: Group, t: Tick, q: Proc)
    requires Resolvable(w0, obj0) && OnTrack(w0, obj0, t.world, q) && q.pc.Done?
    ensures Step(t, q).proc == q && !q.pc.outcome.Failed? && Settled(t.world, obj0.key) && Landed(w0, obj0, t.world)
    ensures Settled(w0, obj0.key) ==> t.world.keycloak == w0.keycloak
  {
    hide Settled;
  }

  lemma OneCallLess(w0: World, obj0: Group, t: Tick, q: Proc)
    requires Resolvable(w0, obj0) && OnTrack(w0, obj0, t.world, q) && Served(t, q)
    ensures var left := CallsLeft(w0.cluster, q.pc);
      CallsLeft(w0.cluster, Step(t, q).proc.pc) <= if left > 0 then left - 1 else 0
  {
    hide Step, KeyCount, UnvisitedCount, VisitKeys;
    WriteAccepted(w0, obj0, t, q);
    if q.pc.Done? {
      AtTheEnd(w0, obj0, t, q);
    } else {
      hide Synced, Settled;
      EachCallFalls(t, q);
    }
  }

  lemma ServedAt(tape: nat -> Tick, p: Proc, i: nat)
    requires Healthy(tape, p)
    ensures Served(tape(i), Run(tape, p, 0, i))
  {
  }

  lemma {:induction false} PassEnds(tape: nat -> Tick, key: ObjectKey, n: nat)
    requires WorldInv(tape(0).world) && key in tape(0).world.cluster
    requires var obj := tape(0).world.cluster[key];
      Resolvable(tape(0).world, obj) && Trackable(tape(0).world, obj) && Alone(tape, Start(obj))
      && Healthy(tape, Start(obj))
    ensures var w0 := tape(0).world; var longest := 10 + KeyCount(w0.cluster);
      CallsLeft(w0.cluster, Run(tape, Start(w0.cluster[key]), 0, n).pc) <= if n < longest then longest - n else 0
    decreases n
  {
    hide Step, Resolvable, Trackable, OnTrack, WorldInv, ProcInv, Served, Alone, Healthy, KeyCount, UnvisitedCount;
    if n > 0 {
      PassEnds(tape, key, n - 1);
      PassOnTrack(tape, key, n - 1);
      var q := Run(tape, Start(tape(0).world.cluster[key]), 0, n - 1);
      ServedAt(tape, Start(tape(0).world.cluster[key]), n - 1);
      OneCallLess(tape(0).world, tape(0).world.cluster[key], tape(n - 1), q);
    }
  }

  lemma PassDone(tape: nat -> Tick, key: ObjectKey, n: nat)
    requires WorldInv(tape(0).world) && key in tape(0).world.cluster && n >= 10 + KeyCount(tape(0).world.cluster)
    requires var obj := tape(0).world.cluster[key];
      Resolvable(tape(0).world, obj) && Trackable(tape(0).world, obj) && Alone(tape, Start(obj))
      && Healthy(tape, Start(obj))
    ensures Run(tape, Start(tape(0).world.cluster[key]), 0, n).pc.Done?
  {
    hide WorldInv, Alone, Healthy, Resolvable, Trackable, KeyCount, UnvisitedCount;
    PassEnds(tape, key, n);
  }

  /** One undisturbed, failure-free pass over a group that can be resolved and tracked ends, after at most ten calls
      and one for each visit key, without error: Ready is stored, the stored identifier is live, the managed fields are
      as declared, and the group sits under the parent that the world at the start determines. If the group was
      settled already, Keycloak is not written at all. */
  lemma Converges(tape: nat -> Tick, key: ObjectKey, n: nat)
    requires WorldInv(tape(0).world) && key in tape(0).world.cluster && n >= 10 + KeyCount(tape(0).world.cluster)
    requires var obj := tape(0).world.cluster[key];
      Resolvable(tape(0).world, obj) && Trackable(tape(0).world, obj) && Alone(tape, Start(obj))
      && Healthy(tape, Start(obj))
    ensures var p := Run(tape, Start(tape(0).world.cluster[key]), 0, n); p.pc.Done? && !p.pc.outcome.Failed?
    ensures Settled(tape(n).world, key) && Landed(tape(0).world, tape(0).world.cluster[key], tape(n).world)
    ensures Settled(tape(0).world, key) ==> tape(n).world.keycloak == tape(0).world.keycloak
  {
    var w0, obj := tape(0).world, tape(0).world.cluster[key];
    KeyStored(w0, key);
    hide Step, OnTrack, Settled, Landed, WorldInv, ProcInv, Alone, Healthy, Resolvable, Trackable, KeyCount, CallsLeft;
    PassOnTrack(tape, key, n);
    PassDone(tape, key, n);
    AtTheEnd(w0, obj, tape(n), Run(tape, Start(obj), 0, n));
  }

  lemma KeyStored(w: World, key: ObjectKey)
    requires WorldInv(w) && key in w.cluster
    ensures w.cluster[key].key == key
  {
  }

  // The identifier Keycloak records as the parent of the group this object tracks.
  function KeycloakParent(w: World, key: ObjectKey): Option<Uuid> {
    if key in w.cluster && w.cluster[key].status.groupUuid in w.keycloak.groups
    then Some(w.keycloak.groups[w.cluster[key].status.groupUuid].parentId) else None
  }

  /** When the group ends up under the parent it declares: exactly if no live parent was cached, or the cached one
      is the declared one. An edited reference is ignored as long as the old parent lives. */
  lemma UnderDeclaredParent(tape: nat -> Tick, key: ObjectKey, n: nat)
    requires WorldInv(tape(0).world) && key in tape(0).world.cluster && n >= 10 + KeyCount(tape(0).world.cluster)
    requires var obj := tape(0).world.cluster[key];
      Resolvable(tape(0).world, obj) && Trackable(tape(0).world, obj) && Alone(tape, Start(obj))
      && Healthy(tape, Start(obj))
      && HasParent(obj) && ParentKey(obj) in tape(0).world.cluster
    ensures var w0 := tape(0).world; var obj := w0.cluster[key];
      var declared := w0.cluster[ParentKey(obj)].status.groupUuid;
      KeycloakParent(tape(n).world, key) == Some(declared)
      <==> !CachedParentLive(w0, obj) || obj.status.parentUuid == declared
  {
    Converges(tape, key, n);
    KeyStored(tape(0).world, key);
    hide WorldInv, Trackable, Alone, Healthy, Settled;
  }

  // The next call of this pass writes to Keycloak.
  predicate WritesKeycloak(p: Proc) {
    p.pc.Create? || (p.pc.Update? && GroupDiffs(p.obj, p.pc.found) != [])
  }

  lemma SettledIsQuiet(w0: World, obj0: Group, w: World, q: Proc)
    requires Resolvable(w0, obj0) && OnTrack(w0, obj0, w, q) && w0.Valid() && Settled(w0, obj0.key)
    ensures !WritesKeycloak(q) && w.keycloak == w0.keycloak
  {
    if q.pc.Update? {
      GroupDiffMeaning(q.obj, q.pc.found, q.pc.found.id);
    }
  }

  /** Two passes in a row: the second one, started where the first one ended, never writes to Keycloak, which is the
      same before each of its calls, and leaves the group settled. */
  lemma SecondPassIsQuiet(first: nat -> Tick, n: nat, second: nat -> Tick, m: nat, key: ObjectKey)
    requires WorldInv(first(0).world) && key in first(0).world.cluster && n >= 10 + KeyCount(first(0).world.cluster)
    requires var obj := first(0).world.cluster[key];
      Resolvable(first(0).world, obj) && Trackable(first(0).world, obj) && Alone(first, Start(obj))
      && Healthy(first, Start(obj))
    requires second(0).world == first(n).world
    requires key in second(0).world.cluster ==>
      var obj := second(0).world.cluster[key]; Alone(second, Start(obj)) && Healthy(second, Start(obj))
    ensures key in second(0).world.cluster
    ensures !WritesKeycloak(Run(second, Start(second(0).world.cluster[key]), 0, m))
    ensures second(m).world.keycloak == first(n).world.keycloak
    ensures m >= 10 + KeyCount(second(0).world.cluster) ==> Settled(second(m).world, key)
  {
    Converges(first, key, n);
    PassOnTrack(first, key, n);
    var w0 := second(0).world;
    KeyStored(w0, key);
    SettledStays(w0, key);
    hide Step, OnTrack, Settled, WorldInv, Alone, Healthy, Resolvable, Trackable, WritesKeycloak, Landed;
    PassOnTrack(second, key, m);
    SettledIsQuiet(w0, w0.cluster[key], second(m).world, Run(second, Start(w0.cluster[key]), 0, m));
    if m >= 10 + KeyCount(w0.cluster) {
      Converges(second, key, m);
    }
  }

  lemma SettledStays(w: World, key: ObjectKey)
    requires WorldInv(w) && Settled(w, key)
    ensures w.Valid() && Resolvable(w, w.cluster[key]) && Trackable(w, w.cluster[key])
  {
  }

  // ---- Such passes exist ----

  // An answer that helps: an unused identifier for a new group, the group's own for a search.
  ghost function Helpful(w: World, p: Proc): Tick {
    var id: Uuid :=
      if p.pc.Create? && exists i: Uuid :: i != "" && i !in w.keycloak.minted then
        var i: Uuid :| i != "" && i !in w.keycloak.minted; i
      else if p.pc.Lookup? && exists i :: w.keycloak.Named(p.obj.spec.realm, p.obj.spec.name, i) then
        var i :| w.keycloak.Named(p.obj.spec.realm, p.obj.spec.name, i); i
      else "";
    Tick(w, false, id, "", 0)
  }

  lemma HelpfulServes(w: World, p: Proc)
    ensures Helpful(w, p).world == w && Served(Helpful(w, p), p)
  {
    FreshIdExists(w.keycloak.minted.Keys);
  }

  /** From every world and for every group there is a pass that is left alone and meets no failure. */
  lemma HealthyPassExists(w: World, obj: Group) returns (tape: nat -> Tick)
    ensures tape(0).world == w && Alone(tape, Start(obj)) && Healthy(tape, Start(obj))
  {
    hide Step, Helpful, Served, Start;
    tape := Tapes.Solo(Step, Helpful, w, Start(obj));
    HelpfulServes(w, Start(obj));
    Tapes.SoloRuns(Step, Helpful, w, Start(obj), 0);
    forall i: nat
      ensures tape(i + 1).world == Step(tape(i), Run(tape, Start(obj), 0, i)).world
      ensures Served(tape(i), Run(tape, Start(obj), 0, i))
    {
      Tapes.SoloRuns(Step, Helpful, w, Start(obj), i);
      var here := Tapes.Unroll(Step, Helpful, w, Start(obj), i);
      var next := Tapes.Unroll(Step, Helpful, w, Start(obj), i + 1);
      HelpfulServes(here.world, here.proc);
      HelpfulServes(next.world, next.proc);
      assert tape(i + 1) == Helpful(next.world, next.proc);
      assert next == Step(Helpful(here.world, here.proc), here.proc);
    }
  }
}
