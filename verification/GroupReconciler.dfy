/** The group controller's methods, as the code has them: an object updated in place, early returns, the loop
    of the hierarchy walk and the loop of the status retries.

    Every method is proved to perform, call by call, the pass of module GroupPass on the worlds its calls meet,
    whatever others do to those worlds in between; the results about passes therefore hold of this code. */
module GroupReconciler {
  import opened Common
  import opened GroupTypes
  import opened GroupHierarchy
  import opened GroupPass
  import opened Replies
  import Outcomes = GroupOutcomes
  import Tapes

  ghost predicate Ran(tape: nat -> Tick, p: Proc, lo: nat, effects: seq<World>, q: Proc) {
    Tapes.Ran(Step, tape, p, lo, effects, q)
  }

  lemma RanThen(tape: nat -> Tick, p: Proc, lo: nat, first: seq<World>, q: Proc, both: seq<World>, r: Proc)
    requires Ran(tape, p, lo, first, q) && Ran(tape, q, |first|, both, r) && first <= both
    ensures Ran(tape, p, lo, both, r)
  {
    Tapes.RanThen(Step, tape, p, lo, first, q, both, r);
  }

  lemma RanOne(tape: nat -> Tick, p: Proc, lo: nat, effects: seq<World>, q: Proc)
    requires Ran(tape, p, lo, effects, q)
    ensures Ran(tape, p, lo, effects + [Step(tape(|effects|), q).world], Step(tape(|effects|), q).proc)
  {
    Tapes.RanOne(Step, tape, p, lo, effects, q, Step(tape(|effects|), q));
  }

  lemma RanEnds(tape: nat -> Tick, p: Proc, lo: nat, effects: seq<World>, q: Proc)
    requires Ran(tape, p, lo, effects, q)
    ensures lo <= |effects| && Run(tape, p, lo, |effects|) == q
  {
  }

  lemma RanFirst(tape: nat -> Tick, p: Proc, effects: seq<World>)
    ensures Ran(tape, p, |effects|, effects + [Step(tape(|effects|), p).world], Step(tape(|effects|), p).proc)
  {
    Tapes.RanNone(Step, tape, p, effects);
    RanOne(tape, p, |effects|, effects, p);
  }

  lemma StepInWalk(t: Tick, q: Proc)
    requires q.pc.WalkChain?
    ensures Step(t, q) == Tapes.Effect(t.world, StepWalk(t, q, q.pc.parent, q.pc.current, q.pc.visited))
  {
  }

  // The cluster is the same for all the calls lo .. hi - 1.
  ghost predicate Stable(tape: nat -> Tick, lo: nat, hi: nat) {
    forall i: nat | lo <= i < hi :: tape(i).world.cluster == tape(lo).world.cluster
  }

  ghost function Faults(tape: nat -> Tick, lo: nat): nat -> bool {
    (i: nat) => tape(lo + i).fault
  }

  // The pass is inside the walk from call lo up to call hi.
  ghost predicate Walking(tape: nat -> Tick, p: Proc, lo: nat, hi: nat)
    decreases hi
  {
    && lo <= hi
    && Run(tape, p, lo, hi).pc.WalkChain? && Run(tape, p, lo, hi).obj == p.obj
    && (lo < hi ==> Walking(tape, p, lo, hi - 1))
  }

  ghost function WalkFrom(tape: nat -> Tick, lo: nat, hi: nat, q: Proc): Verdict
    requires lo <= hi && q.pc.WalkChain?
  {
    Walk(tape(lo).world.cluster, Faults(tape, lo), hi - lo, q.obj.key, q.pc.current, q.pc.visited)
  }

  lemma WalkAdvances(cluster: Cluster, fault: nat -> bool, i: nat, target: ObjectKey, current: Group,
      visited: set<string>)
    requires HasParent(current) && VisitKey(current) !in visited && ParentKey(current) != target && !fault(i)
    requires ParentKey(current) in cluster
    ensures Walk(cluster, fault, i, target, current, visited)
         == Walk(cluster, fault, i + 1, target, cluster[ParentKey(current)], visited + {VisitKey(current)})
  {
  }

  // The verdict is still open and still the same at every call of a walk over a stable cluster.
  lemma {:induction false} StableWalk(tape: nat -> Tick, p: Proc, lo: nat, hi: nat)
    requires Walking(tape, p, lo, hi) && p.pc.WalkChain?
    ensures Run(tape, p, lo, hi).pc.WalkChain? && (Stable(tape, lo, hi) ==>
      WalkFrom(tape, lo, lo, p) == WalkFrom(tape, lo, hi, Run(tape, p, lo, hi)))
    decreases hi
  {
    hide Step;
    if lo < hi && Stable(tape, lo, hi) {
      StableWalk(tape, p, lo, hi - 1);
      var q := Run(tape, p, lo, hi - 1);
      StepInWalk(tape(hi - 1), q);
      WalkAdvances(tape(lo).world.cluster, Faults(tape, lo), hi - 1 - lo, q.obj.key, q.pc.current, q.pc.visited);
    }
  }

  class Reconciler {
    // The worlds the calls of this pass meet, and every visit key that can occur in them.
    const tape: nat -> Tick
    ghost const universe: set<string>

    var obj: Group
    // What each call made so far left behind.
    var effects: seq<World>
    var attempts: nat
    var writes: seq<StatusWrite>

    ghost predicate Valid() {
      forall i: nat :: VisitKeys(tape(i).world.cluster) <= universe
    }

    ghost function At(pc: Pc): Proc
      reads this
    {
      Proc(obj, pc, attempts, writes)
    }

    constructor (tape: nat -> Tick, ghost universe: set<string>, obj: Group)
      requires forall i: nat :: VisitKeys(tape(i).world.cluster) <= universe
      ensures Valid() && this.tape == tape && this.obj == obj
      ensures At(Resolve) == Start(obj) && effects == []
    {
      this.tape := tape;
      this.universe := universe;
      this.obj := obj;
      effects, attempts, writes := [], 0, [];
    }

    // ---- API calls ----

    // A point where the pass makes no call.
    method Proceed()
      modifies this`effects
      ensures effects == old(effects) + [tape(old(|effects|)).world]
    {
      effects := effects + [tape(|effects|).world];
    }

    method GetKeycloakGroup(realm: string, id: Uuid) returns (r: Reply<KGroup>)
      modifies this`effects
      ensures effects == old(effects) + [tape(old(|effects|)).world]
      ensures var t := tape(old(|effects|));
        r == if t.fault then Failure(t.text)
             else if t.world.keycloak.Live(realm, id) then Found(t.world.keycloak.groups[id])
             else NotFound
    {
      var t := tape(|effects|);
      effects := effects + [t.world];
      if t.fault {
        r := Failure(t.text);
      } else if t.world.keycloak.Live(realm, id) {
        r := Found(t.world.keycloak.groups[id]);
      } else {
        r := NotFound;
      }
    }

    method GetObject(key: ObjectKey) returns (r: Reply<Group>)
      modifies this`effects
      ensures effects == old(effects) + [tape(old(|effects|)).world]
      ensures var t := tape(old(|effects|));
        r == if t.fault then Failure(t.text)
             else if key in t.world.cluster then Found(t.world.cluster[key])
             else NotFound
    {
      var t := tape(|effects|);
      effects := effects + [t.world];
      if t.fault {
        r := Failure(t.text);
      } else if key in t.world.cluster {
        r := Found(t.world.cluster[key]);
      } else {
        r := NotFound;
      }
    }

    method NewGroup(g: KGroup) returns (r: Reply<()>)
      requires g == BuildGroup(obj, "")
      modifies this`effects
      ensures var t := tape(old(|effects|)); effects == old(effects) + [Step(t, At(Create)).world]
      ensures var t := tape(old(|effects|));
        r == if !t.fault && SiblingExists(t.world.keycloak, g) then Refused
             else if Step(t, At(Create)).proc.pc.Lookup? then Found(())
             else Failure(t.text)
    {
      var t := tape(|effects|);
      var kc := t.world.keycloak;
      if !t.fault && SiblingExists(kc, g) {
        r := Refused;
        effects := effects + [t.world];
      } else if t.fault || (g.parentId != "" && !kc.Live(g.realm, g.parentId)) || t.id == "" || t.id in kc.minted {
        r := Failure(t.text);
        effects := effects + [t.world];
      } else {
        r := Found(());
        effects := effects + [t.world.(keycloak :=
          Keycloak(kc.groups[t.id := g.(id := t.id)], kc.minted[t.id := GroupName(g.realm, g.name)]))];
      }
    }

    method GetGroupByName(realm: string, name: string) returns (r: Reply<Uuid>)
      modifies this`effects
      ensures effects == old(effects) + [tape(old(|effects|)).world]
      ensures var t := tape(old(|effects|));
        r == if t.fault || !t.world.keycloak.Named(realm, name, t.id) then Failure(t.text) else Found(t.id)
    {
      var t := tape(|effects|);
      effects := effects + [t.world];
      r := if t.fault || !t.world.keycloak.Named(realm, name, t.id) then Failure(t.text) else Found(t.id);
    }

    method UpdateKeycloakGroup(g: KGroup) returns (r: Reply<()>)
      modifies this`effects
      ensures var t := tape(old(|effects|));
        r == (if t.fault || g.id !in t.world.keycloak.groups then Failure(t.text) else Found(()))
        && effects == old(effects) + [if r.Found?
             then t.world.(keycloak := t.world.keycloak.(groups := t.world.keycloak.groups[g.id := g]))
             else t.world]
    {
      var t := tape(|effects|);
      if t.fault || g.id !in t.world.keycloak.groups {
        r := Failure(t.text);
        effects := effects + [t.world];
      } else {
        r := Found(());
        effects := effects + [t.world.(keycloak := t.world.keycloak.(groups := t.world.keycloak.groups[g.id := g]))];
      }
    }

    // The status subresource: replaced under the version that was read, refused as a conflict otherwise.
    method PutStatus(latest: Group, result: Result) returns (r: Reply<()>)
      modifies this`effects, this`writes
      ensures var t := tape(old(|effects|));
        var now := t.now;
        var merged := MergeStatus(latest.status, obj.status, result, now);
        if t.fault || obj.key !in t.world.cluster then
          r == Failure(t.text) && effects == old(effects) + [t.world] && writes == old(writes)
        else if t.world.cluster[obj.key].version != latest.version then
          r == Refused && effects == old(effects) + [t.world] && writes == old(writes)
        else
          var written := t.world.cluster[obj.key].(status := merged, version := t.world.revision + 1);
          r == Found(())
          && effects == old(effects) +
               [t.world.(cluster := t.world.cluster[obj.key := written], revision := t.world.revision + 1)]
          && writes == old(writes) + [StatusWrite(t.world.cluster[obj.key], written, obj.status, result, now)]
    {
      var t := tape(|effects|);
      if t.fault || obj.key !in t.world.cluster {
        r := Failure(t.text);
        effects := effects + [t.world];
      } else {
        var stored := t.world.cluster[obj.key];
        if stored.version != latest.version {
          r := Refused;
          effects := effects + [t.world];
        } else {
          var written := ApplyStatusUpdate(stored.(status := latest.status), result, t.now);
          written := written.(version := t.world.revision + 1);
          r := Found(());
          effects := effects + [t.world.(cluster := t.world.cluster[obj.key := written],
              revision := t.world.revision + 1)];
          writes := writes + [StatusWrite(stored, written, obj.status, result, t.now)];
        }
      }
    }

    // ---- Parent resolution ----

    method ResolveParentGroup() returns (failure: Option<string>)
      requires Valid() && attempts == 0
      modifies this`obj, this`effects
      ensures old(effects) <= effects
      ensures Ran(tape, old(At(Resolve)), old(|effects|), effects,
                  if failure.None? then At(Fetch) else Unresolved(failure.value))
    {
      ghost var p, lo := At(Resolve), |effects|;
      RanFirst(tape, p, effects);
      if !HasParent(obj) {
        obj := SetParentUuid(obj, "");
        Proceed();
        return None;
      }
      if obj.status.parentUuid != "" {
        var cached := GetKeycloakGroup(obj.spec.realm, obj.status.parentUuid);
        if cached.Found? {
          return None;
        }
        obj := SetParentUuid(obj, "");
      } else {
        Proceed();
      }
      assert Ran(tape, p, lo, effects, At(FetchParent));
      ghost var before, q := effects, At(FetchParent);
      failure := ResolveAgain();
      RanThen(tape, p, lo, before, q, effects,
              if failure.None? then At(Fetch) else Unresolved(failure.value));
    }

    ghost function Unresolved(reason: string): Proc
      reads this
    {
      At(ReadStatus(Result(false, true, RESOLVE_FAILED + reason)))
    }

    method FetchParentObject() returns (reply: Reply<Group>)
      requires HasParent(obj)
      modifies this`effects
      ensures old(effects) <= effects && !reply.Refused?
      ensures Ran(tape, old(At(FetchParent)), old(|effects|), effects,
                  match reply
                  case Failure(text) => Unresolved(text)
                  case Found(parent) =>
                    if parent.key == obj.key then Unresolved("group cannot be its own parent")
                    else At(WalkChain(parent, parent, {}))
                  case _ => Unresolved("parent not found"))
    {
      RanFirst(tape, At(FetchParent), effects);
      reply := GetObject(ParentKey(obj));
    }

    // The second half of resolveParentGroup: find the parent object, validate it and adopt its identifier.
    method ResolveAgain() returns (failure: Option<string>)
      requires Valid() && attempts == 0 && HasParent(obj)
      modifies this`obj, this`effects
      ensures old(effects) <= effects
      ensures Ran(tape, old(At(FetchParent)), old(|effects|), effects,
                  if failure.None? then At(Fetch) else Unresolved(failure.value))
      ensures failure.None? <==> Adopted(old(obj), old(|effects|), |effects|)
    {
      hide Step, Ran, Outcomes.Adoptable;
      ghost var p, lo := At(FetchParent), |effects|;
      failure := FindParent();
      RanEnds(tape, p, lo, effects, if failure.None? then At(Fetch) else Unresolved(failure.value));
      Outcomes.ResolvesAnew(tape, p, lo, |effects|);
    }

    // The calls lo to hi - 1 fetched the parent object, walked up from it, and verified it in Keycloak.
    ghost predicate Adopted(before: Group, lo: nat, hi: nat)
      requires HasParent(before)
      reads this
    {
      && lo + 3 <= hi && Outcomes.Adoptable(tape, lo, before, hi - lo - 3)
      && obj == SetParentUuid(before, tape(lo).world.cluster[ParentKey(before)].status.groupUuid)
    }

    method FindParent() returns (failure: Option<string>)
      requires Valid() && attempts == 0 && HasParent(obj)
      modifies this`obj, this`effects
      ensures old(effects) <= effects
      ensures Ran(tape, old(At(FetchParent)), old(|effects|), effects,
                  if failure.None? then At(Fetch) else Unresolved(failure.value))
    {
      hide Step;
      ghost var p, lo := At(FetchParent), |effects|;
      var reply := FetchParentObject();
      if reply.Failure? {
        return Some(reply.text);
      } else if reply.NotFound? {
        return Some("parent not found");
      }
      var parent := reply.value;
      ghost var before, q := effects, At(WalkChain(parent, parent, {}));
      failure := ValidateParentGroupHierarchy(parent);
      if failure.Some? {
        if parent.key != obj.key {
          RanThen(tape, p, lo, before, q, effects, Unresolved(failure.value));
        }
        return;
      }
      RanThen(tape, p, lo, before, q, effects, CheckParent(q, parent));

      before := effects;
      failure := AdoptParent(parent);
      RanThen(tape, p, lo, before, CheckParent(q, parent), effects,
              if failure.None? then At(Fetch) else Unresolved(failure.value));
    }

    method AdoptParent(parent: Group) returns (failure: Option<string>)
      modifies this`obj, this`effects
      ensures old(effects) <= effects
      ensures forall pc: Pc :: Ran(tape, old(CheckParent(At(pc), parent)), old(|effects|), effects,
                  if failure.None? then At(Fetch) else Unresolved(failure.value))
    {
      if !parent.status.ready {
        return Some("parent is not ready");
      }
      if parent.spec.realm != obj.spec.realm {
        return Some("parent belongs to different realm");
      }
      if parent.status.groupUuid == "" {
        return Some("parent does not have a valid GroupUUID");
      }
      RanFirst(tape, At(VerifyParent(parent)), effects);
      var verified := GetKeycloakGroup(obj.spec.realm, parent.status.groupUuid);
      if verified.Failure? {
        return Some(verified.text);
      } else if verified.NotFound? {
        return Some("parent not found in Keycloak");
      }
      obj := SetParentUuid(obj, parent.status.groupUuid);
      return None;
    }

    ghost function WalkEnd(parent: Group, failure: Option<string>): Proc
      reads this
    {
      if failure.None? then CheckParent(At(WalkChain(parent, parent, {})), parent)
      else Unresolved(failure.value)
    }

    // The body of the walk's loop: one group of the chain.
    method WalkOnce(ghost p: Proc, ghost lo: nat, parent: Group, current: Group, visited: set<string>)
      returns (next: Option<Group>, failure: Option<string>)
      requires HasParent(current) && p.pc.WalkChain? && p.obj == obj
      requires Ran(tape, p, lo, effects, At(WalkChain(parent, current, visited))) && Walking(tape, p, lo, |effects|)
      modifies this`effects
      ensures effects == old(effects) + [tape(old(|effects|)).world]
      ensures next.Some? ==> VisitKey(current) !in visited && Next(tape(old(|effects|)).world.cluster, current) == next
      ensures next.Some? ==> Walking(tape, p, lo, |effects|)
      ensures next.Some? ==> Ran(tape, p, lo, effects, At(WalkChain(parent, next.value, visited + {VisitKey(current)})))
      ensures next.None? ==> Ran(tape, p, lo, effects, WalkEnd(parent, failure))
      ensures next.None? && Stable(tape, lo, |effects|) ==> (failure.None? <==> WalkFrom(tape, lo, lo, p) == Accepted)
    {
      hide Step;
      ghost var before, q := effects, At(WalkChain(parent, current, visited));
      RanOne(tape, p, lo, before, q);
      StepInWalk(tape(|before|), q);
      StableWalk(tape, p, lo, |before|);
      if VisitKey(current) in visited {
        Proceed();
        return None, Some("circular reference detected");
      }
      if ParentKey(current) == obj.key {
        Proceed();
        return None, Some("circular reference to this group");
      }
      var reply := GetObject(ParentKey(current));
      if reply.Failure? {
        return None, Some(reply.text);
      }
      if reply.NotFound? {
        return None, None;
      }
      return Some(reply.value), None;
    }

    /** The walk up the parent chain. On a cluster that stays put its verdict is that of `Validate`. */
    method ValidateParentGroupHierarchy(parent: Group) returns (failure: Option<string>)
      requires Valid() && attempts == 0
      modifies this`effects
      ensures old(effects) <= effects
      ensures parent.key == obj.key ==> failure == Some("group cannot be its own parent") && effects == old(effects)
      ensures parent.key != obj.key ==>
        Ran(tape, At(WalkChain(parent, parent, {})), old(|effects|), effects, WalkEnd(parent, failure))
      ensures Stable(tape, old(|effects|), |effects|) ==>
        (failure.None? <==>
         Validate(tape(old(|effects|)).world.cluster, Faults(tape, old(|effects|)), obj, parent) == Accepted)
    {
      hide Step;
      if obj.key == parent.key {
        return Some("group cannot be its own parent");
      }
      ghost var p, lo := At(WalkChain(parent, parent, {})), |effects|;
      ghost var keys := universe + (if HasParent(parent) then {VisitKey(parent)} else {});
      var visited: set<string> := {};
      var current := parent;
      Tapes.RanNone(Step, tape, p, effects);
      while HasParent(current)
        invariant old(effects) <= effects
        invariant Ran(tape, p, lo, effects, At(WalkChain(parent, current, visited)))
        invariant Walking(tape, p, lo, |effects|)
        invariant HasParent(current) ==> VisitKey(current) in keys
        decreases HasParent(current), keys - visited
      {
        assert VisitKeys(tape(|effects|).world.cluster) <= universe;
        var next;
        next, failure := WalkOnce(p, lo, parent, current, visited);
        if next.None? {
          return;
        }
        visited := visited + {VisitKey(current)};
        current := next.value;
      }
      EndWalk(p, lo, parent, current, visited);
      return None;
    }

    // The chain has ended at a root.
    method EndWalk(ghost p: Proc, ghost lo: nat, parent: Group, current: Group, visited: set<string>)
      requires !HasParent(current) && p.pc.WalkChain? && p.obj == obj
      requires Ran(tape, p, lo, effects, At(WalkChain(parent, current, visited))) && Walking(tape, p, lo, |effects|)
      modifies this`effects
      ensures effects == old(effects) + [tape(old(|effects|)).world]
      ensures Ran(tape, p, lo, effects, WalkEnd(parent, None))
      ensures Stable(tape, lo, |effects|) ==> WalkFrom(tape, lo, lo, p) == Accepted
    {
      hide Step;
      RanOne(tape, p, lo, effects, At(WalkChain(parent, current, visited)));
      StepInWalk(tape(|effects|), At(WalkChain(parent, current, visited)));
      StableWalk(tape, p, lo, |effects|);
      Proceed();
    }

    // ---- The group itself ----

    method ClearGroupState()
      modifies this`obj
      ensures obj == SetParentUuid(SetUuid(old(obj), ""), "")
    {
      obj := SetUuid(obj, "");
      obj := SetParentUuid(obj, "");
    }

    method GetOrCreateGroup() returns (found: Option<KGroup>, failure: Option<string>)
      requires attempts == 0
      modifies this`obj, this`effects
      ensures old(effects) <= effects
      ensures found.Some? ==> failure.None?
      ensures found.Some? <==> Outcomes.Found(tape(old(|effects|)), old(obj))
      ensures failure.None? && found.None? ==> Outcomes.Absent(tape(old(|effects|)), old(obj))
      ensures old(obj.status.groupUuid) != "" && tape(old(|effects|)).fault ==>
        failure.Some? && obj == old(obj) && |effects| == old(|effects|) + 1
      ensures Ran(tape, old(At(Fetch)), old(|effects|), effects,
                  if failure.Some? then At(ReadStatus(Result(false, true, RECONCILE_FAILED + failure.value)))
                  else if found.Some? then At(Update(found.value))
                  else At(ReadStatus(Result(true, true, CHANGED))))
    {
      ghost var p, lo := At(Fetch), |effects|;
      RanFirst(tape, p, effects);
      if obj.status.groupUuid != "" {
        var reply := GetKeycloakGroup(obj.spec.realm, obj.status.groupUuid);
        if reply.Failure? {
          return None, Some(reply.text);
        }
        if reply.Found? {
          return Some(reply.value), None;
        }
        ClearGroupState();
      } else {
        Proceed();
      }
      assert Ran(tape, p, lo, effects, At(Create));
      ghost var before, q := effects, At(Create);
      failure := CreateNewGroup();
      RanThen(tape, p, lo, before, q, effects,
              if failure.Some? then At(ReadStatus(Result(false, true, RECONCILE_FAILED + failure.value)))
              else At(ReadStatus(Result(true, true, CHANGED))));
      return None, failure;
    }

    method CreateNewGroup() returns (failure: Option<string>)
      modifies this`obj, this`effects
      ensures old(effects) <= effects
      ensures Ran(tape, old(At(Create)), old(|effects|), effects,
                  if failure.Some? then At(ReadStatus(Result(false, true, RECONCILE_FAILED + failure.value)))
                  else At(ReadStatus(Result(true, true, CHANGED))))
    {
      ghost var p, lo, start := At(Create), |effects|, effects;
      var created := NewGroup(BuildGroup(obj, ""));
      SiblingIgnoresId(tape(lo).world.keycloak, BuildGroup(obj, ""), tape(lo).id);
      RanFirst(tape, p, start);
      if created.Refused? {
        return Some("group exists in Keycloak but UUID not tracked");
      }
      if created.Failure? {
        return Some(created.text);
      }
      assert Ran(tape, p, lo, effects, At(Lookup));
      ghost var before, q := effects, At(Lookup);
      failure := StoreGroupUuid();
      hide Step;
      RanThen(tape, p, lo, before, q, effects,
              if failure.Some? then At(ReadStatus(Result(false, true, RECONCILE_FAILED + failure.value)))
              else At(ReadStatus(Result(true, true, CHANGED))));
    }

    method StoreGroupUuid() returns (failure: Option<string>)
      modifies this`obj, this`effects
      ensures old(effects) <= effects
      ensures Ran(tape, old(At(Lookup)), old(|effects|), effects,
                  if failure.Some? then At(ReadStatus(Result(false, true, RECONCILE_FAILED + failure.value)))
                  else At(ReadStatus(Result(true, true, CHANGED))))
    {
      RanFirst(tape, At(Lookup), effects);
      var id := GetGroupByName(obj.spec.realm, obj.spec.name);
      if id.Failure? {
        return Some(id.text);
      }
      obj := SetUuid(obj, id.value);
      return None;
    }

    method UpdateGroupIfNeeded(found: KGroup) returns (changed: bool, failure: Option<string>)
      modifies this`effects
      ensures old(effects) <= effects
      ensures Ran(tape, old(At(Update(found))), old(|effects|), effects,
                  if failure.Some? then At(ReadStatus(Result(false, true, UPDATE_FAILED + failure.value)))
                  else At(ReadStatus(Result(true, true, if changed then CHANGED else UNCHANGED))))
      ensures failure.None? ==> (changed <==> Actual(found) != Wanted(obj))
    {
      GroupDiffMeaning(obj, found, found.id);
      RanFirst(tape, At(Update(found)), effects);
      if GroupDiffs(obj, found) == [] {
        Proceed();
        return false, None;
      }
      var reply := UpdateKeycloakGroup(ApplyChanges(obj, found));
      if reply.Failure? {
        return false, Some(reply.text);
      }
      return true, None;
    }

    // ---- Status ----

    // The changes of applyStatusUpdate, field by field.
    method ApplyStatusUpdate(stored: Group, result: Result, now: int) returns (latest: Group)
      ensures latest == stored.(status := MergeStatus(stored.status, obj.status, result, now))
    {
      latest := stored;
      latest := latest.(status := latest.status.(ready := result.ready));
      latest := latest.(status := latest.status.(realmReady := result.realmReady));
      latest := latest.(status := latest.status.(message := result.message));
      latest := latest.(status := latest.status.(lastSync := Some(now)));
      if obj.status.groupUuid != "" {
        latest := latest.(status := latest.status.(groupUuid := obj.status.groupUuid));
      }
      if obj.status.parentUuid != "" {
        latest := latest.(status := latest.status.(parentUuid := obj.status.parentUuid));
      }
    }

    method PerformStatusUpdate(result: Result) returns (reply: Reply<Outcome>)
      modifies this`obj, this`effects, this`attempts, this`writes
      ensures old(effects) <= effects && attempts == old(attempts) + 1 && |effects| <= old(|effects|) + 2
      ensures !reply.NotFound?
      ensures Ran(tape, old(At(ReadStatus(result))), old(|effects|), effects, At(AfterAttempt(result, reply)))
      ensures reply.Found? ==> !reply.value.Failed?
    {
      ghost var p, lo := At(ReadStatus(result)), |effects|;
      RanFirst(tape, p, effects);
      attempts := attempts + 1;
      var read := GetObject(obj.key);
      if read.Failure? {
        return Failure(read.text);
      } else if read.NotFound? {
        return Failure("not found");
      }
      var latest := read.value;
      if StatusUnchanged(latest.status, result) {
        obj := obj.(status := latest.status);
        return Found(Skipped);
      }
      assert Ran(tape, p, lo, effects, At(WriteStatus(result, latest)));
      ghost var before, q := effects, At(WriteStatus(result, latest));
      reply := WriteBack(result, latest);
      hide Step;
      RanThen(tape, p, lo, before, q, effects, At(AfterAttempt(result, reply)));
    }

    // Where an attempt to update the status leads.
    ghost function AfterAttempt(result: Result, reply: Reply<Outcome>): Pc
      reads this
    {
      match reply
      case Found(outcome) => Done(outcome)
      case Refused => if attempts < MAX_STATUS_ATTEMPTS then ReadStatus(result) else Done(Failed)
      case _ => Done(Failed)
    }

    method WriteBack(result: Result, latest: Group) returns (reply: Reply<Outcome>)
      modifies this`obj, this`effects, this`writes
      ensures old(effects) <= effects
      ensures !reply.NotFound? && (reply.Found? ==> reply.value == Written) && |effects| == old(|effects|) + 1
      ensures Ran(tape, old(At(WriteStatus(result, latest))), old(|effects|), effects, At(AfterAttempt(result, reply)))
    {
      RanFirst(tape, At(WriteStatus(result, latest)), effects);
      var put := PutStatus(latest, result);
      if put.Refused? {
        return Refused;
      } else if put.Failure? {
        return Failure(put.text);
      }
      obj := obj.(status := writes[|writes| - 1].written.status);
      return Found(Written);
    }

    /** The retry loop: it ends for every sequence of worlds, after three attempts at most, and reports an error exactly
        when the attempt that decides was broken, or was the third to meet a conflict. */
    method UpdateStatus(result: Result) returns (ok: bool)
      requires attempts == 0
      modifies this`obj, this`effects, this`attempts, this`writes
      ensures old(effects) <= effects && attempts <= 3
      ensures ok <==> Outcomes.Decision(tape, old(|effects|), old(obj.key), result)
                      in {Outcomes.Stored, Outcomes.Unneeded}
      ensures exists outcome: Outcome ::
        (ok <==> !outcome.Failed?) && Ran(tape, old(At(ReadStatus(result))), old(|effects|), effects, At(Done(outcome)))
    {
      hide Step;
      ghost var p, lo := At(ReadStatus(result)), |effects|;
      Tapes.RanNone(Step, tape, p, effects);
      for i := 0 to MAX_STATUS_ATTEMPTS
        invariant old(effects) <= effects && attempts == i && |effects| <= lo + 2 * i
        invariant Ran(tape, p, lo, effects, At(if i < MAX_STATUS_ATTEMPTS then ReadStatus(result) else Done(Failed)))
      {
        ghost var before, q := effects, At(ReadStatus(result));
        var reply := PerformStatusUpdate(result);
        RanThen(tape, p, lo, before, q, effects, At(AfterAttempt(result, reply)));
        if reply.Found? || reply.Failure? {
          Outcomes.StatusLoopDecides(tape, p, lo, |effects|);
          return reply.Found?;
        }
      }
      Outcomes.StatusLoopDecides(tape, p, lo, |effects|);
      return false;
    }

    // Everything between parent resolution and the status: fetch or create, then update.
    method SyncGroup() returns (result: Result)
      requires attempts == 0
      modifies this`obj, this`effects
      ensures old(effects) <= effects
      ensures Ran(tape, old(At(Fetch)), old(|effects|), effects, At(ReadStatus(result)))
    {
      hide Step;
      var found, failure := GetOrCreateGroup();
      if failure.Some? {
        return Result(false, true, RECONCILE_FAILED + failure.value);
      }
      if found.None? {
        return Result(true, true, CHANGED);
      }
      ghost var before, q := effects, At(Update(found.value));
      var changed;
      changed, failure := UpdateGroupIfNeeded(found.value);
      if failure.Some? {
        result := Result(false, true, UPDATE_FAILED + failure.value);
      } else {
        result := Result(true, true, if changed then CHANGED else UNCHANGED);
      }
      RanThen(tape, old(At(Fetch)), old(|effects|), before, q, effects, At(ReadStatus(result)));
    }

    /** reconcileGroup: for every sequence of worlds it performs one whole pass and ends. */
    method ReconcileGroup() returns (ok: bool)
      requires Valid() && attempts == 0
      modifies this`obj, this`effects, this`attempts, this`writes
      ensures old(effects) <= effects
      ensures exists outcome: Outcome ::
        (ok <==> !outcome.Failed?) && Ran(tape, old(At(Resolve)), old(|effects|), effects, At(Done(outcome)))
    {
      hide Step, Outcomes.Decision;
      ghost var p, lo := At(Resolve), |effects|;
      var result;
      var failure := ResolveParentGroup();
      if failure.Some? {
        result := Result(false, true, RESOLVE_FAILED + failure.value);
      } else {
        ghost var before, q := effects, At(Fetch);
        result := SyncGroup();
        RanThen(tape, p, lo, before, q, effects, At(ReadStatus(result)));
      }
      ghost var before, q := effects, At(ReadStatus(result));
      ok := UpdateStatus(result);
      ghost var outcome: Outcome :| (ok <==> !outcome.Failed?) && Ran(tape, q, |before|, effects, At(Done(outcome)));
      RanThen(tape, p, lo, before, q, effects, At(Done(outcome)));
    }
  }

  lemma SiblingIgnoresId(kc: Keycloak, g: KGroup, id: Uuid)
    ensures SiblingExists(kc, g) == SiblingExists(kc, g.(id := id))
  {
  }
}
