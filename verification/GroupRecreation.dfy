/** What an undisturbed pass does to a group whose Keycloak group has vanished: it creates the group again, but at the
    top of the realm, and whether the new identifier is recorded depends on what the status said before. */
module GroupRecreation {
  import opened Common
  import opened GroupTypes
  import opened GroupHierarchy
  import opened GroupPass
  import opened GroupRuns
  import opened GroupConvergence

  const REPORT := Result(true, true, CHANGED)

  // The tracked group is gone, and no other group of the realm has its name.
  ghost predicate Vanished(w: World, obj: Group) {
    && obj.status.groupUuid != "" && !w.keycloak.Live(obj.spec.realm, obj.status.groupUuid)
    && forall id | id in w.keycloak.groups :: !w.keycloak.Named(obj.spec.realm, obj.spec.name, id)
  }

  // The object as the pass holds it after the 404: the parent it has just resolved is forgotten as well.
  function Forgotten(obj: Group): Group {
    SetParentUuid(SetUuid(obj, ""), "")
  }

  // Keycloak has got one more group, under a new identifier, with no parent.
  ghost predicate RecreatedAs(w0: World, obj0: Group, w: World, id: Uuid) {
    && id != "" && id !in w0.keycloak.groups && id !in w0.keycloak.minted
    && w.keycloak.groups == w0.keycloak.groups[id := BuildGroup(Forgotten(obj0), id)]
  }

  // What is stored in the end. The shortcut keeps the dead identifier when the last report was the same.
  ghost predicate RecordedAs(w0: World, obj0: Group, w: World, id: Uuid) {
    && RecreatedAs(w0, obj0, w, id) && obj0.key in w.cluster
    && var stored := w.cluster[obj0.key];
       && stored.key == obj0.key && w.cluster == w0.cluster[obj0.key := stored]
       && stored.spec == obj0.spec && stored.status.ready && stored.status.parentUuid == obj0.status.parentUuid
       && stored.status.groupUuid == if StatusUnchanged(obj0.status, REPORT) then obj0.status.groupUuid else id
  }

  ghost predicate OnTrackAgain(w0: World, obj0: Group, w: World, q: Proc)
    requires Resolvable(w0, obj0)
  {
    && obj0.key in w0.cluster && w0.cluster[obj0.key] == obj0 && q.obj.key == obj0.key
    && (!q.pc.Done? ==> w.cluster == w0.cluster)
    && var id := q.obj.status.groupUuid;
       match q.pc
       case Create => w == w0 && q.obj == Forgotten(obj0)
       case Lookup => q.obj == Forgotten(obj0) && exists id :: RecreatedAs(w0, obj0, w, id)
       case Update(_) => false
       case ReadStatus(result) => result == REPORT && q.obj == SetUuid(Forgotten(obj0), id)
           && RecreatedAs(w0, obj0, w, id)
       case WriteStatus(result, latest) =>
         result == REPORT && q.obj == SetUuid(Forgotten(obj0), id) && RecreatedAs(w0, obj0, w, id)
         && latest == obj0 && !StatusUnchanged(obj0.status, REPORT)
       case Done(outcome) => !outcome.Failed? && exists id :: RecordedAs(w0, obj0, w, id)
       case _ => w == w0 && OnTrack(w0, obj0, w, q)
  }

  lemma ResolvingAgain(w0: World, obj0: Group, t: Tick, q: Proc)
    requires Resolvable(w0, obj0) && Vanished(w0, obj0) && OnTrackAgain(w0, obj0, t.world, q) && Served(t, q)
    requires w0.Valid()
    requires q.pc.Resolve? || q.pc.FetchParent? || q.pc.VerifyParent? || q.pc.WalkChain?
    ensures OnTrackAgain(w0, obj0, Step(t, q).world, Step(t, q).proc)
  {
    hide Vanished;
    if q.pc.WalkChain? {
      WalkingOnTrack(w0, obj0, t, q);
      assert Step(t, q).proc.pc.WalkChain? || Step(t, q).proc.pc.VerifyParent? || Step(t, q).proc.pc.ReadStatus?;
    } else {
      ResolvingOnTrack(w0, obj0, t, q);
    }
  }

  lemma FetchingAgain(w0: World, obj0: Group, t: Tick, q: Proc)
    requires Resolvable(w0, obj0) && Vanished(w0, obj0) && OnTrackAgain(w0, obj0, t.world, q) && Served(t, q)
    requires w0.Valid() && (q.pc.Fetch? || q.pc.Create?)
    ensures OnTrackAgain(w0, obj0, Step(t, q).world, Step(t, q).proc)
  {
    if q.pc.Create? {
      var g := BuildGroup(q.obj, t.id);
      assert !SiblingExists(w0.keycloak, g) by {
        var kc := w0.keycloak;
        if id :| id in kc.groups && kc.groups[id].realm == g.realm && kc.groups[id].name == g.name {
          assert w0.keycloak.Named(obj0.spec.realm, obj0.spec.name, id);
        }
      }
      assert RecreatedAs(w0, obj0, Step(t, q).world, t.id);
    }
  }

  lemma LookingUpAgain(w0: World, obj0: Group, t: Tick, q: Proc)
    requires Resolvable(w0, obj0) && Vanished(w0, obj0) && OnTrackAgain(w0, obj0, t.world, q) && Served(t, q)
    requires q.pc.Lookup?
    ensures OnTrackAgain(w0, obj0, Step(t, q).world, Step(t, q).proc)
  {
    var id :| RecreatedAs(w0, obj0, t.world, id);
    assert t.world.keycloak.Named(obj0.spec.realm, obj0.spec.name, id);
    assert t.id == id by {
      if t.id != id {
        assert w0.keycloak.Named(obj0.spec.realm, obj0.spec.name, t.id);
      }
    }
  }

  lemma ReportingAgain(w0: World, obj0: Group, t: Tick, q: Proc)
    requires Resolvable(w0, obj0) && OnTrackAgain(w0, obj0, t.world, q) && Served(t, q)
    requires q.pc.ReadStatus? || q.pc.WriteStatus? || q.pc.Done?
    ensures OnTrackAgain(w0, obj0, Step(t, q).world, Step(t, q).proc)
    ensures q.pc.WriteStatus? ==> Step(t, q).proc.pc.Done?
  {
    hide Resolvable, OnTrack;
    if !q.pc.Done? && Step(t, q).proc.pc.Done? {
      assert RecordedAs(w0, obj0, Step(t, q).world, q.obj.status.groupUuid);
    }
  }

  lemma StepAgain(w0: World, obj0: Group, t: Tick, q: Proc)
    requires Resolvable(w0, obj0) && Vanished(w0, obj0) && OnTrackAgain(w0, obj0, t.world, q) && Served(t, q)
    requires w0.Valid()
    ensures OnTrackAgain(w0, obj0, Step(t, q).world, Step(t, q).proc)
    ensures var left := CallsLeft(w0.cluster, q.pc);
      CallsLeft(w0.cluster, Step(t, q).proc.pc) <= if left > 0 then left - 1 else 0
  {
    hide Step, Vanished, KeyCount, UnvisitedCount;
    match q.pc
    case Fetch => FetchingAgain(w0, obj0, t, q); EachCallFalls(t, q);
    case Create => FetchingAgain(w0, obj0, t, q); EachCallFalls(t, q);
    case Lookup => LookingUpAgain(w0, obj0, t, q); EachCallFalls(t, q);
    case ReadStatus(_) => ReportingAgain(w0, obj0, t, q); EachCallFalls(t, q);
    case WriteStatus(_, _) => ReportingAgain(w0, obj0, t, q); EachCallFalls(t, q);
    case Done(_) => ReportingAgain(w0, obj0, t, q); DoneStays(t, q);
    case _ => ResolvingAgain(w0, obj0, t, q); EachCallFalls(t, q);
  }

  lemma DoneStays(t: Tick, q: Proc)
    requires q.pc.Done?
    ensures Step(t, q).proc == q
  {
  }

  lemma {:induction false} PassAgain(tape: nat -> Tick, key: ObjectKey, n: nat)
    requires WorldInv(tape(0).world) && key in tape(0).world.cluster
    requires var obj := tape(0).world.cluster[key];
      Resolvable(tape(0).world, obj) && Vanished(tape(0).world, obj) && Alone(tape, Start(obj))
      && Healthy(tape, Start(obj))
    ensures var w0 := tape(0).world; var p := Run(tape, Start(w0.cluster[key]), 0, n);
      var longest := 10 + KeyCount(w0.cluster);
      OnTrackAgain(w0, w0.cluster[key], tape(n).world, p)
      && CallsLeft(w0.cluster, p.pc) <= if n < longest then longest - n else 0
    decreases n
  {
    var w0, obj := tape(0).world, tape(0).world.cluster[key];
    hide Step, Served, Vanished, Resolvable, KeyCount, UnvisitedCount;
    if n == 0 {
      KeyStored(w0, key);
    } else {
      PassAgain(tape, key, n - 1);
      var q := Run(tape, Start(obj), 0, n - 1);
      ServedAt(tape, Start(obj), n - 1);
      assert tape((n - 1) + 1).world == Step(tape(n - 1), q).world;
      hide OnTrackAgain, Alone, Healthy;
      StepAgain(w0, obj, tape(n - 1), q);
    }
  }

  lemma EndAgain(w0: World, obj0: Group, w: World, q: Proc) returns (id: Uuid)
    requires Resolvable(w0, obj0) && OnTrackAgain(w0, obj0, w, q) && CallsLeft(w0.cluster, q.pc) == 0
    ensures q.pc.Done? && !q.pc.outcome.Failed? && RecordedAs(w0, obj0, w, id)
    ensures id in w.keycloak.groups && w.keycloak.groups[id].parentId == ""
  {
    id :| RecordedAs(w0, obj0, w, id);
  }

  lemma ResolvedIsLive(w: World, obj: Group)
    requires w.Valid() && Resolvable(w, obj)
    ensures ResolvedParent(w, obj) == "" <==> !HasParent(obj)
  {
  }

  /** The pass over a vanished group, whatever parent it resolved: Keycloak ends up with exactly one more group, which
      has no parent, so that it is where it was declared to be exactly if no parent is declared; its identifier is
      recorded unless the last report was the same as this one. */
  lemma RecreatedAtTheTop(tape: nat -> Tick, key: ObjectKey, n: nat) returns (id: Uuid)
    requires WorldInv(tape(0).world) && key in tape(0).world.cluster && n >= 10 + KeyCount(tape(0).world.cluster)
    requires var obj := tape(0).world.cluster[key];
      Resolvable(tape(0).world, obj) && Vanished(tape(0).world, obj) && Alone(tape, Start(obj))
      && Healthy(tape, Start(obj))
    ensures var p := Run(tape, Start(tape(0).world.cluster[key]), 0, n); p.pc.Done? && !p.pc.outcome.Failed?
    ensures RecordedAs(tape(0).world, tape(0).world.cluster[key], tape(n).world, id)
    ensures id in tape(n).world.keycloak.groups && tape(n).world.keycloak.groups[id].parentId == ""
    ensures var obj := tape(0).world.cluster[key];
      tape(n).world.keycloak.groups[id].parentId == ResolvedParent(tape(0).world, obj) <==> !HasParent(obj)
  {
    PassAgain(tape, key, n);
    var w0 := tape(0).world;
    ResolvedIsLive(w0, w0.cluster[key]);
    hide ResolvedParent, Resolvable, Vanished, Alone, Healthy, WorldInv, Step, OnTrackAgain, RecordedAs, CallsLeft,
        KeyCount;
    id := EndAgain(w0, w0.cluster[key], tape(n).world, Run(tape, Start(w0.cluster[key]), 0, n));
  }

  // ---- The pass after it ----

  // The recorded identifier is dead, and a group at the top of the realm has the declared name.
  ghost predicate Blocked(w: World, obj: Group) {
    && obj.status.groupUuid != "" && !w.keycloak.Live(obj.spec.realm, obj.status.groupUuid)
    && SiblingExists(w.keycloak, BuildGroup(Forgotten(obj), ""))
  }

  // A pass over a blocked group changes neither Keycloak nor the recorded identifier.
  ghost predicate GetsNowhere(w0: World, obj0: Group, w: World, q: Proc) {
    && w.keycloak == w0.keycloak && q.obj.key == obj0.key && q.obj.spec == obj0.spec
    && obj0.key in w.cluster && w.cluster[obj0.key].spec == obj0.spec
    && w.cluster[obj0.key].status.groupUuid == obj0.status.groupUuid
    && match q.pc
       case Create => q.obj.status.groupUuid == q.obj.status.parentUuid == ""
       case Lookup => false
       case Update(_) => false
       case ReadStatus(_) => q.obj.status.groupUuid in {"", obj0.status.groupUuid}
       case WriteStatus(_, latest) =>
         q.obj.status.groupUuid in {"", obj0.status.groupUuid} && latest == w.cluster[obj0.key]
       case Done(_) => true
       case _ => q.obj.status.groupUuid == obj0.status.groupUuid
  }

  lemma ResolvingGetsNowhere(w0: World, obj0: Group, t: Tick, q: Proc)
    requires GetsNowhere(w0, obj0, t.world, q)
    requires q.pc.Resolve? || q.pc.FetchParent? || q.pc.WalkChain? || q.pc.VerifyParent?
    ensures GetsNowhere(w0, obj0, Step(t, q).world, Step(t, q).proc)
  {
    ResolvingTouchesNothing(t, q);
    hide Step;
  }

  lemma ResolvingTouchesNothing(t: Tick, q: Proc)
    requires q.pc.Resolve? || q.pc.FetchParent? || q.pc.WalkChain? || q.pc.VerifyParent?
    ensures var e := Step(t, q);
      e.world == t.world && e.proc.obj.(status := q.obj.status) == q.obj
      && e.proc.obj.status.groupUuid == q.obj.status.groupUuid
      && (e.proc.pc.FetchParent? || e.proc.pc.WalkChain? || e.proc.pc.VerifyParent? || e.proc.pc.Fetch?
          || e.proc.pc.ReadStatus?)
  {
  }

  lemma CreatingGetsNowhere(w0: World, obj0: Group, t: Tick, q: Proc)
    requires Blocked(w0, obj0) && GetsNowhere(w0, obj0, t.world, q) && (q.pc.Fetch? || q.pc.Create?)
    ensures GetsNowhere(w0, obj0, Step(t, q).world, Step(t, q).proc)
  {
    if q.pc.Create? {
      var kc := w0.keycloak;
      var id :| id in kc.groups && kc.groups[id].realm == obj0.spec.realm && kc.groups[id].parentId == ""
        && kc.groups[id].name == obj0.spec.name;
      assert SiblingExists(t.world.keycloak, BuildGroup(q.obj, t.id));
    }
  }

  lemma ReportingGetsNowhere(w0: World, obj0: Group, t: Tick, q: Proc)
    requires GetsNowhere(w0, obj0, t.world, q) && (q.pc.ReadStatus? || q.pc.WriteStatus? || q.pc.Done?)
    ensures GetsNowhere(w0, obj0, Step(t, q).world, Step(t, q).proc)
  {
  }

  /** A blocked group stays blocked through every undisturbed pass, whichever of its calls fail, and Keycloak stays as
      it is: only somebody else can get the group out of this. */
  lemma {:induction false} BlockedForGood(tape: nat -> Tick, key: ObjectKey, n: nat)
    requires key in tape(0).world.cluster && tape(0).world.cluster[key].key == key
    requires var obj := tape(0).world.cluster[key]; Blocked(tape(0).world, obj) && Alone(tape, Start(obj))
    ensures key in tape(n).world.cluster && Blocked(tape(n).world, tape(n).world.cluster[key])
    ensures tape(n).world.cluster[key].status.groupUuid == tape(0).world.cluster[key].status.groupUuid
    ensures tape(n).world.keycloak == tape(0).world.keycloak
    ensures GetsNowhere(tape(0).world, tape(0).world.cluster[key], tape(n).world,
        Run(tape, Start(tape(0).world.cluster[key]), 0, n))
    decreases n
  {
    var w0, obj := tape(0).world, tape(0).world.cluster[key];
    hide Step, Blocked;
    if n > 0 {
      BlockedForGood(tape, key, n - 1);
      var q := Run(tape, Start(obj), 0, n - 1);
      assert tape((n - 1) + 1).world == Step(tape(n - 1), q).world;
      match q.pc
      case Fetch => CreatingGetsNowhere(w0, obj, tape(n - 1), q);
      case Create => CreatingGetsNowhere(w0, obj, tape(n - 1), q);
      case ReadStatus(_) => ReportingGetsNowhere(w0, obj, tape(n - 1), q);
      case WriteStatus(_, _) => ReportingGetsNowhere(w0, obj, tape(n - 1), q);
      case Done(_) => ReportingGetsNowhere(w0, obj, tape(n - 1), q);
      case _ => ResolvingGetsNowhere(w0, obj, tape(n - 1), q);
    }
    StillBlocked(w0, obj, tape(n).world);
  }

  lemma StillBlocked(w0: World, obj0: Group, w: World)
    requires Blocked(w0, obj0) && w.keycloak == w0.keycloak && obj0.key in w.cluster
    requires w.cluster[obj0.key].spec == obj0.spec
    requires w.cluster[obj0.key].status.groupUuid == obj0.status.groupUuid
    ensures Blocked(w, w.cluster[obj0.key])
  {
  }

  // The recorded identifiers are ones Keycloak has issued.
  predicate RecordsIssued(w: World, obj: Group) {
    && (obj.status.groupUuid == "" || obj.status.groupUuid in w.keycloak.minted)
    && (obj.status.parentUuid == "" || obj.status.parentUuid in w.keycloak.minted)
  }

  // What the first pass records decides what the second one meets.
  lemma RecordedThenTrackable(w0: World, obj0: Group, w: World, id: Uuid)
    requires w0.Valid() && obj0.key in w0.cluster && w0.cluster[obj0.key] == obj0
    requires Resolvable(w0, obj0) && RecordsIssued(w0, obj0) && RecordedAs(w0, obj0, w, id)
    requires !StatusUnchanged(obj0.status, REPORT)
    ensures var stored := w.cluster[obj0.key];
      Resolvable(w, stored) && Trackable(w, stored) && ResolvedParent(w, stored) == ResolvedParent(w0, obj0)
  {
    var stored := w.cluster[obj0.key];
    assert stored.key == obj0.key;
    if HasParent(obj0) {
      assert CachedParentLive(w, stored) == CachedParentLive(w0, obj0);
      if !CachedParentLive(w0, obj0) {
        assert ParentKey(obj0) != obj0.key;
        ValidateReadsDeclarations(w0.cluster, w.cluster, NoFault, obj0.key, ParentKey(obj0));
      }
    }
  }

  lemma RecordedThenBlocked(w0: World, obj0: Group, w: World, id: Uuid)
    requires Vanished(w0, obj0) && RecordedAs(w0, obj0, w, id) && StatusUnchanged(obj0.status, REPORT)
    requires RecordsIssued(w0, obj0)
    ensures Blocked(w, w.cluster[obj0.key])
  {
    assert w.keycloak.groups[id] == BuildGroup(Forgotten(obj0), id);
  }

  /** Two undisturbed passes without failures over a vanished group: they end with the group settled under the parent it
      had been resolved to, exactly if the report of the first one differed from the last. Otherwise the group is
      blocked. */
  lemma RecreatedThenPlaced(first: nat -> Tick, n: nat, second: nat -> Tick, m: nat, key: ObjectKey)
    requires WorldInv(first(0).world) && key in first(0).world.cluster && n >= 10 + KeyCount(first(0).world.cluster)
    requires var w0 := first(0).world; var obj := w0.cluster[key];
      Resolvable(w0, obj) && Vanished(w0, obj) && RecordsIssued(w0, obj) && Alone(first, Start(obj))
      && Healthy(first, Start(obj))
    requires second(0).world == first(n).world && m >= 10 + KeyCount(second(0).world.cluster)
    requires key in second(0).world.cluster ==>
      var obj := second(0).world.cluster[key]; Alone(second, Start(obj)) && Healthy(second, Start(obj))
    ensures var w0, w := first(0).world, second(m).world; var obj := w0.cluster[key];
      Settled(w, key) && KeycloakParent(w, key) == Some(ResolvedParent(w0, obj))
      <==> !StatusUnchanged(obj.status, REPORT)
    ensures StatusUnchanged(first(0).world.cluster[key].status, REPORT) ==>
      key in second(m).world.cluster && Blocked(second(m).world, second(m).world.cluster[key])
  {
    var w0, w1, w2, obj := first(0).world, second(0).world, second(m).world, first(0).world.cluster[key];
    KeyStored(w0, key);
    var id := RecreatedAtTheTop(first, key, n);
    AloneKeeps(first, obj, n);
    RecordedIsThere(w0, obj, w1, id);
    hide Resolvable, Vanished, Alone, Healthy, WorldInv, ProcInv, Step, RecordedAs, KeyCount, ResolvedParent, Settled,
        Trackable, Blocked, RecordsIssued, Landed, StatusUnchanged, GetsNowhere;
    if StatusUnchanged(obj.status, REPORT) {
      RecordedThenBlocked(w0, obj, w1, id);
      BlockedForGood(second, key, m);
      BlockedIsNotSettled(w2, key);
    } else {
      WorldInvValid(w0);
      RecordedThenTrackable(w0, obj, w1, id);
      Converges(second, key, m);
      LandedUnderParent(w1, w1.cluster[key], w2);
    }
  }

  lemma WorldInvValid(w: World)
    requires WorldInv(w)
    ensures w.Valid()
  {
  }

  lemma RecordedIsThere(w0: World, obj0: Group, w: World, id: Uuid)
    requires RecordedAs(w0, obj0, w, id)
    ensures obj0.key in w.cluster && w.cluster[obj0.key].key == obj0.key
  {
  }

  lemma BlockedIsNotSettled(w: World, key: ObjectKey)
    requires key in w.cluster && Blocked(w, w.cluster[key])
    ensures !Settled(w, key)
  {
  }

  lemma LandedUnderParent(w0: World, obj0: Group, w: World)
    requires Resolvable(w0, obj0) && Landed(w0, obj0, w)
    ensures KeycloakParent(w, obj0.key) == Some(ResolvedParent(w0, obj0))
  {
  }
}
