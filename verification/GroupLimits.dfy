/** Where the group controller falls short of the obvious claim, and exactly when. */
module GroupLimits {
  import opened Common
  import opened GroupTypes
  import opened GroupPass
  import opened GroupRuns
  import opened GroupConvergence
  import opened GroupRecreation
  import Tapes

  /** The unchanged-status shortcut equals the write it saves, up to the sync time, exactly when the identifiers
      held in memory are empty or already stored. */
  lemma SkipRefinesWrite(latest: GroupStatus, original: GroupStatus, result: Result, now: int)
    requires StatusUnchanged(latest, result)
    ensures MergeStatus(latest, original, result, now).(lastSync := latest.lastSync) == latest
       <==> original.groupUuid in {"", latest.groupUuid} && original.parentUuid in {"", latest.parentUuid}
  {
  }

  // A ready root group "g" that tracks `id`, last reported as changed.
  function ReadyGroup(id: Uuid): Group {
    Group(ObjectKey("ns", "g"), GroupSpec("r", "g", None, NilSlice, NilMap, NilMap), {},
          GroupStatus(true, true, CHANGED, None, id, "", map[]), 1)
  }

  function Served(w: World, id: Uuid): Tick {
    Tick(w, false, id, "", 0)
  }

  /** The shortcut does lose an identifier: the group tracked as "old" was deleted in Keycloak, the pass creates
      it again as "new" and skips the status write. "old" stays recorded, and the next pass is refused. */
  lemma SkipDiscardsRecreatedUuid(w: World)
    requires w.cluster == map[ObjectKey("ns", "g") := ReadyGroup("old")]
    requires w.keycloak == Keycloak(map[], map["old" := GroupName("r", "g")])
    ensures var p0 := Start(ReadyGroup("old"));
            var p1 := Step(Served(w, ""), p0).proc;
            var p2 := Step(Served(w, ""), p1).proc;
            var created := Step(Served(w, "new"), p2);
            var p4 := Step(Served(created.world, "new"), created.proc).proc;
            var end := Step(Served(created.world, ""), p4);
            p4.obj.status.groupUuid == "new" && end.proc.pc == Done(Skipped)
            && end.world.keycloak.Live("r", "new")
            && end.world.cluster[ObjectKey("ns", "g")].status.groupUuid == "old"
    ensures var w' := w.(keycloak := Keycloak(map["new" := BuildGroup(ReadyGroup(""), "new")],
                                              w.keycloak.minted["new" := GroupName("r", "g")]));
            var q1 := Step(Served(w', ""), Start(ReadyGroup("old"))).proc;
            var q2 := Step(Served(w', ""), q1).proc;
            forall id: Uuid :: Step(Served(w', id), q2) ==
              Tapes.Effect(w', Fail(q2, RECONCILE_FAILED, "group exists in Keycloak but UUID not tracked"))
  {
    var p0 := Start(ReadyGroup("old"));
    var p1 := Step(Served(w, ""), p0).proc;
    assert p1 == p0.(pc := Fetch);
    var p2 := Step(Served(w, ""), p1).proc;
    assert p2 == Proc(ReadyGroup(""), Create, 0, []);
    var g := BuildGroup(p2.obj, "new");
    assert !SiblingExists(w.keycloak, g);
    var created := Step(Served(w, "new"), p2);
    assert created.proc.pc == Lookup && created.world.keycloak.groups == map["new" := g];
    var p4 := Step(Served(created.world, "new"), created.proc).proc;
    assert p4.pc == ReadStatus(Result(true, true, CHANGED));

    var w' := w.(keycloak := Keycloak(map["new" := g], w.keycloak.minted["new" := GroupName("r", "g")]));
    var q1 := Step(Served(w', ""), p0).proc;
    assert q1 == p0.(pc := Fetch);
    var q2 := Step(Served(w', ""), q1).proc;
    assert q2 == Proc(ReadyGroup(""), Create, 0, []);
    forall id: Uuid
      ensures Step(Served(w', id), q2)
           == Tapes.Effect(w', Fail(q2, RECONCILE_FAILED, "group exists in Keycloak but UUID not tracked"))
    {
      assert "new" in w'.keycloak.groups && w'.keycloak.groups["new"] == g;
      assert SiblingExists(w'.keycloak, BuildGroup(q2.obj, id));
    }
  }

  // ---- Parents that are not the declared ones ----

  const CHILD := ObjectKey("ns", "child")
  const OLD := ObjectKey("ns", "old")
  const NEW := ObjectKey("ns", "new")

  function Member(key: ObjectKey, parent: Option<GroupRef>, id: Uuid, parentUuid: Uuid): Group {
    Group(key, GroupSpec("r", key.name, parent, NilSlice, NilMap, NilMap), {},
          GroupStatus(true, true, UNCHANGED, None, id, parentUuid, map[]), 1)
  }

  function InKeycloak(id: Uuid, parent: Uuid, name: string): KGroup {
    KGroup(id, "r", parent, name, NilSlice, NilMap, NilMap, map[])
  }

  // The child tracks `id` and has been resolved to "old"; its reference has since been changed to "new". All parents
  // are Ready, tracked and alive.
  function Edited(id: Uuid, groups: map<Uuid, KGroup>): World {
    World(map[CHILD := Member(CHILD, Some(GroupRef("new", "")), id, "o"),
              OLD := Member(OLD, None, "o", ""), NEW := Member(NEW, None, "n", "")],
          Keycloak(groups["o" := InKeycloak("o", "", "old")]["n" := InKeycloak("n", "", "new")],
                   map["c" := GroupName("r", "child"), "o" := GroupName("r", "old"), "n" := GroupName("r", "new")]), 1)
  }

  const CHANGED_REFERENCE := Edited("c", map["c" := InKeycloak("c", "o", "child")])

  lemma ChangedReferencePrepared()
    ensures var w := CHANGED_REFERENCE; var obj := w.cluster[CHILD];
      WorldInv(w) && Resolvable(w, obj) && Trackable(w, obj) && ResolvedParent(w, obj) == "o" && ParentKey(obj) == NEW
  {
  }

  /** A changed reference is ignored while the old parent lives: every undisturbed pass without failures leaves the
      group under its old parent. */
  lemma ChangedReferenceIgnored(tape: nat -> Tick, n: nat)
    requires tape(0).world == CHANGED_REFERENCE && n >= 10 + KeyCount(CHANGED_REFERENCE.cluster)
    requires var obj := CHANGED_REFERENCE.cluster[CHILD]; Alone(tape, Start(obj)) && Healthy(tape, Start(obj))
    ensures HasParent(CHANGED_REFERENCE.cluster[CHILD]) && ParentKey(CHANGED_REFERENCE.cluster[CHILD]) == NEW
    ensures KeycloakParent(tape(n).world, CHILD) == Some("o") != Some(CHANGED_REFERENCE.cluster[NEW].status.groupUuid)
  {
    hide Alone, Healthy, WorldInv, Trackable, Resolvable, ResolvedParent, KeyCount, Settled;
    ChangedReferencePrepared();
    Converges(tape, CHILD, n);
  }

  const VANISHED_CHILD := Edited("c", map[])

  lemma VanishedChildPrepared()
    ensures var w := VANISHED_CHILD; var obj := w.cluster[CHILD];
      WorldInv(w) && Resolvable(w, obj) && Vanished(w, obj) && obj.status.groupUuid == "c" && "c" in w.keycloak.minted
      && !StatusUnchanged(obj.status, REPORT) && w.keycloak.Live("r", obj.status.parentUuid)
  {
    assert UNCHANGED != CHANGED;
  }

  /** A vanished group loses its parent, even a live one: every undisturbed pass without failures creates it again at
      the top of the realm. */
  lemma VanishedGroupLosesParent(tape: nat -> Tick, n: nat) returns (id: Uuid)
    requires tape(0).world == VANISHED_CHILD && n >= 10 + KeyCount(VANISHED_CHILD.cluster)
    requires var obj := VANISHED_CHILD.cluster[CHILD]; Alone(tape, Start(obj)) && Healthy(tape, Start(obj))
    ensures VANISHED_CHILD.keycloak.Live("r", VANISHED_CHILD.cluster[CHILD].status.parentUuid)
    ensures KeycloakParent(tape(n).world, CHILD) == Some("")
    ensures tape(n).world.cluster[CHILD].status.groupUuid == id != "c"
  {
    hide Alone, Healthy, WorldInv, Resolvable, ResolvedParent, Vanished, StatusUnchanged, KeyCount;
    VanishedChildPrepared();
    id := RecreatedAtTheTop(tape, CHILD, n);
  }
}
