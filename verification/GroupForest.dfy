/** Over whole runs the resolved group hierarchy is a forest, whatever the users declared. */
module GroupForest {
  import opened Common
  import opened GroupTypes
  import opened GroupPass
  import opened GroupRuns

  // What the users declared and do not change: the parent reference and the name in the realm.
  datatype Declared = Declared(parent: Option<ObjectKey>, name: GroupName)

  type Plan = map<ObjectKey, Declared>

  ghost predicate UniqueNames(plan: Plan) {
    forall k, l | k in plan && l in plan && plan[k].name == plan[l].name :: k == l
  }

  predicate Matches(plan: Plan, g: Group) {
    && g.key in plan
    && Link(g) == plan[g.key].parent
    && plan[g.key].name == GroupName(g.spec.realm, g.spec.name)
  }

  ghost predicate Follows(plan: Plan, w: World) {
    forall k | k in w.cluster :: Matches(plan, w.cluster[k])
  }

  // The object n declared parents above k. Declarations may be cyclic.
  function Above(plan: Plan, k: ObjectKey, n: nat): Option<ObjectKey>
    decreases n
  {
    if n == 0 then Some(k)
    else if k in plan && plan[k].parent.Some? then Above(plan, plan[k].parent.value, n - 1)
    else None
  }

  ghost predicate Grounded(plan: Plan, k: ObjectKey) {
    exists n: nat :: Above(plan, k, n).None?
  }

  lemma RootGrounded(plan: Plan, k: ObjectKey)
    requires k in plan && plan[k].parent.None?
    ensures Grounded(plan, k)
  {
    assert Above(plan, k, 1).None?;
  }

  lemma ChildGrounded(plan: Plan, k: ObjectKey)
    requires k in plan && plan[k].parent.Some? && Grounded(plan, plan[k].parent.value)
    ensures Grounded(plan, k)
  {
    var n: nat :| Above(plan, plan[k].parent.value, n).None?;
    assert Above(plan, k, n + 1).None?;
  }

  predicate IssuedFor(minted: map<Uuid, GroupName>, id: Uuid, name: GroupName) {
    id in minted && minted[id] == name
  }

  // Any identifier, and Ready, is a sign that the declared chain ends. In a steady realm, where Keycloak groups keep
  // their names, identifiers are recorded only for the group they were issued for, and parent identifiers only
  // for the declared parent.
  ghost predicate Honest(plan: Plan, steady: bool, minted: map<Uuid, GroupName>, g: Group) {
    && Matches(plan, g)
    && (g.status.ready || g.status.groupUuid != "" || g.status.parentUuid != "" ==> Grounded(plan, g.key))
    && (steady && g.status.groupUuid != "" ==> IssuedFor(minted, g.status.groupUuid, plan[g.key].name))
    && (g.status.parentUuid != "" ==>
          plan[g.key].parent.Some? && plan[g.key].parent.value in plan
          && (steady ==> IssuedFor(minted, g.status.parentUuid, plan[plan[g.key].parent.value].name)))
  }

  ghost predicate NamesRecorded(kc: Keycloak) {
    forall id | id in kc.groups :: IssuedFor(kc.minted, id, GroupName(kc.groups[id].realm, kc.groups[id].name))
  }

  ghost predicate HonestWorld(plan: Plan, steady: bool, w: World) {
    && w.Valid() && (steady ==> NamesRecorded(w.keycloak))
    && (forall k | k in w.cluster :: Honest(plan, steady, w.keycloak.minted, w.cluster[k]))
  }

  ghost predicate HonestProc(plan: Plan, steady: bool, minted: map<Uuid, GroupName>, p: Proc) {
    && Honest(plan, steady, minted, p.obj)
    && match p.pc
       case Resolve => true
       case FetchParent => true
       case WalkChain(parent, _, _) => Honest(plan, steady, minted, parent) && Link(p.obj) == Some(parent.key)
       case VerifyParent(parent) =>
         Honest(plan, steady, minted, parent) && Link(p.obj) == Some(parent.key) && parent.status.groupUuid != ""
       case Fetch => Grounded(plan, p.obj.key)
       case Create => Grounded(plan, p.obj.key)
       case Lookup => Grounded(plan, p.obj.key)
       case Update(found) => Grounded(plan, p.obj.key) && found.id == p.obj.status.groupUuid != ""
       case ReadStatus(result) => result.ready ==> Grounded(plan, p.obj.key)
       case WriteStatus(result, latest) =>
         (result.ready ==> Grounded(plan, p.obj.key)) && Honest(plan, steady, minted, latest) && latest.key == p.obj.key
       case Done(_) => true
  }

  ghost predicate HonestState(plan: Plan, steady: bool, s: State) {
    && HonestWorld(plan, steady, s.world)
    && (forall pid | pid in s.procs :: HonestProc(plan, steady, s.world.keycloak.minted, s.procs[pid]))
  }

  ghost predicate Grows(m: map<Uuid, GroupName>, m': map<Uuid, GroupName>) {
    forall id | id in m :: id in m' && m'[id] == m[id]
  }

  lemma ResolvingKeepsHonest(plan: Plan, steady: bool, t: Tick, p: Proc)
    requires HonestWorld(plan, steady, t.world) && HonestProc(plan, steady, t.world.keycloak.minted, p)
    requires p.pc.Resolve? || p.pc.FetchParent?
    ensures HonestProc(plan, steady, t.world.keycloak.minted, Step(t, p).proc)
  {
    if !HasParent(p.obj) {
      RootGrounded(plan, p.obj.key);
    }
  }

  lemma CheckedParentHonest(plan: Plan, steady: bool, minted: map<Uuid, GroupName>, p: Proc, parent: Group)
    requires Honest(plan, steady, minted, p.obj) && Honest(plan, steady, minted, parent)
    requires Link(p.obj) == Some(parent.key)
    ensures HonestProc(plan, steady, minted, CheckParent(p, parent))
  {
  }

  lemma WalkKeepsHonest(plan: Plan, steady: bool, t: Tick, p: Proc)
    requires HonestProc(plan, steady, t.world.keycloak.minted, p) && p.pc.WalkChain?
    ensures HonestProc(plan, steady, t.world.keycloak.minted, Step(t, p).proc)
  {
    var q := Step(t, p).proc;
    if q == CheckParent(p, p.pc.parent) {
      CheckedParentHonest(plan, steady, t.world.keycloak.minted, p, p.pc.parent);
    } else if q.pc.WalkChain? {
      assert q.obj == p.obj && q.pc.parent == p.pc.parent;
    } else {
      assert q.obj == p.obj && q.pc.ReadStatus? && !q.pc.result.ready;
    }
  }

  // The step the forest rests on: a parent is only adopted once it is tracked itself.
  lemma AdoptingKeepsHonest(plan: Plan, steady: bool, t: Tick, p: Proc)
    requires HonestWorld(plan, steady, t.world) && HonestProc(plan, steady, t.world.keycloak.minted, p)
    requires p.pc.VerifyParent?
    ensures HonestProc(plan, steady, t.world.keycloak.minted, Step(t, p).proc)
  {
    assert plan[p.obj.key].parent == Some(p.pc.parent.key);
    ChildGrounded(plan, p.obj.key);
  }

  lemma FetchingKeepsHonest(plan: Plan, steady: bool, t: Tick, p: Proc)
    requires HonestWorld(plan, steady, t.world) && HonestProc(plan, steady, t.world.keycloak.minted, p)
    requires p.pc.Fetch? || p.pc.Lookup? || p.pc.ReadStatus? || p.pc.Done?
    ensures HonestProc(plan, steady, t.world.keycloak.minted, Step(t, p).proc)
  {
  }

  lemma CreatedWorld(plan: Plan, steady: bool, t: Tick, p: Proc)
    requires HonestWorld(plan, steady, t.world)
    ensures var w' := StepCreate(t, p).world;
      w'.cluster == t.world.cluster && Grows(t.world.keycloak.minted, w'.keycloak.minted)
      && w'.Valid() && (steady ==> NamesRecorded(w'.keycloak))
  {
    hide Honest;
  }

  lemma CreatingKeepsHonest(plan: Plan, steady: bool, t: Tick, p: Proc)
    requires HonestProc(plan, steady, t.world.keycloak.minted, p) && p.pc.Create?
    ensures HonestProc(plan, steady, t.world.keycloak.minted, Step(t, p).proc)
  {
    hide Honest, Grounded, BuildGroup, SiblingExists;
    var e := StepCreate(t, p);
    assert e.proc.obj == p.obj && (e.proc.pc.Lookup? || (e.proc.pc.ReadStatus? && !e.proc.pc.result.ready));
  }

  lemma UpdatingKeepsHonest(plan: Plan, steady: bool, t: Tick, p: Proc)
    requires HonestWorld(plan, steady, t.world) && HonestProc(plan, steady, t.world.keycloak.minted, p) && p.pc.Update?
    ensures Step(t, p).world.cluster == t.world.cluster
    ensures Step(t, p).world.keycloak.minted == t.world.keycloak.minted
    ensures Step(t, p).world.Valid() && (steady ==> NamesRecorded(Step(t, p).world.keycloak))
    ensures HonestProc(plan, steady, t.world.keycloak.minted, Step(t, p).proc)
  {
  }

  lemma MergeHonest(plan: Plan, steady: bool, minted: map<Uuid, GroupName>, stored: Group, latest: Group, obj: Group,
                                       result: Result, now: int, version: nat)
    requires Honest(plan, steady, minted, stored) && Honest(plan, steady, minted, latest)
    requires Honest(plan, steady, minted, obj)
    requires stored.key == latest.key == obj.key && (result.ready ==> Grounded(plan, obj.key))
    ensures var merged := MergeStatus(latest.status, obj.status, result, now);
      Honest(plan, steady, minted, stored.(status := merged, version := version))
          && Honest(plan, steady, minted, obj.(status := merged))
  {
  }

  lemma WritingKeepsHonest(plan: Plan, steady: bool, t: Tick, p: Proc)
    requires HonestWorld(plan, steady, t.world) && HonestProc(plan, steady, t.world.keycloak.minted, p)
    requires p.pc.WriteStatus?
    ensures HonestWorld(plan, steady, Step(t, p).world) && Step(t, p).world.keycloak == t.world.keycloak
    ensures HonestProc(plan, steady, t.world.keycloak.minted, Step(t, p).proc)
  {
    if p.obj.key in t.world.cluster {
      var stored := t.world.cluster[p.obj.key];
      MergeHonest(plan, steady, t.world.keycloak.minted, stored, p.pc.latest, p.obj, p.pc.result, t.now,
          t.world.revision + 1);
    }
  }

  lemma GrowingKeepsHonest(plan: Plan, steady: bool, m: map<Uuid, GroupName>, m': map<Uuid, GroupName>, p: Proc)
    requires Grows(m, m') && HonestProc(plan, steady, m, p)
    ensures HonestProc(plan, steady, m', p)
  {
  }

  lemma StepKeepsHonest(plan: Plan, steady: bool, t: Tick, p: Proc)
    requires HonestWorld(plan, steady, t.world) && HonestProc(plan, steady, t.world.keycloak.minted, p)
    ensures HonestWorld(plan, steady, Step(t, p).world)
    ensures Grows(t.world.keycloak.minted, Step(t, p).world.keycloak.minted)
    ensures HonestProc(plan, steady, t.world.keycloak.minted, Step(t, p).proc)
  {
    match p.pc
    case Resolve => ResolvingKeepsHonest(plan, steady, t, p);
    case FetchParent => ResolvingKeepsHonest(plan, steady, t, p);
    case WalkChain(_, _, _) => WalkKeepsHonest(plan, steady, t, p);
    case VerifyParent(_) => AdoptingKeepsHonest(plan, steady, t, p);
    case Create => CreatedWorld(plan, steady, t, p); CreatingKeepsHonest(plan, steady, t, p);
    case Update(_) => UpdatingKeepsHonest(plan, steady, t, p);
    case WriteStatus(_, _) => WritingKeepsHonest(plan, steady, t, p);
    case _ => FetchingKeepsHonest(plan, steady, t, p);
  }

  // No Keycloak group gets another name by this move.
  predicate KeepsNames(s: State, m: Move) {
    m.PutGroup? && m.group.id in s.world.keycloak.groups ==> m.group.name == s.world.keycloak.groups[m.group.id].name
  }

  // What others do to an object, and to a Keycloak group.
  lemma ObjectPutHonest(plan: Plan, steady: bool, w: World, key: ObjectKey, g: Group)
    requires HonestWorld(plan, steady, w) && PutAllowed(w, key, g) && Matches(plan, g)
    ensures HonestWorld(plan, steady, w.(cluster := w.cluster[key := g], revision := w.revision + 1))
  {
    hide Grounded;
    assert Honest(plan, steady, w.keycloak.minted, g) by {
      if key in w.cluster {
        assert Honest(plan, steady, w.keycloak.minted, w.cluster[key]);
      }
    }
    hide Honest, Matches;
  }

  lemma GroupPutHonest(plan: Plan, steady: bool, w: World, kc: Keycloak)
    requires HonestWorld(plan, steady, w) && kc.Valid() && (steady ==> NamesRecorded(kc))
    requires Grows(w.keycloak.minted, kc.minted)
    ensures HonestWorld(plan, steady, w.(keycloak := kc))
  {
    forall k | k in w.cluster ensures Honest(plan, steady, kc.minted, w.cluster[k]) {
      assert Honest(plan, steady, w.keycloak.minted, w.cluster[k]);
    }
    hide Honest;
  }

  lemma OthersKeepHonest(plan: Plan, steady: bool, s: State, m: Move)
    requires HonestWorld(plan, steady, s.world) && !m.Call? && Apply(s, m).Some?
    requires Follows(plan, Apply(s, m).value.world)
    requires steady ==> KeepsNames(s, m)
    ensures HonestWorld(plan, steady, Apply(s, m).value.world)
    ensures Grows(s.world.keycloak.minted, Apply(s, m).value.world.keycloak.minted)
  {
    hide Honest, Matches;
    var w := s.world;
    if m.PutObject? {
      var g := Apply(s, m).value.world.cluster[m.key];
      assert Matches(plan, g);
      ObjectPutHonest(plan, steady, w, m.key, g);
    } else if m.PutGroup? || m.DropGroup? {
      GroupPutHonest(plan, steady, w, Apply(s, m).value.world.keycloak);
    }
  }

  lemma MoveKeepsHonest(plan: Plan, steady: bool, s: State, m: Move)
    requires HonestState(plan, steady, s) && Apply(s, m).Some? && Follows(plan, Apply(s, m).value.world)
    requires steady ==> KeepsNames(s, m)
    ensures HonestState(plan, steady, Apply(s, m).value)
  {
    var s' := Apply(s, m).value;
    var minted, minted' := s.world.keycloak.minted, s'.world.keycloak.minted;
    if m.Call? {
      StepKeepsHonest(plan, steady, Tick(s.world, m.fault, m.id, m.text, m.now), s.procs[m.pid]);
    } else {
      OthersKeepHonest(plan, steady, s, m);
    }
    hide Step, Honest, Follows;
    forall pid | pid in s'.procs ensures HonestProc(plan, steady, minted', s'.procs[pid]) {
      GrowingKeepsHonest(plan, steady, minted, minted', s'.procs[pid]);
    }
  }

  lemma {:induction false} HonestRun(plan: Plan, steady: bool, states: seq<State>, moves: seq<Move>, n: nat)
    requires Trace(states, moves) && Initial(states[0]) && HonestWorld(plan, steady, states[0].world)
    requires forall i | 0 <= i < |states| :: Follows(plan, states[i].world)
    requires steady ==> forall i | 0 <= i < |moves| :: KeepsNames(states[i], moves[i])
    requires n < |states|
    ensures HonestState(plan, steady, states[n])
    decreases n
  {
    if n > 0 {
      HonestRun(plan, steady, states, moves, n - 1);
      assert Apply(states[n - 1], moves[n - 1]) == Some(states[n]);
      MoveKeepsHonest(plan, steady, states[n - 1], moves[n - 1]);
    }
  }

  // Where nothing is recorded yet, nothing is recorded wrongly: the hypotheses of Forest can be met.
  lemma FreshWorldHonest(plan: Plan, w: World)
    requires w.Valid() && Follows(plan, w) && forall k | k in w.cluster :: w.cluster[k].status == EMPTY_STATUS
    ensures HonestWorld(plan, false, w) && (NamesRecorded(w.keycloak) ==> HonestWorld(plan, true, w))
  {
  }

  // ---- The forest ----

  predicate LinksTo(w: World, k: ObjectKey, h: ObjectKey) {
    && k in w.cluster && h in w.cluster
    && w.cluster[k].status.parentUuid != ""
    && w.cluster[k].status.parentUuid == w.cluster[h].status.groupUuid
  }

  ghost predicate LinkPath(w: World, path: seq<ObjectKey>) {
    |path| > 1 && forall i | 0 <= i < |path| - 1 :: LinksTo(w, path[i], path[i + 1])
  }

  ghost predicate PlanPath(plan: Plan, path: seq<ObjectKey>) {
    |path| > 1 && forall i | 0 <= i < |path| - 1 :: path[i] in plan && plan[path[i]].parent == Some(path[i + 1])
  }

  lemma {:induction false} PathClimbs(plan: Plan, path: seq<ObjectKey>, n: nat)
    requires PlanPath(plan, path) && Above(plan, path[0], n).None?
    ensures |path| - 1 < n && Above(plan, path[|path| - 1], n - (|path| - 1)).None?
    decreases |path|
  {
    if |path| > 2 {
      assert path[1..][0] == path[1];
      forall i | 0 <= i < |path| - 2
        ensures path[1..][i] in plan && plan[path[1..][i]].parent == Some(path[1..][i + 1])
      {
        assert path[1..][i] == path[i + 1];
      }
      PathClimbs(plan, path[1..], n - 1);
    }
  }

  lemma {:induction false} GroundedPathNeverReturns(plan: Plan, path: seq<ObjectKey>, n: nat)
    requires PlanPath(plan, path) && Above(plan, path[0], n).None?
    ensures path[0] != path[|path| - 1]
    decreases n
  {
    PathClimbs(plan, path, n);
    if path[0] == path[|path| - 1] {
      GroundedPathNeverReturns(plan, path, n - (|path| - 1));
    }
  }

  /** For every interleaving in which the declared parents and names stay as they are, names are unique in their
      realm and nobody renames a Keycloak group: a recorded parent identifier belongs to the declared parent, and
      following recorded identifiers never leads back, even where the declarations form a cycle. */
  lemma Forest(plan: Plan, states: seq<State>, moves: seq<Move>, n: nat)
    requires Trace(states, moves) && Initial(states[0]) && HonestWorld(plan, true, states[0].world)
    requires forall i | 0 <= i < |states| :: Follows(plan, states[i].world)
    requires forall i | 0 <= i < |moves| :: KeepsNames(states[i], moves[i])
    requires UniqueNames(plan) && n < |states|
    ensures forall k, h | LinksTo(states[n].world, k, h) :: k in plan && plan[k].parent == Some(h)
    ensures forall path | LinkPath(states[n].world, path) :: path[0] != path[|path| - 1]
  {
    HonestRun(plan, true, states, moves, n);
    var w := states[n].world;
    forall k, h | LinksTo(w, k, h) ensures k in plan && plan[k].parent == Some(h) {
      assert Honest(plan, true, w.keycloak.minted, w.cluster[k]) && Honest(plan, true, w.keycloak.minted, w.cluster[h]);
    }
    forall path | LinkPath(w, path) ensures path[0] != path[|path| - 1] {
      forall i | 0 <= i < |path| - 1 ensures path[i] in plan && plan[path[i]].parent == Some(path[i + 1]) {
        assert LinksTo(w, path[i], path[i + 1]);
      }
      assert LinksTo(w, path[0], path[1]);
      assert Honest(plan, true, w.keycloak.minted, w.cluster[path[0]]);
      var depth: nat :| Above(plan, path[0], depth).None?;
      GroundedPathNeverReturns(plan, path, depth);
    }
  }

  /** Why the hierarchy walk is not what keeps cycles out: a group whose declared chain never ends is never
      Ready and never gets an identifier, in any run, whoever renames Keycloak groups. */
  lemma DeclaredCycleNeverTracked(plan: Plan, states: seq<State>, moves: seq<Move>, n: nat, key: ObjectKey)
    requires Trace(states, moves) && Initial(states[0]) && HonestWorld(plan, false, states[0].world)
    requires forall i | 0 <= i < |states| :: Follows(plan, states[i].world)
    requires n < |states| && key in states[n].world.cluster && !Grounded(plan, key)
    ensures var status := states[n].world.cluster[key].status;
      !status.ready && status.groupUuid == "" && status.parentUuid == ""
  {
    HonestRun(plan, false, states, moves, n);
    assert Honest(plan, false, states[n].world.keycloak.minted, states[n].world.cluster[key]);
  }
}
