/** Why the forest needs Keycloak groups to keep their names: a run in which an administrator moves and renames one
    group, deletes another, and the operator ends up recording a group as its own parent. */
module RenamedGroup {
  import opened Common
  import opened GroupTypes
  import opened GroupPass
  import opened GroupRuns
  import opened GroupForest
  import Tapes
  import Traces

  const CHILD := ObjectKey("ns", "a")
  const PARENT := ObjectKey("ns", "b")

  // Group "a" declares "b" as its parent; both are Ready and tracked.
  const CHILD_SPEC := GroupSpec("r", "a", Some(GroupRef("b", "")), NilSlice, NilMap, NilMap)
  const PARENT_SPEC := GroupSpec("r", "b", None, NilSlice, NilMap, NilMap)

  const PLAN: Plan := map[
    CHILD := Declared(Some(PARENT), GroupName("r", "a")), PARENT := Declared(None, GroupName("r", "b"))]

  function Tracked(id: Uuid, parent: Uuid): GroupStatus {
    GroupStatus(true, true, UNCHANGED, None, id, parent, map[])
  }

  function Plain(id: Uuid, parent: Uuid, name: string): KGroup {
    KGroup(id, "r", parent, name, NilSlice, NilMap, NilMap, map[])
  }

  const MINTED := map["ga" := GroupName("r", "a"), "gb" := GroupName("r", "b")]

  const START := State(
    World(map[CHILD := Group(CHILD, CHILD_SPEC, {}, Tracked("ga", "gb"), 1),
              PARENT := Group(PARENT, PARENT_SPEC, {}, Tracked("gb", ""), 1)],
          Keycloak(map["ga" := Plain("ga", "gb", "a"), "gb" := Plain("gb", "", "b")], MINTED), 1),
    map[])

  function Meets(pid: nat, id: Uuid): Move {
    Call(pid, false, id, "", 0)
  }

  // The administrator moves "ga" elsewhere and calls it "b".
  const RENAMING := PutGroup(Plain("ga", "z", "b"))

  // The run has come to s; nobody has touched an object or edited a group after the renaming.
  ghost predicate Reached(moves: seq<Move>, s: State) {
    && Traces.After(Apply, START, moves) == Some(s)
    && |moves| > 0 && moves[0] == RENAMING
    && forall i | 0 < i < |moves| :: !moves[i].PutObject? && !moves[i].PutGroup?
  }

  lemma Then(moves: seq<Move>, s: State, m: Move, s': State) returns (moves': seq<Move>)
    requires Reached(moves, s) && Apply(s, m) == Some(s') && !m.PutObject? && !m.PutGroup?
    ensures Reached(moves', s')
  {
    hide Apply;
    Traces.AfterOne(Apply, START, moves, m);
    moves' := moves + [m];
  }

  // One call of pass 0, which runs alone; and one of pass 1, beside what pass 0 has come to.
  lemma ParentThen(moves: seq<Move>, w: World, p: Proc, id: Uuid, w': World, p': Proc) returns (moves': seq<Move>)
    requires Reached(moves, State(w, map[0 := p])) && Step(Tick(w, false, id, "", 0), p) == Tapes.Effect(w', p')
    ensures Reached(moves', State(w', map[0 := p']))
  {
    hide Step, Reached;
    assert map[0 := p][0 := p'] == map[0 := p'];
    moves' := Then(moves, State(w, map[0 := p]), Meets(0, id), State(w', map[0 := p']));
  }

  lemma ChildThen(moves: seq<Move>, q: Proc, w: World, p: Proc, w': World, p': Proc) returns (moves': seq<Move>)
    requires Reached(moves, State(w, map[0 := q, 1 := p])) && Step(Tick(w, false, "", "", 0), p) == Tapes.Effect(w', p')
    ensures Reached(moves', State(w', map[0 := q, 1 := p']))
  {
    hide Step, Reached;
    assert map[0 := q, 1 := p][1 := p'] == map[0 := q, 1 := p'];
    moves' := Then(moves, State(w, map[0 := q, 1 := p]), Meets(1, ""), State(w', map[0 := q, 1 := p']));
  }

  // ---- The administrator's edits ----

  const RENAMED := State(
    START.world.(keycloak := Keycloak(map["ga" := Plain("ga", "z", "b"), "gb" := Plain("gb", "", "b")], MINTED)), map[])

  const EDITED := State(START.world.(keycloak := Keycloak(map["ga" := Plain("ga", "z", "b")], MINTED)), map[])

  lemma Edits() returns (moves: seq<Move>)
    ensures Reached(moves, EDITED)
  {
    assert Apply(START, RENAMING).value.world.keycloak.groups == RENAMED.world.keycloak.groups;
    assert Apply(START, RENAMING) == Some(RENAMED);
    moves := [RENAMING];
    Traces.AfterOne(Apply, START, [], RENAMING);
    assert [] + [RENAMING] == moves;
    assert Apply(RENAMED, DropGroup("gb")).value.world.keycloak.groups == EDITED.world.keycloak.groups;
    moves := Then(moves, RENAMED, DropGroup("gb"), EDITED);
  }

  // ---- "b" is created again, and the search for its name finds "ga" ----

  const REPORT := Result(true, true, CHANGED)

  // The objects as the two passes hold them along the way.
  function ParentHeld(id: Uuid): Group {
    Group(PARENT, PARENT_SPEC, {}, Tracked(id, ""), 1)
  }

  function ChildHeld(parent: Uuid): Group {
    Group(CHILD, CHILD_SPEC, {}, Tracked("ga", parent), 1)
  }

  function InParentPass(id: Uuid, pc: Pc, attempts: nat): Proc {
    Proc(ParentHeld(id), pc, attempts, [])
  }

  function InChildPass(parent: Uuid, pc: Pc, attempts: nat): Proc {
    Proc(ChildHeld(parent), pc, attempts, [])
  }

  const KEYCLOAK := Keycloak(map["ga" := Plain("ga", "z", "b"), "gb2" := Plain("gb2", "", "b")],
                             MINTED["gb2" := GroupName("r", "b")])

  const RECREATED := EDITED.world.(keycloak := KEYCLOAK)

  lemma ParentFetched() returns (moves: seq<Move>)
    ensures Reached(moves, State(EDITED.world, map[0 := InParentPass("", Create, 0)]))
  {
    var w := EDITED.world;
    moves := Edits();
    moves := Then(moves, EDITED, Begin(0, PARENT, None), State(w, map[0 := InParentPass("gb", Resolve, 0)]));
    moves := ParentThen(moves, w, InParentPass("gb", Resolve, 0), "", w, InParentPass("gb", Fetch, 0));
    moves := ParentThen(moves, w, InParentPass("gb", Fetch, 0), "", w, InParentPass("", Create, 0));
  }

  lemma ParentRecreated() returns (moves: seq<Move>)
    ensures Reached(moves, State(RECREATED, map[0 := InParentPass("ga", ReadStatus(REPORT), 0)]))
  {
    var w, w' := EDITED.world, RECREATED;
    moves := ParentFetched();
    var t := Tick(w, false, "gb2", "", 0);
    assert !SiblingExists(w.keycloak, BuildGroup(ParentHeld(""), "gb2"));
    assert Step(t, InParentPass("", Create, 0)).world.keycloak == KEYCLOAK;
    moves := ParentThen(moves, w, InParentPass("", Create, 0), "gb2", w', InParentPass("", Lookup, 0));
    moves := ParentThen(moves, w', InParentPass("", Lookup, 0), "ga", w', InParentPass("ga", ReadStatus(REPORT), 0));
  }

  // The parent object, now tracked under the child's identifier.
  const MISTRACKED := Group(PARENT, PARENT_SPEC, {}, GroupStatus(true, true, CHANGED, Some(0), "ga", "", map[]), 2)

  const MISLED := World(map[CHILD := ChildHeld("gb"), PARENT := MISTRACKED], KEYCLOAK, 2)

  lemma ParentReported() returns (moves: seq<Move>, p: Proc)
    ensures Reached(moves, State(MISLED, map[0 := p]))
  {
    var w := RECREATED;
    var reading := InParentPass("ga", ReadStatus(REPORT), 0);
    var writing := InParentPass("ga", WriteStatus(REPORT, ParentHeld("gb")), 1);
    moves := ParentRecreated();
    moves := ParentThen(moves, w, reading, "", w, writing);
    var after := Step(Tick(w, false, "", "", 0), writing);
    p := after.proc;
    assert after.world.cluster == MISLED.cluster;
    moves := ParentThen(moves, w, writing, "", MISLED, p);
  }

  // ---- "a" finds its recorded parent dead and resolves the reference again ----

  lemma ChildReadsParent() returns (moves: seq<Move>, q: Proc)
    ensures Reached(moves, State(MISLED, map[0 := q, 1 := InChildPass("", WalkChain(MISTRACKED, MISTRACKED, {}), 0)]))
  {
    var w := MISLED;
    moves, q := ParentReported();
    var begun := map[0 := q, 1 := InChildPass("gb", Resolve, 0)];
    assert map[0 := q][1 := InChildPass("gb", Resolve, 0)] == begun;
    moves := Then(moves, State(w, map[0 := q]), Begin(1, CHILD, None), State(w, begun));
    moves := ChildThen(moves, q, w, InChildPass("gb", Resolve, 0), w, InChildPass("", FetchParent, 0));
    moves := ChildThen(moves, q, w, InChildPass("", FetchParent, 0),
                       w, InChildPass("", WalkChain(MISTRACKED, MISTRACKED, {}), 0));
  }

  lemma ChildAdoptsItself() returns (moves: seq<Move>, q: Proc)
    ensures Reached(moves, State(MISLED, map[0 := q, 1 := InChildPass("ga", Update(Plain("ga", "z", "b")), 0)]))
  {
    var w := MISLED;
    moves, q := ChildReadsParent();
    var verifying := InChildPass("", VerifyParent(MISTRACKED), 0);
    moves := ChildThen(moves, q, w, InChildPass("", WalkChain(MISTRACKED, MISTRACKED, {}), 0), w, verifying);
    moves := ChildThen(moves, q, w, verifying, w, InChildPass("ga", Fetch, 0));
    moves := ChildThen(moves, q, w, InChildPass("ga", Fetch, 0), w,
        InChildPass("ga", Update(Plain("ga", "z", "b")), 0));
  }

  lemma ChildUpdated() returns (moves: seq<Move>, q: Proc, w: World)
    ensures Reached(moves, State(w, map[0 := q, 1 := InChildPass("ga", ReadStatus(REPORT), 0)]))
    ensures w.cluster == MISLED.cluster
  {
    moves, q := ChildAdoptsItself();
    var updating := InChildPass("ga", Update(Plain("ga", "z", "b")), 0);
    assert GroupDiffs(ChildHeld("ga"), Plain("ga", "z", "b"))[0] == "name";
    w := Step(Tick(MISLED, false, "", "", 0), updating).world;
    moves := ChildThen(moves, q, MISLED, updating, w, InChildPass("ga", ReadStatus(REPORT), 0));
  }

  lemma ChildReported() returns (moves: seq<Move>, s: State)
    ensures Reached(moves, s) && CHILD in s.world.cluster
    ensures s.world.cluster[CHILD].status.groupUuid == s.world.cluster[CHILD].status.parentUuid == "ga"
  {
    var q, w;
    moves, q, w := ChildUpdated();
    var writing := InChildPass("ga", WriteStatus(REPORT, ChildHeld("gb")), 1);
    moves := ChildThen(moves, q, w, InChildPass("ga", ReadStatus(REPORT), 0), w, writing);
    var after := Step(Tick(w, false, "", "", 0), writing);
    moves := ChildThen(moves, q, w, writing, after.world, after.proc);
    s := State(after.world, map[0 := q, 1 := after.proc]);
  }

  // Only others change what is declared.
  lemma DeclarationsStay(plan: Plan, s: State, m: Move)
    requires Follows(plan, s.world) && !m.PutObject? && Apply(s, m).Some?
    ensures Follows(plan, Apply(s, m).value.world)
  {
    hide Matches;
    if m.Call? {
      OnlyStatusChanges(Tick(s.world, m.fault, m.id, m.text, m.now), s.procs[m.pid]);
    }
    forall k | k in Apply(s, m).value.world.cluster ensures Matches(plan, Apply(s, m).value.world.cluster[k]) {
      MatchesDeclared(plan, s.world.cluster[k], Apply(s, m).value.world.cluster[k]);
    }
  }

  lemma MatchesDeclared(plan: Plan, g: Group, g': Group)
    requires Matches(plan, g) && g'.key == g.key && g'.spec == g.spec
    ensures Matches(plan, g')
  {
  }

  lemma OnlyStatusChanges(t: Tick, p: Proc)
    ensures Step(t, p).world.cluster.Keys == t.world.cluster.Keys
    ensures forall k | k in t.world.cluster ::
      Step(t, p).world.cluster[k].key == t.world.cluster[k].key
          && Step(t, p).world.cluster[k].spec == t.world.cluster[k].spec
  {
  }

  lemma {:induction false} DeclarationsStayAlong(plan: Plan, states: seq<State>, moves: seq<Move>, n: nat)
    requires Trace(states, moves) && Follows(plan, states[0].world) && n < |states|
    requires forall m | m in moves :: !m.PutObject?
    ensures Follows(plan, states[n].world)
    decreases n
  {
    if n > 0 {
      DeclarationsStayAlong(plan, states, moves, n - 1);
      assert Apply(states[n - 1], moves[n - 1]) == Some(states[n]);
      DeclarationsStay(plan, states[n - 1], moves[n - 1]);
    }
  }

  lemma StartIsInitial()
    ensures Initial(START) && UniqueNames(PLAN) && Follows(PLAN, START.world)
  {
  }

  lemma StartIsHonest()
    ensures HonestWorld(PLAN, true, START.world)
  {
    RootGrounded(PLAN, PARENT);
    ChildGrounded(PLAN, CHILD);
    hide Grounded;
  }

  /** One renaming is enough: this run meets every other hypothesis of `Forest` and ends with a group that is
      recorded as its own parent. */
  lemma RenamingBreaksTheForest() returns (states: seq<State>, moves: seq<Move>)
    ensures Trace(states, moves) && Initial(states[0]) && HonestWorld(PLAN, true, states[0].world) && UniqueNames(PLAN)
    ensures forall i | 0 <= i < |states| :: Follows(PLAN, states[i].world)
    ensures |moves| > 0 && forall i | 0 < i < |moves| :: KeepsNames(states[i], moves[i])
    ensures LinksTo(states[|moves|].world, CHILD, CHILD)
  {
    hide Apply, Initial, HonestWorld, UniqueNames, Follows;
    var end;
    moves, end := ChildReported();
    states := Traces.RunExists(Apply, START, moves);
    assert moves[..|moves|] == moves;
    StartIsInitial();
    StartIsHonest();
    forall i | 0 <= i < |states| ensures Follows(PLAN, states[i].world) {
      DeclarationsStayAlong(PLAN, states, moves, i);
    }
  }
}
