/** Whole runs: any number of group passes, on any groups, interleaved call by call with each other and
    with everything else that touches the cluster and Keycloak. */
module GroupRuns {
  import opened Common
  import opened GroupTypes
  import opened GroupPass
  import Traces

  datatype State = State(world: World, procs: map<nat, Proc>)

  datatype Move =
    | Begin(pid: nat, key: ObjectKey, early: Option<Result>)
    | Call(pid: nat, fault: bool, id: Uuid, text: string, now: int)
    | PutObject(key: ObjectKey, object: Group)
    | DropObject(key: ObjectKey)
    | PutGroup(group: KGroup)
    | DropGroup(id: Uuid)

  // A pass reads its object and either reports an early failure (realm or instance config not usable,
  // deletion pending) or goes on to reconcileGroup.
  function Begun(obj: Group, early: Option<Result>): Proc {
    match early
    case None => Start(obj)
    case Some(result) => Start(obj).(pc := ReadStatus(result))
  }

  // What others may write: new objects start with an empty status; spec, finalizers and the unmanaged part
  // of the status may change at any time, always under a new version.
  predicate PutAllowed(w: World, key: ObjectKey, g: Group) {
    && g.key == key
    && g.version == w.revision + 1
    && if key in w.cluster
       then g.status == w.cluster[key].status.(unmanaged := g.status.unmanaged)
       else g.status == EMPTY_STATUS
  }

  // Others may create Keycloak groups under unused identifiers, and edit, rename, move and delete groups, which
  // stay in their realm.
  predicate PutGroupAllowed(kc: Keycloak, g: KGroup) {
    if g.id in kc.groups then g.realm == kc.groups[g.id].realm else g.id != "" && g.id !in kc.minted
  }

  function Apply(s: State, m: Move): Option<State> {
    var w := s.world;
    match m
    case Begin(pid, key, early) =>
      if key !in w.cluster || (early.Some? && early.value.ready) then None
      else Some(State(w, s.procs[pid := Begun(w.cluster[key], early)]))
    case Call(pid, fault, id, text, now) =>
      if pid !in s.procs then None
      else
        var e := Step(Tick(w, fault, id, text, now), s.procs[pid]);
        Some(State(e.world, s.procs[pid := e.proc]))
    case PutObject(key, g) =>
      if !PutAllowed(w, key, g) then None
      else Some(s.(world := w.(cluster := w.cluster[key := g], revision := w.revision + 1)))
    case DropObject(key) =>
      Some(s.(world := w.(cluster := w.cluster - {key})))
    case PutGroup(g) =>
      if !PutGroupAllowed(w.keycloak, g) then None
      else Some(s.(world := w.(keycloak := Keycloak(w.keycloak.groups[g.id := g],
             if g.id in w.keycloak.groups then w.keycloak.minted
             else w.keycloak.minted[g.id := GroupName(g.realm, g.name)]))))
    case DropGroup(id) =>
      Some(s.(world := w.(keycloak := w.keycloak.(groups := w.keycloak.groups - {id}))))
  }

  ghost predicate Trace(states: seq<State>, moves: seq<Move>) {
    Traces.Trace(Apply, states, moves)
  }

  // ---- Versions, statuses and the retry loop ----

  predicate Tracked(g: Group) {
    g.status.ready ==> g.status.groupUuid != ""
  }

  // A remembered object with the stored version is the stored object.
  ghost predicate Snapshot(w: World, g: Group) {
    && g.version <= w.revision
    && (g.key in w.cluster && w.cluster[g.key].version == g.version ==> w.cluster[g.key] == g)
  }

  // What the writes of a pass look like: the merge over the very object that was replaced.
  predicate WellWritten(w: StatusWrite) {
    && w.written.version > w.replaced.version
    && w.written == w.replaced.(status := MergeStatus(w.replaced.status, w.original, w.result, w.now),
                                version := w.written.version)
  }

  // The status loop: at most three attempts, nothing written before it ends, and its outcome tells what it wrote.
  predicate RetryState(p: Proc) {
    match p.pc
    case ReadStatus(_) => p.attempts < 3 && p.writes == []
    case WriteStatus(_, _) => 1 <= p.attempts <= 3 && p.writes == []
    case Done(outcome) => 1 <= p.attempts <= 3 &&
      (if outcome.Written? then |p.writes| == 1 && WellWritten(p.writes[0]) else p.writes == [])
    case _ => p.attempts == 0 && p.writes == []
  }

  ghost predicate ProcInv(w: World, p: Proc) {
    && RetryState(p)
    && (p.pc.Update? ==> p.obj.status.groupUuid != "")
    && (p.pc.ReadStatus? && p.pc.result.ready ==> p.obj.status.groupUuid != "")
    && (p.pc.WriteStatus? ==> p.pc.result.ready ==> p.obj.status.groupUuid != "")
    && (p.pc.WriteStatus? ==> p.pc.latest.key == p.obj.key && Snapshot(w, p.pc.latest))
  }

  ghost predicate WorldInv(w: World) {
    w.Valid() && forall k | k in w.cluster :: Tracked(w.cluster[k])
  }

  // A run starts when the operator does: no pass is under way, and the stores are in order.
  ghost predicate Initial(s: State) {
    s.procs == map[] && WorldInv(s.world)
  }

  // On a cluster the operator has never touched they are, so that runs can start somewhere.
  lemma FreshClusterInitial(s: State)
    requires s.world.Valid() && s.procs == map[]
    requires forall k | k in s.world.cluster :: s.world.cluster[k].status == EMPTY_STATUS
    ensures Initial(s)
  {
  }

  ghost predicate RunInv(s: State) {
    WorldInv(s.world) && forall pid | pid in s.procs :: ProcInv(s.world, s.procs[pid])
  }

  // Objects only change under a new version.
  ghost predicate Versioned(w: World, w': World) {
    && w.revision <= w'.revision
    && (forall k | k in w'.cluster ::
        (k in w.cluster && w'.cluster[k] == w.cluster[k]) || w'.cluster[k].version > w.revision)
  }

  // A status write that is accepted: what it does to the object, the cluster and the history.
  lemma CommitKeeps(t: Tick, p: Proc)
    requires WorldInv(t.world) && ProcInv(t.world, p) && p.pc.WriteStatus?
    requires Step(t, p).proc.pc == Done(Written)
    ensures WorldInv(Step(t, p).world) && Versioned(t.world, Step(t, p).world)
    ensures RetryState(Step(t, p).proc)
    ensures forall k | k in t.world.cluster :: k in Step(t, p).world.cluster
    ensures forall k | k in t.world.cluster :: UuidsKept(t.world.cluster[k].status, Step(t, p).world.cluster[k].status)
  {
    var stored := t.world.cluster[p.obj.key];
    assert stored == p.pc.latest;
    var w' := StepWriteStatus(t, p, p.pc.result, p.pc.latest).world;
    var written := w'.cluster[p.obj.key];
    assert written.status == MergeStatus(stored.status, p.obj.status, p.pc.result, t.now);
    assert w'.cluster == t.world.cluster[p.obj.key := written];
  }

  lemma WriteStatusKeeps(t: Tick, p: Proc)
    requires WorldInv(t.world) && ProcInv(t.world, p) && p.pc.WriteStatus?
    ensures WorldInv(Step(t, p).world) && Versioned(t.world, Step(t, p).world)
    ensures ProcInv(Step(t, p).world, Step(t, p).proc)
    ensures forall k | k in t.world.cluster :: k in Step(t, p).world.cluster
    ensures forall k | k in t.world.cluster :: UuidsKept(t.world.cluster[k].status, Step(t, p).world.cluster[k].status)
  {
    if Step(t, p).proc.pc == Done(Written) {
      CommitKeeps(t, p);
    } else {
      assert Step(t, p).world == t.world;
    }
  }

  lemma CreateKeeps(t: Tick, p: Proc)
    requires WorldInv(t.world) && ProcInv(t.world, p) && p.pc.Create?
    ensures WorldInv(Step(t, p).world) && ProcInv(Step(t, p).world, Step(t, p).proc)
    ensures Step(t, p).world.cluster == t.world.cluster && Step(t, p).world.revision == t.world.revision
  {
    var e := StepCreate(t, p);
    assert e.proc.pc.Lookup? || e.proc.pc.ReadStatus?;
    assert e.proc.attempts == 0 && e.proc.writes == [];
    assert e.world.keycloak.Valid();
  }

  lemma UpdateKeeps(t: Tick, p: Proc)
    requires WorldInv(t.world) && ProcInv(t.world, p) && p.pc.Update?
    ensures WorldInv(Step(t, p).world) && ProcInv(Step(t, p).world, Step(t, p).proc)
    ensures Step(t, p).world.cluster == t.world.cluster && Step(t, p).world.revision == t.world.revision
  {
  }

  lemma ParentKeeps(t: Tick, p: Proc)
    requires ProcInv(t.world, p)
    requires p.pc.Resolve? || p.pc.FetchParent? || p.pc.VerifyParent?
    ensures Step(t, p).world == t.world && ProcInv(t.world, Step(t, p).proc)
  {
  }

  lemma FailKeeps(w: World, p: Proc, prefix: string, reason: string)
    requires p.attempts == 0 && p.writes == []
    ensures ProcInv(w, Fail(p, prefix, reason))
  {
  }

  lemma CheckParentKeeps(w: World, p: Proc, parent: Group)
    requires p.attempts == 0 && p.writes == []
    ensures ProcInv(w, CheckParent(p, parent))
  {
  }

  lemma WalkKeeps(t: Tick, p: Proc)
    requires ProcInv(t.world, p) && p.pc.WalkChain?
    ensures Step(t, p).world == t.world && ProcInv(t.world, Step(t, p).proc)
  {
    var q := Step(t, p).proc;
    if q.pc.WalkChain? {
      assert q.attempts == 0 && q.writes == [];
    } else if q == CheckParent(p, p.pc.parent) {
      CheckParentKeeps(t.world, p, p.pc.parent);
    } else {
      FailKeeps(t.world, p, RESOLVE_FAILED, "circular reference detected");
      FailKeeps(t.world, p, RESOLVE_FAILED, "circular reference to this group");
      FailKeeps(t.world, p, RESOLVE_FAILED, t.text);
    }
  }

  lemma ReadsKeep(t: Tick, p: Proc)
    requires WorldInv(t.world) && ProcInv(t.world, p)
    requires p.pc.Fetch? || p.pc.Lookup? || p.pc.Done?
    ensures Step(t, p).world == t.world && ProcInv(t.world, Step(t, p).proc)
  {
  }

  lemma ReadStatusKeeps(t: Tick, p: Proc)
    requires WorldInv(t.world) && ProcInv(t.world, p) && p.pc.ReadStatus?
    ensures Step(t, p).world == t.world && ProcInv(t.world, Step(t, p).proc)
  {
  }

  lemma StepKeeps(t: Tick, p: Proc)
    requires WorldInv(t.world) && ProcInv(t.world, p)
    ensures WorldInv(Step(t, p).world) && Versioned(t.world, Step(t, p).world)
    ensures ProcInv(Step(t, p).world, Step(t, p).proc)
    ensures forall k | k in t.world.cluster ::
      k in Step(t, p).world.cluster && UuidsKept(t.world.cluster[k].status, Step(t, p).world.cluster[k].status)
  {
    if p.pc.WriteStatus? {
      WriteStatusKeeps(t, p);
    } else if p.pc.Create? {
      CreateKeeps(t, p);
    } else if p.pc.Update? {
      UpdateKeeps(t, p);
    } else if p.pc.ReadStatus? {
      ReadStatusKeeps(t, p);
    } else if p.pc.WalkChain? {
      WalkKeeps(t, p);
    } else if p.pc.Fetch? || p.pc.Lookup? || p.pc.Done? {
      ReadsKeep(t, p);
    } else {
      ParentKeeps(t, p);
    }
  }

  lemma OthersKept(w: World, w': World, p: Proc)
    requires ProcInv(w, p) && Versioned(w, w')
    ensures ProcInv(w', p)
  {
  }

  lemma MoveKeeps(s: State, m: Move)
    requires RunInv(s) && Apply(s, m).Some?
    ensures RunInv(Apply(s, m).value)
  {
    var s' := Apply(s, m).value;
    if m.Call? {
      StepKeeps(Tick(s.world, m.fault, m.id, m.text, m.now), s.procs[m.pid]);
    }
    assert Versioned(s.world, s'.world);
    forall pid | pid in s'.procs ensures ProcInv(s'.world, s'.procs[pid]) {
      if pid in s.procs && s'.procs[pid] == s.procs[pid] {
        OthersKept(s.world, s'.world, s.procs[pid]);
      }
    }
  }

  /** Every run, every state, every pass: stored Ready implies a stored GroupUUID, and the status loop makes at
      most three attempts and at most one write, which is the merge over the very version it replaces. */
  lemma {:induction false} RunInvariant(states: seq<State>, moves: seq<Move>, n: nat)
    requires Trace(states, moves) && Initial(states[0]) && n < |states|
    ensures RunInv(states[n])
    decreases n
  {
    if n > 0 {
      RunInvariant(states, moves, n - 1);
      MoveKeeps(states[n - 1], moves[n - 1]);
    }
  }

  predicate UuidsKept(a: GroupStatus, b: GroupStatus) {
    (a.groupUuid != "" ==> b.groupUuid != "") && (a.parentUuid != "" ==> b.parentUuid != "")
  }

  /** As long as the object exists, a recorded GroupUUID or ParentGroupUUID is never reset to empty. */
  lemma {:induction false} UuidsNeverReset(states: seq<State>, moves: seq<Move>, key: ObjectKey, i: nat, j: nat)
    requires Trace(states, moves) && Initial(states[0]) && i <= j < |states|
    requires forall n | i <= n <= j :: key in states[n].world.cluster
    ensures UuidsKept(states[i].world.cluster[key].status, states[j].world.cluster[key].status)
    decreases j
  {
    hide Trace, Initial;
    if i < j {
      UuidsNeverReset(states, moves, key, i, j - 1);
      UuidsKeptOnce(states, moves, key, j - 1);
    }
  }

  lemma UuidsKeptOnce(states: seq<State>, moves: seq<Move>, key: ObjectKey, n: nat)
    requires Trace(states, moves) && Initial(states[0]) && n + 1 < |states|
    requires key in states[n].world.cluster && key in states[n + 1].world.cluster
    ensures UuidsKept(states[n].world.cluster[key].status, states[n + 1].world.cluster[key].status)
  {
    RunInvariant(states, moves, n);
    assert Apply(states[n], moves[n]) == Some(states[n + 1]);
    hide Apply, RunInv;
    MoveKeepsUuids(states[n], moves[n], key);
  }

  lemma MoveKeepsUuids(s: State, m: Move, key: ObjectKey)
    requires RunInv(s) && Apply(s, m).Some?
    requires key in s.world.cluster && key in Apply(s, m).value.world.cluster
    ensures UuidsKept(s.world.cluster[key].status, Apply(s, m).value.world.cluster[key].status)
  {
    if m.Call? {
      StepKeeps(Tick(s.world, m.fault, m.id, m.text, m.now), s.procs[m.pid]);
    }
  }

  /** What a write of the status loop leaves alone, and what it can do to the identifiers. */
  lemma WriteKeepsTheRest(w: StatusWrite)
    requires WellWritten(w)
    ensures w.written.key == w.replaced.key && w.written.spec == w.replaced.spec
    ensures w.written.finalizers == w.replaced.finalizers
    ensures w.written.status.unmanaged == w.replaced.status.unmanaged
    ensures UuidsKept(w.replaced.status, w.written.status)
    ensures w.original.groupUuid != "" ==> w.written.status.groupUuid == w.original.groupUuid
    ensures w.original.groupUuid == "" ==> w.written.status.groupUuid == w.replaced.status.groupUuid
    ensures w.original.parentUuid != "" ==> w.written.status.parentUuid == w.original.parentUuid
    ensures w.original.parentUuid == "" ==> w.written.status.parentUuid == w.replaced.status.parentUuid
    ensures w.written.status.ready == w.result.ready && w.written.status.realmReady == w.result.realmReady
    ensures w.written.status.message == w.result.message && w.written.status.lastSync == Some(w.now)
  {
  }

  /** The first tracked identifier is never lost to the skip shortcut: a pass that is about to report success
      over a status without GroupUUID does not skip, and its write stores the identifier it holds. */
  lemma FirstUuidNotSkipped(states: seq<State>, moves: seq<Move>, n: nat, pid: nat)
    requires Trace(states, moves) && Initial(states[0]) && n < |states|
    requires pid in states[n].procs
    ensures var w, p := states[n].world, states[n].procs[pid];
      p.pc.ReadStatus? && p.pc.result.ready && p.obj.key in w.cluster && w.cluster[p.obj.key].status.groupUuid == "" ==>
        forall t: Tick | t.world == w :: !Step(t, p).proc.pc.Done? || Step(t, p).proc.pc.outcome.Failed?
    ensures var w, p := states[n].world, states[n].procs[pid];
      forall t: Tick | t.world == w && p.pc.WriteStatus? && p.pc.result.ready && Step(t, p).proc.pc == Done(Written) ::
        p.obj.status.groupUuid != "" && Step(t, p).world.cluster[p.obj.key].status.groupUuid == p.obj.status.groupUuid
  {
    RunInvariant(states, moves, n);
    assert ProcInv(states[n].world, states[n].procs[pid]);
    var w, p := states[n].world, states[n].procs[pid];
    if p.obj.key in w.cluster {
      assert Tracked(w.cluster[p.obj.key]);
    }
  }
}
