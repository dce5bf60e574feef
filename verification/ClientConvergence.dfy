/** A pass over a Client that runs alone and meets no API failure brings Keycloak's client to the declared state,
    records its identifier, and leaves a client alone that is already there. */
module ClientConvergence {
  import opened Common
  import opened ClientPass
  import opened ClientRuns
  import F = ClientFields
  import S = ClientStatus
  import Tapes

  // Nobody else touches the world between the calls of the pass p.
  ghost predicate Alone(tape: nat -> Tick, p: Proc) {
    forall i: nat :: tape(i + 1).world == Step(tape(i), Run(tape, p, 0, i)).world
  }

  // The client of this object in this realm.
  predicate Ours(w: World, obj: Client, id: Uuid) {
    w.Live(obj.spec.realm.name, id) && w.clients[id].clientId == obj.spec.fields.clientId
  }

  // No API failure: creating gets an unused identifier, and a search by clientId finds a client if there is one.
  ghost predicate Served(t: Tick, p: Proc) {
    && !t.fault
    && (p.pc.Create? ==> t.id != "" && t.id !in t.world.issued)
    && (p.pc.Lookup? ==> (exists id :: Ours(t.world, p.obj, id)) ==> Ours(t.world, p.obj, t.id))
  }

  ghost predicate Healthy(tape: nat -> Tick, p: Proc) {
    forall i: nat :: Served(tape(i), Run(tape, p, 0, i))
  }

  // Config and realm are ready; the client is tracked and alive, or untracked and its clientId is free.
  predicate Reconcilable(w: World, obj: Client) {
    && !obj.deleting
    && ConfigKey(obj) in w.configs && w.configs[ConfigKey(obj)]
    && RealmKey(obj) in w.realms && w.realms[RealmKey(obj)].ready
    && if obj.status.clientUuid != "" then w.Live(obj.spec.realm.name, obj.status.clientUuid)
       else !ClientIdTaken(w, obj.spec.realm.name, obj.spec.fields.clientId)
  }

  // The client `id` lives in the declared realm and all its managed fields are as declared.
  ghost predicate Good(w: World, obj: Client, id: Uuid) {
    id != "" && w.Live(obj.spec.realm.name, id) && F.Matches(obj.spec.fields, w.clients[id])
  }

  ghost predicate Settled(w: World, key: ObjectKey) {
    key in w.cluster && Good(w, w.cluster[key], w.cluster[key].status.clientUuid)
  }

  // Where the pass has got to: w0 and obj0 are what it began with.
  ghost predicate OnTrack(w0: World, obj0: Client, w: World, p: Proc) {
    var key := obj0.key;
    && key in w0.cluster && w0.cluster[key] == obj0
    && w.configs == w0.configs && w.realms == w0.realms
    && key in w.cluster && w.cluster[key].spec == p.obj.spec == obj0.spec && p.obj.key == key
    && (Settled(w0, key) ==> w.clients == w0.clients)
    && var stored, held := w.cluster[key].status.clientUuid, p.obj.status.clientUuid;
       match p.pc
       case Config => w == w0 && p.obj == obj0 == w.cluster[key]
       case AddFinalizer => w.clients == w0.clients && p.obj == w.cluster[key] && stored == obj0.status.clientUuid
       case CheckRealm => w.clients == w0.clients && p.obj == w.cluster[key] && stored == obj0.status.clientUuid
       case SetOwner(_) => w.clients == w0.clients && p.obj == w.cluster[key] && stored == obj0.status.clientUuid
       case Fetch => w.clients == w0.clients && p.obj == w.cluster[key] && stored == obj0.status.clientUuid
       case Create =>
         stored == held == obj0.status.clientUuid == ""
             && !ClientIdTaken(w, p.obj.spec.realm.name, p.obj.spec.fields.clientId)
       case Lookup => stored == obj0.status.clientUuid == "" && (exists id :: Ours(w, p.obj, id)) && OursGood(w, p.obj)
       case Update(found) =>
         stored == held == obj0.status.clientUuid && w.Live(p.obj.spec.realm.name, held) && found == w.clients[held]
       case SyncRoles(_) => Good(w, p.obj, held) && stored in {"", held}
       case FetchCurrent(_) => Good(w, p.obj, held) && stored in {"", held}
       case SyncSecret(_) => Good(w, p.obj, held) && stored in {"", held}
       case ReadStatus(result) => result.ready && p.attempts == 0 && Good(w, p.obj, held) && stored in {"", held}
       case WriteStatus(result, latest) => result.ready && latest == w.cluster[key] && Good(w, p.obj, held)
       case Done(outcome) => (outcome.Skipped? || outcome.Written?) && Settled(w, key) && w.cluster[key].status.ready
       case _ => false
  }

  // Every client that could be found by its clientId is as declared.
  ghost predicate OursGood(w: World, obj: Client) {
    forall id | Ours(w, obj, id) :: Good(w, obj, id)
  }

  lemma BuiltMatches(obj: Client, id: Uuid, field: F.Field)
    ensures F.Actual(Built(obj, id), field) == F.Actual(F.BuildClient(obj.spec.fields, obj.spec.realm.name), field)
  {
  }

  lemma BuiltIsGood(w: World, obj: Client, id: Uuid)
    requires id != "" && id in w.clients && w.clients[id] == Built(obj, id)
    ensures Good(w, obj, id) && Ours(w, obj, id)
  {
    var built := F.BuildClient(obj.spec.fields, obj.spec.realm.name);
    assert Built(obj, id).realmId == obj.spec.realm.name && Built(obj, id).clientId == obj.spec.fields.clientId;
    hide Built, F.Actual, F.Wanted, F.BuildClient;
    forall field: F.Field ensures F.Actual(Built(obj, id), field) == F.Wanted(obj.spec.fields, field) {
      BuiltMatches(obj, id, field);
      F.BuildMatches(obj.spec.fields, obj.spec.realm.name, field);
    }
  }

  lemma PreparingOnTrack(w0: World, obj0: Client, t: Tick, p: Proc)
    requires OnTrack(w0, obj0, t.world, p) && Served(t, p) && Reconcilable(w0, obj0)
    requires p.pc.Config? || p.pc.AddFinalizer? || p.pc.CheckRealm? || p.pc.SetOwner?
    ensures OnTrack(w0, obj0, Step(t, p).world, Step(t, p).proc)
  {
    hide Good, ClientIdTaken, SaysNotReady, F.BuildClient, F.ApplyChanges, F.ClientDiffs, S.MergeStatus;
  }

  lemma FetchingOnTrack(w0: World, obj0: Client, t: Tick, p: Proc)
    requires OnTrack(w0, obj0, t.world, p) && Served(t, p) && Reconcilable(w0, obj0) && p.pc.Fetch?
    ensures OnTrack(w0, obj0, Step(t, p).world, Step(t, p).proc)
  {
    hide Good, F.BuildClient, F.ApplyChanges, F.ClientDiffs, S.MergeStatus;
  }

  lemma CreatingOnTrack(w0: World, obj0: Client, t: Tick, p: Proc)
    requires OnTrack(w0, obj0, t.world, p) && Served(t, p) && p.pc.Create? && WorldInv(t.world)
    ensures OnTrack(w0, obj0, Step(t, p).world, Step(t, p).proc)
  {
    hide F.BuildClient, F.ApplyChanges, F.ClientDiffs, S.MergeStatus, F.Matches;
    var w' := Step(t, p).world;
    assert w'.clients == t.world.clients[t.id := Built(p.obj, t.id)];
    BuiltIsGood(w', p.obj, t.id);
    assert forall id | Ours(w', p.obj, id) :: id == t.id;
  }

  lemma LookingUpOnTrack(w0: World, obj0: Client, t: Tick, p: Proc)
    requires OnTrack(w0, obj0, t.world, p) && Served(t, p) && p.pc.Lookup?
    ensures OnTrack(w0, obj0, Step(t, p).world, Step(t, p).proc)
  {
    hide F.BuildClient, F.ApplyChanges, F.ClientDiffs, S.MergeStatus, F.Matches;
    assert Ours(t.world, p.obj, t.id);
    assert Good(t.world, p.obj, t.id);
  }

  // The update step, on a client that is as it was read.
  lemma UpdateOutcome(t: Tick, p: Proc)
    requires p.pc.Update? && !t.fault && p.obj.status.clientUuid != "" && WorldInv(t.world)
    requires t.world.Live(p.obj.spec.realm.name, p.obj.status.clientUuid)
    requires p.pc.found == t.world.clients[p.obj.status.clientUuid]
    ensures var e := Step(t, p); var matched := F.Matches(p.obj.spec.fields, p.pc.found);
      e.proc == p.(pc := SyncRoles(!matched)) && e.world == t.world.(clients := e.world.clients)
      && (matched ==> e.world == t.world)
      && Good(e.world, p.obj, p.obj.status.clientUuid)
  {
    FoundId(t.world, p.obj.status.clientUuid);
    hide WorldInv, F.Matches;
    F.NoDiffsMeansMatch(p.obj.spec.fields, p.pc.found);
    F.BuildAndApplyMatch(p.obj.spec.fields, p.pc.found, p.pc.found, "");
    hide F.BuildClient, F.ApplyChanges, F.ClientDiffs;
  }

  lemma FoundId(w: World, id: Uuid)
    requires WorldInv(w) && id in w.clients
    ensures w.clients[id].id == id
  {
  }

  lemma UpdatingOnTrack(w0: World, obj0: Client, t: Tick, p: Proc)
    requires OnTrack(w0, obj0, t.world, p) && Served(t, p) && p.pc.Update?
    requires WorldInv(t.world) && p.obj.status.clientUuid != ""
    ensures OnTrack(w0, obj0, Step(t, p).world, Step(t, p).proc)
  {
    hide Step, F.Matches, WorldInv;
    UpdateOutcome(t, p);
  }

  lemma ConfirmingOnTrack(w0: World, obj0: Client, t: Tick, p: Proc)
    requires OnTrack(w0, obj0, t.world, p) && Served(t, p) && p.attempts == 0
    requires p.pc.SyncRoles? || p.pc.FetchCurrent? || p.pc.SyncSecret?
    ensures OnTrack(w0, obj0, Step(t, p).world, Step(t, p).proc)
  {
    hide F.BuildClient, F.ApplyChanges, F.ClientDiffs, S.MergeStatus, F.Matches;
  }

  lemma ReadingOnTrack(w0: World, obj0: Client, t: Tick, p: Proc)
    requires OnTrack(w0, obj0, t.world, p) && Served(t, p) && WorldInv(t.world) && p.pc.ReadStatus?
    ensures OnTrack(w0, obj0, Step(t, p).world, Step(t, p).proc)
  {
    hide F.Matches;
  }

  lemma DoneOnTrack(w0: World, obj0: Client, t: Tick, p: Proc)
    requires OnTrack(w0, obj0, t.world, p) && p.pc.Done?
    ensures OnTrack(w0, obj0, Step(t, p).world, Step(t, p).proc)
  {
    hide Good;
  }

  lemma WritingOnTrack(w0: World, obj0: Client, t: Tick, p: Proc)
    requires OnTrack(w0, obj0, t.world, p) && Served(t, p) && p.pc.WriteStatus?
    ensures OnTrack(w0, obj0, Step(t, p).world, Step(t, p).proc)
  {
    hide F.Matches;
  }

  lemma StepOnTrack(w0: World, obj0: Client, t: Tick, p: Proc)
    requires OnTrack(w0, obj0, t.world, p) && Served(t, p) && Reconcilable(w0, obj0)
    requires WorldInv(t.world) && ProcInv(t.world, p)
    ensures OnTrack(w0, obj0, Step(t, p).world, Step(t, p).proc)
  {
    hide Step, Reconcilable, Good, WorldInv, PcInv;
    match p.pc
    case Config => PreparingOnTrack(w0, obj0, t, p);
    case AddFinalizer => PreparingOnTrack(w0, obj0, t, p);
    case CheckRealm => PreparingOnTrack(w0, obj0, t, p);
    case SetOwner(_) => PreparingOnTrack(w0, obj0, t, p);
    case Fetch => FetchingOnTrack(w0, obj0, t, p);
    case Create => CreatingOnTrack(w0, obj0, t, p);
    case Lookup => LookingUpOnTrack(w0, obj0, t, p);
    case Update(_) => TrackedInUpdate(t.world, p); UpdatingOnTrack(w0, obj0, t, p);
    case SyncRoles(_) => ConfirmingOnTrack(w0, obj0, t, p);
    case FetchCurrent(_) => ConfirmingOnTrack(w0, obj0, t, p);
    case SyncSecret(_) => ConfirmingOnTrack(w0, obj0, t, p);
    case ReadStatus(_) => ReadingOnTrack(w0, obj0, t, p);
    case WriteStatus(_, _) => WritingOnTrack(w0, obj0, t, p);
    case Done(_) => DoneOnTrack(w0, obj0, t, p);
    case _ =>
  }

  lemma TrackedInUpdate(w: World, p: Proc)
    requires ProcInv(w, p) && p.pc.Update?
    ensures p.obj.status.clientUuid != ""
  {
  }

  lemma {:induction false} PassOnTrack(tape: nat -> Tick, key: ObjectKey, n: nat)
    requires WorldInv(tape(0).world) && key in tape(0).world.cluster
    requires var obj := tape(0).world.cluster[key];
      Reconcilable(tape(0).world, obj) && Alone(tape, Start(obj)) && Healthy(tape, Start(obj))
    ensures var obj := tape(0).world.cluster[key]; var p := Run(tape, Start(obj), 0, n);
      OnTrack(tape(0).world, obj, tape(n).world, p) && WorldInv(tape(n).world) && ProcInv(tape(n).world, p)
    decreases n
  {
    hide Step, Reconcilable;
    var obj := tape(0).world.cluster[key];
    if n > 0 {
      PassOnTrack(tape, key, n - 1);
      var q := Run(tape, Start(obj), 0, n - 1);
      hide OnTrack, WorldInv, ProcInv;
      assert Served(tape(n - 1), q);
      assert tape((n - 1) + 1).world == Step(tape(n - 1), q).world;
      StepOnTrack(tape(0).world, obj, tape(n - 1), q);
      StepKeeps(tape(n - 1), q);
    } else {
      BegunKept(tape(0).world, key);
    }
  }

  // How many calls a pass on track still makes at most.
  function CallsLeft(pc: Pc): nat {
    match pc
    case Config => 13
    case AddFinalizer => 12
    case CheckRealm => 11
    case SetOwner(_) => 10
    case Fetch => 9
    case Create => 8
    case Lookup => 7
    case Update(_) => 6
    case SyncRoles(_) => 5
    case FetchCurrent(_) => 4
    case SyncSecret(_) => 3
    case ReadStatus(_) => 2
    case WriteStatus(_, _) => 1
    case _ => 0
  }

  lemma EarlyCallsFall(t: Tick, p: Proc)
    requires CallsLeft(p.pc) > 6
    ensures CallsLeft(Step(t, p).proc.pc) < CallsLeft(p.pc)
  {
    hide ClientIdTaken, SaysNotReady, F.BuildClient, Resolve;
  }

  lemma LateCallsFall(t: Tick, p: Proc)
    requires 0 < CallsLeft(p.pc) <= 6
    requires p.pc.WriteStatus? ==> Step(t, p).proc.pc.Done?
    ensures CallsLeft(Step(t, p).proc.pc) < CallsLeft(p.pc)
  {
    hide F.ApplyChanges, F.ClientDiffs, S.MergeStatus, S.StatusUnchanged;
  }

  // Nobody can get in between reading and writing the status.
  lemma WriteAccepted(w0: World, obj0: Client, t: Tick, p: Proc)
    requires OnTrack(w0, obj0, t.world, p) && Served(t, p)
    ensures p.pc.WriteStatus? ==> Step(t, p).proc.pc.Done?
  {
    hide Good, Settled, S.MergeStatus;
  }

  lemma AtTheEnd(w0: World, obj0: Client, t: Tick, p: Proc)
    requires OnTrack(w0, obj0, t.world, p) && CallsLeft(p.pc) == 0
    ensures p.pc.Done? && Step(t, p).proc == p && Settled(t.world, obj0.key) && t.world.cluster[obj0.key].status.ready
    ensures Settled(w0, obj0.key) ==> t.world.clients == w0.clients
  {
    hide Settled;
  }

  lemma OneCallLess(w0: World, obj0: Client, t: Tick, p: Proc)
    requires OnTrack(w0, obj0, t.world, p) && Served(t, p)
    ensures CallsLeft(Step(t, p).proc.pc) <= if CallsLeft(p.pc) > 0 then CallsLeft(p.pc) - 1 else 0
  {
    hide Step;
    WriteAccepted(w0, obj0, t, p);
    if CallsLeft(p.pc) > 6 {
      EarlyCallsFall(t, p);
    } else if CallsLeft(p.pc) > 0 {
      LateCallsFall(t, p);
    } else {
      AtTheEnd(w0, obj0, t, p);
    }
  }

  lemma ServedAt(tape: nat -> Tick, p: Proc, i: nat)
    requires Healthy(tape, p)
    ensures Served(tape(i), Run(tape, p, 0, i))
  {
  }

  lemma {:induction false} PassEnds(tape: nat -> Tick, key: ObjectKey, n: nat)
    requires WorldInv(tape(0).world) && key in tape(0).world.cluster
    requires var obj := tape(0).world.cluster[key];
      Reconcilable(tape(0).world, obj) && Alone(tape, Start(obj)) && Healthy(tape, Start(obj))
    ensures CallsLeft(Run(tape, Start(tape(0).world.cluster[key]), 0, n).pc) <= if n < 13 then 13 - n else 0
    decreases n
  {
    hide Step, Reconcilable, OnTrack, WorldInv, ProcInv, Served, Alone, Healthy;
    if n > 0 {
      PassEnds(tape, key, n - 1);
      PassOnTrack(tape, key, n - 1);
      var q := Run(tape, Start(tape(0).world.cluster[key]), 0, n - 1);
      ServedAt(tape, Start(tape(0).world.cluster[key]), n - 1);
      OneCallLess(tape(0).world, tape(0).world.cluster[key], tape(n - 1), q);
    }
  }

  /** One undisturbed, failure-free pass over a reconcilable Client ends within 13 calls, with Ready and a live
      identifier stored and every managed field as declared; a settled client is not written to at all. */
  lemma Converges(tape: nat -> Tick, key: ObjectKey, n: nat)
    requires WorldInv(tape(0).world) && key in tape(0).world.cluster && n >= 13
    requires var obj := tape(0).world.cluster[key];
      Reconcilable(tape(0).world, obj) && Alone(tape, Start(obj)) && Healthy(tape, Start(obj))
    ensures Run(tape, Start(tape(0).world.cluster[key]), 0, n).pc.Done?
    ensures Settled(tape(n).world, key) && tape(n).world.cluster[key].status.ready
    ensures Settled(tape(0).world, key) ==> tape(n).world.clients == tape(0).world.clients
  {
    PassOnTrack(tape, key, n);
    PassEnds(tape, key, n);
    hide Step, Good, WorldInv, OnTrack;
    var obj := tape(0).world.cluster[key];
    AtTheEnd(tape(0).world, obj, tape(n), Run(tape, Start(obj), 0, n));
  }

  // ---- Such passes exist ----

  // An answer that helps: a fresh identifier for a new client, the client's own for a search.
  ghost function Helpful(w: World, p: Proc): Tick {
    var id: Uuid :=
      if p.pc.Create? && exists i: Uuid :: i != "" && i !in w.issued then var i: Uuid :| i != "" && i !in w.issued; i
      else if p.pc.Lookup? && exists i :: Ours(w, p.obj, i) then var i :| Ours(w, p.obj, i); i
      else "";
    Tick(w, false, id, "", 0, map[], map[])
  }

  lemma HelpfulServes(w: World, p: Proc)
    ensures Helpful(w, p).world == w && Served(Helpful(w, p), p)
  {
    FreshIdExists(w.issued);
  }

  /** From every world and for every object there is a pass that is left alone and meets no failure. */
  lemma HealthyPassExists(w: World, obj: Client) returns (tape: nat -> Tick)
    ensures tape(0).world == w && Alone(tape, Start(obj)) && Healthy(tape, Start(obj))
  {
    hide Step, Helpful, Served, Start;
    tape := Tapes.Solo(Step, Helpful, w, Start(obj));
    HelpfulServes(w, Start(obj));
    Tapes.SoloRuns(Step, Helpful, w, Start(obj), 0);
    forall i: nat
      ensures tape(i + 1).world == Step(tape(i), Run(tape, Start(obj), 0, i)).world
      ensures Served(tape(i), Run(tape, Start(obj), 0, i))
    {
      Tapes.SoloRuns(Step, Helpful, w, Start(obj), i);
      var here := Tapes.Unroll(Step, Helpful, w, Start(obj), i);
      var next := Tapes.Unroll(Step, Helpful, w, Start(obj), i + 1);
      HelpfulServes(here.world, here.proc);
      HelpfulServes(next.world, next.proc);
      assert tape(i) == Helpful(here.world, here.proc);
      assert tape(i + 1) == Helpful(next.world, next.proc);
      assert Run(tape, Start(obj), 0, i) == here.proc;
      assert next == Step(Helpful(here.world, here.proc), here.proc);
    }
  }
}
