/** Two runs in which the operator leaves a Keycloak client behind, whatever the fields of its spec: one forgets a
    tracked client because the object was moved to another realm, one never gets to track the client it created. */
module ForgottenClients {
  import opened Common
  import opened ClientPass
  import opened ClientRuns
  import opened ClientSafety
  import F = ClientFields
  import R = ClientRoles
  import S = ClientStatus
  import Tapes
  import Traces

  const KEY := ObjectKey("ns", "app")

  // The realms live in another namespace, so that no owner references are involved.
  function Object(f: F.ClientSpec, realm: string, finalizer: bool, deleting: bool, status: S.Status,
      version: nat): Client {
    Client(KEY, Spec(Ref("kc", ""), Ref(realm, "realms"), f, []), finalizer, deleting, map[], status, version)
  }

  function Status(ready: bool, message: string, lastSync: Option<int>, id: Uuid): S.Status {
    S.Status(ready, true, message, lastSync, id, Some(map[]), None)
  }

  function World(obj: Client, clients: map<Uuid, F.OpenidClient>,
                 roles: map<Uuid, map<Uuid, R.Role>>): ClientPass.World {
    ClientPass.World(
      map[KEY := obj], map[ObjectKey("ns", "kc") := true],
      map[ObjectKey("realms", "r1") := Realm(true, "1"), ObjectKey("realms", "r2") := Realm(true, "2")],
      clients, clients.Keys, roles, obj.version)
  }

  function In(f: F.ClientSpec, realm: string, id: Uuid): F.OpenidClient {
    F.BuildClient(f, realm).(id := id)
  }

  function Meets(w: ClientPass.World, fault: bool, id: Uuid): Tick {
    Tick(w, fault, id, "", 0, map[], map[])
  }

  ghost predicate Faultless(moves: seq<Move>) {
    forall m | m in moves && m.Call? :: !m.fault
  }

  // One more move of a run from s0; and one more call of the only pass.
  lemma Then(s0: State, moves: seq<Move>, s: State, m: Move, s': State) returns (moves': seq<Move>)
    requires Traces.After(Apply, s0, moves) == Some(s) && Apply(s, m) == Some(s')
    ensures Traces.After(Apply, s0, moves') == Some(s')
    ensures Faultless(moves) && (m.Call? ==> !m.fault) ==> Faultless(moves')
  {
    hide Apply;
    Traces.AfterOne(Apply, s0, moves, m);
    moves' := moves + [m];
  }

  lemma CallThen(s0: State, moves: seq<Move>, w: ClientPass.World, p: Proc, fault: bool, id: Uuid,
                 w': ClientPass.World, p': Proc) returns (moves': seq<Move>)
    requires Traces.After(Apply, s0, moves) == Some(State(w, map[KEY := p]))
    requires Step(Meets(w, fault, id), p) == Tapes.Effect(w', p')
    ensures Traces.After(Apply, s0, moves') == Some(State(w', map[KEY := p']))
    ensures Faultless(moves) && !fault ==> Faultless(moves')
  {
    hide Step;
    assert map[KEY := p][KEY := p'] == map[KEY := p'];
    moves' := Then(s0, moves, State(w, map[KEY := p]), Call(KEY, fault, id, "", 0, map[], map[]),
        State(w', map[KEY := p']));
  }

  // A pass begins; what an earlier one has left does not matter.
  lemma BeginThen(s0: State, moves: seq<Move>, w: ClientPass.World, procs: map<ObjectKey, Proc>)
      returns (moves': seq<Move>)
    requires Traces.After(Apply, s0, moves) == Some(State(w, procs)) && procs.Keys <= {KEY} && KEY in w.cluster
    requires KEY in procs ==> procs[KEY].pc.Done?
    ensures Traces.After(Apply, s0, moves') == Some(State(w, map[KEY := Start(w.cluster[KEY])]))
    ensures Faultless(moves) ==> Faultless(moves')
  {
    assert procs[KEY := Start(w.cluster[KEY])] == map[KEY := Start(w.cluster[KEY])];
    moves' := Then(s0, moves, State(w, procs), Begin(KEY), State(w, map[KEY := Start(w.cluster[KEY])]));
  }

  // Somebody marks the object for deletion.
  lemma MarkThen(s0: State, moves: seq<Move>, s: State, g: Client, w': ClientPass.World) returns (moves': seq<Move>)
    requires Traces.After(Apply, s0, moves) == Some(s) && PutAllowed(s.world, g) && g.key == KEY
    requires s.world.cluster.Keys == {KEY} && w' == s.world.(cluster := map[KEY := g], revision := g.version)
    ensures Traces.After(Apply, s0, moves') == Some(s.(world := w')) && (Faultless(moves) ==> Faultless(moves'))
  {
    assert s.world.cluster[KEY := g] == map[KEY := g];
    moves' := Then(s0, moves, s, PutObject(g), s.(world := w'));
  }

  // ---- The moved client ----

  // The object tracks "u1" in realm r1, and is Ready.
  function Tracking(f: F.ClientSpec): State {
    State(World(Object(f, "r1", true, false, Status(true, UNCHANGED, None, "u1"), 1), map["u1" := In(f, "r1", "u1")],
                map[]),
          map[])
  }

  function Moved(f: F.ClientSpec): Client {
    Object(f, "r2", true, false, Status(true, UNCHANGED, None, "u1"), 2)
  }

  function MovedWorld(f: F.ClientSpec): ClientPass.World {
    World(Moved(f), map["u1" := In(f, "r1", "u1")], map[])
  }

  // The pass after the move, holding this identifier.
  function MovedPass(f: F.ClientSpec, id: Uuid, pc: Pc): Proc {
    Proc(Object(f, "r2", true, false, Status(true, UNCHANGED, None, id), 2), pc, 0, [])
  }

  lemma MovedCalls(f: F.ClientSpec)
    ensures var w := MovedWorld(f);
      Step(Meets(w, false, ""), MovedPass(f, "u1", Config)) == Tapes.Effect(w, MovedPass(f, "u1", CheckRealm))
      && Step(Meets(w, false, ""), MovedPass(f, "u1", CheckRealm)) == Tapes.Effect(w, MovedPass(f, "u1", Fetch))
      && Step(Meets(w, false, ""), MovedPass(f, "u1", Fetch)) == Tapes.Effect(w, MovedPass(f, "", Create))
  {
    assert In(f, "r1", "u1").realmId == "r1";
    hide F.BuildClient;
  }

  lemma MovedAndLost(f: F.ClientSpec) returns (moves: seq<Move>)
    ensures Faultless(moves)
    ensures Traces.After(Apply, Tracking(f), moves) == Some(State(MovedWorld(f), map[KEY := MovedPass(f, "", Create)]))
  {
    hide F.BuildClient, Step;
    var s0, w := Tracking(f), MovedWorld(f);
    moves := MarkThen(s0, [], s0, Moved(f), w);
    moves := BeginThen(s0, moves, w, map[]);
    hide Traces.After, Apply;
    MovedCalls(f);
    moves := CallThen(s0, moves, w, MovedPass(f, "u1", Config), false, "", w, MovedPass(f, "u1", CheckRealm));
    moves := CallThen(s0, moves, w, MovedPass(f, "u1", CheckRealm), false, "", w, MovedPass(f, "u1", Fetch));
    moves := CallThen(s0, moves, w, MovedPass(f, "u1", Fetch), false, "", w, MovedPass(f, "", Create));
  }

  function RecreatedWorld(f: F.ClientSpec): ClientPass.World {
    World(Moved(f), map["u1" := In(f, "r1", "u1"), "u2" := In(f, "r2", "u2")], map["u2" := map[]])
  }

  const REPORT := S.Result(true, true, CHANGED)

  lemma CreatingCall(f: F.ClientSpec)
    ensures Step(Meets(MovedWorld(f), false, "u2"), MovedPass(f, "", Create))
         == Tapes.Effect(RecreatedWorld(f), MovedPass(f, "", Lookup))
  {
    assert In(f, "r1", "u1").realmId == "r1";
    assert Built(Moved(f), "u2") == In(f, "r2", "u2");
    hide F.BuildClient, Built, In;
    var w, clients := MovedWorld(f), RecreatedWorld(f).clients;
    assert w.clients["u2" := In(f, "r2", "u2")] == clients;
    assert w.issued + {"u2"} == clients.Keys;
  }

  lemma LookupCall(f: F.ClientSpec)
    ensures Step(Meets(RecreatedWorld(f), false, "u2"), MovedPass(f, "", Lookup))
         == Tapes.Effect(RecreatedWorld(f), MovedPass(f, "u2", SyncRoles(true)))
  {
    assert In(f, "r2", "u2").realmId == "r2" && In(f, "r2", "u2").clientId == f.clientId;
    hide F.BuildClient, In;
  }

  lemma SyncingCalls(f: F.ClientSpec)
    ensures var w := RecreatedWorld(f);
      Step(Meets(w, false, ""), MovedPass(f, "u2", SyncRoles(true)))
          == Tapes.Effect(w, MovedPass(f, "u2", FetchCurrent(true)))
      && Step(Meets(w, false, ""), MovedPass(f, "u2", FetchCurrent(true)))
         == Tapes.Effect(w, MovedPass(f, "u2", SyncSecret(true)))
      && Step(Meets(w, false, ""), MovedPass(f, "u2", SyncSecret(true)))
         == Tapes.Effect(w, MovedPass(f, "u2", ReadStatus(REPORT)))
  {
    assert In(f, "r2", "u2").realmId == "r2";
    hide F.BuildClient;
    assert RecreatedWorld(f).roles["u2" := map[]] == RecreatedWorld(f).roles;
  }

  // The object now tracks "u2".
  function Recorded(f: F.ClientSpec, finalizer: bool, deleting: bool, version: nat): Client {
    Object(f, "r2", finalizer, deleting, Status(true, CHANGED, Some(0), "u2"), version)
  }

  function RecordedWorld(f: F.ClientSpec, finalizer: bool, deleting: bool, version: nat): ClientPass.World {
    RecreatedWorld(f).(cluster := map[KEY := Recorded(f, finalizer, deleting, version)], revision := version)
  }

  function Writing(f: F.ClientSpec): Proc {
    MovedPass(f, "u2", WriteStatus(REPORT, Moved(f))).(attempts := 1)
  }

  lemma ReadingCall(f: F.ClientSpec)
    ensures Step(Meets(RecreatedWorld(f), false, ""), MovedPass(f, "u2", ReadStatus(REPORT)))
         == Tapes.Effect(RecreatedWorld(f), Writing(f))
  {
    hide F.BuildClient, In;
    assert UNCHANGED != CHANGED;
  }

  // Writing the status of the only object, which nobody else has touched since it was read.
  lemma StatusCall(w: ClientPass.World, p: Proc, result: S.Result, status: S.Status) returns (done: Proc)
    requires w.cluster.Keys == {KEY} && p.obj.key == KEY && p.pc == WriteStatus(result, w.cluster[KEY])
    requires status == S.MergeStatus(w.cluster[KEY].status, p.obj.status, result, 0)
    ensures Step(Meets(w, false, ""), p) == Tapes.Effect(w.(
      cluster := map[KEY := w.cluster[KEY].(status := status, version := w.revision + 1)], revision := w.revision + 1),
          done)
    ensures done.pc.Done?
  {
    hide S.MergeStatus;
    var written := w.cluster[KEY].(status := status, version := w.revision + 1);
    assert w.cluster[KEY := written] == map[KEY := written];
    done := Step(Meets(w, false, ""), p).proc;
  }

  lemma WritingCall(f: F.ClientSpec) returns (done: Proc)
    ensures Step(Meets(RecreatedWorld(f), false, ""), Writing(f))
        == Tapes.Effect(RecordedWorld(f, true, false, 3), done)
    ensures done.pc.Done?
  {
    hide F.BuildClient, In, Step;
    done := StatusCall(RecreatedWorld(f), Writing(f), REPORT, Status(true, CHANGED, Some(0), "u2"));
  }

  lemma MovedAndRecorded(f: F.ClientSpec) returns (moves: seq<Move>, done: Proc)
    ensures Faultless(moves)
    ensures done.pc.Done?
    ensures Traces.After(Apply, Tracking(f), moves) == Some(State(RecordedWorld(f, true, false, 3), map[KEY := done]))
  {
    hide F.BuildClient, Step, Traces.After, Apply, Moved, MovedWorld, RecreatedWorld, Tracking, MovedPass, Writing;
    var s0, w := Tracking(f), RecreatedWorld(f);
    moves := MovedAndLost(f);
    CreatingCall(f);
    LookupCall(f);
    moves := CallThen(s0, moves, MovedWorld(f), MovedPass(f, "", Create), false, "u2", w, MovedPass(f, "", Lookup));
    moves := CallThen(s0, moves, w, MovedPass(f, "", Lookup), false, "u2", w, MovedPass(f, "u2", SyncRoles(true)));
    SyncingCalls(f);
    moves := CallThen(s0, moves, w, MovedPass(f, "u2", SyncRoles(true)), false, "", w,
        MovedPass(f, "u2", FetchCurrent(true)));
    moves := CallThen(s0, moves, w, MovedPass(f, "u2", FetchCurrent(true)), false, "", w,
        MovedPass(f, "u2", SyncSecret(true)));
    moves := CallThen(s0, moves, w, MovedPass(f, "u2", SyncSecret(true)), false, "", w,
        MovedPass(f, "u2", ReadStatus(REPORT)));
    ReadingCall(f);
    done := WritingCall(f);
    moves := CallThen(s0, moves, w, MovedPass(f, "u2", ReadStatus(REPORT)), false, "", w, Writing(f));
    moves := CallThen(s0, moves, w, Writing(f), false, "", RecordedWorld(f, true, false, 3), done);
  }

  function DeletingPass(f: F.ClientSpec, pc: Pc): Proc {
    Proc(Recorded(f, true, true, 4), pc, 0, [])
  }

  // Only "u1" is left in Keycloak.
  function CleanedWorld(f: F.ClientSpec, finalizer: bool, version: nat): ClientPass.World {
    RecordedWorld(f, finalizer, true, version).(clients := map["u1" := In(f, "r1", "u1")])
  }

  lemma FindingCalls(f: F.ClientSpec)
    ensures var w := RecordedWorld(f, true, true, 4);
      Step(Meets(w, false, ""), DeletingPass(f, Config)) == Tapes.Effect(w, DeletingPass(f, FindRealm))
      && Step(Meets(w, false, ""), DeletingPass(f, FindRealm)) == Tapes.Effect(w, DeletingPass(f, DeleteRoles))
      && Step(Meets(w, false, ""), DeletingPass(f, DeleteRoles)) == Tapes.Effect(w, DeletingPass(f, DeleteClient))
  {
    hide F.BuildClient, In;
  }

  lemma DeletingCall(f: F.ClientSpec)
    ensures Step(Meets(RecordedWorld(f, true, true, 4), false, ""), DeletingPass(f, DeleteClient))
         == Tapes.Effect(CleanedWorld(f, true, 4), DeletingPass(f, RemoveFinalizer(Gone)))
  {
    assert In(f, "r2", "u2").realmId == "r2";
    hide F.BuildClient, In;
    assert (map["u1" := In(f, "r1", "u1"), "u2" := In(f, "r2", "u2")] - {"u2"}) == map["u1" := In(f, "r1", "u1")];
  }

  lemma ReleasingCall(f: F.ClientSpec) returns (done: Proc)
    ensures Step(Meets(CleanedWorld(f, true, 4), false, ""), DeletingPass(f, RemoveFinalizer(Gone)))
         == Tapes.Effect(CleanedWorld(f, false, 5), done)
  {
    hide F.BuildClient, In;
    var e := Step(Meets(CleanedWorld(f, true, 4), false, ""), DeletingPass(f, RemoveFinalizer(Gone)));
    done := e.proc;
    assert e.world.cluster == CleanedWorld(f, false, 5).cluster;
  }

  lemma MovedAndDeleted(f: F.ClientSpec) returns (moves: seq<Move>, done: Proc)
    ensures Faultless(moves)
    ensures Traces.After(Apply, Tracking(f), moves)
         == Some(State(CleanedWorld(f, false, 5).(cluster := map[]), map[KEY := done]))
  {
    hide F.BuildClient, Step, Traces.After, Apply, Tracking, RecreatedWorld;
    var s0, w := Tracking(f), RecordedWorld(f, true, true, 4);
    moves, done := MovedAndRecorded(f);
    moves := MarkThen(s0, moves, State(RecordedWorld(f, true, false, 3), map[KEY := done]), Recorded(f, true, true, 4),
        w);
    moves := BeginThen(s0, moves, w, map[KEY := done]);
    FindingCalls(f);
    DeletingCall(f);
    done := ReleasingCall(f);
    hide RecordedWorld;
    moves := CallThen(s0, moves, w, DeletingPass(f, Config), false, "", w, DeletingPass(f, FindRealm));
    moves := CallThen(s0, moves, w, DeletingPass(f, FindRealm), false, "", w, DeletingPass(f, DeleteRoles));
    moves := CallThen(s0, moves, w, DeletingPass(f, DeleteRoles), false, "", w, DeletingPass(f, DeleteClient));
    moves := CallThen(s0, moves, w, DeletingPass(f, DeleteClient), false, "",
                      CleanedWorld(f, true, 4), DeletingPass(f, RemoveFinalizer(Gone)));
    moves := CallThen(s0, moves, CleanedWorld(f, true, 4), DeletingPass(f, RemoveFinalizer(Gone)), false, "",
                      CleanedWorld(f, false, 5), done);
    moves := DropThen(s0, moves, CleanedWorld(f, false, 5), map[KEY := done]);
  }

  // The API server drops an object without finalizer.
  lemma DropThen(s0: State, moves: seq<Move>, w: ClientPass.World, procs: map<ObjectKey, Proc>)
      returns (moves': seq<Move>)
    requires Traces.After(Apply, s0, moves) == Some(State(w, procs))
    requires w.cluster.Keys == {KEY} && !w.cluster[KEY].finalizer
    ensures Traces.After(Apply, s0, moves') == Some(State(w.(cluster := map[]), procs))
    ensures Faultless(moves) ==> Faultless(moves')
  {
    assert w.cluster - {KEY} == map[];
    moves' := Then(s0, moves, State(w, procs), DropObject(KEY), State(w.(cluster := map[]), procs));
  }

  lemma TrackingIsOrderly(f: F.ClientSpec)
    ensures Initial(Tracking(f))
    ensures var w := Tracking(f).world;
      FinalizerStored(w, KEY) && w.cluster[KEY].status.ready && w.cluster[KEY].status.clientUuid == "u1"
          && w.Live("r1", "u1")
    ensures CleanedWorld(f, false, 5).Live("r1", "u1")
  {
    assert In(f, "r1", "u1").realmId == "r1" && In(f, "r1", "u1").id == "u1";
    hide F.BuildClient;
  }

  /** Moving a Ready client to another realm: there is a run from an orderly start, with no failing call, at whose end
      the object is gone while the client it tracked at the start still lives in its realm. */
  lemma MovedClientIsForgotten(f: F.ClientSpec) returns (states: seq<State>, moves: seq<Move>)
    ensures Trace(states, moves) && Initial(states[0]) && Faultless(moves)
    ensures FinalizerStored(states[0].world, KEY)
    ensures var obj := states[0].world.cluster[KEY];
      obj.status.ready && obj.spec.realm.name == "r1" && obj.status.clientUuid == "u1"
          && states[0].world.Live("r1", "u1")
    ensures KEY !in states[|moves|].world.cluster && states[|moves|].world.Live("r1", "u1")
  {
    hide F.BuildClient, Apply, Initial, In;
    var done;
    moves, done := MovedAndDeleted(f);
    states := Traces.RunExists(Apply, Tracking(f), moves);
    assert moves[..|moves|] == moves;
    TrackingIsOrderly(f);
  }

  // ---- The client that was never tracked ----

  // The object is new to the operator; there is no client yet.
  function Fresh(f: F.ClientSpec, deleting: bool, status: S.Status, finalizer: bool, version: nat): Client {
    Client(KEY, Spec(Ref("kc", ""), Ref("r1", "realms"), f, []), finalizer, deleting, map[], status, version)
  }

  function FreshWorld(f: F.ClientSpec): ClientPass.World {
    World(Fresh(f, false, S.EMPTY_STATUS, true, 1), map[], map[])
  }

  function FreshPass(f: F.ClientSpec, pc: Pc): Proc {
    Proc(Fresh(f, false, S.EMPTY_STATUS, true, 1), pc, 0, [])
  }

  function CreatedWorld(f: F.ClientSpec): ClientPass.World {
    World(Fresh(f, false, S.EMPTY_STATUS, true, 1), map["u1" := In(f, "r1", "u1")], map["u1" := map[]])
  }

  const FAILED := S.Result(false, true, CLIENT_FAILED)

  function FailedStatus(): S.Status {
    S.Status(false, true, CLIENT_FAILED, Some(0), "", Some(map[]), None)
  }

  function FailedWorld(f: F.ClientSpec, deleting: bool, finalizer: bool, version: nat): ClientPass.World {
    CreatedWorld(f).(cluster := map[KEY := Fresh(f, deleting, FailedStatus(), finalizer, version)], revision := version)
  }

  lemma FreshCalls(f: F.ClientSpec)
    ensures var w := FreshWorld(f);
      Step(Meets(w, false, ""), FreshPass(f, Config)) == Tapes.Effect(w, FreshPass(f, CheckRealm))
      && Step(Meets(w, false, ""), FreshPass(f, CheckRealm)) == Tapes.Effect(w, FreshPass(f, Fetch))
      && Step(Meets(w, false, ""), FreshPass(f, Fetch)) == Tapes.Effect(w, FreshPass(f, Create))
  {
    hide F.BuildClient;
  }

  lemma FreshCreate(f: F.ClientSpec)
    ensures Step(Meets(FreshWorld(f), false, "u1"), FreshPass(f, Create))
         == Tapes.Effect(CreatedWorld(f), FreshPass(f, Lookup))
  {
    assert Built(Fresh(f, false, S.EMPTY_STATUS, true, 1), "u1") == In(f, "r1", "u1");
    hide F.BuildClient, Built, In;
    var w' := Step(Meets(FreshWorld(f), false, "u1"), FreshPass(f, Create)).world;
    assert w'.clients == CreatedWorld(f).clients && w'.issued == CreatedWorld(f).issued;
    assert w'.roles == CreatedWorld(f).roles;
  }

  function FailedWriting(f: F.ClientSpec): Proc {
    FreshPass(f, WriteStatus(FAILED, CreatedWorld(f).cluster[KEY])).(attempts := 1)
  }

  lemma FailingCalls(f: F.ClientSpec)
    ensures var w := CreatedWorld(f);
      Step(Meets(w, true, ""), FreshPass(f, Lookup)) == Tapes.Effect(w, FreshPass(f, ReadStatus(FAILED)))
      && Step(Meets(w, false, ""), FreshPass(f, ReadStatus(FAILED))) == Tapes.Effect(w, FailedWriting(f))
  {
    hide F.BuildClient, In;
    assert CLIENT_FAILED + "" == CLIENT_FAILED;
  }

  lemma FailureCall(f: F.ClientSpec) returns (done: Proc)
    ensures Step(Meets(CreatedWorld(f), false, ""), FailedWriting(f))
        == Tapes.Effect(FailedWorld(f, false, true, 2), done)
    ensures done.pc.Done?
  {
    hide F.BuildClient, In, Step;
    done := StatusCall(CreatedWorld(f), FailedWriting(f), FAILED, FailedStatus());
  }

  lemma SkippingCalls(f: F.ClientSpec) returns (releasing: Proc, done: Proc)
    ensures Step(Meets(FailedWorld(f, true, true, 3), false, ""), Start(Fresh(f, true, FailedStatus(), true, 3)))
         == Tapes.Effect(FailedWorld(f, true, true, 3), releasing)
    ensures Step(Meets(FailedWorld(f, true, true, 3), false, ""), releasing)
         == Tapes.Effect(FailedWorld(f, true, false, 4), done)
  {
    hide F.BuildClient, In;
    releasing := Start(Fresh(f, true, FailedStatus(), true, 3)).(pc := RemoveFinalizer(Untracked));
    var e := Step(Meets(FailedWorld(f, true, true, 3), false, ""), releasing);
    done := e.proc;
    assert e.world.cluster == FailedWorld(f, true, false, 4).cluster;
  }

  lemma CreatedAndFailed(f: F.ClientSpec) returns (moves: seq<Move>, done: Proc)
    ensures done.pc.Done?
    ensures Traces.After(Apply, State(FreshWorld(f), map[]), moves)
         == Some(State(FailedWorld(f, false, true, 2), map[KEY := done]))
  {
    hide F.BuildClient, Step, Apply;
    var s0, w, w' := State(FreshWorld(f), map[]), FreshWorld(f), CreatedWorld(f);
    moves := BeginThen(s0, [], w, map[]);
    hide Traces.After, CreatedWorld;
    FreshCalls(f);
    moves := CallThen(s0, moves, w, FreshPass(f, Config), false, "", w, FreshPass(f, CheckRealm));
    moves := CallThen(s0, moves, w, FreshPass(f, CheckRealm), false, "", w, FreshPass(f, Fetch));
    moves := CallThen(s0, moves, w, FreshPass(f, Fetch), false, "", w, FreshPass(f, Create));
    FreshCreate(f);
    moves := CallThen(s0, moves, w, FreshPass(f, Create), false, "u1", w', FreshPass(f, Lookup));
    FailingCalls(f);
    done := FailureCall(f);
    hide FailedWriting;
    moves := CallThen(s0, moves, w', FreshPass(f, Lookup), true, "", w', FreshPass(f, ReadStatus(FAILED)));
    moves := CallThen(s0, moves, w', FreshPass(f, ReadStatus(FAILED)), false, "", w', FailedWriting(f));
    moves := CallThen(s0, moves, w', FailedWriting(f), false, "", FailedWorld(f, false, true, 2), done);
  }

  lemma FreshIsOrderly(f: F.ClientSpec)
    ensures Initial(State(FreshWorld(f), map[])) && FailedWorld(f, true, false, 4).Live("r1", "u1")
  {
    assert In(f, "r1", "u1").realmId == "r1";
    hide F.BuildClient;
  }

  /** One failing call is enough: a client is created, its identifier cannot be read back, the object is deleted. In the
      end the finalizer and the object are gone, and the client lives on. */
  lemma UntrackedClientLivesOn(f: F.ClientSpec) returns (states: seq<State>, moves: seq<Move>)
    ensures Trace(states, moves) && Initial(states[0])
    ensures states[0].world.clients == map[] && FinalizerStored(states[0].world, KEY)
    ensures KEY !in states[|moves|].world.cluster && states[|moves|].world.Live("r1", "u1")
  {
    hide F.BuildClient, Step, Apply, Initial, In, CreatedWorld;
    var s0, w := State(FreshWorld(f), map[]), FailedWorld(f, true, true, 3);
    var done;
    moves, done := CreatedAndFailed(f);
    var marked := Fresh(f, true, FailedStatus(), true, 3);
    moves := MarkThen(s0, moves, State(FailedWorld(f, false, true, 2), map[KEY := done]), marked, w);
    moves := BeginThen(s0, moves, w, map[KEY := done]);
    var releasing;
    releasing, done := SkippingCalls(f);
    hide Traces.After;
    moves := CallThen(s0, moves, w, Start(marked), false, "", w, releasing);
    moves := CallThen(s0, moves, w, releasing, false, "", FailedWorld(f, true, false, 4), done);
    moves := DropThen(s0, moves, FailedWorld(f, true, false, 4), map[KEY := done]);
    states := Traces.RunExists(Apply, s0, moves);
    assert moves[..|moves|] == moves;
    FreshIsOrderly(f);
  }
}
