/** What a pass over a Client makes of the answers to its calls, said on the worlds those calls meet and on the calls
    that fail, for every sequence of worlds and failures. */
module ClientOutcomes {
  import opened Common
  import opened ClientPass
  import F = ClientFields
  import S = ClientStatus
  import Tapes

  function At(tape: nat -> Tick, obj: Client, n: nat): Proc {
    Run(tape, Start(obj), 0, n)
  }

  // ---- The order of the calls ----

  // How far into the pass a call is; reading and writing the status alternate.
  function Rank(pc: Pc): nat {
    match pc
    case Config => 0
    case AddFinalizer => 1
    case CheckRealm => 2
    case SetOwner(_) => 3
    case Fetch => 4
    case Create => 5
    case Lookup => 6
    case Update(_) => 6
    case SyncRoles(_) => 7
    case FetchCurrent(_) => 8
    case SyncSecret(_) => 9
    case FindRealm => 1
    case DeleteRoles => 2
    case DeleteClient => 3
    case RemoveFinalizer(_) => 4
    case ReadStatus(_) => 10
    case WriteStatus(_, _) => 10
    case Done(_) => 11
  }

  // A call goes on in the pass.
  ghost predicate Onward(p: Proc, q: Proc) {
    && Rank(q.pc) >= Rank(p.pc) && (Rank(p.pc) < 10 ==> Rank(q.pc) > Rank(p.pc))
    && (Rank(p.pc) < 10 ==> q.attempts == p.attempts && !q.pc.WriteStatus?)
    && q.attempts >= p.attempts && (p.pc.ReadStatus? ==> q.attempts > p.attempts)
  }

  lemma EarlyGoesOn(t: Tick, p: Proc)
    requires Rank(p.pc) <= 3
    ensures Onward(p, Step(t, p).proc)
  {
    hide SaysNotReady;
  }

  lemma SyncingGoesOn(t: Tick, p: Proc)
    requires p.pc.Fetch? || p.pc.Create? || p.pc.Lookup? || p.pc.Update?
    ensures Onward(p, Step(t, p).proc)
  {
    hide ClientIdTaken, F.ClientDiffs, F.ApplyChanges, F.BuildClient;
  }

  lemma LaterGoesOn(t: Tick, p: Proc)
    requires p.pc.SyncRoles? || p.pc.FetchCurrent? || p.pc.SyncSecret? || p.pc.RemoveFinalizer?
    ensures Onward(p, Step(t, p).proc)
  {
  }

  lemma ReportingGoesOn(t: Tick, p: Proc)
    requires Rank(p.pc) >= 10
    ensures Onward(p, Step(t, p).proc)
  {
    hide S.MergeStatus, S.StatusUnchanged;
  }

  lemma GoesOn(t: Tick, p: Proc)
    ensures Onward(p, Step(t, p).proc)
  {
    hide Step, Onward;
    if Rank(p.pc) <= 3 {
      EarlyGoesOn(t, p);
    } else if p.pc.Fetch? || p.pc.Create? || p.pc.Lookup? || p.pc.Update? {
      SyncingGoesOn(t, p);
    } else if Rank(p.pc) < 10 {
      LaterGoesOn(t, p);
    } else {
      ReportingGoesOn(t, p);
    }
  }

  lemma {:induction false} GoesOnLater(tape: nat -> Tick, p: Proc, lo: nat, mid: nat, hi: nat)
    requires lo <= mid <= hi
    ensures Rank(Run(tape, p, lo, hi).pc) >= Rank(Run(tape, p, lo, mid).pc)
    ensures Rank(Run(tape, p, lo, mid).pc) < 10 && mid < hi ==>
      Rank(Run(tape, p, lo, hi).pc) > Rank(Run(tape, p, lo, mid).pc)
    ensures Run(tape, p, lo, hi).attempts >= Run(tape, p, lo, mid).attempts
    ensures Run(tape, p, lo, mid).pc.ReadStatus? && mid < hi ==>
      Run(tape, p, lo, hi).attempts > Run(tape, p, lo, mid).attempts
    decreases hi
  {
    hide Step, Rank;
    if mid < hi {
      GoesOnLater(tape, p, lo, mid, hi - 1);
      GoesOn(tape(hi - 1), Run(tape, p, lo, hi - 1));
    }
  }

  predicate Reports(p: Proc) {
    p.pc.ReadStatus? && p.attempts == 0
  }

  // ---- Config, finalizer, realm and owner ----

  // What a reference in this object means: without a namespace, the object's own.
  predicate RefersTo(obj: Client, ref: Ref, key: ObjectKey) {
    key.name == ref.name && key.namespace == if ref.namespace == "" then obj.key.namespace else ref.namespace
  }

  predicate Configured(t: Tick, obj: Client) {
    !t.fault && ConfigKey(obj) in t.world.configs && t.world.configs[ConfigKey(obj)]
  }

  // A write of the whole object is accepted: it is still there, under the version in memory.
  predicate PutAccepted(t: Tick, obj: Client) {
    !t.fault && obj.key in t.world.cluster && t.world.cluster[obj.key].version == obj.version
  }

  // The object after such a write: the stored status, and a new version.
  function Refreshed(t: Tick, obj: Client): Client
    requires PutAccepted(t, obj)
  {
    obj.(status := t.world.cluster[obj.key].status, version := t.world.revision + 1)
  }

  // The pass looks at its realm at call n, with o in memory.
  ghost predicate AtRealm(tape: nat -> Tick, obj: Client, n: nat, o: Client) {
    && !obj.deleting && Configured(tape(0), obj)
    && if obj.finalizer then n == 1 && o == obj
       else n == 2 && PutAccepted(tape(1), obj) && o == Refreshed(tape(1), obj.(finalizer := true))
  }

  // The Realm object was found, and is ready.
  predicate RealmUsable(t: Tick, obj: Client) {
    !t.fault && RealmKey(obj) in t.world.realms && t.world.realms[RealmKey(obj)].ready
  }

  // The owner reference is right already, or would cross namespaces.
  predicate OwnerSettled(t: Tick, obj: Client)
    requires RealmUsable(t, obj)
  {
    || RealmKey(obj).namespace != obj.key.namespace
    || (obj.spec.realm.name in obj.owners
        && obj.owners[obj.spec.realm.name] == t.world.realms[RealmKey(obj)].uid)
  }

  // The pass that looked at its realm at call r, with o in memory, goes on to its client at call n, with o' in memory.
  ghost predicate FromRealm(tape: nat -> Tick, r: nat, o: Client, n: nat, o': Client) {
    && RealmUsable(tape(r), o)
    && if OwnerSettled(tape(r), o) then n == r + 1 && o' == o
       else
         n == r + 2 && PutAccepted(tape(r + 1), o)
         && o' == Refreshed(tape(r + 1), o.(owners :=
              o.owners[o.spec.realm.name := tape(r).world.realms[RealmKey(o)].uid]))
  }

  // The pass goes on to its client at call n, with o in memory.
  ghost predicate AtClient(tape: nat -> Tick, obj: Client, n: nat, o: Client) {
    exists r: nat, before: Client :: AtRealm(tape, obj, r, before) && FromRealm(tape, r, before, n, o)
  }

  function Failure(realmReady: bool, message: string): Pc {
    ReadStatus(S.Result(false, realmReady, message))
  }

  predicate Failing(pc: Pc, realmReady: bool) {
    pc.ReadStatus? && !pc.result.ready && pc.result.realmReady == realmReady
  }

  // What the first call decides.
  lemma ConfigOne(t: Tick, obj: Client)
    ensures var q := Step(t, Start(obj)).proc;
      q.obj == obj && q.attempts == 0 && q.writes == []
      && if Configured(t, obj) then
           q.pc == if !obj.deleting then (if obj.finalizer then CheckRealm else AddFinalizer)
                   else if !obj.finalizer then Done(Stopped)
                   else if obj.status.clientUuid == "" then RemoveFinalizer(Untracked)
                   else FindRealm
         else if obj.deleting && ((!t.fault && ConfigKey(obj) in t.world.configs) || SaysNotReady(t.text)) then
           q.pc == Failure(false, DELETION_PENDING)
         else q.pc == Done(Stopped)
  {
  }

  lemma PutOne(t: Tick, p: Proc)
    requires p.pc.AddFinalizer? || p.pc.SetOwner? || p.pc.RemoveFinalizer?
    ensures var q := Step(t, p).proc;
      if !PutAccepted(t, p.obj) then
        q == p.(pc := q.pc) && (if p.pc.SetOwner? then Failing(q.pc, true) else q.pc == Done(Failed))
      else if p.pc.AddFinalizer? then
        q == p.(obj := Refreshed(t, p.obj.(finalizer := true)), pc := CheckRealm)
      else if p.pc.SetOwner? then
        q == p.(obj := Refreshed(t, p.obj.(owners := p.obj.owners[p.obj.spec.realm.name := p.pc.uid])), pc := Fetch)
      else q == p.(obj := Refreshed(t, p.obj.(finalizer := false)), pc := Done(Stopped))
  {
  }

  lemma RealmOne(t: Tick, p: Proc)
    requires p.pc.CheckRealm?
    ensures var q := Step(t, p).proc;
      q == p.(pc := q.pc)
      && if !RealmUsable(t, p.obj) then Failing(q.pc, false)
         else q.pc == if OwnerSettled(t, p.obj) then Fetch else SetOwner(t.world.realms[RealmKey(p.obj)].uid)
  {
  }

  // Where a call can come from.
  ghost predicate CanFollowIn(p: Proc, q: Proc) {
    && !q.pc.Config?
    && (q.pc.AddFinalizer? ==> p.pc.Config?)
    && (q.pc.CheckRealm? ==> p.pc.Config? || p.pc.AddFinalizer?)
    && (q.pc.SetOwner? ==> p.pc.CheckRealm?)
    && (q.pc.Fetch? ==> p.pc.CheckRealm? || p.pc.SetOwner?)
    && (q.pc.Create? ==> p.pc.Fetch?)
    && (q.pc.Update? ==> p.pc.Fetch?)
    && (q.pc.Lookup? ==> p.pc.Create?)
    && (q.pc.FindRealm? ==> p.pc.Config?)
    && (q.pc.DeleteRoles? ==> p.pc.FindRealm?)
    && (q.pc.DeleteClient? ==> p.pc.DeleteRoles?)
    && (q.pc.RemoveFinalizer? ==> p.pc.Config? || p.pc.FindRealm? || p.pc.DeleteClient?)
  }

  lemma EarlyLeadsOn(t: Tick, p: Proc)
    requires Rank(p.pc) <= 3
    ensures CanFollowIn(p, Step(t, p).proc)
  {
    hide SaysNotReady;
  }

  lemma SyncingLeadsOn(t: Tick, p: Proc)
    requires p.pc.Fetch? || p.pc.Create? || p.pc.Lookup? || p.pc.Update?
    ensures CanFollowIn(p, Step(t, p).proc)
  {
    hide StepCreate, StepLookup, StepUpdate, StepFetch;
    match p.pc
    case Create => CreateLeadsOn(t, p);
    case Lookup => LookupLeadsOn(t, p);
    case Update(_) => UpdateLeadsOn(t, p);
    case _ => FetchLeadsOn(t, p);
  }

  lemma FetchLeadsOn(t: Tick, p: Proc)
    ensures StepFetch(t, p).pc.Create? || StepFetch(t, p).pc.Update? || StepFetch(t, p).pc.ReadStatus?
  {
  }

  lemma CreateLeadsOn(t: Tick, p: Proc)
    ensures StepCreate(t, p).proc.pc.Lookup? || StepCreate(t, p).proc.pc.ReadStatus?
  {
    hide ClientIdTaken, F.BuildClient;
  }

  lemma LookupLeadsOn(t: Tick, p: Proc)
    ensures StepLookup(t, p).pc.SyncRoles? || StepLookup(t, p).pc.ReadStatus?
  {
  }

  lemma UpdateLeadsOn(t: Tick, p: Proc)
    requires p.pc.Update?
    ensures StepUpdate(t, p, p.pc.found).proc.pc.SyncRoles?
  {
    hide F.ClientDiffs, F.ApplyChanges;
  }

  lemma LaterLeadsOn(t: Tick, p: Proc)
    requires Rank(p.pc) > 3 && !p.pc.Fetch? && !p.pc.Create? && !p.pc.Lookup? && !p.pc.Update?
    ensures CanFollowIn(p, Step(t, p).proc)
  {
    hide S.MergeStatus, S.StatusUnchanged;
  }

  lemma CameFrom(t: Tick, p: Proc)
    ensures CanFollowIn(p, Step(t, p).proc)
  {
    hide Step, CanFollowIn;
    if Rank(p.pc) <= 3 {
      EarlyLeadsOn(t, p);
    } else if p.pc.Fetch? || p.pc.Create? || p.pc.Lookup? || p.pc.Update? {
      SyncingLeadsOn(t, p);
    } else {
      LaterLeadsOn(t, p);
    }
  }

  lemma ConfigFirst(tape: nat -> Tick, obj: Client, n: nat)
    ensures At(tape, obj, n).pc.Config? ==> n == 0
    ensures At(tape, obj, n).pc.AddFinalizer? || At(tape, obj, n).pc.FindRealm? ==> n == 1
  {
    hide Step;
    if n > 0 {
      CameFrom(tape(n - 1), At(tape, obj, n - 1));
      if n > 1 {
        CameFrom(tape(n - 2), At(tape, obj, n - 2));
      }
    }
  }

  lemma FirstCall(tape: nat -> Tick, obj: Client)
    ensures At(tape, obj, 0) == Start(obj) && At(tape, obj, 1) == Step(tape(0), Start(obj)).proc
  {
    assert At(tape, obj, 0) == Start(obj);
  }

  lemma RealmExactly(tape: nat -> Tick, obj: Client, n: nat)
    ensures At(tape, obj, n).pc.CheckRealm? ==> AtRealm(tape, obj, n, At(tape, obj, n).obj)
    ensures forall o | AtRealm(tape, obj, n, o) :: At(tape, obj, n) == Proc(o, CheckRealm, 0, [])
  {
    hide Step;
    FirstCall(tape, obj);
    ConfigOne(tape(0), obj);
    if n > 0 {
      var p := At(tape, obj, n - 1);
      CameFrom(tape(n - 1), p);
      ConfigFirst(tape, obj, n - 1);
      if p.pc.AddFinalizer? {
        PutOne(tape(1), p);
      }
    }
  }

  /** A pass gets to its client, at call n, exactly if its object is not being deleted, its instance config was ready,
      its finalizer was stored, its Realm object was found and ready, and the owner reference was right or could be
      recorded; it goes on with what the server answered in memory. */
  lemma GetsToClientExactly(tape: nat -> Tick, obj: Client, n: nat)
    ensures At(tape, obj, n).pc.Fetch? ==> AtClient(tape, obj, n, At(tape, obj, n).obj)
    ensures forall o | AtClient(tape, obj, n, o) :: At(tape, obj, n) == Proc(o, Fetch, 0, [])
    ensures RefersTo(obj, obj.spec.instanceConfig, ConfigKey(obj)) && RefersTo(obj, obj.spec.realm, RealmKey(obj))
  {
    hide Step, RealmUsable, AtRealm;
    if At(tape, obj, n).pc.Fetch? {
      FetchNeedsRealm(tape, obj, n);
    }
    forall o | AtClient(tape, obj, n, o) ensures At(tape, obj, n) == Proc(o, Fetch, 0, []) {
      var r: nat, before: Client :| AtRealm(tape, obj, r, before) && FromRealm(tape, r, before, n, o);
      RealmExactly(tape, obj, r);
      RealmOne(tape(r), At(tape, obj, r));
      if !OwnerSettled(tape(r), before) {
        PutOne(tape(r + 1), At(tape, obj, r + 1));
      }
    }
  }

  lemma FetchNeedsRealm(tape: nat -> Tick, obj: Client, n: nat)
    requires At(tape, obj, n).pc.Fetch?
    ensures AtClient(tape, obj, n, At(tape, obj, n).obj)
  {
    hide Step, AtRealm;
    var p := At(tape, obj, n - 1);
    CameFrom(tape(n - 1), p);
    if p.pc.CheckRealm? {
      RealmExactly(tape, obj, n - 1);
      RealmOne(tape(n - 1), p);
      assert FromRealm(tape, n - 1, p.obj, n, At(tape, obj, n).obj);
    } else {
      var q := At(tape, obj, n - 2);
      CameFrom(tape(n - 2), q);
      RealmExactly(tape, obj, n - 2);
      RealmOne(tape(n - 2), q);
      PutOne(tape(n - 1), p);
      assert FromRealm(tape, n - 2, q.obj, n, At(tape, obj, n).obj);
    }
  }

  // ---- The client itself ----

  // Nothing is tracked, or the call did not fail and what is tracked is not there.
  predicate Absent(t: Tick, o: Client) {
    o.status.clientUuid == "" || (!t.fault && !t.world.Live(o.spec.realm.name, o.status.clientUuid))
  }

  predicate Found(t: Tick, o: Client) {
    o.status.clientUuid != "" && !t.fault && t.world.Live(o.spec.realm.name, o.status.clientUuid)
  }

  // The object that is created: what was tracked but is gone is forgotten, with its roles.
  function ToCreate(o: Client): Client {
    if o.status.clientUuid == "" then o else SetUuid(o, "", map[])
  }

  // Keycloak can create this object's client: its clientId is free in the realm, and the identifier is a new one.
  predicate Creatable(t: Tick, o: Client) {
    && !t.fault
    && (forall id | id in t.world.clients ::
          t.world.clients[id].realmId != o.spec.realm.name || t.world.clients[id].clientId != o.spec.fields.clientId)
    && t.id != "" && t.id !in t.world.issued
  }

  // The search by clientId answers.
  predicate Answers(t: Tick, o: Client) {
    && !t.fault && t.world.Live(o.spec.realm.name, t.id)
    && t.world.clients[t.id].clientId == o.spec.fields.clientId
  }

  // The update is needed and gets through.
  ghost predicate Updates(found: F.OpenidClient, t: Tick, o: Client) {
    !F.Matches(o.spec.fields, found) && !t.fault && found.id in t.world.clients
  }

  lemma FetchOne(t: Tick, p: Proc)
    requires p.pc.Fetch?
    ensures var q := Step(t, p).proc;
      (q.pc.Create? <==> Absent(t, p.obj))
      && (Absent(t, p.obj) ==> q == p.(obj := ToCreate(p.obj), pc := Create))
      && (Found(t, p.obj) ==> q == p.(pc := Update(t.world.clients[p.obj.status.clientUuid])))
      && (!Absent(t, p.obj) && !Found(t, p.obj) ==> q == p.(pc := q.pc) && Failing(q.pc, true))
  {
  }

  lemma CreateOne(t: Tick, p: Proc)
    requires p.pc.Create?
    ensures var q := Step(t, p).proc;
      if Creatable(t, p.obj) then q == p.(pc := Lookup) else q == p.(pc := q.pc) && Failing(q.pc, true)
  {
    hide F.BuildClient;
  }

  lemma LookupOne(t: Tick, p: Proc)
    requires p.pc.Lookup?
    ensures var q := Step(t, p).proc;
      if Answers(t, p.obj) then q == p.(obj := SetUuid(p.obj, t.id, map[]), pc := SyncRoles(true))
      else q == p.(pc := q.pc) && Failing(q.pc, true)
  {
  }

  lemma UpdateOne(t: Tick, p: Proc)
    requires p.pc.Update?
    ensures Step(t, p).proc == p.(pc := SyncRoles(Updates(p.pc.found, t, p.obj)))
  {
    F.NoDiffsMeansMatch(p.obj.spec.fields, p.pc.found);
    hide F.ClientDiffs, F.Matches, F.ApplyChanges;
  }

  function Success(changed: bool): Pc {
    ReadStatus(S.Result(true, true, if changed then CHANGED else UNCHANGED))
  }

  lemma RolesOne(t: Tick, p: Proc)
    requires p.pc.SyncRoles?
    ensures var q := Step(t, p).proc;
      if p.obj.status.clientUuid == "" then q == p.(pc := Success(p.pc.changed))
      else
        q.obj == SetUuid(p.obj, p.obj.status.clientUuid, t.tracked) && q == p.(obj := q.obj, pc := q.pc)
        && if t.fault then Failing(q.pc, true) else q.pc == FetchCurrent(p.pc.changed)
  {
  }

  lemma ConfirmOne(t: Tick, p: Proc)
    requires p.pc.FetchCurrent?
    ensures var q := Step(t, p).proc;
      q == p.(pc := q.pc)
      && if !t.fault && t.world.Live(p.obj.spec.realm.name, p.obj.status.clientUuid)
         then q.pc == SyncSecret(p.pc.changed) else Failing(q.pc, true)
  {
  }

  lemma SecretOne(t: Tick, p: Proc)
    requires p.pc.SyncSecret?
    ensures var q := Step(t, p).proc;
      q == p.(pc := q.pc) && if t.fault then Failing(q.pc, true) else q.pc == Success(p.pc.changed)
  {
  }

  // The roles were reconciled, the client was fetched again alive, and its secret was reconciled: calls k to k + 2.
  predicate Completed(tape: nat -> Tick, realm: string, k: nat, id: Uuid) {
    !tape(k).fault && !tape(k + 1).fault && tape(k + 1).world.Live(realm, id) && !tape(k + 2).fault
  }

  /** From the role pass on: Ready exactly if the role pass, the call that fetches the client again and the secret all
      succeed, and the client is alive at that call; otherwise the failure is reported within three calls. */
  lemma RolesOnward(tape: nat -> Tick, p: Proc, k: nat) returns (end: nat)
    requires p.pc.SyncRoles? && p.attempts == 0 && p.obj.status.clientUuid != ""
    ensures k < end <= k + 3 && Reports(Run(tape, p, k, end))
    ensures var q := Run(tape, p, k, end); var id := p.obj.status.clientUuid;
      q.obj == SetUuid(p.obj, id, tape(k).tracked)
      && if Completed(tape, p.obj.spec.realm.name, k, id) then end == k + 3 && q.pc == Success(p.pc.changed)
         else Failing(q.pc, true)
  {
    hide Step;
    RolesOne(tape(k), p);
    var p1 := Step(tape(k), p).proc;
    assert Run(tape, p, k, k) == p && Run(tape, p, k, k + 1) == p1;
    end := k + 1;
    if p1.pc.FetchCurrent? {
      ConfirmOne(tape(k + 1), p1);
      var p2 := Step(tape(k + 1), p1).proc;
      assert Run(tape, p, k, k + 2) == p2;
      end := k + 2;
      if p2.pc.SyncSecret? {
        SecretOne(tape(k + 2), p2);
        end := k + 3;
      }
    }
  }

  // The pass that got to its client at call n comes to the roles at call k, holding id.
  predicate AtRoles(tape: nat -> Tick, n: nat, o: Client, k: nat, id: Uuid) {
    || (Found(tape(n), o) && k == n + 2 && id == o.status.clientUuid)
    || (Absent(tape(n), o) && Creatable(tape(n + 1), o) && Answers(tape(n + 2), o)
        && k == n + 3 && id == tape(n + 2).id)
  }

  // Something was written to the client: it was created, or updated.
  ghost predicate Changed(tape: nat -> Tick, n: nat, o: Client) {
    Found(tape(n), o) ==> Updates(tape(n).world.clients[o.status.clientUuid], tape(n + 1), o)
  }

  // From the fetch to the roles, or to a failure that is reported.
  lemma ToRoles(tape: nat -> Tick, p: Proc, n: nat) returns (k: nat)
    requires p.pc.Fetch? && p.attempts == 0
    ensures n < k <= n + 3 && var q := Run(tape, p, n, k);
      q.attempts == 0
      && ((q.pc == SyncRoles(Changed(tape, n, p.obj)) && AtRoles(tape, n, p.obj, k, q.obj.status.clientUuid)
           && q.obj.spec == p.obj.spec)
          || (Failing(q.pc, true) && forall k: nat, id: Uuid :: !AtRoles(tape, n, p.obj, k, id)))
  {
    hide Step, Creatable;
    FetchOne(tape(n), p);
    var p1 := Step(tape(n), p).proc;
    assert Run(tape, p, n, n) == p && Run(tape, p, n, n + 1) == p1;
    k := n + 1;
    if Found(tape(n), p.obj) {
      UpdateOne(tape(n + 1), p1);
      k := n + 2;
    } else if Absent(tape(n), p.obj) {
      CreateOne(tape(n + 1), p1);
      CreatableIgnoresStatus(tape(n + 1), p.obj, p1.obj);
      var p2 := Step(tape(n + 1), p1).proc;
      assert Run(tape, p, n, n + 2) == p2;
      k := n + 2;
      if p2.pc.Lookup? {
        LookupOne(tape(n + 2), p2);
        k := n + 3;
      }
    }
  }

  lemma CreatableIgnoresStatus(t: Tick, o: Client, o': Client)
    requires o'.spec == o.spec
    ensures Creatable(t, o) == Creatable(t, o')
  {
  }

  // The pass fetched its client at call n, and did not find any.
  ghost predicate FoundNone(tape: nat -> Tick, obj: Client, n: nat) {
    exists o :: AtClient(tape, obj, n, o) && Absent(tape(n), o)
  }

  /** The pass creates a client at call n exactly if it got to its client, and then fetched nothing, because nothing was
      tracked or because the answer was that the tracked client is not there. */
  lemma CreatesExactly(tape: nat -> Tick, obj: Client, n: nat)
    ensures At(tape, obj, n).pc.Create? <==> n > 0 && FoundNone(tape, obj, n - 1)
  {
    hide Step, AtClient;
    if n > 0 {
      CameFrom(tape(n - 1), At(tape, obj, n - 1));
      GetsToClientExactly(tape, obj, n - 1);
      if At(tape, obj, n - 1).pc.Fetch? {
        FetchOne(tape(n - 1), At(tape, obj, n - 1));
      }
    }
  }

  /** A fetch that fails is no answer: nothing is forgotten, nothing is created, and the failure is reported. */
  lemma FailedFetchIsReported(tape: nat -> Tick, obj: Client, n: nat, o: Client)
    requires AtClient(tape, obj, n, o) && o.status.clientUuid != "" && tape(n).fault
    ensures At(tape, obj, n + 1).obj == o && Failing(At(tape, obj, n + 1).pc, true)
  {
    hide Step, AtClient;
    GetsToClientExactly(tape, obj, n);
    FetchOne(tape(n), At(tape, obj, n));
  }

  // ---- The report ----

  // The pass looked at its realm, which was found and ready.
  ghost predicate RealmSeen(tape: nat -> Tick, obj: Client) {
    exists n: nat, o: Client :: AtRealm(tape, obj, n, o) && RealmUsable(tape(n), o)
  }

  // A pass that has not come to its client yet can only report failure, or nothing.
  ghost predicate Underway(tape: nat -> Tick, obj: Client, n: nat) {
    var q := At(tape, obj, n);
    || (Rank(q.pc) <= 4 && !q.pc.Fetch? && q.attempts == 0 && (q.pc.SetOwner? ==> RealmSeen(tape, obj)))
    || (Reports(q) && Failing(q.pc, RealmSeen(tape, obj)))
    || (Rank(q.pc) >= 10 && q.attempts > 0)
    || q.pc.Done?
  }

  lemma DeletingOne(t: Tick, p: Proc)
    requires p.pc.FindRealm? || p.pc.DeleteRoles? || p.pc.DeleteClient? || p.pc.RemoveFinalizer?
    ensures var q := Step(t, p).proc;
      (q.pc.DeleteRoles? || q.pc.DeleteClient? || q.pc.RemoveFinalizer? || q.pc.Done?) && q.attempts == p.attempts
  {
  }

  lemma {:induction false} FetchedOrUnderway(tape: nat -> Tick, obj: Client, n: nat)
    ensures (exists h: nat :: h <= n && At(tape, obj, h).pc.Fetch?) || Underway(tape, obj, n)
    decreases n
  {
    if n > 0 {
      FetchedOrUnderway(tape, obj, n - 1);
      var q := At(tape, obj, n - 1);
      assert At(tape, obj, n) == Step(tape(n - 1), q).proc;
      hide Step, RealmSeen;
      if Rank(q.pc) >= 10 {
        ReportingGoesOn(tape(n - 1), q);
      } else if Underway(tape, obj, n - 1) {
        UnderwayOn(tape, obj, n - 1);
      }
    }
  }

  lemma UnderwayOn(tape: nat -> Tick, obj: Client, n: nat)
    requires Underway(tape, obj, n) && Rank(At(tape, obj, n).pc) < 10
    ensures At(tape, obj, n + 1).pc.Fetch? || Underway(tape, obj, n + 1)
  {
    var q := At(tape, obj, n);
    hide Step;
    if q.pc.Config? {
      ConfigFirst(tape, obj, n);
      FirstCall(tape, obj);
      ConfigOne(tape(0), obj);
    } else if q.pc.CheckRealm? {
      RealmExactly(tape, obj, n);
      RealmOne(tape(n), q);
      assert AtRealm(tape, obj, n, q.obj);
    } else if q.pc.AddFinalizer? || q.pc.SetOwner? {
      PutOne(tape(n), q);
    } else {
      DeletingOne(tape(n), q);
    }
  }

  // From the fetch at call n on, the pass came to the roles at call k, holding id, and was through at call `end`.
  predicate Through(tape: nat -> Tick, n: nat, o: Client, k: nat, id: Uuid, end: nat) {
    && AtRoles(tape, n, o, k, id)
    && if id == "" then end == k + 1 else end == k + 3 && Completed(tape, o.spec.realm.name, k, id)
  }

  // The pass got to its client at call n with o in memory, and was through at call `end`.
  ghost predicate SucceedsVia(tape: nat -> Tick, obj: Client, n: nat, o: Client, k: nat, id: Uuid, end: nat) {
    AtClient(tape, obj, n, o) && Through(tape, n, o, k, id, end)
  }

  ghost predicate Succeeds(tape: nat -> Tick, obj: Client, end: nat) {
    exists n: nat, o: Client, k: nat, id: Uuid :: SucceedsVia(tape, obj, n, o, k, id, end)
  }

  // What is reported at call `end` by a pass that fetches its client at call n.
  ghost predicate Outcome(tape: nat -> Tick, n: nat, p: Proc, end: nat, q: Proc) {
    && Reports(q)
    && (if exists k: nat, id: Uuid :: Through(tape, n, p.obj, k, id, end) then q.pc == Success(Changed(tape, n, p.obj))
        else Failing(q.pc, true))
    && forall k: nat, id: Uuid | Through(tape, n, p.obj, k, id, end) ::
         q.obj.status.clientUuid == id && (id != "" ==> S.Roles(q.obj.status) == tape(k).tracked)
  }

  lemma AtRolesOnce(tape: nat -> Tick, n: nat, o: Client, k: nat, id: Uuid, l: nat, other: Uuid)
    requires AtRoles(tape, n, o, k, id) && AtRoles(tape, n, o, l, other)
    ensures k == l && id == other
  {
  }

  // From the client on, to the report.
  lemma FetchOnward(tape: nat -> Tick, p: Proc, n: nat) returns (end: nat)
    requires p.pc.Fetch? && p.attempts == 0
    ensures end >= n && Outcome(tape, n, p, end, Run(tape, p, n, end))
  {
    hide Step, Changed, AtRoles, Completed;
    var k := ToRoles(tape, p, n);
    var q := Run(tape, p, n, k);
    forall l: nat, id: Uuid | AtRoles(tape, n, p.obj, k, q.obj.status.clientUuid) && AtRoles(tape, n, p.obj, l, id)
      ensures l == k && id == q.obj.status.clientUuid
    {
      AtRolesOnce(tape, n, p.obj, k, q.obj.status.clientUuid, l, id);
    }
    if !q.pc.SyncRoles? {
      end := k;
    } else if q.obj.status.clientUuid == "" {
      RolesOne(tape(k), q);
      end := k + 1;
      assert Through(tape, n, p.obj, k, "", end);
    } else {
      var id := q.obj.status.clientUuid;
      end := RolesOnward(tape, q, k);
      Tapes.RunSplits(Step, tape, p, n, k, end);
      assert Completed(tape, p.obj.spec.realm.name, k, id) ==> Through(tape, n, p.obj, k, id, end);
    }
  }

  lemma ReportsOnceFrom(tape: nat -> Tick, p: Proc, lo: nat, m: nat, n: nat)
    requires lo <= m && lo <= n && Reports(Run(tape, p, lo, m)) && Reports(Run(tape, p, lo, n))
    ensures m == n
  {
    hide Step;
    if m < n {
      GoesOnLater(tape, p, lo, m, n);
    } else if n < m {
      GoesOnLater(tape, p, lo, n, m);
    }
  }

  /** What a pass that fetches its client at call n reports, whenever it does. */
  lemma FetchOutcome(tape: nat -> Tick, p: Proc, n: nat, end: nat)
    requires p.pc.Fetch? && p.attempts == 0 && n <= end && Reports(Run(tape, p, n, end))
    ensures Outcome(tape, n, p, end, Run(tape, p, n, end))
  {
    hide Step, Outcome;
    var stop := FetchOnward(tape, p, n);
    OutcomeReports(tape, n, p, stop);
    ReportsOnceFrom(tape, p, n, end, stop);
  }

  lemma OutcomeReports(tape: nat -> Tick, n: nat, p: Proc, end: nat)
    requires n <= end && Outcome(tape, n, p, end, Run(tape, p, n, end))
    ensures Reports(Run(tape, p, n, end))
  {
  }

  /** What a pass that comes to the roles at call k reports, whenever it does. */
  lemma RolesOutcome(tape: nat -> Tick, p: Proc, k: nat, end: nat)
    requires p.pc.SyncRoles? && p.attempts == 0 && p.obj.status.clientUuid != ""
    requires k <= end && Reports(Run(tape, p, k, end))
    ensures var result := Run(tape, p, k, end).pc.result;
      result.realmReady
      && (result.ready <==> Completed(tape, p.obj.spec.realm.name, k, p.obj.status.clientUuid))
  {
    hide Step, Completed;
    var stop := RolesOnward(tape, p, k);
    ReportsOnceFrom(tape, p, k, end, stop);
  }

  lemma ClientOnce(tape: nat -> Tick, obj: Client, m: nat, n: nat, o: Client, o': Client)
    requires AtClient(tape, obj, m, o) && AtClient(tape, obj, n, o')
    ensures m == n && o == o'
  {
    hide Step, AtClient;
    GetsToClientExactly(tape, obj, m);
    GetsToClientExactly(tape, obj, n);
    if m < n {
      GoesOnLater(tape, Start(obj), 0, m, n);
    } else if n < m {
      GoesOnLater(tape, Start(obj), 0, n, m);
    }
  }

  lemma ClientNeedsRealm(tape: nat -> Tick, obj: Client, n: nat, o: Client)
    requires AtClient(tape, obj, n, o)
    ensures RealmSeen(tape, obj)
  {
  }

  /** What a pass reports: RealmReady exactly if its Realm object was found ready; and Ready exactly if it got to its
      client, the client was found or made, and its roles, its state and its secret were all dealt with without a
      failure. */
  lemma ReadyExactly(tape: nat -> Tick, obj: Client, end: nat)
    requires Reports(At(tape, obj, end))
    ensures At(tape, obj, end).pc.result.ready <==> Succeeds(tape, obj, end)
    ensures At(tape, obj, end).pc.result.realmReady <==> RealmSeen(tape, obj)
    ensures forall n: nat, o: Client, k: nat, id: Uuid | SucceedsVia(tape, obj, n, o, k, id, end) ::
      var q := At(tape, obj, end);
      q.pc == Success(Changed(tape, n, o)) && q.obj.status.clientUuid == id
      && (id != "" ==> S.Roles(q.obj.status) == tape(k).tracked)
  {
    hide Step, AtClient, AtRoles, Completed, Changed, RealmSeen;
    if h: nat :| h <= end && At(tape, obj, h).pc.Fetch? {
      GetsToClientExactly(tape, obj, h);
      var here := At(tape, obj, h).obj;
      ClientNeedsRealm(tape, obj, h, here);
      Tapes.RunSplits(Step, tape, Start(obj), 0, h, end);
      FetchOutcome(tape, At(tape, obj, h), h, end);
      forall n: nat, o: Client, k: nat, id: Uuid | SucceedsVia(tape, obj, n, o, k, id, end)
        ensures n == h && o == here
      {
        ClientOnce(tape, obj, n, h, o, here);
      }
      if k: nat, id: Uuid :| Through(tape, h, here, k, id, end) {
        assert SucceedsVia(tape, obj, h, here, k, id, end);
      }
    } else {
      FetchedOrUnderway(tape, obj, end);
      forall n: nat, o: Client, k: nat, id: Uuid ensures !SucceedsVia(tape, obj, n, o, k, id, end) {
        if SucceedsVia(tape, obj, n, o, k, id, end) {
          GetsToClientExactly(tape, obj, n);
          AtRolesLater(tape, n, o, k, id);
        }
      }
    }
  }

  lemma AtRolesLater(tape: nat -> Tick, n: nat, o: Client, k: nat, id: Uuid)
    requires AtRoles(tape, n, o, k, id)
    ensures n < k
  {
  }

  // ---- Deletion ----

  // The pass may remove the finalizer at call n: nothing was tracked, or the Realm object is missing, or the call that
  // deletes the client did not fail.
  ghost predicate DealtWith(tape: nat -> Tick, obj: Client, n: nat) {
    && obj.deleting && obj.finalizer && Configured(tape(0), obj)
    && if obj.status.clientUuid == "" then n == 1
       else
         !tape(1).fault && if RealmKey(obj) !in tape(1).world.realms then n == 2 else n == 4 && !tape(3).fault
  }

  lemma DeletingStep(t: Tick, p: Proc)
    requires p.pc.FindRealm? || p.pc.DeleteRoles? || p.pc.DeleteClient?
    ensures var q := Step(t, p).proc;
      q == p.(pc := q.pc)
      && match p.pc
         case DeleteRoles => q.pc == DeleteClient
         case DeleteClient => q.pc == if t.fault then Done(Failed) else RemoveFinalizer(Gone)
         case _ =>
           q.pc == if t.fault then Done(Failed)
                   else if RealmKey(p.obj) in t.world.realms then DeleteRoles
                   else RemoveFinalizer(RealmAbsent)
  {
  }

  /** When the finalizer may go, and that the object in memory is still the one the pass began with. */
  lemma RemovesExactly(tape: nat -> Tick, obj: Client, n: nat)
    ensures At(tape, obj, n).pc.RemoveFinalizer? <==> DealtWith(tape, obj, n)
    ensures At(tape, obj, n).pc.RemoveFinalizer? ==> At(tape, obj, n).obj == obj
  {
    hide Step;
    FirstCall(tape, obj);
    ConfigOne(tape(0), obj);
    if At(tape, obj, 1).pc.FindRealm? {
      var p1 := At(tape, obj, 1);
      DeletingStep(tape(1), p1);
      var p2 := Step(tape(1), p1).proc;
      assert At(tape, obj, 2) == p2;
      if p2.pc.DeleteRoles? {
        DeletingStep(tape(2), p2);
        var p3 := Step(tape(2), p2).proc;
        assert At(tape, obj, 3) == p3;
        DeletingStep(tape(3), p3);
        assert At(tape, obj, 4) == Step(tape(3), p3).proc;
      }
    }
    if At(tape, obj, n).pc.RemoveFinalizer? {
      RemovalIsEarly(tape, obj, n);
    }
  }

  lemma RemovalIsEarly(tape: nat -> Tick, obj: Client, n: nat)
    requires At(tape, obj, n).pc.RemoveFinalizer?
    ensures 1 <= n <= 4
    ensures n == 1 || At(tape, obj, 1).pc.FindRealm?
    ensures n != 3
    ensures n == 4 ==> At(tape, obj, 2).pc.DeleteRoles?
  {
    hide Step;
    FirstCall(tape, obj);
    CameFrom(tape(n - 1), At(tape, obj, n - 1));
    ConfigFirst(tape, obj, n - 1);
    if At(tape, obj, n - 1).pc.DeleteClient? {
      CameFrom(tape(n - 2), At(tape, obj, n - 2));
      CameFrom(tape(n - 3), At(tape, obj, n - 3));
      ConfigFirst(tape, obj, n - 3);
    }
  }

  // ---- The status loop ----

  datatype Attempt = Broken | Unneeded | Stored | Conflict

  // One attempt: what its reading and its writing call meet. A conflict is a write that is refused because somebody
  // changed the object since it was read.
  function StatusAttempt(read: Tick, write: Tick, key: ObjectKey, result: S.Result): Attempt {
    if read.fault || key !in read.world.cluster then Broken
    else
      var status := read.world.cluster[key].status;
      if status.ready == result.ready && status.realmReady == result.realmReady && status.message == result.message
      then Unneeded
      else if write.fault || key !in write.world.cluster then Broken
      else if write.world.cluster[key].version != read.world.cluster[key].version then Conflict
      else Stored
  }

  function Verdict(a: Attempt): Outcome {
    match a
    case Stored => Written
    case Unneeded => Skipped
    case _ => Failed
  }

  // The first of three attempts that meets no conflict decides, and the third in any case.
  function Decision(tape: nat -> Tick, n: nat, key: ObjectKey, result: S.Result): Attempt {
    var first := StatusAttempt(tape(n), tape(n + 1), key, result);
    var second := StatusAttempt(tape(n + 2), tape(n + 3), key, result);
    if !first.Conflict? then first
    else if !second.Conflict? then second
    else StatusAttempt(tape(n + 4), tape(n + 5), key, result)
  }

  // What an attempt that begins with the reading call n leads to.
  lemma OneAttempt(tape: nat -> Tick, p: Proc, n: nat)
    requires p.pc.ReadStatus?
    ensures var q, a := Run(tape, p, n, n + 2), StatusAttempt(tape(n), tape(n + 1), p.obj.key, p.pc.result);
      q.attempts == p.attempts + 1 && q.obj.key == p.obj.key
      && q.pc == (if a.Conflict? && p.attempts < 2 then p.pc else Done(Verdict(a)))
      && (a.Unneeded? ==> q.obj == p.obj.(status := tape(n).world.cluster[p.obj.key].status))
  {
    var q := Step(tape(n), p).proc;
    assert Run(tape, p, n, n) == p && Run(tape, p, n, n + 1) == q;
    assert Run(tape, p, n, n + 2) == Step(tape(n + 1), q).proc;
    hide S.MergeStatus;
  }

  lemma DoneForGood(tape: nat -> Tick, p: Proc, lo: nat, hi: nat)
    requires lo <= hi && p.pc.Done?
    ensures Run(tape, p, lo, hi) == p
    decreases hi
  {
    if lo < hi {
      DoneForGood(tape, p, lo, hi - 1);
    }
  }

  /** The status loop: a conflict makes it read again, twice at most; the first attempt that meets none decides, and a
      third conflict is a failure. */
  lemma StatusLoopExact(tape: nat -> Tick, p: Proc, n: nat)
    requires Reports(p)
    ensures var key, result := p.obj.key, p.pc.result;
      var first := StatusAttempt(tape(n), tape(n + 1), key, result);
      var second := StatusAttempt(tape(n + 2), tape(n + 3), key, result);
      var third := StatusAttempt(tape(n + 4), tape(n + 5), key, result);
      (first.Conflict? ==> Run(tape, p, n, n + 2).pc == ReadStatus(result))
      && (first.Conflict? && second.Conflict? ==> Run(tape, p, n, n + 4).pc == ReadStatus(result))
      && var q := Run(tape, p, n, n + 6);
         if !first.Conflict? then q.pc == Done(Verdict(first)) && q.attempts == 1
         else if !second.Conflict? then q.pc == Done(Verdict(second)) && q.attempts == 2
         else q.pc == Done(Verdict(third)) && q.attempts == 3
  {
    hide Step, StatusAttempt;
    OneAttempt(tape, p, n);
    var p2 := Run(tape, p, n, n + 2);
    Tapes.RunSplits(Step, tape, p, n, n + 2, n + 4);
    Tapes.RunSplits(Step, tape, p, n, n + 2, n + 6);
    if p2.pc.Done? {
      DoneForGood(tape, p2, n + 2, n + 6);
    } else {
      OneAttempt(tape, p2, n + 2);
      var p4 := Run(tape, p2, n + 2, n + 4);
      Tapes.RunSplits(Step, tape, p2, n + 2, n + 4, n + 6);
      if p4.pc.Done? {
        DoneForGood(tape, p4, n + 4, n + 6);
      } else {
        OneAttempt(tape, p4, n + 4);
      }
    }
  }

  // The loop that is done by call n + 6 has decided so.
  lemma StatusLoopDecides(tape: nat -> Tick, p: Proc, n: nat, end: nat)
    requires Reports(p) && n <= end <= n + 6 && Run(tape, p, n, end).pc.Done?
    ensures Run(tape, p, n, end).pc == Done(Verdict(Decision(tape, n, p.obj.key, p.pc.result)))
  {
    hide Step, StatusAttempt;
    StatusLoopExact(tape, p, n);
    Tapes.RunSplits(Step, tape, p, n, end, n + 6);
    DoneForGood(tape, Run(tape, p, n, end), end, n + 6);
  }

  // ---- What the calls do to the stores ----

  // This Keycloak client is what the object declares.
  ghost predicate AsDeclared(c: F.OpenidClient, o: Client) {
    c.realmId == o.spec.realm.name && c.clientId == o.spec.fields.clientId && F.Matches(o.spec.fields, c)
  }

  // This call deletes the tracked client.
  predicate Deletes(t: Tick, p: Proc) {
    p.pc.DeleteClient? && !t.fault && t.world.Live(p.obj.spec.realm.name, p.obj.status.clientUuid)
  }

  lemma BuiltAsDeclared(o: Client, id: Uuid)
    ensures AsDeclared(Built(o, id), o) && Built(o, id).id == id
  {
    var c := F.BuildClient(o.spec.fields, o.spec.realm.name);
    F.BuildAndApplyMatch(o.spec.fields, c, c, o.spec.realm.name);
    F.MatchesAnyId(o.spec.fields, c, id);
    assert c.realmId == o.spec.realm.name && c.clientId == o.spec.fields.clientId;
    hide F.BuildClient, F.Matches;
  }

  lemma AppliedAsDeclared(spec: F.ClientSpec, found: F.OpenidClient)
    ensures var c := F.ApplyChanges(spec, found);
      F.Matches(spec, c) && F.Unmanaged(c) == F.Unmanaged(found) && c.id == found.id && c.realmId == found.realmId
  {
    F.BuildAndApplyMatch(spec, found, found, "");
    hide F.Matches, F.Unmanaged;
  }

  /** Three calls write to Keycloak's clients. Creating adds one as declared, under the identifier issued; updating
      makes the one that was found match, and keeps what nobody manages; deleting removes the tracked one. */
  lemma ClientWritesExact(t: Tick, p: Proc)
    ensures var all, all' := t.world.clients, Step(t, p).world.clients;
      if p.pc.Create? && Creatable(t, p.obj) then
        t.id in all' && all' == all[t.id := all'[t.id]] && all'[t.id].id == t.id && AsDeclared(all'[t.id], p.obj)
      else if p.pc.Update? && Updates(p.pc.found, t, p.obj) then
        var c := p.pc.found;
        c.id in all' && all' == all[c.id := all'[c.id]] && all'[c.id].id == c.id && all'[c.id].realmId == c.realmId
        && F.Matches(p.obj.spec.fields, all'[c.id]) && F.Unmanaged(all'[c.id]) == F.Unmanaged(c)
      else if Deletes(t, p) then all' == all - {p.obj.status.clientUuid}
      else all' == all
  {
    hide Step, F.Matches, F.Unmanaged, AsDeclared, Creatable;
    match p.pc
    case Create => CreatingWrites(t, p);
    case Update(_) => UpdatingWrites(t, p);
    case DeleteClient => DeletingWrites(t, p);
    case _ => KeepsClients(t, p);
  }

  lemma CreatingWrites(t: Tick, p: Proc)
    requires p.pc.Create?
    ensures var w, w' := t.world, Step(t, p).world;
      if Creatable(t, p.obj) then
        t.id in w'.clients && w'.clients == w.clients[t.id := w'.clients[t.id]] && w'.clients[t.id].id == t.id
        && AsDeclared(w'.clients[t.id], p.obj) && w'.roles == w.roles[t.id := map[]]
      else w' == w
  {
    hide F.BuildClient, F.Matches, AsDeclared, Built;
    BuiltAsDeclared(p.obj, t.id);
  }

  lemma UpdatingWrites(t: Tick, p: Proc)
    requires p.pc.Update?
    ensures var w, w', c := t.world, Step(t, p).world, p.pc.found;
      w'.roles == w.roles
      && if Updates(c, t, p.obj) then
           c.id in w'.clients && w'.clients == w.clients[c.id := w'.clients[c.id]] && w'.clients[c.id].id == c.id
           && w'.clients[c.id].realmId == c.realmId && F.Matches(p.obj.spec.fields, w'.clients[c.id])
           && F.Unmanaged(w'.clients[c.id]) == F.Unmanaged(c)
         else w'.clients == w.clients
  {
    F.NoDiffsMeansMatch(p.obj.spec.fields, p.pc.found);
    AppliedAsDeclared(p.obj.spec.fields, p.pc.found);
    hide F.Matches, F.ApplyChanges, F.ClientDiffs, F.Unmanaged;
  }

  lemma DeletingWrites(t: Tick, p: Proc)
    requires p.pc.DeleteClient?
    ensures var w, w' := t.world, Step(t, p).world;
      w'.roles == w.roles
      && w'.clients == if Deletes(t, p) then w.clients - {p.obj.status.clientUuid} else w.clients
  {
  }

  lemma KeepsClients(t: Tick, p: Proc)
    requires !p.pc.Create? && !p.pc.Update? && !p.pc.DeleteClient?
    ensures Step(t, p).world.clients == t.world.clients
    ensures !p.pc.SyncRoles? && !p.pc.DeleteRoles? ==> Step(t, p).world.roles == t.world.roles
  {
    hide S.MergeStatus, S.StatusUnchanged, SaysNotReady;
  }

  /** Two calls and the role pass write to Keycloak's roles, those of one client. */
  lemma RoleWritesExact(t: Tick, p: Proc)
    ensures var all, all', id := t.world.roles, Step(t, p).world.roles, p.obj.status.clientUuid;
      all' == if p.pc.Create? && Creatable(t, p.obj) then all[t.id := map[]]
              else if p.pc.SyncRoles? && id != "" then all[id := t.roles]
              else if p.pc.DeleteRoles? && S.Roles(p.obj.status) != map[] then all[id := t.roles]
              else all
  {
    hide Creatable, F.Matches, F.Unmanaged, AsDeclared;
    match p.pc
    case Create => CreatingWrites(t, p);
    case Update(_) => UpdatingWrites(t, p);
    case DeleteClient => DeletingWrites(t, p);
    case SyncRoles(_) =>
    case DeleteRoles =>
    case _ => KeepsClients(t, p);
    hide Step;
  }

  // The object this call writes as a whole, if it does.
  function Wanted(p: Proc): Option<Client> {
    match p.pc
    case AddFinalizer => Some(p.obj.(finalizer := true))
    case SetOwner(uid) => Some(p.obj.(owners := p.obj.owners[p.obj.spec.realm.name := uid]))
    case RemoveFinalizer(_) => Some(p.obj.(finalizer := false))
    case _ => None
  }

  lemma PutWrites(t: Tick, p: Proc)
    requires Wanted(p).Some?
    ensures var w, w', key := t.world, Step(t, p).world, p.obj.key;
      if PutAccepted(t, p.obj) then
        w'.cluster == w.cluster[key := Refreshed(t, p.obj).(finalizer := Wanted(p).value.finalizer,
                                                            owners := Wanted(p).value.owners)]
        && w'.revision == w.revision + 1
      else w'.cluster == w.cluster && w'.revision == w.revision
  {
  }

  lemma StatusWrites(t: Tick, p: Proc)
    requires p.pc.WriteStatus?
    ensures var w, w', key := t.world, Step(t, p).world, p.obj.key;
      if !t.fault && key in w.cluster && w.cluster[key].version == p.pc.latest.version then
        var stored := w.cluster[key];
        key in w'.cluster && w'.cluster == w.cluster[key := w'.cluster[key]]
        && w'.cluster[key].(status := stored.status, version := stored.version) == stored
        && w'.cluster[key].version == w'.revision == w.revision + 1
        && Step(t, p).proc.obj == p.obj.(status := w'.cluster[key].status)
      else w'.cluster == w.cluster && w'.revision == w.revision
  {
    hide S.MergeStatus;
  }

  lemma KeepsCluster(t: Tick, p: Proc)
    requires Wanted(p).None? && !p.pc.WriteStatus?
    ensures Step(t, p).world.cluster == t.world.cluster && Step(t, p).world.revision == t.world.revision
  {
    hide F.BuildClient, F.ApplyChanges, F.ClientDiffs, ClientIdTaken, S.StatusUnchanged, SaysNotReady;
  }

  /** Four calls write to the cluster, under the version that was read: three replace the object but for its status, and
      a status write changes the status and nothing else. */
  lemma ClusterWritesExact(t: Tick, p: Proc)
    ensures var w, w', key := t.world, Step(t, p).world, p.obj.key;
      if Wanted(p).Some? && PutAccepted(t, p.obj) then
        w'.cluster == w.cluster[key := Refreshed(t, p.obj).(finalizer := Wanted(p).value.finalizer,
                                                            owners := Wanted(p).value.owners)]
        && w'.revision == w.revision + 1
      else if p.pc.WriteStatus? && !t.fault && key in w.cluster && w.cluster[key].version == p.pc.latest.version then
        var stored := w.cluster[key];
        key in w'.cluster && w'.cluster == w.cluster[key := w'.cluster[key]]
        && w'.cluster[key].(status := stored.status, version := stored.version) == stored
        && w'.cluster[key].version == w'.revision == w.revision + 1
        && Step(t, p).proc.obj == p.obj.(status := w'.cluster[key].status)
      else w'.cluster == w.cluster && w'.revision == w.revision
  {
    hide Step;
    if Wanted(p).Some? {
      PutWrites(t, p);
    } else if p.pc.WriteStatus? {
      StatusWrites(t, p);
    } else {
      KeepsCluster(t, p);
    }
  }
}
