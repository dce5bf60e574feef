/** What a pass over a group makes of the answers to its calls, said on the worlds those calls meet and on the calls
    that fail, for every sequence of worlds and failures. */
module GroupOutcomes {
  import opened Common
  import opened GroupTypes
  import opened GroupHierarchy
  import opened GroupPass
  import Tapes

  function At(tape: nat -> Tick, obj: Group, n: nat): Proc {
    Run(tape, Start(obj), 0, n)
  }

  // ---- The order of the calls ----

  // How far into the pass a call is; reading and writing the status alternate.
  function Rank(pc: Pc): nat {
    match pc
    case Resolve => 0
    case FetchParent => 1
    case WalkChain(_, _, _) => 2
    case VerifyParent(_) => 3
    case Fetch => 4
    case Create => 5
    case Lookup => 6
    case Update(_) => 6
    case ReadStatus(_) => 7
    case WriteStatus(_, _) => 7
    case Done(_) => 8
  }

  // A call goes on in the pass, and leaves its object what it was but for the status.
  ghost predicate Onward(p: Proc, q: Proc) {
    && Rank(q.pc) >= Rank(p.pc) && (Rank(p.pc) in {0, 1, 3, 4, 5, 6} ==> Rank(q.pc) > Rank(p.pc))
    && (Rank(p.pc) < 7 ==> q.attempts == p.attempts && !q.pc.WriteStatus?)
    && q.attempts >= p.attempts && (p.pc.ReadStatus? ==> q.attempts > p.attempts)
    && q.obj.key == p.obj.key && q.obj.spec == p.obj.spec
  }

  lemma ResolvingGoesOn(t: Tick, p: Proc)
    requires Rank(p.pc) in {0, 1, 3}
    ensures Onward(p, Step(t, p).proc)
  {
  }

  lemma WalkingGoesOn(t: Tick, p: Proc)
    requires p.pc.WalkChain?
    ensures Onward(p, Step(t, p).proc)
  {
    hide VisitKey, ParentKey;
  }

  lemma SyncingGoesOn(t: Tick, p: Proc)
    requires Rank(p.pc) in {4, 5, 6}
    ensures Onward(p, Step(t, p).proc)
  {
    hide SiblingExists, GroupDiffs, BuildGroup, ApplyChanges;
  }

  lemma ReportingGoesOn(t: Tick, p: Proc)
    requires Rank(p.pc) >= 7
    ensures Onward(p, Step(t, p).proc)
  {
    hide MergeStatus, StatusUnchanged;
  }

  lemma RankRises(t: Tick, p: Proc)
    ensures Onward(p, Step(t, p).proc)
  {
    hide Step, Onward;
    match p.pc
    case Resolve => ResolvingGoesOn(t, p);
    case FetchParent => ResolvingGoesOn(t, p);
    case VerifyParent(_) => ResolvingGoesOn(t, p);
    case WalkChain(_, _, _) => WalkingGoesOn(t, p);
    case ReadStatus(_) => ReportingGoesOn(t, p);
    case WriteStatus(_, _) => ReportingGoesOn(t, p);
    case Done(_) => ReportingGoesOn(t, p);
    case _ => SyncingGoesOn(t, p);
  }

  lemma {:induction false} RankRisesLater(tape: nat -> Tick, p: Proc, lo: nat, mid: nat, hi: nat)
    requires lo <= mid <= hi
    ensures Rank(Run(tape, p, lo, hi).pc) >= Rank(Run(tape, p, lo, mid).pc)
    ensures Rank(Run(tape, p, lo, mid).pc) in {0, 1, 3, 4, 5, 6} && mid < hi ==>
      Rank(Run(tape, p, lo, hi).pc) > Rank(Run(tape, p, lo, mid).pc)
    ensures Run(tape, p, lo, hi).attempts >= Run(tape, p, lo, mid).attempts
    ensures Run(tape, p, lo, mid).pc.ReadStatus? && mid < hi ==>
      Run(tape, p, lo, hi).attempts > Run(tape, p, lo, mid).attempts
    decreases hi
  {
    hide Step, Rank;
    if mid < hi {
      RankRisesLater(tape, p, lo, mid, hi - 1);
      RankRises(tape(hi - 1), Run(tape, p, lo, hi - 1));
    }
  }

  // ---- The walk, link by link ----

  // The group m links above `parent`; the link of each group is followed at a call of its own, from call `at` on.
  function Climbed(tape: nat -> Tick, at: nat, parent: Group, m: nat): Option<Group> {
    if m == 0 then Some(parent)
    else match Climbed(tape, at, parent, m - 1)
      case None => None
      case Some(g) => Next(tape(at + m - 1).world.cluster, g)
  }

  function LinkAt(tape: nat -> Tick, at: nat, parent: Group, m: nat): Option<ObjectKey> {
    match Climbed(tape, at, parent, m)
    case None => None
    case Some(g) => Link(g)
  }

  function KeyAt(tape: nat -> Tick, at: nat, parent: Group, m: nat): Option<string> {
    match Climbed(tape, at, parent, m)
    case None => None
    case Some(g) => if HasParent(g) then Some(VisitKey(g)) else None
  }

  // The call that follows link i does not fail, and the link does not lead to `target`.
  ghost predicate Harmless(tape: nat -> Tick, at: nat, target: ObjectKey, parent: Group, i: nat) {
    !tape(at + i).fault && LinkAt(tape, at, parent, i) != Some(target)
  }

  // The first m links were followed: no call failed, none of them refers to `target`, no visit key occurs twice.
  ghost predicate Followed(tape: nat -> Tick, at: nat, target: ObjectKey, parent: Group, m: nat) {
    && Climbed(tape, at, parent, m).Some?
    && (forall i: nat | i < m :: Harmless(tape, at, target, parent, i))
    && (forall i: nat, j: nat | i < j < m :: KeyAt(tape, at, parent, i) != KeyAt(tape, at, parent, j))
  }

  // The walk ends after m links, accepting: at a root, or at a link to a group that is missing when it is looked up.
  ghost predicate Accepts(tape: nat -> Tick, at: nat, target: ObjectKey, parent: Group, m: nat) {
    && Followed(tape, at, target, parent, m)
    && match LinkAt(tape, at, parent, m)
       case None => true
       case Some(link) =>
         && link != target && !tape(at + m).fault && link !in tape(at + m).world.cluster
         && forall i: nat | i < m :: KeyAt(tape, at, parent, i) != KeyAt(tape, at, parent, m)
  }

  function Seen(tape: nat -> Tick, at: nat, parent: Group, m: nat): set<string> {
    set i: nat | i < m && KeyAt(tape, at, parent, i).Some? :: KeyAt(tape, at, parent, i).value
  }

  lemma {:induction false} ClimbedBefore(tape: nat -> Tick, at: nat, parent: Group, i: nat, m: nat)
    requires i < m && Climbed(tape, at, parent, m).Some?
    ensures KeyAt(tape, at, parent, i).Some? && LinkAt(tape, at, parent, i).Some?
    decreases m
  {
    if i < m - 1 {
      ClimbedBefore(tape, at, parent, i, m - 1);
    }
  }

  ghost predicate WalkBegins(p: Proc) {
    p.pc.WalkChain? && p.pc.current == p.pc.parent && p.pc.visited == {}
  }

  // The link of the group reached after m links can be followed as well.
  ghost predicate GoesOn(tape: nat -> Tick, at: nat, target: ObjectKey, parent: Group, m: nat) {
    match Climbed(tape, at, parent, m)
    case None => false
    case Some(g) => CanFollow(tape(at + m), target, g, Seen(tape, at, parent, m))
  }

  predicate CanFollow(t: Tick, target: ObjectKey, g: Group, seen: set<string>) {
    HasParent(g) && VisitKey(g) !in seen && ParentKey(g) != target && !t.fault && ParentKey(g) in t.world.cluster
  }

  lemma FollowedOn(tape: nat -> Tick, at: nat, target: ObjectKey, parent: Group, m: nat)
    requires Followed(tape, at, target, parent, m) && GoesOn(tape, at, target, parent, m)
    ensures Followed(tape, at, target, parent, m + 1)
  {
    forall i: nat | i < m ensures KeyAt(tape, at, parent, i) != KeyAt(tape, at, parent, m) {
      ClimbedBefore(tape, at, parent, i, m);
      assert KeyAt(tape, at, parent, i).value in Seen(tape, at, parent, m);
    }
    assert Climbed(tape, at, parent, m + 1).Some?;
  }

  lemma FollowedBack(tape: nat -> Tick, at: nat, target: ObjectKey, parent: Group, m: nat)
    requires Followed(tape, at, target, parent, m + 1)
    ensures Followed(tape, at, target, parent, m) && GoesOn(tape, at, target, parent, m)
  {
    ClimbedBefore(tape, at, parent, m, m + 1);
    assert Harmless(tape, at, target, parent, m);
  }

  lemma SeenGrows(tape: nat -> Tick, at: nat, parent: Group, m: nat)
    requires KeyAt(tape, at, parent, m).Some?
    ensures Seen(tape, at, parent, m + 1) == Seen(tape, at, parent, m) + {KeyAt(tape, at, parent, m).value}
  {
  }

  lemma WalkOne(t: Tick, q: Proc)
    requires q.pc.WalkChain?
    ensures Step(t, q).proc.pc.WalkChain? <==> CanFollow(t, q.obj.key, q.pc.current, q.pc.visited)
    ensures var g, q' := q.pc.current, Step(t, q).proc;
      q'.pc.WalkChain? ==>
        q' == q.(pc := WalkChain(q.pc.parent, t.world.cluster[ParentKey(g)], q.pc.visited + {VisitKey(g)}))
  {
  }

  lemma NoSecondWalk(t: Tick, q: Proc)
    requires Rank(q.pc) >= 2 && !q.pc.WalkChain?
    ensures !Step(t, q).proc.pc.WalkChain?
  {
    RankRises(t, q);
    hide Step;
  }

  // Where the walk is when the first m links have been followed.
  function Climbing(tape: nat -> Tick, p: Proc, at: nat, m: nat): Proc
    requires p.pc.WalkChain? && Climbed(tape, at, p.pc.parent, m).Some?
  {
    p.(pc := WalkChain(p.pc.parent, Climbed(tape, at, p.pc.parent, m).value, Seen(tape, at, p.pc.parent, m)))
  }

  // One call more of the walk.
  lemma ClimbOne(tape: nat -> Tick, p: Proc, at: nat, m: nat)
    requires p.pc.WalkChain? && Followed(tape, at, p.obj.key, p.pc.parent, m)
    ensures var q := Step(tape(at + m), Climbing(tape, p, at, m)).proc;
      (q.pc.WalkChain? <==> Followed(tape, at, p.obj.key, p.pc.parent, m + 1))
      && (q.pc.WalkChain? ==> q == Climbing(tape, p, at, m + 1))
  {
    WalkOne(tape(at + m), Climbing(tape, p, at, m));
    if GoesOn(tape, at, p.obj.key, p.pc.parent, m) {
      FollowedOn(tape, at, p.obj.key, p.pc.parent, m);
      SeenGrows(tape, at, p.pc.parent, m);
    } else if Followed(tape, at, p.obj.key, p.pc.parent, m + 1) {
      FollowedBack(tape, at, p.obj.key, p.pc.parent, m);
    }
    hide Step, Followed, Seen;
  }

  lemma RunNext(tape: nat -> Tick, p: Proc, at: nat, m: nat)
    ensures Run(tape, p, at, at + m + 1) == Step(tape(at + m), Run(tape, p, at, at + m)).proc
  {
  }

  lemma StayingOut(tape: nat -> Tick, p: Proc, at: nat, m: nat)
    requires p.pc.WalkChain? && !Run(tape, p, at, at + m).pc.WalkChain?
    ensures !Run(tape, p, at, at + m + 1).pc.WalkChain?
  {
    RankRisesLater(tape, p, at, at, at + m);
    NoSecondWalk(tape(at + m), Run(tape, p, at, at + m));
    hide Step;
  }

  // The walk q, after m calls, is still going on exactly if the first m links were followed.
  ghost predicate WalkIs(tape: nat -> Tick, p: Proc, at: nat, m: nat, q: Proc)
    requires p.pc.WalkChain?
  {
    && (q.pc.WalkChain? <==> Followed(tape, at, p.obj.key, p.pc.parent, m))
    && (q.pc.WalkChain? ==> q == Climbing(tape, p, at, m))
  }

  lemma WalkIsNext(tape: nat -> Tick, p: Proc, at: nat, m: nat)
    requires p.pc.WalkChain? && WalkIs(tape, p, at, m, Run(tape, p, at, at + m))
    ensures WalkIs(tape, p, at, m + 1, Run(tape, p, at, at + m + 1))
  {
    RunNext(tape, p, at, m);
    hide Followed, Step, Climbing, Run;
    if Run(tape, p, at, at + m).pc.WalkChain? {
      ClimbOne(tape, p, at, m);
    } else {
      StayingOut(tape, p, at, m);
      FollowedBefore(tape, at, p.obj.key, p.pc.parent, m);
    }
  }

  lemma WalkIsFirst(tape: nat -> Tick, p: Proc, at: nat)
    requires WalkBegins(p)
    ensures WalkIs(tape, p, at, 0, Run(tape, p, at, at))
  {
    assert Seen(tape, at, p.pc.parent, 0) == {};
  }

  /** The walk is still going on after m calls exactly if the first m links were followed. */
  lemma {:induction false} WalkFollows(tape: nat -> Tick, p: Proc, at: nat, m: nat)
    requires WalkBegins(p)
    ensures WalkIs(tape, p, at, m, Run(tape, p, at, at + m))
    decreases m
  {
    hide WalkIs, Run;
    if m == 0 {
      WalkIsFirst(tape, p, at);
    } else {
      WalkFollows(tape, p, at, m - 1);
      WalkIsNext(tape, p, at, m - 1);
    }
  }

  lemma FollowedBefore(tape: nat -> Tick, at: nat, target: ObjectKey, parent: Group, m: nat)
    ensures Followed(tape, at, target, parent, m + 1) ==> Followed(tape, at, target, parent, m)
  {
    if Followed(tape, at, target, parent, m + 1) {
      FollowedBack(tape, at, target, parent, m);
    }
  }

  // ---- Resolution of the parent ----

  // The parent object read at call lo is adopted after a walk of m links: no call fails, the walk accepts, the object
  // read was Ready, in the group's realm and tracked, and its Keycloak group is alive at the verifying call.
  ghost predicate Adoptable(tape: nat -> Tick, lo: nat, obj: Group, m: nat)
    requires HasParent(obj)
  {
    && !tape(lo).fault && ParentKey(obj) in tape(lo).world.cluster
    && var parent := tape(lo).world.cluster[ParentKey(obj)];
       && parent.key != obj.key && Accepts(tape, lo + 1, obj.key, parent, m)
       && parent.status.ready && parent.spec.realm == obj.spec.realm && parent.status.groupUuid != ""
       && !tape(lo + m + 2).fault
       && tape(lo + m + 2).world.keycloak.Live(obj.spec.realm, parent.status.groupUuid)
  }

  // The last call of the walk.
  lemma WalkEnds(tape: nat -> Tick, p: Proc, at: nat, m: nat)
    requires p.pc.WalkChain? && Followed(tape, at, p.obj.key, p.pc.parent, m)
    ensures var parent, q := p.pc.parent, Step(tape(at + m), Climbing(tape, p, at, m)).proc;
      (q.pc.VerifyParent? <==>
         Accepts(tape, at, p.obj.key, parent, m) && parent.status.ready && parent.spec.realm == p.obj.spec.realm
         && parent.status.groupUuid != "")
      && (q.pc.VerifyParent? ==> q == p.(pc := VerifyParent(parent)))
  {
    var g := Climbed(tape, at, p.pc.parent, m).value;
    if HasParent(g) {
      if VisitKey(g) in Seen(tape, at, p.pc.parent, m) {
        var i: nat :| i < m && KeyAt(tape, at, p.pc.parent, i) == Some(VisitKey(g));
        assert KeyAt(tape, at, p.pc.parent, i) == KeyAt(tape, at, p.pc.parent, m);
      } else {
        forall i: nat | i < m ensures KeyAt(tape, at, p.pc.parent, i) != KeyAt(tape, at, p.pc.parent, m) {
          ClimbedBefore(tape, at, p.pc.parent, i, m);
          assert KeyAt(tape, at, p.pc.parent, i).value in Seen(tape, at, p.pc.parent, m);
        }
      }
    }
  }

  // Where a call can come from.
  ghost predicate CanFollowIn(p: Proc, q: Proc) {
    && (q.pc.Fetch? ==> p.pc.VerifyParent? || p.pc.Resolve? || (p.pc.FetchParent? && !HasParent(p.obj)))
    && (q.pc.VerifyParent? ==> p.pc.WalkChain?)
    && (q.pc.FetchParent? ==> p.pc.Resolve?)
    && (q.pc.Create? ==> p.pc.Fetch?)
    && (q.pc.Update? ==> p.pc.Fetch?)
    && (q.pc.Lookup? ==> p.pc.Create?)
  }

  lemma WalkLeadsOn(t: Tick, q: Proc)
    requires q.pc.WalkChain?
    ensures CanFollowIn(q, Step(t, q).proc)
  {
    hide VisitKey, ParentKey;
  }

  lemma LaterLeadsOn(t: Tick, q: Proc)
    requires Rank(q.pc) >= 4
    ensures CanFollowIn(q, Step(t, q).proc)
  {
    hide SiblingExists, GroupDiffs, BuildGroup, ApplyChanges, MergeStatus, StatusUnchanged;
  }

  lemma EarlyLeadsOn(t: Tick, q: Proc)
    requires Rank(q.pc) < 4 && !q.pc.WalkChain?
    ensures CanFollowIn(q, Step(t, q).proc)
  {
  }

  lemma CameFrom(t: Tick, q: Proc)
    ensures CanFollowIn(q, Step(t, q).proc)
  {
    hide Step, CanFollowIn;
    if q.pc.WalkChain? {
      WalkLeadsOn(t, q);
    } else if Rank(q.pc) >= 4 {
      LaterLeadsOn(t, q);
    } else {
      EarlyLeadsOn(t, q);
    }
  }

  lemma VerifyOne(t: Tick, q: Proc)
    requires q.pc.VerifyParent?
    ensures var id, q' := q.pc.parent.status.groupUuid, Step(t, q).proc;
      (q'.pc.Fetch? <==> !t.fault && t.world.keycloak.Live(q.obj.spec.realm, id))
      && (q'.pc.Fetch? ==> q' == q.(obj := SetParentUuid(q.obj, id), pc := Fetch))
  {
  }

  lemma FetchParentOne(t: Tick, q: Proc)
    requires q.pc.FetchParent? && HasParent(q.obj)
    ensures var q' := Step(t, q).proc;
      (q'.pc.WalkChain? <==> !t.fault && ParentKey(q.obj) in t.world.cluster
                             && t.world.cluster[ParentKey(q.obj)].key != q.obj.key)
      && (q'.pc.WalkChain? ==>
            q' == q.(pc := WalkChain(t.world.cluster[ParentKey(q.obj)], t.world.cluster[ParentKey(q.obj)], {})))
      && (!q'.pc.WalkChain? ==> q'.pc.ReadStatus?)
  {
  }

  // A walk that begins at call `at` leads to the verifying call after m links, and on to the fetch.
  lemma WalkThenVerified(tape: nat -> Tick, p: Proc, at: nat, m: nat)
    requires WalkBegins(p)
    ensures var parent, q := p.pc.parent, Run(tape, p, at, at + m + 1);
      (q.pc.VerifyParent? <==>
         Accepts(tape, at, p.obj.key, parent, m) && parent.status.ready && parent.spec.realm == p.obj.spec.realm
         && parent.status.groupUuid != "")
      && (q.pc.VerifyParent? ==> q == p.(pc := VerifyParent(parent)))
  {
    WalkFollows(tape, p, at, m);
    CameFrom(tape(at + m), Run(tape, p, at, at + m));
    if Followed(tape, at, p.obj.key, p.pc.parent, m) {
      WalkEnds(tape, p, at, m);
    }
    hide Step, Followed, Climbing, WalkBegins;
  }

  lemma VerifiedThenFetched(tape: nat -> Tick, p: Proc, at: nat, hi: nat)
    requires WalkBegins(p) && at <= hi
    ensures var parent, q := p.pc.parent, Run(tape, p, at, hi);
      (q.pc.Fetch? <==>
         hi >= at + 2 && Accepts(tape, at, p.obj.key, parent, hi - at - 2)
         && parent.status.ready && parent.spec.realm == p.obj.spec.realm && parent.status.groupUuid != ""
         && !tape(hi - 1).fault && tape(hi - 1).world.keycloak.Live(p.obj.spec.realm, parent.status.groupUuid))
      && (q.pc.Fetch? ==> q == p.(obj := SetParentUuid(p.obj, parent.status.groupUuid), pc := Fetch))
  {
    hide Step, Accepts;
    if hi > at {
      var q := Run(tape, p, at, hi - 1);
      RankRisesLater(tape, p, at, at, hi - 1);
      CameFrom(tape(hi - 1), q);
      if hi >= at + 2 {
        WalkThenVerified(tape, p, at, hi - at - 2);
      }
      if q.pc.VerifyParent? {
        VerifyOne(tape(hi - 1), q);
      }
    }
  }

  lemma ReportedStays(tape: nat -> Tick, p: Proc, lo: nat, hi: nat)
    requires lo <= hi && p.pc.ReadStatus?
    ensures !Run(tape, p, lo, hi).pc.Fetch?
  {
    RankRisesLater(tape, p, lo, lo, hi);
  }

  /** Fetching the parent anew succeeds exactly if the parent is adoptable, and then adopts its identifier. */
  lemma ResolvesAnew(tape: nat -> Tick, p: Proc, lo: nat, hi: nat)
    requires lo <= hi && p.pc.FetchParent? && HasParent(p.obj)
    ensures Run(tape, p, lo, hi).pc.Fetch? <==> hi >= lo + 3 && Adoptable(tape, lo, p.obj, hi - lo - 3)
    ensures var q := Run(tape, p, lo, hi);
      q.pc.Fetch? ==>
        q == p.(obj := SetParentUuid(p.obj, tape(lo).world.cluster[ParentKey(p.obj)].status.groupUuid), pc := Fetch)
  {
    hide Step, Accepts, Rank;
    if hi > lo {
      FetchParentOne(tape(lo), p);
      var p1 := Step(tape(lo), p).proc;
      assert Run(tape, p, lo, lo) == p && Run(tape, p, lo, lo + 1) == p1;
      Tapes.RunSplits(Step, tape, p, lo, lo + 1, hi);
      if p1.pc.WalkChain? {
        VerifiedThenFetched(tape, p1, lo + 1, hi);
      } else {
        ReportedStays(tape, p1, lo + 1, hi);
      }
    }
  }

  // The cached parent identifier answers at call n.
  ghost predicate CachedAnswers(t: Tick, obj: Group) {
    obj.status.parentUuid != "" && !t.fault && t.world.keycloak.Live(obj.spec.realm, obj.status.parentUuid)
  }

  // The pass over obj goes on to its own group at call n, with this parent identifier.
  ghost predicate ResolvedAt(tape: nat -> Tick, obj: Group, n: nat, parent: Uuid) {
    if !HasParent(obj) then n == 1 && parent == ""
    else if CachedAnswers(tape(0), obj) then n == 1 && parent == obj.status.parentUuid
    else
      n >= 4 && Adoptable(tape, 1, obj, n - 4) && parent == tape(1).world.cluster[ParentKey(obj)].status.groupUuid
  }

  // What a reference in this object means: without a namespace, the object's own.
  predicate RefersTo(obj: Group, ref: GroupRef, key: ObjectKey) {
    key.name == ref.name && key.namespace == if ref.namespace == "" then obj.key.namespace else ref.namespace
  }

  ghost predicate Resolves(tape: nat -> Tick, obj: Group, n: nat) {
    exists parent :: ResolvedAt(tape, obj, n, parent)
  }

  lemma ResolveOne(t: Tick, obj: Group)
    ensures var q := Step(t, Start(obj)).proc;
      if !HasParent(obj) then q == Start(obj).(obj := SetParentUuid(obj, ""), pc := Fetch)
      else if CachedAnswers(t, obj) then q == Start(obj).(pc := Fetch)
      else q == Start(obj).(obj := SetParentUuid(obj, ""), pc := FetchParent)
  {
  }

  lemma FetchOnce(tape: nat -> Tick, p: Proc, lo: nat, n: nat)
    requires p.pc.Fetch? && lo < n
    ensures !Run(tape, p, lo, n).pc.Fetch?
  {
    RankRisesLater(tape, p, lo, lo, n);
  }

  /** The pass gets past the resolution of its parent, at call n, exactly in these cases; its identifier is then in
      memory. */
  lemma ResolvesExactly(tape: nat -> Tick, obj: Group, n: nat)
    ensures At(tape, obj, n).pc.Fetch? <==> Resolves(tape, obj, n)
    ensures HasParent(obj) <==> obj.spec.parent.Some? && obj.spec.parent.value.name != ""
    ensures HasParent(obj) ==> RefersTo(obj, obj.spec.parent.value, ParentKey(obj))
    ensures forall parent | ResolvedAt(tape, obj, n, parent) ::
      At(tape, obj, n) == Start(obj).(obj := SetParentUuid(obj, parent), pc := Fetch)
  {
    hide Step, Adoptable;
    ResolveOne(tape(0), obj);
    var p1 := Step(tape(0), Start(obj)).proc;
    assert Run(tape, Start(obj), 0, 0) == Start(obj) && At(tape, obj, 1) == p1;
    if n == 0 {
    } else if p1.pc.Fetch? {
      Tapes.RunSplits(Step, tape, Start(obj), 0, 1, n);
      if n > 1 {
        FetchOnce(tape, p1, 1, n);
      } else {
        assert ResolvedAt(tape, obj, n, p1.obj.status.parentUuid);
      }
    } else {
      Tapes.RunSplits(Step, tape, Start(obj), 0, 1, n);
      ResolvesAnew(tape, p1, 1, n);
      AdoptableIgnoresStatus(tape, 1, obj, p1.obj);
      if n >= 4 && Adoptable(tape, 1, obj, n - 4) {
        AdoptableIsThere(tape, 1, obj, n - 4);
        assert ResolvedAt(tape, obj, n, tape(1).world.cluster[ParentKey(obj)].status.groupUuid);
      }
    }
  }

  lemma AdoptableIgnoresStatus(tape: nat -> Tick, lo: nat, obj: Group, obj': Group)
    requires HasParent(obj) && obj' == obj.(status := obj'.status)
    ensures forall m: nat :: Adoptable(tape, lo, obj, m) == Adoptable(tape, lo, obj', m)
  {
  }

  lemma AdoptableIsThere(tape: nat -> Tick, lo: nat, obj: Group, m: nat)
    requires HasParent(obj) && Adoptable(tape, lo, obj, m)
    ensures ParentKey(obj) in tape(lo).world.cluster
  {
  }

  // ---- The group itself ----

  // Nothing is tracked, or the call did not fail and what is tracked is not there.
  predicate Absent(t: Tick, obj: Group) {
    obj.status.groupUuid == "" || (!t.fault && !t.world.keycloak.Live(obj.spec.realm, obj.status.groupUuid))
  }

  predicate Found(t: Tick, obj: Group) {
    obj.status.groupUuid != "" && !t.fault && t.world.keycloak.Live(obj.spec.realm, obj.status.groupUuid)
  }

  lemma FetchOne(t: Tick, p: Proc)
    requires p.pc.Fetch?
    ensures var q := Step(t, p).proc;
      (q.pc.Create? <==> Absent(t, p.obj))
      && (Absent(t, p.obj) ==> q == p.(obj := ToCreate(p.obj), pc := Create))
      && (Found(t, p.obj) ==> q == p.(pc := Update(t.world.keycloak.groups[p.obj.status.groupUuid])))
      && (!Absent(t, p.obj) && !Found(t, p.obj) ==>
            q == p.(pc := ReadStatus(Result(false, true, RECONCILE_FAILED + t.text))))
  {
  }

  // The object that is created: what was tracked but is gone is forgotten, with the parent.
  function ToCreate(obj: Group): Group {
    if obj.status.groupUuid == "" then obj else SetParentUuid(SetUuid(obj, ""), "")
  }

  /** The pass creates a group at call n exactly if it got past its parent, and then fetched nothing, because nothing
      was tracked or because the answer was that the tracked group is not there. */
  lemma CreatesExactly(tape: nat -> Tick, obj: Group, n: nat)
    ensures At(tape, obj, n).pc.Create? <==>
      n > 0 && Absent(tape(n - 1), obj) && Resolves(tape, obj, n - 1)
    ensures At(tape, obj, n).pc.Create? && obj.status.groupUuid != "" ==>
      At(tape, obj, n).obj.status.groupUuid == At(tape, obj, n).obj.status.parentUuid == ""
  {
    hide Step, ResolvedAt;
    if n > 0 {
      CameFrom(tape(n - 1), At(tape, obj, n - 1));
      ResolvesExactly(tape, obj, n - 1);
      if At(tape, obj, n - 1).pc.Fetch? {
        FetchOne(tape(n - 1), At(tape, obj, n - 1));
      }
    }
  }

  /** A fetch that fails is no answer: nothing is forgotten, nothing is created, and the failure is reported. */
  lemma FailedFetchIsReported(tape: nat -> Tick, obj: Group, n: nat, parent: Uuid)
    requires ResolvedAt(tape, obj, n, parent) && obj.status.groupUuid != "" && tape(n).fault
    ensures var q := At(tape, obj, n + 1);
      q.obj == SetParentUuid(obj, parent) && q.pc.ReadStatus? && !q.pc.result.ready && q.pc.result.realmReady
  {
    hide Step, ResolvedAt;
    ResolvesExactly(tape, obj, n);
    FetchOne(tape(n), At(tape, obj, n));
  }

  // Keycloak can create this object's group: no group has its name next to it, its parent is there, and the identifier
  // is a new one.
  predicate Creatable(t: Tick, obj: Group) {
    var kc, parent := t.world.keycloak, obj.status.parentUuid;
    && !t.fault
    && (forall id | id in kc.groups :: kc.groups[id].realm != obj.spec.realm || kc.groups[id].parentId != parent
                                       || kc.groups[id].name != obj.spec.name)
    && (parent == "" || kc.Live(obj.spec.realm, parent))
    && t.id != "" && t.id !in kc.minted
  }

  // The group was found, and was as declared or could be updated.
  predicate Kept(tape: nat -> Tick, obj: Group, n: nat) {
    && Found(tape(n), obj)
    && var g := tape(n).world.keycloak.groups[obj.status.groupUuid];
       Actual(g) == Wanted(obj) || (!tape(n + 1).fault && g.id in tape(n + 1).world.keycloak.groups)
  }

  // The group was absent, was created, and was found again by its name.
  predicate Made(tape: nat -> Tick, obj: Group, n: nat) {
    && Absent(tape(n), obj) && Creatable(tape(n + 1), ToCreate(obj))
    && !tape(n + 2).fault && tape(n + 2).world.keycloak.Named(obj.spec.realm, obj.spec.name, tape(n + 2).id)
  }

  function Success(obj: Group, changed: bool): Pc {
    ReadStatus(Result(true, true, if changed then CHANGED else UNCHANGED))
  }

  predicate Failing(pc: Pc) {
    pc.ReadStatus? && !pc.result.ready && pc.result.realmReady
  }

  lemma UpdateOne(t: Tick, p: Proc)
    requires p.pc.Update?
    ensures var g, q := p.pc.found, Step(t, p).proc;
      if Actual(g) == Wanted(p.obj) then q == p.(pc := Success(p.obj, false))
      else if !t.fault && g.id in t.world.keycloak.groups then q == p.(pc := Success(p.obj, true))
      else q == p.(pc := q.pc) && Failing(q.pc)
  {
    GroupDiffMeaning(p.obj, p.pc.found, p.pc.found.id);
  }

  lemma CreateOne(t: Tick, p: Proc)
    requires p.pc.Create?
    ensures var q := Step(t, p).proc;
      if Creatable(t, p.obj) then q == p.(pc := Lookup) else q == p.(pc := q.pc) && Failing(q.pc)
  {
  }

  lemma LookupOne(t: Tick, p: Proc)
    requires p.pc.Lookup?
    ensures var q := Step(t, p).proc;
      if !t.fault && t.world.keycloak.Named(p.obj.spec.realm, p.obj.spec.name, t.id)
      then q == p.(obj := SetUuid(p.obj, t.id), pc := Success(p.obj, true))
      else q == p.(pc := q.pc) && Failing(q.pc)
  {
  }

  predicate Reports(p: Proc) {
    p.pc.ReadStatus? && p.attempts == 0
  }

  // From the fetch on: success in these two cases, a failure within three calls otherwise.
  lemma SyncOutcome(tape: nat -> Tick, p: Proc, n: nat) returns (end: nat)
    requires p.pc.Fetch? && p.attempts == 0
    ensures n <= end && Reports(Run(tape, p, n, end))
    ensures var q, obj := Run(tape, p, n, end), p.obj;
      if Kept(tape, obj, n) then
        end == n + 2
        && q == p.(pc := Success(obj, Actual(tape(n).world.keycloak.groups[obj.status.groupUuid]) != Wanted(obj)))
      else if Made(tape, obj, n) then
        end == n + 3 && q == p.(obj := SetUuid(ToCreate(obj), tape(n + 2).id), pc := Success(obj, true))
      else Failing(q.pc)
  {
    hide Step, Creatable;
    FetchOne(tape(n), p);
    var p1 := Step(tape(n), p).proc;
    assert Run(tape, p, n, n) == p && Run(tape, p, n, n + 1) == p1;
    end := n + 1;
    if Found(tape(n), p.obj) {
      UpdateOne(tape(n + 1), p1);
      end := n + 2;
    } else if Absent(tape(n), p.obj) {
      CreateOne(tape(n + 1), p1);
      var p2 := Step(tape(n + 1), p1).proc;
      assert Run(tape, p, n, n + 2) == p2;
      end := n + 2;
      if p2.pc.Lookup? {
        LookupOne(tape(n + 2), p2);
        end := n + 3;
      }
    }
  }

  // ---- The report ----

  // A pass that has not come to its own group yet can only report failure.
  ghost predicate Underway(tape: nat -> Tick, obj: Group, n: nat) {
    var q := At(tape, obj, n);
    || (Rank(q.pc) <= 3 && q.attempts == 0)
    || (Reports(q) && Failing(q.pc))
    || (Rank(q.pc) >= 7 && q.attempts > 0)
  }

  lemma UnderwayOn(t: Tick, q: Proc)
    requires Rank(q.pc) <= 3 && q.attempts == 0
    ensures var q' := Step(t, q).proc; q'.pc.Fetch? || ((Rank(q'.pc) <= 3 || Failing(q'.pc)) && q'.attempts == 0)
  {
    hide VisitKey, ParentKey;
  }

  lemma {:induction false} FetchedOrUnderway(tape: nat -> Tick, obj: Group, n: nat)
    ensures (exists h: nat :: h <= n && At(tape, obj, h).pc.Fetch?) || Underway(tape, obj, n)
    decreases n
  {
    if n > 0 {
      FetchedOrUnderway(tape, obj, n - 1);
      var q := At(tape, obj, n - 1);
      assert At(tape, obj, n) == Step(tape(n - 1), q).proc;
      hide Step;
      RankRises(tape(n - 1), q);
      if Rank(q.pc) <= 3 && q.attempts == 0 {
        UnderwayOn(tape(n - 1), q);
      }
    }
  }

  lemma ReportsOnce(tape: nat -> Tick, obj: Group, m: nat, n: nat)
    requires Reports(At(tape, obj, m)) && Reports(At(tape, obj, n))
    ensures m == n
  {
    if m < n {
      RankRisesLater(tape, Start(obj), 0, m, n);
    } else if n < m {
      RankRisesLater(tape, Start(obj), 0, n, m);
    }
  }

  // The parent was resolved at call h, and the group was there or made after that, so that the report comes at call n.
  ghost predicate Succeeds(tape: nat -> Tick, obj: Group, h: nat, parent: Uuid, n: nat) {
    && ResolvedAt(tape, obj, h, parent)
    && ((n == h + 2 && Kept(tape, SetParentUuid(obj, parent), h))
        || (n == h + 3 && Made(tape, SetParentUuid(obj, parent), h)))
  }

  /** What a pass reports: Ready exactly if its parent was resolved and its group was there and as declared, or could be
      updated, or was absent and could be created; otherwise that only its realm is ready. */
  lemma ReadyExactly(tape: nat -> Tick, obj: Group, n: nat)
    requires Reports(At(tape, obj, n))
    ensures At(tape, obj, n).pc.result.realmReady
    ensures At(tape, obj, n).pc.result.ready <==> exists h: nat, parent: Uuid :: Succeeds(tape, obj, h, parent, n)
    ensures forall h: nat, parent: Uuid | Succeeds(tape, obj, h, parent, n) ::
      var o, q := SetParentUuid(obj, parent), At(tape, obj, n);
      q.obj == if n == h + 2 then o else SetUuid(ToCreate(o), tape(h + 2).id)
  {
    hide Step, ResolvedAt, Kept, Made;
    if h: nat :| h <= n && At(tape, obj, h).pc.Fetch? {
      ResolvesExactly(tape, obj, h);
      var parent :| ResolvedAt(tape, obj, h, parent);
      var end := SyncOutcome(tape, At(tape, obj, h), h);
      Tapes.RunSplits(Step, tape, Start(obj), 0, h, end);
      ReportsOnce(tape, obj, n, end);
      FetchedOnce(tape, obj, h, n);
      assert Succeeds(tape, obj, h, parent, n) == At(tape, obj, n).pc.result.ready;
    } else {
      FetchedOrUnderway(tape, obj, n);
      assert Failing(At(tape, obj, n).pc);
      forall h: nat, parent: Uuid ensures !Succeeds(tape, obj, h, parent, n) {
        ResolvesExactly(tape, obj, h);
      }
    }
  }

  // Only one call can be the one after the resolution.
  lemma FetchedOnce(tape: nat -> Tick, obj: Group, h: nat, n: nat)
    requires At(tape, obj, h).pc.Fetch?
    ensures forall i: nat, parent: Uuid | Succeeds(tape, obj, i, parent, n) :: i == h
  {
    hide Step, Kept, Made, ResolvedAt;
    forall i: nat, parent: Uuid | Succeeds(tape, obj, i, parent, n) ensures i == h {
      ResolvesExactly(tape, obj, i);
      Tapes.RunSplits(Step, tape, Start(obj), 0, h, if i > h then i else h);
      Tapes.RunSplits(Step, tape, Start(obj), 0, i, if i > h then i else h);
      if h < i {
        FetchOnce(tape, At(tape, obj, h), h, i);
      } else if i < h {
        FetchOnce(tape, At(tape, obj, i), i, h);
      }
    }
  }

  // ---- The status loop ----

  datatype Attempt = Broken | Unneeded | Stored | Conflict

  // One attempt: what its reading and its writing call meet. A conflict is a write that is refused because somebody
  // changed the object since it was read.
  function StatusAttempt(read: Tick, write: Tick, key: ObjectKey, result: Result): Attempt {
    if read.fault || key !in read.world.cluster then Broken
    else
      var status := read.world.cluster[key].status;
      if status.ready == result.ready && status.realmReady == result.realmReady && status.message == result.message
      then Unneeded
      else if write.fault || key !in write.world.cluster then Broken
      else if write.world.cluster[key].version != read.world.cluster[key].version then Conflict
      else Stored
  }

  function Verdict(a: Attempt): Outcome {
    match a
    case Stored => Written
    case Unneeded => Skipped
    case _ => Failed
  }

  // The first of three attempts that meets no conflict decides, and the third in any case.
  function Decision(tape: nat -> Tick, n: nat, key: ObjectKey, result: Result): Attempt {
    var first := StatusAttempt(tape(n), tape(n + 1), key, result);
    var second := StatusAttempt(tape(n + 2), tape(n + 3), key, result);
    if !first.Conflict? then first
    else if !second.Conflict? then second
    else StatusAttempt(tape(n + 4), tape(n + 5), key, result)
  }

  // What an attempt that begins with the reading call n leads to.
  lemma OneAttempt(tape: nat -> Tick, p: Proc, n: nat)
    requires p.pc.ReadStatus?
    ensures var q, a := Run(tape, p, n, n + 2), StatusAttempt(tape(n), tape(n + 1), p.obj.key, p.pc.result);
      q.attempts == p.attempts + 1 && q.obj.key == p.obj.key
      && q.pc == (if a.Conflict? && p.attempts < 2 then p.pc else Done(Verdict(a)))
      && (a.Unneeded? ==> q.obj == p.obj.(status := tape(n).world.cluster[p.obj.key].status))
  {
    var q := Step(tape(n), p).proc;
    assert Run(tape, p, n, n) == p && Run(tape, p, n, n + 1) == q;
    assert Run(tape, p, n, n + 2) == Step(tape(n + 1), q).proc;
    hide MergeStatus;
  }

  lemma DoneForGood(tape: nat -> Tick, p: Proc, lo: nat, hi: nat)
    requires lo <= hi && p.pc.Done?
    ensures Run(tape, p, lo, hi) == p
    decreases hi
  {
    if lo < hi {
      DoneForGood(tape, p, lo, hi - 1);
    }
  }

  /** The status loop: a conflict makes it read again, twice at most; the first attempt that meets none decides, and a
      third conflict is a failure. */
  lemma StatusLoopExact(tape: nat -> Tick, p: Proc, n: nat)
    requires Reports(p)
    ensures var key, result := p.obj.key, p.pc.result;
      var first := StatusAttempt(tape(n), tape(n + 1), key, result);
      var second := StatusAttempt(tape(n + 2), tape(n + 3), key, result);
      var third := StatusAttempt(tape(n + 4), tape(n + 5), key, result);
      (first.Conflict? ==> Run(tape, p, n, n + 2).pc == ReadStatus(result))
      && (first.Conflict? && second.Conflict? ==> Run(tape, p, n, n + 4).pc == ReadStatus(result))
      && var q := Run(tape, p, n, n + 6);
         if !first.Conflict? then q.pc == Done(Verdict(first)) && q.attempts == 1
         else if !second.Conflict? then q.pc == Done(Verdict(second)) && q.attempts == 2
         else q.pc == Done(Verdict(third)) && q.attempts == 3
  {
    hide Step, StatusAttempt;
    OneAttempt(tape, p, n);
    var p2 := Run(tape, p, n, n + 2);
    Tapes.RunSplits(Step, tape, p, n, n + 2, n + 4);
    Tapes.RunSplits(Step, tape, p, n, n + 2, n + 6);
    if p2.pc.Done? {
      DoneForGood(tape, p2, n + 2, n + 6);
    } else {
      OneAttempt(tape, p2, n + 2);
      var p4 := Run(tape, p2, n + 2, n + 4);
      Tapes.RunSplits(Step, tape, p2, n + 2, n + 4, n + 6);
      if p4.pc.Done? {
        DoneForGood(tape, p4, n + 4, n + 6);
      } else {
        OneAttempt(tape, p4, n + 4);
      }
    }
  }

  // The loop that is done by call n + 6 has decided so.
  lemma StatusLoopDecides(tape: nat -> Tick, p: Proc, n: nat, end: nat)
    requires Reports(p) && n <= end <= n + 6 && Run(tape, p, n, end).pc.Done?
    ensures Run(tape, p, n, end).pc == Done(Verdict(Decision(tape, n, p.obj.key, p.pc.result)))
  {
    hide Step, StatusAttempt;
    StatusLoopExact(tape, p, n);
    Tapes.RunSplits(Step, tape, p, n, end, n + 6);
    DoneForGood(tape, Run(tape, p, n, end), end, n + 6);
  }

  // ---- What the calls do to the stores ----

  /** A call that fails changes nothing in the stores. */
  lemma FailedCallsTouchNothing(t: Tick, p: Proc)
    requires t.fault
    ensures Step(t, p).world == t.world
  {
  }

  // This Keycloak group is what the object declares, under the parent in memory.
  predicate AsDeclared(g: KGroup, obj: Group) {
    && g.realm == obj.spec.realm && g.name == obj.spec.name && g.parentId == obj.status.parentUuid
    && g.realmRoles.Items() == obj.spec.realmRoles.Items()
    && g.clientRoles.Entries() == obj.spec.clientRoles.Entries()
    && g.attributes.Entries() == obj.spec.attributes.Entries()
  }

  /** Two calls write to Keycloak. Creating adds one group as declared, under the identifier issued; updating makes the
      group that was found as declared, and keeps its identifier and what nobody manages. */
  lemma KeycloakWritesExact(t: Tick, p: Proc)
    ensures var kc, kc' := t.world.keycloak, Step(t, p).world.keycloak;
      if p.pc.Create? && Creatable(t, p.obj) then
        t.id in kc'.groups && kc'.groups == kc.groups[t.id := kc'.groups[t.id]]
        && kc'.groups[t.id].id == t.id && AsDeclared(kc'.groups[t.id], p.obj)
        && kc'.minted == kc.minted[t.id := GroupName(p.obj.spec.realm, p.obj.spec.name)]
      else if p.pc.Update? && Actual(p.pc.found) != Wanted(p.obj) && !t.fault && p.pc.found.id in kc.groups then
        var g := p.pc.found;
        kc'.minted == kc.minted && g.id in kc'.groups && kc'.groups == kc.groups[g.id := kc'.groups[g.id]]
        && kc'.groups[g.id].id == g.id && kc'.groups[g.id].rest == g.rest && AsDeclared(kc'.groups[g.id], p.obj)
      else kc' == kc
  {
    hide Creatable, MergeStatus, StatusUnchanged;
    if p.pc.Create? {
      CreateOne(t, p);
    } else if p.pc.Update? {
      UpdateOne(t, p);
      GroupDiffMeaning(p.obj, p.pc.found, p.pc.found.id);
    }
  }

  /** One call writes to the cluster: a status write that nobody got in the way of changes the status and the version of
      the pass's own object. */
  lemma ClusterWritesExact(t: Tick, p: Proc)
    ensures var w, w', key := t.world, Step(t, p).world, p.obj.key;
      if p.pc.WriteStatus? && !t.fault && key in w.cluster && w.cluster[key].version == p.pc.latest.version then
        var stored := w.cluster[key];
        key in w'.cluster && w'.cluster == w.cluster[key := w'.cluster[key]]
        && w'.cluster[key].(status := stored.status, version := stored.version) == stored
        && w'.cluster[key].version == w'.revision == w.revision + 1
        && Step(t, p).proc.obj == p.obj.(status := w'.cluster[key].status)
      else w'.cluster == w.cluster && w'.revision == w.revision
  {
    hide MergeStatus, StatusUnchanged, SiblingExists, GroupDiffs, BuildGroup, ApplyChanges;
  }
}
