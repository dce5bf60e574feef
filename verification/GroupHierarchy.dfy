/** The walk up the parent chain in validateParentGroupHierarchy, and what its verdict is worth. */
module GroupHierarchy {
  import opened Common
  import opened GroupTypes

  datatype Verdict = Accepted | SelfParent | VisitedTwice | LeadsBack | FetchFailed

  // The key of the visited set: the namespace of the CHILD with the name of the parent.
  function VisitKey(g: Group): string
    requires HasParent(g)
  {
    g.key.namespace + "/" + g.spec.parent.value.name
  }

  function Next(cluster: Cluster, g: Group): Option<Group> {
    if HasParent(g) && ParentKey(g) in cluster then Some(cluster[ParentKey(g)]) else None
  }

  function VisitKeys(cluster: Cluster): set<string> {
    set k | k in cluster && HasParent(cluster[k]) :: VisitKey(cluster[k])
  }

  // The keys the walk can still add to its visited set.
  function Unvisited(cluster: Cluster, current: Group, visited: set<string>): set<string> {
    VisitKeys(cluster) + (if HasParent(current) then {VisitKey(current)} else {}) - visited
  }

  lemma UnvisitedShrinks(cluster: Cluster, current: Group, visited: set<string>)
    requires HasParent(current) && VisitKey(current) !in visited
    requires ParentKey(current) in cluster
    ensures var after := Unvisited(cluster, cluster[ParentKey(current)], visited + {VisitKey(current)});
            after < Unvisited(cluster, current, visited) && |after| < |Unvisited(cluster, current, visited)|
  {
    var after := Unvisited(cluster, cluster[ParentKey(current)], visited + {VisitKey(current)});
    var before := Unvisited(cluster, current, visited);
    assert after <= before - {VisitKey(current)};
    Smaller(after, before - {VisitKey(current)});
  }

  lemma Smaller<T>(a: set<T>, b: set<T>)
    requires a <= b
    ensures |a| <= |b|
  {
    assert b == a + (b - a);
  }

  /** The loop of the walk. `fault(i)` says that the i-th fetch fails for a reason other than "not found". */
  function Walk(cluster: Cluster, fault: nat -> bool, i: nat, target: ObjectKey, current: Group,
                visited: set<string>): Verdict
    decreases |Unvisited(cluster, current, visited)|
  {
    if !HasParent(current) then Accepted
    else if VisitKey(current) in visited then VisitedTwice
    else if ParentKey(current) == target then LeadsBack
    else if fault(i) then FetchFailed
    else if ParentKey(current) !in cluster then Accepted
    else
      UnvisitedShrinks(cluster, current, visited);
      Walk(cluster, fault, i + 1, target, cluster[ParentKey(current)], visited + {VisitKey(current)})
  }

  function Validate(cluster: Cluster, fault: nat -> bool, group: Group, parent: Group): Verdict {
    if group.key == parent.key then SelfParent
    else Walk(cluster, fault, 0, group.key, parent, {})
  }

  // The same groups with the same declarations; statuses may differ.
  ghost predicate SameDeclarations(before: Cluster, after: Cluster) {
    && before.Keys == after.Keys
    && forall k | k in before :: after[k].key == before[k].key && after[k].spec == before[k].spec
  }

  lemma {:induction false} WalkReadsDeclarations(before: Cluster, after: Cluster, fault: nat -> bool, i: nat,
      target: ObjectKey, current: Group, current': Group, visited: set<string>)
    requires SameDeclarations(before, after) && current'.key == current.key && current'.spec == current.spec
    ensures Walk(before, fault, i, target, current, visited) == Walk(after, fault, i, target, current', visited)
    decreases |Unvisited(before, current, visited)|
  {
    if HasParent(current) && VisitKey(current) !in visited && ParentKey(current) in before {
      UnvisitedShrinks(before, current, visited);
      WalkReadsDeclarations(before, after, fault, i + 1, target, before[ParentKey(current)], after[ParentKey(current)],
          visited + {VisitKey(current)});
    }
  }

  /** The verdict depends on the declarations only. */
  lemma ValidateReadsDeclarations(before: Cluster, after: Cluster, fault: nat -> bool, group: ObjectKey,
                                  parent: ObjectKey)
    requires SameDeclarations(before, after) && group in before && parent in before
    ensures Validate(after, fault, after[group], after[parent])
         == Validate(before, fault, before[group], before[parent])
  {
    WalkReadsDeclarations(before, after, fault, 0, before[group].key, before[parent], after[parent], {});
  }

  // The group n links above g, or None when the chain has ended before that.
  function Ancestor(cluster: Cluster, g: Group, n: nat): Option<Group>
    decreases n
  {
    if n == 0 then Some(g)
    else match Next(cluster, g)
      case None => None
      case Some(h) => Ancestor(cluster, h, n - 1)
  }

  predicate Reaches(cluster: Cluster, g: Group, n: nat, key: ObjectKey) {
    Ancestor(cluster, g, n).Some? && Ancestor(cluster, g, n).value.key == key
  }

  ghost predicate NeverEnds(cluster: Cluster, g: Group) {
    forall n: nat :: Ancestor(cluster, g, n).Some?
  }

  ghost predicate EndsAt(cluster: Cluster, g: Group, n: nat) {
    Ancestor(cluster, g, n).Some? && Ancestor(cluster, g, n + 1).None?
  }

  // No group among the first n + 1 of the chain refers to `target`, and their visit keys are new.
  ghost predicate Unmarked(cluster: Cluster, g: Group, n: nat, target: ObjectKey, visited: set<string>) {
    forall i: nat | i <= n && Ancestor(cluster, g, i).Some? && HasParent(Ancestor(cluster, g, i).value) ::
      ParentKey(Ancestor(cluster, g, i).value) != target && VisitKey(Ancestor(cluster, g, i).value) !in visited
  }

  ghost predicate SameVisitKey(cluster: Cluster, g: Group, i: nat, j: nat) {
    && Ancestor(cluster, g, i).Some? && HasParent(Ancestor(cluster, g, i).value)
    && Ancestor(cluster, g, j).Some? && HasParent(Ancestor(cluster, g, j).value)
    && VisitKey(Ancestor(cluster, g, i).value) == VisitKey(Ancestor(cluster, g, j).value)
  }

  ghost predicate DistinctVisitKeys(cluster: Cluster, g: Group, n: nat) {
    forall i: nat, j: nat | i < j <= n :: !SameVisitKey(cluster, g, i, j)
  }

  // The chain from g ends, never refers to `target` and never uses a visit key twice.
  ghost predicate CleanEnd(cluster: Cluster, g: Group, target: ObjectKey, visited: set<string>) {
    exists n: nat ::
      EndsAt(cluster, g, n) && Unmarked(cluster, g, n, target, visited) && DistinctVisitKeys(cluster, g, n)
  }

  ghost predicate FaultFree(fault: nat -> bool) {
    forall i: nat :: !fault(i)
  }

  lemma StepUp(cluster: Cluster, a: Group)
    ensures Ancestor(cluster, a, 1) == Next(cluster, a)
  {
    match Next(cluster, a)
    case None =>
    case Some(h) => assert Ancestor(cluster, h, 0) == Some(h);
  }

  lemma {:induction false} AncestorAdds(cluster: Cluster, g: Group, m: nat, n: nat)
    requires Ancestor(cluster, g, m).Some?
    ensures Ancestor(cluster, g, m + n) == Ancestor(cluster, Ancestor(cluster, g, m).value, n)
    decreases m
  {
    if m > 0 {
      AncestorAdds(cluster, Next(cluster, g).value, m - 1, n);
    }
  }

  lemma {:induction false} AncestorPrefix(cluster: Cluster, g: Group, m: nat, n: nat)
    requires m <= n && Ancestor(cluster, g, n).Some?
    ensures Ancestor(cluster, g, m).Some?
    decreases m
  {
    if m > 0 {
      AncestorPrefix(cluster, Next(cluster, g).value, m - 1, n - 1);
    }
  }

  // A chain that meets the same group twice goes round for ever.
  lemma RepeatNeverEnds(cluster: Cluster, g: Group, i: nat, j: nat)
    requires i < j && Ancestor(cluster, g, i).Some? && Ancestor(cluster, g, i) == Ancestor(cluster, g, j)
    ensures NeverEnds(cluster, g)
  {
    forall n: nat ensures Ancestor(cluster, g, n).Some? {
      RepeatReaches(cluster, g, i, j, n);
    }
  }

  lemma {:induction false} RepeatReaches(cluster: Cluster, g: Group, i: nat, j: nat, n: nat)
    requires i < j && Ancestor(cluster, g, i).Some? && Ancestor(cluster, g, i) == Ancestor(cluster, g, j)
    ensures Ancestor(cluster, g, n).Some?
    decreases n
  {
    if n <= j {
      AncestorPrefix(cluster, g, n, j);
    } else {
      RepeatReaches(cluster, g, i, j, n - (j - i));
      AncestorAdds(cluster, g, j, n - j);
      AncestorAdds(cluster, g, i, n - j);
    }
  }

  /** The verdict of a fault-free walk on every store, cyclic or not: it accepts exactly the chains that
      end, never refer to the target and never repeat a visit key. */
  lemma {:induction false} WalkExact(cluster: Cluster, fault: nat -> bool, i: nat, target: ObjectKey,
                                     current: Group, visited: set<string>)
    requires FaultFree(fault)
    ensures Walk(cluster, fault, i, target, current, visited) == Accepted
       <==> CleanEnd(cluster, current, target, visited)
    decreases |Unvisited(cluster, current, visited)|
  {
    assert Ancestor(cluster, current, 0) == Some(current);
    if !HasParent(current) {
      assert EndsAt(cluster, current, 0);
    } else if VisitKey(current) in visited || ParentKey(current) == target {
    } else if ParentKey(current) !in cluster {
      assert EndsAt(cluster, current, 0);
      assert Unmarked(cluster, current, 0, target, visited);
      assert DistinctVisitKeys(cluster, current, 0);
    } else {
      var above := cluster[ParentKey(current)];
      var seen := visited + {VisitKey(current)};
      UnvisitedShrinks(cluster, current, visited);
      WalkExact(cluster, fault, i + 1, target, above, seen);
      WalkExtend(cluster, target, current, visited);
    }
  }

  // One link of WalkExact: a clean chain above `current` is a clean chain from `current`, and back.
  lemma WalkExtend(cluster: Cluster, target: ObjectKey, current: Group, visited: set<string>)
    requires HasParent(current) && VisitKey(current) !in visited && ParentKey(current) != target
    requires ParentKey(current) in cluster
    ensures CleanEnd(cluster, current, target, visited)
       <==> CleanEnd(cluster, cluster[ParentKey(current)], target, visited + {VisitKey(current)})
  {
    var above := cluster[ParentKey(current)];
    var seen := visited + {VisitKey(current)};
    forall n: nat ensures Ancestor(cluster, current, n + 1) == Ancestor(cluster, above, n) {}
    if n: nat :| EndsAt(cluster, current, n) && Unmarked(cluster, current, n, target, visited)
                 && DistinctVisitKeys(cluster, current, n) {
      assert n > 0 by { StepUp(cluster, current); }
      assert EndsAt(cluster, above, n - 1);
      forall i: nat | i <= n - 1 && Ancestor(cluster, above, i).Some? && HasParent(Ancestor(cluster, above, i).value)
        ensures ParentKey(Ancestor(cluster, above, i).value) != target
        ensures VisitKey(Ancestor(cluster, above, i).value) !in seen
      {
        assert Ancestor(cluster, current, i + 1) == Ancestor(cluster, above, i);
        assert !SameVisitKey(cluster, current, 0, i + 1);
      }
      forall i: nat, j: nat | i < j <= n - 1 ensures !SameVisitKey(cluster, above, i, j) {
        assert !SameVisitKey(cluster, current, i + 1, j + 1);
      }
    }
    if n: nat :| EndsAt(cluster, above, n) && Unmarked(cluster, above, n, target, seen)
                 && DistinctVisitKeys(cluster, above, n) {
      assert EndsAt(cluster, current, n + 1);
      forall i: nat | i <= n + 1 && Ancestor(cluster, current, i).Some?
          && HasParent(Ancestor(cluster, current, i).value)
        ensures ParentKey(Ancestor(cluster, current, i).value) != target
        ensures VisitKey(Ancestor(cluster, current, i).value) !in visited
      {
        if i > 0 {
          assert Ancestor(cluster, current, i) == Ancestor(cluster, above, i - 1);
        }
      }
      forall i: nat, j: nat | i < j <= n + 1 ensures !SameVisitKey(cluster, current, i, j) {
        assert Ancestor(cluster, current, j) == Ancestor(cluster, above, j - 1);
        if i > 0 {
          assert !SameVisitKey(cluster, above, i - 1, j - 1);
        }
      }
    }
  }

  /** Even with failing fetches, an accepted parent has a chain that ends and never reaches the group. */
  lemma {:induction false} WalkSound(cluster: Cluster, fault: nat -> bool, i: nat, target: ObjectKey,
                                     current: Group, visited: set<string>)
    requires KeysAgree(cluster)
    requires Walk(cluster, fault, i, target, current, visited) == Accepted
    ensures !NeverEnds(cluster, current)
    ensures forall n: nat | n > 0 :: !Reaches(cluster, current, n, target)
    decreases |Unvisited(cluster, current, visited)|
  {
    if !HasParent(current) || ParentKey(current) !in cluster {
      assert Ancestor(cluster, current, 1).None?;
    } else {
      var above := cluster[ParentKey(current)];
      UnvisitedShrinks(cluster, current, visited);
      WalkSound(cluster, fault, i + 1, target, above, visited + {VisitKey(current)});
      var n: nat :| Ancestor(cluster, above, n).None?;
      assert Ancestor(cluster, current, n + 1).None?;
      forall n: nat | n > 0 ensures !Reaches(cluster, current, n, target) {
        assert Ancestor(cluster, current, n) == Ancestor(cluster, above, n - 1);
        assert Ancestor(cluster, above, 0) == Some(above);
        assert n > 1 ==> !Reaches(cluster, above, n - 1, target);
      }
    }
  }

  lemma ValidateSound(cluster: Cluster, fault: nat -> bool, group: Group, parent: Group)
    requires KeysAgree(cluster)
    requires Validate(cluster, fault, group, parent) == Accepted
    ensures !NeverEnds(cluster, parent)
    ensures forall n: nat :: !Reaches(cluster, parent, n, group.key)
  {
    WalkSound(cluster, fault, 0, group.key, parent, {});
    assert Ancestor(cluster, parent, 0) == Some(parent);
  }

  // The call resolveParentGroup makes: both groups are stored, and the parent is the one the group refers to.
  ghost predicate Proposed(cluster: Cluster, group: Group, parent: Group) {
    && KeysAgree(cluster)
    && group.key in cluster && cluster[group.key] == group
    && parent.key in cluster && cluster[parent.key] == parent
    && Link(group) == Some(parent.key)
  }

  // Two references on the chain share a visit key but lead to different groups.
  ghost predicate KeyClash(cluster: Cluster, g: Group) {
    exists i: nat, j: nat :: i < j && SameVisitKey(cluster, g, i, j)
      && ParentKey(Ancestor(cluster, g, i).value) != ParentKey(Ancestor(cluster, g, j).value)
  }

  lemma {:induction false} EndsSomewhere(cluster: Cluster, g: Group, n: nat) returns (m: nat)
    requires Ancestor(cluster, g, n).None?
    ensures m < n && EndsAt(cluster, g, m)
  {
    if Ancestor(cluster, g, n - 1).Some? {
      m := n - 1;
    } else {
      m := EndsSomewhere(cluster, g, n - 1);
    }
  }

  // On a chain that ends, two references to the same group cannot occur.
  lemma EndingChainNoRepeat(cluster: Cluster, g: Group, n: nat, i: nat, j: nat)
    requires EndsAt(cluster, g, n) && i < j
    requires SameVisitKey(cluster, g, i, j)
    ensures ParentKey(Ancestor(cluster, g, i).value) != ParentKey(Ancestor(cluster, g, j).value)
  {
    if ParentKey(Ancestor(cluster, g, i).value) == ParentKey(Ancestor(cluster, g, j).value) {
      AncestorPrefix(cluster, g, i + 1, j);
      AncestorAdds(cluster, g, i, 1);
      AncestorAdds(cluster, g, j, 1);
      var a, b := Ancestor(cluster, g, i).value, Ancestor(cluster, g, j).value;
      assert Ancestor(cluster, a, 1) == Next(cluster, a) by { StepUp(cluster, a); }
      assert Ancestor(cluster, b, 1) == Next(cluster, b) by { StepUp(cluster, b); }
      assert Ancestor(cluster, g, i + 1) == Ancestor(cluster, g, j + 1);
      RepeatNeverEnds(cluster, g, i + 1, j + 1);
      assert false;
    }
  }

  /** When a fault-free walk is exact: it rejects just the proposals whose link would never end,
      unless the chain ends and two of its references clash on the visit key. */
  lemma ValidateExactUnlessClash(cluster: Cluster, fault: nat -> bool, group: Group, parent: Group)
    requires Proposed(cluster, group, parent) && FaultFree(fault)
    ensures (Validate(cluster, fault, group, parent) != Accepted <==> NeverEnds(cluster, group))
       <==> (NeverEnds(cluster, group) || !KeyClash(cluster, parent))
  {
    assert Next(cluster, group) == Some(parent);
    assert forall n: nat :: Ancestor(cluster, group, n + 1) == Ancestor(cluster, parent, n);
    if NeverEnds(cluster, group) {
      forall n: nat ensures Ancestor(cluster, parent, n).Some? {
        assert Ancestor(cluster, group, n + 1).Some?;
      }
      assert NeverEnds(cluster, parent);
      if Validate(cluster, fault, group, parent) == Accepted {
        ValidateSound(cluster, fault, group, parent);
      }
    } else {
      var n: nat :| Ancestor(cluster, group, n).None?;
      assert n > 0;
      assert Ancestor(cluster, parent, n - 1).None?;
      var end := EndsSomewhere(cluster, parent, n - 1);
      EndingChainMissesGroup(cluster, group, parent, end);
      EndingChainVerdict(cluster, fault, group, parent, end);
    }
  }

  lemma EndingChainMissesGroup(cluster: Cluster, group: Group, parent: Group, end: nat)
    requires Proposed(cluster, group, parent) && EndsAt(cluster, parent, end)
    ensures group.key != parent.key
    ensures Unmarked(cluster, parent, end, group.key, {})
  {
    assert Next(cluster, group) == Some(parent);
    assert forall n: nat :: Ancestor(cluster, group, n + 1) == Ancestor(cluster, parent, n);
    if group.key == parent.key {
      assert false;
    }
    forall i: nat | i <= end && Ancestor(cluster, parent, i).Some? && HasParent(Ancestor(cluster, parent, i).value)
      ensures ParentKey(Ancestor(cluster, parent, i).value) != group.key
    {
      var a := Ancestor(cluster, parent, i).value;
      if ParentKey(a) == group.key {
        StepUp(cluster, a);
        AncestorAdds(cluster, parent, i, 1);
        AncestorAdds(cluster, parent, i + 1, 1);
        StepUp(cluster, group);
        assert Ancestor(cluster, parent, i + 2) == Some(parent) == Ancestor(cluster, parent, 0);
        RepeatNeverEnds(cluster, parent, 0, i + 2);
        assert false;
      }
    }
  }

  lemma EndingChainVerdict(cluster: Cluster, fault: nat -> bool, group: Group, parent: Group, end: nat)
    requires Proposed(cluster, group, parent) && FaultFree(fault) && EndsAt(cluster, parent, end)
    requires group.key != parent.key && Unmarked(cluster, parent, end, group.key, {})
    ensures Validate(cluster, fault, group, parent) == Accepted <==> !KeyClash(cluster, parent)
  {
    WalkExact(cluster, fault, 0, group.key, parent, {});
    if KeyClash(cluster, parent) {
      var i: nat, j: nat :| i < j && SameVisitKey(cluster, parent, i, j);
      forall n: nat | EndsAt(cluster, parent, n) ensures !DistinctVisitKeys(cluster, parent, n) {
        if n < j {
          AncestorPrefix(cluster, parent, n + 1, j);
        }
        assert SameVisitKey(cluster, parent, i, j);
      }
    } else {
      forall i: nat, j: nat | i < j <= end ensures !SameVisitKey(cluster, parent, i, j) {
        if SameVisitKey(cluster, parent, i, j) {
          EndingChainNoRepeat(cluster, parent, end, i, j);
          assert false;
        }
      }
    }
  }

  // Every reference on the chain stays in its own namespace, and namespaces are DNS labels (no '/').
  ghost predicate OwnNamespaces(cluster: Cluster, g: Group) {
    forall n: nat | Ancestor(cluster, g, n).Some? && HasParent(Ancestor(cluster, g, n).value) ::
      var a := Ancestor(cluster, g, n).value;
      ParentKey(a).namespace == a.key.namespace && '/' !in a.key.namespace
  }

  /** Within one namespace the walk is exact: it rejects exactly when following the proposed link never ends. */
  lemma ValidateExactInOwnNamespaces(cluster: Cluster, fault: nat -> bool, group: Group, parent: Group)
    requires Proposed(cluster, group, parent) && FaultFree(fault)
    requires OwnNamespaces(cluster, parent)
    ensures Validate(cluster, fault, group, parent) != Accepted <==> NeverEnds(cluster, group)
  {
    if KeyClash(cluster, parent) {
      var i: nat, j: nat :| i < j && SameVisitKey(cluster, parent, i, j) &&
        ParentKey(Ancestor(cluster, parent, i).value) != ParentKey(Ancestor(cluster, parent, j).value);
      var a, b := Ancestor(cluster, parent, i).value, Ancestor(cluster, parent, j).value;
      SplitAtFirst(a.key.namespace, a.spec.parent.value.name, b.key.namespace, b.spec.parent.value.name, '/');
      assert false;
    }
    ValidateExactUnlessClash(cluster, fault, group, parent);
  }

  function Plain(namespace: string, name: string, parent: Option<GroupRef>): Group {
    Group(ObjectKey(namespace, name), GroupSpec("realm", name, parent, NilSlice, NilMap, NilMap), {}, EMPTY_STATUS, 1)
  }

  /** The hypothesis is needed: x/g -> a/p -> b/x -> a/q -> c/x ends at a root, yet it is rejected,
      because a/p -> b/x and a/q -> c/x are both recorded as "a/x". */
  lemma CrossNamespaceChainRejected() returns (cluster: Cluster, group: Group, parent: Group)
    ensures Proposed(cluster, group, parent)
    ensures Ancestor(cluster, group, 5).None?
    ensures forall fault: nat -> bool | FaultFree(fault) :: Validate(cluster, fault, group, parent) == VisitedTwice
  {
    group := Plain("x", "g", Some(GroupRef("p", "a")));
    parent := Plain("a", "p", Some(GroupRef("x", "b")));
    var third := Plain("b", "x", Some(GroupRef("q", "a")));
    var fourth := Plain("a", "q", Some(GroupRef("x", "c")));
    var root := Plain("c", "x", None);
    cluster := map[group.key := group, parent.key := parent, third.key := third, fourth.key := fourth,
        root.key := root];
    assert Ancestor(cluster, root, 1).None?;
    assert Ancestor(cluster, fourth, 2).None?;
    assert Ancestor(cluster, third, 3).None?;
    assert Ancestor(cluster, parent, 4).None?;
    var k1, k2 := VisitKey(parent), VisitKey(third);
    assert k1 == "a/x" && k2 == "b/q" && VisitKey(fourth) == "a/x";
    forall fault: nat -> bool | FaultFree(fault)
      ensures Validate(cluster, fault, group, parent) == VisitedTwice
    {
      assert Walk(cluster, fault, 2, group.key, fourth, {k1} + {k2}) == VisitedTwice;
      assert {} + {k1} == {k1};
      assert k2[0] != k1[0];
      assert Walk(cluster, fault, 1, group.key, third, {k1}) == VisitedTwice;
      assert Walk(cluster, fault, 0, group.key, parent, {}) == VisitedTwice;
    }
  }
}
