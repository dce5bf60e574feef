/** Values shared by the models of the group, client and connection-cache code. */
module Common {
  datatype Option<+T> = None | Some(value: T)

  // Identifiers Keycloak hands out; "" is Go's zero value and means "not tracked".
  type Uuid = string

  datatype ObjectKey = ObjectKey(namespace: string, name: string)

  /** A Go []string. Nil and empty slices differ under reflect.DeepEqual. */
  datatype Slice = NilSlice | Slice(items: seq<string>) {
    function Items(): seq<string> {
      if NilSlice? then [] else items
    }
  }

  /** A Go map[string][]string, again with nil kept apart from empty. */
  datatype SliceMap = NilMap | SliceMap(entries: map<string, Slice>) {
    function Entries(): map<string, Slice> {
      if NilMap? then map[] else entries
    }
  }

  predicate SlicesEqual(a: Slice, b: Slice) {
    (|a.Items()| == 0 && |b.Items()| == 0) || a == b
  }

  predicate SliceMapsEqual(a: SliceMap, b: SliceMap) {
    (|a.Entries()| == 0 && |b.Entries()| == 0) || a == b
  }

  // What the comparison decides: nil and empty are the same value, everything else is compared in full.
  lemma SlicesEqualMeaning(a: Slice, b: Slice)
    ensures SlicesEqual(a, b) <==> a.Items() == b.Items()
  {
    if |a.Items()| == 0 && |b.Items()| == 0 {
      assert a.Items() == b.Items();
    }
  }

  lemma SliceMapsEqualMeaning(a: SliceMap, b: SliceMap)
    ensures SliceMapsEqual(a, b) <==> a.Entries() == b.Entries()
  {
    if |a.Entries()| == 0 && |b.Entries()| == 0 {
      assert a.Entries() == b.Entries();
    }
  }

  lemma {:induction false} LengthsBounded(s: set<string>) returns (n: nat)
    ensures forall x | x in s :: |x| < n
    decreases |s|
  {
    n := 0;
    if x :| x in s {
      var m := LengthsBounded(s - {x});
      n := if |x| < m then m else |x| + 1;
    }
  }

  /** An unused identifier always exists. */
  lemma FreshIdExists(used: set<Uuid>)
    ensures exists id: Uuid :: id != "" && id !in used
  {
    var n := LengthsBounded(used);
    var id: Uuid := seq(n + 1, i => 'a');
    assert id != "" && id !in used;
  }

  // A mark that occurs in neither first part splits two equal strings in the same place.
  lemma SplitAtFirst(a: string, x: string, b: string, y: string, mark: char)
    requires a + [mark] + x == b + [mark] + y && mark !in a && mark !in b
    ensures a == b && x == y
  {
    var s, t := a + [mark] + x, b + [mark] + y;
    assert s[|a|] == mark && t[|b|] == mark;
    assert forall i | 0 <= i < |a| :: s[i] == a[i];
    assert forall i | 0 <= i < |b| :: t[i] == b[i];
    assert |a| == |b|;
    assert a == s[..|a|] == t[..|b|] == b;
    assert x == s[|a| + 1..] == t[|b| + 1..] == y;
  }
}
