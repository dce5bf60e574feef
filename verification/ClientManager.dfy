/** The connection cache: its two operations as the code has them, and the same operations as lock steps of any
    number of interleaved callers. */
module ClientManager {
  import opened Common
  import opened ClientKeys

  // A Keycloak client: the config it was created from, and which creation it came from.
  datatype Connection = Connection(config: Config, serial: nat)

  type Cache = map<string, Connection>

  // The cache after an operation on c has walked over all its keys.
  function Evicted(clients: Cache, c: Config): Cache {
    map key | key in clients && !(Prefix(c) <= key) :: clients[key]
  }

  // What GetOrCreateClient leaves behind; `made` is the outcome of creating a connection.
  function AfterOpen(clients: Cache, c: Config, made: Option<Connection>): Cache {
    if Key(c) in clients then clients
    else if made.None? then Evicted(clients, c)
    else Evicted(clients, c)[Key(c) := made.value]
  }

  // Every entry was created from an admitted config with exactly its key; one entry for each (namespace, name).
  ghost predicate Sound(clients: Cache) {
    && (forall key | key in clients :: Admitted(clients[key].config) && Key(clients[key].config) == key)
    && (forall j, k | j in clients && k in clients
          && clients[j].config.namespace == clients[k].config.namespace
          && clients[j].config.name == clients[k].config.name :: j == k)
  }

  lemma EvictedSound(clients: Cache, c: Config)
    requires Sound(clients)
    ensures Sound(Evicted(clients, c))
  {
  }

  // A prefix with no match leaves room for an entry.
  lemma InsertSound(clients: Cache, c: Config, conn: Connection)
    requires Sound(clients) && Admitted(c) && conn.config == c
    requires forall key | key in clients :: !(Prefix(c) <= key)
    ensures Sound(clients[Key(c) := conn])
  {
    forall key | key in clients
      ensures clients[key].config.namespace != c.namespace || clients[key].config.name != c.name
    {
      PrefixExact(c, clients[key].config);
    }
  }

  /** Both operations keep the cache sound, and describe exactly which other configs lose their connection. */
  lemma OperationsKeepSound(clients: Cache, c: Config, made: Option<Connection>)
    requires Sound(clients) && Admitted(c) && (made.Some? ==> made.value.config == c)
    ensures Sound(AfterOpen(clients, c, made)) && Sound(Evicted(clients, c))
    ensures forall key | key in clients ::
      key !in Evicted(clients, c) <==>
      clients[key].config.namespace == c.namespace && SameOrExtends(c.name, clients[key].config.name)
    ensures forall key | key in clients ::
      key !in AfterOpen(clients, c, made) <==>
      Key(c) !in clients
      && clients[key].config.namespace == c.namespace && SameOrExtends(c.name, clients[key].config.name)
    ensures forall key | key in AfterOpen(clients, c, made) ::
      if key in clients then AfterOpen(clients, c, made)[key] == clients[key]
      else key == Key(c) && Some(AfterOpen(clients, c, made)[key]) == made
    ensures made.Some? ==> Key(c) in AfterOpen(clients, c, made)
  {
    EvictedSound(clients, c);
    if made.Some? {
      InsertSound(Evicted(clients, c), c, made.value);
    }
    forall key | key in clients
      ensures key !in Evicted(clients, c) <==>
        clients[key].config.namespace == c.namespace && SameOrExtends(c.name, clients[key].config.name)
    {
      PrefixExact(c, clients[key].config);
    }
  }

  /** The manager of a single caller. Go's map iteration hands out the keys in the order `keys`. */
  class Manager {
    var clients: Cache
    var created: nat

    constructor ()
      ensures clients == map[] && created == 0
    {
      clients, created := map[], 0;
    }

    // createKeycloakClient: logs in, which may fail.
    method CreateKeycloakClient(config: Config) returns (made: Option<Connection>)
      modifies this`created
      ensures made.None? ==> created == old(created)
      ensures made.Some? ==> made.value == Connection(config, old(created)) && created == old(created) + 1
    {
      var reachable: bool := *;
      if reachable {
        made := Some(Connection(config, created));
        created := created + 1;
      } else {
        made := None;
      }
    }

    method GetOrCreateClient(config: Config, keys: seq<string>) returns (client: Option<Connection>)
      requires forall key :: key in keys <==> key in clients
      modifies this
      ensures old(Key(config) in clients) ==> client == Some(old(clients)[Key(config)]) && created == old(created)
      ensures old(Key(config) !in clients) ==>
        client == (if created == old(created) then None else Some(Connection(config, old(created))))
      ensures clients == AfterOpen(old(clients), config, client)
      ensures created <= old(created) + 1
    {
      var key := Key(config);
      if key in clients {
        return Some(clients[key]);
      }
      var prefix := Prefix(config);
      for i := 0 to |keys|
        invariant created == old(created)
        invariant forall k | k in clients :: k in old(clients) && clients[k] == old(clients)[k]
        invariant forall k | k in old(clients) :: k in clients <==> (!(prefix <= k) || k !in keys[..i])
      {
        if prefix <= keys[i] && keys[i] != key {
          clients := clients - {keys[i]};
        }
      }
      assert keys[..|keys|] == keys;
      assert clients == Evicted(old(clients), config);
      client := CreateKeycloakClient(config);
      if client.Some? {
        clients := clients[key := client.value];
      }
    }

    method RemoveClient(config: Config, keys: seq<string>)
      requires forall key :: key in keys <==> key in clients
      modifies this`clients
      ensures clients == Evicted(old(clients), config)
    {
      var prefix := Prefix(config);
      for i := 0 to |keys|
        invariant forall k | k in clients :: k in old(clients) && clients[k] == old(clients)[k]
        invariant forall k | k in old(clients) :: k in clients <==> (!(prefix <= k) || k !in keys[..i])
      {
        if prefix <= keys[i] {
          clients := clients - {keys[i]};
        }
      }
      assert keys[..|keys|] == keys;
    }
  }

  // ---- Interleaved callers ----

  // Where a caller is. `before` remembers the cache at the moment the write lock was taken.
  datatype Caller =
    | Outside
    | Reading(config: Config)
    | WantsOpen(config: Config)
    | Checking(config: Config, before: Cache)
    | Evicting(config: Config, before: Cache, left: set<string>)
    | Creating(config: Config, before: Cache)
    | WantsRemove(config: Config)
    | Removing(config: Config, before: Cache, left: set<string>)
    | Got(config: Config, client: Connection)
    | GotError(config: Config)

  predicate Writes(caller: Caller) {
    caller.Checking? || caller.Evicting? || caller.Creating? || caller.Removing?
  }

  datatype System = System(clients: Cache, readers: set<nat>, writer: Option<nat>, callers: map<nat, Caller>,
      created: nat)

  // What a step may choose: which operation to begin, which key comes next, whether creating succeeds.
  datatype Choice = Open(config: Config) | Remove(config: Config) | Visit(key: string) | Outcome(success: bool) | Go

  function Advance(s: System, t: nat, choice: Choice): Option<System> {
    var caller := if t in s.callers then s.callers[t] else Outside;
    match caller
    case Outside =>
      if choice.Open? && Admitted(choice.config) && s.writer.None? then
        Some(s.(readers := s.readers + {t}, callers := s.callers[t := Reading(choice.config)]))
      else if choice.Remove? && Admitted(choice.config) then
        Some(s.(callers := s.callers[t := WantsRemove(choice.config)]))
      else None
    case Reading(c) =>
      var unlocked := s.(readers := s.readers - {t});
      if Key(c) in s.clients then
        Some(unlocked.(callers := s.callers[t := Got(c, s.clients[Key(c)])]))
      else Some(unlocked.(callers := s.callers[t := WantsOpen(c)]))
    case WantsOpen(c) =>
      if s.writer.Some? || s.readers != {} then None
      else Some(s.(writer := Some(t), callers := s.callers[t := Checking(c, s.clients)]))
    case Checking(c, before) =>
      if Key(c) in s.clients then
        Some(s.(writer := None, callers := s.callers[t := Got(c, s.clients[Key(c)])]))
      else Some(s.(callers := s.callers[t := Evicting(c, before, s.clients.Keys)]))
    case Evicting(c, before, left) =>
      if left == {} then Some(s.(callers := s.callers[t := Creating(c, before)]))
      else if !choice.Visit? || choice.key !in left then None
      else
        var clients' := if Prefix(c) <= choice.key && choice.key != Key(c) then s.clients - {choice.key} else s.clients;
        Some(s.(clients := clients', callers := s.callers[t := Evicting(c, before, left - {choice.key})]))
    case Creating(c, before) =>
      if !choice.Outcome? then None
      else if !choice.success then Some(s.(writer := None, callers := s.callers[t := GotError(c)]))
      else
        var client := Connection(c, s.created);
        Some(s.(clients := s.clients[Key(c) := client], writer := None, created := s.created + 1,
                callers := s.callers[t := Got(c, client)]))
    case WantsRemove(c) =>
      if s.writer.Some? || s.readers != {} then None
      else Some(s.(writer := Some(t), callers := s.callers[t := Removing(c, s.clients, s.clients.Keys)]))
    case Removing(c, before, left) =>
      if left == {} then Some(s.(writer := None, callers := s.callers[t := Outside]))
      else if !choice.Visit? || choice.key !in left then None
      else
        var clients' := if Prefix(c) <= choice.key then s.clients - {choice.key} else s.clients;
        Some(s.(clients := clients', callers := s.callers[t := Removing(c, before, left - {choice.key})]))
    case Got(_, _) => Some(s.(callers := s.callers[t := Outside]))
    case GotError(_) => Some(s.(callers := s.callers[t := Outside]))
  }

  ghost predicate Locking(s: System) {
    && (forall t | t in s.readers :: t in s.callers && s.callers[t].Reading?)
    && (forall t | t in s.callers && s.callers[t].Reading? :: t in s.readers)
    && (forall t | t in s.callers && Writes(s.callers[t]) :: s.writer == Some(t))
    && (s.writer.Some? ==> s.writer.value in s.callers && Writes(s.callers[s.writer.value]) && s.readers == {})
  }

  // The part of `before` an eviction pass has not removed yet.
  predicate PartlyEvicted(clients: Cache, before: Cache, c: Config, left: set<string>) {
    && left <= before.Keys
    && (forall key | key in clients :: key in before && clients[key] == before[key])
    && (forall key | key in before :: key in clients <==> (!(Prefix(c) <= key) || key in left))
  }

  ghost predicate CallerOk(s: System, caller: Caller) {
    match caller
    case Outside => true
    case Checking(c, before) => Admitted(c) && before == s.clients
    case Evicting(c, before, left) =>
      Admitted(c) && Key(c) !in before && PartlyEvicted(s.clients, before, c, left)
    case Creating(c, before) => Admitted(c) && Key(c) !in before && s.clients == Evicted(before, c)
    case Removing(c, before, left) => Admitted(c) && PartlyEvicted(s.clients, before, c, left)
    case Got(c, client) => client.config == c
    case _ => Admitted(caller.config)
  }

  ghost predicate Invariant(s: System) {
    && Locking(s) && Sound(s.clients)
    && (forall t | t in s.callers :: CallerOk(s, s.callers[t]))
    && (forall key | key in s.clients :: s.clients[key].serial < s.created)
  }

  lemma AdvanceKeepsLocking(s: System, t: nat, choice: Choice)
    requires Locking(s) && Advance(s, t, choice).Some?
    ensures Locking(Advance(s, t, choice).value)
  {
  }

  // Only the holder of the write lock changes the cache.
  lemma OnlyWriterWrites(s: System, t: nat, choice: Choice)
    requires Locking(s) && Advance(s, t, choice).Some?
    ensures Advance(s, t, choice).value.clients == s.clients || s.writer == Some(t)
    ensures forall u | u in s.callers && u != t ::
      u in Advance(s, t, choice).value.callers && Advance(s, t, choice).value.callers[u] == s.callers[u]
  {
  }

  lemma HitReturnsOwnConfig(s: System, c: Config)
    requires Sound(s.clients) && Admitted(c) && Key(c) in s.clients
    ensures s.clients[Key(c)].config == c
  {
    KeyInjective(s.clients[Key(c)].config, c);
  }

  // One key of an eviction loop.
  lemma EvictOne(clients: Cache, before: Cache, c: Config, left: set<string>, key: string)
    requires PartlyEvicted(clients, before, c, left) && key in left
    ensures PartlyEvicted(if Prefix(c) <= key then clients - {key} else clients, before, c, left - {key})
    ensures Sound(clients) ==> Sound(if Prefix(c) <= key then clients - {key} else clients)
  {
  }

  lemma EvictingStep(s: System, t: nat, choice: Choice)
    requires Invariant(s) && Advance(s, t, choice).Some? && t in s.callers && s.callers[t].Evicting?
    ensures var s' := Advance(s, t, choice).value; Sound(s'.clients) && CallerOk(s', s'.callers[t])
  {
    var caller := s.callers[t];
    assert CallerOk(s, caller);
    if caller.left == {} {
      assert s.clients == Evicted(caller.before, caller.config);
    } else {
      EvictOne(s.clients, caller.before, caller.config, caller.left, choice.key);
    }
  }

  lemma RemovingStep(s: System, t: nat, choice: Choice)
    requires Invariant(s) && Advance(s, t, choice).Some? && t in s.callers && s.callers[t].Removing?
    ensures var s' := Advance(s, t, choice).value; Sound(s'.clients) && CallerOk(s', s'.callers[t])
  {
    var caller := s.callers[t];
    assert CallerOk(s, caller);
    if caller.left != {} {
      EvictOne(s.clients, caller.before, caller.config, caller.left, choice.key);
    }
  }

  lemma OtherStep(s: System, t: nat, choice: Choice)
    requires Invariant(s) && Advance(s, t, choice).Some?
    requires t in s.callers ==> !s.callers[t].Evicting? && !s.callers[t].Removing?
    ensures var s' := Advance(s, t, choice).value; Sound(s'.clients) && CallerOk(s', s'.callers[t])
  {
    if t in s.callers {
      var caller := s.callers[t];
      assert CallerOk(s, caller);
      if caller.Creating? {
        InsertSound(s.clients, caller.config, Connection(caller.config, s.created));
      }
      if (caller.Reading? || caller.Checking?) && Key(caller.config) in s.clients {
        HitReturnsOwnConfig(s, caller.config);
      }
    }
  }

  // A caller's own knowledge survives the steps of others.
  lemma OthersStayOk(s: System, t: nat, choice: Choice, u: nat)
    requires Invariant(s) && Advance(s, t, choice).Some? && u in s.callers && u != t
    ensures u in Advance(s, t, choice).value.callers
    ensures CallerOk(Advance(s, t, choice).value, Advance(s, t, choice).value.callers[u])
  {
    OnlyWriterWrites(s, t, choice);
    hide Advance;
    assert CallerOk(s, s.callers[u]);
  }

  lemma SerialsStayOld(s: System, t: nat, choice: Choice)
    requires Invariant(s) && Advance(s, t, choice).Some?
    ensures var s' := Advance(s, t, choice).value; forall key | key in s'.clients :: s'.clients[key].serial < s'.created
  {
  }

  lemma AdvanceKeepsInvariant(s: System, t: nat, choice: Choice)
    requires Invariant(s) && Advance(s, t, choice).Some?
    ensures Invariant(Advance(s, t, choice).value)
  {
    var s' := Advance(s, t, choice).value;
    AdvanceKeepsLocking(s, t, choice);
    SerialsStayOld(s, t, choice);
    if t in s.callers && s.callers[t].Evicting? {
      EvictingStep(s, t, choice);
    } else if t in s.callers && s.callers[t].Removing? {
      RemovingStep(s, t, choice);
    } else {
      OtherStep(s, t, choice);
    }
    CallersListed(s, t, choice);
    hide Advance;
    forall u | u in s'.callers ensures CallerOk(s', s'.callers[u]) {
      if u != t {
        OthersStayOk(s, t, choice, u);
      }
    }
  }

  lemma CallersListed(s: System, t: nat, choice: Choice)
    requires Advance(s, t, choice).Some?
    ensures forall u | u in Advance(s, t, choice).value.callers :: u == t || u in s.callers
  {
  }

  ghost predicate Trace(states: seq<System>, moves: seq<(nat, Choice)>) {
    && |states| == |moves| + 1
    && states[0] == System(map[], {}, None, map[], 0)
    && forall i | 0 <= i < |moves| :: Advance(states[i], moves[i].0, moves[i].1) == Some(states[i + 1])
  }

  /** In every state of every interleaving: at most one writer and no reader beside it, every entry created from a
      config with exactly its key, at most one entry for each (namespace, name), and callers get the connection of
      their own config. */
  lemma {:induction false} TraceInvariant(states: seq<System>, moves: seq<(nat, Choice)>, n: nat)
    requires Trace(states, moves) && n < |states|
    ensures Invariant(states[n])
    decreases n
  {
    if n > 0 {
      TraceInvariant(states, moves, n - 1);
      assert Advance(states[n - 1], moves[n - 1].0, moves[n - 1].1) == Some(states[n]);
      AdvanceKeepsInvariant(states[n - 1], moves[n - 1].0, moves[n - 1].1);
    }
  }

  /** No second connection is created for a key while its entry is present: a step that creates one finds no
      entry for the key, nor any other entry for that namespace and name. */
  lemma NoDuplicateCreation(states: seq<System>, moves: seq<(nat, Choice)>, n: nat)
    requires Trace(states, moves) && n < |moves| && states[n + 1].created != states[n].created
    ensures var s, t := states[n], moves[n].0;
      t in s.callers && s.callers[t].Creating? && Key(s.callers[t].config) !in s.clients
      && (forall key | key in s.clients ::
            s.clients[key].config.namespace != s.callers[t].config.namespace
            || s.clients[key].config.name != s.callers[t].config.name)
      && states[n + 1].clients == s.clients[Key(s.callers[t].config) := Connection(s.callers[t].config, s.created)]
  {
    TraceInvariant(states, moves, n);
    var s, t := states[n], moves[n].0;
    assert Advance(s, t, moves[n].1) == Some(states[n + 1]);
    var c := s.callers[t].config;
    assert CallerOk(s, s.callers[t]);
    forall key | key in s.clients
      ensures s.clients[key].config.namespace != c.namespace || s.clients[key].config.name != c.name
    {
      PrefixExact(c, s.clients[key].config);
    }
  }

  /** Every critical section is atomic: when the write lock is released, the cache is what the operation as a whole
      makes of the cache found when the lock was taken, and the caller has the matching result: the connection found
      then, or the one just created. */
  lemma CriticalSectionsAtomic(states: seq<System>, moves: seq<(nat, Choice)>, n: nat)
    requires Trace(states, moves) && n < |moves| && states[n].writer.Some? && states[n + 1].writer.None?
    ensures var s, s', t := states[n], states[n + 1], moves[n].0;
      t in s.callers && Writes(s.callers[t]) && t in s'.callers
      && var (c, before) := (s.callers[t].config, s.callers[t].before);
         match s'.callers[t]
         case Got(_, client) =>
           s'.clients == AfterOpen(before, c, Some(client))
           && client == (if Key(c) in before then before[Key(c)] else Connection(c, s.created))
         case GotError(_) => s'.clients == AfterOpen(before, c, None) == Evicted(before, c)
         case _ => s'.clients == Evicted(before, c)
  {
    TraceInvariant(states, moves, n);
    var s, t := states[n], moves[n].0;
    assert Advance(s, t, moves[n].1) == Some(states[n + 1]);
    assert CallerOk(s, s.callers[t]);
  }
}
