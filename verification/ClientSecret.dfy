/** The Kubernetes secret that carries a confidential client's credentials (internal/controller/client/secret.go):
    what it should hold, when it counts as up to date, and what one synchronisation does. */
module ClientSecret {
  import opened Common
  import S = ClientStatus

  type Strings = map<string, string>

  // ClientSecretSpec; Go's nil maps and empty maps behave alike here.
  datatype SecretSpec = SecretSpec(createSecret: bool, name: string, namespace: string, labels: Strings,
      annotations: Strings)

  // The part of a Client resource that its secret depends on; `status` is what the object in memory says about it.
  datatype Owner = Owner(
    key: ObjectKey,
    clientId: string,
    realm: string,
    publicClient: bool,
    secret: Option<SecretSpec>,
    uuid: Uuid,
    status: Option<S.SecretStatus>)

  datatype InstanceConfig = InstanceConfig(url: string, basePath: string, ready: bool)

  // `others` stands for the type, the owner references and whatever else a secret carries.
  datatype Secret = Secret(data: Strings, labels: Strings, annotations: Strings, others: Strings)

  // What Keycloak reports about the client.
  datatype Reported = Reported(publicClient: bool, secret: string)

  datatype Outcome<T> = Ok(value: T) | Err(reason: string)

  // ---- What the secret should be ----

  function SecretKey(owner: Owner): ObjectKey {
    ObjectKey(
      if owner.secret.Some? && owner.secret.value.namespace != "" then owner.secret.value.namespace
      else owner.key.namespace,
      if owner.secret.Some? && owner.secret.value.name != "" then owner.secret.value.name
      else owner.key.name + "-client-secret")
  }

  function DefaultLabels(owner: Owner): Strings {
    map["app.kubernetes.io/name" := "keycloak-client",
        "app.kubernetes.io/instance" := owner.key.name,
        "app.kubernetes.io/managed-by" := "keycloak-operator",
        "app.kubernetes.io/version" := "v1alpha1",
        "app.kubernetes.io/component" := "client-secret",
        "app.kubernetes.io/part-of" := "keycloak"]
  }

  function DefaultAnnotations(owner: Owner): Strings {
    map["keycloak.org/client-name" := owner.key.name, "keycloak.org/realm" := owner.realm]
  }

  function UserLabels(owner: Owner): Strings {
    if owner.secret.Some? then owner.secret.value.labels else map[]
  }

  function UserAnnotations(owner: Owner): Strings {
    if owner.secret.Some? then owner.secret.value.annotations else map[]
  }

  function BaseUrl(config: InstanceConfig): string {
    if config.basePath != "" && config.basePath != "/" then config.url + config.basePath else config.url
  }

  const DATA_KEYS: set<string> := {
    "keycloak-url", "keycloak-realm", "keycloak-token-url", "keycloak-well-known", "client-id", "client-secret"}

  function DesiredData(owner: Owner, config: InstanceConfig, credential: string): Strings {
    map["keycloak-url" := BaseUrl(config),
        "keycloak-realm" := owner.realm,
        "keycloak-token-url" := BaseUrl(config) + "/realms/" + owner.realm + "/protocol/openid-connect/token",
        "keycloak-well-known" := BaseUrl(config) + "/realms/" + owner.realm + "/.well-known/openid-configuration",
        "client-id" := owner.clientId,
        "client-secret" := credential]
  }

  function Desired(owner: Owner, config: InstanceConfig, credential: string): Secret {
    Secret(DesiredData(owner, config, credential), DefaultLabels(owner) + UserLabels(owner),
           DefaultAnnotations(owner) + UserAnnotations(owner), map[])
  }

  /** User entries win over defaults, and nothing else gets in. */
  lemma UserEntriesWin(owner: Owner, config: InstanceConfig, credential: string, key: string)
    ensures var s := Desired(owner, config, credential);
      (key in UserLabels(owner) ==> key in s.labels && s.labels[key] == UserLabels(owner)[key])
      && (key in DefaultLabels(owner) && key !in UserLabels(owner) ==>
            key in s.labels && s.labels[key] == DefaultLabels(owner)[key])
      && (key in s.labels ==> key in UserLabels(owner) || key in DefaultLabels(owner))
    ensures var s := Desired(owner, config, credential);
      (key in UserAnnotations(owner) ==> key in s.annotations && s.annotations[key] == UserAnnotations(owner)[key])
      && (key in DefaultAnnotations(owner) && key !in UserAnnotations(owner) ==>
            key in s.annotations && s.annotations[key] == DefaultAnnotations(owner)[key])
      && (key in s.annotations ==> key in UserAnnotations(owner) || key in DefaultAnnotations(owner))
  {
    hide DefaultLabels, DefaultAnnotations;
  }

  // ---- When a stored secret is up to date ----

  // A missing key reads as the empty value.
  function ReadKey(data: Strings, key: string): string {
    if key in data then data[key] else ""
  }

  ghost predicate InSync(stored: Secret, desired: Secret) {
    && (forall key | key in desired.data :: ReadKey(stored.data, key) == desired.data[key])
    && stored.labels == desired.labels
    && stored.annotations == desired.annotations
  }

  /** With no empty value among the desired ones, an up-to-date secret holds every one of them. */
  lemma InSyncHoldsData(stored: Secret, desired: Secret, key: string)
    requires InSync(stored, desired) && key in desired.data && desired.data[key] != ""
    ensures key in stored.data && stored.data[key] == desired.data[key]
  {
    assert ReadKey(stored.data, key) == desired.data[key];
  }

  type Secrets = map<ObjectKey, Secret>

  // What a successful synchronisation leaves behind: keys of the data that nobody asked for go when something is
  // rewritten, and stay otherwise.
  ghost function Synced(secrets: Secrets, key: ObjectKey, desired: Secret, created: Secret): Secrets {
    if key !in secrets then secrets[key := created]
    else if InSync(secrets[key], desired) then secrets
    else secrets[key := secrets[key].(data := desired.data, labels := desired.labels,
        annotations := desired.annotations)]
  }

  /** Afterwards the secret is up to date, and doing it again changes nothing. */
  lemma SyncedIsStable(secrets: Secrets, key: ObjectKey, desired: Secret, created: Secret)
    requires created == desired.(others := created.others)
    ensures var after := Synced(secrets, key, desired, created);
      key in after && InSync(after[key], desired) && Synced(after, key, desired, created) == after
  {
  }

  lemma SyncedAlone(secrets: Secrets, key: ObjectKey, desired: Secret, created: Secret)
    ensures Synced(secrets, key, desired, created) - {key} == secrets - {key}
  {
  }

  // ---- What a stored secret tells, key by key ----

  predicate TellsCredentials(data: Strings, owner: Owner, config: InstanceConfig, credential: string) {
    var url, realm := ReadKey(data, "keycloak-url"), ReadKey(data, "keycloak-realm");
    && ReadKey(data, "client-id") == owner.clientId
    && ReadKey(data, "client-secret") == credential
    && realm == owner.realm
    && url == (if config.basePath in {"", "/"} then config.url else config.url + config.basePath)
    && ReadKey(data, "keycloak-token-url") == url + "/realms/" + realm + "/protocol/openid-connect/token"
    && ReadKey(data, "keycloak-well-known") == url + "/realms/" + realm + "/.well-known/openid-configuration"
  }

  // The entry is the user's if there is one, and the operator's otherwise.
  predicate Carries(entries: Strings, user: Strings, key: string, value: string) {
    key in entries && entries[key] == if key in user then user[key] else value
  }

  // The operator's six labels, with the user's, and no others.
  predicate Labelled(labels: Strings, owner: Owner, user: Strings) {
    && Carries(labels, user, "app.kubernetes.io/name", "keycloak-client")
    && Carries(labels, user, "app.kubernetes.io/instance", owner.key.name)
    && Carries(labels, user, "app.kubernetes.io/managed-by", "keycloak-operator")
    && Carries(labels, user, "app.kubernetes.io/version", "v1alpha1")
    && Carries(labels, user, "app.kubernetes.io/component", "client-secret")
    && Carries(labels, user, "app.kubernetes.io/part-of", "keycloak")
    && (forall key | key in user :: key in labels && labels[key] == user[key])
    && labels.Keys == user.Keys + {
         "app.kubernetes.io/name", "app.kubernetes.io/instance", "app.kubernetes.io/managed-by",
         "app.kubernetes.io/version", "app.kubernetes.io/component", "app.kubernetes.io/part-of"}
  }

  // Likewise its two annotations.
  predicate Annotated(annotations: Strings, owner: Owner, user: Strings) {
    && Carries(annotations, user, "keycloak.org/client-name", owner.key.name)
    && Carries(annotations, user, "keycloak.org/realm", owner.realm)
    && (forall key | key in user :: key in annotations && annotations[key] == user[key])
    && annotations.Keys == user.Keys + {"keycloak.org/client-name", "keycloak.org/realm"}
  }

  // The secret is stored where the user wants it, or next to the Client under its name and a suffix.
  predicate PlacedFor(key: ObjectKey, owner: Owner) {
    match owner.secret
    case None => key == ObjectKey(owner.key.namespace, owner.key.name + "-client-secret")
    case Some(spec) =>
      && key.namespace == (if spec.namespace == "" then owner.key.namespace else spec.namespace)
      && key.name == (if spec.name == "" then owner.key.name + "-client-secret" else spec.name)
  }

  // What the stored secrets are once the secret of this client is up to date.
  ghost predicate Published(secrets: Secrets, owner: Owner, config: InstanceConfig, credential: string) {
    exists key :: key in secrets && PlacedFor(key, owner)
      && TellsCredentials(secrets[key].data, owner, config, credential)
      && match owner.secret
         case None =>
           Labelled(secrets[key].labels, owner, map[]) && Annotated(secrets[key].annotations, owner, map[])
         case Some(spec) =>
           Labelled(secrets[key].labels, owner, spec.labels)
           && Annotated(secrets[key].annotations, owner, spec.annotations)
  }

  /** A secret that is up to date tells, key by key, what it is for. */
  lemma InSyncPublishes(secrets: Secrets, owner: Owner, config: InstanceConfig, credential: string)
    requires SecretKey(owner) in secrets
    requires InSync(secrets[SecretKey(owner)], Desired(owner, config, credential))
    ensures Published(secrets, owner, config, credential)
  {
    var s := secrets[SecretKey(owner)];
    InSyncTells(s, owner, config, credential);
    DefaultsLabel(s.labels, owner);
    DefaultsAnnotate(s.annotations, owner);
    hide Labelled, Annotated, TellsCredentials;
    assert PlacedFor(SecretKey(owner), owner);
  }

  lemma InSyncTells(s: Secret, owner: Owner, config: InstanceConfig, credential: string)
    requires InSync(s, Desired(owner, config, credential))
    ensures TellsCredentials(s.data, owner, config, credential)
    ensures s.labels == DefaultLabels(owner) + UserLabels(owner)
    ensures s.annotations == DefaultAnnotations(owner) + UserAnnotations(owner)
  {
    hide DefaultLabels, DefaultAnnotations;
    var data := DesiredData(owner, config, credential);
    DataKeys(owner, config, credential);
    assert forall key | key in DATA_KEYS :: ReadKey(s.data, key) == data[key];
  }

  lemma DefaultsLabel(labels: Strings, owner: Owner)
    requires labels == DefaultLabels(owner) + UserLabels(owner)
    ensures Labelled(labels, owner, UserLabels(owner))
  {
    hide UserLabels;
  }

  lemma DefaultsAnnotate(annotations: Strings, owner: Owner)
    requires annotations == DefaultAnnotations(owner) + UserAnnotations(owner)
    ensures Annotated(annotations, owner, UserAnnotations(owner))
  {
    hide UserAnnotations;
  }

  // ---- Reading the credential ----

  function GetClientSecret(owner: Owner, reported: Option<Reported>): Outcome<string> {
    if owner.uuid == "" then Err("client UUID not available")
    else if reported.None? then Err("keycloak client is nil")
    else if reported.value.publicClient then Err("cannot get secret for public client")
    else if reported.value.secret == "" then Err("client secret is empty")
    else Ok(reported.value.secret)
  }

  predicate OptedOut(owner: Owner) {
    owner.secret.Some? && !owner.secret.value.createSecret
  }

  // The credential of a tracked client that Keycloak reports as confidential, and with one.
  function Credential(owner: Owner, reported: Option<Reported>): Option<string> {
    match reported
    case Some(Reported(false, secret)) => if owner.uuid != "" && secret != "" then Some(secret) else None
    case _ => None
  }

  // maps.Copy: `order` is the order in which Go's range yields the keys of `from`.
  method CopyEntries(into: Strings, from: Strings, order: seq<string>) returns (result: Strings)
    requires forall key :: key in order <==> key in from
    ensures result == into + from
  {
    result := into;
    for i := 0 to |order|
      invariant into.Keys <= result.Keys
      invariant forall key | key in order[..i] :: key in from && key in result && result[key] == from[key]
      invariant forall key | key in result && key !in order[..i] :: key in into && result[key] == into[key]
    {
      assert order[..i + 1] == order[..i] + [order[i]];
      result := result[order[i] := from[order[i]]];
    }
    assert order[..|order|] == order;
  }

  // How the calls of one synchronisation fail, if they do, and in which orders Go walks its maps.
  datatype Choices = Choices(
    config: Outcome<InstanceConfig>,
    ownerFault: bool,
    getFault: bool,
    putFault: bool,
    labelOrder: seq<string>,
    annotationOrder: seq<string>,
    dataOrder: seq<string>,
    others: Strings)

  ghost predicate Orders(owner: Owner, c: Choices) {
    && (forall key :: key in c.labelOrder <==> key in UserLabels(owner))
    && (forall key :: key in c.annotationOrder <==> key in UserAnnotations(owner))
    && (forall key :: key in c.dataOrder <==> key in DATA_KEYS)
  }

  lemma DataKeys(owner: Owner, config: InstanceConfig, credential: string)
    ensures DesiredData(owner, config, credential).Keys == DATA_KEYS
  {
  }

  // The secret exists and is up to date.
  ghost predicate Unneeded(secrets: Secrets, owner: Owner, desired: Secret) {
    SecretKey(owner) in secrets && InSync(secrets[SecretKey(owner)], desired)
  }

  // The secrets without the one that the status says was created.
  function Unpublished(secrets: Secrets, owner: Owner): Secrets {
    if owner.status.Some? && owner.status.value.created
    then secrets - {ObjectKey(owner.status.value.namespace, owner.status.value.name)} else secrets
  }

  lemma IsPublished(secrets: Secrets, owner: Owner, config: InstanceConfig, credential: string, created: Secret)
    requires created == Desired(owner, config, credential).(others := created.others)
    ensures Published(Synced(secrets, SecretKey(owner), Desired(owner, config, credential), created), owner, config,
                credential)
  {
    hide Desired, Published;
    var desired := Desired(owner, config, credential);
    SyncedIsStable(secrets, SecretKey(owner), desired, created);
    InSyncPublishes(Synced(secrets, SecretKey(owner), desired, created), owner, config, credential);
  }

  // When deleteClientSecret succeeds: there is nothing to delete, or it is found missing, or it can be deleted.
  predicate Unpublishes(secrets: Secrets, owner: Owner, c: Choices) {
    owner.status.Some? && owner.status.value.created ==>
      !c.getFault && (ObjectKey(owner.status.value.namespace, owner.status.value.name) in secrets ==> !c.putFault)
  }

  // When createOrUpdateClientSecret succeeds.
  ghost predicate Succeeds(secrets: Secrets, owner: Owner, credential: string, c: Choices) {
    && c.config.Ok? && c.config.value.ready && !c.ownerFault && !c.getFault
    && (c.putFault ==> Unneeded(secrets, owner, Desired(owner, c.config.value, credential)))
  }

  class SecretStore {
    var secrets: Secrets
    var writes: nat

    constructor (secrets: Secrets)
      ensures this.secrets == secrets && writes == 0
    {
      this.secrets, writes := secrets, 0;
    }

    method GetKeycloakInstanceConfig(c: Choices) returns (config: Outcome<InstanceConfig>)
      ensures config.Ok? <==> c.config.Ok? && c.config.value.ready
      ensures config.Ok? ==> config == c.config
    {
      if c.config.Err? {
        return Err("failed to get KeycloakInstanceConfig");
      }
      if !c.config.value.ready {
        return Err("KeycloakInstanceConfig is not ready");
      }
      return c.config;
    }

    method PutSecret(key: ObjectKey, secret: Secret, fault: bool) returns (ok: bool)
      modifies this
      ensures ok <==> !fault
      ensures secrets == if ok then old(secrets)[key := secret] else old(secrets)
      ensures writes == if ok then old(writes) + 1 else old(writes)
    {
      ok := !fault;
      if ok {
        secrets, writes := secrets[key := secret], writes + 1;
      }
    }

    // The comparison of an existing secret with the desired one, key by key.
    method NeedsUpdate(existing: Secret, desired: Secret, order: seq<string>) returns (needsUpdate: bool)
      requires forall key :: key in order <==> key in desired.data
      ensures needsUpdate <==> !InSync(existing, desired)
    {
      needsUpdate := false;
      for i := 0 to |order|
        invariant needsUpdate <==> exists key | key in order[..i] :: ReadKey(existing.data, key) != desired.data[key]
      {
        assert order[..i + 1] == order[..i] + [order[i]];
        if ReadKey(existing.data, order[i]) != desired.data[order[i]] {
          needsUpdate := true;
        }
      }
      assert order[..|order|] == order;
      if existing.labels != desired.labels {
        needsUpdate := true;
      }
      if existing.annotations != desired.annotations {
        needsUpdate := true;
      }
    }

    /** Success and effect are functions of the stored secrets, the client and the failures: no iteration order
        shows. A failure leaves everything as it was, and nothing is written when the secret is up to date. */
    method CreateOrUpdateClientSecret(owner: Owner, credential: string, c: Choices) returns (failure: Option<string>)
      requires Orders(owner, c)
      modifies this
      ensures failure.None? <==> Succeeds(old(secrets), owner, credential, c)
      ensures failure.Some? ==> secrets == old(secrets) && writes == old(writes)
      ensures failure.None? ==>
        var desired := Desired(owner, c.config.value, credential);
        secrets == Synced(old(secrets), SecretKey(owner), desired, desired.(others := c.others))
        && writes == old(writes) + if Unneeded(old(secrets), owner, desired) then 0 else 1
      ensures failure.None? ==> Published(secrets, owner, c.config.value, credential)
    {
      var key := SecretKey(owner);
      var config := GetKeycloakInstanceConfig(c);
      if config.Err? {
        return Some(config.reason);
      }
      DataKeys(owner, config.value, credential);
      var data := DesiredData(owner, config.value, credential);
      hide DesiredData, DefaultLabels, DefaultAnnotations, InSync, Published;
      var labels := CopyEntries(DefaultLabels(owner), UserLabels(owner), c.labelOrder);
      var annotations := CopyEntries(DefaultAnnotations(owner), UserAnnotations(owner), c.annotationOrder);
      var secret := Secret(data, labels, annotations, c.others);
      if c.ownerFault {
        return Some("failed to set controller reference");
      }
      if c.getFault {
        return Some("failed to get existing secret");
      }
      var ok;
      if key !in secrets {
        ok := PutSecret(key, secret, c.putFault);
        if !ok {
          return Some("failed to create kubernetes secret");
        }
        IsPublished(old(secrets), owner, config.value, credential, secret);
        return None;
      }
      var existing := secrets[key];
      var needsUpdate := NeedsUpdate(existing, secret.(others := map[]), c.dataOrder);
      if needsUpdate {
        existing := existing.(data := secret.data, labels := secret.labels, annotations := secret.annotations);
        ok := PutSecret(key, existing, c.putFault);
        if !ok {
          return Some("failed to update kubernetes secret");
        }
      }
      IsPublished(old(secrets), owner, config.value, credential, secret);
      return None;
    }

    // deleteClientSecret: the secret that the status names, if it says that there is one.
    method DeleteClientSecret(owner: Owner, c: Choices) returns (failure: Option<string>)
      modifies this
      ensures failure.Some? ==> secrets == old(secrets) && writes == old(writes)
      ensures failure.None? ==> secrets == Unpublished(old(secrets), owner)
      ensures failure.None? <==> Unpublishes(old(secrets), owner, c)
      ensures failure.None? ==> writes == old(writes) + if secrets == old(secrets) then 0 else 1
    {
      if owner.status.None? || !owner.status.value.created {
        return None;
      }
      if c.getFault {
        return Some("failed to get secret");
      }
      var key := ObjectKey(owner.status.value.namespace, owner.status.value.name);
      if key !in secrets {
        return None;
      }
      if c.putFault {
        return Some("failed to delete secret");
      }
      secrets, writes := secrets - {key}, writes + 1;
      return None;
    }

    /** A public client keeps no secret that its status knows of; one that opted out is left alone; a confidential one
        gets its secret only when Keycloak, too, reports the client as confidential. */
    method ReconcileClientSecret(owner: Owner, reported: Option<Reported>, c: Choices) returns (failure: Option<string>)
      requires Orders(owner, c)
      modifies this
      ensures failure.Some? ==> secrets == old(secrets) && writes == old(writes)
      ensures owner.publicClient ==> (failure.None? <==> Unpublishes(old(secrets), owner, c))
      ensures owner.publicClient && failure.None? ==> secrets == Unpublished(old(secrets), owner)
      ensures !owner.publicClient && OptedOut(owner) ==>
        failure.None? && secrets == old(secrets) && writes == old(writes)
      ensures !owner.publicClient && !OptedOut(owner) ==>
        (failure.None? <==> Credential(owner, reported).Some?
                            && Succeeds(old(secrets), owner, Credential(owner, reported).value, c))
      ensures !owner.publicClient && !OptedOut(owner) && failure.None? ==>
        Published(secrets, owner, c.config.value, reported.value.secret)
        && secrets - {SecretKey(owner)} == old(secrets) - {SecretKey(owner)}
    {
      hide Unpublished, Unpublishes, Orders, InSync, Desired, Published, Synced, Unneeded, SecretKey;
      if owner.publicClient {
        failure := DeleteClientSecret(owner, c);
        return;
      }
      if owner.secret.Some? && !owner.secret.value.createSecret {
        return None;
      }
      if reported.None? {
        return Some("keycloak client object is nil");
      }
      var credential := GetClientSecret(owner, reported);
      if credential.Err? {
        return Some(credential.reason);
      }
      failure := CreateOrUpdateClientSecret(owner, credential.value, c);
      if failure.None? {
        var desired := Desired(owner, c.config.value, credential.value);
        SyncedAlone(old(secrets), SecretKey(owner), desired, desired.(others := c.others));
      }
    }

    /** An immediate second call, in whatever other order Go walks its maps, writes nothing. */
    method ReconcileTwice(owner: Owner, credential: string, c: Choices, d: Choices)
      returns (first: Option<string>, second: Option<string>, writesBetween: nat)
      requires Orders(owner, c) && Orders(owner, d) && c.config == d.config && !d.ownerFault && !d.getFault
      modifies this
      ensures first.None? ==>
        second.None? && writes == writesBetween && secrets.Keys == old(secrets.Keys) + {SecretKey(owner)}
      ensures old(writes) <= writesBetween <= old(writes) + 1
    {
      first := CreateOrUpdateClientSecret(owner, credential, c);
      writesBetween := writes;
      ghost var between := secrets;
      if first.None? {
        var desired := Desired(owner, c.config.value, credential);
        SyncedIsStable(old(secrets), SecretKey(owner), desired, desired.(others := c.others));
        hide InSync;
      }
      second := CreateOrUpdateClientSecret(owner, credential, d);
    }
  }
}
