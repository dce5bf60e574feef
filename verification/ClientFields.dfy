/** The 26 client fields the operator manages (internal/controller/client/utils.go): building a Keycloak client
    from a spec, comparing the two, and applying the spec to an existing client. */
module ClientFields {
  import opened Common

  datatype ClientSpec = ClientSpec(
    clientId: string,
    name: string,
    description: string,
    enabled: bool,
    rootUrl: string,
    baseUrl: string,
    adminUrl: string,
    alwaysDisplayInConsole: bool,
    clientAuthenticatorType: string,
    publicClient: bool,
    redirectUris: Slice,
    webOrigins: Slice,
    standardFlowEnabled: bool,
    directAccessGrantsEnabled: bool,
    implicitFlowEnabled: bool,
    serviceAccountsEnabled: bool,
    consentRequired: bool,
    frontchannelLogoutEnabled: bool,
    postLogoutRedirectUris: Slice,
    deviceAuthorizationGrantEnabled: bool,
    loginTheme: string,
    displayOnConsentScreen: bool,
    consentScreenText: string,
    frontchannelLogoutUrl: string,
    backchannelLogoutUrl: string,
    backchannelLogoutSessionRequired: bool,
    backchannelLogoutRevokeOfflineTokens: bool)

  // `others` stands for the attributes the operator does not manage.
  datatype Attributes = Attributes(
    postLogoutRedirectUris: Slice,
    deviceAuthorizationGrantEnabled: bool,
    loginTheme: string,
    displayOnConsentScreen: bool,
    consentScreenText: string,
    frontchannelLogoutUrl: string,
    backchannelLogoutUrl: string,
    backchannelLogoutSessionRequired: bool,
    backchannelLogoutRevokeOfflineTokens: bool,
    others: map<string, string>)

  // `others` stands for the fields the operator does not manage.
  datatype OpenidClient = OpenidClient(
    id: Uuid,
    realmId: string,
    clientId: string,
    clientSecret: string,
    name: string,
    description: string,
    enabled: bool,
    rootUrl: Option<string>,
    baseUrl: string,
    adminUrl: string,
    alwaysDisplayInConsole: bool,
    clientAuthenticatorType: string,
    publicClient: bool,
    validRedirectUris: Slice,
    webOrigins: Slice,
    attributes: Attributes,
    standardFlowEnabled: bool,
    directAccessGrantsEnabled: bool,
    implicitFlowEnabled: bool,
    serviceAccountsEnabled: bool,
    consentRequired: bool,
    frontChannelLogoutEnabled: bool,
    others: map<string, string>)

  function Deref(s: Option<string>): string {
    if s.None? then "" else s.value
  }

  // ---- What the fields mean ----

  datatype Field =
    | Name
    | Description
    | Enabled
    | RootUrl
    | BaseUrl
    | AdminUrl
    | AlwaysDisplayInConsole
    | ClientAuthenticatorType
    | PublicClient
    | StandardFlowEnabled
    | DirectAccessGrantsEnabled
    | ImplicitFlowEnabled
    | ServiceAccountsEnabled
    | DeviceAuthorizationGrantEnabled
    | LoginTheme
    | ConsentRequired
    | DisplayOnConsentScreen
    | ConsentScreenText
    | FrontchannelLogoutEnabled
    | FrontchannelLogoutUrl
    | BackchannelLogoutUrl
    | BackchannelLogoutSessionRequired
    | BackchannelLogoutRevokeOfflineTokens
    | ValidRedirectUris
    | WebOrigins
    | PostLogoutRedirectUris

  datatype Value = Text(text: string) | Flag(flag: bool) | Items(items: seq<string>)

  // What the spec asks for. Nil and empty lists ask for the same.
  function Wanted(spec: ClientSpec, field: Field): Value {
    match field
    case Name => Text(spec.name)
    case Description => Text(spec.description)
    case Enabled => Flag(spec.enabled)
    case RootUrl => Text(spec.rootUrl)
    case BaseUrl => Text(spec.baseUrl)
    case AdminUrl => Text(spec.adminUrl)
    case AlwaysDisplayInConsole => Flag(spec.alwaysDisplayInConsole)
    case ClientAuthenticatorType => Text(spec.clientAuthenticatorType)
    case PublicClient => Flag(spec.publicClient)
    case StandardFlowEnabled => Flag(spec.standardFlowEnabled)
    case DirectAccessGrantsEnabled => Flag(spec.directAccessGrantsEnabled)
    case ImplicitFlowEnabled => Flag(spec.implicitFlowEnabled)
    case ServiceAccountsEnabled => Flag(spec.serviceAccountsEnabled)
    case DeviceAuthorizationGrantEnabled => Flag(spec.deviceAuthorizationGrantEnabled)
    case LoginTheme => Text(spec.loginTheme)
    case ConsentRequired => Flag(spec.consentRequired)
    case DisplayOnConsentScreen => Flag(spec.displayOnConsentScreen)
    case ConsentScreenText => Text(spec.consentScreenText)
    case FrontchannelLogoutEnabled => Flag(spec.frontchannelLogoutEnabled)
    case FrontchannelLogoutUrl => Text(spec.frontchannelLogoutUrl)
    case BackchannelLogoutUrl => Text(spec.backchannelLogoutUrl)
    case BackchannelLogoutSessionRequired => Flag(spec.backchannelLogoutSessionRequired)
    case BackchannelLogoutRevokeOfflineTokens => Flag(spec.backchannelLogoutRevokeOfflineTokens)
    case ValidRedirectUris => Items(spec.redirectUris.Items())
    case WebOrigins => Items(spec.webOrigins.Items())
    case PostLogoutRedirectUris => Items(spec.postLogoutRedirectUris.Items())
  }

  // What Keycloak has. No root URL is the empty one.
  function Actual(c: OpenidClient, field: Field): Value {
    match field
    case Name => Text(c.name)
    case Description => Text(c.description)
    case Enabled => Flag(c.enabled)
    case RootUrl => Text(Deref(c.rootUrl))
    case BaseUrl => Text(c.baseUrl)
    case AdminUrl => Text(c.adminUrl)
    case AlwaysDisplayInConsole => Flag(c.alwaysDisplayInConsole)
    case ClientAuthenticatorType => Text(c.clientAuthenticatorType)
    case PublicClient => Flag(c.publicClient)
    case StandardFlowEnabled => Flag(c.standardFlowEnabled)
    case DirectAccessGrantsEnabled => Flag(c.directAccessGrantsEnabled)
    case ImplicitFlowEnabled => Flag(c.implicitFlowEnabled)
    case ServiceAccountsEnabled => Flag(c.serviceAccountsEnabled)
    case DeviceAuthorizationGrantEnabled => Flag(c.attributes.deviceAuthorizationGrantEnabled)
    case LoginTheme => Text(c.attributes.loginTheme)
    case ConsentRequired => Flag(c.consentRequired)
    case DisplayOnConsentScreen => Flag(c.attributes.displayOnConsentScreen)
    case ConsentScreenText => Text(c.attributes.consentScreenText)
    case FrontchannelLogoutEnabled => Flag(c.frontChannelLogoutEnabled)
    case FrontchannelLogoutUrl => Text(c.attributes.frontchannelLogoutUrl)
    case BackchannelLogoutUrl => Text(c.attributes.backchannelLogoutUrl)
    case BackchannelLogoutSessionRequired => Flag(c.attributes.backchannelLogoutSessionRequired)
    case BackchannelLogoutRevokeOfflineTokens => Flag(c.attributes.backchannelLogoutRevokeOfflineTokens)
    case ValidRedirectUris => Items(c.validRedirectUris.Items())
    case WebOrigins => Items(c.webOrigins.Items())
    case PostLogoutRedirectUris => Items(c.attributes.postLogoutRedirectUris.Items())
  }

  ghost predicate Matches(spec: ClientSpec, c: OpenidClient) {
    forall field: Field :: Actual(c, field) == Wanted(spec, field)
  }

  // Everything the operator does not manage.
  function Unmanaged(c: OpenidClient): (Uuid, string, string, string, map<string, string>, map<string, string>) {
    (c.id, c.realmId, c.clientId, c.clientSecret, c.others, c.attributes.others)
  }

  // ---- Comparing, building, applying ----

  datatype FieldDiff = FieldDiff(field: Field, was: Value, wanted: Value)

  function BasicFields(spec: ClientSpec, c: OpenidClient): seq<FieldDiff> {
    [
      FieldDiff(Name, Text(c.name), Text(spec.name)),
      FieldDiff(Description, Text(c.description), Text(spec.description)),
      FieldDiff(Enabled, Flag(c.enabled), Flag(spec.enabled)),
      FieldDiff(RootUrl, Text(Deref(c.rootUrl)), Text(spec.rootUrl)),
      FieldDiff(BaseUrl, Text(c.baseUrl), Text(spec.baseUrl)),
      FieldDiff(AdminUrl, Text(c.adminUrl), Text(spec.adminUrl)),
      FieldDiff(AlwaysDisplayInConsole, Flag(c.alwaysDisplayInConsole), Flag(spec.alwaysDisplayInConsole)),
      FieldDiff(ClientAuthenticatorType, Text(c.clientAuthenticatorType), Text(spec.clientAuthenticatorType)),
      FieldDiff(PublicClient, Flag(c.publicClient), Flag(spec.publicClient)),
      FieldDiff(StandardFlowEnabled, Flag(c.standardFlowEnabled), Flag(spec.standardFlowEnabled)),
      FieldDiff(DirectAccessGrantsEnabled, Flag(c.directAccessGrantsEnabled), Flag(spec.directAccessGrantsEnabled)),
      FieldDiff(ImplicitFlowEnabled, Flag(c.implicitFlowEnabled), Flag(spec.implicitFlowEnabled)),
      FieldDiff(ServiceAccountsEnabled, Flag(c.serviceAccountsEnabled), Flag(spec.serviceAccountsEnabled))
    ]
  }

  function LaterFields(spec: ClientSpec, c: OpenidClient): seq<FieldDiff> {
    [
      FieldDiff(DeviceAuthorizationGrantEnabled, Flag(c.attributes.deviceAuthorizationGrantEnabled),
          Flag(spec.deviceAuthorizationGrantEnabled)),
      FieldDiff(LoginTheme, Text(c.attributes.loginTheme), Text(spec.loginTheme)),
      FieldDiff(ConsentRequired, Flag(c.consentRequired), Flag(spec.consentRequired)),
      FieldDiff(DisplayOnConsentScreen, Flag(c.attributes.displayOnConsentScreen), Flag(spec.displayOnConsentScreen)),
      FieldDiff(ConsentScreenText, Text(c.attributes.consentScreenText), Text(spec.consentScreenText)),
      FieldDiff(FrontchannelLogoutEnabled, Flag(c.frontChannelLogoutEnabled), Flag(spec.frontchannelLogoutEnabled)),
      FieldDiff(FrontchannelLogoutUrl, Text(c.attributes.frontchannelLogoutUrl), Text(spec.frontchannelLogoutUrl)),
      FieldDiff(BackchannelLogoutUrl, Text(c.attributes.backchannelLogoutUrl), Text(spec.backchannelLogoutUrl)),
      FieldDiff(BackchannelLogoutSessionRequired, Flag(c.attributes.backchannelLogoutSessionRequired),
          Flag(spec.backchannelLogoutSessionRequired)),
      FieldDiff(BackchannelLogoutRevokeOfflineTokens, Flag(c.attributes.backchannelLogoutRevokeOfflineTokens),
          Flag(spec.backchannelLogoutRevokeOfflineTokens))
    ]
  }

  function ScalarFields(spec: ClientSpec, c: OpenidClient): seq<FieldDiff> {
    BasicFields(spec, c) + LaterFields(spec, c)
  }

  function Differing(fields: seq<FieldDiff>): seq<Field> {
    if fields == [] then []
    else
      var last := fields[|fields| - 1];
      Differing(fields[..|fields| - 1]) + (if last.was != last.wanted then [last.field] else [])
  }

  function ClientDiffs(spec: ClientSpec, c: OpenidClient): seq<Field> {
    Differing(ScalarFields(spec, c))
    + (if !SlicesEqual(c.validRedirectUris, spec.redirectUris) then [ValidRedirectUris] else [])
    + (if !SlicesEqual(c.webOrigins, spec.webOrigins) then [WebOrigins] else [])
    + (if !SlicesEqual(c.attributes.postLogoutRedirectUris, spec.postLogoutRedirectUris) then [PostLogoutRedirectUris]
       else [])
  }

  method GetClientDiffs(spec: ClientSpec, c: OpenidClient) returns (diffs: seq<Field>)
    ensures diffs == ClientDiffs(spec, c)
  {
    diffs := [];
    var fields := ScalarFields(spec, c);
    for i := 0 to |fields|
      invariant diffs == Differing(fields[..i])
    {
      assert fields[..i + 1][..i] == fields[..i];
      if fields[i].was != fields[i].wanted {
        diffs := diffs + [fields[i].field];
      }
    }
    assert fields[..|fields|] == fields;
    if !SlicesEqual(c.validRedirectUris, spec.redirectUris) {
      diffs := diffs + [ValidRedirectUris];
    }
    if !SlicesEqual(c.webOrigins, spec.webOrigins) {
      diffs := diffs + [WebOrigins];
    }
    if !SlicesEqual(c.attributes.postLogoutRedirectUris, spec.postLogoutRedirectUris) {
      diffs := diffs + [PostLogoutRedirectUris];
    }
  }

  function BuildClient(spec: ClientSpec, realm: string): OpenidClient {
    var attributes := Attributes(
      spec.postLogoutRedirectUris, spec.deviceAuthorizationGrantEnabled, spec.loginTheme, spec.displayOnConsentScreen,
      spec.consentScreenText, spec.frontchannelLogoutUrl, spec.backchannelLogoutUrl,
      spec.backchannelLogoutSessionRequired, spec.backchannelLogoutRevokeOfflineTokens, map[]);
    OpenidClient(
      "", realm, spec.clientId, "", spec.name, spec.description, spec.enabled, Some(spec.rootUrl), spec.baseUrl,
      spec.adminUrl, spec.alwaysDisplayInConsole, spec.clientAuthenticatorType, spec.publicClient, spec.redirectUris,
      spec.webOrigins, attributes, spec.standardFlowEnabled, spec.directAccessGrantsEnabled, spec.implicitFlowEnabled,
      spec.serviceAccountsEnabled, spec.consentRequired, spec.frontchannelLogoutEnabled, map[])
  }

  function ApplyChanges(spec: ClientSpec, c: OpenidClient): OpenidClient {
    var attributes := Attributes(
      spec.postLogoutRedirectUris, spec.deviceAuthorizationGrantEnabled, spec.loginTheme, spec.displayOnConsentScreen,
      spec.consentScreenText, spec.frontchannelLogoutUrl, spec.backchannelLogoutUrl,
      spec.backchannelLogoutSessionRequired, spec.backchannelLogoutRevokeOfflineTokens, c.attributes.others);
    OpenidClient(
      c.id, c.realmId, c.clientId, c.clientSecret, spec.name, spec.description, spec.enabled, Some(spec.rootUrl),
      spec.baseUrl, spec.adminUrl, spec.alwaysDisplayInConsole, spec.clientAuthenticatorType, spec.publicClient,
      spec.redirectUris, spec.webOrigins, attributes, spec.standardFlowEnabled, spec.directAccessGrantsEnabled,
      spec.implicitFlowEnabled, spec.serviceAccountsEnabled, spec.consentRequired, spec.frontchannelLogoutEnabled,
      c.others)
  }

  // Field by field, on a copy of the client that was read.
  method ApplyChangesToClient(spec: ClientSpec, c: OpenidClient) returns (updated: OpenidClient)
    ensures updated == ApplyChanges(spec, c)
  {
    updated := c;
    updated := updated.(name := spec.name);
    updated := updated.(description := spec.description);
    updated := updated.(enabled := spec.enabled);
    updated := updated.(rootUrl := Some(spec.rootUrl));
    updated := updated.(baseUrl := spec.baseUrl);
    updated := updated.(adminUrl := spec.adminUrl);
    updated := updated.(alwaysDisplayInConsole := spec.alwaysDisplayInConsole);
    updated := updated.(clientAuthenticatorType := spec.clientAuthenticatorType);
    updated := updated.(publicClient := spec.publicClient);
    updated := updated.(validRedirectUris := spec.redirectUris);
    updated := updated.(webOrigins := spec.webOrigins);
    updated := updated.(standardFlowEnabled := spec.standardFlowEnabled);
    updated := updated.(directAccessGrantsEnabled := spec.directAccessGrantsEnabled);
    updated := updated.(implicitFlowEnabled := spec.implicitFlowEnabled);
    updated := updated.(serviceAccountsEnabled := spec.serviceAccountsEnabled);
    updated := updated.(consentRequired := spec.consentRequired);
    updated := updated.(frontChannelLogoutEnabled := spec.frontchannelLogoutEnabled);
    var attributes := updated.attributes;
    attributes := attributes.(postLogoutRedirectUris := spec.postLogoutRedirectUris);
    attributes := attributes.(deviceAuthorizationGrantEnabled := spec.deviceAuthorizationGrantEnabled);
    attributes := attributes.(loginTheme := spec.loginTheme);
    attributes := attributes.(displayOnConsentScreen := spec.displayOnConsentScreen);
    attributes := attributes.(consentScreenText := spec.consentScreenText);
    attributes := attributes.(frontchannelLogoutUrl := spec.frontchannelLogoutUrl);
    attributes := attributes.(backchannelLogoutUrl := spec.backchannelLogoutUrl);
    attributes := attributes.(backchannelLogoutSessionRequired := spec.backchannelLogoutSessionRequired);
    attributes := attributes.(backchannelLogoutRevokeOfflineTokens := spec.backchannelLogoutRevokeOfflineTokens);
    updated := updated.(attributes := attributes);
  }

  // ---- Diff, build and apply agree ----

  lemma {:induction false} DifferingExact(fields: seq<FieldDiff>, field: Field)
    ensures field in Differing(fields) <==>
      exists i | 0 <= i < |fields| :: fields[i].field == field && fields[i].was != fields[i].wanted
  {
    if fields != [] {
      var n := |fields| - 1;
      DifferingExact(fields[..n], field);
      assert forall i | 0 <= i < n :: fields[..n][i] == fields[i];
    }
  }

  // Where the comparison has a field, and that it compares the right values.
  function Position(field: Field): nat {
    match field
    case Name => 0
    case Description => 1
    case Enabled => 2
    case RootUrl => 3
    case BaseUrl => 4
    case AdminUrl => 5
    case AlwaysDisplayInConsole => 6
    case ClientAuthenticatorType => 7
    case PublicClient => 8
    case StandardFlowEnabled => 9
    case DirectAccessGrantsEnabled => 10
    case ImplicitFlowEnabled => 11
    case ServiceAccountsEnabled => 12
    case DeviceAuthorizationGrantEnabled => 13
    case LoginTheme => 14
    case ConsentRequired => 15
    case DisplayOnConsentScreen => 16
    case ConsentScreenText => 17
    case FrontchannelLogoutEnabled => 18
    case FrontchannelLogoutUrl => 19
    case BackchannelLogoutUrl => 20
    case BackchannelLogoutSessionRequired => 21
    case BackchannelLogoutRevokeOfflineTokens => 22
    case _ => 23
  }

  lemma FirstFieldAt(spec: ClientSpec, c: OpenidClient, field: Field)
    requires Position(field) < 7
    ensures |BasicFields(spec, c)| == 13
    ensures BasicFields(spec, c)[Position(field)] == FieldDiff(field, Actual(c, field), Wanted(spec, field))
  {
  }

  lemma SecondFieldAt(spec: ClientSpec, c: OpenidClient, field: Field)
    requires 7 <= Position(field) < 13
    ensures |BasicFields(spec, c)| == 13
    ensures BasicFields(spec, c)[Position(field)] == FieldDiff(field, Actual(c, field), Wanted(spec, field))
  {
  }

  lemma BasicFieldAt(spec: ClientSpec, c: OpenidClient, field: Field)
    requires Position(field) < 13
    ensures |BasicFields(spec, c)| == 13
    ensures BasicFields(spec, c)[Position(field)] == FieldDiff(field, Actual(c, field), Wanted(spec, field))
  {
    hide BasicFields, Actual, Wanted;
    if Position(field) < 7 {
      FirstFieldAt(spec, c, field);
    } else {
      SecondFieldAt(spec, c, field);
    }
  }

  lemma LaterFieldAt(spec: ClientSpec, c: OpenidClient, field: Field)
    requires 13 <= Position(field) < 23
    ensures |LaterFields(spec, c)| == 10
    ensures LaterFields(spec, c)[Position(field) - 13] == FieldDiff(field, Actual(c, field), Wanted(spec, field))
  {
  }

  lemma BasicFieldsOnce(spec: ClientSpec, c: OpenidClient, i: nat)
    requires i < 13
    ensures |BasicFields(spec, c)| == 13 && Position(BasicFields(spec, c)[i].field) == i
  {
  }

  lemma LaterFieldsOnce(spec: ClientSpec, c: OpenidClient, i: nat)
    requires i < 10
    ensures |LaterFields(spec, c)| == 10 && Position(LaterFields(spec, c)[i].field) == i + 13
  {
  }

  lemma ScalarDiffsExact(spec: ClientSpec, c: OpenidClient, field: Field)
    ensures field in Differing(ScalarFields(spec, c))
       <==> Position(field) < 23 && Actual(c, field) != Wanted(spec, field)
  {
    var fields := ScalarFields(spec, c);
    DifferingExact(fields, field);
    hide BasicFields, LaterFields, Actual, Wanted, Position;
    var at := Position(field);
    BasicFieldsOnce(spec, c, 0);
    LaterFieldsOnce(spec, c, 0);
    if at < 13 {
      BasicFieldAt(spec, c, field);
      assert fields[at] == BasicFields(spec, c)[at];
    } else if at < 23 {
      LaterFieldAt(spec, c, field);
      assert fields[at] == LaterFields(spec, c)[at - 13];
    }
    forall i: nat | i < |fields| && fields[i].field == field ensures at == i && i < 23 {
      if i < 13 {
        BasicFieldsOnce(spec, c, i);
      } else {
        LaterFieldsOnce(spec, c, i - 13);
      }
    }
  }

  /** The reported differences are exactly the managed fields that differ. */
  lemma DiffsExact(spec: ClientSpec, c: OpenidClient, field: Field)
    ensures field in ClientDiffs(spec, c) <==> Actual(c, field) != Wanted(spec, field)
  {
    ScalarDiffsExact(spec, c, field);
    hide ScalarFields, Differing;
    if Position(field) == 23 {
      SlicesEqualMeaning(c.validRedirectUris, spec.redirectUris);
      SlicesEqualMeaning(c.webOrigins, spec.webOrigins);
      SlicesEqualMeaning(c.attributes.postLogoutRedirectUris, spec.postLogoutRedirectUris);
    }
  }

  /** No difference is reported exactly when the client matches the spec. */
  lemma NoDiffsMeansMatch(spec: ClientSpec, c: OpenidClient)
    ensures ClientDiffs(spec, c) == [] <==> Matches(spec, c)
  {
    hide ClientDiffs, Actual, Wanted;
    forall field: Field ensures field in ClientDiffs(spec, c) <==> Actual(c, field) != Wanted(spec, field) {
      DiffsExact(spec, c, field);
    }
    if ClientDiffs(spec, c) != [] {
      assert ClientDiffs(spec, c)[0] in ClientDiffs(spec, c);
    }
  }

  lemma BuildMatches(spec: ClientSpec, realm: string, field: Field)
    ensures Actual(BuildClient(spec, realm), field) == Wanted(spec, field)
  {
  }

  lemma ApplyMatches(spec: ClientSpec, c: OpenidClient, field: Field)
    ensures Actual(ApplyChanges(spec, c), field) == Wanted(spec, field)
  {
  }

  lemma FieldIgnoresId(c: OpenidClient, id: Uuid, field: Field)
    ensures Actual(c.(id := id), field) == Actual(c, field)
  {
  }

  lemma MatchesAnyId(spec: ClientSpec, c: OpenidClient, id: Uuid)
    requires Matches(spec, c)
    ensures Matches(spec, c.(id := id))
  {
    hide Actual, Wanted;
    forall field: Field ensures Actual(c.(id := id), field) == Wanted(spec, field) {
      FieldIgnoresId(c, id, field);
    }
  }

  /** Both writers produce a client with nothing left to change; applying twice is applying once; applying leaves
      everything unmanaged alone and depends on nothing else of the client. */
  lemma BuildAndApplyMatch(spec: ClientSpec, c: OpenidClient, d: OpenidClient, realm: string)
    ensures Matches(spec, BuildClient(spec, realm)) && ClientDiffs(spec, BuildClient(spec, realm)) == []
    ensures Matches(spec, ApplyChanges(spec, c)) && ClientDiffs(spec, ApplyChanges(spec, c)) == []
    ensures ApplyChanges(spec, ApplyChanges(spec, c)) == ApplyChanges(spec, c)
    ensures Unmanaged(ApplyChanges(spec, c)) == Unmanaged(c)
    ensures Unmanaged(c) == Unmanaged(d) ==> ApplyChanges(spec, c) == ApplyChanges(spec, d)
  {
    hide ClientDiffs, Actual, Wanted;
    forall field: Field
      ensures Actual(BuildClient(spec, realm), field) == Wanted(spec, field)
      ensures Actual(ApplyChanges(spec, c), field) == Wanted(spec, field)
    {
      BuildMatches(spec, realm, field);
      ApplyMatches(spec, c, field);
    }
    NoDiffsMeansMatch(spec, BuildClient(spec, realm));
    NoDiffsMeansMatch(spec, ApplyChanges(spec, c));
  }

  // ---- updateClientIfNeeded ----

  /** The Keycloak side: clients by identifier. Updating stores the client as sent, or fails. */
  class ClientStore {
    var clients: map<Uuid, OpenidClient>

    constructor (clients: map<Uuid, OpenidClient>)
      ensures this.clients == clients
    {
      this.clients := clients;
    }

    method UpdateOpenidClient(c: OpenidClient, fault: bool) returns (ok: bool)
      modifies this
      ensures ok <==> !fault && c.id in old(clients)
      ensures clients == if ok then old(clients)[c.id := c] else old(clients)
    {
      ok := !fault && c.id in clients;
      if ok {
        clients := clients[c.id := c];
      }
    }

    /** A failing update is swallowed: what is returned is whether an update was written. On a client that is as
        it was read, the result matches the spec exactly when it matched before or the update went through. */
    method UpdateClientIfNeeded(spec: ClientSpec, found: OpenidClient, fault: bool) returns (changed: bool)
      modifies this
      ensures changed <==> !Matches(spec, found) && !fault && found.id in old(clients)
      ensures clients == if changed then old(clients)[found.id := ApplyChanges(spec, found)] else old(clients)
      ensures found.id in old(clients) && old(clients)[found.id] == found ==>
        (Matches(spec, clients[found.id]) <==> Matches(spec, found) || changed)
    {
      var diffs := GetClientDiffs(spec, found);
      NoDiffsMeansMatch(spec, found);
      BuildAndApplyMatch(spec, found, found, "");
      hide ClientDiffs, Actual, Wanted;
      if |diffs| == 0 {
        return false;
      }
      var updated := ApplyChangesToClient(spec, found);
      hide ApplyChanges;
      changed := UpdateOpenidClient(updated, fault);
    }
  }

  // A client that differs from this spec in its name only.
  function Renamed(spec: ClientSpec): OpenidClient {
    BuildClient(spec, "r").(id := "u", name := spec.name + "x")
  }

  /** So a reconcile that reports no change may leave a client that does not match its spec, for any spec. */
  method SwallowedFailure(spec: ClientSpec) returns (store: ClientStore, changed: bool)
    ensures !changed && store.clients == map["u" := Renamed(spec)] && !Matches(spec, store.clients["u"])
  {
    store := new ClientStore(map["u" := Renamed(spec)]);
    changed := store.UpdateClientIfNeeded(spec, Renamed(spec), true);
    assert Actual(Renamed(spec), Name) != Wanted(spec, Name);
  }
}
