/** The Group resource (api/v1alpha1/group_types.go) and the Keycloak groups it drives. */
module GroupTypes {
  import opened Common

  datatype GroupRef = GroupRef(name: string, namespace: string)

  datatype GroupSpec = GroupSpec(
    realm: string,
    name: string,
    parent: Option<GroupRef>,
    realmRoles: Slice,
    clientRoles: SliceMap,
    attributes: SliceMap)

  // `unmanaged` stands for the status fields this controller never writes
  // (parentGroupReady and the two role status maps).
  datatype GroupStatus = GroupStatus(
    ready: bool,
    realmReady: bool,
    message: string,
    lastSync: Option<int>,
    groupUuid: Uuid,
    parentUuid: Uuid,
    unmanaged: map<string, string>)

  const EMPTY_STATUS := GroupStatus(false, false, "", None, "", "", map[])

  datatype Group = Group(
    key: ObjectKey,
    spec: GroupSpec,
    finalizers: set<string>,
    status: GroupStatus,
    version: nat)

  type Cluster = map<ObjectKey, Group>

  predicate KeysAgree(cluster: Cluster) {
    forall k | k in cluster :: cluster[k].key == k
  }

  predicate HasParent(g: Group) {
    g.spec.parent.Some? && g.spec.parent.value.name != ""
  }

  // An empty namespace in a reference means the namespace of the referring group.
  function ParentKey(g: Group): ObjectKey
    requires HasParent(g)
  {
    var ref := g.spec.parent.value;
    ObjectKey(if ref.namespace == "" then g.key.namespace else ref.namespace, ref.name)
  }

  function Link(g: Group): Option<ObjectKey> {
    if HasParent(g) then Some(ParentKey(g)) else None
  }

  // `rest` is everything in a Keycloak group that the controller does not manage.
  datatype KGroup = KGroup(
    id: Uuid,
    realm: string,
    parentId: Uuid,
    name: string,
    realmRoles: Slice,
    clientRoles: SliceMap,
    attributes: SliceMap,
    rest: map<string, string>)

  datatype GroupName = GroupName(realm: string, name: string)

  /** `minted` remembers every identifier ever issued and the name it was issued for. */
  datatype Keycloak = Keycloak(groups: map<Uuid, KGroup>, minted: map<Uuid, GroupName>) {
    ghost predicate Valid() {
      && (forall id | id in groups :: groups[id].id == id && id in minted)
      && "" !in minted
    }

    predicate Live(realm: string, id: Uuid) {
      id in groups && groups[id].realm == realm
    }

    predicate Named(realm: string, name: string, id: Uuid) {
      Live(realm, id) && groups[id].name == name
    }
  }
}
