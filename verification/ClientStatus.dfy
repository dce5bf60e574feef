/** The status of a Client resource and how a pass merges its own findings into the stored one
    (internal/controller/client/status.go). */
module ClientStatus {
  import opened Common

  datatype SecretStatus = SecretStatus(created: bool, name: string, namespace: string)

  // A role map that was never written is nil, which `None` stands for.
  datatype Status = Status(
    ready: bool,
    realmReady: bool,
    message: string,
    lastSync: Option<int>,
    clientUuid: Uuid,
    roleUuids: Option<map<string, Uuid>>,
    secret: Option<SecretStatus>)

  const EMPTY_STATUS := Status(false, false, "", None, "", None, None)

  datatype Result = Result(ready: bool, realmReady: bool, message: string)

  function Roles(s: Status): map<string, Uuid> {
    if s.roleUuids.None? then map[] else s.roleUuids.value
  }

  predicate StatusUnchanged(latest: Status, result: Result) {
    latest.ready == result.ready && latest.realmReady == result.realmReady && latest.message == result.message
  }

  function MergeStatus(latest: Status, original: Status, result: Result, now: int): Status {
    latest.(ready := result.ready, realmReady := result.realmReady, message := result.message, lastSync := Some(now),
            clientUuid := if original.clientUuid != "" then original.clientUuid else latest.clientUuid,
            roleUuids := if |Roles(original)| > 0 then original.roleUuids else Some(Roles(latest)))
  }

  // A status apart from its sync time and the difference between a nil and an empty role map.
  function Content(s: Status): Status {
    s.(lastSync := None, roleUuids := Some(Roles(s)))
  }

  /** Skipping a write equals doing it exactly when the identifiers in memory are each empty or already stored. */
  lemma SkipRefinesWrite(latest: Status, original: Status, result: Result, now: int)
    requires StatusUnchanged(latest, result)
    ensures Content(MergeStatus(latest, original, result, now)) == Content(latest)
       <==> original.clientUuid in {"", latest.clientUuid} && Roles(original) in {map[], Roles(latest)}
  {
    if |Roles(original)| == 0 {
      assert Roles(original) == map[];
    } else {
      assert Roles(original) != map[];
    }
  }

  /** Merging never loses an identifier or the stored roles, and never records anything about the secret. */
  lemma MergeKeeps(latest: Status, original: Status, result: Result, now: int)
    ensures var merged := MergeStatus(latest, original, result, now);
      StatusUnchanged(merged, result)
      && merged.secret == latest.secret && merged.roleUuids.Some?
      && (merged.clientUuid == "" ==> latest.clientUuid == "" && original.clientUuid == "")
      && (Roles(merged) == map[] ==> Roles(latest) == map[] && Roles(original) == map[])
      && MergeStatus(merged, original, result, now) == merged
  {
    if |Roles(original)| > 0 {
      assert Roles(original) != map[];
    }
  }
}
