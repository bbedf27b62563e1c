/** The Device Defender findings processor: on an audit report it finds the
    overly permissive policy versions and replaces each offending version of a
    policy with a new default version, keeping within the service's limit of
    five versions per policy. The IoT service's policy-version store for one
    policy is a sequence of versions, in the order the service lists them. */
module PolicyRemediation {
  import opened Strings
  import opened Json

  /** `MAX_VERSIONS`: the service keeps at most five versions of a policy. */
  const MaxVersions: nat := 5

  datatype PolicyVersion = PolicyVersion(versionId: string, isDefault: bool)

  /** What `get_policy_info` returns. */
  datatype PolicyInfo = PolicyInfo(defaultVersion: string, olderVersion: string, count: nat, found: bool)

  function Ids(s: seq<PolicyVersion>): set<string>
  {
    set v | v in s :: v.versionId
  }

  /** Number of default versions. */
  function Defaults(s: seq<PolicyVersion>): nat
  {
    if s == [] then 0 else Defaults(s[..|s| - 1]) + (if s[|s| - 1].isDefault then 1 else 0)
  }

  ghost predicate Distinct(s: seq<PolicyVersion>)
  {
    forall i, j :: 0 <= i < j < |s| ==> s[i].versionId != s[j].versionId
  }

  /** A store as the service keeps it: at most five versions with distinct ids,
      at most one of them the default, and no id "0" (the service numbers
      versions from 1). */
  ghost predicate WellFormed(s: seq<PolicyVersion>)
  {
    |s| <= MaxVersions && Distinct(s) && Defaults(s) <= 1 && "0" !in Ids(s)
  }

  /** Index of the last version whose default flag is `isDefault`, or -1. */
  function LastIndex(s: seq<PolicyVersion>, isDefault: bool): (k: int)
    ensures -1 <= k < |s|
    ensures k >= 0 ==> s[k].isDefault == isDefault
    ensures forall j :: k < j < |s| ==> s[j].isDefault != isDefault
  {
    if s == [] then -1
    else if s[|s| - 1].isDefault == isDefault then |s| - 1
    else LastIndex(s[..|s| - 1], isDefault)
  }

  /** The id of the last version with the given default flag, or "0". */
  function LastId(s: seq<PolicyVersion>, isDefault: bool): string
  {
    var k := LastIndex(s, isDefault);
    if k < 0 then "0" else s[k].versionId
  }

  /** The independent description of `get_policy_info`'s result. */
  function PolicyInfoOf(s: seq<PolicyVersion>, reported: string): PolicyInfo
  {
    PolicyInfo(LastId(s, true), LastId(s, false), |s|, reported in Ids(s))
  }

  /** `get_policy_info`: one pass over the listed versions. */
  method GetPolicyInfo(versions: seq<PolicyVersion>, reported: string) returns (info: PolicyInfo)
    ensures info.count == |versions|
    ensures info.found <==> exists i :: 0 <= i < |versions| && versions[i].versionId == reported
    ensures info.defaultVersion == LastId(versions, true)
    ensures info.olderVersion == LastId(versions, false)
  {
    var defaultVersion, olderVersion, count, found := "0", "0", 0, false;
    for i := 0 to |versions|
      invariant defaultVersion == LastId(versions[..i], true)
      invariant olderVersion == LastId(versions[..i], false)
      invariant count == i
      invariant found <==> exists j :: 0 <= j < i && versions[j].versionId == reported
    {
      assert versions[..i + 1][..i] == versions[..i];
      var v := versions[i];
      if !v.isDefault {
        olderVersion := v.versionId;
      } else {
        defaultVersion := v.versionId;
      }
      if reported == v.versionId {
        found := true;
      }
      count := count + 1;
    }
    assert versions[..|versions|] == versions;
    info := PolicyInfo(defaultVersion, olderVersion, count, found);
  }

  /** Every version with its default flag cleared. */
  function Demote(s: seq<PolicyVersion>): (r: seq<PolicyVersion>)
    ensures |r| == |s|
    ensures forall i :: 0 <= i < |s| ==> r[i] == PolicyVersion(s[i].versionId, false)
  {
    if s == [] then [] else Demote(s[..|s| - 1]) + [PolicyVersion(s[|s| - 1].versionId, false)]
  }

  /** The versions whose id is not `id`, in order. */
  function Remove(s: seq<PolicyVersion>, id: string): seq<PolicyVersion>
  {
    if s == [] then []
    else Remove(s[..|s| - 1], id) + (if s[|s| - 1].versionId == id then [] else [s[|s| - 1]])
  }

  /** Deleting by id keeps exactly the versions with other ids. */
  lemma {:induction false} RemoveKeeps(s: seq<PolicyVersion>, id: string)
    ensures forall v :: v in Remove(s, id) <==> v in s && v.versionId != id
  {
    if s != [] {
      var init := s[..|s| - 1];
      RemoveKeeps(init, id);
      assert s == init + [s[|s| - 1]];
    }
  }

  /** `create_policy_version(..., setAsDefault=True)`: refused when the policy
      already has five versions; otherwise the new version becomes the only default. */
  function CreateVersion(s: seq<PolicyVersion>, newId: string): Option<seq<PolicyVersion>>
  {
    if |s| >= MaxVersions then None else Some(Demote(s) + [PolicyVersion(newId, true)])
  }

  /** `delete_policy_version`: refused for a missing version and for the default one. */
  function DeleteVersion(s: seq<PolicyVersion>, id: string): Option<seq<PolicyVersion>>
  {
    if id !in Ids(s) || PolicyVersion(id, true) in s then None else Some(Remove(s, id))
  }

  /** The store after `fix_overly_permissive_policy`, and whether it reached its
      success message (a refused call raises and ends it). */
  datatype Remediation = Remediation(versions: seq<PolicyVersion>, mitigated: bool)

  /** `fix_overly_permissive_policy` on a store, with `newId` the id the service
      gives the created version. */
  function Remediate(s: seq<PolicyVersion>, reported: string, newId: string): (r: Remediation)
    ensures r.versions != s || r.mitigated ==> reported in Ids(s)
  {
    var info := PolicyInfoOf(s, reported);
    if !info.found then Remediation(s, false)
    else if info.count < MaxVersions then
      match CreateVersion(s, newId)
      case None => Remediation(s, false)
      case Some(s1) =>
        match DeleteVersion(s1, reported)
        case None => Remediation(s1, false)
        case Some(s2) => Remediation(s2, true)
    else
      var victim := if reported == info.defaultVersion then info.olderVersion else reported;
      match DeleteVersion(s, victim)
      case None => Remediation(s, false)
      case Some(s1) =>
        match CreateVersion(s1, newId)
        case None => Remediation(s1, false)
        case Some(s2) => Remediation(s2, true)
  }

  lemma {:induction false} DefaultsAppend(t: seq<PolicyVersion>, x: PolicyVersion)
    ensures Defaults(t + [x]) == Defaults(t) + (if x.isDefault then 1 else 0)
  {
    assert (t + [x])[..|t|] == t;
  }

  lemma {:induction false} DefaultsPositive(s: seq<PolicyVersion>, i: nat)
    requires i < |s| && s[i].isDefault
    ensures Defaults(s) >= 1
  {
    if i < |s| - 1 {
      DefaultsPositive(s[..|s| - 1], i);
    }
  }

  /** With at most one default, two default entries are the same entry. */
  lemma {:induction false} UniqueDefault(s: seq<PolicyVersion>, i: nat, j: nat)
    requires Defaults(s) <= 1 && i < |s| && j < |s| && s[i].isDefault && s[j].isDefault
    ensures i == j
  {
    var init := s[..|s| - 1];
    if i == |s| - 1 && j < |s| - 1 {
      DefaultsPositive(init, j);
    } else if j == |s| - 1 && i < |s| - 1 {
      DefaultsPositive(init, i);
    } else if i < |s| - 1 && j < |s| - 1 {
      UniqueDefault(init, i, j);
    }
  }

  /** With at most one default, of two entries at least one is not the default. */
  lemma {:induction false} AtMostOneDefault(s: seq<PolicyVersion>, i: nat, j: nat)
    requires Defaults(s) <= 1 && i < j < |s|
    ensures !s[i].isDefault || !s[j].isDefault
  {
    if s[i].isDefault && s[j].isDefault {
      UniqueDefault(s, i, j);
    }
  }

  lemma {:induction false} DemoteDefaults(s: seq<PolicyVersion>)
    ensures Defaults(Demote(s)) == 0
  {
    if s != [] {
      DemoteDefaults(s[..|s| - 1]);
      DefaultsAppend(Demote(s[..|s| - 1]), PolicyVersion(s[|s| - 1].versionId, false));
    }
  }

  lemma {:induction false} DemoteIds(s: seq<PolicyVersion>)
    ensures Ids(Demote(s)) == Ids(s)
  {
    forall id | id in Ids(s) ensures id in Ids(Demote(s)) {
      var i :| 0 <= i < |s| && s[i].versionId == id;
      assert Demote(s)[i] in Demote(s);
    }
  }

  lemma {:induction false} DistinctAppend(t: seq<PolicyVersion>, x: PolicyVersion)
    requires Distinct(t) && x.versionId !in Ids(t)
    ensures Distinct(t + [x])
  {
    forall i, j | 0 <= i < j < |t + [x]| ensures (t + [x])[i].versionId != (t + [x])[j].versionId {
      if j == |t| {
        assert t[i] in t;
      }
    }
  }

  lemma {:induction false} DistinctInit(s: seq<PolicyVersion>)
    requires Distinct(s) && s != []
    ensures Distinct(s[..|s| - 1]) && s[|s| - 1].versionId !in Ids(s[..|s| - 1])
  {
    var init := s[..|s| - 1];
    forall v | v in init ensures v.versionId != s[|s| - 1].versionId {
      var i :| 0 <= i < |init| && init[i] == v;
      assert s[i] == v;
    }
  }

  /** A created version joins a store whose ids are distinct and fresh. */
  lemma {:induction false} DemoteAppendDistinct(s: seq<PolicyVersion>, newId: string)
    requires Distinct(s) && newId !in Ids(s)
    ensures Distinct(Demote(s) + [PolicyVersion(newId, true)])
  {
    DemoteIds(s);
    DistinctAppend(Demote(s), PolicyVersion(newId, true));
  }

  /** The ids of a store are those of its front and of its last version. */
  lemma {:induction false} IdsInit(s: seq<PolicyVersion>)
    requires s != []
    ensures Ids(s) == Ids(s[..|s| - 1]) + {s[|s| - 1].versionId}
  {
    assert s[..|s| - 1] + [s[|s| - 1]] == s;
    IdsAppend(s[..|s| - 1], s[|s| - 1]);
  }

  lemma {:induction false} RemoveAbsent(s: seq<PolicyVersion>, id: string)
    requires id !in Ids(s)
    ensures Remove(s, id) == s
  {
    if s != [] {
      var init := s[..|s| - 1];
      var x := s[|s| - 1];
      IdsInit(s);
      assert x.versionId != id && id !in Ids(init);
      RemoveAbsent(init, id);
      assert Remove(s, id) == Remove(init, id) + [x];
      assert init + [x] == s;
    }
  }

  lemma {:induction false} RemoveDefaults(s: seq<PolicyVersion>, id: string)
    ensures Defaults(Remove(s, id)) <= Defaults(s)
  {
    if s != [] {
      var init := s[..|s| - 1];
      var x := s[|s| - 1];
      assert s == init + [x];
      DefaultsAppend(init, x);
      RemoveDefaults(init, id);
      var r := Remove(init, id);
      if x.versionId != id {
        assert Remove(s, id) == r + [x];
        DefaultsAppend(r, x);
      } else {
        assert Remove(s, id) == r + [];
        assert r + [] == r;
      }
    }
  }

  lemma {:induction false} RemoveDistinct(s: seq<PolicyVersion>, id: string)
    requires Distinct(s)
    ensures Distinct(Remove(s, id))
  {
    if s != [] {
      var init := s[..|s| - 1];
      var x := s[|s| - 1];
      DistinctInit(s);
      RemoveDistinct(init, id);
      var r := Remove(init, id);
      if x.versionId != id {
        assert Remove(s, id) == r + [x];
        RemoveKeeps(init, id);
        assert Ids(r) <= Ids(init);
        DistinctAppend(r, x);
      }
    }
  }

  lemma {:induction false} RemoveLength(s: seq<PolicyVersion>, id: string)
    requires Distinct(s) && id in Ids(s)
    ensures |Remove(s, id)| == |s| - 1
  {
    var init := s[..|s| - 1];
    var x := s[|s| - 1];
    DistinctInit(s);
    IdsInit(s);
    if x.versionId == id {
      RemoveAbsent(init, id);
      assert Remove(s, id) == init;
    } else {
      RemoveLength(init, id);
      assert Remove(s, id) == Remove(init, id) + [x];
    }
  }

  lemma {:induction false} RemoveFacts(s: seq<PolicyVersion>, id: string)
    ensures Defaults(Remove(s, id)) <= Defaults(s)
    ensures Distinct(s) ==> Distinct(Remove(s, id))
    ensures Distinct(s) && id in Ids(s) ==> |Remove(s, id)| == |s| - 1
  {
    RemoveDefaults(s, id);
    if Distinct(s) {
      RemoveDistinct(s, id);
      if id in Ids(s) {
        RemoveLength(s, id);
      }
    }
  }

  lemma {:induction false} IdsAppend(t: seq<PolicyVersion>, x: PolicyVersion)
    ensures Ids(t + [x]) == Ids(t) + {x.versionId}
  {
    assert (t + [x])[|t|] == x;
    forall id | id in Ids(t) ensures id in Ids(t + [x]) {
      var v :| v in t && v.versionId == id;
      assert v in t + [x];
    }
  }

  /** A version the service creates as the new default, with distinct ids. */
  lemma {:induction false} CreatedStore(s: seq<PolicyVersion>, newId: string)
    requires Distinct(s) && newId !in Ids(s) && |s| < MaxVersions
    ensures CreateVersion(s, newId).Some?
    ensures var t := CreateVersion(s, newId).value;
      && |t| == |s| + 1 && Distinct(t) && Defaults(t) == 1
      && Ids(t) == Ids(s) + {newId}
      && PolicyVersion(newId, true) in t
      && forall id :: id != newId ==> PolicyVersion(id, true) !in t
  {
    var d := Demote(s);
    var t := d + [PolicyVersion(newId, true)];
    assert CreateVersion(s, newId) == Some(t);
    DemoteAppendDistinct(s, newId);
    DemoteDefaults(s);
    DefaultsAppend(d, PolicyVersion(newId, true));
    DemoteIds(s);
    IdsAppend(d, PolicyVersion(newId, true));
    assert t[|s|] == PolicyVersion(newId, true);
    assert forall v :: v in d ==> !v.isDefault;
  }

  /** Deleting a non-default version of a store with distinct ids. */
  lemma {:induction false} DeletedStore(s: seq<PolicyVersion>, id: string)
    requires Distinct(s) && id in Ids(s) && PolicyVersion(id, true) !in s
    ensures DeleteVersion(s, id) == Some(Remove(s, id))
    ensures var t := Remove(s, id);
      && |t| == |s| - 1 && Distinct(t) && Defaults(t) <= Defaults(s)
      && (forall v :: v in t <==> v in s && v.versionId != id)
      && Ids(t) == Ids(s) - {id}
  {
    RemoveFacts(s, id);
    RemoveKeeps(s, id);
  }

  /** With distinct ids, an id names one entry, so one default flag. */
  lemma {:induction false} OneEntryPerId(s: seq<PolicyVersion>, i: nat, j: nat)
    requires Distinct(s) && i < |s| && j < |s| && s[i].versionId == s[j].versionId
    ensures i == j
  {
  }

  /** The default version is the one the store marks default. */
  lemma {:induction false} DefaultIsLastDefault(s: seq<PolicyVersion>, id: string)
    requires WellFormed(s) && id in Ids(s)
    ensures id == LastId(s, true) <==> PolicyVersion(id, true) in s
  {
    var k := LastIndex(s, true);
    if PolicyVersion(id, true) in s {
      var i :| 0 <= i < |s| && s[i] == PolicyVersion(id, true);
      UniqueDefault(s, i, k);
    }
  }

  /** A full store (five versions, one default at most) has a non-default version,
      and `older_version` names one. */
  lemma FullStoreHasOlder(s: seq<PolicyVersion>)
    requires WellFormed(s) && |s| == MaxVersions
    ensures LastIndex(s, false) >= 0
    ensures LastId(s, false) in Ids(s) && PolicyVersion(LastId(s, false), true) !in s
  {
    AtMostOneDefault(s, 0, 1);
    var j := if !s[0].isDefault then 0 else 1;
    var k := LastIndex(s, false);
    assert j <= k;
    assert s[k] in s;
  }

  /** `fix_overly_permissive_policy` on a store with room for one more version:
      the new default is created first, then the reported version is deleted,
      which it can be because it is no longer the default. */
  lemma {:induction false} RemediateWithRoom(s: seq<PolicyVersion>, reported: string, newId: string)
    requires WellFormed(s) && reported in Ids(s) && |s| < MaxVersions
    requires newId !in Ids(s) && newId != "0"
    ensures var r := Remediate(s, reported, newId);
      && r.mitigated && WellFormed(r.versions) && |r.versions| == |s|
      && PolicyVersion(newId, true) in r.versions && reported !in Ids(r.versions)
      && Ids(r.versions) == Ids(s) + {newId} - {reported}
  {
    var info := PolicyInfoOf(s, reported);
    assert info.found && info.count < MaxVersions;
    CreatedStore(s, newId);
    var s1 := CreateVersion(s, newId).value;
    assert reported != newId;
    assert PolicyVersion(reported, true) !in s1 && reported in Ids(s1);
    DeletedStore(s1, reported);
    var s2 := Remove(s1, reported);
    assert Remediate(s, reported, newId) == Remediation(s2, true);
    assert PolicyVersion(newId, true) in s2;
    assert Ids(s2) == Ids(s) + {newId} - {reported};
  }

  /** `fix_overly_permissive_policy` on a full store: one version is deleted
      first, `older_version` when the reported version is the default and the
      reported version otherwise, then the new default is created. */
  lemma {:induction false} RemediateFull(s: seq<PolicyVersion>, reported: string, newId: string)
    requires WellFormed(s) && reported in Ids(s) && |s| == MaxVersions
    requires newId !in Ids(s) && newId != "0"
    ensures var r := Remediate(s, reported, newId);
      && r.mitigated && WellFormed(r.versions) && |r.versions| == |s|
      && PolicyVersion(newId, true) in r.versions
      && PolicyVersion(reported, true) !in r.versions
      && (reported in Ids(r.versions) <==> PolicyVersion(reported, true) in s)
      && var victim := if PolicyVersion(reported, true) in s then LastId(s, false) else reported;
         && victim in Ids(s) && PolicyVersion(victim, true) !in s
         && Ids(r.versions) == Ids(s) - {victim} + {newId}
  {
    var info := PolicyInfoOf(s, reported);
    DefaultIsLastDefault(s, reported);
    FullStoreHasOlder(s);
    var victim := if reported == info.defaultVersion then info.olderVersion else reported;
    assert victim != reported <==> PolicyVersion(reported, true) in s;
    DeletedStore(s, victim);
    var s1 := Remove(s, victim);
    CreatedStore(s1, newId);
    var s2 := Demote(s1) + [PolicyVersion(newId, true)];
    assert Remediate(s, reported, newId) == Remediation(s2, true) by {
      assert info.found && !(info.count < MaxVersions);
      assert DeleteVersion(s, victim) == Some(s1);
      assert CreateVersion(s1, newId) == Some(s2);
    }
    assert reported in Ids(s2) <==> reported != victim;
    assert Ids(s2) == Ids(s) - {victim} + {newId};
  }

  /** The version `fix_overly_permissive_policy` deletes: `older_version` when the
      store is full and the reported version is its default, otherwise the
      reported version. */
  function DeletedVersion(s: seq<PolicyVersion>, reported: string): string
  {
    if |s| >= MaxVersions && PolicyVersion(reported, true) in s then LastId(s, false) else reported
  }

  /** `fix_overly_permissive_policy` on a store the service could hold, for a
      reported version that exists: it always succeeds, leaves the number of
      versions unchanged, makes the created version the only default, and
      removes the reported version unless the store was full and the reported
      version was its default (then only `older_version` is deleted and the
      reported version stays, no longer default). */
  lemma {:induction false} RemediateFound(s: seq<PolicyVersion>, reported: string, newId: string)
    requires WellFormed(s) && reported in Ids(s)
    requires newId !in Ids(s) && newId != "0"
    ensures var r := Remediate(s, reported, newId);
      && r.mitigated
      && WellFormed(r.versions)
      && |r.versions| == |s|
      && PolicyVersion(newId, true) in r.versions
      && PolicyVersion(reported, true) !in r.versions
      && (reported in Ids(r.versions) <==> |s| == MaxVersions && PolicyVersion(reported, true) in s)
      && Ids(r.versions) == Ids(s) - {DeletedVersion(s, reported)} + {newId}
  {
    if |s| < MaxVersions {
      RemediateWithRoom(s, reported, newId);
      assert reported != newId;
    } else {
      RemediateFull(s, reported, newId);
    }
  }

  /** The IoT service's versions of one policy. */
  class PolicyStore {
    var versions: seq<PolicyVersion>

    constructor (versions: seq<PolicyVersion>)
      ensures this.versions == versions
    {
      this.versions := versions;
    }

    method ListPolicyVersions() returns (r: seq<PolicyVersion>)
      ensures r == versions
    {
      r := versions;
    }

    /** `create_policy_version(..., setAsDefault=True)`; false when it raises. */
    method CreatePolicyVersion(newId: string) returns (ok: bool)
      modifies this
      ensures ok <==> CreateVersion(old(versions), newId).Some?
      ensures versions == if ok then CreateVersion(old(versions), newId).value else old(versions)
    {
      match CreateVersion(versions, newId) {
        case None => ok := false;
        case Some(t) => versions := t; ok := true;
      }
    }

    /** `delete_policy_version`; false when it raises. */
    method DeletePolicyVersion(id: string) returns (ok: bool)
      modifies this
      ensures ok <==> DeleteVersion(old(versions), id).Some?
      ensures versions == if ok then DeleteVersion(old(versions), id).value else old(versions)
    {
      match DeleteVersion(versions, id) {
        case None => ok := false;
        case Some(t) => versions := t; ok := true;
      }
    }
  }

  /** `fix_overly_permissive_policy`: `mitigated` tells whether it reached its
      success message; a refused call is caught and ends it. */
  method FixOverlyPermissivePolicy(store: PolicyStore, reported: string, newId: string) returns (mitigated: bool)
    modifies store
    ensures Remediation(store.versions, mitigated) == Remediate(old(store.versions), reported, newId)
  {
    var listed := store.ListPolicyVersions();
    var info := GetPolicyInfo(listed, reported);
    assert info == PolicyInfoOf(listed, reported) by {
      if info.found {
        var i :| 0 <= i < |listed| && listed[i].versionId == reported;
        assert listed[i] in listed;
      }
    }
    if !info.found {
      return false;
    }
    if info.count < MaxVersions {
      var created := store.CreatePolicyVersion(newId);
      if !created {
        return false;
      }
      mitigated := store.DeletePolicyVersion(reported);
    } else {
      var victim := if reported == info.defaultVersion then info.olderVersion else reported;
      var deleted := store.DeletePolicyVersion(victim);
      if !deleted {
        return false;
      }
      mitigated := store.CreatePolicyVersion(newId);
    }
  }

  /** The call `fix_overly_permissive_policy(policy_name, policy_version)`. */
  datatype FixRequest = FixRequest(policyName: string, versionId: string)

  /** What `process_finding` does with one non-compliant resource. */
  datatype FindingAction = Fix(request: FixRequest) | Ignore | Malformed

  /** `resource['resourceIdentifier']['policyVersionIdentifier']` and its
      `policyName` and `policyVersionId`; None when a lookup raises. */
  function PolicyVersionIdentifier(resource: Json): Option<(Json, Json)>
  {
    match Index(resource, "resourceIdentifier")
    case None => None
    case Some(ident) =>
      match Index(ident, "policyVersionIdentifier")
      case None => None
      case Some(id) =>
        match (Index(id, "policyName"), Index(id, "policyVersionId"))
        case (Some(name), Some(version)) => Some((name, version))
        case _ => None
  }

  /** `process_finding`: only a policy finding whose policy name starts with the
      configured prefix is fixed. `Malformed` when a lookup raises or the name is
      not a string. A version id that is not a string matches no version, so the
      fix would change nothing; the model ignores such a finding. */
  function ProcessFinding(resource: Json, prefix: string): (r: FindingAction)
    ensures r.Fix? ==> StartsWith(r.request.policyName, prefix)
    ensures r.Fix? ==> Index(resource, "resourceType") == Some(JStr("IOT_POLICY"))
    ensures r.Fix? <==>
      && Index(resource, "resourceType") == Some(JStr("IOT_POLICY"))
      && PolicyVersionIdentifier(resource).Some?
      && PolicyVersionIdentifier(resource).value.0.JStr?
      && PolicyVersionIdentifier(resource).value.1.JStr?
      && StartsWith(PolicyVersionIdentifier(resource).value.0.s, prefix)
    ensures r.Fix? ==>
      r.request == FixRequest(PolicyVersionIdentifier(resource).value.0.s, PolicyVersionIdentifier(resource).value.1.s)
    ensures Index(resource, "resourceType").None? ==> r == Malformed
  {
    match Index(resource, "resourceType")
    case None => Malformed
    case Some(kind) =>
      if kind != JStr("IOT_POLICY") then Ignore
      else match PolicyVersionIdentifier(resource)
        case None => Malformed
        case Some((name, version)) =>
          if !name.JStr? then Malformed
          else if !StartsWith(name.s, prefix) then Ignore
          else if !version.JStr? then Ignore
          else Fix(FixRequest(name.s, version.s))
  }

  /** The fix requests made for a run of findings, and whether a finding raised
      (which ends the run). */
  datatype FindingRun = FindingRun(requests: seq<FixRequest>, raised: bool)

  /** `process_finding(f['nonCompliantResource'])` for one listed finding. */
  function ActionFor(finding: Json, prefix: string): FindingAction
  {
    match Index(finding, "nonCompliantResource")
    case None => Malformed
    case Some(resource) => ProcessFinding(resource, prefix)
  }

  /** The findings in order, up to the first one that raises. */
  function ProcessFindings(findings: seq<Json>, prefix: string): (r: FindingRun)
    ensures |r.requests| <= |findings|
    ensures forall k :: 0 <= k < |r.requests| ==> StartsWith(r.requests[k].policyName, prefix)
  {
    if findings == [] then FindingRun([], false)
    else
      match ActionFor(findings[0], prefix)
      case Malformed => FindingRun([], true)
      case Ignore => ProcessFindings(findings[1..], prefix)
      case Fix(req) =>
        var rest := ProcessFindings(findings[1..], prefix);
        FindingRun([req] + rest.requests, rest.raised)
  }

  /** Running two stretches of findings one after the other. */
  lemma {:induction false} ProcessFindingsAppend(a: seq<Json>, b: seq<Json>, prefix: string)
    ensures ProcessFindings(a + b, prefix) ==
      var ra := ProcessFindings(a, prefix);
      if ra.raised then ra
      else var rb := ProcessFindings(b, prefix); FindingRun(ra.requests + rb.requests, rb.raised)
  {
    if a != [] {
      assert (a + b)[1..] == a[1..] + b;
      assert (a + b)[0] == a[0];
      ProcessFindingsAppend(a[1..], b, prefix);
    } else {
      assert a + b == b;
    }
  }

  /** One more finding after a run that has not raised. */
  lemma {:induction false} ProcessFindingsSnoc(a: seq<Json>, f: Json, prefix: string)
    requires !ProcessFindings(a, prefix).raised
    ensures ProcessFindings(a + [f], prefix) ==
      var ra := ProcessFindings(a, prefix);
      match ActionFor(f, prefix)
      case Malformed => FindingRun(ra.requests, true)
      case Ignore => ra
      case Fix(req) => FindingRun(ra.requests + [req], false)
  {
    ProcessFindingsAppend(a, [f], prefix);
    assert [f][1..] == [];
  }

  function Flatten(pages: seq<seq<Json>>): seq<Json>
  {
    if pages == [] then [] else Flatten(pages[..|pages| - 1]) + pages[|pages| - 1]
  }

  /** `handle_overly_permissive_policy`: the findings of the first page, then of
      each further page while the previous one carried a `nextToken`; the
      service answers with `pages`, every page but the last carrying one. */
  method HandleOverlyPermissivePolicy(pages: seq<seq<Json>>, prefix: string) returns (run: FindingRun)
    requires |pages| >= 1
    ensures run == ProcessFindings(Flatten(pages), prefix)
  {
    var requests: seq<FixRequest> := [];
    ghost var seen: seq<Json> := [];
    var p := 0;
    while p < |pages|
      invariant 0 <= p <= |pages|
      invariant seen == Flatten(pages[..p])
      invariant ProcessFindings(seen, prefix) == FindingRun(requests, false)
    {
      var findings := pages[p];
      var k := 0;
      while k < |findings|
        invariant 0 <= k <= |findings|
        invariant seen == Flatten(pages[..p]) + findings[..k]
        invariant ProcessFindings(seen, prefix) == FindingRun(requests, false)
      {
        ProcessFindingsSnoc(seen, findings[k], prefix);
        assert findings[..k + 1] == findings[..k] + [findings[k]];
        seen := seen + [findings[k]];
        match ActionFor(findings[k], prefix) {
          case Malformed =>
            assert seen == Flatten(pages[..p]) + pages[p][..k + 1];
            assert ProcessFindings(seen, prefix) == FindingRun(requests, true);
            PagesAfterRaise(pages, p, k + 1, prefix);
            return FindingRun(requests, true);
          case Ignore =>
          case Fix(req) =>
            requests := requests + [req];
        }
        k := k + 1;
      }
      assert findings[..k] == findings;
      assert pages[..p + 1][..p] == pages[..p];
      p := p + 1;
    }
    assert pages[..p] == pages;
    run := FindingRun(requests, false);
  }

  /** A finding that raises on page `p` ends the whole run. */
  lemma {:induction false} PagesAfterRaise(pages: seq<seq<Json>>, p: nat, k: nat, prefix: string)
    requires p < |pages| && k <= |pages[p]|
    requires ProcessFindings(Flatten(pages[..p]) + pages[p][..k], prefix).raised
    ensures ProcessFindings(Flatten(pages), prefix) == ProcessFindings(Flatten(pages[..p]) + pages[p][..k], prefix)
  {
    var done := Flatten(pages[..p]) + pages[p][..k];
    var rest := pages[p][k..] + Flatten(pages[p + 1..]);
    ProcessFindingsAppend(done, rest, prefix);
    FlattenRest(pages, p);
    assert pages[p] == pages[p][..k] + pages[p][k..];
    assert Flatten(pages) == done + rest;
  }

  /** The flattened pages split at page `p`. */
  lemma {:induction false} FlattenRest(pages: seq<seq<Json>>, p: nat)
    requires p < |pages|
    ensures Flatten(pages) == Flatten(pages[..p]) + pages[p] + Flatten(pages[p + 1..])
  {
    var front := pages[..p + 1];
    assert front + pages[p + 1..] == pages;
    FlattenAppend(front, pages[p + 1..]);
    assert front[..|front| - 1] == pages[..p];
    assert Flatten(front) == Flatten(pages[..p]) + pages[p];
  }

  lemma {:induction false} FlattenAppend(a: seq<seq<Json>>, b: seq<seq<Json>>)
    ensures Flatten(a + b) == Flatten(a) + Flatten(b)
    decreases |b|
  {
    if b != [] {
      assert (a + b)[..|a + b| - 1] == a + b[..|b| - 1];
      FlattenAppend(a, b[..|b| - 1]);
    } else {
      assert a + b == a;
    }
  }

  /** What the audit loop of `lambda_handler` does for one audit. */
  datatype AuditStep = HandlePolicies | LogIssue(issueName: Json)
  datatype AuditAction = Skip | Step(step: AuditStep) | Raise

  const OverlyPermissiveCheck: string := "IOT_POLICY_OVERLY_PERMISSIVE_CHECK"

  /** A compliant audit is skipped; otherwise the overly permissive policy
      check is handled and any other check is only logged. */
  function AuditFor(audit: Json): (r: AuditAction)
    ensures r == Skip <==> Index(audit, "checkRunStatus") == Some(JStr("COMPLETED_COMPLIANT"))
    ensures r == Step(HandlePolicies) <==>
      && Index(audit, "checkRunStatus").Some?
      && Index(audit, "checkRunStatus") != Some(JStr("COMPLETED_COMPLIANT"))
      && Index(audit, "checkName") == Some(JStr(OverlyPermissiveCheck))
    ensures r.Step? && r.step.LogIssue? ==> r.step.issueName != JStr(OverlyPermissiveCheck)
  {
    match Index(audit, "checkRunStatus")
    case None => Raise
    case Some(status) =>
      if status == JStr("COMPLETED_COMPLIANT") then Skip
      else match Index(audit, "checkName")
        case None => Raise
        case Some(name) =>
          if name == JStr(OverlyPermissiveCheck) then Step(HandlePolicies) else Step(LogIssue(name))
  }

  /** The steps taken for a list of audits, and whether one raised (which ends the loop). */
  datatype AuditRun = AuditRun(steps: seq<AuditStep>, raised: bool)

  function AuditSteps(audits: seq<Json>): (r: AuditRun)
    ensures |r.steps| <= |audits|
    ensures r.raised <==> exists i :: 0 <= i < |audits| && AuditFor(audits[i]) == Raise
    ensures (forall i :: 0 <= i < |audits| ==> AuditFor(audits[i]) == Skip) ==> r == AuditRun([], false)
  {
    if audits == [] then AuditRun([], false)
    else
      var rest := AuditSteps(audits[1..]);
      assert forall i :: 1 <= i < |audits| ==> audits[i] == audits[1..][i - 1];
      match AuditFor(audits[0])
      case Raise => AuditRun([], true)
      case Skip => rest
      case Step(step) => AuditRun([step] + rest.steps, rest.raised)
  }

  /** One more audit after a run that has not raised. */
  lemma {:induction false} AuditStepsSnoc(a: seq<Json>, audit: Json)
    requires !AuditSteps(a).raised
    ensures AuditSteps(a + [audit]) ==
      match AuditFor(audit)
      case Raise => AuditRun(AuditSteps(a).steps, true)
      case Skip => AuditSteps(a)
      case Step(step) => AuditRun(AuditSteps(a).steps + [step], false)
  {
    if a == [] {
      assert [audit][1..] == [];
    } else {
      assert (a + [audit])[1..] == a[1..] + [audit];
      assert (a + [audit])[0] == a[0];
      if AuditFor(a[0]) != Raise {
        AuditStepsSnoc(a[1..], audit);
      }
    }
  }

  /** `lambda_handler` for the parsed notification `msg`; `result` is None when
      it raises. The steps taken before a raise stay taken. */
  method LambdaHandler(msg: Json, prefix: string) returns (result: Option<string>, steps: seq<AuditStep>)
    ensures Index(msg, "taskId").None? ==> result.None? && steps == []
    ensures Index(msg, "taskId").Some? && prefix == "" ==>
      result == Some("TARGET_POLICY_NAME_PREFIX not defined") && steps == []
    ensures Index(msg, "taskId").Some? && prefix != "" ==>
      match Index(msg, "auditDetails")
      case None => result.None? && steps == []
      case Some(details) =>
        match Records(details)
        case None => result.None? && steps == []
        case Some(audits) =>
          steps == AuditSteps(audits).steps && (result == Some("OK") <==> !AuditSteps(audits).raised)
          && (result.Some? ==> result == Some("OK"))
  {
    steps := [];
    if Index(msg, "taskId").None? {
      return None, steps;
    }
    if prefix == "" {
      return Some("TARGET_POLICY_NAME_PREFIX not defined"), steps;
    }
    var details := Index(msg, "auditDetails");
    if details.None? || Records(details.value).None? {
      return None, steps;
    }
    var audits := Records(details.value).value;
    for i := 0 to |audits|
      invariant AuditSteps(audits[..i]) == AuditRun(steps, false)
    {
      AuditStepsSnoc(audits[..i], audits[i]);
      assert audits[..i + 1] == audits[..i] + [audits[i]];
      match AuditFor(audits[i]) {
        case Raise =>
          AuditStepsPrefixRaised(audits, i + 1);
          return None, steps;
        case Skip =>
        case Step(step) =>
          steps := steps + [step];
      }
    }
    assert audits[..|audits|] == audits;
    result := Some("OK");
  }

  /** A raise ends the loop: the steps are those taken before it. */
  lemma {:induction false} AuditStepsPrefixRaised(audits: seq<Json>, n: nat)
    requires n <= |audits| && AuditSteps(audits[..n]).raised
    ensures AuditSteps(audits) == AuditSteps(audits[..n])
  {
    AuditStepsAppend(audits[..n], audits[n..]);
    assert audits[..n] + audits[n..] == audits;
  }

  lemma {:induction false} AuditStepsAppend(a: seq<Json>, b: seq<Json>)
    ensures AuditSteps(a).raised ==> AuditSteps(a + b) == AuditSteps(a)
  {
    if a != [] && AuditSteps(a).raised {
      assert (a + b)[1..] == a[1..] + b;
      assert (a + b)[0] == a[0];
      if AuditFor(a[0]) != Raise {
        AuditStepsAppend(a[1..], b);
      }
    }
  }
}
