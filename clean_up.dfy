/** The account clean-up script: it deletes IAM roles with their policies, IoT
    policies and certificates nothing uses any more, and the simulated devices
    ("dev-" things) with their policies and certificates. The account is
    abstract: what each listing request answers is an `Account`, which requests
    raise is a set. Every procedure yields the steps it took, in order. */
module CleanUp {
  import opened Strings
  import opened Json
  import opened Services
  import PolicyRemediation

  const Prefix := "dev-"
  const ProtectedPrefix := "dev-DDQA"
  const DefenderAuditRole := "AWSIoTDeviceDefenderAudit_Role"

  type PolicyVersion = PolicyRemediation.PolicyVersion

  datatype Certificate = Certificate(arn: string, id: string)

  /** What the listing requests answer; a key that is absent lists nothing.
      `things` is the first page of `list_things`; the paging that follows is
      modelled on its own, by `PageThingsAsWritten` and `PageThings`. */
  datatype Account = Account(
    rolePolicies: map<string, seq<string>>,
    policies: seq<string>,
    targets: map<string, seq<string>>,
    versions: map<string, seq<PolicyVersion>>,
    certificates: seq<Certificate>,
    certificatePolicies: map<string, seq<string>>,
    things: seq<string>,
    thingPrincipals: map<string, seq<string>>,
    principalPolicies: map<string, seq<string>>)

  function Listing<T>(m: map<string, seq<T>>, key: string): seq<T> {
    if key in m then m[key] else []
  }

  /** The requests the script sends to IAM and IoT, and one local step that
      raises: `principal.split('/')[1]` on a principal without "/". */
  datatype Step =
    | IamListAttachedRolePolicies(role: string)
    | IamDetachRolePolicy(policyArn: string, role: string)
    | IamDeletePolicy(policyArn: string)
    | IamDeleteRole(role: string)
    | DeleteAccountAuditConfiguration
    | ListPolicies
    | ListTargetsForPolicy(policy: string)
    | ListPolicyVersions(policy: string)
    | DeletePolicyVersion(policy: string, versionId: string)
    | DeletePolicy(policy: string)
    | ListCertificates
    | ListAttachedPolicies(target: string)
    | UpdateCertificateInactive(certificateId: string)
    | DeleteCertificate(certificateId: string)
    | ListThings
    | ListThingPrincipals(thing: string)
    | ListPrincipalPolicies(principal: string)
    | DetachPolicy(policy: string, target: string)
    | DetachThingPrincipal(thing: string, principal: string)
    | DeleteThing(thing: string)
    | CertificateIdMissing

  // ---------------------------------------------------------------- roles

  /** `get_role_name_from_role_arn`: the text after the last "/", or the whole
      ARN when it has none. */
  function RoleName(roleArn: string): (name: string)
    ensures |name| <= |roleArn| && name == roleArn[|roleArn| - |name|..]
    ensures '/' !in name
    ensures |name| < |roleArn| ==> roleArn[|roleArn| - |name| - 1] == '/'
    ensures '/' !in roleArn ==> name == roleArn
  {
    var parts := Split(roleArn, '/');
    SplitLastPiece(roleArn, '/');
    parts[|parts| - 1]
  }

  /** Detaching, then deleting, each attached policy from position `i` on. */
  function RolePolicySteps(role: string, arns: seq<string>, i: nat): seq<Step>
    requires i <= |arns|
    decreases |arns| - i
  {
    if i == |arns| then []
    else [IamDetachRolePolicy(arns[i], role), IamDeletePolicy(arns[i])] + RolePolicySteps(role, arns, i + 1)
  }

  /** The `try` block of `delete_role`. */
  function RolePlan(role: string, account: Account): seq<Step> {
    [IamListAttachedRolePolicies(role)]
      + RolePolicySteps(role, Listing(account.rolePolicies, role), 0)
      + [IamDeleteRole(role)]
  }

  lemma {:induction false} RolePolicyStepsShape(role: string, arns: seq<string>, i: nat)
    requires i <= |arns|
    ensures |RolePolicySteps(role, arns, i)| == 2 * (|arns| - i)
    ensures forall k :: i <= k < |arns| ==>
      && RolePolicySteps(role, arns, i)[2 * (k - i)] == IamDetachRolePolicy(arns[k], role)
      && RolePolicySteps(role, arns, i)[2 * (k - i) + 1] == IamDeletePolicy(arns[k])
    decreases |arns| - i
  {
    if i < |arns| {
      RolePolicyStepsShape(role, arns, i + 1);
      var steps := RolePolicySteps(role, arns, i);
      var rest := RolePolicySteps(role, arns, i + 1);
      assert steps == [IamDetachRolePolicy(arns[i], role), IamDeletePolicy(arns[i])] + rest;
      forall k | i < k < |arns|
        ensures steps[2 * (k - i)] == IamDetachRolePolicy(arns[k], role)
        ensures steps[2 * (k - i) + 1] == IamDeletePolicy(arns[k])
      {
        assert steps[2 * (k - i)] == rest[2 * (k - i - 1)];
        assert steps[2 * (k - i) + 1] == rest[2 * (k - i - 1) + 1];
      }
    }
  }

  /** `delete_role` lists the role's policies first, detaches each before
      deleting it, and deletes the role last. */
  lemma {:induction false} RolePlanOrder(role: string, account: Account)
    ensures var plan := RolePlan(role, account); var arns := Listing(account.rolePolicies, role);
      && |plan| == 2 * |arns| + 2
      && plan[0] == IamListAttachedRolePolicies(role)
      && plan[|plan| - 1] == IamDeleteRole(role)
      && forall k :: 0 <= k < |arns| ==>
           plan[2 * k + 1] == IamDetachRolePolicy(arns[k], role) && plan[2 * k + 2] == IamDeletePolicy(arns[k])
  {
    RolePolicyStepsShape(role, Listing(account.rolePolicies, role), 0);
  }

  /** `delete_role(role_name)`: the first failing request ends the role's
      clean-up (the exception is printed). */
  method DeleteRole(role: string, account: Account, failing: set<Step>) returns (steps: seq<Step>)
    ensures steps == Attempt(RolePlan(role, account), failing).issued
  {
    var arns := Listing(account.rolePolicies, role);
    var list := IamListAttachedRolePolicies(role);
    ghost var plan := RolePlan(role, account);
    assert plan == [list] + (RolePolicySteps(role, arns, 0) + [IamDeleteRole(role)]);
    AttemptCons(list, RolePolicySteps(role, arns, 0) + [IamDeleteRole(role)], failing);
    steps := [list];
    if list in failing {
      return;
    }
    var i := 0;
    while i < |arns|
      invariant 0 <= i <= |arns|
      invariant Prepend(steps, Attempt(RolePolicySteps(role, arns, i) + [IamDeleteRole(role)], failing)) == Attempt(plan, failing)
    {
      var detach := IamDetachRolePolicy(arns[i], role);
      var delete := IamDeletePolicy(arns[i]);
      RolePolicyStep(role, arns, i, steps, failing);
      steps := steps + [detach];
      if detach in failing {
        return;
      }
      steps := steps + [delete];
      if delete in failing {
        return;
      }
      i := i + 1;
    }
    assert RolePolicySteps(role, arns, i) + [IamDeleteRole(role)] == [IamDeleteRole(role)] + [];
    AttemptCons(IamDeleteRole(role), [], failing);
    steps := steps + [IamDeleteRole(role)];
  }

  /** One turn of `delete_role`'s loop, seen from the steps taken before it. */
  lemma {:induction false} RolePolicyStep(role: string, arns: seq<string>, i: nat, steps: seq<Step>, failing: set<Step>)
    requires i < |arns|
    ensures var detach := IamDetachRolePolicy(arns[i], role);
      var delete := IamDeletePolicy(arns[i]);
      Prepend(steps, Attempt(RolePolicySteps(role, arns, i) + [IamDeleteRole(role)], failing)) ==
        if detach in failing then Run(steps + [detach], true)
        else if delete in failing then Run(steps + [detach] + [delete], true)
        else Prepend(steps + [detach] + [delete], Attempt(RolePolicySteps(role, arns, i + 1) + [IamDeleteRole(role)], failing))
  {
    var detach := IamDetachRolePolicy(arns[i], role);
    var delete := IamDeletePolicy(arns[i]);
    var rest := RolePolicySteps(role, arns, i + 1) + [IamDeleteRole(role)];
    assert RolePolicySteps(role, arns, i) + [IamDeleteRole(role)] == [detach] + ([delete] + rest);
    AttemptCons(detach, [delete] + rest, failing);
    AttemptCons(delete, rest, failing);
    PrependTwice(steps, [detach], Attempt([delete] + rest, failing));
    PrependTwice(steps + [detach], [delete], Attempt(rest, failing));
  }

  /** `clean_device_defender_config`: the audit configuration is deleted in a
      `try` of its own, so the audit role is cleaned up whether or not that
      request fails. */
  method CleanDeviceDefenderConfig(account: Account, failing: set<Step>) returns (steps: seq<Step>)
    ensures steps == Attempt([DeleteAccountAuditConfiguration], failing).issued
                     + Attempt(RolePlan(DefenderAuditRole, account), failing).issued
  {
    steps := [DeleteAccountAuditConfiguration];
    var roleSteps := DeleteRole(DefenderAuditRole, account, failing);
    steps := steps + roleSteps;
  }

  // ---------------------------------------------------------------- orphan policies

  /** Deleting each non-default version from position `i` on. */
  function VersionSteps(policy: string, versions: seq<PolicyVersion>, i: nat): seq<Step>
    requires i <= |versions|
    decreases |versions| - i
  {
    if i == |versions| then []
    else
      var delete := if versions[i].isDefault then [] else [DeletePolicyVersion(policy, versions[i].versionId)];
      delete + VersionSteps(policy, versions, i + 1)
  }

  /** The `try` block for one policy in `delete_orphan_policies`: a policy with
      targets is left alone; otherwise its non-default versions go, then the
      policy. */
  function PolicyPlan(policy: string, account: Account): seq<Step> {
    [ListTargetsForPolicy(policy)]
      + if Listing(account.targets, policy) != [] then []
        else [ListPolicyVersions(policy)] + VersionSteps(policy, Listing(account.versions, policy), 0) + [DeletePolicy(policy)]
  }

  lemma {:induction false} VersionStepsContents(policy: string, versions: seq<PolicyVersion>, i: nat, s: Step)
    requires i <= |versions|
    ensures s in VersionSteps(policy, versions, i) <==>
      exists k :: i <= k < |versions| && !versions[k].isDefault && s == DeletePolicyVersion(policy, versions[k].versionId)
    decreases |versions| - i
  {
    if i < |versions| {
      VersionStepsContents(policy, versions, i + 1, s);
      var delete := if versions[i].isDefault then [] else [DeletePolicyVersion(policy, versions[i].versionId)];
      assert VersionSteps(policy, versions, i) == delete + VersionSteps(policy, versions, i + 1);
      if exists k :: i <= k < |versions| && !versions[k].isDefault && s == DeletePolicyVersion(policy, versions[k].versionId) {
        var k :| i <= k < |versions| && !versions[k].isDefault && s == DeletePolicyVersion(policy, versions[k].versionId);
        if k == i {
          assert s in delete;
        }
      }
    }
  }

  /** A policy with targets is never deleted. Otherwise exactly its
      non-default versions are deleted, all before the policy itself. */
  lemma {:induction false} PolicyPlanDeletes(policy: string, account: Account, s: Step)
    ensures var plan := PolicyPlan(policy, account);
      var versions := Listing(account.versions, policy);
      && (Listing(account.targets, policy) != [] ==> plan == [ListTargetsForPolicy(policy)])
      && (Listing(account.targets, policy) == [] ==>
            && plan[|plan| - 1] == DeletePolicy(policy)
            && DeletePolicy(policy) !in plan[..|plan| - 1]
            && (s in plan && s.DeletePolicyVersion? <==>
                  exists k :: 0 <= k < |versions| && !versions[k].isDefault
                    && s == DeletePolicyVersion(policy, versions[k].versionId)))
  {
    if Listing(account.targets, policy) == [] {
      var versions := Listing(account.versions, policy);
      var plan := PolicyPlan(policy, account);
      var middle := VersionSteps(policy, versions, 0);
      var front := [ListTargetsForPolicy(policy), ListPolicyVersions(policy)];
      assert plan == front + middle + [DeletePolicy(policy)];
      VersionStepsContents(policy, versions, 0, DeletePolicy(policy));
      assert plan[..|plan| - 1] == front + middle;
      VersionStepsContents(policy, versions, 0, s);
      assert s in plan && s.DeletePolicyVersion? <==> s in middle;
    }
  }

  /** One policy's `try` block, with its loop over versions. */
  method DeletePolicyIfOrphan(policy: string, account: Account, failing: set<Step>) returns (steps: seq<Step>)
    ensures steps == Attempt(PolicyPlan(policy, account), failing).issued
  {
    ghost var plan := PolicyPlan(policy, account);
    var list := ListTargetsForPolicy(policy);
    steps := [list];
    if Listing(account.targets, policy) != [] {
      assert plan == [list] + [];
      AttemptCons(list, [], failing);
      return;
    }
    var versions := Listing(account.versions, policy);
    var listVersions := ListPolicyVersions(policy);
    ghost var tail := VersionSteps(policy, versions, 0) + [DeletePolicy(policy)];
    assert plan == [list] + ([listVersions] + tail);
    AttemptCons(list, [listVersions] + tail, failing);
    if list in failing {
      return;
    }
    AttemptCons(listVersions, tail, failing);
    PrependTwice([list], [listVersions], Attempt(tail, failing));
    steps := steps + [listVersions];
    if listVersions in failing {
      return;
    }
    var i := 0;
    while i < |versions|
      invariant 0 <= i <= |versions|
      invariant Prepend(steps, Attempt(VersionSteps(policy, versions, i) + [DeletePolicy(policy)], failing)) == Attempt(plan, failing)
    {
      ghost var rest := VersionSteps(policy, versions, i + 1) + [DeletePolicy(policy)];
      if !versions[i].isDefault {
        var delete := DeletePolicyVersion(policy, versions[i].versionId);
        assert VersionSteps(policy, versions, i) + [DeletePolicy(policy)] == [delete] + rest;
        AttemptCons(delete, rest, failing);
        PrependTwice(steps, [delete], Attempt(rest, failing));
        steps := steps + [delete];
        if delete in failing {
          return;
        }
      } else {
        assert VersionSteps(policy, versions, i) + [DeletePolicy(policy)] == rest;
      }
      i := i + 1;
    }
    assert VersionSteps(policy, versions, i) + [DeletePolicy(policy)] == [DeletePolicy(policy)] + [];
    AttemptCons(DeletePolicy(policy), [], failing);
    steps := steps + [DeletePolicy(policy)];
  }

  /** The steps for the policies from position `i` on: each in its own `try`. */
  function PoliciesFrom(account: Account, failing: set<Step>, i: nat): seq<Step>
    requires i <= |account.policies|
    decreases |account.policies| - i
  {
    if i == |account.policies| then []
    else Attempt(PolicyPlan(account.policies[i], account), failing).issued + PoliciesFrom(account, failing, i + 1)
  }

  /** `delete_orphan_policies`: `list_policies` is outside any `try`, so its
      failure ends the script. */
  function OrphanPolicyRun(account: Account, failing: set<Step>): Run<Step> {
    if ListPolicies in failing then Run([ListPolicies], true)
    else Run([ListPolicies] + PoliciesFrom(account, failing, 0), false)
  }

  method DeleteOrphanPolicies(account: Account, failing: set<Step>) returns (steps: seq<Step>, raised: bool)
    ensures Run(steps, raised) == OrphanPolicyRun(account, failing)
  {
    steps := [ListPolicies];
    raised := ListPolicies in failing;
    if raised {
      return;
    }
    var i := 0;
    while i < |account.policies|
      invariant 0 <= i <= |account.policies|
      invariant steps + PoliciesFrom(account, failing, i) == [ListPolicies] + PoliciesFrom(account, failing, 0)
    {
      var policySteps := DeletePolicyIfOrphan(account.policies[i], account, failing);
      steps := steps + policySteps;
      i := i + 1;
    }
  }

  /** An error on one policy does not stop the loop: every listed policy has
      its targets examined. */
  lemma {:induction false} EveryPolicyIsExamined(account: Account, failing: set<Step>, i: nat, k: nat)
    requires i <= k < |account.policies|
    ensures ListTargetsForPolicy(account.policies[k]) in PoliciesFrom(account, failing, i)
    decreases k - i
  {
    var first := Attempt(PolicyPlan(account.policies[i], account), failing).issued;
    if i == k {
      assert first[0] == ListTargetsForPolicy(account.policies[k]);
    } else {
      EveryPolicyIsExamined(account, failing, i + 1, k);
    }
  }

  // ---------------------------------------------------------------- orphan certificates

  /** The `try` block for one certificate: it is deleted, after being set
      INACTIVE, only when no policy is attached to it. */
  function CertificatePlan(c: Certificate, account: Account): seq<Step> {
    [ListAttachedPolicies(c.arn)]
      + if Listing(account.certificatePolicies, c.arn) != [] then []
        else [UpdateCertificateInactive(c.id), DeleteCertificate(c.id)]
  }

  function CertificatesFrom(account: Account, failing: set<Step>, i: nat): seq<Step>
    requires i <= |account.certificates|
    decreases |account.certificates| - i
  {
    if i == |account.certificates| then []
    else
      var first := Attempt(CertificatePlan(account.certificates[i], account), failing).issued;
      first + CertificatesFrom(account, failing, i + 1)
  }

  /** `delete_orphan_certificates`; `list_certificates` is outside any `try`. */
  function OrphanCertificateRun(account: Account, failing: set<Step>): Run<Step> {
    if ListCertificates in failing then Run([ListCertificates], true)
    else Run([ListCertificates] + CertificatesFrom(account, failing, 0), false)
  }

  method DeleteOrphanCertificates(account: Account, failing: set<Step>) returns (steps: seq<Step>, raised: bool)
    ensures Run(steps, raised) == OrphanCertificateRun(account, failing)
  {
    steps := [ListCertificates];
    raised := ListCertificates in failing;
    if raised {
      return;
    }
    var i := 0;
    while i < |account.certificates|
      invariant 0 <= i <= |account.certificates|
      invariant steps + CertificatesFrom(account, failing, i) == [ListCertificates] + CertificatesFrom(account, failing, 0)
    {
      var c := account.certificates[i];
      steps := steps + Attempt(CertificatePlan(c, account), failing).issued;
      i := i + 1;
    }
  }

  /** An error on one certificate does not stop the loop: every listed
      certificate has its attached policies listed. */
  lemma {:induction false} EveryCertificateIsExamined(account: Account, failing: set<Step>, i: nat, k: nat)
    requires i <= k < |account.certificates|
    ensures ListAttachedPolicies(account.certificates[k].arn) in CertificatesFrom(account, failing, i)
    decreases k - i
  {
    var first := Attempt(CertificatePlan(account.certificates[i], account), failing).issued;
    if i == k {
      assert first[0] == ListAttachedPolicies(account.certificates[k].arn);
    } else {
      EveryCertificateIsExamined(account, failing, i + 1, k);
    }
  }

  /** A certificate is deleted only when it has no attached policies, and it
      was set INACTIVE by the step just before. */
  lemma {:induction false} CertificatesDeletedOnlyWhenOrphan(account: Account, failing: set<Step>, i: nat, j: nat)
    requires i <= |account.certificates|
    requires j < |CertificatesFrom(account, failing, i)|
    requires CertificatesFrom(account, failing, i)[j].DeleteCertificate?
    ensures var steps := CertificatesFrom(account, failing, i);
      && 0 < j && steps[j - 1] == UpdateCertificateInactive(steps[j].certificateId)
      && exists c :: c in account.certificates[i..] && c.id == steps[j].certificateId
           && Listing(account.certificatePolicies, c.arn) == []
    decreases |account.certificates| - i
  {
    var steps := CertificatesFrom(account, failing, i);
    var c := account.certificates[i];
    var first := Attempt(CertificatePlan(c, account), failing).issued;
    var rest := CertificatesFrom(account, failing, i + 1);
    assert steps == first + rest;
    if j < |first| {
      AttemptFacts(CertificatePlan(c, account), failing);
      assert first[j] == CertificatePlan(c, account)[j];
      assert first[j - 1] == CertificatePlan(c, account)[j - 1];
      assert c in account.certificates[i..];
    } else {
      CertificatesDeletedOnlyWhenOrphan(account, failing, i + 1, j - |first|);
      assert rest[j - |first|] == steps[j];
      if j - |first| > 0 {
        assert rest[j - |first| - 1] == steps[j - 1];
      }
      assert account.certificates[i + 1..] <= account.certificates[i..][1..];
      forall c' | c' in account.certificates[i + 1..]
        ensures c' in account.certificates[i..]
      {
        var m :| 0 <= m < |account.certificates[i + 1..]| && account.certificates[i + 1..][m] == c';
        assert account.certificates[i..][m + 1] == c';
      }
      var c' :| c' in account.certificates[i + 1..] && c'.id == steps[j].certificateId
        && Listing(account.certificatePolicies, c'.arn) == [];
    }
  }

  // ---------------------------------------------------------------- things

  datatype ThingAction = Skip | Remove

  /** The selection in `clean_things_and_attached_resources`: "dev-DDQA" things
      are skipped first, then names without the "dev-" prefix; the third
      branch's test always holds by then. */
  function ThingActionFor(name: string): (a: ThingAction)
    ensures a == Remove <==> StartsWith(name, Prefix) && !StartsWith(name, ProtectedPrefix)
  {
    if StartsWith(name, ProtectedPrefix) then Skip
    else if !StartsWith(name, Prefix) then Skip
    else Remove
  }

  /** `principal.split('/')[1]`; None where the index raises. */
  function CertificateId(principal: string): (id: Option<string>)
    ensures id.Some? <==> '/' in principal
    ensures id.Some? ==> '/' !in id.value
  {
    var parts := Split(principal, '/');
    SplitHasPieces(principal, '/');
    SplitPiecesHaveNoSeparator(principal, '/');
    if |parts| >= 2 then Some(parts[1]) else None
  }

  /** The certificate id is the text between the first "/" of the principal
      (at `i`) and the next "/", or the end of the principal. */
  lemma {:induction false} CertificateIdIsSecondPiece(principal: string, i: nat)
    requires i < |principal| && principal[i] == '/' && '/' !in principal[..i]
    ensures CertificateId(principal).Some?
    ensures var id := CertificateId(principal).value;
      && i + 1 + |id| <= |principal|
      && id == principal[i + 1..i + 1 + |id|]
      && (i + 1 + |id| == |principal| || principal[i + 1 + |id|] == '/')
  {
    SplitFirstPiece(principal, '/');
    var first := Split(principal, '/')[0];
    assert |first| == i;
    var rest := principal[i + 1..];
    SplitFirstPiece(rest, '/');
    assert Split(principal, '/')[1] == Split(rest, '/')[0];
  }

  /** Split yields more than one piece exactly when the separator occurs. */
  lemma {:induction false} SplitHasPieces(s: string, sep: char)
    ensures |Split(s, sep)| >= 2 <==> sep in s
    decreases |s|
  {
    if s != [] {
      SplitHasPieces(s[1..], sep);
      assert s == [s[0]] + s[1..];
    }
  }

  /** Detaching, then deleting, each policy of a principal from position `i` on. */
  function PolicyDetachSteps(principal: string, policies: seq<string>, i: nat): seq<Step>
    requires i <= |policies|
    decreases |policies| - i
  {
    if i == |policies| then []
    else [DetachPolicy(policies[i], principal), DeletePolicy(policies[i])] + PolicyDetachSteps(principal, policies, i + 1)
  }

  /** After the principal is detached: delete the thing, then deactivate and
      delete the certificate; or raise where the certificate id is missing. */
  function CertificateSteps(thing: string, principal: string): seq<Step> {
    match CertificateId(principal)
    case Some(id) => [DeleteThing(thing), UpdateCertificateInactive(id), DeleteCertificate(id)]
    case None => [CertificateIdMissing]
  }

  /** The body of the per-principal loop. */
  function PrincipalPlan(thing: string, principal: string, account: Account): seq<Step> {
    [ListPrincipalPolicies(principal)]
      + PolicyDetachSteps(principal, Listing(account.principalPolicies, principal), 0)
      + [DetachThingPrincipal(thing, principal)]
      + CertificateSteps(thing, principal)
  }

  function PrincipalsFrom(thing: string, principals: seq<string>, account: Account, i: nat): seq<Step>
    requires i <= |principals|
    decreases |principals| - i
  {
    if i == |principals| then []
    else PrincipalPlan(thing, principals[i], account) + PrincipalsFrom(thing, principals, account, i + 1)
  }

  /** The `try` block removing one thing. */
  function ThingPlan(thing: string, account: Account): seq<Step> {
    [ListThingPrincipals(thing)] + PrincipalsFrom(thing, Listing(account.thingPrincipals, thing), account, 0)
  }

  /** The steps that raise: the failing requests and the missing certificate id. */
  function Raising(failing: set<Step>): set<Step> {
    failing + {CertificateIdMissing}
  }

  /** A thing is deleted only inside its per-principal loop: a thing with no
      principals is never deleted. */
  lemma {:induction false} ThingWithoutPrincipalsStays(thing: string, account: Account)
    requires Listing(account.thingPrincipals, thing) == []
    ensures ThingPlan(thing, account) == [ListThingPrincipals(thing)]
    ensures DeleteThing(thing) !in ThingPlan(thing, account)
  {
  }

  /** Per principal: each policy is detached, then deleted; then the principal
      is detached, the thing deleted, and the certificate named by the second
      "/"-separated segment set INACTIVE and deleted. */
  lemma {:induction false} PrincipalPlanOrder(thing: string, principal: string, account: Account)
    requires '/' in principal
    ensures var plan := PrincipalPlan(thing, principal, account);
      var policies := Listing(account.principalPolicies, principal);
      var id := Split(principal, '/')[1];
      && |plan| == 2 * |policies| + 5
      && plan[0] == ListPrincipalPolicies(principal)
      && (forall k :: 0 <= k < |policies| ==>
            plan[2 * k + 1] == DetachPolicy(policies[k], principal) && plan[2 * k + 2] == DeletePolicy(policies[k]))
      && plan[|plan| - 4..] == [DetachThingPrincipal(thing, principal), DeleteThing(thing),
                               UpdateCertificateInactive(id), DeleteCertificate(id)]
  {
    var policies := Listing(account.principalPolicies, principal);
    var detach := PolicyDetachSteps(principal, policies, 0);
    PolicyDetachStepsShape(principal, policies, 0);
    SplitHasPieces(principal, '/');
    var id := Split(principal, '/')[1];
    var tail := [DetachThingPrincipal(thing, principal), DeleteThing(thing),
                 UpdateCertificateInactive(id), DeleteCertificate(id)];
    assert CertificateSteps(thing, principal) == tail[1..];
    var plan := PrincipalPlan(thing, principal, account);
    assert plan == [ListPrincipalPolicies(principal)] + detach + tail;
    forall k | 0 <= k < |policies|
      ensures plan[2 * k + 1] == DetachPolicy(policies[k], principal)
      ensures plan[2 * k + 2] == DeletePolicy(policies[k])
    {
      assert plan[2 * k + 1] == detach[2 * k];
      assert plan[2 * k + 2] == detach[2 * k + 1];
    }
    assert plan[|plan| - 4..] == tail;
  }

  lemma {:induction false} PolicyDetachStepsShape(principal: string, policies: seq<string>, i: nat)
    requires i <= |policies|
    ensures |PolicyDetachSteps(principal, policies, i)| == 2 * (|policies| - i)
    ensures forall k :: i <= k < |policies| ==>
      && PolicyDetachSteps(principal, policies, i)[2 * (k - i)] == DetachPolicy(policies[k], principal)
      && PolicyDetachSteps(principal, policies, i)[2 * (k - i) + 1] == DeletePolicy(policies[k])
    decreases |policies| - i
  {
    if i < |policies| {
      PolicyDetachStepsShape(principal, policies, i + 1);
      var steps := PolicyDetachSteps(principal, policies, i);
      var rest := PolicyDetachSteps(principal, policies, i + 1);
      assert steps == [DetachPolicy(policies[i], principal), DeletePolicy(policies[i])] + rest;
      forall k | i < k < |policies|
        ensures steps[2 * (k - i)] == DetachPolicy(policies[k], principal)
        ensures steps[2 * (k - i) + 1] == DeletePolicy(policies[k])
      {
        assert steps[2 * (k - i)] == rest[2 * (k - i - 1)];
        assert steps[2 * (k - i) + 1] == rest[2 * (k - i - 1) + 1];
      }
    }
  }

  /** The per-principal body as three stretches: the policy listing, the
      policy loop, then detaching the principal and deleting the thing and
      certificate. */
  lemma {:induction false} PrincipalAttempt(thing: string, principal: string, account: Account, F: set<Step>)
    ensures var list := ListPrincipalPolicies(principal);
      var detach := PolicyDetachSteps(principal, Listing(account.principalPolicies, principal), 0);
      var tail := [DetachThingPrincipal(thing, principal)] + CertificateSteps(thing, principal);
      var d := Attempt(detach, F);
      Attempt(PrincipalPlan(thing, principal, account), F) ==
        if list in F then Run([list], true)
        else if d.raised then Prepend([list], d)
        else Prepend([list] + detach, Attempt(tail, F))
  {
    var list := ListPrincipalPolicies(principal);
    var detach := PolicyDetachSteps(principal, Listing(account.principalPolicies, principal), 0);
    var tail := [DetachThingPrincipal(thing, principal)] + CertificateSteps(thing, principal);
    assert PrincipalPlan(thing, principal, account) == [list] + (detach + tail);
    AttemptCons(list, detach + tail, F);
    AttemptAppend(detach, tail, F);
    PrependTwice([list], detach, Attempt(tail, F));
  }

  /** One principal of a thing: list its policies, detach and delete each,
      then detach the principal and delete the thing and the certificate. */
  method RemovePrincipal(thing: string, principal: string, account: Account, failing: set<Step>)
    returns (steps: seq<Step>, raised: bool)
    ensures Run(steps, raised) == Attempt(PrincipalPlan(thing, principal, account), Raising(failing))
  {
    var F := Raising(failing);
    var policies := Listing(account.principalPolicies, principal);
    var list := ListPrincipalPolicies(principal);
    PrincipalAttempt(thing, principal, account, F);
    steps := [list];
    raised := list in F;
    if raised {
      return;
    }
    var policySteps, policyRaised := DetachPolicies(principal, policies, F);
    steps := steps + policySteps;
    raised := policyRaised;
    if raised {
      return;
    }
    var tailSteps, tailRaised := DetachAndDelete(thing, principal, F);
    steps := steps + tailSteps;
    raised := tailRaised;
  }

  /** The loop over a principal's policies: detach each, then delete it. */
  method DetachPolicies(principal: string, policies: seq<string>, F: set<Step>) returns (steps: seq<Step>, raised: bool)
    ensures Run(steps, raised) == Attempt(PolicyDetachSteps(principal, policies, 0), F)
  {
    steps := [];
    raised := false;
    var i := 0;
    while i < |policies|
      invariant 0 <= i <= |policies|
      invariant Prepend(steps, Attempt(PolicyDetachSteps(principal, policies, i), F)) == Attempt(PolicyDetachSteps(principal, policies, 0), F)
    {
      var detach := DetachPolicy(policies[i], principal);
      var delete := DeletePolicy(policies[i]);
      DetachPolicyStep(principal, policies, i, steps, F);
      steps := steps + [detach];
      if detach in F {
        raised := true;
        return;
      }
      steps := steps + [delete];
      if delete in F {
        raised := true;
        return;
      }
      i := i + 1;
    }
  }

  /** One turn of the policy loop, seen from the steps taken before it. */
  lemma {:induction false} DetachPolicyStep(principal: string, policies: seq<string>, i: nat, steps: seq<Step>, F: set<Step>)
    requires i < |policies|
    ensures var detach := DetachPolicy(policies[i], principal);
      var delete := DeletePolicy(policies[i]);
      Prepend(steps, Attempt(PolicyDetachSteps(principal, policies, i), F)) ==
        if detach in F then Run(steps + [detach], true)
        else if delete in F then Run(steps + [detach] + [delete], true)
        else Prepend(steps + [detach] + [delete], Attempt(PolicyDetachSteps(principal, policies, i + 1), F))
  {
    var detach := DetachPolicy(policies[i], principal);
    var delete := DeletePolicy(policies[i]);
    var rest := PolicyDetachSteps(principal, policies, i + 1);
    assert PolicyDetachSteps(principal, policies, i) == [detach] + ([delete] + rest);
    AttemptCons(detach, [delete] + rest, F);
    AttemptCons(delete, rest, F);
    PrependTwice(steps, [detach], Attempt([delete] + rest, F));
    PrependTwice(steps + [detach], [delete], Attempt(rest, F));
  }

  /** The end of the per-principal body: detach the principal, take the
      certificate id, delete the thing, deactivate and delete the certificate. */
  method DetachAndDelete(thing: string, principal: string, F: set<Step>) returns (steps: seq<Step>, raised: bool)
    ensures Run(steps, raised) == Attempt([DetachThingPrincipal(thing, principal)] + CertificateSteps(thing, principal), F)
  {
    var detachThing := DetachThingPrincipal(thing, principal);
    AttemptCons(detachThing, CertificateSteps(thing, principal), F);
    steps := [detachThing];
    raised := detachThing in F;
    if raised {
      return;
    }
    var id := CertificateId(principal);
    if id.None? {
      AttemptCons(CertificateIdMissing, [], F);
      steps := steps + [CertificateIdMissing];
      raised := CertificateIdMissing in F;
      return;
    }
    var deleteThing := DeleteThing(thing);
    var inactive := UpdateCertificateInactive(id.value);
    var deleteCertificate := DeleteCertificate(id.value);
    AttemptCons(deleteThing, [inactive, deleteCertificate], F);
    AttemptCons(inactive, [deleteCertificate], F);
    AttemptCons(deleteCertificate, [], F);
    steps := steps + [deleteThing];
    raised := deleteThing in F;
    if raised {
      return;
    }
    steps := steps + [inactive];
    raised := inactive in F;
    if raised {
      return;
    }
    steps := steps + [deleteCertificate];
    raised := deleteCertificate in F;
  }

  /** The `try` block removing one thing, with its loop over principals. */
  method RemoveThing(thing: string, account: Account, failing: set<Step>) returns (steps: seq<Step>)
    ensures steps == Attempt(ThingPlan(thing, account), Raising(failing)).issued
  {
    var F := Raising(failing);
    ghost var plan := ThingPlan(thing, account);
    var list := ListThingPrincipals(thing);
    var principals := Listing(account.thingPrincipals, thing);
    AttemptCons(list, PrincipalsFrom(thing, principals, account, 0), F);
    steps := [list];
    if list in F {
      return;
    }
    var i := 0;
    while i < |principals|
      invariant 0 <= i <= |principals|
      invariant Prepend(steps, Attempt(PrincipalsFrom(thing, principals, account, i), F)) == Attempt(plan, F)
    {
      ghost var rest := PrincipalsFrom(thing, principals, account, i + 1);
      var principalSteps, raised := RemovePrincipal(thing, principals[i], account, failing);
      AttemptAppend(PrincipalPlan(thing, principals[i], account), rest, F);
      PrependTwice(steps, principalSteps, Attempt(rest, F));
      steps := steps + principalSteps;
      if raised {
        return;
      }
      i := i + 1;
    }
  }

  function ThingsFrom(account: Account, failing: set<Step>, i: nat): seq<Step>
    requires i <= |account.things|
    decreases |account.things| - i
  {
    if i == |account.things| then []
    else
      var first :=
        if ThingActionFor(account.things[i]) == Remove
        then Attempt(ThingPlan(account.things[i], account), Raising(failing)).issued
        else [];
      first + ThingsFrom(account, failing, i + 1)
  }

  /** `clean_things_and_attached_resources`: the whole function is one `try`,
      and each removed thing has a `try` of its own. */
  function CleanThingsSteps(account: Account, failing: set<Step>): seq<Step> {
    if ListThings in failing then [ListThings]
    else [ListThings] + ThingsFrom(account, failing, 0)
  }

  method CleanThingsAndAttachedResources(account: Account, failing: set<Step>) returns (steps: seq<Step>)
    ensures steps == CleanThingsSteps(account, failing)
  {
    steps := [ListThings];
    if ListThings in failing {
      return;
    }
    var i := 0;
    while i < |account.things|
      invariant 0 <= i <= |account.things|
      invariant steps + ThingsFrom(account, failing, i) == [ListThings] + ThingsFrom(account, failing, 0)
    {
      var thing := account.things[i];
      if ThingActionFor(thing) == Remove {
        var thingSteps := RemoveThing(thing, account, failing);
        steps := steps + thingSteps;
      }
      i := i + 1;
    }
  }

  /** Only selected things are touched: every step naming a thing in the
      clean-up of things names one with the "dev-" prefix that is not a
      "dev-DDQA" device. */
  lemma {:induction false} OnlySelectedThingsAreDeleted(account: Account, failing: set<Step>, i: nat, s: Step)
    requires i <= |account.things|
    requires s in ThingsFrom(account, failing, i) && s.DeleteThing?
    ensures StartsWith(s.thing, Prefix) && !StartsWith(s.thing, ProtectedPrefix)
    decreases |account.things| - i
  {
    var thing := account.things[i];
    var rest := ThingsFrom(account, failing, i + 1);
    if s !in rest {
      assert ThingActionFor(thing) == Remove;
      var run := Attempt(ThingPlan(thing, account), Raising(failing));
      AttemptFacts(ThingPlan(thing, account), Raising(failing));
      assert s in ThingPlan(thing, account) by {
        var k :| 0 <= k < |run.issued| && run.issued[k] == s;
        assert ThingPlan(thing, account)[k] == s;
      }
      ThingPlanDeletesOnlyItself(thing, account, s);
    } else {
      OnlySelectedThingsAreDeleted(account, failing, i + 1, s);
    }
  }

  /** The removal of one thing deletes no other thing. */
  lemma {:induction false} ThingPlanDeletesOnlyItself(thing: string, account: Account, s: Step)
    requires s in ThingPlan(thing, account) && s.DeleteThing?
    ensures s == DeleteThing(thing)
  {
    var principals := Listing(account.thingPrincipals, thing);
    PrincipalsDeleteOnlyThing(thing, principals, account, 0, s);
  }

  lemma {:induction false} PrincipalsDeleteOnlyThing(thing: string, principals: seq<string>, account: Account, i: nat, s: Step)
    requires i <= |principals|
    requires s in PrincipalsFrom(thing, principals, account, i) && s.DeleteThing?
    ensures s == DeleteThing(thing)
    decreases |principals| - i
  {
    var p := principals[i];
    if s in PrincipalPlan(thing, p, account) {
      var policies := Listing(account.principalPolicies, p);
      if s in PolicyDetachSteps(p, policies, 0) {
        PolicyDetachStepsDeleteNoThing(p, policies, 0);
      }
    } else {
      PrincipalsDeleteOnlyThing(thing, principals, account, i + 1, s);
    }
  }

  /** Detaching and deleting policies deletes no thing. */
  lemma {:induction false} PolicyDetachStepsDeleteNoThing(principal: string, policies: seq<string>, i: nat)
    requires i <= |policies|
    ensures forall s :: s in PolicyDetachSteps(principal, policies, i) ==> !s.DeleteThing?
    decreases |policies| - i
  {
    if i < |policies| {
      PolicyDetachStepsDeleteNoThing(principal, policies, i + 1);
    }
  }

  // ---------------------------------------------------------------- paging through things

  /** One answer of `list_things`: the page's thing names and its `nextToken`. */
  datatype ThingsPage = ThingsPage(things: seq<string>, nextToken: Option<string>)

  /** A request of the per-principal loop whose answer is assigned to `r`:
      all of them but the policy listing. */
  predicate AssignsListingVariable(s: Step) {
    || s.DetachPolicy? || s.DeletePolicy? || s.DetachThingPrincipal?
    || s.DeleteThing? || s.UpdateCertificateInactive? || s.DeleteCertificate?
  }

  /** After the loop over the first page, `r` holds the `list_things` answer
      only while none of those requests has returned: an answer that arrives
      replaces it, and carries no `nextToken`. */
  predicate ListingReplaced(steps: seq<Step>, failing: set<Step>) {
    exists k :: 0 <= k < |steps| && AssignsListingVariable(steps[k]) && steps[k] !in failing
  }

  /** The paging loop at the end of `clean_things_and_attached_resources`, as
      written, over the answers the service gives: `pages[0]` answers the first
      request, `pages[i]` the i-th request made with a token. The first token
      is looked up in `r`, which the removal of the first page's things may
      have replaced; `next_token` is only ever set, never reset, so the loop
      keeps asking once a first token was seen. The things of the pages read
      in the loop are never removed. The result is the number of answers
      read, or None when the answers run out while the loop would still ask
      for another page. The first answer is the listing whose things the loop
      over the first page removes. */
  method PageThingsAsWritten(account: Account, failing: set<Step>, pages: seq<ThingsPage>) returns (read: Option<nat>)
    requires |pages| >= 1 && pages[0].things == account.things
    ensures ListThings in failing ==> read == Some(0)
    ensures ListThings !in failing ==>
      var replaced := ListingReplaced(CleanThingsSteps(account, failing), failing);
      && (pages[0].nextToken.Some? && !replaced ==> read.None?)
      && (pages[0].nextToken.None? || replaced ==> read == Some(1))
  {
    if ListThings in failing {
      return Some(0);
    }
    var replaced := ListingReplaced(CleanThingsSteps(account, failing), failing);
    var firstToken := if replaced then None else pages[0].nextToken;
    var nextToken: Option<string> := None;
    if firstToken.Some? {
      nextToken := firstToken;
    }
    var i := 1;
    while nextToken.Some?
      invariant 1 <= i <= |pages|
      invariant firstToken.Some? <==> nextToken.Some?
      invariant firstToken.None? ==> i == 1
      decreases |pages| - i
    {
      if i == |pages| {
        return None;
      }
      var r := pages[i];
      if r.nextToken.Some? {
        nextToken := r.nextToken;
      }
      i := i + 1;
    }
    read := Some(i);
  }

  /** The things of every page up to and including the first page without a
      `nextToken`; None when no page ends the listing. */
  function ListedThings(pages: seq<ThingsPage>): (r: Option<seq<string>>)
    ensures r.Some? ==> |pages| >= 1 && |pages[0].things| <= |r.value| && r.value[..|pages[0].things|] == pages[0].things
  {
    if pages == [] then None
    else if pages[0].nextToken.None? then Some(pages[0].things)
    else match ListedThings(pages[1..])
      case None => None
      case Some(rest) => Some(pages[0].things + rest)
  }

  /** `collected` in front of a listing that may not end. */
  function Extend(collected: seq<string>, r: Option<seq<string>>): Option<seq<string>> {
    match r
    case None => None
    case Some(rest) => Some(collected + rest)
  }

  /** The listing ends exactly when some page has no `nextToken`. */
  lemma {:induction false} ListedThingsEnds(pages: seq<ThingsPage>)
    ensures ListedThings(pages).Some? <==> exists j :: 0 <= j < |pages| && pages[j].nextToken.None?
  {
    if pages != [] && pages[0].nextToken.Some? {
      ListedThingsEnds(pages[1..]);
      if exists j :: 0 <= j < |pages| && pages[j].nextToken.None? {
        var j :| 0 <= j < |pages| && pages[j].nextToken.None?;
        assert pages[1..][j - 1] == pages[j];
      }
      if exists j :: 0 <= j < |pages[1..]| && pages[1..][j].nextToken.None? {
        var j :| 0 <= j < |pages[1..]| && pages[1..][j].nextToken.None?;
        assert pages[j + 1] == pages[1..][j];
      }
    }
  }

  /** The paging loop as evidently intended: each answer's token replaces the
      previous one (a missing token ends the loop), and every page's things are
      collected for removal. */
  method PageThings(pages: seq<ThingsPage>) returns (things: Option<seq<string>>)
    requires |pages| >= 1
    ensures things == ListedThings(pages)
  {
    var collected := pages[0].things;
    var nextToken := pages[0].nextToken;
    var i := 1;
    while nextToken.Some?
      invariant 1 <= i <= |pages|
      invariant ListedThings(pages) ==
        if nextToken.None? then Some(collected) else Extend(collected, ListedThings(pages[i..]))
      decreases |pages| - i
    {
      if i == |pages| {
        assert pages[i..] == [];
        return None;
      }
      var r := pages[i];
      assert pages[i..][0] == r && pages[i..][1..] == pages[i + 1..];
      if r.nextToken.Some? {
        match ListedThings(pages[i + 1..]) {
          case None =>
          case Some(rest) => assert collected + (r.things + rest) == (collected + r.things) + rest;
        }
      }
      collected := collected + r.things;
      nextToken := r.nextToken;
      i := i + 1;
    }
    things := Some(collected);
  }
}
