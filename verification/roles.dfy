/** `assume_role`: the role reference and the credential exchange. */
module Roles {
  import opened Outcomes
  import opened Provider

  const ArnPrefix: string := "arn:aws:iam::"
  const RoleInfix: string := ":role/"

  /** The `RoleSessionName` every role assumption uses. */
  const SessionName: string := "AZMapperTool"

  /** The role ARN: the account id and the role name placed into the IAM role template. */
  function RoleArn(accountId: string, roleName: string): (arn: string)
    ensures |arn| == |ArnPrefix| + |accountId| + |RoleInfix| + |roleName|
    ensures arn[..|ArnPrefix|] == ArnPrefix
    ensures arn[|ArnPrefix|..|ArnPrefix| + |accountId|] == accountId
    ensures arn[|ArnPrefix| + |accountId|..|arn| - |roleName|] == RoleInfix
    ensures arn[|arn| - |roleName|..] == roleName
  {
    ArnPrefix + accountId + RoleInfix + roleName
  }

  /** Position of the first ':' in `s` at or after `from`, or `|s|` when there is none. */
  function ColonFrom(s: string, from: nat): (i: nat)
    requires from <= |s|
    ensures from <= i <= |s|
    ensures forall j :: from <= j < i ==> s[j] != ':'
    ensures i < |s| ==> s[i] == ':'
    decreases |s| - from
  {
    if from == |s| || s[from] == ':' then from else ColonFrom(s, from + 1)
  }

  /** Reads the account id and role name back out of a role ARN. */
  function ParseRoleArn(arn: string): (r: Option<(string, string)>)
    ensures r.Some? ==> ':' !in r.value.0 && RoleArn(r.value.0, r.value.1) == arn
  {
    if |arn| < |ArnPrefix| || arn[..|ArnPrefix|] != ArnPrefix then None
    else
      var i := ColonFrom(arn, |ArnPrefix|);
      if i + |RoleInfix| <= |arn| && arn[i..i + |RoleInfix|] == RoleInfix then
        var accountId, roleName := arn[|ArnPrefix|..i], arn[i + |RoleInfix|..];
        assert arn == ArnPrefix + accountId + RoleInfix + roleName;
        Some((accountId, roleName))
      else None
  }

  /** Account ids never contain ':', so the ARN names its account and role unambiguously. */
  lemma ParseRoleArnRoundTrip(accountId: string, roleName: string)
    ensures ':' !in accountId ==> ParseRoleArn(RoleArn(accountId, roleName)) == Some((accountId, roleName))
  {
    if ':' in accountId {
      return;
    }
    var arn := RoleArn(accountId, roleName);
    var n := |ArnPrefix| + |accountId|;
    assert arn[n] == ':';
    assert forall j :: |ArnPrefix| <= j < n ==> arn[j] == accountId[j - |ArnPrefix|];
    assert ColonFrom(arn, |ArnPrefix|) == n;
  }

  /** Distinct (account, role) pairs get distinct ARNs. */
  lemma RoleArnInjective(a1: string, r1: string, a2: string, r2: string)
    requires ':' !in a1 && ':' !in a2
    requires RoleArn(a1, r1) == RoleArn(a2, r2)
    ensures a1 == a2 && r1 == r2
  {
    ParseRoleArnRoundTrip(a1, r1);
    ParseRoleArnRoundTrip(a2, r2);
  }

  /** The `assume_role` request sent for an account and role. */
  function RoleRequestFor(accountId: string, roleName: string): (req: RoleRequest)
    ensures req.sessionName == SessionName
    ensures ':' !in accountId ==> ParseRoleArn(req.roleArn) == Some((accountId, roleName))
  {
    ParseRoleArnRoundTrip(accountId, roleName);
    RoleRequest(RoleArn(accountId, roleName), SessionName)
  }

  /** The provider's answer to the role assumption for an account. */
  function RoleReplyFor(accountId: string, roleName: string, cloud: Cloud): RoleReply {
    cloud.assumeRole(RoleRequestFor(accountId, roleName))
  }

  /**
    The credential exchange: the provider's credentials when it grants the role,
    and otherwise its error, re-raised unchanged.
   */
  function AssumeRole(accountId: string, roleName: string, cloud: Cloud): (r: Result<Credentials, RunError>)
    ensures r.Success? <==> RoleReplyFor(accountId, roleName, cloud).Granted?
    ensures r.Success? ==> r.value == RoleReplyFor(accountId, roleName, cloud).credentials
    ensures r.Failure? ==> r.error == RoleRefused(RoleReplyFor(accountId, roleName, cloud).message)
  {
    match RoleReplyFor(accountId, roleName, cloud)
    case Granted(c) => Success(c)
    case Refused(m) => Failure(RoleRefused(m))
  }
}
