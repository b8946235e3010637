/** The approval policy: who may decide on a waiting step. */
module ApprovalPolicy {
  import opened Options
  import opened Text

  datatype Policy = Policy(minApprovers: int, allowedRoles: seq<string>, selfApproval: bool)

  /** What a step's request fixes once and for all. The two budget figures are the metadata values
      that parse as numbers. */
  datatype Info = Info(
    job: string, step: string, tenant: string, pathKey: string, owner: string, policy: Policy,
    estimatedCost: Option<real>, approverLimit: Option<real>)

  datatype Violation =
    | ApproverMissing | SelfApprovalBlocked | ApproverTenantMissing | TenantMismatch
    | RoleNotAllowed | BudgetExceeded

  datatype PolicyResult = Allowed | Denied(violation: Violation)

  /** `strings.EqualFold` on ASCII text. */
  predicate EqualFold(a: string, b: string)
  {
    |a| == |b| && forall i :: 0 <= i < |a| ==> LowerChar(a[i]) == LowerChar(b[i])
  }

  /** Texts are equal but for case when they are equally long and each pair of characters is the same or the two
      cases of one letter, 32 apart. */
  lemma EqualFoldByCode(a: string, b: string)
    ensures EqualFold(a, b) <==> |a| == |b| && forall i :: 0 <= i < |a| ==> SameLetter(a[i] as int, b[i] as int)
  {
  }

  predicate SameLetter(x: int, y: int)
  {
    x == y || (65 <= x <= 90 && y == x + 32) || (65 <= y <= 90 && x == y + 32)
  }

  predicate RoleListed(roles: seq<string>, role: string)
  {
    exists i :: 0 <= i < |roles| && EqualFold(roles[i], role)
  }

  /** The rules a permitted approver meets, whatever the order they are checked in. */
  predicate Authorised(info: Info, approver: string, role: string, tenant: string)
  {
    && approver != ""
    && (info.policy.selfApproval || info.owner == "" || approver != info.owner)
    && (info.tenant == "" || tenant == info.tenant)
    && (info.policy.allowedRoles == [] || RoleListed(info.policy.allowedRoles, role))
    && (info.estimatedCost.Some? && info.approverLimit.Some? ==> info.estimatedCost.value <= info.approverLimit.value)
  }

  function Evaluate(info: Info, approver: string, role: string, tenant: string): (r: PolicyResult)
    ensures r.Allowed? <==> Authorised(info, approver, role, tenant)
  {
    if approver == "" then Denied(ApproverMissing)
    else if !info.policy.selfApproval && info.owner != "" && approver == info.owner then Denied(SelfApprovalBlocked)
    else if info.tenant != "" && tenant == "" then Denied(ApproverTenantMissing)
    else if info.tenant != "" && tenant != info.tenant then Denied(TenantMismatch)
    else if |info.policy.allowedRoles| > 0 && !RoleListed(info.policy.allowedRoles, role) then Denied(RoleNotAllowed)
    else if info.estimatedCost.Some? && info.approverLimit.Some? && info.estimatedCost.value > info.approverLimit.value
    then Denied(BudgetExceeded)
    else Allowed
  }

  /** The engine's evaluation, with its scan of the allowed roles. */
  method EvaluateApproval(info: Info, approver: string, role: string, tenant: string) returns (r: PolicyResult)
    ensures r == Evaluate(info, approver, role, tenant)
  {
    if approver == "" {
      return Denied(ApproverMissing);
    }
    if !info.policy.selfApproval && info.owner != "" && approver == info.owner {
      return Denied(SelfApprovalBlocked);
    }
    if info.tenant != "" {
      if tenant == "" {
        return Denied(ApproverTenantMissing);
      }
      if tenant != info.tenant {
        return Denied(TenantMismatch);
      }
    }
    var roles := info.policy.allowedRoles;
    if |roles| > 0 {
      var allowed := false;
      for i := 0 to |roles|
        invariant !allowed && forall k :: 0 <= k < i ==> !EqualFold(roles[k], role)
      {
        if EqualFold(roles[i], role) {
          allowed := true;
          break;
        }
      }
      if !allowed {
        return Denied(RoleNotAllowed);
      }
    }
    if info.estimatedCost.Some? && info.approverLimit.Some? && info.estimatedCost.value > info.approverLimit.value {
      return Denied(BudgetExceeded);
    }
    return Allowed;
  }
}
