/** The approval binding that must hold before a write credential is issued. */
module Credentials {
  import opened Wrappers
  import opened Jobs
  import opened Plan
  import opened Capabilities

  // The check of an approved job against the workspace, as the worker makes it.
  function VerifyApproved(j: Job, auth: Authority, ws: Workspace): Result<ExecutionPlan, PlanError>
  {
    if j.gate.diff.None? || j.gate.executionPlan.None? || j.gate.executionPlanHash.None?
       || j.gate.approvalHash != j.gate.executionPlanHash then Err(HashMismatch)
    else VerifyPrWorkspace(auth, j.request.args, j.gate.diff.value, j.gate.executionPlan.value, j.gate.executionPlanHash.value, ws)
  }

  // An approved job verifies exactly when it holds a diff and a plan, its approval is for the hash of that
  // plan, and the plan passes against the workspace.
  lemma ApprovedIs(j: Job, auth: Authority, ws: Workspace, p: ExecutionPlan)
    ensures VerifyApproved(j, auth, ws) == Ok(p) <==>
              && j.gate.diff.Some? && j.gate.executionPlan.Some? && j.gate.approvalHash == Some(Digest(p)) == j.gate.executionPlanHash
              && VerifyPrWorkspace(auth, j.request.args, j.gate.diff.value, j.gate.executionPlan.value, Digest(p), ws) == Ok(p)
  {
    hide VerifyWorkspace, Digest;
    if j.gate.diff.Some? && j.gate.executionPlan.Some? && j.gate.executionPlanHash.Some? {
      AcceptedText(auth, j.request.args, j.gate.diff.value, j.gate.executionPlan.value, j.gate.executionPlanHash.value, p);
    }
  }

  datatype BindingError =
    | NoJobId
    | NotApproved
    | NoApprovalHash
    | ApprovalHashMismatch
    | PlanHashMismatch
    | PolicyNotCurrent
    | UnknownCapabilities
    | ScoreMismatch
    | AboveCeiling
    | NoWriteCapability

  // The checks in the order they are made; the result is the hash the grant is bound to.
  function RequireApprovalBinding(job: Job, plan: ExecutionPlan): Result<string, BindingError>
  {
    var approval := job.gate.approvalHash;
    var score := RiskScore(plan.capabilities);
    if job.id == "" then Err(NoJobId)
    else if job.gate.approvedBy.None? then Err(NotApproved)
    else if approval.None? || approval.value == "" then Err(NoApprovalHash)
    else if approval != job.gate.executionPlanHash then Err(ApprovalHashMismatch)
    else if Digest(plan) != approval.value then Err(PlanHashMismatch)
    else if plan.policyVersion != POLICY_VERSION then Err(PolicyNotCurrent)
    else if score.Err? then Err(UnknownCapabilities)
    else if score.value != plan.riskScore then Err(ScoreMismatch)
    else if score.value > plan.riskCeiling then Err(AboveCeiling)
    else if WRITE_LOW !in plan.capabilities then Err(NoWriteCapability)
    else Ok(approval.value)
  }

  // A plan passes exactly when the job is approved for its digest and it scores itself rightly, can
  // write, and stays under the ceiling it was approved with; the grant is bound to that digest.
  lemma BindingIs(job: Job, plan: ExecutionPlan, hash: string)
    ensures RequireApprovalBinding(job, plan) == Ok(hash) <==>
              && job.id != "" && job.gate.approvedBy.Some? && hash != ""
              && job.gate.approvalHash == Some(hash) && job.gate.executionPlanHash == Some(hash) && Digest(plan) == hash
              && plan.policyVersion == "secure-runtime-v1" && "write-low" in plan.capabilities
              && plan.riskScore >= 0 && RiskScore(plan.capabilities) == Ok(plan.riskScore) && plan.riskScore <= plan.riskCeiling
  {
    hide Digest, RiskScore;
  }

  // A grant names one plan: no other plan passes the binding of the same job.
  lemma BindingNamesOnePlan(job: Job, p: ExecutionPlan, q: ExecutionPlan)
    requires RequireApprovalBinding(job, p).Ok? && RequireApprovalBinding(job, q).Ok?
    ensures p == q
  {
    DigestInjective(p, q);
  }

  // After the workspace check of a job whose approval matches its plan hash, the binding can only
  // fail for want of a job id or of a write capability.
  lemma VerifiedPlanBinds(job: Job, auth: Authority, ws: Workspace)
    requires job.gate.approvedBy.Some? && VerifyApproved(job, auth, ws).Ok?
    ensures var plan := VerifyApproved(job, auth, ws).value;
            RequireApprovalBinding(job, plan).Ok? <==> job.id != "" && WRITE_LOW in plan.capabilities
  {
    assert Digest(VerifyApproved(job, auth, ws).value) == job.gate.executionPlanHash.value;
  }
}
