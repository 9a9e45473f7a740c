/** The worker: one job from claim to the end of its turn. */
module WorkerLoop {
  import opened Wrappers
  import opened Jobs
  import opened JobStore
  import opened Plan
  import opened Credentials
  import opened SqliteJobs
  import opened AuditStore
  import opened Trail
  import opened Drift
  import AuditEvents
  import PrExecution
  import opened Grants
  import Decimal
  import Hashing
  import OrderedQuery
  import Policy
  import StepTree
  import PyText

  // ---- what happens to one turn from outside -----------------------------

  datatype ExnKind =
    | NoExecutor
    | PolicyDenied(resource: string)
    | PlanRejected
    | CredentialRefused
    | Drifted(observed: seq<string>)
    | ExecutorRaised
    | NoDiff

  datatype CommandOutcome = CommandOutcome(
    result: string,
    diff: Option<string>,
    costUsd: Option<real>,
    tokens: Option<int>,
    calls: seq<ToolCall>)

  datatype Execution = Raised | Returned(outcome: CommandOutcome)

  // A job some producer asks for.
  datatype Arrival = Arrival(id: string, request: Request, at: Time)

  // The readings of the clocks, what producers enqueue before the poll, the answers of the scope
  // policy, what the workspace looks like each time it is checked, what the model run comes to, and
  // the words of messages.
  datatype Env = Env(
    cutoff: Time,
    arrivals: seq<Arrival>,
    claimAt: Time,
    settleAt: Time,
    clock: nat -> string,
    hasExecutor: bool,
    scope: Result<string, string>,
    auth: Authority,
    seen: Workspace,
    seenAgain: Workspace,
    root: string,
    run: Execution,
    terms: Terms,
    summary: Ending -> string,
    timeout: string,
    text: ExnKind -> string)

  // What the approved step would meet next: the answers of commands from `base` on, and the token.
  datatype Met = Met(answers: nat -> PrExecution.Completed, base: nat, token: Option<string>)

  datatype Metric = Metric(jobId: string, command: string, success: bool, error: string)

  datatype Verdict = Parks(diff: string, plan: ExecutionPlan) | Completes(report: Report) | Fails(kind: ExnKind)

  function Settled(j: Job, v: Verdict, env: Env): Job
  {
    match v
    case Parks(diff, plan) => Parked(j, diff, Some(CanonicalJson(plan)), Some(Digest(plan)), env.settleAt)
    case Completes(report) => Completed(j, Outcome(Done, report), env.settleAt)
    case Fails(kind) => Completed(j, Outcome(Status.Failed, FailedReport(env.text(kind))), env.settleAt)
  }

  function ReportOf(outcome: CommandOutcome): Report
  {
    Report(Some(outcome.result), outcome.costUsd, outcome.tokens, None)
  }

  // ---- what decides the verdict ------------------------------------------

  // The calls a model run streamed; the approved step runs no model.
  function CallsOf(j: Job, env: Env): seq<ToolCall>
  {
    if ApprovedPr(j) || env.run.Raised? then [] else env.run.outcome.calls
  }

  ghost predicate Resolution(j: Job, env: Env, steps: seq<Drift.Step>)
  {
    && |steps| == |CallsOf(j, env)|
    && forall i :: 0 <= i < |steps| ==>
         steps[i].call == CallsOf(j, env)[i] && CountsAs(j.request.command, CallsOf(j, env)[i], steps[i].tool)
  }

  function PlanFor(j: Job, env: Env): Option<ExecutionPlan>
  {
    if ApprovedPr(j) then
      var r := VerifyApproved(j, env.auth, env.seen);
      if r.Ok? then Some(r.value) else None
    else None
  }

  // What the drift gate says of the observed steps.
  function GateSays(j: Job, env: Env, steps: seq<Drift.Step>): Result<seq<string>, Drift.Drifted>
  {
    EnforceObserved(j.request.command, steps, PlanFor(j, env))
  }

  // Model runs answer to the allowlist of their command, never to a plan; an approved job to its verified plan.
  lemma AuthorityOfRun(j: Job, env: Env, steps: seq<Drift.Step>)
    ensures !ApprovedPr(j) ==> GateSays(j, env, steps) == EnforceObserved(j.request.command, steps, None)
    ensures ApprovedPr(j) && VerifyApproved(j, env.auth, env.seen).Ok? ==>
              GateSays(j, env, steps) == EnforceObserved("pr", steps, Some(VerifyApproved(j, env.auth, env.seen).value))
  {
    hide EnforceObserved, VerifyApproved;
  }

  // The plan of an approved job passes both checks, the worker's and the executor's own.
  predicate Verified(j: Job, env: Env)
  {
    VerifyApproved(j, env.auth, env.seen).Ok? && VerifyApproved(j, env.auth, env.seenAgain).Ok?
  }

  function ApprovedPlan(j: Job, env: Env): ExecutionPlan
    requires Verified(j, env)
  {
    VerifyApproved(j, env.auth, env.seenAgain).value
  }

  ghost predicate StepEnds(j: Job, env: Env, met: Met, r: StepResult)
    requires Verified(j, env)
  {
    Ended(j, ApprovedPlan(j, env), env.terms, met.token, met.answers, met.base, r)
  }

  function ApprovedOutcome(env: Env, ending: Ending): CommandOutcome
  {
    CommandOutcome(env.summary(ending), None, None, None, [])
  }

  function ApprovedVerdict(env: Env, r: StepResult): Verdict
  {
    match r
    case Summary(ending) => Completes(ReportOf(ApprovedOutcome(env, ending)))
    case BindingRejected => Fails(CredentialRefused)
    case IssuerRaised => Fails(CredentialRefused)
    case NoToken => Fails(CredentialRefused)
    case StepRaised => Fails(ExecutorRaised)
  }

  // What becomes of an outcome that stayed within authority: only a pull request job in its first
  // phase is parked, and it never completes.
  function OutcomeVerdict(j: Job, env: Env, outcome: CommandOutcome): Verdict
  {
    if PhaseOf(j) == Execute then Completes(ReportOf(outcome))
    else if outcome.diff.Some? then
      if j.request.command != "pr" then Fails(PlanRejected)
      else
        var plan := BuildPrPlan(env.auth, j.request.args, outcome.diff.value, env.root);
        if plan.Err? then Fails(PlanRejected) else Parks(outcome.diff.value, plan.value)
    else if j.request.command == "pr" then Fails(NoDiff)
    else Completes(ReportOf(outcome))
  }

  ghost predicate ApprovedRunEnds(j: Job, env: Env, met: Met, v: Verdict)
  {
    if !Verified(j, env) then v == Fails(PlanRejected)
    else exists r :: StepEnds(j, env, met, r) && v == ApprovedVerdict(env, r)
  }

  // The gate first, then what becomes of the outcome.
  function GateVerdict(j: Job, env: Env, outcome: CommandOutcome, steps: seq<Drift.Step>): Verdict
  {
    if GateSays(j, env, steps).Err? then Fails(Drifted(ObservedCapabilities(Executed(steps)))) else OutcomeVerdict(j, env, outcome)
  }

  ghost predicate ModelRunEnds(j: Job, env: Env, outcome: CommandOutcome, v: Verdict)
  {
    exists steps :: Resolution(j, env, steps)
      && v == GateVerdict(j, env, outcome, steps)
  }

  // The verdict and its causes, in the order the worker looks at them.
  ghost predicate Decides(j: Job, env: Env, met: Met, v: Verdict)
  {
    if !env.hasExecutor then v == Fails(NoExecutor)
    else if env.scope.Err? then v == Fails(PolicyDenied(env.scope.error))
    else if ApprovedPr(j) then ApprovedRunEnds(j, env, met, v)
    else if env.run.Raised? then v == Fails(ExecutorRaised)
    else ModelRunEnds(j, env, env.run.outcome, v)
  }

  // ---- what the trail shows ----------------------------------------------

  function Target(env: Env): string
  {
    if env.hasExecutor && env.scope.Ok? then env.scope.value else ""
  }

  function Observed(j: Job, env: Env, steps: seq<Drift.Step>): seq<string>
  {
    var r := GateSays(j, env, steps);
    if r.Ok? then r.value else []
  }

  function ClaimEntry(j: Job): TrailEntry
  {
    TrailEntry(CLAIMED, "command=" + j.request.command, map["command" := j.request.command], "", j.request.command, [], "", "")
  }

  function ParkEntry(j: Job, diff: string, plan: ExecutionPlan, observed: seq<string>, root: string, target: string): TrailEntry
  {
    TrailEntry(AWAITING_APPROVAL, "diff " + Decimal.Text(|diff|) + " chars; plan=" + Digest(plan),
               map["execution_plan_hash" := Digest(plan), "policy_version" := plan.policyVersion,
                   "risk_score" := Decimal.Text(plan.riskScore), "risk_ceiling" := Decimal.Text(plan.riskCeiling),
                   "observed_capabilities" := PyText.Join(observed, ',')],
               root, j.request.command, plan.capabilities, target, Hashing.Sha256(diff))
  }

  // Written for every approved job that completes, whatever became of its pull request.
  function PostconditionEntries(j: Job, root: string, target: string): seq<TrailEntry>
  {
    if ApprovedPr(j) then
      var hash := if j.gate.approvalHash.Some? then j.gate.approvalHash.value else "";
      [TrailEntry(POSTCONDITION_VERIFIED, "approval_hash=" + hash, map["approval_hash" := hash, "check" := "remote_pr_diff"],
                  root, "gh pr diff", [], target, "")]
    else []
  }

  function DoneEntry(j: Job, result: string, observed: seq<string>, root: string, target: string): TrailEntry
  {
    TrailEntry(DONE, "", map[], root, j.request.command, observed, target, Hashing.Sha256(result))
  }

  // The entry for the kind of exception, if it has one.
  function CauseEntries(j: Job, kind: ExnKind, root: string, target: string, env: Env): seq<TrailEntry>
  {
    match kind
    case Drifted(observed) =>
      [TrailEntry(CAPABILITY_DRIFT, "observed capability exceeded the authorized set",
                  map["reason" := env.text(kind), "observed" := PyText.Join(observed, ',')], root, j.request.command, observed, target, "")]
    case PlanRejected =>
      [TrailEntry(PLAN_BINDING_REJECTED, "execution plan verification failed",
                  map["error_type" := "ExecutionPlanError", "reason" := env.text(kind)], root, j.request.command, [], target, "")]
    case NoExecutor =>
      [TrailEntry(POLICY_DENIED, "command rejected by default-deny executor gate",
                  map["command" := j.request.command, "reason" := "default_deny"], root, j.request.command, [], "", "")]
    case PolicyDenied(resource) =>
      [TrailEntry(POLICY_DENIED, "command rejected by deterministic scope boundary",
                  map["reason" := env.text(kind)], root, j.request.command, [], resource, "")]
    case _ => []
  }

  function FailedEntry(j: Job, kind: ExnKind, root: string, target: string, env: Env): TrailEntry
  {
    TrailEntry(FAILED, env.text(kind), map[], root, j.request.command, [], target, "")
  }

  function FailureEntries(j: Job, kind: ExnKind, root: string, target: string, steps: seq<Drift.Step>, env: Env): seq<TrailEntry>
  {
    ToolEntries(root, j.request.args, steps) + (CauseEntries(j, kind, root, target, env) + [FailedEntry(j, kind, root, target, env)])
  }

  function ParkEntries(j: Job, diff: string, plan: ExecutionPlan, root: string, target: string, steps: seq<Drift.Step>, observed: seq<string>)
    : seq<TrailEntry>
  {
    ToolEntries(root, j.request.args, steps) + [ParkEntry(j, diff, plan, observed, root, target)]
  }

  function DoneEntries(j: Job, result: string, root: string, target: string, steps: seq<Drift.Step>, observed: seq<string>): seq<TrailEntry>
  {
    PostconditionEntries(j, root, target) + (ToolEntries(root, j.request.args, steps) + [DoneEntry(j, result, observed, root, target)])
  }

  // The entries a verdict leaves under the claim: all the tool calls that were streamed, when the
  // turn parks, completes or drifts, and how it ended.
  function ClosingEntries(j: Job, env: Env, v: Verdict, root: string, steps: seq<Drift.Step>): seq<TrailEntry>
  {
    match v
    case Parks(diff, plan) => ParkEntries(j, diff, plan, root, Target(env), steps, Observed(j, env, steps))
    case Completes(report) =>
      DoneEntries(j, if report.result.Some? then report.result.value else "", root, Target(env), steps, Observed(j, env, steps))
    case Fails(kind) => FailureEntries(j, kind, root, Target(env), if kind.Drifted? then steps else [], env)
  }

  // The entry of the credential, if the turn came to one.
  function CredentialEntries(j: Job, env: Env, met: Met, approval: string): seq<TrailEntry>
  {
    if env.hasExecutor && env.scope.Ok? && ApprovedPr(j) && Verified(j, env)
    then GrantEntries(j, ApprovedPlan(j, env), env.terms, met.token, approval)
    else []
  }

  // All that one turn writes: the claim, under it what ran and how it ended, and the credential
  // under the approval it answers to.
  ghost predicate TurnTrail(j: Job, env: Env, met: Met, v: Verdict, root: string, approval: string, entries: seq<TrailEntry>)
  {
    exists steps :: Resolution(j, env, steps)
      && entries == [ClaimEntry(j)] + (CredentialEntries(j, env, met, approval) + ClosingEntries(j, env, v, root, steps))
  }

  // The first new event of a trail, the claim, has this step id.
  ghost predicate Rooted(before: seq<AuditEvents.AuditEvent>, after: seq<AuditEvents.AuditEvent>, root: string)
  {
    |before| < |after| && after[|before|].step.stepId == root
  }

  // The latest decision a listing showed when the claim had just been written.
  ghost predicate SeenAtClaim(before: seq<AuditEvents.AuditEvent>, after: seq<AuditEvents.AuditEvent>, approval: string)
  {
    |before| < |after| && DecisionSeen(after[..|before| + 1], approval)
  }

  // ---- what the events say -----------------------------------------------

  predicate SaysClaimed(e: AuditEvents.AuditEvent, j: Job)
  {
    Says(e, "claimed", "command=" + j.request.command, "", j.request.command, "", "") && Notes(e, "command", j.request.command)
  }

  // Of a job that waits: which diff and which plan an approver is asked about, as the job holds them.
  ghost predicate SaysWaiting(e: AuditEvents.AuditEvent, stored: Job, plan: ExecutionPlan, observed: seq<string>, root: string,
                              target: string)
  {
    && stored.status == Status.AwaitingApproval && stored.gate.diff.Some? && stored.gate.executionPlanHash == Some(Digest(plan))
    && Says(e, "awaiting_approval", "diff " + Decimal.Text(|stored.gate.diff.value|) + " chars; plan=" + stored.gate.executionPlanHash.value,
            root, stored.request.command, target, Hashing.Sha256(stored.gate.diff.value))
    && Notes(e, "execution_plan_hash", stored.gate.executionPlanHash.value) && Notes(e, "policy_version", plan.policyVersion)
    && Notes(e, "risk_score", Decimal.Text(plan.riskScore)) && Notes(e, "risk_ceiling", Decimal.Text(plan.riskCeiling))
    && Notes(e, "observed_capabilities", PyText.Join(observed, ',')) && e.step.capabilities == plan.capabilities
    && IsDecision(e)
  }

  predicate SaysDone(e: AuditEvents.AuditEvent, stored: Job, observed: seq<string>, root: string, target: string)
  {
    && stored.status == Done && stored.report.result.Some?
    && Says(e, "done", "", root, stored.request.command, target, Hashing.Sha256(stored.report.result.value))
    && e.step.capabilities == observed
  }

  predicate SaysFailed(e: AuditEvents.AuditEvent, stored: Job, root: string, target: string)
  {
    && stored.status == Status.Failed && stored.report.error.Some?
    && Says(e, "failed", stored.report.error.value, root, stored.request.command, target, "")
  }

  // Of an approved job that completes.
  predicate SaysVerified(e: AuditEvents.AuditEvent, j: Job, root: string, target: string)
  {
    var hash := if j.gate.approvalHash.Some? then j.gate.approvalHash.value else "";
    && Says(e, "postcondition_verified", "approval_hash=" + hash, root, "gh pr diff", target, "")
    && Notes(e, "approval_hash", hash) && Notes(e, "check", "remote_pr_diff")
  }

  // Before the failure: drift, a plan that was refused, or a command that was denied.
  predicate SaysCause(e: AuditEvents.AuditEvent, command: string, kind: ExnKind, error: string, root: string, target: string)
  {
    match kind
    case Drifted(observed) =>
      && Says(e, "capability_drift", "observed capability exceeded the authorized set", root, command, target, "")
      && Notes(e, "reason", error) && Notes(e, "observed", PyText.Join(observed, ',')) && e.step.capabilities == observed
    case PlanRejected =>
      && Says(e, "plan_binding_rejected", "execution plan verification failed", root, command, target, "")
      && Notes(e, "reason", error) && Notes(e, "error_type", "ExecutionPlanError")
    case NoExecutor =>
      && Says(e, "policy_denied", "command rejected by default-deny executor gate", root, command, "", "")
      && Notes(e, "reason", "default_deny") && Notes(e, "command", command)
    case PolicyDenied(resource) =>
      && Says(e, "policy_denied", "command rejected by deterministic scope boundary", root, command, resource, "")
      && Notes(e, "reason", error)
    case _ => true
  }

  // The calls are shown one after the other from an event on.
  predicate ShowsCalls(events: seq<AuditEvents.AuditEvent>, from: int, root: string, args: string, steps: seq<Drift.Step>)
  {
    0 <= from && from + |steps| <= |events| && forall i :: 0 <= i < |steps| ==> ShowsCall(events[from + i], root, args, steps[i])
  }

  // What the trail of a settled job says of its turn, from the n-th event on.
  ghost predicate TellsWith(events: seq<AuditEvents.AuditEvent>, n: nat, j: Job, stored: Job, v: Verdict, env: Env, root: string,
                            steps: seq<Drift.Step>)
  {
    && n + 2 <= |events| && SaysClaimed(events[n], j)
    && var last := |events| - 1;
       match v
       case Parks(_, plan) =>
         && n < last - |steps| && ShowsCalls(events, last - |steps|, root, j.request.args, steps)
         && SaysWaiting(events[last], stored, plan, Observed(j, env, steps), root, Target(env))
       case Completes(_) =>
         && n < last - |steps| && ShowsCalls(events, last - |steps|, root, j.request.args, steps)
         && SaysDone(events[last], stored, Observed(j, env, steps), root, Target(env))
         && (ApprovedPr(j) ==> n + 1 < last - |steps| && SaysVerified(events[last - |steps| - 1], j, root, Target(env)))
       case Fails(kind) =>
         && SaysFailed(events[last], stored, root, Target(env))
         && SaysCause(events[last - 1], j.request.command, kind, env.text(kind), root, Target(env))
         && (kind.Drifted? ==> n + 1 < last - |steps| && ShowsCalls(events, last - 1 - |steps|, root, j.request.args, steps))
  }

  ghost predicate Tells(events: seq<AuditEvents.AuditEvent>, n: nat, j: Job, stored: Job, v: Verdict, env: Env, root: string)
  {
    exists steps :: Resolution(j, env, steps) && TellsWith(events, n, j, stored, v, env, root, steps)
  }

  lemma ClaimEntrySays(e: AuditEvents.AuditEvent, j: Job)
    requires Wrote(e, ClaimEntry(j))
    ensures SaysClaimed(e, j)
  {
  }

  lemma ParkEntrySays(e: AuditEvents.AuditEvent, j: Job, diff: string, plan: ExecutionPlan, observed: seq<string>, root: string,
                      target: string, stored: Job)
    requires Wrote(e, ParkEntry(j, diff, plan, observed, root, target))
    requires stored.status == Status.AwaitingApproval && stored.request == j.request
    requires stored.gate.diff == Some(diff) && stored.gate.executionPlanHash == Some(Digest(plan))
    ensures SaysWaiting(e, stored, plan, observed, root, target)
  {
    hide Digest, Decimal.Text, PyText.Join;
    var keys := ["execution_plan_hash", "policy_version", "risk_score", "risk_ceiling", "observed_capabilities"];
    assert keys[0][0] == 'e' && keys[1][0] == 'p' && keys[2][0] == 'r' == keys[3][0] && keys[4][0] == 'o';
    assert |keys[2]| == 10 && |keys[3]| == 12;
  }

  lemma DoneEntrySays(e: AuditEvents.AuditEvent, j: Job, result: string, observed: seq<string>, root: string, target: string, stored: Job)
    requires Wrote(e, DoneEntry(j, result, observed, root, target))
    requires stored.status == Done && stored.request == j.request && stored.report.result == Some(result)
    ensures SaysDone(e, stored, observed, root, target)
  {
  }

  lemma FailedEntrySays(e: AuditEvents.AuditEvent, j: Job, kind: ExnKind, root: string, target: string, env: Env, stored: Job)
    requires Wrote(e, FailedEntry(j, kind, root, target, env))
    requires stored.status == Status.Failed && stored.request == j.request && stored.report.error == Some(env.text(kind))
    ensures SaysFailed(e, stored, root, target)
  {
  }

  lemma PostconditionEntrySays(e: AuditEvents.AuditEvent, j: Job, root: string, target: string)
    requires ApprovedPr(j) && Wrote(e, PostconditionEntries(j, root, target)[0])
    ensures SaysVerified(e, j, root, target)
  {
    assert "approval_hash"[0] == 'a' && "check"[0] == 'c';
  }

  lemma CauseEntrySays(e: AuditEvents.AuditEvent, j: Job, kind: ExnKind, root: string, target: string, env: Env)
    requires CauseEntries(j, kind, root, target, env) != [] ==> Wrote(e, CauseEntries(j, kind, root, target, env)[0])
    ensures SaysCause(e, j.request.command, kind, env.text(kind), root, target)
  {
    hide PyText.Join;
    assert "reason"[0] == 'r' && "observed"[0] == 'o' && "error_type"[0] == 'e' && "command"[0] == 'c';
  }

  // Events written one after the other for these entries.
  predicate Writes(events: seq<AuditEvents.AuditEvent>, from: int, part: seq<TrailEntry>)
  {
    0 <= from && from + |part| <= |events| && forall i :: 0 <= i < |part| ==> Wrote(events[from + i], part[i])
  }

  lemma WritesParts(events: seq<AuditEvents.AuditEvent>, from: int, a: seq<TrailEntry>, b: seq<TrailEntry>)
    requires Writes(events, from, a + b)
    ensures Writes(events, from, a) && Writes(events, from + |a|, b)
  {
    hide Wrote;
    forall i | 0 <= i < |a| ensures Wrote(events[from + i], a[i]) {
      assert (a + b)[i] == a[i];
    }
    forall i | 0 <= i < |b| ensures Wrote(events[from + |a| + i], b[i]) {
      assert (a + b)[|a| + i] == b[i] && Wrote(events[from + (|a| + i)], (a + b)[|a| + i]);
    }
  }

  lemma WritesFirst(events: seq<AuditEvents.AuditEvent>, from: int, part: seq<TrailEntry>)
    requires Writes(events, from, part) && part != []
    ensures Wrote(events[from], part[0])
  {
    hide Wrote;
    assert events[from + 0] == events[from];
  }

  lemma WritesCalls(events: seq<AuditEvents.AuditEvent>, from: int, root: string, args: string, steps: seq<Drift.Step>)
    requires Writes(events, from, ToolEntries(root, args, steps))
    ensures ShowsCalls(events, from, root, args, steps)
  {
    hide Wrote, ToolEntry, ShowsCall;
    var part := ToolEntries(root, args, steps);
    forall i | 0 <= i < |steps| ensures ShowsCall(events[from + i], root, args, steps[i]) {
      assert Wrote(events[from + i], part[i]) && part[i] == ToolEntry(root, args, steps[i]);
      ToolEntryShows(events[from + i], root, args, steps[i]);
    }
  }

  lemma WrittenInOrder(before: Log, after: Log, job: string, entries: seq<TrailEntry>)
    requires Extends(before, after, job, entries)
    ensures Writes(Of(after, job), |Of(before, job)|, entries) && |Of(after, job)| == |Of(before, job)| + |entries|
  {
    hide Extends, Wrote;
    WrittenAt(before, after, job, entries);
  }

  lemma ParkTold(events: seq<AuditEvents.AuditEvent>, from: nat, j: Job, diff: string, plan: ExecutionPlan, root: string, target: string,
                 steps: seq<Drift.Step>, observed: seq<string>, stored: Job)
    requires Writes(events, from, ParkEntries(j, diff, plan, root, target, steps, observed)) && |events| == from + |steps| + 1
    requires stored.status == Status.AwaitingApproval && stored.request == j.request
    requires stored.gate.diff == Some(diff) && stored.gate.executionPlanHash == Some(Digest(plan))
    ensures ShowsCalls(events, from, root, j.request.args, steps)
    ensures SaysWaiting(events[|events| - 1], stored, plan, observed, root, target)
  {
    hide Wrote, ToolEntries, ParkEntry, Digest, SaysWaiting, ShowsCalls;
    var x := ParkEntry(j, diff, plan, observed, root, target);
    WritesParts(events, from, ToolEntries(root, j.request.args, steps), [x]);
    WritesCalls(events, from, root, j.request.args, steps);
    WritesFirst(events, from + |steps|, [x]);
    ParkEntrySays(events[|events| - 1], j, diff, plan, observed, root, target, stored);
  }

  lemma DoneTold(events: seq<AuditEvents.AuditEvent>, from: nat, j: Job, result: string, root: string, target: string,
                 steps: seq<Drift.Step>, observed: seq<string>, stored: Job)
    requires Writes(events, from, DoneEntries(j, result, root, target, steps, observed))
    requires |events| == from + |DoneEntries(j, result, root, target, steps, observed)|
    requires stored.status == Done && stored.request == j.request && stored.report.result == Some(result)
    ensures |events| == from + (if ApprovedPr(j) then 1 else 0) + |steps| + 1
    ensures ShowsCalls(events, |events| - 1 - |steps|, root, j.request.args, steps)
    ensures SaysDone(events[|events| - 1], stored, observed, root, target)
    ensures ApprovedPr(j) ==> SaysVerified(events[from], j, root, target)
  {
    hide Wrote, ToolEntries, DoneEntry, SaysDone, SaysVerified, ShowsCalls;
    var first, tools := PostconditionEntries(j, root, target), ToolEntries(root, j.request.args, steps);
    var x := DoneEntry(j, result, observed, root, target);
    WritesParts(events, from, first, tools + [x]);
    WritesParts(events, from + |first|, tools, [x]);
    WritesCalls(events, from + |first|, root, j.request.args, steps);
    WritesFirst(events, from + |first| + |steps|, [x]);
    DoneEntrySays(events[|events| - 1], j, result, observed, root, target, stored);
    if ApprovedPr(j) {
      WritesFirst(events, from, first);
      PostconditionEntrySays(events[from], j, root, target);
    }
  }

  lemma FailTold(events: seq<AuditEvents.AuditEvent>, from: nat, j: Job, kind: ExnKind, root: string, target: string,
                 steps: seq<Drift.Step>, env: Env, stored: Job)
    requires from > 0 && Writes(events, from, FailureEntries(j, kind, root, target, steps, env))
    requires |events| == from + |FailureEntries(j, kind, root, target, steps, env)|
    requires stored.status == Status.Failed && stored.request == j.request && stored.report.error == Some(env.text(kind))
    ensures |events| == from + |steps| + |CauseEntries(j, kind, root, target, env)| + 1
    ensures ShowsCalls(events, from, root, j.request.args, steps)
    ensures SaysFailed(events[|events| - 1], stored, root, target)
    ensures SaysCause(events[|events| - 2], j.request.command, kind, env.text(kind), root, target)
  {
    hide Wrote, ToolEntries, CauseEntries, FailedEntry, SaysFailed, SaysCause, ShowsCalls;
    var tools, causes := ToolEntries(root, j.request.args, steps), CauseEntries(j, kind, root, target, env);
    var x := FailedEntry(j, kind, root, target, env);
    WritesParts(events, from, tools, causes + [x]);
    WritesParts(events, from + |tools|, causes, [x]);
    WritesCalls(events, from, root, j.request.args, steps);
    WritesFirst(events, from + |steps| + |causes|, [x]);
    FailedEntrySays(events[|events| - 1], j, kind, root, target, env, stored);
    OneCause(j, kind, root, target, env);
    if causes != [] {
      WritesFirst(events, from + |tools|, causes);
    }
    CauseEntrySays(events[|events| - 2], j, kind, root, target, env);
  }

  lemma OneCause(j: Job, kind: ExnKind, root: string, target: string, env: Env)
    ensures |CauseEntries(j, kind, root, target, env)| <= 1
    ensures kind.Drifted? ==> |CauseEntries(j, kind, root, target, env)| == 1
  {
  }

  lemma ParkIsTold(before: Log, after: Log, j: Job, diff: string, plan: ExecutionPlan, root: string, target: string,
                   steps: seq<Drift.Step>, observed: seq<string>, env: Env)
    requires Extends(before, after, j.id, ParkEntries(j, diff, plan, root, target, steps, observed))
    ensures var events := Of(after, j.id);
            && |events| == |Of(before, j.id)| + |steps| + 1 && ShowsCalls(events, |Of(before, j.id)|, root, j.request.args, steps)
            && SaysWaiting(events[|events| - 1], Settled(j, Parks(diff, plan), env), plan, observed, root, target)
  {
    hide Extends, ParkEntries, ShowsCalls, SaysWaiting, Digest, CanonicalJson;
    WrittenInOrder(before, after, j.id, ParkEntries(j, diff, plan, root, target, steps, observed));
    ParkLength(j, diff, plan, root, target, steps, observed);
    ParkTold(Of(after, j.id), |Of(before, j.id)|, j, diff, plan, root, target, steps, observed, Settled(j, Parks(diff, plan), env));
  }

  lemma DoneIsTold(before: Log, after: Log, j: Job, outcome: CommandOutcome, root: string, target: string,
                   steps: seq<Drift.Step>, observed: seq<string>, env: Env)
    requires Extends(before, after, j.id, DoneEntries(j, outcome.result, root, target, steps, observed))
    ensures var events, n := Of(after, j.id), |Of(before, j.id)|;
            && |events| > n && ShowsCalls(events, |events| - 1 - |steps|, root, j.request.args, steps)
            && SaysDone(events[|events| - 1], Settled(j, Completes(ReportOf(outcome)), env), observed, root, target)
            && (ApprovedPr(j) ==> SaysVerified(events[n], j, root, target))
  {
    hide Extends, DoneEntries, ShowsCalls, SaysDone, SaysVerified;
    WrittenInOrder(before, after, j.id, DoneEntries(j, outcome.result, root, target, steps, observed));
    DoneTold(Of(after, j.id), |Of(before, j.id)|, j, outcome.result, root, target, steps, observed,
             Settled(j, Completes(ReportOf(outcome)), env));
  }

  lemma FailureIsTold(before: Log, after: Log, j: Job, kind: ExnKind, root: string, target: string, steps: seq<Drift.Step>, env: Env)
    requires Extends(before, after, j.id, FailureEntries(j, kind, root, target, steps, env)) && Of(before, j.id) != []
    ensures var events := Of(after, j.id);
            && |events| > 1 && SaysFailed(events[|events| - 1], Settled(j, Fails(kind), env), root, target)
            && SaysCause(events[|events| - 2], j.request.command, kind, env.text(kind), root, target)
            && ShowsCalls(events, |Of(before, j.id)|, root, j.request.args, steps)
  {
    hide Extends, FailureEntries, ShowsCalls, SaysFailed, SaysCause;
    WrittenInOrder(before, after, j.id, FailureEntries(j, kind, root, target, steps, env));
    FailTold(Of(after, j.id), |Of(before, j.id)|, j, kind, root, target, steps, env, Settled(j, Fails(kind), env));
  }

  // The credential of a turn that came to one is shown right after the claim, under the approval.
  ghost predicate TellsGrant(events: seq<AuditEvents.AuditEvent>, n: nat, j: Job, env: Env, met: Met, approval: string)
  {
    AsksForToken(j, env) && Usable(met.token) && env.terms.auditable ==>
      n + 1 < |events| && ShowsGrant(events[n + 1], j, ApprovedPlan(j, env), env.terms.provider.repository, approval)
  }

  lemma GrantIsTold(before: Log, after: Log, j: Job, env: Env, met: Met, v: Verdict, root: string, approval: string, entries: seq<TrailEntry>)
    requires Extends(before, after, j.id, entries) && TurnTrail(j, env, met, v, root, approval, entries)
    ensures TellsGrant(Of(after, j.id), |Of(before, j.id)|, j, env, met, approval)
  {
    hide Resolution, ClosingEntries, Wrote, Extends, ClaimEntry, RequireApprovalBinding, IsRepository, Verified, GrantEntry, ShowsGrant;
    if AsksForToken(j, env) && Usable(met.token) && env.terms.auditable {
      var steps :| Resolution(j, env, steps)
        && entries == [ClaimEntry(j)] + (CredentialEntries(j, env, met, approval) + ClosingEntries(j, env, v, root, steps));
      var events, n := Of(after, j.id), |Of(before, j.id)|;
      var credential, closing := CredentialEntries(j, env, met, approval), ClosingEntries(j, env, v, root, steps);
      var plan, repository := ApprovedPlan(j, env), env.terms.provider.repository;
      WrittenInOrder(before, after, j.id, entries);
      WritesParts(events, n, [ClaimEntry(j)], credential + closing);
      WritesParts(events, n + 1, credential, closing);
      WritesFirst(events, n + 1, credential);
      GrantEntryShows(events[n + 1], j, plan, repository, RequireApprovalBinding(j, plan).value, approval);
    }
  }

  lemma ResultIsThere(j: Job, env: Env, met: Met, v: Verdict)
    requires Decides(j, env, met, v) && v.Completes?
    ensures v.report.result.Some?
  {
    hide Resolution, StepEnds, Verified, BuildPrPlan, GateSays;
  }

  // The events of a turn say, in words, what became of the job as it is now stored.
  lemma TurnIsTold(before: Log, after: Log, j: Job, env: Env, met: Met, v: Verdict, root: string, approval: string, entries: seq<TrailEntry>)
    requires Extends(before, after, j.id, entries) && TurnTrail(j, env, met, v, root, approval, entries)
    requires Decides(j, env, met, v)
    ensures Tells(Of(after, j.id), |Of(before, j.id)|, j, Settled(j, v, env), v, env, root)
  {
    hide Resolution, CredentialEntries, Wrote, Extends, ShowsCalls, SaysWaiting, SaysDone, SaysFailed, SaysVerified, SaysCause, SaysClaimed;
    hide ParkEntries, DoneEntries, FailureEntries, ClaimEntry, Target, Observed, Digest, CanonicalJson, Decides;
    var steps :| Resolution(j, env, steps)
      && entries == [ClaimEntry(j)] + (CredentialEntries(j, env, met, approval) + ClosingEntries(j, env, v, root, steps));
    var events, n := Of(after, j.id), |Of(before, j.id)|;
    var credential, closing := CredentialEntries(j, env, met, approval), ClosingEntries(j, env, v, root, steps);
    WrittenAt(before, after, j.id, entries);
    WritesParts(events, n, [ClaimEntry(j)], credential + closing);
    WritesParts(events, n + 1, credential, closing);
    WritesFirst(events, n, [ClaimEntry(j)]);
    ClaimEntrySays(events[n], j);
    var from, stored := n + 1 + |credential|, Settled(j, v, env);
    match v {
      case Parks(diff, plan) =>
        ParkLength(j, diff, plan, root, Target(env), steps, Observed(j, env, steps));
        ParkTold(events, from, j, diff, plan, root, Target(env), steps, Observed(j, env, steps), stored);
      case Completes(report) =>
        ResultIsThere(j, env, met, v);
        DoneTold(events, from, j, report.result.value, root, Target(env), steps, Observed(j, env, steps), stored);
      case Fails(kind) =>
        FailTold(events, from, j, kind, root, Target(env), if kind.Drifted? then steps else [], env, stored);
        OneCause(j, kind, root, Target(env), env);
    }
    assert TellsWith(events, n, j, stored, v, env, root, steps);
  }

  lemma ParkLength(j: Job, diff: string, plan: ExecutionPlan, root: string, target: string, steps: seq<Drift.Step>, observed: seq<string>)
    ensures |ParkEntries(j, diff, plan, root, target, steps, observed)| == |steps| + 1
  {
    hide ParkEntry;
  }

  // What a turn of job j leaves in the trails: these entries and no others in the trail of the job,
  // whose first event is the root, and events that say what became of the job.
  ghost predicate Audited(before: Log, after: Log, j: Job, stored: Job, env: Env, met: Met, v: Verdict, root: string, approval: string,
                          entries: seq<TrailEntry>)
  {
    var events, n := Of(after, j.id), |Of(before, j.id)|;
    && Extends(before, after, j.id, entries) && TurnTrail(j, env, met, v, root, approval, entries)
    && Rooted(Of(before, j.id), events, root)
    && (CredentialEntries(j, env, met, approval) != [] ==> SeenAtClaim(Of(before, j.id), events, approval))
    && Tells(events, n, j, stored, v, env, root) && TellsGrant(events, n, j, env, met, approval)
  }

  // The claim, what came of the credential and how the turn ended make up the whole of it.
  lemma TurnIsAudited(before: Log, first: Log, middle: Log, after: Log, j: Job, env: Env, met: Met, v: Verdict, root: string,
                      approval: string, steps: seq<Drift.Step>) returns (entries: seq<TrailEntry>)
    requires Extends(before, first, j.id, [ClaimEntry(j)]) && Of(first, j.id)[|Of(before, j.id)|].step.stepId == root
    requires Extends(first, middle, j.id, CredentialEntries(j, env, met, approval))
    requires CredentialEntries(j, env, met, approval) != [] ==> DecisionSeen(Of(first, j.id), approval)
    requires Extends(middle, after, j.id, ClosingEntries(j, env, v, root, steps))
    requires Decides(j, env, met, v) && Resolution(j, env, steps)
    ensures Audited(before, after, j, Settled(j, v, env), env, met, v, root, approval, entries)
  {
    hide Extends, Decides, Resolution, CredentialEntries, ClosingEntries, TurnTrail, Tells, TellsGrant, Settled, ClaimEntry, DecisionSeen;
    var credential, closing := CredentialEntries(j, env, met, approval), ClosingEntries(j, env, v, root, steps);
    Then(first, middle, after, j.id, credential, closing);
    Then(before, first, after, j.id, [ClaimEntry(j)], credential + closing);
    entries := [ClaimEntry(j)] + (credential + closing);
    WholeTrail(j, env, met, v, root, approval, steps);
    TurnIsTold(before, after, j, env, met, v, root, approval, entries);
    GrantIsTold(before, after, j, env, met, v, root, approval, entries);
    UpToFirst(before, first, after, j.id, ClaimEntry(j), credential + closing);
  }

  // ---- the guarded part of a turn ----------------------------------------

  // How it ends: an exception, with the tool steps known by then, or an outcome to settle.
  datatype Tried =
    | Failing(kind: ExnKind, target: string, steps: seq<Drift.Step>)
    | Ran(outcome: CommandOutcome, target: string, steps: seq<Drift.Step>, observed: seq<string>)

  // Where an outcome to settle comes from.
  ghost predicate Produces(j: Job, env: Env, met: Met, outcome: CommandOutcome)
  {
    && env.hasExecutor && env.scope.Ok?
    && if ApprovedPr(j) then
         Verified(j, env) && exists ending :: StepEnds(j, env, met, Summary(ending)) && outcome == ApprovedOutcome(env, ending)
       else env.run.Returned? && outcome == env.run.outcome
  }

  ghost predicate TriedOk(j: Job, env: Env, met: Met, t: Tried)
  {
    match t
    case Failing(kind, target, steps) =>
      && Decides(j, env, met, Fails(kind)) && target == Target(env)
      && exists all :: Resolution(j, env, all) && steps == if kind.Drifted? then all else []
    case Ran(outcome, target, steps, observed) =>
      && Produces(j, env, met, outcome) && target == Target(env)
      && Resolution(j, env, steps) && GateSays(j, env, steps) == Ok(observed)
  }

  // A token is asked for: the turn comes to the approved step and all its conditions hold.
  predicate AsksForToken(j: Job, env: Env)
  {
    env.hasExecutor && env.scope.Ok? && ApprovedPr(j) && Verified(j, env) && Grantable(j, ApprovedPlan(j, env), env.terms)
  }

  // No command is run but those of the script for the approved plan, with the token minted for it.
  ghost predicate RanForPlan(runner: PrExecution.Runner, was: seq<PrExecution.Call>, j: Job, env: Env, token: Option<string>)
    reads runner
  {
    if AsksForToken(j, env) && RunsScript(j, ApprovedPlan(j, env), env.terms, token)
    then PrExecution.RanSome(runner, was, PyText.Strip(j.request.args), ApprovedPlan(j, env), token.value)
    else runner.trace == was
  }

  class Worker {
    const jobs: SqliteJobStore
    const audit: SqliteAuditStore
    const issuer: GrantIssuer
    const runner: PrExecution.Runner
    var metrics: seq<Metric>

    constructor (jobs: SqliteJobStore, audit: SqliteAuditStore, issuer: GrantIssuer, runner: PrExecution.Runner)
      ensures this.jobs == jobs && this.audit == audit && this.issuer == issuer && this.runner == runner && metrics == []
    {
      this.jobs, this.audit, this.issuer, this.runner, metrics := jobs, audit, issuer, runner, [];
    }

    ghost predicate Valid()
      reads this, jobs, audit
    {
      jobs.Valid() && audit.Valid()
    }

    ghost function Meets(): Met
      reads issuer, runner
    {
      Met(runner.answers, |runner.trace|, issuer.mint(issuer.asked))
    }

    // The approved step: the plan is verified once more, then the credential is minted for it.
    method ExecuteApproved(j: Job, env: Env) returns (r: Result<CommandOutcome, ExnKind>, ghost approval: string)
      requires audit.Valid() && ApprovedPr(j) && env.hasExecutor && env.scope.Ok? && VerifyApproved(j, env.auth, env.seen).Ok?
      modifies audit, issuer, runner`trace
      ensures audit.Valid() && Extends(old(audit.log), audit.log, j.id, CredentialEntries(j, env, old(Meets()), approval))
      ensures CredentialEntries(j, env, old(Meets()), approval) != [] ==> DecisionSeen(old(Of(audit.log, j.id)), approval)
      ensures Bracketed(issuer, old(issuer.asked), old(issuer.issued), old(issuer.revoked), AsksForToken(j, env))
      ensures RanForPlan(runner, old(runner.trace), j, env, old(Meets()).token)
      ensures match r
              case Ok(outcome) => Produces(j, env, old(Meets()), outcome)
              case Err(kind) => ApprovedRunEnds(j, env, old(Meets()), Fails(kind)) && !kind.Drifted?
    {
      hide Extends, Appended, DecisionSeen, RequireApprovalBinding, VerifyApproved, PrExecution.RanSome, PyText.Strip, Ended, Grantable, GrantEntries;
      var verified := VerifyApproved(j, env.auth, env.seenAgain);
      if verified.Err? {
        Stays(audit.log, j.id);
        return Err(PlanRejected), "";
      }
      var step;
      step, approval := ExecuteWithGrant(issuer, runner, audit, env.clock, j, verified.value, env.terms);
      assert StepEnds(j, env, old(Meets()), step);
      match step
      case Summary(ending) => r := Ok(ApprovedOutcome(env, ending));
      case BindingRejected => r := Err(CredentialRefused);
      case IssuerRaised => r := Err(CredentialRefused);
      case NoToken => r := Err(CredentialRefused);
      case StepRaised => r := Err(ExecutorRaised);
    }

    // Everything the worker guards against exceptions.
    method Try(j: Job, env: Env) returns (t: Tried, ghost approval: string)
      requires audit.Valid()
      modifies audit, issuer, runner`trace
      ensures audit.Valid() && Extends(old(audit.log), audit.log, j.id, CredentialEntries(j, env, old(Meets()), approval))
      ensures CredentialEntries(j, env, old(Meets()), approval) != [] ==> DecisionSeen(old(Of(audit.log, j.id)), approval)
      ensures Bracketed(issuer, old(issuer.asked), old(issuer.issued), old(issuer.revoked), AsksForToken(j, env))
      ensures RanForPlan(runner, old(runner.trace), j, env, old(Meets()).token)
      ensures TriedOk(j, env, old(Meets()), t)
    {
      hide Extends, Appended, VerifyApproved, EnforceObserved, BuildPrPlan, Resolution, ApprovedRunEnds, Produces;
      hide Bracketed, GrantEntries, Grantable, DecisionSeen;
      Stays(audit.log, j.id);
      Untouched();
      ghost var all := SomeResolution(j, env);
      approval := "";
      if !env.hasExecutor {
        return Failing(NoExecutor, "", []), approval;
      }
      if env.scope.Err? {
        return Failing(PolicyDenied(env.scope.error), "", []), approval;
      }
      var target := env.scope.value;
      if ApprovedPr(j) && VerifyApproved(j, env.auth, env.seen).Err? {
        RefusedPlan(j, env, Meets());
        return Failing(PlanRejected, target, []), approval;
      }
      var outcome: CommandOutcome;
      if ApprovedPr(j) {
        var r;
        r, approval := ExecuteApproved(j, env);
        if r.Err? {
          return Failing(r.error, target, []), approval;
        }
        outcome := r.value;
      } else if env.run.Raised? {
        return Failing(ExecutorRaised, target, []), approval;
      } else {
        outcome := env.run.outcome;
        ModelRunProduces(j, env, Meets());
      }
      t := Observe(j, env, old(Meets()), outcome, target);
    }

    lemma Untouched()
      ensures Bracketed(issuer, issuer.asked, issuer.issued, issuer.revoked, false)
    {
    }

    // What ran, held against what was authorized.
    method Observe(j: Job, env: Env, ghost met: Met, outcome: CommandOutcome, target: string) returns (t: Tried)
      requires Produces(j, env, met, outcome) && target == Target(env)
      ensures TriedOk(j, env, met, t)
    {
      hide GateSays, CountsAs, Verified, Produces, Decides, Target;
      ProducesCalls(j, env, met, outcome);
      var steps := ResolveToolSteps(j.request.command, outcome.calls);
      assert Resolution(j, env, steps);
      var observed := GateSays(j, env, steps);
      if observed.Err? {
        DriftDecides(j, env, met, outcome, steps);
        return Failing(ExnKind.Drifted(ObservedCapabilities(Executed(steps))), target, steps);
      }
      return Ran(outcome, target, steps, observed.value);
    }

    // `_fail`: the job fails, the tool calls known by then are shown, the cause and the failure are audited.
    method Fail(j: Job, kind: ExnKind, root: string, target: string, steps: seq<Drift.Step>, env: Env) returns (updated: Option<Job>)
      requires Valid() && j.id in jobs.jobs && jobs.jobs[j.id] == j && j.status == Running && HasStep(Of(audit.log, j.id), root)
      modifies this`metrics, jobs, audit
      ensures Valid()
      ensures jobs.jobs == old(jobs.jobs)[j.id := Settled(j, Fails(kind), env)] && updated == Some(jobs.jobs[j.id])
      ensures metrics == old(metrics) + [Metric(j.id, j.request.command, false, env.text(kind))]
      ensures Extends(old(audit.log), audit.log, j.id, FailureEntries(j, kind, root, target, steps, env))
      ensures var events := Of(audit.log, j.id);
              && |events| > 1 && SaysFailed(events[|events| - 1], jobs.jobs[j.id], root, target)
              && SaysCause(events[|events| - 2], j.request.command, kind, env.text(kind), root, target)
              && ShowsCalls(events, |old(Of(audit.log, j.id))|, root, j.request.args, steps)
    {
      hide Extends, Appended, KeyedById, CauseEntries, FailedEntry, ToolEntries, SaysFailed, SaysCause, ShowsCalls;
      ghost var before := audit.log;
      assert Of(before, j.id) != [];
      hide HasStep;
      updated := jobs.Complete(j.id, Outcome(Status.Failed, FailedReport(env.text(kind))), env.settleAt);
      RecordToolSteps(audit, j.id, env.clock, root, j.request.args, steps);
      ghost var middle := audit.log;
      NoteFailure(j, kind, root, target, env);
      Then(before, middle, audit.log, j.id, ToolEntries(root, j.request.args, steps),
           CauseEntries(j, kind, root, target, env) + [FailedEntry(j, kind, root, target, env)]);
      metrics := metrics + [Metric(j.id, j.request.command, false, env.text(kind))];
      FailureIsTold(before, audit.log, j, kind, root, target, steps, env);
    }

    method NoteFailure(j: Job, kind: ExnKind, root: string, target: string, env: Env)
      requires audit.Valid() && HasStep(Of(audit.log, j.id), root)
      modifies audit
      ensures audit.Valid()
      ensures Extends(old(audit.log), audit.log, j.id, CauseEntries(j, kind, root, target, env) + [FailedEntry(j, kind, root, target, env)])
    {
      hide Extends, Appended, HasStep;
      ghost var before := audit.log;
      var causes := CauseEntries(j, kind, root, target, env);
      Stays(before, j.id);
      if causes != [] {
        var id := Note(audit, j.id, env.clock, causes[0]);
        assert causes == [causes[0]];
      }
      ghost var middle := audit.log;
      KeepsStep(before, middle, j.id, causes, root);
      var id := Note(audit, j.id, env.clock, FailedEntry(j, kind, root, target, env));
      Then(before, middle, audit.log, j.id, causes, [FailedEntry(j, kind, root, target, env)]);
    }

    // The gate: the plan and its hash are stored and the job waits. The trail ends in a decision that
    // names the diff and the plan by the hashes the job now holds.
    method Park(j: Job, plan: ExecutionPlan, root: string, t: Tried, env: Env) returns (updated: Option<Job>)
      requires Valid() && j.id in jobs.jobs && jobs.jobs[j.id] == j && j.status == Running && HasStep(Of(audit.log, j.id), root)
      requires t.Ran? && t.outcome.diff.Some?
      modifies this`metrics, jobs, audit
      ensures Valid()
      ensures jobs.jobs == old(jobs.jobs)[j.id := Settled(j, Parks(t.outcome.diff.value, plan), env)] && updated == Some(jobs.jobs[j.id])
      ensures metrics == old(metrics) + [Metric(j.id, j.request.command, true, "")]
      ensures Extends(old(audit.log), audit.log, j.id, ParkEntries(j, t.outcome.diff.value, plan, root, t.target, t.steps, t.observed))
      ensures var events := Of(audit.log, j.id);
              && events != [] && IsDecision(events[|events| - 1])
              && SaysWaiting(events[|events| - 1], jobs.jobs[j.id], plan, t.observed, root, t.target)
              && ShowsCalls(events, |old(Of(audit.log, j.id))|, root, j.request.args, t.steps)
    {
      hide Extends, Appended, HasStep, KeyedById, CanonicalJson, Digest, ParkEntries, ShowsCalls, IsDecision, Says, Notes;
      updated := jobs.AwaitApproval(j.id, t.outcome.diff.value, Some(CanonicalJson(plan)), Some(Digest(plan)), env.settleAt);
      NoteGate(j, plan, root, t, env);
      metrics := metrics + [Metric(j.id, j.request.command, true, "")];
    }

    method NoteGate(j: Job, plan: ExecutionPlan, root: string, t: Tried, env: Env)
      requires audit.Valid() && HasStep(Of(audit.log, j.id), root) && t.Ran? && t.outcome.diff.Some?
      modifies audit
      ensures audit.Valid()
      ensures Extends(old(audit.log), audit.log, j.id, ParkEntries(j, t.outcome.diff.value, plan, root, t.target, t.steps, t.observed))
      ensures var events := Of(audit.log, j.id);
              && events != []
              && SaysWaiting(events[|events| - 1], Settled(j, Parks(t.outcome.diff.value, plan), env), plan, t.observed, root, t.target)
              && ShowsCalls(events, |old(Of(audit.log, j.id))|, root, j.request.args, t.steps)
    {
      hide Extends, Appended, HasStep, Settled, ToolEntries, SaysWaiting, ShowsCalls, Says;
      ghost var before := audit.log;
      RecordToolSteps(audit, j.id, env.clock, root, j.request.args, t.steps);
      ghost var middle := audit.log;
      var x := ParkEntry(j, t.outcome.diff.value, plan, t.observed, root, t.target);
      var id := Note(audit, j.id, env.clock, x);
      Then(before, middle, audit.log, j.id, ToolEntries(root, j.request.args, t.steps), [x]);
      ParkIsTold(before, audit.log, j, t.outcome.diff.value, plan, root, t.target, t.steps, t.observed, env);
    }

    // The end: the job is done and its result stored; an approved one is marked as verified before.
    method Finish(j: Job, root: string, t: Tried, env: Env) returns (updated: Option<Job>)
      requires Valid() && j.id in jobs.jobs && jobs.jobs[j.id] == j && j.status == Running && HasStep(Of(audit.log, j.id), root)
      requires t.Ran?
      modifies this`metrics, jobs, audit
      ensures Valid()
      ensures jobs.jobs == old(jobs.jobs)[j.id := Settled(j, Completes(ReportOf(t.outcome)), env)] && updated == Some(jobs.jobs[j.id])
      ensures metrics == old(metrics) + [Metric(j.id, j.request.command, true, "")]
      ensures Extends(old(audit.log), audit.log, j.id, DoneEntries(j, t.outcome.result, root, t.target, t.steps, t.observed))
      ensures var events, n := Of(audit.log, j.id), |old(Of(audit.log, j.id))|;
              && |events| > n && SaysDone(events[|events| - 1], jobs.jobs[j.id], t.observed, root, t.target)
              && ShowsCalls(events, |events| - 1 - |t.steps|, root, j.request.args, t.steps)
              && (ApprovedPr(j) ==> SaysVerified(events[n], j, root, t.target))
    {
      hide Extends, Appended, HasStep, KeyedById, SaysDone, SaysVerified, ShowsCalls, PostconditionEntries, ToolEntries, DoneEntry;
      ghost var before := audit.log;
      NoteRun(j, root, t, env);
      ghost var middle := audit.log;
      updated := jobs.Complete(j.id, Outcome(Done, ReportOf(t.outcome)), env.settleAt);
      NoteDone(j, root, t, env);
      ghost var first, tools := PostconditionEntries(j, root, t.target), ToolEntries(root, j.request.args, t.steps);
      ghost var x := DoneEntry(j, t.outcome.result, t.observed, root, t.target);
      Then(before, middle, audit.log, j.id, first + tools, [x]);
      assert (first + tools) + [x] == first + (tools + [x]);
      DoneIsTold(before, audit.log, j, t.outcome, root, t.target, t.steps, t.observed, env);
      metrics := metrics + [Metric(j.id, j.request.command, true, "")];
    }

    method NoteRun(j: Job, root: string, t: Tried, env: Env)
      requires audit.Valid() && HasStep(Of(audit.log, j.id), root) && t.Ran?
      modifies audit
      ensures audit.Valid() && HasStep(Of(audit.log, j.id), root)
      ensures Extends(old(audit.log), audit.log, j.id, PostconditionEntries(j, root, t.target) + ToolEntries(root, j.request.args, t.steps))
    {
      hide Extends, Appended, HasStep, ToolEntries, PostconditionEntries, ShowsCall;
      ghost var before := audit.log;
      NotePostcondition(j, root, t.target, env);
      ghost var middle := audit.log;
      RecordToolSteps(audit, j.id, env.clock, root, j.request.args, t.steps);
      Then(before, middle, audit.log, j.id, PostconditionEntries(j, root, t.target), ToolEntries(root, j.request.args, t.steps));
    }

    method NoteDone(j: Job, root: string, t: Tried, env: Env)
      requires audit.Valid() && HasStep(Of(audit.log, j.id), root) && t.Ran?
      modifies audit
      ensures audit.Valid()
      ensures Extends(old(audit.log), audit.log, j.id, [DoneEntry(j, t.outcome.result, t.observed, root, t.target)])
    {
      hide Extends, Appended, HasStep, Says;
      var id := Note(audit, j.id, env.clock, DoneEntry(j, t.outcome.result, t.observed, root, t.target));
    }

    method NotePostcondition(j: Job, root: string, target: string, env: Env)
      requires audit.Valid() && HasStep(Of(audit.log, j.id), root)
      modifies audit
      ensures audit.Valid() && HasStep(Of(audit.log, j.id), root)
      ensures Extends(old(audit.log), audit.log, j.id, PostconditionEntries(j, root, target))
    {
      hide Extends, Appended, HasStep;
      ghost var before := audit.log;
      var entries := PostconditionEntries(j, root, target);
      Stays(before, j.id);
      if entries != [] {
        var id := Note(audit, j.id, env.clock, entries[0]);
        assert entries == [entries[0]];
      }
      KeepsStep(before, audit.log, j.id, entries, root);
    }

    // One turn.
    method ProcessOne(env: Env) returns (updated: Option<Job>, ghost v: Verdict, ghost approval: string, ghost entries: seq<TrailEntry>)
      requires Valid()
      modifies this`metrics, jobs, audit, issuer, runner`trace
      ensures Valid()
      ensures updated.None? <==> JobStore.Idle(old(jobs.jobs))
      ensures updated.None? ==>
                && jobs.jobs == old(jobs.jobs) && metrics == old(metrics) && audit.log == old(audit.log)
                && runner.trace == old(runner.trace)
                && issuer.asked == old(issuer.asked) && issuer.issued == old(issuer.issued) && issuer.revoked == old(issuer.revoked)
      ensures updated.Some? ==>
                var id := updated.value.id;
                && id in old(jobs.jobs) && id in jobs.jobs && updated.value == jobs.jobs[id]
                && Turn(old(jobs.jobs), id, env, old(Meets()), v, jobs.jobs)
                && metrics == old(metrics) + [MetricOf(updated.value, v, env)]
                && var j := Claimed(old(jobs.jobs)[id], env.claimAt);
                && Audited(old(audit.log), audit.log, j, updated.value, env, old(Meets()), v,
                           AuditEvents.StepId(old(audit.nextSeq)), approval, entries)
                && Bracketed(issuer, old(issuer.asked), old(issuer.issued), old(issuer.revoked), AsksForToken(j, env))
                && RanForPlan(runner, old(runner.trace), j, env, old(Meets()).token)
    {
      hide Extends, Appended, HasStep, KeyedById, TriedOk, Decides, IsNext, JobStore.Idle, Settled, Bracketed, AsksForToken, RanForPlan;
      hide CredentialEntries, ClosingEntries, Resolution, TurnTrail, DecisionSeen, AuditEvents.StepId, Audited, Says;
      ghost var t0, met := jobs.jobs, Meets();
      v, approval, entries := Fails(NoExecutor), "", [];
      updated := jobs.Claim(env.claimAt);
      if updated.None? {
        ClaimedNothing(t0, env.claimAt, jobs.jobs);
        return;
      }
      var j := updated.value;
      ghost var id0 := ClaimedOne(t0, env.claimAt, jobs.jobs, j);
      ghost var before := audit.log;
      var root := Note(audit, j.id, env.clock, ClaimEntry(j));
      ghost var first := audit.log;
      var t;
      t, approval := Try(j, env);
      ghost var middle := audit.log;
      ghost var credential := CredentialEntries(j, env, met, approval);
      KeepsStep(first, middle, j.id, credential, root);
      ghost var steps: seq<Drift.Step>;
      updated, v, steps := Settle(j, root, t, env, met);
      entries := TurnIsAudited(before, first, middle, audit.log, j, env, met, v, root, approval, steps);
      assert jobs.jobs == t0[j.id := Settled(j, v, env)];
      SettledKeeps(j, v, env);
    }

    // Jobs a dead worker left running: failed, each with a root entry of its own and a metric.
    method ReclaimStale(env: Env) returns (reclaimed: seq<Job>)
      requires Valid()
      modifies this`metrics, jobs, audit
      ensures Valid()
      ensures ReclaimStep(old(jobs.jobs), env.cutoff, env.settleAt, jobs.jobs, set j | j in reclaimed)
      ensures metrics == old(metrics) + ReclaimMetrics(reclaimed)
      ensures Orphans(old(audit.log), audit.log, reclaimed, env)
      ensures forall j :: j in reclaimed ==> TellsReclaim(old(audit.log), audit.log, j, env)
    {
      hide Appended, KeyedById, HasStep, Extends, Orphans, ReclaimStep, ReclaimMetrics, ReclaimMetric, ReclaimEntry, TellsReclaim;
      ghost var before := audit.log;
      reclaimed := jobs.ReclaimStaleRunning(env.cutoff, env.settleAt);
      ghost var failed := jobs.jobs;
      NoOrphans(before, env);
      for i := 0 to |reclaimed|
        invariant Valid() && jobs.jobs == failed
        invariant metrics == old(metrics) + ReclaimMetrics(reclaimed[..i])
        invariant Orphans(before, audit.log, reclaimed[..i], env)
      {
        ghost var middle := audit.log;
        NoteOrphan(reclaimed[i], env);
        OneMoreOrphan(reclaimed, i);
        OrphansMore(before, middle, audit.log, reclaimed[..i], reclaimed[i], env);
      }
      assert reclaimed[..|reclaimed|] == reclaimed;
      OrphansAreTold(before, audit.log, reclaimed, env);
    }

    method NoteOrphan(j: Job, env: Env)
      requires Valid()
      modifies this`metrics, audit
      ensures Valid() && metrics == old(metrics) + [ReclaimMetric(j)]
      ensures Extends(old(audit.log), audit.log, j.id, [ReclaimEntry(j, env)])
    {
      hide Appended, KeyedById, HasStep, Extends;
      var id := Note(audit, j.id, env.clock, ReclaimEntry(j, env));
      metrics := metrics + [ReclaimMetric(j)];
    }

    // What producers enqueue between two polls; a taken identifier is refused.
    method Arrive(arrivals: seq<Arrival>) returns (accepted: nat)
      requires Valid()
      modifies jobs
      ensures Valid() && Kept(old(jobs.jobs), jobs.jobs)
      ensures |ClaimableIds(jobs.jobs)| == |ClaimableIds(old(jobs.jobs))| + accepted
      ensures arrivals == [] ==> accepted == 0
    {
      hide KeyedById, ClaimableIds, Kept;
      accepted := 0;
      KeptItself(jobs.jobs);
      for i := 0 to |arrivals|
        invariant Valid() && accepted <= i && Kept(old(jobs.jobs), jobs.jobs)
        invariant |ClaimableIds(jobs.jobs)| == |ClaimableIds(old(jobs.jobs))| + accepted
      {
        ghost var before := jobs.jobs;
        var job := jobs.Enqueue(arrivals[i].id, arrivals[i].request, arrivals[i].at);
        if job.Some? {
          OneMore(before, arrivals[i].id, job.value);
          KeptThen(old(jobs.jobs), before, jobs.jobs);
          accepted := accepted + 1;
        }
      }
    }

    // One poll: a turn if a job is there, and otherwise a reclaim.
    method Poll(env: Env) returns (updated: Option<Job>, accepted: nat)
      requires Valid()
      modifies this`metrics, jobs, audit, issuer, runner`trace
      ensures Valid() && Kept(old(jobs.jobs), jobs.jobs) && ForestsStay(old(audit.log), audit.log)
      ensures |ClaimableIds(jobs.jobs)| + (if updated.Some? then 1 else 0) == |ClaimableIds(old(jobs.jobs))| + accepted
      ensures updated.None? ==> ClaimableIds(jobs.jobs) == {}
      ensures env.arrivals == [] ==> accepted == 0
    {
      hide KeyedById, ClaimableIds, Kept, ForestsStay, Turn, ReclaimStep, Orphans, Audited, Bracketed, RanForPlan, AsksForToken, AuditEvents.StepId;
      ghost var t0, log0 := jobs.jobs, audit.log;
      accepted := Arrive(env.arrivals);
      ghost var t1, met, root := jobs.jobs, Meets(), AuditEvents.StepId(audit.nextSeq);
      ghost var v, approval, entries;
      updated, v, approval, entries := ProcessOne(env);
      if updated.Some? {
        TurnKeeps(t1, updated.value.id, env, met, v, jobs.jobs);
        AuditedKeepsForests(log0, audit.log, Claimed(t1[updated.value.id], env.claimAt), updated.value, env, met, v, root, approval, entries);
      } else {
        var stale := ReclaimStale(env);
        IdleIsEmpty(t1);
        ReclaimKeeps(t1, env, jobs.jobs, set j | j in stale);
        OrphansKeepForests(log0, audit.log, stale, env);
      }
      KeptThen(t0, t1, jobs.jobs);
    }

    // The polling loop: reclaim once, then one environment a poll.
    method RunForever(start: Env, polls: seq<Env>) returns (processed: nat, ghost arrived: nat, ghost idle: nat)
      requires Valid()
      modifies this`metrics, jobs, audit, issuer, runner`trace
      ensures Valid()
      ensures processed + idle == |polls| && processed + |ClaimableIds(jobs.jobs)| == |ClaimableIds(old(jobs.jobs))| + arrived
      ensures (forall env :: env in polls ==> env.arrivals == []) ==>
                arrived == 0 && processed == OrderedQuery.Min(|polls|, |ClaimableIds(old(jobs.jobs))|)
      ensures forall id :: id in jobs.jobs && jobs.jobs[id].status == Running ==> id in old(jobs.jobs) && jobs.jobs[id] == old(jobs.jobs)[id]
      ensures forall id :: id in StaleIds(old(jobs.jobs), start.cutoff) ==>
                id in jobs.jobs && jobs.jobs[id] == Reclaimed(old(jobs.jobs)[id], start.settleAt)
      ensures ForestsStay(old(audit.log), audit.log)
    {
      hide KeyedById, ClaimableIds, Kept, ForestsStay, ReclaimStep, Orphans, StaleIds;
      processed, arrived, idle := 0, 0, 0;
      ghost var t0, log0 := jobs.jobs, audit.log;
      var stale := ReclaimStale(start);
      ghost var t1 := jobs.jobs;
      ReclaimKeeps(t0, start, t1, set j | j in stale);
      OrphansKeepForests(log0, audit.log, stale, start);
      KeptItself(t1);
      for i := 0 to |polls|
        invariant Valid() && Kept(t1, jobs.jobs) && ForestsStay(log0, audit.log)
        invariant processed + idle == i && processed + |ClaimableIds(jobs.jobs)| == |ClaimableIds(t0)| + arrived
        invariant (forall env :: env in polls ==> env.arrivals == []) ==> arrived == 0 && (idle > 0 ==> |ClaimableIds(jobs.jobs)| == 0)
      {
        assert polls[i] in polls;
        ghost var t, log := jobs.jobs, audit.log;
        var updated, accepted := Poll(polls[i]);
        KeptThen(t1, t, jobs.jobs);
        ForestsStayThen(log0, log, audit.log);
        arrived := arrived + accepted;
        if updated.Some? {
          processed := processed + 1;
        } else {
          idle := idle + 1;
        }
      }
      StartedClean(t0, start, t1, jobs.jobs, set j | j in stale);
    }

    // What becomes of what was tried.
    method Settle(j: Job, root: string, t: Tried, env: Env, ghost met: Met)
      returns (updated: Option<Job>, ghost v: Verdict, ghost steps: seq<Drift.Step>)
      requires Valid() && j.id in jobs.jobs && jobs.jobs[j.id] == j && j.status == Running && HasStep(Of(audit.log, j.id), root)
      requires TriedOk(j, env, met, t)
      modifies this`metrics, jobs, audit
      ensures Valid() && Decides(j, env, met, v) && Resolution(j, env, steps)
      ensures jobs.jobs == old(jobs.jobs)[j.id := Settled(j, v, env)] && updated == Some(jobs.jobs[j.id])
      ensures metrics == old(metrics) + [MetricOf(j, v, env)]
      ensures Extends(old(audit.log), audit.log, j.id, ClosingEntries(j, env, v, root, steps))
    {
      hide Extends, Appended, HasStep, KeyedById, BuildPrPlan, GateSays, Settled, Resolution, Decides, Produces;
      hide FailureEntries, ParkEntries, DoneEntries, SaysWaiting, SaysDone, SaysVerified, SaysFailed, SaysCause, ShowsCalls;
      match t
      case Failing(kind, target, known) =>
        v := Fails(kind);
        steps :| Resolution(j, env, steps) && known == if kind.Drifted? then steps else [];
        updated := Fail(j, kind, root, target, known, env);
      case Ran(outcome, target, all, observed) =>
        v, steps := OutcomeVerdict(j, env, outcome), all;
        OutcomeDecides(j, env, met, outcome, steps);
        if outcome.diff.Some? && PhaseOf(j) == Prepare {
          var plan := BuildPrPlan(env.auth, j.request.args, outcome.diff.value, env.root);
          if j.request.command != "pr" || plan.Err? {
            updated := Fail(j, PlanRejected, root, target, [], env);
          } else {
            updated := Park(j, plan.value, root, t, env);
          }
        } else if j.request.command == "pr" && PhaseOf(j) == Prepare {
          updated := Fail(j, NoDiff, root, target, [], env);
        } else {
          updated := Finish(j, root, t, env);
        }
    }
  }

  function ReclaimEntry(j: Job, env: Env): TrailEntry
  {
    TrailEntry(RECLAIMED_STALE,
               "running job orphaned by worker interruption (no progress since " + Decimal.Text(j.updatedAt) + "); failed on reclaim",
               map["command" := j.request.command, "timeout_s" := env.timeout], "", j.request.command, [], "", "")
  }

  function ReclaimMetric(j: Job): Metric
  {
    Metric(j.id, j.request.command, false, if j.report.error.Some? then j.report.error.value else "")
  }

  function ReclaimMetrics(reclaimed: seq<Job>): (r: seq<Metric>)
    ensures |r| == |reclaimed|
  {
    seq(|reclaimed|, i requires 0 <= i < |reclaimed| => ReclaimMetric(reclaimed[i]))
  }

  predicate SaysReclaimed(e: AuditEvents.AuditEvent, j: Job, env: Env)
  {
    && Says(e, "reclaimed_stale",
            "running job orphaned by worker interruption (no progress since " + Decimal.Text(j.updatedAt) + "); failed on reclaim",
            "", j.request.command, "", "")
    && Notes(e, "command", j.request.command) && Notes(e, "timeout_s", env.timeout)
  }

  lemma ReclaimEntrySays(e: AuditEvents.AuditEvent, j: Job, env: Env)
    requires Wrote(e, ReclaimEntry(j, env))
    ensures SaysReclaimed(e, j, env)
  {
    hide Decimal.Text;
    assert "command"[0] == 'c' && "timeout_s"[0] == 't';
  }

  // The last event of a reclaimed job's trail, the only new one, says so.
  predicate TellsReclaim(before: Log, after: Log, j: Job, env: Env)
  {
    |Of(after, j.id)| == |Of(before, j.id)| + 1 && SaysReclaimed(Of(after, j.id)[|Of(before, j.id)|], j, env)
  }

  lemma OrphansAreTold(before: Log, after: Log, reclaimed: seq<Job>, env: Env)
    requires Orphans(before, after, reclaimed, env)
    ensures forall j :: j in reclaimed ==> TellsReclaim(before, after, j, env)
  {
    hide Wrote, ReclaimEntry, StepTree.ParentsEarlier, SaysReclaimed;
    forall j | j in reclaimed ensures TellsReclaim(before, after, j, env) {
      var events, n := Of(after, j.id), |Of(before, j.id)|;
      assert Wrote(events[n + 0], [ReclaimEntry(j, env)][0]);
      ReclaimEntrySays(events[n], j, env);
    }
  }

  // Each reclaimed job's trail got one root entry, and no other job's trail changed.
  ghost predicate Orphans(before: Log, after: Log, reclaimed: seq<Job>, env: Env)
  {
    && (forall id :: (forall j :: j in reclaimed ==> j.id != id) ==> Of(after, id) == Of(before, id))
    && (forall j :: j in reclaimed ==> Grows(Of(before, j.id), Of(after, j.id), [ReclaimEntry(j, env)]))
  }

  lemma NoOrphans(log: Log, env: Env)
    ensures Orphans(log, log, [], env) && ReclaimMetrics([]) == []
  {
  }

  lemma OneMoreOrphan(reclaimed: seq<Job>, i: nat)
    requires i < |reclaimed| && forall i, k :: 0 <= i < k < |reclaimed| ==> reclaimed[i].id != reclaimed[k].id
    ensures reclaimed[..i + 1] == reclaimed[..i] + [reclaimed[i]]
    ensures forall k :: k in reclaimed[..i] ==> k.id != reclaimed[i].id
    ensures ReclaimMetrics(reclaimed[..i + 1]) == ReclaimMetrics(reclaimed[..i]) + [ReclaimMetric(reclaimed[i])]
  {
  }

  lemma OrphansMore(before: Log, middle: Log, after: Log, done: seq<Job>, j: Job, env: Env)
    requires Orphans(before, middle, done, env) && Extends(middle, after, j.id, [ReclaimEntry(j, env)])
    requires forall k :: k in done ==> k.id != j.id
    ensures Orphans(before, after, done + [j], env)
  {
    hide Grows, ReclaimEntry;
    assert j in done + [j];
    assert Of(middle, j.id) == Of(before, j.id);
    forall id | forall k :: k in done + [j] ==> k.id != id ensures Of(after, id) == Of(before, id) {
      assert forall k :: k in done ==> k in done + [j];
    }
  }

  // ---- steps of the proof ------------------------------------------------

  lemma RefusedPlan(j: Job, env: Env, met: Met)
    requires env.hasExecutor && env.scope.Ok? && ApprovedPr(j) && VerifyApproved(j, env.auth, env.seen).Err?
    ensures ApprovedRunEnds(j, env, met, Fails(PlanRejected))
  {
    hide VerifyApproved;
  }

  lemma ModelRunProduces(j: Job, env: Env, met: Met)
    requires env.hasExecutor && env.scope.Ok? && !ApprovedPr(j) && env.run.Returned?
    ensures Produces(j, env, met, env.run.outcome)
  {
  }

  lemma ProducesCalls(j: Job, env: Env, met: Met, outcome: CommandOutcome)
    requires Produces(j, env, met, outcome)
    ensures outcome.calls == CallsOf(j, env)
  {
    hide VerifyApproved, Ended;
  }

  lemma NothingRan(j: Job, env: Env, steps: seq<Drift.Step>)
    requires steps == []
    ensures GateSays(j, env, steps) == Ok([])
  {
    hide EnforceObserved;
    NoCalls(j.request.command, PlanFor(j, env));
  }

  lemma DriftDecides(j: Job, env: Env, met: Met, outcome: CommandOutcome, steps: seq<Drift.Step>)
    requires Produces(j, env, met, outcome) && Resolution(j, env, steps) && GateSays(j, env, steps).Err?
    ensures Decides(j, env, met, Fails(Drifted(ObservedCapabilities(Executed(steps)))))
  {
    hide GateSays, CountsAs, Verified, Ended, ObservedCapabilities;
    if ApprovedPr(j) {
      NothingRan(j, env, steps);
    }
  }

  lemma OutcomeDecides(j: Job, env: Env, met: Met, outcome: CommandOutcome, steps: seq<Drift.Step>)
    requires Produces(j, env, met, outcome) && Resolution(j, env, steps) && GateSays(j, env, steps).Ok?
    ensures Decides(j, env, met, OutcomeVerdict(j, env, outcome))
  {
    hide GateSays, CountsAs, Verified, StepEnds, BuildPrPlan, ObservedCapabilities;
    if ApprovedPr(j) {
      var ending :| StepEnds(j, env, met, Summary(ending)) && outcome == ApprovedOutcome(env, ending);
      assert ApprovedVerdict(env, Summary(ending)) == OutcomeVerdict(j, env, outcome);
    }
  }

  lemma WholeTrail(j: Job, env: Env, met: Met, v: Verdict, root: string, approval: string, steps: seq<Drift.Step>)
    requires Resolution(j, env, steps)
    ensures TurnTrail(j, env, met, v, root, approval, [ClaimEntry(j)] + (CredentialEntries(j, env, met, approval) + ClosingEntries(j, env, v, root, steps)))
  {
    hide Resolution, CredentialEntries, ClosingEntries;
  }

  // ---- one turn on the job table -----------------------------------------

  function MetricOf(j: Job, v: Verdict, env: Env): Metric
  {
    Metric(j.id, j.request.command, !v.Fails?, if v.Fails? then env.text(v.kind) else "")
  }

  lemma SettledKeeps(j: Job, v: Verdict, env: Env)
    ensures Settled(j, v, env).id == j.id && Settled(j, v, env).request == j.request
  {
  }

  // One turn on the job table: the next job is claimed and settled by a verdict with its causes.
  ghost predicate Turn(before: Table, id: string, env: Env, met: Met, v: Verdict, after: Table)
  {
    && IsNext(before, id)
    && var j := Claimed(before[id], env.claimAt);
       Decides(j, env, met, v) && after == before[id := Settled(j, v, env)]
  }

  lemma ClaimedNothing(before: Table, now: Time, after: Table)
    requires ClaimStep(before, now, after, None)
    ensures JobStore.Idle(before) && after == before
  {
  }

  lemma ClaimedOne(before: Table, now: Time, after: Table, j: Job) returns (id: string)
    requires ClaimStep(before, now, after, Some(j)) && KeyedById(before)
    ensures id == j.id && IsNext(before, id) && after == before[id := j] && j == Claimed(before[id], now)
    ensures !JobStore.Idle(before) && j.status == Running
  {
    id :| IsNext(before, id) && after == before[id := Claimed(before[id], now)] && Some(j) == Some(Claimed(before[id], now));
  }

  // Whatever the executor did, a turn leaves its job out of RUNNING, every other job as it was,
  // and the claimed job one of: waiting with the plan it was given, done, or failed.
  lemma TurnSettles(before: Table, id: string, env: Env, met: Met, v: Verdict, after: Table)
    requires Turn(before, id, env, met, v, after)
    ensures id in after && after[id].status != Running && !Claimable(after[id].status)
    ensures after[id].status == Status.AwaitingApproval <==> v.Parks?
    ensures after[id].status == Status.Failed <==> v.Fails?
    ensures forall other :: other in before && other != id ==> other in after && after[other] == before[other]
    ensures after[id].request == before[id].request && id in before && Claimable(before[id].status)
    ensures after == before[id := after[id]]
  {
    hide Decides;
    assert IsNext(before, id);
  }

  // ---- what fixes a turn -------------------------------------------------

  lemma OneTool(command: string, call: ToolCall, a: string, b: string)
    requires CountsAs(command, call, a) && CountsAs(command, call, b)
    ensures a == b
  {
    hide Policy.Resolves;
    if call.command != "" && exists t :: Policy.Resolves(command, call.command, t) {
      Policy.ResolvedIsGranted(command, call.command, a);
    }
  }

  lemma OneResolution(j: Job, env: Env, a: seq<Drift.Step>, b: seq<Drift.Step>)
    requires Resolution(j, env, a) && Resolution(j, env, b)
    ensures a == b
  {
    hide CountsAs;
    forall i | 0 <= i < |a| ensures a[i] == b[i] {
      OneTool(j.request.command, CallsOf(j, env)[i], a[i].tool, b[i].tool);
    }
  }

  // What the worker is given leaves one verdict, so a turn is a function of the job and of what it meets.
  lemma OneVerdict(j: Job, env: Env, met: Met, v1: Verdict, v2: Verdict)
    requires Decides(j, env, met, v1) && Decides(j, env, met, v2)
    ensures v1 == v2
  {
    hide Resolution, GateVerdict, Verified, Ended;
    if env.hasExecutor && env.scope.Ok? {
      if ApprovedPr(j) {
        if Verified(j, env) {
          var r1 :| StepEnds(j, env, met, r1) && v1 == ApprovedVerdict(env, r1);
          var r2 :| StepEnds(j, env, met, r2) && v2 == ApprovedVerdict(env, r2);
          OneEnd(j, ApprovedPlan(j, env), env.terms, met.token, met.answers, met.base, r1, r2);
        }
      } else if env.run.Returned? {
        var a :| Resolution(j, env, a) && v1 == GateVerdict(j, env, env.run.outcome, a);
        var b :| Resolution(j, env, b) && v2 == GateVerdict(j, env, env.run.outcome, b);
        OneResolution(j, env, a, b);
      }
    }
  }

  // With distinct creation times a turn leaves one table: the same job is next and the same verdict holds.
  lemma OneTurn(before: Table, env: Env, met: Met, id1: string, v1: Verdict, t1: Table, id2: string, v2: Verdict, t2: Table)
    requires DistinctCreated(before) && Turn(before, id1, env, met, v1, t1) && Turn(before, id2, env, met, v2, t2)
    ensures id1 == id2 && v1 == v2 && t1 == t2
  {
    hide Decides, DistinctCreated;
    assert IsNext(before, id1) && IsNext(before, id2);
    NextUnique(before, id1, id2);
    OneVerdict(Claimed(before[id1], env.claimAt), env, met, v1, v2);
  }

  // ---- done, and no pull request -----------------------------------------

  // The approved step is reached and ends in a text: an approved job completes.
  predicate StepReturns(j: Job, env: Env, met: Met)
  {
    && env.hasExecutor && env.scope.Ok? && Verified(j, env)
    && (env.terms.provider.NotConfigured? || (AsksForToken(j, env) && Usable(met.token) && env.terms.auditable))
  }

  // Its pull request is opened.
  ghost predicate Opens(j: Job, env: Env, met: Met)
  {
    && AsksForToken(j, env) && RunsScript(j, ApprovedPlan(j, env), env.terms, met.token)
    && PrExecution.Succeeds(met.answers, met.base, ApprovedPlan(j, env))
  }

  lemma ApprovedEnd(j: Job, env: Env, met: Met, v: Verdict) returns (r: StepResult)
    requires Decides(j, env, met, v) && ApprovedPr(j) && env.hasExecutor && env.scope.Ok? && Verified(j, env)
    ensures StepEnds(j, env, met, r) && v == ApprovedVerdict(env, r)
  {
    hide Verified, StepEnds, ApprovedVerdict;
    r :| StepEnds(j, env, met, r) && v == ApprovedVerdict(env, r);
  }

  // An approved job is done exactly when its step ends in a text, of whichever of the five kinds.
  lemma DoneIffStepReturns(j: Job, env: Env, met: Met, v: Verdict)
    requires Decides(j, env, met, v) && ApprovedPr(j)
    ensures v.Completes? <==> StepReturns(j, env, met)
  {
    hide Verified, RequireApprovalBinding, IsRepository, PrExecution.Succeeds, PrExecution.UrlAt, BadText, PyText.Strip;
    if env.hasExecutor && env.scope.Ok? && Verified(j, env) {
      var r := ApprovedEnd(j, env, met, v);
    }
  }

  // Whichever text it is, the trail says that the remote pull request was verified; the text is an
  // address exactly when one was opened. So a job without a pull request is done and marked as
  // verified exactly when the step ends in a text and the pull request is not opened.
  lemma DoneWithoutPullRequest(j: Job, env: Env, met: Met, v: Verdict, root: string, approval: string, entries: seq<TrailEntry>)
    returns (ending: Ending)
    requires Decides(j, env, met, v) && ApprovedPr(j) && v.Completes? && TurnTrail(j, env, met, v, root, approval, entries)
    ensures v == Completes(ReportOf(ApprovedOutcome(env, ending)))
    ensures ending.Opened? <==> Opens(j, env, met)
    ensures ending.Opened? ==> ending.url == PrExecution.UrlAt(met.answers, met.base)
    ensures exists x :: x in entries && x.action == "postcondition_verified" && x.tool == "gh pr diff" && x.parent == root
  {
    hide RequireApprovalBinding, IsRepository, PrExecution.Succeeds, PrExecution.UrlAt, BadText, PyText.Strip, VerifyApproved, TurnTrail;
    DoneIffStepReturns(j, env, met, v);
    var r := ApprovedEnd(j, env, met, v);
    ending := r.ending;
    PostconditionShown(j, env, met, v, root, approval, entries);
  }

  lemma PostconditionShown(j: Job, env: Env, met: Met, v: Verdict, root: string, approval: string, entries: seq<TrailEntry>)
    requires ApprovedPr(j) && v.Completes? && TurnTrail(j, env, met, v, root, approval, entries)
    ensures exists x :: x in entries && x.action == "postcondition_verified" && x.tool == "gh pr diff" && x.parent == root
  {
    hide Resolution, CredentialEntries, ToolEntries, DoneEntry;
    var steps :| Resolution(j, env, steps)
      && entries == [ClaimEntry(j)] + (CredentialEntries(j, env, met, approval) + ClosingEntries(j, env, v, root, steps));
    var x := PostconditionEntries(j, root, Target(env))[0];
    assert x in ClosingEntries(j, env, v, root, steps);
    assert x in entries;
  }

  // For every approved job whose step comes to the commands there are answers, the first command
  // failing, with which it is done without a pull request.
  lemma FailedCommandIsDone(j: Job, env: Env, token: string) returns (met: Met)
    requires env.hasExecutor && env.scope.Ok? && ApprovedPr(j) && AsksForToken(j, env)
    requires RunsScript(j, ApprovedPlan(j, env), env.terms, Some(token))
    ensures met.token == Some(token) && met.answers(met.base).returnCode == 1 && !Opens(j, env, met)
    ensures Decides(j, env, met, Completes(ReportOf(ApprovedOutcome(env, ScriptFailed))))
  {
    hide Verified, Grantable, BadText, PyText.Strip;
    met := Met(_ => PrExecution.Completed(1, "", ""), 0, Some(token));
    assert met.answers(met.base).returnCode == 1;
    assert StepEnds(j, env, met, Summary(ScriptFailed));
  }

  // Nor does it take a command: without a configured credential every verified approved job is done.
  lemma UnconfiguredIsDone(j: Job, env: Env, met: Met)
    requires env.hasExecutor && env.scope.Ok? && ApprovedPr(j) && Verified(j, env) && env.terms.provider.NotConfigured?
    ensures !Opens(j, env, met)
    ensures exists ending :: Decides(j, env, met, Completes(ReportOf(ApprovedOutcome(env, ending))))
  {
    hide Verified, BadText, PyText.Strip, RequireApprovalBinding, IsRepository;
    var description := PyText.Strip(j.request.args);
    var ending := if BadText(description) then BadDescription else if !env.terms.inScope then OutOfScope else NoCredential;
    assert StepEnds(j, env, met, Summary(ending));
    assert Decides(j, env, met, Completes(ReportOf(ApprovedOutcome(env, ending))));
  }

  // ---- the polling loop --------------------------------------------------

  function ClaimableIds(t: Table): set<string>
  {
    set id | id in t && Claimable(t[id].status)
  }

  // Whatever runs now ran before and was not touched, and what had failed stays as it was.
  ghost predicate Kept(before: Table, after: Table)
  {
    && (forall id :: id in after && after[id].status == Running ==> id in before && after[id] == before[id])
    && (forall id :: id in before && before[id].status == Status.Failed ==> id in after && after[id] == before[id])
  }

  lemma KeptItself(t: Table)
    ensures Kept(t, t)
  {
  }

  lemma KeptThen(a: Table, b: Table, c: Table)
    requires Kept(a, b) && (Kept(b, c) || exists id, j: Job :: id !in b && j.status == Pending && c == b[id := j])
    ensures Kept(a, c)
  {
  }

  lemma ReclaimKeeps(before: Table, env: Env, after: Table, reply: set<Job>)
    requires ReclaimStep(before, env.cutoff, env.settleAt, after, reply)
    ensures Kept(before, after) && ClaimableIds(after) == ClaimableIds(before)
  {
  }

  lemma TurnKeeps(before: Table, id: string, env: Env, met: Met, v: Verdict, after: Table)
    requires Turn(before, id, env, met, v, after)
    ensures Kept(before, after) && |ClaimableIds(after)| + 1 == |ClaimableIds(before)|
  {
    hide Turn, ClaimableIds;
    TurnSettles(before, id, env, met, v, after);
    TurnConsumes(before, id, env, met, v, after);
  }

  lemma IdleIsEmpty(t: Table)
    requires JobStore.Idle(t)
    ensures ClaimableIds(t) == {}
  {
  }

  lemma StartedClean(t0: Table, start: Env, t1: Table, t: Table, reply: set<Job>)
    requires ReclaimStep(t0, start.cutoff, start.settleAt, t1, reply) && Kept(t1, t)
    ensures forall id :: id in t && t[id].status == Running ==> id in t0 && t[id] == t0[id]
    ensures forall id :: id in StaleIds(t0, start.cutoff) ==> id in t && t[id] == Reclaimed(t0[id], start.settleAt)
  {
    forall id | id in StaleIds(t0, start.cutoff) ensures id in t && t[id] == Reclaimed(t0[id], start.settleAt) {
      assert id in t1 && t1[id] == Reclaimed(t0[id], start.settleAt);
    }
  }

  // Every trail that was a forest still is one.
  ghost predicate ForestsStay(before: Log, after: Log)
  {
    forall job :: StepTree.ParentsEarlier(Of(before, job)) ==> StepTree.ParentsEarlier(Of(after, job))
  }

  lemma ForestsStayThen(a: Log, b: Log, c: Log)
    requires ForestsStay(a, b) && ForestsStay(b, c)
    ensures ForestsStay(a, c)
  {
    hide StepTree.ParentsEarlier;
  }

  lemma AuditedKeepsForests(before: Log, after: Log, j: Job, stored: Job, env: Env, met: Met, v: Verdict, root: string, approval: string,
                            entries: seq<TrailEntry>)
    requires Audited(before, after, j, stored, env, met, v, root, approval, entries)
    ensures ForestsStay(before, after)
  {
    hide StepTree.ParentsEarlier, Wrote, TurnTrail, Tells, TellsGrant, CredentialEntries;
  }

  lemma OrphansKeepForests(before: Log, after: Log, reclaimed: seq<Job>, env: Env)
    requires Orphans(before, after, reclaimed, env)
    ensures ForestsStay(before, after)
  {
    hide StepTree.ParentsEarlier, Wrote, ReclaimEntry;
    forall job | StepTree.ParentsEarlier(Of(before, job)) ensures StepTree.ParentsEarlier(Of(after, job)) {
      if j :| j in reclaimed && j.id == job {
        assert Grows(Of(before, j.id), Of(after, j.id), [ReclaimEntry(j, env)]);
      }
    }
  }

  lemma OneLess(before: Table, id: string, after: Table)
    requires id in before && Claimable(before[id].status) && id in after && !Claimable(after[id].status)
    requires after == before[id := after[id]]
    ensures |ClaimableIds(before)| == |ClaimableIds(after)| + 1
  {
    assert ClaimableIds(before) == ClaimableIds(after) + {id};
  }

  lemma OneMore(before: Table, id: string, j: Job)
    requires id !in before && Claimable(j.status)
    ensures |ClaimableIds(before[id := j])| == |ClaimableIds(before)| + 1
  {
    assert ClaimableIds(before[id := j]) == ClaimableIds(before) + {id};
  }

  // A turn takes one job off the queue and puts none on it.
  lemma TurnConsumes(before: Table, id: string, env: Env, met: Met, v: Verdict, after: Table)
    requires Turn(before, id, env, met, v, after)
    ensures |ClaimableIds(before)| == |ClaimableIds(after)| + 1
  {
    hide Turn, ClaimableIds;
    TurnSettles(before, id, env, met, v, after);
    OneLess(before, id, after);
  }

  lemma {:induction false} SomeResolution(j: Job, env: Env) returns (steps: seq<Drift.Step>)
    ensures Resolution(j, env, steps)
  {
    hide Policy.Resolves;
    var calls := CallsOf(j, env);
    steps := ResolveSome(j.request.command, calls);
  }

  lemma {:induction false} ResolveSome(command: string, calls: seq<ToolCall>) returns (steps: seq<Drift.Step>)
    ensures |steps| == |calls|
    ensures forall i :: 0 <= i < |calls| ==> steps[i].call == calls[i] && CountsAs(command, calls[i], steps[i].tool)
  {
    hide Policy.Resolves;
    if calls == [] {
      steps := [];
    } else {
      var rest := ResolveSome(command, calls[1..]);
      var tool := calls[0].name;
      if calls[0].command != "" {
        tool := UNRESOLVED_PREFIX + calls[0].name;
        if exists t :: Policy.Resolves(command, calls[0].command, t) {
          tool :| Policy.Resolves(command, calls[0].command, tool);
        }
      }
      assert CountsAs(command, calls[0], tool);
      steps := [Drift.Step(calls[0], tool)] + rest;
    }
  }
}
