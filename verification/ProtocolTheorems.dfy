/** What every run of the job protocol keeps. */
module ProtocolTheorems {
  import opened Wrappers
  import opened Jobs
  import opened Plan
  import opened Credentials
  import opened Protocol
  import opened ProtocolInvariant

  // ---- the rank of a job -------------------------------------------------

  // A job is left alone, or drops in rank and keeps what was asked for and the plan hash, if any.
  ghost predicate Falls(j: Job, j': Job)
  {
    j' == j || (Rank(j') < Rank(j) && j'.id == j.id && j'.request == j.request && j'.createdAt == j.createdAt && SameHash(j, j'))
  }

  lemma ClaimFalls(j: Job, h: History, now: Time)
    requires JobOk(j, h) && Claimable(j.status)
    ensures Falls(j, Claimed(j, now))
  {
    hide BuildPrPlan, CanonicalJson, Digest;
  }

  lemma ParkFalls(p: Worker, j: Job, h: History, diff: string, plan: string, hash: string, now: Time)
    requires JobOk(j, h) && j.status == Running && !p.Idle? && HolderOk(p, j, h) && PhaseOf(p.job) == Prepare
    ensures Falls(j, Parked(j, diff, Some(plan), Some(hash), now))
  {
    hide BuildPrPlan, CanonicalJson, Digest, Unchanged, RequireApprovalBinding;
  }

  lemma ApproveFalls(j: Job, approver: string, hash: string, now: Time)
    requires j.status == AwaitingApproval
    ensures Falls(j, ApprovedJob(j, approver, hash, now))
    ensures Falls(j, RejectedJob(j, approver, now)) && Falls(j, WebRejected(j, approver, now))
  {
  }

  lemma EndFalls(j: Job, o: Outcome, now: Time)
    requires j.status == Running && (o.status == Done || o.status == Failed)
    ensures Falls(j, Completed(j, o, now)) && Falls(j, Reclaimed(j, now))
  {
  }

  lemma ParkStepFalls(w: World, i: nat, auth: Authority, root: string, now: Time, id: string)
    requires Inv(w) && Enabled(w, Action.Park(i, auth, root, now)) && id in w.jobs
    ensures id in Apply(w, Action.Park(i, auth, root, now)).jobs
    ensures Falls(w.jobs[id], Apply(w, Action.Park(i, auth, root, now)).jobs[id])
  {
    hide Inv, JobOk, HolderOk, BuildPrPlan, CanonicalJson, Digest, Falls, Parked, Verifies, RequireApprovalBinding, Rank;
    Holder(w, i);
    UnchangedFalls(w.jobs[id]);
    var p := At(w, i);
    if w.jobs[p.job.id].status == Running {
      var plan := BuildPrPlan(auth, p.job.request.args, p.diff.value, root).value;
      ParkFalls(p, w.jobs[p.job.id], w.history[p.job.id], p.diff.value, CanonicalJson(plan), Digest(plan), now);
    }
  }

  lemma SettleFalls(w: World, i: nat, o: Outcome, now: Time, h: History, id: string)
    requires Inv(w) && !At(w, i).Idle? && (o.status == Done || o.status == Failed) && id in w.jobs
    ensures id in Settle(w, i, (j: Job) => Completed(j, o, now), h).jobs
    ensures Falls(w.jobs[id], Settle(w, i, (j: Job) => Completed(j, o, now), h).jobs[id])
  {
    hide Inv, JobOk, HolderOk, Falls, Completed;
    Holder(w, i);
    UnchangedFalls(w.jobs[id]);
    if w.jobs[At(w, i).job.id].status == Running {
      EndFalls(w.jobs[At(w, i).job.id], o, now);
    }
  }

  lemma PutFalls(w: World, k: string, j: Job, h: History, id: string)
    requires id in w.jobs && k in w.jobs && Falls(w.jobs[k], j)
    ensures id in PutJob(w, k, j, h).jobs && Falls(w.jobs[id], PutJob(w, k, j, h).jobs[id])
  {
    hide Falls;
    UnchangedFalls(w.jobs[id]);
  }

  lemma ClaimStepFalls(w: World, i: nat, k: string, now: Time, id: string)
    requires JobsOk(w) && Enabled(w, Action.Claim(i, k, now)) && id in w.jobs
    ensures id in Apply(w, Action.Claim(i, k, now)).jobs && Falls(w.jobs[id], Apply(w, Action.Claim(i, k, now)).jobs[id])
  {
    hide JobOk, Falls, Claimed;
    UnchangedFalls(w.jobs[id]);
    ClaimFalls(w.jobs[k], w.history[k], now);
  }

  lemma EndStepFalls(w: World, action: Action, id: string)
    requires Inv(w) && Enabled(w, action) && (action.Complete? || action.Fail?) && id in w.jobs
    ensures id in Apply(w, action).jobs && Falls(w.jobs[id], Apply(w, action).jobs[id])
  {
    hide Inv, Falls, Settle;
    match action
    case Complete(i, report, now) => SettleFalls(w, i, Outcome(Done, report), now, HistoryOf(w, At(w, i).job.id), id);
    case Fail(i, error, now) => SettleFalls(w, i, Outcome(Failed, FailedReport(error)), now, HistoryOf(w, At(w, i).job.id), id);
  }

  lemma RestLeavesJobs(w: World, action: Action)
    requires Enabled(w, action) && ByWorker(action)
    requires !action.Claim? && !action.Park? && !action.Complete? && !action.Fail?
    ensures Apply(w, action).jobs == w.jobs
  {
    hide OtherMay, OtherStep, Verifies, RequireApprovalBinding;
  }

  lemma WorkerStepFalls(w: World, action: Action, id: string)
    requires Inv(w) && Enabled(w, action) && id in w.jobs && ByWorker(action)
    ensures id in Apply(w, action).jobs && Falls(w.jobs[id], Apply(w, action).jobs[id])
  {
    hide JobsOk, WorkersOk, OneHolder, SightingsOk, Falls, Enabled, Apply;
    UnchangedFalls(w.jobs[id]);
    match action
    case Claim(i, k, now) => ClaimStepFalls(w, i, k, now, id);
    case Park(i, auth, root, now) => ParkStepFalls(w, i, auth, root, now, id);
    case Complete(_, _, _) => EndStepFalls(w, action, id);
    case Fail(_, _, _) => EndStepFalls(w, action, id);
    case _ => RestLeavesJobs(w, action);
  }

  lemma ApproveStepFalls(w: World, k: string, approver: string, hash: string, now: Time, id: string)
    requires id in w.jobs && k in w.jobs && w.jobs[k].status == AwaitingApproval
    ensures id in ApprovedWorld(w, k, approver, hash, now).jobs
    ensures Falls(w.jobs[id], ApprovedWorld(w, k, approver, hash, now).jobs[id])
  {
    hide Falls, ApprovedJob;
    ApproveFalls(w.jobs[k], approver, hash, now);
    PutFalls(w, k, ApprovedJob(w.jobs[k], approver, hash, now),
             HistoryOf(w, k).(approvals := HistoryOf(w, k).approvals + [hash]), id);
  }

  lemma NewJobFalls(w: World, k: string, request: Request, now: Time, id: string)
    requires id in w.jobs && k !in w.jobs
    ensures id in PutJob(w, k, NewJob(k, request, now), NO_HISTORY).jobs
    ensures PutJob(w, k, NewJob(k, request, now), NO_HISTORY).jobs[id] == w.jobs[id]
  {
  }

  lemma OtherStepFalls(w: World, action: Action, id: string)
    requires Enabled(w, action) && id in w.jobs && !ByWorker(action)
    ensures id in Apply(w, action).jobs && Falls(w.jobs[id], Apply(w, action).jobs[id])
  {
    hide Falls, WorkerMay, WorkerStep, Reclaimed, ApprovedWorld, RejectedJob, WebRejected, PutJob;
    UnchangedFalls(w.jobs[id]);
    match action
    case Enqueue(k, request, now) => NewJobFalls(w, k, request, now, id);
    case Reclaim(k, now) =>
      EndFalls(w.jobs[k], Outcome(Failed, FailedReport("")), now);
      PutFalls(w, k, Reclaimed(w.jobs[k], now), HistoryOf(w, k), id);
    case ApproveSqlite(a, approver, now) =>
      if Awaiting(w, w.approvers[a].id) {
        ApproveStepFalls(w, w.approvers[a].id, approver, w.approvers[a].hash, now, id);
      }
    case ApproveDynamo(a, approver, now) =>
      if Awaiting(w, w.approvers[a].id) {
        ApproveStepFalls(w, w.approvers[a].id, approver, w.approvers[a].hash, now, id);
      }
    case ApproveWeb(k, approver, now) => ApproveStepFalls(w, k, approver, w.jobs[k].gate.executionPlanHash.value, now, id);
    case Reject(k, approver, now) =>
      ApproveFalls(w.jobs[k], approver, "", now);
      PutFalls(w, k, RejectedJob(w.jobs[k], approver, now), HistoryOf(w, k), id);
    case RejectWeb(k, approver, now) =>
      ApproveFalls(w.jobs[k], approver, "", now);
      PutFalls(w, k, WebRejected(w.jobs[k], approver, now), HistoryOf(w, k), id);
    case _ =>
  }

  lemma InvStepFalls(w: World, action: Action, id: string)
    requires Inv(w) && Enabled(w, action) && id in w.jobs
    ensures id in Apply(w, action).jobs && Falls(w.jobs[id], Apply(w, action).jobs[id])
  {
    hide Inv, Enabled, Apply, Falls;
    if ByWorker(action) {
      WorkerStepFalls(w, action, id);
    } else {
      OtherStepFalls(w, action, id);
    }
  }

  lemma UnchangedFalls(j: Job)
    ensures Falls(j, j)
  {
  }

  // Every step of every run: no job is lost, and a job that changes drops in rank.
  lemma StepFalls(w: World, action: Action, id: string)
    requires Reachable(w) && Enabled(w, action) && id in w.jobs
    ensures id in Apply(w, action).jobs && Falls(w.jobs[id], Apply(w, action).jobs[id])
  {
    ReachableInv(w);
    InvStepFalls(w, action, id);
  }

  // How many steps of a run change the job.
  ghost function Changes(w: World, actions: seq<Action>, id: string): nat
    requires IsRun(w, actions)
    decreases |actions|
  {
    if actions == [] then 0
    else
      var w' := Apply(w, actions[0]);
      (if id in w.jobs && id in w'.jobs && w'.jobs[id] != w.jobs[id] then 1 else 0) + Changes(w', actions[1..], id)
  }

  // A job changes at most as often as its rank allows: five times from PENDING, never once terminal.
  lemma {:induction false} ChangesBounded(w: World, actions: seq<Action>, id: string)
    requires Inv(w) && IsRun(w, actions) && id in w.jobs
    ensures id in After(w, actions).jobs
    ensures Changes(w, actions, id) + Rank(After(w, actions).jobs[id]) <= Rank(w.jobs[id])
    ensures Changes(w, actions, id) == 0 ==> After(w, actions).jobs[id] == w.jobs[id]
    decreases |actions|
  {
    hide Inv, Enabled, Apply, Rank;
    if actions != [] {
      InvStepFalls(w, actions[0], id);
      StepKeepsInv(w, actions[0]);
      ChangesBounded(Apply(w, actions[0]), actions[1..], id);
    }
  }

  lemma AtMostFiveChanges(w: World, actions: seq<Action>, id: string)
    requires Reachable(w) && IsRun(w, actions) && id in w.jobs
    ensures id in After(w, actions).jobs && Changes(w, actions, id) <= 5
    ensures w.jobs[id].status == Status.Done || w.jobs[id].status == Status.Failed || w.jobs[id].status == Rejected ==>
              After(w, actions).jobs[id] == w.jobs[id]
  {
    hide Inv, Enabled, Apply;
    ReachableInv(w);
    ChangesBounded(w, actions, id);
  }

  // A reclaimed job stays failed, whatever the worker that held it and everybody else do next.
  lemma ReclaimIsFinal(w: World, id: string, now: Time, actions: seq<Action>)
    requires Reachable(w) && Enabled(w, Action.Reclaim(id, now)) && IsRun(Apply(w, Action.Reclaim(id, now)), actions)
    ensures var w' := After(Apply(w, Action.Reclaim(id, now)), actions);
            id in w'.jobs && w'.jobs[id] == Reclaimed(w.jobs[id], now) && w'.jobs[id].status == Status.Failed
  {
    hide Inv, IsRun, After;
    ReachableInv(w);
    StepKeepsInv(w, Action.Reclaim(id, now));
    ChangesBounded(Apply(w, Action.Reclaim(id, now)), actions, id);
  }

  // ---- at most once ------------------------------------------------------

  // Each phase is claimed once and started once, a plan is gated once and approved once, and one
  // pull request is started; each only after the one before it.
  lemma AtMostOnce(w: World, id: string)
    requires Reachable(w) && id in w.jobs
    ensures id in w.history
    ensures var h := w.history[id];
            && h.claims <= [Prepare, Execute] && h.starts <= h.claims
            && |h.gates| <= 1 && |h.approvals| <= |h.gates| && |h.prs| <= |h.approvals|
  {
    hide GateOk, StatusOk, WorkersOk;
    ReachableInv(w);
  }

  // The approvals of a job stay as they are.
  predicate SameApprovals(w: World, w': World, id: string)
  {
    HistoryOf(w', id).approvals == HistoryOf(w, id).approvals
  }

  // One approval more: the job waited, and its plan hash is what the approval stored.
  predicate ApprovedHere(w: World, w': World, id: string)
  {
    && Awaiting(w, id) && w.jobs[id].gate.executionPlanHash.Some? && id in w'.jobs
    && HistoryOf(w', id).approvals == HistoryOf(w, id).approvals + [w.jobs[id].gate.executionPlanHash.value]
    && w'.jobs[id].gate.approvalHash == w.jobs[id].gate.executionPlanHash
  }

  lemma WorkersDoNotApprove(w: World, action: Action, id: string)
    requires JobsOk(w) && Enabled(w, action) && ByWorker(action)
    ensures SameApprovals(w, Apply(w, action), id)
  {
    hide JobsOk, OtherMay, OtherStep, Verifies, CanPark, RequireApprovalBinding, BuildPrPlan, Digest, CanonicalJson;
  }

  lemma ApprovedOnlyHere(w: World, k: string, approver: string, hash: string, now: Time, id: string)
    requires Awaiting(w, k) && w.jobs[k].gate.executionPlanHash == Some(hash)
    ensures var w' := ApprovedWorld(w, k, approver, hash, now); if id == k then ApprovedHere(w, w', id) else SameApprovals(w, w', id)
  {
  }

  lemma OthersLeaveApprovals(w: World, action: Action, id: string)
    requires Enabled(w, action) && !ByWorker(action) && !action.ApproveSqlite? && !action.ApproveDynamo? && !action.ApproveWeb? && id in w.jobs
    ensures SameApprovals(w, Apply(w, action), id)
  {
    hide WorkerMay, WorkerStep, ApprovedWorld;
  }

  lemma OthersApprove(w: World, action: Action, id: string)
    requires SightingsOk(w) && Enabled(w, action) && !ByWorker(action) && id in w.jobs
    ensures SameApprovals(w, Apply(w, action), id) || ApprovedHere(w, Apply(w, action), id)
  {
    hide SightingsOk, WorkerMay, WorkerStep, ApprovedWorld, ApprovedHere, PutJob;
    match action
    case ApproveSqlite(a, approver, now) =>
      StillSeen(w, a);
      if Awaiting(w, w.approvers[a].id) {
        ApprovedOnlyHere(w, w.approvers[a].id, approver, w.approvers[a].hash, now, id);
      }
    case ApproveDynamo(a, approver, now) =>
      StillSeen(w, a);
      if Awaiting(w, w.approvers[a].id) {
        ApprovedOnlyHere(w, w.approvers[a].id, approver, w.approvers[a].hash, now, id);
      }
    case ApproveWeb(k, approver, now) => ApprovedOnlyHere(w, k, approver, w.jobs[k].gate.executionPlanHash.value, now, id);
    case _ => OthersLeaveApprovals(w, action, id);
  }

  // Approvals are recorded at the gate only, and each stores the plan hash of the job.
  lemma ApprovalsHappenAtTheGate(w: World, action: Action, id: string)
    requires Reachable(w) && Enabled(w, action) && id in w.jobs
    ensures SameApprovals(w, Apply(w, action), id) || ApprovedHere(w, Apply(w, action), id)
  {
    hide Reachable, Enabled, Apply, JobsOk, WorkersOk, OneHolder, SightingsOk, SameApprovals, ApprovedHere;
    ReachableInv(w);
    if ByWorker(action) {
      WorkersDoNotApprove(w, action, id);
    } else {
      OthersApprove(w, action, id);
    }
  }

  // A pull request job that is done was approved, for the plan hash it still holds, and its executor
  // started once before and once after: nothing is reported as done that no one let through.
  lemma DoneMeansApproved(w: World, id: string)
    requires Reachable(w) && id in w.jobs && w.jobs[id].request.command == "pr" && w.jobs[id].status == Status.Done
    ensures id in w.history && w.history[id].starts == [Prepare, Execute] && |w.history[id].approvals| == 1
    ensures w.jobs[id].gate.executionPlanHash == Some(w.history[id].approvals[0]) == w.jobs[id].gate.approvalHash
    ensures w.jobs[id].gate.approvedBy.Some?
  {
    hide WorkersOk, BuildPrPlan, CanonicalJson, Digest;
    ReachableInv(w);
    assert JobOk(w.jobs[id], w.history[id]);
  }

  // ---- end-to-end approval binding ---------------------------------------

  // What must hold when a worker starts to open a pull request: of the stored job and its history,
  // for the job the worker holds, the plan and the workspace it was verified in.
  ghost predicate Bound(stored: Job, h: History, job: Job, plan: ExecutionPlan, seen: Workspace)
  {
    && stored.request == job.request && stored.gate == job.gate && stored.request.command == "pr"
       // Built once, by the gate step that stored it, from this job's request and the stored diff.
    && |h.gates| == 1 && h.gates[0].plan == plan && stored.gate.diff.Some?
    && BuildPrPlan(h.gates[0].auth, stored.request.args, stored.gate.diff.value, h.gates[0].root) == Ok(plan)
    && stored.gate.executionPlan == Some(CanonicalJson(plan)) && stored.gate.executionPlanHash == Some(Digest(plan))
       // Approved exactly once, for the digest of this plan, which hashes the request and the diff.
    && h.approvals == [Digest(plan)] && stored.gate.approvalHash == Some(Digest(plan)) && stored.gate.approvedBy.Some?
    && HashesRequest(plan, stored.request.args, stored.gate.diff.value)
       // The workspace last looked at held exactly this diff.
    && Unchanged(seen, plan, stored.gate.diff.value)
       // Prepared once before, started once since.
    && h.starts == [Prepare, Execute]
  }

  ghost predicate BoundTo(w: World, p: Worker)
    requires p.Authorized? || HasToken(p)
  {
    p.job.id in w.jobs && p.job.id in w.history && Bound(w.jobs[p.job.id], w.history[p.job.id], p.job, p.plan, p.seen)
  }

  lemma BuiltHashes(auth: Authority, args: string, diff: string, root: string, plan: ExecutionPlan)
    requires BuildPrPlan(auth, args, diff, root) == Ok(plan)
    ensures HashesRequest(plan, args, diff)
  {
    BuiltPlanIs(auth, args, diff, root);
  }

  lemma LocalBound(p: Worker, j: Job, h: History)
    requires JobOk(j, h) && (p.Authorized? || HasToken(p)) && HolderOk(p, j, h)
    ensures Bound(j, h, p.job, p.plan, p.seen)
    ensures !p.Opening? ==> h.prs == []
    ensures HasToken(p) ==> RequireApprovalBinding(p.job, p.plan).Ok?
  {
    hide BuildPrPlan, CanonicalJson, Digest, Unchanged, RequireApprovalBinding;
    BuiltHashes(h.gates[0].auth, j.request.args, j.gate.diff.value, h.gates[0].root, p.plan);
  }

  lemma HolderIsBound(w: World, i: nat)
    requires Inv(w) && (At(w, i).Authorized? || HasToken(At(w, i)))
    ensures BoundTo(w, At(w, i))
    ensures !At(w, i).Opening? ==> w.history[At(w, i).job.id].prs == []
    ensures HasToken(At(w, i)) ==> RequireApprovalBinding(At(w, i).job, At(w, i).plan).Ok?
  {
    hide Inv, JobOk, HolderOk, Bound, RequireApprovalBinding;
    Holder(w, i);
    var p := At(w, i);
    LocalBound(p, w.jobs[p.job.id], w.history[p.job.id]);
  }

  // In every interleaving, a pull request is started only for the plan one approver approved for
  // this job, it is the first for the job, and its executor started once before and once after.
  lemma ApprovalBinding(w: World, i: nat)
    requires Reachable(w) && At(w, i).Granted?
    ensures Enabled(w, OpenPr(i)) && BoundTo(w, At(w, i))
    ensures w.history[At(w, i).job.id].prs == []
  {
    hide Inv, Reachable, Bound, RequireApprovalBinding;
    ReachableInv(w);
    HolderIsBound(w, i);
  }

  // ---- three approval surfaces, one meaning ------------------------------

  // A job that waits has the plan hash an approver saw, and it is not empty.
  lemma WaitsWithHash(w: World, id: string)
    requires JobsOk(w) && Awaiting(w, id)
    ensures HasHash(w.jobs[id])
  {
    hide BuildPrPlan, CanonicalJson;
  }

  // After any look at the job, the unguarded update, the update guarded by the plan hash and the
  // server-side copy of the hash do the same, and each does nothing unless the job awaits approval.
  lemma SurfacesAgree(w: World, a: nat, approver: string, now: Time)
    requires Reachable(w) && a in w.approvers
    ensures Apply(w, ApproveSqlite(a, approver, now)) == Apply(w, ApproveDynamo(a, approver, now))
    ensures Enabled(w, ApproveWeb(w.approvers[a].id, approver, now)) <==> Awaiting(w, w.approvers[a].id)
    ensures Apply(w, ApproveDynamo(a, approver, now))
         == if Awaiting(w, w.approvers[a].id) then Apply(w, ApproveWeb(w.approvers[a].id, approver, now)) else w
  {
    hide Reachable, JobsOk, WorkersOk, OneHolder, ApprovedWorld, WorkerMay, WorkerStep;
    ReachableInv(w);
    if Awaiting(w, w.approvers[a].id) {
      WaitsWithHash(w, w.approvers[a].id);
    }
  }

  // What the web surface asks of the hash, that it exists, is what the others ask, that it is not empty.
  lemma AwaitingHasHash(w: World, id: string)
    requires Reachable(w) && Awaiting(w, id)
    ensures HasHash(w.jobs[id])
  {
    hide Reachable, JobsOk, WorkersOk, OneHolder, SightingsOk;
    ReachableInv(w);
    WaitsWithHash(w, id);
  }

  // ---- write credentials -------------------------------------------------

  predicate Holds(w: World, i: nat, token: string)
  {
    HasToken(At(w, i)) && At(w, i).token == token
  }

  ghost predicate LedgerOk(w: World)
  {
    var l := w.ledger;
    && (forall i, k, t :: Holds(w, i, t) && Holds(w, k, t) ==> i == k)
    && (forall i, t :: Holds(w, i, t) ==> t in l.issued && t !in l.revoked && t !in l.orphaned)
    && (forall t :: t in l.revoked ==> t in l.issued && l.revoked[t] == 1 && t !in l.orphaned)
    && (forall t :: t in l.orphaned ==> t in l.issued)
    && (forall t :: t in l.issued ==> t in l.revoked || t in l.orphaned || exists i :: Holds(w, i, t))
  }

  lemma IssueKeepsLedger(w: World, i: nat, token: string)
    requires LedgerOk(w) && Enabled(w, Issue(i, token))
    ensures LedgerOk(Apply(w, Issue(i, token)))
  {
    hide RequireApprovalBinding;
    var w' := Apply(w, Issue(i, token));
    assert forall k, t :: Holds(w', k, t) <==> if k == i then t == token else Holds(w, k, t);
    assert Holds(w', i, token);
  }

  lemma RevokeKeepsLedger(w: World, i: nat)
    requires LedgerOk(w) && Enabled(w, Revoke(i))
    ensures LedgerOk(Apply(w, Revoke(i)))
  {
    var w' := Apply(w, Revoke(i));
    assert Holds(w, i, At(w, i).token);
    assert forall k, t :: Holds(w', k, t) <==> k != i && Holds(w, k, t);
  }

  lemma StopKeepsLedger(w: World, i: nat)
    requires LedgerOk(w) && Enabled(w, Stop(i))
    ensures LedgerOk(Apply(w, Stop(i)))
  {
    var w' := Apply(w, Stop(i));
    assert HasToken(At(w, i)) ==> Holds(w, i, At(w, i).token);
    assert forall k, t :: Holds(w', k, t) <==> k != i && Holds(w, k, t);
  }

  lemma SameTokens(w: World, action: Action)
    requires Enabled(w, action) && !action.Issue? && !action.Revoke? && !action.Stop?
    ensures Apply(w, action).ledger == w.ledger
    ensures forall k, t :: Holds(Apply(w, action), k, t) <==> Holds(w, k, t)
  {
    hide Enabled, Apply, Holds;
    if ByWorker(action) {
      WorkersKeepTokens(w, action);
    } else {
      OthersKeepTokens(w, action);
    }
  }

  lemma WorkersKeepTokens(w: World, action: Action)
    requires Enabled(w, action) && ByWorker(action) && !action.Issue? && !action.Revoke? && !action.Stop?
    ensures Apply(w, action).ledger == w.ledger
    ensures forall k, t :: Holds(Apply(w, action), k, t) <==> Holds(w, k, t)
  {
    hide OtherMay, OtherStep, Verifies, VerifiedPlan, RequireApprovalBinding, BuildPrPlan, CanonicalJson, Digest;
  }

  lemma OthersKeepTokens(w: World, action: Action)
    requires Enabled(w, action) && !ByWorker(action)
    ensures Apply(w, action).ledger == w.ledger
    ensures forall k, t :: Holds(Apply(w, action), k, t) <==> Holds(w, k, t)
  {
    hide WorkerMay, WorkerStep;
  }

  lemma SameTokensKeepLedger(w: World, w': World)
    requires LedgerOk(w) && w'.ledger == w.ledger && forall k, t :: Holds(w', k, t) <==> Holds(w, k, t)
    ensures LedgerOk(w')
  {
  }

  lemma StepKeepsLedger(w: World, action: Action)
    requires LedgerOk(w) && Enabled(w, action)
    ensures LedgerOk(Apply(w, action))
  {
    hide LedgerOk, Enabled, Apply, Holds;
    match action
    case Issue(i, token) => IssueKeepsLedger(w, i, token);
    case Revoke(i) => RevokeKeepsLedger(w, i);
    case Stop(i) => StopKeepsLedger(w, i);
    case _ =>
      SameTokens(w, action);
      SameTokensKeepLedger(w, Apply(w, action));
  }

  lemma {:induction false} RunKeepsLedger(w: World, actions: seq<Action>)
    requires LedgerOk(w) && IsRun(w, actions)
    ensures LedgerOk(After(w, actions))
    decreases |actions|
  {
    hide LedgerOk, Enabled, Apply;
    if actions != [] {
      StepKeepsLedger(w, actions[0]);
      RunKeepsLedger(Apply(w, actions[0]), actions[1..]);
    }
  }

  lemma ReachableLedger(w: World)
    requires Reachable(w)
    ensures LedgerOk(w)
  {
    hide Enabled, Apply;
    var actions :| IsRun(EMPTY, actions) && After(EMPTY, actions) == w;
    RunKeepsLedger(EMPTY, actions);
  }

  // Every issued token is in one of three states: revoked once, left behind by a worker that
  // stopped, or in the hands of one worker.
  lemma CredentialBracket(w: World, token: string)
    requires Reachable(w) && token in w.ledger.issued
    ensures w.ledger.revoked[token] <= 1
    ensures (token in w.ledger.orphaned || exists i :: Holds(w, i, token)) <==> w.ledger.revoked[token] == 0
    ensures token in w.ledger.orphaned ==> forall i :: !Holds(w, i, token)
    ensures forall i, k :: Holds(w, i, token) && Holds(w, k, token) ==> i == k
  {
    ReachableLedger(w);
  }

  // A token is live only inside the execute step of an approved job whose plan was verified, and
  // the binding check passed for that plan.
  lemma TokenOnlyWhenApproved(w: World, i: nat, token: string)
    requires Reachable(w) && Holds(w, i, token)
    ensures BoundTo(w, At(w, i)) && RequireApprovalBinding(At(w, i).job, At(w, i).plan).Ok?
  {
    hide Inv, Reachable, Bound, RequireApprovalBinding;
    ReachableInv(w);
    HolderIsBound(w, i);
  }
}
