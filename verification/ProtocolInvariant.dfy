/** The invariant of the job protocol holds of every reachable world. */
module ProtocolInvariant {
  import opened Wrappers
  import opened Jobs
  import opened Plan
  import opened Credentials
  import opened Protocol

  // ---- one job changes, one worker moves ---------------------------------

  ghost predicate SameHash(j: Job, j': Job)
  {
    j.gate.executionPlanHash.Some? ==> j'.gate.executionPlanHash == j.gate.executionPlanHash
  }

  // Every worker still holding the job is content with its new state.
  ghost predicate HoldersAccept(w: World, id: string, j: Job, h: History, except: set<nat>)
  {
    forall k :: k in w.workers && k !in except && !w.workers[k].Idle? && w.workers[k].job.id == id ==> HolderOk(w.workers[k], j, h)
  }

  lemma FrameJob(w: World, id: string, j: Job, h: History)
    requires Inv(w) && j.id == id && JobOk(j, h) && HoldersAccept(w, id, j, h, {})
    requires id in w.jobs ==> SameHash(w.jobs[id], j)
    ensures Inv(PutJob(w, id, j, h))
  {
    hide JobOk, HolderOk;
  }

  lemma FrameWorker(w: World, i: nat, p: Worker)
    requires Inv(w)
    requires p.Idle? || (p.job.id in w.jobs && HolderOk(p, w.jobs[p.job.id], w.history[p.job.id])
                         && forall k :: k in w.workers && k != i && !w.workers[k].Idle? ==> w.workers[k].job.id != p.job.id)
    ensures Inv(PutWorker(w, i, p))
  {
    hide JobOk, HolderOk;
  }

  lemma FrameBoth(w: World, id: string, j: Job, h: History, i: nat, p: Worker)
    requires Inv(w) && j.id == id && JobOk(j, h)
    requires id in w.jobs ==> SameHash(w.jobs[id], j)
    requires forall k :: k in w.workers && k != i && !w.workers[k].Idle? ==> w.workers[k].job.id != id
    requires !p.Idle? ==> p.job.id == id && HolderOk(p, j, h)
    ensures Inv(PutWorker(PutJob(w, id, j, h), i, p))
  {
    hide JobOk, HolderOk;
  }

  // Only a job that is running, or was reclaimed while it ran, has a holder.
  lemma NoHolder(w: World, id: string)
    requires Inv(w) && id in w.jobs && w.jobs[id].status != Running && w.jobs[id].status != Failed
    ensures forall k :: k in w.workers && !w.workers[k].Idle? ==> w.workers[k].job.id != id
  {
    hide JobOk;
  }

  lemma Holder(w: World, i: nat)
    requires Inv(w) && !At(w, i).Idle?
    ensures var id := At(w, i).job.id;
            && id in w.jobs && id in w.history && w.jobs[id].id == id && JobOk(w.jobs[id], w.history[id])
            && HolderOk(At(w, i), w.jobs[id], w.history[id])
            && forall k :: k in w.workers && k != i && !w.workers[k].Idle? ==> w.workers[k].job.id != id
  {
    hide JobOk, HolderOk;
  }

  // ---- what each step does to one job ------------------------------------

  lemma LocalClaim(j: Job, h: History, now: Time)
    requires JobOk(j, h) && Claimable(j.status)
    ensures var j' := Claimed(j, now);
            var h' := h.(claims := h.claims + [PhaseOf(j')]);
            JobOk(j', h') && HolderOk(Holding(j'), j', h')
  {
    hide BuildPrPlan, Digest, CanonicalJson, Unchanged, RequireApprovalBinding;
    assert [] + [Prepare] == [Prepare] && [Prepare] + [Execute] == [Prepare, Execute];
  }

  lemma LocalStart(p: Worker, j: Job, h: History)
    requires JobOk(j, h) && p.Ready? && HolderOk(p, j, h)
    ensures var h' := h.(starts := h.starts + [PhaseOf(p.job)]);
            JobOk(j, h') && HolderOk(Executing(p.job), j, h')
  {
    hide BuildPrPlan, Digest, CanonicalJson, Unchanged, RequireApprovalBinding;
    assert [] + [Prepare] == [Prepare] && [Prepare] + [Execute] == [Prepare, Execute];
  }

  // The stored hash is the digest of the gated plan, so what verifies is that plan, in a workspace
  // that still is what it was built for.
  lemma LocalReverify(p: Worker, j: Job, h: History, auth: Authority, ws: Workspace)
    requires JobOk(j, h) && p.Executing? && HolderOk(p, j, h)
    requires ApprovedPr(p.job) && Verifies(p.job, auth, ws)
    ensures HolderOk(Authorized(p.job, VerifiedPlan(p.job, auth, ws), ws), j, h)
  {
    hide BuildPrPlan, VerifyWorkspace, VerifyPlanText, Unchanged, CanonicalJson, Digest;
    var g := h.gates[0];
    var args, diff := p.job.request.args, p.job.gate.diff.value;
    assert BuildPrPlan(g.auth, args, diff, g.root) == Ok(g.plan);
    VerifyForcesTheBuild(g.auth, args, diff, g.root, auth, args, diff, p.job.gate.executionPlan.value, ws);
  }

  lemma LocalOpen(p: Worker, j: Job, h: History)
    requires JobOk(j, h) && p.Granted? && HolderOk(p, j, h)
    ensures var h' := h.(prs := h.prs + [p.plan]);
            JobOk(j, h') && HolderOk(Opening(p.job, p.plan, p.seen, p.token), j, h')
  {
    hide BuildPrPlan, Digest, CanonicalJson, Unchanged, RequireApprovalBinding;
  }

  lemma LocalPark(p: Worker, j: Job, h: History, auth: Authority, root: string, now: Time)
    requires JobOk(j, h) && CanPark(p, auth, root) && HolderOk(p, j, h) && j.status == Running
    ensures var plan := BuildPrPlan(auth, p.job.request.args, p.diff.value, root).value;
            var j' := Parked(j, p.diff.value, Some(CanonicalJson(plan)), Some(Digest(plan)), now);
            JobOk(j', h.(gates := h.gates + [Gated(plan, auth, root)])) && SameHash(j, j')
  {
    hide BuildPrPlan;
    assert h.gates == [] && h.claims == [Prepare] == h.starts;
  }

  lemma LocalApprove(j: Job, h: History, approver: string, now: Time)
    requires JobOk(j, h) && j.status == AwaitingApproval
    ensures j.gate.executionPlanHash.Some?
    ensures var hash := j.gate.executionPlanHash.value;
            JobOk(ApprovedJob(j, approver, hash, now), h.(approvals := h.approvals + [hash]))
  {
    hide BuildPrPlan;
  }

  lemma LocalReject(j: Job, h: History, approver: string, now: Time)
    requires JobOk(j, h) && j.status == AwaitingApproval
    ensures JobOk(RejectedJob(j, approver, now), h) && JobOk(WebRejected(j, approver, now), h)
  {
    hide BuildPrPlan;
  }

  lemma LocalEnd(j: Job, h: History, o: Outcome, now: Time)
    requires JobOk(j, h) && j.status == Running && Terminal(o.status) && o.status != Rejected
    requires o.status == Done && j.request.command == "pr" ==> h.approvals != [] && h.starts == [Prepare, Execute]
    ensures JobOk(Completed(j, o, now), h) && JobOk(Reclaimed(j, now), h)
  {
    hide BuildPrPlan;
  }

  lemma LocalReclaim(p: Worker, j: Job, h: History, now: Time)
    requires !p.Idle? && HolderOk(p, j, h) && j.status == Running
    ensures HolderOk(p, Reclaimed(j, now), h)
  {
    hide Unchanged, RequireApprovalBinding;
  }

  // ---- every step keeps the invariant ------------------------------------

  lemma KeepClaim(w: World, i: nat, id: string, now: Time)
    requires Inv(w) && Enabled(w, Action.Claim(i, id, now))
    ensures Inv(Apply(w, Action.Claim(i, id, now)))
  {
    hide JobOk, HolderOk;
    NoHolder(w, id);
    LocalClaim(w.jobs[id], w.history[id], now);
    var j := Claimed(w.jobs[id], now);
    var h := w.history[id].(claims := w.history[id].claims + [PhaseOf(j)]);
    FrameBoth(w, id, j, h, i, Holding(j));
  }

  lemma KeepVerify(w: World, i: nat)
    requires Inv(w) && At(w, i).Holding?
    ensures Inv(PutWorker(w, i, Ready(At(w, i).job)))
  {
    Holder(w, i);
    LocalReady(At(w, i), w.jobs[At(w, i).job.id], w.history[At(w, i).job.id]);
    hide JobOk, HolderOk;
    FrameWorker(w, i, Ready(At(w, i).job));
  }

  lemma LocalReady(p: Worker, j: Job, h: History)
    requires p.Holding? && HolderOk(p, j, h)
    ensures HolderOk(Ready(p.job), j, h)
  {
  }

  lemma KeepStart(w: World, i: nat)
    requires Inv(w) && Enabled(w, Start(i))
    ensures Inv(Apply(w, Start(i)))
  {
    hide JobOk, HolderOk;
    Holder(w, i);
    var p := At(w, i);
    var id := p.job.id;
    var h := w.history[id].(starts := w.history[id].starts + [PhaseOf(p.job)]);
    LocalStart(p, w.jobs[id], w.history[id]);
    FrameBoth(w, id, w.jobs[id], h, i, Executing(p.job));
    assert w.jobs[id := w.jobs[id]] == w.jobs;
  }

  lemma KeepReverify(w: World, i: nat, auth: Authority, ws: Workspace)
    requires Inv(w) && Enabled(w, Reverify(i, auth, ws))
    ensures Inv(Apply(w, Reverify(i, auth, ws)))
  {
    hide JobOk, HolderOk, Verifies;
    Holder(w, i);
    var p := At(w, i);
    LocalReverify(p, w.jobs[p.job.id], w.history[p.job.id], auth, ws);
    FrameWorker(w, i, Authorized(p.job, VerifiedPlan(p.job, auth, ws), ws));
  }

  // Steps of a worker after the start that change neither the table nor the history.
  lemma LocalAdvance(p: Worker, p': Worker, j: Job, h: History)
    requires !p.Idle? && !p'.Idle? && HolderOk(p, j, h) && p.job == p'.job && Started(p)
    requires p'.Finished? || (p.Authorized? && p'.Granted? && p'.plan == p.plan && p'.seen == p.seen)
    requires p'.Granted? ==> RequireApprovalBinding(p.job, p.plan).Ok?
    ensures HolderOk(p', j, h)
  {
    hide Unchanged, RequireApprovalBinding;
  }

  lemma KeepAdvance(w: World, i: nat, p': Worker)
    requires Inv(w) && Started(At(w, i)) && !p'.Idle? && p'.job == At(w, i).job
    requires var p := At(w, i); p'.Finished? || (p.Authorized? && p'.Granted? && p'.plan == p.plan && p'.seen == p.seen
                                  && RequireApprovalBinding(p.job, p.plan).Ok?)
    ensures Inv(PutWorker(w, i, p'))
  {
    hide JobOk, HolderOk, RequireApprovalBinding;
    Holder(w, i);
    LocalAdvance(At(w, i), p', w.jobs[p'.job.id], w.history[p'.job.id]);
    FrameWorker(w, i, p');
  }

  // The invariant does not speak of the ledger.
  lemma LedgerAside(w: World, ledger: Ledger)
    requires Inv(w)
    ensures Inv(w.(ledger := ledger))
  {
    hide JobOk, HolderOk;
  }

  lemma KeepOpenPr(w: World, i: nat)
    requires Inv(w) && Enabled(w, OpenPr(i))
    ensures Inv(Apply(w, OpenPr(i)))
  {
    hide JobOk, HolderOk;
    Holder(w, i);
    var p := At(w, i);
    var id := p.job.id;
    var h := w.history[id].(prs := w.history[id].prs + [p.plan]);
    LocalOpen(p, w.jobs[id], w.history[id]);
    FrameBoth(w, id, w.jobs[id], h, i, Opening(p.job, p.plan, p.seen, p.token));
    assert w.jobs[id := w.jobs[id]] == w.jobs;
  }

  lemma KeepPark(w: World, i: nat, auth: Authority, root: string, now: Time)
    requires Inv(w) && Enabled(w, Action.Park(i, auth, root, now))
    ensures Inv(Apply(w, Action.Park(i, auth, root, now)))
  {
    hide JobOk, HolderOk, BuildPrPlan;
    Holder(w, i);
    var p := At(w, i);
    var id := p.job.id;
    if w.jobs[id].status == Running {
      LocalPark(p, w.jobs[id], w.history[id], auth, root, now);
      KeepParked(w, i, auth, root, now);
    } else {
      FrameWorker(w, i, Worker.Idle);
    }
  }

  lemma KeepParked(w: World, i: nat, auth: Authority, root: string, now: Time)
    requires Inv(w) && CanPark(At(w, i), auth, root) && At(w, i).job.id in w.jobs
    requires var p := At(w, i);
             var plan := BuildPrPlan(auth, p.job.request.args, p.diff.value, root).value;
             var j := w.jobs[p.job.id];
             var j' := Parked(j, p.diff.value, Some(CanonicalJson(plan)), Some(Digest(plan)), now);
             && SameHash(j, j')
             && JobOk(j', HistoryOf(w, p.job.id).(gates := HistoryOf(w, p.job.id).gates + [Gated(plan, auth, root)]))
    ensures Inv(PutWorker(ParkedJob(w, At(w, i), auth, root, now), i, Worker.Idle))
  {
    hide JobOk, HolderOk, BuildPrPlan, CanonicalJson, Digest;
    Holder(w, i);
    var p := At(w, i);
    var id := p.job.id;
    var plan := BuildPrPlan(auth, p.job.request.args, p.diff.value, root).value;
    FrameBoth(w, id, Parked(w.jobs[id], p.diff.value, Some(CanonicalJson(plan)), Some(Digest(plan)), now),
              w.history[id].(gates := w.history[id].gates + [Gated(plan, auth, root)]), i, Worker.Idle);
  }

  // A pull request job that completes was approved, and was started once for each phase.
  lemma LocalDone(p: Worker, j: Job, h: History)
    requires CanComplete(p) && JobOk(j, h) && HolderOk(p, j, h) && j.status == Running && j.request.command == "pr"
    ensures h.approvals != [] && h.starts == [Prepare, Execute]
  {
    hide GateOk, Unchanged, RequireApprovalBinding;
  }

  lemma KeepSettle(w: World, i: nat, o: Outcome, now: Time)
    requires Inv(w) && !At(w, i).Idle? && (o.status == Failed || (o.status == Done && CanComplete(At(w, i))))
    ensures Inv(Settle(w, i, (j: Job) => Completed(j, o, now), HistoryOf(w, At(w, i).job.id)))
  {
    hide JobOk, HolderOk;
    Holder(w, i);
    var id := At(w, i).job.id;
    if w.jobs[id].status == Running {
      if o.status == Done && w.jobs[id].request.command == "pr" {
        LocalDone(At(w, i), w.jobs[id], w.history[id]);
      }
      LocalEnd(w.jobs[id], w.history[id], o, now);
      FrameBoth(w, id, Completed(w.jobs[id], o, now), w.history[id], i, Worker.Idle);
    } else {
      FrameWorker(w, i, Worker.Idle);
    }
  }

  lemma KeepReclaim(w: World, id: string, now: Time)
    requires Inv(w) && Enabled(w, Action.Reclaim(id, now))
    ensures Inv(Apply(w, Action.Reclaim(id, now)))
  {
    hide JobOk, HolderOk;
    LocalEnd(w.jobs[id], w.history[id], Outcome(Failed, FailedReport("")), now);
    forall k | k in w.workers && !w.workers[k].Idle? && w.workers[k].job.id == id
      ensures HolderOk(w.workers[k], Reclaimed(w.jobs[id], now), w.history[id])
    {
      LocalReclaim(w.workers[k], w.jobs[id], w.history[id], now);
    }
    FrameJob(w, id, Reclaimed(w.jobs[id], now), w.history[id]);
  }

  lemma KeepApprove(w: World, id: string, approver: string, hash: string, now: Time)
    requires Inv(w) && Awaiting(w, id) && w.jobs[id].gate.executionPlanHash == Some(hash)
    ensures Inv(ApprovedWorld(w, id, approver, hash, now))
  {
    hide JobOk, HolderOk;
    NoHolder(w, id);
    LocalApprove(w.jobs[id], w.history[id], approver, now);
    FrameJob(w, id, ApprovedJob(w.jobs[id], approver, hash, now),
             w.history[id].(approvals := w.history[id].approvals + [hash]));
  }

  lemma KeepReject(w: World, id: string, approver: string, now: Time)
    requires Inv(w) && Awaiting(w, id)
    ensures Inv(PutJob(w, id, RejectedJob(w.jobs[id], approver, now), HistoryOf(w, id)))
    ensures Inv(PutJob(w, id, WebRejected(w.jobs[id], approver, now), HistoryOf(w, id)))
  {
    hide JobOk, HolderOk;
    NoHolder(w, id);
    LocalReject(w.jobs[id], w.history[id], approver, now);
    FrameJob(w, id, RejectedJob(w.jobs[id], approver, now), w.history[id]);
    FrameJob(w, id, WebRejected(w.jobs[id], approver, now), w.history[id]);
  }

  lemma KeepEnqueue(w: World, id: string, request: Request, now: Time)
    requires Inv(w) && id !in w.jobs
    ensures Inv(PutJob(w, id, NewJob(id, request, now), NO_HISTORY))
  {
    assert JobOk(NewJob(id, request, now), NO_HISTORY);
    hide JobOk, HolderOk;
    FrameJob(w, id, NewJob(id, request, now), NO_HISTORY);
  }

  lemma KeepLook(w: World, a: nat, id: string)
    requires Inv(w) && Enabled(w, Look(a, id))
    ensures Inv(Apply(w, Look(a, id)))
  {
    hide JobOk, HolderOk;
  }

  lemma WorkerStepKeepsInv(w: World, action: Action)
    requires Inv(w) && Enabled(w, action) && ByWorker(action)
    ensures Inv(Apply(w, action))
  {
    hide Inv, Verifies, CanPark, ParkedJob, RequireApprovalBinding, OtherMay, OtherStep;
    match action
    case Claim(i, id, now) => KeepClaim(w, i, id, now);
    case Verify(i, _, _) => KeepVerify(w, i);
    case Skip(i) => KeepVerify(w, i);
    case Start(i) => KeepStart(w, i);
    case Reverify(i, auth, ws) => KeepReverify(w, i, auth, ws);
    case Issue(i, token) =>
      LedgerAside(w, w.ledger.(issued := w.ledger.issued + {token}));
      KeepAdvance(w.(ledger := w.ledger.(issued := w.ledger.issued + {token})), i,
                  Granted(At(w, i).job, At(w, i).plan, At(w, i).seen, token));
    case OpenPr(i) => KeepOpenPr(w, i);
    case Revoke(i) =>
      var ledger := w.ledger.(revoked := w.ledger.revoked + multiset{At(w, i).token});
      LedgerAside(w, ledger);
      KeepAdvance(w.(ledger := ledger), i, Finished(At(w, i).job, None));
    case Return(i, diff) => KeepAdvance(w, i, Finished(At(w, i).job, diff));
    case Park(i, auth, root, now) => KeepPark(w, i, auth, root, now);
    case Complete(i, report, now) => KeepSettle(w, i, Outcome(Done, report), now);
    case Fail(i, error, now) => KeepSettle(w, i, Outcome(Failed, FailedReport(error)), now);
    case Stop(i) =>
      var ledger := if HasToken(At(w, i)) then w.ledger.(orphaned := w.ledger.orphaned + {At(w, i).token}) else w.ledger;
      LedgerAside(w, ledger);
      FrameWorker(w.(ledger := ledger), i, Worker.Idle);
  }

  // What an approver saw is still the plan hash of the job.
  lemma StillSeen(w: World, a: nat)
    requires SightingsOk(w) && a in w.approvers
    ensures w.approvers[a].id in w.jobs && w.jobs[w.approvers[a].id].gate.executionPlanHash == Some(w.approvers[a].hash)
  {
  }

  lemma OtherStepKeepsInv(w: World, action: Action)
    requires Inv(w) && Enabled(w, action) && !ByWorker(action)
    ensures Inv(Apply(w, action))
  {
    hide JobsOk, WorkersOk, OneHolder, SightingsOk, WorkerMay, WorkerStep, ApprovedWorld, PutJob, NewJob, Reclaimed, RejectedJob, WebRejected;
    match action
    case Enqueue(id, request, now) => KeepEnqueue(w, id, request, now);
    case Reclaim(id, now) => KeepReclaim(w, id, now);
    case Look(a, id) => KeepLook(w, a, id);
    case ApproveSqlite(a, approver, now) =>
      StillSeen(w, a);
      if Awaiting(w, w.approvers[a].id) {
        KeepApprove(w, w.approvers[a].id, approver, w.approvers[a].hash, now);
      }
    case ApproveDynamo(a, approver, now) =>
      StillSeen(w, a);
      if Awaiting(w, w.approvers[a].id) {
        KeepApprove(w, w.approvers[a].id, approver, w.approvers[a].hash, now);
      }
    case ApproveWeb(id, approver, now) => KeepApprove(w, id, approver, w.jobs[id].gate.executionPlanHash.value, now);
    case Reject(id, approver, now) => KeepReject(w, id, approver, now);
    case RejectWeb(id, approver, now) => KeepReject(w, id, approver, now);
  }

  // One step of any process.
  lemma StepKeepsInv(w: World, action: Action)
    requires Inv(w) && Enabled(w, action)
    ensures Inv(Apply(w, action))
  {
    hide Inv, Enabled, Apply;
    if ByWorker(action) {
      WorkerStepKeepsInv(w, action);
    } else {
      OtherStepKeepsInv(w, action);
    }
  }

  // Every run.
  lemma {:induction false} RunKeepsInv(w: World, actions: seq<Action>)
    requires Inv(w) && IsRun(w, actions)
    ensures Inv(After(w, actions))
    decreases |actions|
  {
    hide Inv;
    if actions != [] {
      StepKeepsInv(w, actions[0]);
      RunKeepsInv(Apply(w, actions[0]), actions[1..]);
    }
  }

  lemma ReachableInv(w: World)
    requires Reachable(w)
    ensures Inv(w)
  {
    var actions :| IsRun(EMPTY, actions) && After(EMPTY, actions) == w;
    RunKeepsInv(EMPTY, actions);
  }
}
