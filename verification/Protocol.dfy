/**
 The approval-gated job protocol: producers, workers, approvers and reclaimers interleave one
 store call at a time on one table. Reads that precede a conditional write are steps of their
 own, so a worker or an approver may act on what it saw earlier; any process may stop anywhere.
 */
module Protocol {
  import opened Wrappers
  import opened Jobs
  import opened JobStore
  import opened Plan
  import opened Credentials

  // ---- what is remembered of each job ------------------------------------

  // The gate step of a worker: the plan it stored and what it built the plan from.
  datatype Gated = Gated(plan: ExecutionPlan, auth: Authority, root: string)

  // History of one job: the claims and executor starts by phase, the plans stored at the gate,
  // the hash stored by each approval, and the plans for which a pull request was started.
  datatype History = History(
    claims: seq<Phase>,
    starts: seq<Phase>,
    gates: seq<Gated>,
    approvals: seq<string>,
    prs: seq<ExecutionPlan>)

  const NO_HISTORY := History([], [], [], [], [])

  // ---- workers -----------------------------------------------------------

  // Where a worker is, with the job as it was when claimed and, once verified, the plan and the
  // workspace it was verified against.
  datatype Worker =
    | Idle
    | Holding(job: Job)
    | Ready(job: Job)
    | Executing(job: Job)
    | Authorized(job: Job, plan: ExecutionPlan, seen: Workspace)
    | Granted(job: Job, plan: ExecutionPlan, seen: Workspace, token: string)
    | Opening(job: Job, plan: ExecutionPlan, seen: Workspace, token: string)
    | Finished(job: Job, diff: Option<string>)

  predicate HasToken(p: Worker)
  {
    p.Granted? || p.Opening?
  }

  // Write credentials: what was issued, how often each was revoked, and those whose holder stopped.
  datatype Ledger = Ledger(issued: set<string>, revoked: multiset<string>, orphaned: set<string>)

  // What an approver read before deciding.
  datatype Sighting = Sighting(id: string, hash: string)

  datatype World = World(
    jobs: Table,
    history: map<string, History>,
    workers: map<nat, Worker>,
    approvers: map<nat, Sighting>,
    ledger: Ledger)

  const EMPTY := World(map[], map[], map[], map[], Ledger({}, multiset{}, {}))

  function At(w: World, i: nat): Worker
  {
    if i in w.workers then w.workers[i] else Worker.Idle
  }

  // ---- steps -------------------------------------------------------------

  datatype Action =
    | Enqueue(id: string, request: Request, now: Time)
    | Claim(i: nat, id: string, now: Time)
    | Verify(i: nat, auth: Authority, ws: Workspace)
    | Skip(i: nat)
    | Start(i: nat)
    | Reverify(i: nat, auth: Authority, ws: Workspace)
    | Issue(i: nat, token: string)
    | OpenPr(i: nat)
    | Revoke(i: nat)
    | Return(i: nat, diff: Option<string>)
    | Park(i: nat, auth: Authority, root: string, now: Time)
    | Complete(i: nat, report: Report, now: Time)
    | Fail(i: nat, error: string, now: Time)
    | Stop(i: nat)
    | Reclaim(id: string, now: Time)
    | Look(a: nat, id: string)
    | ApproveSqlite(a: nat, approver: string, now: Time)
    | ApproveDynamo(a: nat, approver: string, now: Time)
    | ApproveWeb(id: string, approver: string, now: Time)
    | Reject(id: string, approver: string, now: Time)
    | RejectWeb(id: string, approver: string, now: Time)

  ghost predicate Verifies(j: Job, auth: Authority, ws: Workspace)
  {
    VerifyApproved(j, auth, ws).Ok?
  }

  ghost function VerifiedPlan(j: Job, auth: Authority, ws: Workspace): ExecutionPlan
    requires Verifies(j, auth, ws)
  {
    VerifyApproved(j, auth, ws).value
  }

  ghost predicate CanPark(p: Worker, auth: Authority, root: string)
  {
    && p.Finished? && p.diff.Some? && PhaseOf(p.job) == Prepare && p.job.request.command == "pr"
    && BuildPrPlan(auth, p.job.request.args, p.diff.value, root).Ok?
  }

  // A pull request job in the prepare phase never completes: it parks or fails.
  predicate CanComplete(p: Worker)
  {
    p.Finished? && (PhaseOf(p.job) == Prepare ==> p.diff.None? && p.job.request.command != "pr")
  }

  // Steps of a worker; the others are those of producers, approvers and the reclaimer.
  predicate ByWorker(action: Action)
  {
    && !action.Enqueue? && !action.Reclaim? && !action.Look? && !action.ApproveSqlite? && !action.ApproveDynamo?
    && !action.ApproveWeb? && !action.Reject? && !action.RejectWeb?
  }

  ghost predicate Enabled(w: World, action: Action)
  {
    if ByWorker(action) then WorkerMay(w, action) else OtherMay(w, action)
  }

  ghost predicate WorkerMay(w: World, action: Action)
    requires ByWorker(action)
  {
    match action
    case Claim(i, id, _) => At(w, i).Idle? && id in w.jobs && Claimable(w.jobs[id].status)
    case Verify(i, auth, ws) => At(w, i).Holding? && ApprovedPr(At(w, i).job) && Verifies(At(w, i).job, auth, ws)
    case Skip(i) => At(w, i).Holding? && !ApprovedPr(At(w, i).job)
    case Start(i) => At(w, i).Ready?
    case Reverify(i, auth, ws) => At(w, i).Executing? && ApprovedPr(At(w, i).job) && Verifies(At(w, i).job, auth, ws)
    case Issue(i, token) =>
      && At(w, i).Authorized? && RequireApprovalBinding(At(w, i).job, At(w, i).plan).Ok?
      && token != "" && token !in w.ledger.issued
    case OpenPr(i) => At(w, i).Granted?
    case Revoke(i) => HasToken(At(w, i))
    case Return(i, diff) =>
      (At(w, i).Executing? && !ApprovedPr(At(w, i).job)) || (At(w, i).Authorized? && diff == None)
    case Park(i, auth, root, _) => CanPark(At(w, i), auth, root)
    case Complete(i, _, _) => CanComplete(At(w, i))
    case Fail(i, _, _) => !At(w, i).Idle? && !HasToken(At(w, i))
    case Stop(i) => !At(w, i).Idle?
  }

  predicate OtherMay(w: World, action: Action)
    requires !ByWorker(action)
  {
    match action
    case Enqueue(id, _, _) => id !in w.jobs
    case Reclaim(id, _) => id in w.jobs && w.jobs[id].status == Running
    case Look(a, id) => id in w.jobs && HasHash(w.jobs[id])
    case ApproveSqlite(a, _, _) => a in w.approvers
    case ApproveDynamo(a, _, _) => a in w.approvers
    case ApproveWeb(id, _, _) => Awaiting(w, id) && w.jobs[id].gate.executionPlanHash.Some?
    case Reject(id, _, _) => Awaiting(w, id)
    case RejectWeb(id, _, _) => Awaiting(w, id) && w.jobs[id].gate.executionPlanHash.Some?
  }

  function PutWorker(w: World, i: nat, p: Worker): World
  {
    w.(workers := w.workers[i := p])
  }

  function PutJob(w: World, id: string, j: Job, h: History): World
  {
    w.(jobs := w.jobs[id := j], history := w.history[id := h])
  }

  function HistoryOf(w: World, id: string): History
  {
    if id in w.history then w.history[id] else NO_HISTORY
  }

  // The conditional write on RUNNING, then the worker is done with the job.
  function Settle(w: World, i: nat, next: Job -> Job, h: History): World
    requires !At(w, i).Idle?
  {
    var id := At(w, i).job.id;
    var settled := if id in w.jobs && w.jobs[id].status == Running then PutJob(w, id, next(w.jobs[id]), h) else w;
    PutWorker(settled, i, Worker.Idle)
  }

  ghost function ParkedJob(w: World, p: Worker, auth: Authority, root: string, now: Time): World
    requires CanPark(p, auth, root) && p.job.id in w.jobs
  {
    var plan := BuildPrPlan(auth, p.job.request.args, p.diff.value, root).value;
    var h := HistoryOf(w, p.job.id);
    PutJob(w, p.job.id, Parked(w.jobs[p.job.id], p.diff.value, Some(CanonicalJson(plan)), Some(Digest(plan)), now),
           h.(gates := h.gates + [Gated(plan, auth, root)]))
  }

  // A successful approval that stores the given hash.
  function ApprovedWorld(w: World, id: string, approver: string, hash: string, now: Time): World
    requires id in w.jobs
  {
    var h := HistoryOf(w, id);
    PutJob(w, id, ApprovedJob(w.jobs[id], approver, hash, now), h.(approvals := h.approvals + [hash]))
  }

  // `approval_hash = execution_plan_hash`, also on rejection.
  function WebRejected(j: Job, approver: string, now: Time): Job
  {
    var rejected := RejectedJob(j, approver, now);
    rejected.(gate := rejected.gate.(approvalHash := j.gate.executionPlanHash))
  }

  predicate Awaiting(w: World, id: string)
  {
    id in w.jobs && w.jobs[id].status == AwaitingApproval
  }

  ghost function Apply(w: World, action: Action): World
    requires Enabled(w, action)
  {
    if ByWorker(action) then WorkerStep(w, action) else OtherStep(w, action)
  }

  ghost function WorkerStep(w: World, action: Action): World
    requires ByWorker(action) && WorkerMay(w, action)
  {
    match action
    case Claim(i, id, now) =>
      var h := HistoryOf(w, id);
      var j := Claimed(w.jobs[id], now);
      PutWorker(PutJob(w, id, j, h.(claims := h.claims + [PhaseOf(j)])), i, Holding(j))
    case Verify(i, _, _) => PutWorker(w, i, Ready(At(w, i).job))
    case Skip(i) => PutWorker(w, i, Ready(At(w, i).job))
    case Start(i) =>
      var j := At(w, i).job;
      var h := HistoryOf(w, j.id);
      PutWorker(w.(history := w.history[j.id := h.(starts := h.starts + [PhaseOf(j)])]), i, Executing(j))
    case Reverify(i, auth, ws) =>
      var j := At(w, i).job;
      PutWorker(w, i, Authorized(j, VerifiedPlan(j, auth, ws), ws))
    case Issue(i, token) =>
      var p := At(w, i);
      PutWorker(w.(ledger := w.ledger.(issued := w.ledger.issued + {token})), i, Granted(p.job, p.plan, p.seen, token))
    case OpenPr(i) =>
      var p := At(w, i);
      var h := HistoryOf(w, p.job.id);
      PutWorker(w.(history := w.history[p.job.id := h.(prs := h.prs + [p.plan])]), i,
                Opening(p.job, p.plan, p.seen, p.token))
    case Revoke(i) =>
      var p := At(w, i);
      PutWorker(w.(ledger := w.ledger.(revoked := w.ledger.revoked + multiset{p.token})), i, Finished(p.job, None))
    case Return(i, diff) => PutWorker(w, i, Finished(At(w, i).job, diff))
    case Park(i, auth, root, now) =>
      var p := At(w, i);
      PutWorker(if p.job.id in w.jobs && w.jobs[p.job.id].status == Running then ParkedJob(w, p, auth, root, now) else w,
                i, Worker.Idle)
    case Complete(i, report, now) =>
      Settle(w, i, (j: Job) => Completed(j, Outcome(Done, report), now), HistoryOf(w, At(w, i).job.id))
    case Fail(i, error, now) =>
      Settle(w, i, (j: Job) => Completed(j, Outcome(Failed, FailedReport(error)), now), HistoryOf(w, At(w, i).job.id))
    case Stop(i) =>
      var p := At(w, i);
      PutWorker(if HasToken(p) then w.(ledger := w.ledger.(orphaned := w.ledger.orphaned + {p.token})) else w, i, Worker.Idle)
  }

  function OtherStep(w: World, action: Action): World
    requires !ByWorker(action) && OtherMay(w, action)
  {
    match action
    case Enqueue(id, request, now) => PutJob(w, id, NewJob(id, request, now), NO_HISTORY)
    case Reclaim(id, now) => PutJob(w, id, Reclaimed(w.jobs[id], now), HistoryOf(w, id))
    case Look(a, id) => w.(approvers := w.approvers[a := Sighting(id, w.jobs[id].gate.executionPlanHash.value)])
    case ApproveSqlite(a, approver, now) =>
      var s := w.approvers[a];
      if Awaiting(w, s.id) then ApprovedWorld(w, s.id, approver, s.hash, now) else w
    case ApproveDynamo(a, approver, now) =>
      var s := w.approvers[a];
      if Awaiting(w, s.id) && w.jobs[s.id].gate.executionPlanHash == Some(s.hash) then ApprovedWorld(w, s.id, approver, s.hash, now)
      else w
    case ApproveWeb(id, approver, now) => ApprovedWorld(w, id, approver, w.jobs[id].gate.executionPlanHash.value, now)
    case Reject(id, approver, now) => PutJob(w, id, RejectedJob(w.jobs[id], approver, now), HistoryOf(w, id))
    case RejectWeb(id, approver, now) => PutJob(w, id, WebRejected(w.jobs[id], approver, now), HistoryOf(w, id))
  }

  // ---- runs --------------------------------------------------------------

  ghost predicate IsRun(w: World, actions: seq<Action>)
    decreases |actions|
  {
    actions == [] || (Enabled(w, actions[0]) && IsRun(Apply(w, actions[0]), actions[1..]))
  }

  ghost function After(w: World, actions: seq<Action>): World
    requires IsRun(w, actions)
    decreases |actions|
  {
    if actions == [] then w else After(Apply(w, actions[0]), actions[1..])
  }

  ghost predicate Reachable(w: World)
  {
    exists actions :: IsRun(EMPTY, actions) && After(EMPTY, actions) == w
  }

  // ---- the invariant -----------------------------------------------------

  // Along PENDING > RUNNING > AWAITING > APPROVED > RUNNING > terminal.
  function Rank(j: Job): nat
  {
    match j.status
    case Pending => 5
    case Running => if PhaseOf(j) == Prepare then 4 else 1
    case AwaitingApproval => 3
    case Approved => 2
    case _ => 0
  }

  const NO_GATE := Gate(None, None, None, None, None, None)

  predicate HistoryOk(h: History)
  {
    && h.claims <= [Prepare, Execute] && h.starts <= h.claims
    && |h.gates| <= 1 && |h.approvals| <= |h.gates| && |h.prs| <= |h.approvals|
    && (h.prs != [] ==> h.starts == [Prepare, Execute])
  }

  // The stored gate fields are the plan of the one gate step, and an approval stored its digest.
  ghost predicate GateOk(j: Job, h: History)
  {
    if h.gates == [] then j.gate == NO_GATE && h.approvals == []
    else
      var g := h.gates[0];
      && j.request.command == "pr" && j.gate.diff.Some?
      && BuildPrPlan(g.auth, j.request.args, j.gate.diff.value, g.root) == Ok(g.plan)
      && j.gate.executionPlan == Some(CanonicalJson(g.plan)) && j.gate.executionPlanHash == Some(Digest(g.plan))
      && (h.approvals == [] ==> j.gate.approvedBy.None? || j.status == Rejected)
      && (h.approvals != [] ==> h.approvals == [Digest(g.plan)] && j.gate.approvalHash == Some(Digest(g.plan)) && j.gate.approvedBy.Some?)
      && (forall p :: p in h.prs ==> p == g.plan)
  }

  predicate StatusOk(j: Job, h: History)
  {
    match j.status
    case Pending => h.claims == [] && h.gates == []
    case Running => (if h.approvals == [] then h.claims == [Prepare] && h.gates == [] else h.claims == [Prepare, Execute])
    case AwaitingApproval => h.claims == [Prepare] == h.starts && h.gates != [] && h.approvals == []
    case Approved => h.claims == [Prepare] == h.starts && h.approvals != [] && h.prs == []
    case Done => j.request.command == "pr" ==> h.approvals != [] && h.starts == [Prepare, Execute]
    case _ => true
  }

  ghost predicate JobOk(j: Job, h: History)
  {
    HistoryOk(h) && GateOk(j, h) && StatusOk(j, h)
  }

  predicate Started(p: Worker)
  {
    !p.Idle? && !p.Holding? && !p.Ready?
  }

  // What a worker that holds a claimed job knows of the table and of the job's history.
  ghost predicate HolderOk(p: Worker, j: Job, h: History)
    requires !p.Idle?
  {
    && p.job.status == Running
    && (j == p.job || (j.status == Failed && j.gate == p.job.gate && j.request == p.job.request && j.id == p.job.id))
    && (if PhaseOf(p.job) == Prepare then h.claims == [Prepare] && h.gates == [] else h.claims == [Prepare, Execute] && h.approvals != [])
    && (if Started(p) then h.starts == h.claims else h.starts == if PhaseOf(p.job) == Prepare then [] else [Prepare])
    && (p.Authorized? || HasToken(p) ==> ApprovedPr(p.job) && h.gates != [] && p.plan == h.gates[0].plan
                                          && p.job.gate.diff.Some? && Unchanged(p.seen, p.plan, p.job.gate.diff.value))
    && (HasToken(p) ==> RequireApprovalBinding(p.job, p.plan).Ok?)
    && (if p.Opening? then h.prs == [p.plan] else p.Finished? || h.prs == [])
  }

  ghost predicate JobsOk(w: World)
  {
    forall id :: id in w.jobs ==> id in w.history && w.jobs[id].id == id && JobOk(w.jobs[id], w.history[id])
  }

  ghost predicate WorkersOk(w: World)
  {
    forall i :: i in w.workers && !w.workers[i].Idle? ==>
      var id := w.workers[i].job.id;
      id in w.jobs && id in w.history && HolderOk(w.workers[i], w.jobs[id], w.history[id])
  }

  // Two workers never hold the same job.
  ghost predicate OneHolder(w: World)
  {
    forall i, k :: i in w.workers && k in w.workers && i != k && !w.workers[i].Idle? && !w.workers[k].Idle? ==>
      w.workers[i].job.id != w.workers[k].job.id
  }

  // What an approver saw is still the stored plan hash.
  ghost predicate SightingsOk(w: World)
  {
    forall a :: a in w.approvers ==>
      w.approvers[a].id in w.jobs && w.jobs[w.approvers[a].id].gate.executionPlanHash == Some(w.approvers[a].hash)
  }

  ghost predicate Inv(w: World)
  {
    JobsOk(w) && WorkersOk(w) && OneHolder(w) && SightingsOk(w)
  }
}
