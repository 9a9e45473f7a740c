/** What either store does in one call is what the protocol's steps do to the table. */
module ProtocolStores {
  import opened Wrappers
  import opened Jobs
  import opened JobStore
  import opened Plan
  import opened Protocol
  import DynamoJobs

  // A claim of the store contract is the claim step of an idle worker.
  lemma ClaimIsAStep(w: World, i: nat, now: Time, t': Table, reply: Option<Job>)
    requires At(w, i).Idle? && KeyedById(w.jobs) && ClaimStep(w.jobs, now, t', reply) && reply.Some?
    ensures Enabled(w, Action.Claim(i, reply.value.id, now))
    ensures var w' := Apply(w, Action.Claim(i, reply.value.id, now)); w'.jobs == t' && At(w', i) == Holding(reply.value)
  {
  }

  // So is what the claim loop does with an index answer, however stale.
  lemma StaleClaimIsAStep(w: World, i: nat, status: Status, page: seq<DynamoJobs.IndexEntry>, now: Time, t': Table, reply: Option<Job>)
    requires At(w, i).Idle? && KeyedById(w.jobs) && Claimable(status)
    requires DynamoJobs.ClaimedFrom(w.jobs, status, page, now, t', reply) && reply.Some?
    ensures Enabled(w, Action.Claim(i, reply.value.id, now))
    ensures var w' := Apply(w, Action.Claim(i, reply.value.id, now)); w'.jobs == t' && At(w', i) == Holding(reply.value)
  {
  }

  lemma ReclaimOnce(w: World, id: string, now: Time)
    requires id in w.jobs && w.jobs[id].status == Running
    ensures Enabled(w, Action.Reclaim(id, now))
    ensures var w' := Apply(w, Action.Reclaim(id, now)); w'.jobs == w.jobs[id := Reclaimed(w.jobs[id], now)] && w'.workers == w.workers
  {
  }

  lemma ReclaimFirst(t: Table, ids: set<string>, id: string, now: Time)
    requires id in ids && id in t
    ensures ReclaimAll(t[id := Reclaimed(t[id], now)], ids - {id}, now) == ReclaimAll(t, ids, now)
  {
  }

  // A reclaim of the store is one reclaim step per stale job.
  lemma {:induction false} ReclaimIsSteps(w: World, ids: set<string>, now: Time) returns (actions: seq<Action>)
    requires forall id :: id in ids ==> id in w.jobs && w.jobs[id].status == Running
    ensures IsRun(w, actions) && After(w, actions).jobs == ReclaimAll(w.jobs, ids, now)
    ensures After(w, actions).workers == w.workers
    decreases |ids|
  {
    hide Enabled, Apply;
    if ids == {} {
      actions := [];
      assert ReclaimAll(w.jobs, ids, now) == w.jobs;
    } else {
      var id :| id in ids;
      var first := Action.Reclaim(id, now);
      ReclaimOnce(w, id, now);
      var rest := ReclaimIsSteps(Apply(w, first), ids - {id}, now);
      actions := [first] + rest;
      assert actions[1..] == rest;
      ReclaimFirst(w.jobs, ids, id, now);
    }
  }

  // Parking and completing a held job, through the store.
  lemma ParkIsAStep(w: World, i: nat, auth: Authority, root: string, now: Time, t': Table, reply: Reply)
    requires Enabled(w, Action.Park(i, auth, root, now))
    requires Step(w.jobs, ParkCall(w, i, auth, root, now), now, t', reply)
    ensures Apply(w, Action.Park(i, auth, root, now)).jobs == t'
  {
    hide BuildPrPlan, CanonicalJson, Digest;
  }

  // What a worker asks of the store at the gate.
  ghost function ParkCall(w: World, i: nat, auth: Authority, root: string, now: Time): Operation
    requires Enabled(w, Action.Park(i, auth, root, now))
  {
    var p := At(w, i);
    var plan := BuildPrPlan(auth, p.job.request.args, p.diff.value, root).value;
    JobStore.Park(p.job.id, p.diff.value, Some(CanonicalJson(plan)), Some(Digest(plan)))
  }

  // Ending a held job, done or failed.
  lemma CompleteIsAStep(w: World, i: nat, report: Report, now: Time, t': Table, reply: Reply)
    requires CanComplete(At(w, i))
    requires Step(w.jobs, JobStore.Complete(At(w, i).job.id, Outcome(Done, report)), now, t', reply)
    ensures Apply(w, Action.Complete(i, report, now)).jobs == t'
  {
  }

  lemma FailIsAStep(w: World, i: nat, error: string, now: Time, t': Table, reply: Reply)
    requires Enabled(w, Action.Fail(i, error, now))
    requires Step(w.jobs, JobStore.Complete(At(w, i).job.id, Outcome(Failed, FailedReport(error))), now, t', reply)
    ensures Apply(w, Action.Fail(i, error, now)).jobs == t'
  {
    hide OtherMay, OtherStep;
  }

  // A rejection through the store is the rejecting step where it took effect, and otherwise none.
  lemma RejectIsAStep(w: World, id: string, approver: string, now: Time, t': Table, reply: Option<Job>)
    requires Step(w.jobs, JobStore.Reject(id, approver), now, t', One(reply))
    ensures reply.Some? <==> Enabled(w, Action.Reject(id, approver, now))
    ensures t' == if reply.Some? then Apply(w, Action.Reject(id, approver, now)).jobs else w.jobs
  {
    hide WorkerMay, WorkerStep;
  }

  // An approval through either store is a look at the job followed by the store's own update.
  lemma ApproveIsTwoSteps(w: World, a: nat, id: string, approver: string, now: Time, t': Table, reply: Option<Job>)
    requires id in w.jobs && HasHash(w.jobs[id]) && Step(w.jobs, JobStore.Approve(id, approver), now, t', One(reply))
    ensures Enabled(w, Look(a, id))
    ensures var seen := Apply(w, Look(a, id));
            && Enabled(seen, ApproveSqlite(a, approver, now)) && Apply(seen, ApproveSqlite(a, approver, now)).jobs == t'
            && Enabled(seen, ApproveDynamo(a, approver, now)) && Apply(seen, ApproveDynamo(a, approver, now)).jobs == t'
  {
    hide WorkerMay, WorkerStep;
  }

  // What the update does on the table it meets, whatever happened since the look: the status alone
  // decides in SQLite, the status and the hash in DynamoDB.
  lemma ApprovingWriteIsAStep(w: World, a: nat, approver: string, now: Time, t': Table, reply: Option<Job>)
    requires a in w.approvers
    requires var s := w.approvers[a];
             Transition(w.jobs, s.id, Status.AwaitingApproval, (j: Job) => ApprovedJob(j, approver, s.hash, now), t', reply)
    ensures Apply(w, ApproveSqlite(a, approver, now)).jobs == t'
    ensures var s := w.approvers[a];
            s.id in w.jobs && w.jobs[s.id].gate.executionPlanHash == Some(s.hash) ==>
              Apply(w, ApproveDynamo(a, approver, now)).jobs == t'
  {
    hide WorkerMay, WorkerStep;
  }
}
