/** The protocol does what it is for: a plan that can be built can be approved and its pull request opened. */
module ProtocolProgress {
  import opened Wrappers
  import opened Jobs
  import opened Plan
  import opened Capabilities
  import opened Credentials
  import opened Protocol

  // One step, then the rest.
  lemma {:induction false} Extend(w: World, actions: seq<Action>, a: Action)
    requires IsRun(w, actions) && Enabled(After(w, actions), a)
    ensures IsRun(w, actions + [a]) && After(w, actions + [a]) == Apply(After(w, actions), a)
    decreases |actions|
  {
    hide Enabled, Apply;
    if actions == [] {
      assert [] + [a] == [a] && [a][1..] == [];
    } else {
      assert (actions + [a])[1..] == actions[1..] + [a];
      Extend(Apply(w, actions[0]), actions[1..], a);
    }
  }

  // A world with one job, one worker and one approver's sighting, as far as the run needs them.
  ghost predicate Scene(w: World, j: Job, p: Worker)
  {
    j.id in w.jobs && w.jobs[j.id] == j && j.id in w.history && At(w, 0) == p && w.ledger == EMPTY.ledger
  }

  lemma ToFirstClaim(id: string, request: Request) returns (actions: seq<Action>, j: Job)
    ensures j.id == id && j.request == request && j.status == Running && j.gate == Gate(None, None, None, None, None, None)
    ensures IsRun(EMPTY, actions) && Scene(After(EMPTY, actions), j, Holding(j))
  {
    hide IsRun, After, Verifies, BuildPrPlan;
    assert IsRun(EMPTY, []) && After(EMPTY, []) == EMPTY by { NoSteps(EMPTY); }
    var a1 := Action.Enqueue(id, request, 0);
    Extend(EMPTY, [], a1);
    var w1 := Apply(EMPTY, a1);
    var a2 := Action.Claim(0, id, 1);
    assert [] + [a1] == [a1];
    Extend(EMPTY, [a1], a2);
    actions := [a1] + [a2];
    j := Claimed(w1.jobs[id], 1);
  }

  lemma NoSteps(w: World)
    ensures IsRun(w, []) && After(w, []) == w
  {
  }

  // Prepare, and park with the plan.
  lemma ToGate(run: seq<Action>, j: Job, auth: Authority, diff: string, root: string, plan: ExecutionPlan)
    returns (actions: seq<Action>, parked: Job)
    requires IsRun(EMPTY, run) && Scene(After(EMPTY, run), j, Holding(j))
    requires j.status == Running && j.request.command == "pr" && PhaseOf(j) == Prepare
    requires BuildPrPlan(auth, j.request.args, diff, root) == Ok(plan)
    ensures IsRun(EMPTY, actions) && Scene(After(EMPTY, actions), parked, Worker.Idle)
    ensures parked == Parked(j, diff, Some(CanonicalJson(plan)), Some(Digest(plan)), 2)
  {
    hide IsRun, After, Verifies, BuildPrPlan, CanonicalJson, Digest;
    var w0 := After(EMPTY, run);
    Extend(EMPTY, run, Skip(0));
    var w1 := Apply(w0, Skip(0));
    var r1 := run + [Skip(0)];
    Extend(EMPTY, r1, Start(0));
    var w2 := Apply(w1, Start(0));
    var r2 := r1 + [Start(0)];
    Extend(EMPTY, r2, Return(0, Some(diff)));
    var w3 := Apply(w2, Return(0, Some(diff)));
    var r3 := r2 + [Return(0, Some(diff))];
    var park := Action.Park(0, auth, root, 2);
    assert Enabled(w3, park);
    Extend(EMPTY, r3, park);
    actions := r3 + [park];
    parked := Parked(j, diff, Some(CanonicalJson(plan)), Some(Digest(plan)), 2);
  }

  // One approver looks and approves, and the worker claims the job again.
  lemma ToSecondClaim(run: seq<Action>, j: Job, approver: string) returns (actions: seq<Action>, approved: Job)
    requires IsRun(EMPTY, run) && Scene(After(EMPTY, run), j, Worker.Idle)
    requires j.status == AwaitingApproval && HasHash(j)
    ensures IsRun(EMPTY, actions) && Scene(After(EMPTY, actions), approved, Holding(approved))
    ensures approved == Claimed(ApprovedJob(j, approver, j.gate.executionPlanHash.value, 3), 4)
  {
    hide IsRun, After, Verifies, BuildPrPlan;
    var w0 := After(EMPTY, run);
    var look := Look(0, j.id);
    Extend(EMPTY, run, look);
    var w1 := Apply(w0, look);
    var r1 := run + [look];
    var approve := ApproveDynamo(0, approver, 3);
    Extend(EMPTY, r1, approve);
    var w2 := Apply(w1, approve);
    var r2 := r1 + [approve];
    var claim := Action.Claim(0, j.id, 4);
    Extend(EMPTY, r2, claim);
    actions := r2 + [claim];
    approved := Claimed(ApprovedJob(j, approver, j.gate.executionPlanHash.value, 3), 4);
  }

  // The plan verifies twice, the credential is minted, and the pull request may be opened.
  lemma ToPullRequest(run: seq<Action>, j: Job, auth: Authority, ws: Workspace, token: string) returns (actions: seq<Action>)
    requires IsRun(EMPTY, run) && Scene(After(EMPTY, run), j, Holding(j))
    requires ApprovedPr(j) && Verifies(j, auth, ws) && token != ""
    requires RequireApprovalBinding(j, VerifiedPlan(j, auth, ws)).Ok?
    ensures IsRun(EMPTY, actions) && Enabled(After(EMPTY, actions), OpenPr(0))
    ensures At(After(EMPTY, actions), 0) == Granted(j, VerifiedPlan(j, auth, ws), ws, token)
  {
    hide IsRun, After, Verifies, BuildPrPlan, RequireApprovalBinding;
    var w0 := After(EMPTY, run);
    var a1 := Verify(0, auth, ws);
    Extend(EMPTY, run, a1);
    var w1 := Apply(w0, a1);
    var r1 := run + [a1];
    Extend(EMPTY, r1, Start(0));
    var w2 := Apply(w1, Start(0));
    var r2 := r1 + [Start(0)];
    var a3 := Reverify(0, auth, ws);
    Extend(EMPTY, r2, a3);
    var w3 := Apply(w2, a3);
    var r3 := r2 + [a3];
    var a4 := Issue(0, token);
    Extend(EMPTY, r3, a4);
    actions := r3 + [a4];
  }

  // A run at whose end the first worker holds a credential for the plan and opens the pull request next.
  ghost predicate ReachesPr(actions: seq<Action>, plan: ExecutionPlan)
  {
    && IsRun(EMPTY, actions)
    && var p := At(After(EMPTY, actions), 0);
       p.Granted? && p.plan == plan && Enabled(After(EMPTY, actions), OpenPr(0))
  }

  // Every plan with a write capability that can be built for a request is the plan of some run
  // that reaches its pull request, given a workspace that stays as it was.
  lemma PlansCanBeOpened(id: string, request: Request, auth: Authority, diff: string, root: string, plan: ExecutionPlan,
                         ws: Workspace, token: string) returns (actions: seq<Action>)
    requires request.command == "pr" && id != "" && token != "" && BuildPrPlan(auth, request.args, diff, root) == Ok(plan)
    requires WRITE_LOW in plan.capabilities && Unchanged(ws, plan, diff)
    ensures ReachesPr(actions, plan)
  {
    hide IsRun, After, Enabled, Scene, CanonicalJson, Digest, VerifyPrWorkspace, Unchanged, BuildPrPlan;
    BuildThenVerify(auth, request.args, diff, root, ws);
    var r1, j1 := ToFirstClaim(id, request);
    var r2, j2 := ToGate(r1, j1, auth, diff, root, plan);
    DigestNotEmpty(plan);
    var r3, j3 := ToSecondClaim(r2, j2, "operator");
    VerifiedPlanBinds(j3, auth, ws);
    actions := ToPullRequest(r3, j3, auth, ws, token);
  }

  lemma DigestNotEmpty(plan: ExecutionPlan)
    ensures Digest(plan) != ""
  {
    hide CanonicalJson;
  }
}
