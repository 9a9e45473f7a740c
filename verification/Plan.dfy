/**
 The execution plan: its canonical text and digest, how it is built for a diff, and the
 check made against the live workspace before an approved plan is executed.
 */
module Plan {
  import opened Wrappers
  import opened Hashing
  import opened Json
  import opened Capabilities
  import opened Fields
  import Lex
  import Paths
  import PyText

  const POLICY_VERSION := "secure-runtime-v1"

  datatype ExecutionPlan = ExecutionPlan(
    command: string,
    argsSha256: string,
    diffSha256: string,
    paths: seq<string>,
    policyVersion: string,
    workspaceRoot: string,
    executionTools: seq<string>,
    capabilities: seq<string>,
    riskScore: int,
    riskCeiling: int,
    accountId: string,
    region: string)

  // ---- canonical text ----------------------------------------------------

  function Members(p: ExecutionPlan): seq<Member>
  {
    [ Member("account_id", Str(p.accountId)),
      Member("args_sha256", Str(p.argsSha256)),
      Member("capabilities", Arr(Texts(p.capabilities))),
      Member("command", Str(p.command)),
      Member("diff_sha256", Str(p.diffSha256)),
      Member("execution_tools", Arr(Texts(p.executionTools))),
      Member("paths", Arr(Texts(p.paths))),
      Member("policy_version", Str(p.policyVersion)),
      Member("region", Str(p.region)),
      Member("risk_ceiling", Int(p.riskCeiling)),
      Member("risk_score", Int(p.riskScore)),
      Member("workspace_root", Str(p.workspaceRoot)) ]
  }

  function CanonicalJson(p: ExecutionPlan): string
  {
    Encode(Obj(Members(p)))
  }

  function Digest(p: ExecutionPlan): string
  {
    Sha256(CanonicalJson(p))
  }

  lemma FieldNamesAscend()
    ensures Lex.Less("account_id", "args_sha256") && Lex.Less("args_sha256", "capabilities")
    ensures Lex.Less("capabilities", "command") && Lex.Less("command", "diff_sha256")
    ensures Lex.Less("diff_sha256", "execution_tools") && Lex.Less("execution_tools", "paths")
    ensures Lex.Less("paths", "policy_version") && Lex.Less("policy_version", "region")
    ensures Lex.Less("region", "risk_ceiling") && Lex.Less("risk_ceiling", "risk_score")
    ensures Lex.Less("risk_score", "workspace_root")
  {
  }

  const KEYS := ["account_id", "args_sha256", "capabilities", "command", "diff_sha256", "execution_tools", "paths",
                 "policy_version", "region", "risk_ceiling", "risk_score", "workspace_root"]

  lemma KeysAscend()
    ensures Lex.Ascending(KEYS)
  {
    hide Lex.Less;
    FieldNamesAscend();
    assert forall i :: 0 <= i < |KEYS| - 1 ==> Lex.Less(KEYS[i], KEYS[i + 1]);
    Lex.AdjacentAscending(KEYS);
  }

  // `sort_keys=True`.
  lemma CanonicalKeysAscend(p: ExecutionPlan)
    ensures Lex.Ascending(Keys(Members(p)))
  {
    hide Lex.Ascending;
    KeysAscend();
    assert Keys(Members(p)) == KEYS;
  }

  // ---- reading a plan back -----------------------------------------------

  function FromMembers(ms: seq<Member>): Option<ExecutionPlan>
  {
    var paths := TextsAt(ms, "paths");
    var command := TextAt(ms, "command");
    var args := TextAt(ms, "args_sha256");
    var diff := TextAt(ms, "diff_sha256");
    var policy := TextAt(ms, "policy_version");
    var root := TextAt(ms, "workspace_root");
    var tools := TextsOr(ms, "execution_tools");
    var capabilities := TextsOr(ms, "capabilities");
    var score := IntOr(ms, "risk_score", 0);
    var ceiling := IntOr(ms, "risk_ceiling", RISK_CEILING);
    var account := TextOr(ms, "account_id", "");
    var region := TextOr(ms, "region", "");
    if paths.None? || command.None? || args.None? || diff.None? || policy.None? || root.None? then None
    else if tools.None? || capabilities.None? || score.None? || ceiling.None? || account.None? || region.None? then None
    else
      Some(ExecutionPlan(command.value, args.value, diff.value, paths.value, policy.value, root.value, tools.value,
                         capabilities.value, score.value, ceiling.value, account.value, region.value))
  }

  function FromJson(text: string): Option<ExecutionPlan>
  {
    var doc := Decode(text);
    if doc.Some? && doc.value.Obj? then FromMembers(doc.value.members) else None
  }

  lemma FieldsOf(p: ExecutionPlan)
    ensures var ms := Members(p);
            && Get(ms, "account_id") == Some(Str(p.accountId))
            && Get(ms, "args_sha256") == Some(Str(p.argsSha256))
            && Get(ms, "capabilities") == Some(Arr(Texts(p.capabilities)))
            && Get(ms, "command") == Some(Str(p.command))
            && Get(ms, "diff_sha256") == Some(Str(p.diffSha256))
            && Get(ms, "execution_tools") == Some(Arr(Texts(p.executionTools)))
            && Get(ms, "paths") == Some(Arr(Texts(p.paths)))
            && Get(ms, "policy_version") == Some(Str(p.policyVersion))
            && Get(ms, "region") == Some(Str(p.region))
            && Get(ms, "risk_ceiling") == Some(Int(p.riskCeiling))
            && Get(ms, "risk_score") == Some(Int(p.riskScore))
            && Get(ms, "workspace_root") == Some(Str(p.workspaceRoot))
  {
    var ms := Members(p);
    CanonicalKeysAscend(p);
    forall i | 0 <= i < 12 ensures Get(ms, ms[i].key) == Some(ms[i].value) {
      GetAt(ms, i);
    }
    assert ms[0].key == "account_id" && ms[1].key == "args_sha256" && ms[2].key == "capabilities";
    assert ms[3].key == "command" && ms[4].key == "diff_sha256" && ms[5].key == "execution_tools";
    assert ms[6].key == "paths" && ms[7].key == "policy_version" && ms[8].key == "region";
    assert ms[9].key == "risk_ceiling" && ms[10].key == "risk_score" && ms[11].key == "workspace_root";
  }

  lemma MembersRoundTrip(p: ExecutionPlan)
    ensures FromMembers(Members(p)) == Some(p)
  {
    var ms := Members(p);
    FieldsOf(p);
    TextsRoundTrip(p.capabilities, ms, "capabilities");
    TextsRoundTrip(p.executionTools, ms, "execution_tools");
    TextsRoundTrip(p.paths, ms, "paths");
  }

  lemma PlanRoundTrip(p: ExecutionPlan)
    ensures FromJson(CanonicalJson(p)) == Some(p)
  {
    DecodeEncode(Obj(Members(p)));
    MembersRoundTrip(p);
  }

  // An approval of a digest is an approval of one plan.
  lemma DigestInjective(p: ExecutionPlan, q: ExecutionPlan)
    requires Digest(p) == Digest(q)
    ensures p == q
  {
    PlanRoundTrip(p);
    PlanRoundTrip(q);
  }

  // ---- building a plan ---------------------------------------------------

  datatype PlanError =
    | InvalidPlan
    | HashMismatch
    | UnsupportedPolicy
    | ToolChainChanged
    | EscalatedToWrite
    | CapabilitiesChanged
    | UnclassifiedTool
    | RiskChanged
    | RiskAboveCeiling
    | AccountOrRegionChanged
    | RequestOrDiffChanged
    | NoWorkspace
    | WorkspaceRootChanged
    | UnsafePath
    | GitFailed
    | UntrackedFiles
    | WorkingTreeChanged
    | BadDiff

  // What the deployment fixes for the execute phase: the declared tools, the tool chain it may
  // use, and the account and region it runs against.
  datatype Authority = Authority(table: Declarations, tools: seq<string>, accountId: string, region: string)

  function BuildPrPlan(auth: Authority, args: string, diff: string, root: string): Result<ExecutionPlan, PlanError>
  {
    var sorted := Lex.SortList(auth.tools);
    var capabilities := CapabilitiesForTools(auth.table, sorted);
    if capabilities.Err? then Err(UnclassifiedTool)
    else
      var score := RiskScore(capabilities.value);
      if score.Err? then Err(UnclassifiedTool)
      else if score.value > RISK_CEILING then Err(RiskAboveCeiling)
      else
        var paths := Paths.ChangedPaths(diff);
        if paths.Err? then Err(BadDiff)
        else
          Ok(ExecutionPlan("pr", Sha256(PyText.Strip(args)), Sha256(diff), paths.value, POLICY_VERSION, root, sorted,
                           capabilities.value, score.value, RISK_CEILING, auth.accountId, auth.region))
  }

  // ---- the workspace at execution time -----------------------------------

  // What the checks can observe: the configured root (None when it is missing or not a git
  // worktree), which repository-relative component prefixes are symbolic links, which paths
  // resolve outside the root, the lines of `git status --porcelain`, and `git diff HEAD`
  // (None when git fails).
  datatype Workspace = Workspace(
    root: Option<string>,
    symlinks: set<seq<string>>,
    escapes: set<string>,
    status: Option<seq<string>>,
    diff: Option<string>)

  // No component of the path, from the root down, is a symbolic link.
  predicate NoSymlinkOn(ws: Workspace, parts: seq<string>)
  {
    forall k {:trigger parts[..k]} :: 1 <= k <= |parts| ==> parts[..k] !in ws.symlinks
  }

  predicate PathAllowed(ws: Workspace, relative: string)
  {
    Paths.Safe(relative) && NoSymlinkOn(ws, Paths.Parts(relative)) && relative !in ws.escapes
  }

  // The component walk of `_validate_plan_path`.
  method ValidatePlanPath(ws: Workspace, relative: string) returns (ok: bool)
    ensures ok <==> PathAllowed(ws, relative)
  {
    var parts := Paths.Parts(relative);
    if !Paths.Safe(relative) {
      return false;
    }
    var current: seq<string> := [];
    for i := 0 to |parts|
      invariant current == parts[..i]
      invariant forall k {:trigger parts[..k]} :: 1 <= k <= i ==> parts[..k] !in ws.symlinks
    {
      current := current + [parts[i]];
      assert current == parts[..i + 1];
      if current in ws.symlinks {
        return false;
      }
    }
    return relative !in ws.escapes;
  }

  predicate HasUntracked(status: seq<string>)
  {
    exists line :: line in status && PyText.StartsWith(line, "?? ")
  }

  function WriteCapabilities(capabilities: seq<string>): set<string>
  {
    set c | c in capabilities && c in {WRITE_LOW, WRITE_HIGH, PRIVILEGED}
  }

  // The checks on the plan alone, in the order they are made.
  function VerifyPlanText(auth: Authority, args: string, diff: string, planJson: string, planHash: string)
    : Result<ExecutionPlan, PlanError>
  {
    var parsed := FromJson(planJson);
    if parsed.None? then Err(InvalidPlan)
    else
      var plan := parsed.value;
      var expected := Lex.SortList(auth.tools);
      var current := CapabilitiesForTools(auth.table, expected);
      if Digest(plan) != planHash then Err(HashMismatch)
      else if plan.command != "pr" || plan.policyVersion != POLICY_VERSION then Err(UnsupportedPolicy)
      else if plan.executionTools != expected then Err(ToolChainChanged)
      else if current.Err? then Err(UnclassifiedTool)
      else if plan.capabilities != current.value then
        if WriteCapabilities(current.value) - WriteCapabilities(plan.capabilities) != {} then Err(EscalatedToWrite)
        else Err(CapabilitiesChanged)
      else
        var score := RiskScore(current.value);
        if score.Err? then Err(UnclassifiedTool)
        else if score.value != plan.riskScore then Err(RiskChanged)
        else if score.value > plan.riskCeiling then Err(RiskAboveCeiling)
        else if plan.accountId != auth.accountId || plan.region != auth.region then Err(AccountOrRegionChanged)
        else if plan.argsSha256 != Sha256(PyText.Strip(args)) || plan.diffSha256 != Sha256(diff) then Err(RequestOrDiffChanged)
        else Ok(plan)
  }

  // The checks on the workspace, in the order they are made.
  function VerifyWorkspace(plan: ExecutionPlan, ws: Workspace): Option<PlanError>
  {
    if ws.root.None? then Some(NoWorkspace)
    else if ws.root.value != plan.workspaceRoot then Some(WorkspaceRootChanged)
    else if exists p :: p in plan.paths && !PathAllowed(ws, p) then Some(UnsafePath)
    else if ws.status.None? then Some(GitFailed)
    else if HasUntracked(ws.status.value) then Some(UntrackedFiles)
    else if ws.diff.None? then Some(GitFailed)
    else if Sha256(ws.diff.value) != plan.diffSha256 then Some(WorkingTreeChanged)
    else None
  }

  function VerifyPrWorkspace(auth: Authority, args: string, diff: string, planJson: string, planHash: string,
                                   ws: Workspace): Result<ExecutionPlan, PlanError>
  {
    var plan := VerifyPlanText(auth, args, diff, planJson, planHash);
    if plan.Err? then plan
    else
      var failure := VerifyWorkspace(plan.value, ws);
      if failure.Some? then Err(failure.value) else plan
  }

  // ---- build, then verify ------------------------------------------------

  // `git status` reports a file that is not under version control by two question marks and a space.
  predicate ReportsUntracked(line: string)
  {
    |line| >= 3 && line[0] == '?' && line[1] == '?' && line[2] == ' '
  }

  // Neither the path nor a directory on the way to it, as cut at its slashes, is a symbolic link.
  predicate Intact(ws: Workspace, path: string)
  {
    var pieces := PyText.Split(path, '/');
    path !in ws.escapes && forall k {:trigger pieces[..k]} :: 1 <= k <= |pieces| ==> pieces[..k] !in ws.symlinks
  }

  // The workspace still is what the plan was built for.
  ghost predicate Unchanged(ws: Workspace, p: ExecutionPlan, diff: string)
  {
    && ws.root == Some(p.workspaceRoot)
    && ws.diff == Some(diff)
    && ws.status.Some? && (forall line :: line in ws.status.value ==> !ReportsUntracked(line))
    && (forall path :: path in p.paths ==> Intact(ws, path))
  }

  lemma UntrackedLines(status: seq<string>)
    ensures HasUntracked(status) <==> exists line :: line in status && ReportsUntracked(line)
  {
    forall line ensures PyText.StartsWith(line, "?? ") <==> ReportsUntracked(line) {
      assert |line| >= 3 ==> line[..3] == [line[0], line[1], line[2]];
    }
  }

  lemma BuiltTextVerifies(auth: Authority, args: string, diff: string, root: string)
    requires BuildPrPlan(auth, args, diff, root).Ok?
    ensures var p := BuildPrPlan(auth, args, diff, root).value;
            VerifyPlanText(auth, args, diff, CanonicalJson(p), Digest(p)) == Ok(p)
  {
    PlanRoundTrip(BuildPrPlan(auth, args, diff, root).value);
  }

  lemma WorkspaceVerifies(p: ExecutionPlan, diff: string, ws: Workspace)
    requires p.diffSha256 == Sha256(diff)
    requires forall path :: path in p.paths ==> Paths.Safe(path) && Paths.Parts(path) == PyText.Split(path, '/')
    ensures VerifyWorkspace(p, ws).None? <==> Unchanged(ws, p, diff)
  {
    hide Paths.Safe, Paths.Parts, PyText.Split, HasUntracked, ReportsUntracked;
    if ws.status.Some? {
      UntrackedLines(ws.status.value);
    }
    assert forall path :: path in p.paths ==> (PathAllowed(ws, path) <==> Intact(ws, path));
  }

  // A refusal names what is wrong: a write class the plan lacks is told from any other change of classes,
  // and a score above the approved ceiling from a score that is not the approved one.
  lemma RefusedText(auth: Authority, args: string, diff: string, planJson: string, planHash: string)
    requires VerifyPlanText(auth, args, diff, planJson, planHash).Err?
    ensures VerifyPlanText(auth, args, diff, planJson, planHash).error == InvalidPlan <==> FromJson(planJson).None?
    ensures FromJson(planJson).Some? ==>
              RefusedFor(auth, args, diff, FromJson(planJson).value, planHash, VerifyPlanText(auth, args, diff, planJson, planHash).error)
  {
    hide FromJson, Digest, Lex.SortList, CapabilitiesForTools, RiskScore, HashesRequest, PyText.Strip, WriteCapabilities;
    if FromJson(planJson).Some? {
      HashesStripped(FromJson(planJson).value, args, diff);
      var current := CapabilitiesForTools(auth.table, Lex.SortList(auth.tools));
      if current.Ok? {
        NewWrites(current.value, FromJson(planJson).value.capabilities);
      }
    }
  }

  ghost predicate GainsWrite(current: seq<string>, approved: seq<string>)
  {
    exists c :: c in current && c !in approved && (c == "write-low" || c == "write-high" || c == "privileged")
  }

  lemma NewWrites(current: seq<string>, approved: seq<string>)
    ensures WriteCapabilities(current) - WriteCapabilities(approved) != {} <==> GainsWrite(current, approved)
  {
    var added := WriteCapabilities(current) - WriteCapabilities(approved);
    if GainsWrite(current, approved) {
      var c :| c in current && c !in approved && (c == "write-low" || c == "write-high" || c == "privileged");
      assert c in added;
    }
    if c :| c in added {
      assert c in current && c !in approved;
    }
  }

  ghost predicate RefusedFor(auth: Authority, args: string, diff: string, p: ExecutionPlan, planHash: string, e: PlanError)
  {
    var current := CapabilitiesForTools(auth.table, Lex.SortList(auth.tools));
    match e
    case HashMismatch => Digest(p) != planHash
    case UnsupportedPolicy => p.command != "pr" || p.policyVersion != "secure-runtime-v1"
    case ToolChainChanged => p.executionTools != Lex.SortList(auth.tools)
    case EscalatedToWrite => current.Ok? && GainsWrite(current.value, p.capabilities)
    case CapabilitiesChanged => current.Ok? && current.value != p.capabilities && !GainsWrite(current.value, p.capabilities)
    case UnclassifiedTool => current.Err? || RiskScore(p.capabilities).Err?
    case RiskChanged => RiskScore(p.capabilities).Ok? && RiskScore(p.capabilities).value != p.riskScore
    case RiskAboveCeiling => RiskScore(p.capabilities).Ok? && p.riskScore > p.riskCeiling
    case AccountOrRegionChanged => p.accountId != auth.accountId || p.region != auth.region
    case RequestOrDiffChanged => !HashesRequest(p, args, diff)
    case _ => false
  }

  // Exactly these workspaces pass, whatever the paths of the plan: one line of the status that starts
  // with two question marks and a space, or one path that climbs or crosses a symbolic link, is enough to fail.
  lemma AcceptedWorkspace(p: ExecutionPlan, ws: Workspace)
    ensures VerifyWorkspace(p, ws).None? <==>
              && ws.root == Some(p.workspaceRoot)
              && (forall path :: path in p.paths ==>
                    (path == "" || path[0] != '/') && ".." !in PyText.Split(path, '/') && path !in ws.escapes
                    && forall k {:trigger Paths.Parts(path)[..k]} :: 1 <= k <= |Paths.Parts(path)| ==> Paths.Parts(path)[..k] !in ws.symlinks)
              && ws.status.Some? && (forall line :: line in ws.status.value ==> !ReportsUntracked(line))
              && ws.diff.Some? && Sha256(ws.diff.value) == p.diffSha256
  {
    hide Paths.Safe, Paths.Parts, PyText.Split, HasUntracked, ReportsUntracked;
    if ws.status.Some? {
      UntrackedLines(ws.status.value);
    }
    forall path ensures Paths.Safe(path) <==> (path == "" || path[0] != '/') && ".." !in PyText.Split(path, '/') {
      Paths.SafeIs(path);
    }
  }

  // A plan that is built says what it is for: the request up to white space at its ends, the diff,
  // the tools and their classes, and a risk within the ceiling of ten.
  lemma BuiltPlanIs(auth: Authority, args: string, diff: string, root: string)
    requires BuildPrPlan(auth, args, diff, root).Ok?
    ensures var p := BuildPrPlan(auth, args, diff, root).value;
            && p.command == "pr" && p.policyVersion == "secure-runtime-v1" && p.workspaceRoot == root
            && p.accountId == auth.accountId && p.region == auth.region
            && Paths.ChangedPaths(diff) == Ok(p.paths)
            && RiskScore(p.capabilities) == Ok(p.riskScore) && p.riskScore <= 10 == p.riskCeiling
    ensures HashesRequest(BuildPrPlan(auth, args, diff, root).value, args, diff)
    ensures var tools := BuildPrPlan(auth, args, diff, root).value.executionTools;
            Lex.NeverDescends(tools) && multiset(tools) == multiset(auth.tools)
    ensures var classes := BuildPrPlan(auth, args, diff, root).value.capabilities;
            && Lex.Ascending(classes) && (forall t :: t in auth.tools ==> t in auth.table)
            && (forall c :: c in classes <==> exists t :: t in auth.tools && t in auth.table && auth.table[t] == c)
            && "write-high" !in classes && "privileged" !in classes
  {
    hide Lex.NeverDescends, Lex.Ascending, RiskScore, Paths.ChangedPaths, Lex.SortList, CapabilitiesForTools, PyText.Strip, HashesRequest;
    var p := BuildPrPlan(auth, args, diff, root).value;
    HashesStripped(p, args, diff);
    Lex.SortListSorts(auth.tools);
    ClassesOfTools(auth.table, auth.tools, p.executionTools, p.capabilities);
  }

  lemma ClassesOfTools(table: Declarations, tools: seq<string>, ordered: seq<string>, classes: seq<string>)
    requires multiset(ordered) == multiset(tools) && CapabilitiesForTools(table, ordered) == Ok(classes)
    requires RiskScore(classes).Ok? && RiskScore(classes).value <= RISK_CEILING
    ensures Lex.Ascending(classes) && forall t :: t in tools ==> t in table
    ensures forall c :: c in classes <==> exists t :: t in tools && t in table && table[t] == c
    ensures "write-high" !in classes && "privileged" !in classes
  {
    hide Lex.Ascending, RiskScore, CapabilitiesForTools;
    CapabilitiesAre(table, ordered, classes);
    CollectedAreDistinct(table, ordered);
    CeilingExcludesHighClasses(classes);
    forall t ensures t in tools <==> t in ordered {
      assert t in multiset(tools) <==> t in multiset(ordered);
    }
  }

  // The plan names the stripped request and the diff by their hashes.
  ghost predicate HashesRequest(p: ExecutionPlan, args: string, diff: string)
  {
    p.diffSha256 == Sha256(diff) && exists m :: PyText.IsStripped(args, m) && p.argsSha256 == Sha256(m)
  }

  lemma HashesStripped(p: ExecutionPlan, args: string, diff: string)
    ensures HashesRequest(p, args, diff) <==> p.argsSha256 == Sha256(PyText.Strip(args)) && p.diffSha256 == Sha256(diff)
  {
    hide PyText.IsStripped;
    PyText.StripIs(args);
    if m :| PyText.IsStripped(args, m) && p.argsSha256 == Sha256(m) {
      PyText.StrippedOnce(args, m, PyText.Strip(args));
    }
  }

  // Exactly these plans pass the checks made before the workspace is looked at, whoever built them.
  lemma AcceptedText(auth: Authority, args: string, diff: string, planJson: string, planHash: string, p: ExecutionPlan)
    ensures VerifyPlanText(auth, args, diff, planJson, planHash) == Ok(p) <==>
              && FromJson(planJson) == Some(p) && Digest(p) == planHash
              && p.command == "pr" && p.policyVersion == "secure-runtime-v1"
              && p.executionTools == Lex.SortList(auth.tools)
              && CapabilitiesForTools(auth.table, p.executionTools) == Ok(p.capabilities)
              && p.riskScore >= 0 && RiskScore(p.capabilities) == Ok(p.riskScore) && p.riskScore <= p.riskCeiling
              && p.accountId == auth.accountId && p.region == auth.region
              && HashesRequest(p, args, diff)
  {
    hide FromJson, Digest, Lex.SortList, CapabilitiesForTools, RiskScore, HashesRequest, PyText.Strip;
    HashesStripped(p, args, diff);
  }

  // An approved plan verifies exactly in an unchanged, clean workspace.
  lemma BuildThenVerify(auth: Authority, args: string, diff: string, root: string, ws: Workspace)
    requires BuildPrPlan(auth, args, diff, root).Ok?
    ensures var p := BuildPrPlan(auth, args, diff, root).value;
            var v := VerifyPrWorkspace(auth, args, diff, CanonicalJson(p), Digest(p), ws);
            && (v.Ok? <==> Unchanged(ws, p, diff))
            && (v.Ok? ==> v.value == p)
  {
    BuiltTextVerifies(auth, args, diff, root);
    Paths.ChangedPathsAreSafe(diff);
    WorkspaceVerifies(BuildPrPlan(auth, args, diff, root).value, diff, ws);
  }

  // Whatever text is offered, and whatever the deployment is by now, a successful check against
  // the digest of a built plan returns that plan, and every input of the build is the one seen now.
  lemma VerifyForcesTheBuild(auth0: Authority, args0: string, diff0: string, root0: string,
                             auth: Authority, args: string, diff: string, planJson: string, ws: Workspace)
    requires BuildPrPlan(auth0, args0, diff0, root0).Ok?
    requires VerifyPrWorkspace(auth, args, diff, planJson, Digest(BuildPrPlan(auth0, args0, diff0, root0).value), ws).Ok?
    ensures var p0 := BuildPrPlan(auth0, args0, diff0, root0).value;
            && VerifyPrWorkspace(auth, args, diff, planJson, Digest(p0), ws).value == p0
            && Unchanged(ws, p0, diff0) && ws.root == Some(root0)
    ensures PyText.SameButEnds(args, args0) && diff == diff0
    ensures auth.accountId == auth0.accountId && auth.region == auth0.region
    ensures multiset(auth.tools) == multiset(auth0.tools)
    ensures CapabilitiesForTools(auth.table, Lex.SortList(auth.tools))
         == CapabilitiesForTools(auth0.table, Lex.SortList(auth0.tools))
  {
    var p0 := BuildPrPlan(auth0, args0, diff0, root0).value;
    VerifiedText(auth, args, diff, planJson, p0);
    PyText.StripAlike(args, args0);
    Lex.SortKeepsElements(auth.tools);
    Lex.SortKeepsElements(auth0.tools);
    Paths.ChangedPathsAreSafe(diff0);
    WorkspaceVerifies(p0, diff0, ws);
  }

  lemma VerifiedText(auth: Authority, args: string, diff: string, planJson: string, p0: ExecutionPlan)
    requires VerifyPlanText(auth, args, diff, planJson, Digest(p0)).Ok?
    ensures VerifyPlanText(auth, args, diff, planJson, Digest(p0)) == Ok(p0)
    ensures p0.executionTools == Lex.SortList(auth.tools)
    ensures CapabilitiesForTools(auth.table, p0.executionTools) == Ok(p0.capabilities)
    ensures p0.accountId == auth.accountId && p0.region == auth.region
    ensures p0.argsSha256 == Sha256(PyText.Strip(args)) && p0.diffSha256 == Sha256(diff)
  {
    DigestInjective(VerifyPlanText(auth, args, diff, planJson, Digest(p0)).value, p0);
  }
}
