/** One job through the gate: a small diff under the shipped tool chain, approved, and what may become of it. */
module Example {
  import opened Wrappers
  import opened Jobs
  import opened Plan
  import opened Capabilities
  import opened Credentials
  import opened Grants
  import opened WorkerLoop
  import Drift
  import Lex
  import Paths
  import Policy
  import ProtocolProgress
  import PyText

  // ---- the diff ----------------------------------------------------------

  const LINES := ["--- a/f", "+++ b/f", "@@ -1 +1 @@", "-x", "+y"]

  // Every line with its line break.
  function TextOf(lines: seq<string>): string
  {
    if lines == [] then "" else lines[0] + "\n" + TextOf(lines[1..])
  }

  predicate OneLine(line: string)
  {
    forall i :: 0 <= i < |line| ==> ' ' <= line[i] <= '~'
  }

  lemma {:induction false} LengthOfFirst(line: string, rest: string)
    requires OneLine(line)
    ensures PyText.LineLength(line + "\n" + rest) == |line|
  {
    var s := line + "\n" + rest;
    if line != "" {
      assert s[1..] == line[1..] + "\n" + rest;
      LengthOfFirst(line[1..], rest);
    }
  }

  lemma {:induction false} LinesOfText(lines: seq<string>)
    requires forall i :: 0 <= i < |lines| ==> OneLine(lines[i])
    ensures PyText.SplitLines(TextOf(lines)) == lines
  {
    if lines != [] {
      var rest := TextOf(lines[1..]);
      var s := lines[0] + "\n" + rest;
      LengthOfFirst(lines[0], rest);
      LinesOfText(lines[1..]);
      assert s[|lines[0]|] == '\n' && s[..|lines[0]|] == lines[0] && s[|lines[0]| + 1..] == rest;
      assert lines == [lines[0]] + lines[1..];
    }
  }

  lemma LinesAreLines()
    ensures forall i :: 0 <= i < |LINES| ==> OneLine(LINES[i])
  {
    assert OneLine("--- a/f") && OneLine("+++ b/f") && OneLine("@@ -1 +1 @@") && OneLine("-x") && OneLine("+y");
  }

  lemma NameOf(field: string)
    requires field == "a/f" || field == "b/f"
    ensures PyText.Before(field, '\t') == field && field[2..] == "f" && Paths.Parts("f") == ["f"]
  {
    assert field[1..][1..] == "f" && "f"[1..] == "";
    assert PyText.Before("", '\t') == "" && PyText.Before("f", '\t') == ['f'] + "" == "f";
    assert PyText.Before(field[1..], '\t') == ['/'] + "f";
    PyText.SplitPiece("f", "", '/');
    assert Paths.KeepParts([]) == [];
    assert Paths.IsPart("f");
    Paths.KeepAll(["f"]);
  }

  lemma HeaderNames(line: string)
    requires line == "--- a/f" || line == "+++ b/f"
    ensures Paths.HeaderOf(line) == Paths.Names("f")
  {
    var field := line[4..];
    assert field == if line[0] == '-' then "a/f" else "b/f";
    NameOf(field);
    assert field != "/dev/null" by { assert |field| == 3; }
    assert ".."[0] == '.' && "f"[0] == 'f';
    assert PyText.Join(["f"], '/') == "f";
  }

  lemma OthersNameNothing(line: string)
    requires line == "@@ -1 +1 @@" || line == "-x" || line == "+y"
    ensures Paths.HeaderOf(line) == Paths.NotHeader
  {
    assert line[0] == '@' || |line| == 2;
  }

  lemma HeadersAre()
    ensures LINES[0] in LINES && Paths.HeaderOf(LINES[0]) == Paths.Names("f")
    ensures forall line :: line in LINES ==> Paths.HeaderOf(line) == Paths.Names("f") || Paths.HeaderOf(line) == Paths.NotHeader
  {
    hide Paths.HeaderOf;
    HeaderNames(LINES[0]);
    HeaderNames(LINES[1]);
    OthersNameNothing(LINES[2]);
    OthersNameNothing(LINES[3]);
    OthersNameNothing(LINES[4]);
  }

  lemma DiffNamesOnePath()
    ensures Paths.ChangedPaths(TextOf(LINES)) == Ok(["f"])
  {
    hide Paths.HeaderOf, TextOf, OneLine, Lex.Less, LINES, PyText.SplitLines, Paths.ChangedPathsOf;
    LinesAreLines();
    LinesOfText(LINES);
    HeadersAre();
    Paths.ChangedPathsAre(LINES, ["f"]);
  }

  // ---- the plan ----------------------------------------------------------

  const AUTHORITY := Authority(Policy.TOOL_CAPABILITIES, Drift.PR_EXECUTE_TOOLS, "123456789012", "us-east-1")
  const REQUEST := Request("pr", "x to y", Web, "operator", None, None)
  const ROOT := "/srv/repo"

  lemma ClassesAre()
    ensures ClassesOf(Policy.TOOL_CAPABILITIES, set t | t in Drift.PR_EXECUTE_TOOLS) == {READ, WRITE_LOW}
  {
    hide Policy.TOOL_CAPABILITIES, Drift.PR_EXECUTE_TOOLS, ClassesOf;
    var used := ClassesOf(Policy.TOOL_CAPABILITIES, set t | t in Drift.PR_EXECUTE_TOOLS);
    forall c ensures c in used <==> c == READ || c == WRITE_LOW {
      Drift.PrClasses(c);
    }
  }

  lemma ShippedClasses()
    ensures CapabilitiesForTools(AUTHORITY.table, Lex.SortList(AUTHORITY.tools)) == Ok(Lex.Sorted({READ, WRITE_LOW}))
  {
    hide Policy.TOOL_CAPABILITIES, Drift.PR_EXECUTE_TOOLS, ClassesOf, Lex.SortList, Lex.Sorted;
    var tools := Lex.SortList(Drift.PR_EXECUTE_TOOLS);
    SortedMembers();
    ToolsAreDeclared();
    ClassesAre();
    assert (set t | t in tools) == (set t | t in Drift.PR_EXECUTE_TOOLS);
  }

  lemma SortedMembers()
    ensures forall t :: t in Lex.SortList(Drift.PR_EXECUTE_TOOLS) <==> t in Drift.PR_EXECUTE_TOOLS
  {
    hide Drift.PR_EXECUTE_TOOLS, Lex.SortList;
    Lex.SortKeepsElements(Drift.PR_EXECUTE_TOOLS);
    assert forall t :: t in Lex.SortList(Drift.PR_EXECUTE_TOOLS) <==> t in multiset(Lex.SortList(Drift.PR_EXECUTE_TOOLS));
    assert forall t :: t in Drift.PR_EXECUTE_TOOLS <==> t in multiset(Drift.PR_EXECUTE_TOOLS);
  }

  lemma ToolsAreDeclared()
    ensures forall t :: t in Drift.PR_EXECUTE_TOOLS ==> t in Policy.TOOL_CAPABILITIES
  {
  }

  lemma ShippedScore(capabilities: seq<string>)
    requires capabilities == Lex.Sorted({READ, WRITE_LOW})
    ensures RiskScore(capabilities) == Ok(6) && WRITE_LOW in capabilities
  {
    hide Lex.Less;
    KnownSum(capabilities);
    forall i, k | 0 <= i < k < |capabilities| ensures capabilities[i] != capabilities[k] {
      Lex.Irreflexive(capabilities[i]);
    }
    RiskOfDistinct(capabilities);
    assert (set c | c in capabilities) == {READ, WRITE_LOW};
    ClassesDiffer();
  }

  lemma PlanIsBuilt() returns (plan: ExecutionPlan)
    ensures BuildPrPlan(AUTHORITY, REQUEST.args, TextOf(LINES), ROOT) == Ok(plan)
    ensures plan.paths == ["f"] && plan.workspaceRoot == ROOT && WRITE_LOW in plan.capabilities
  {
    hide TextOf, Paths.ChangedPaths, RiskScore, CapabilitiesForTools, Lex.Sorted;
    ShippedClasses();
    ShippedScore(Lex.Sorted({READ, WRITE_LOW}));
    DiffNamesOnePath();
    plan := BuildPrPlan(AUTHORITY, REQUEST.args, TextOf(LINES), ROOT).value;
  }

  // The workspace holds exactly the diff.
  function Clean(): Workspace
  {
    Workspace(Some(ROOT), {}, {}, Some([]), Some(TextOf(LINES)))
  }

  // The job as a worker claims it for the second time.
  function ApprovedAndClaimed(plan: ExecutionPlan): Job
  {
    var first := Claimed(NewJob("7", REQUEST, 0), 1);
    var parked := Parked(first, TextOf(LINES), Some(CanonicalJson(plan)), Some(Digest(plan)), 2);
    Claimed(ApprovedJob(parked, "operator", Digest(plan), 3), 4)
  }

  lemma JobVerifies(plan: ExecutionPlan)
    requires BuildPrPlan(AUTHORITY, REQUEST.args, TextOf(LINES), ROOT) == Ok(plan) && plan.workspaceRoot == ROOT
    ensures ApprovedPr(ApprovedAndClaimed(plan))
    ensures VerifyApproved(ApprovedAndClaimed(plan), AUTHORITY, Clean()) == Ok(plan)
  {
    hide BuildPrPlan, CanonicalJson, Digest, VerifyPrWorkspace, TextOf;
    BuildThenVerify(AUTHORITY, REQUEST.args, TextOf(LINES), ROOT, Clean());
    assert Unchanged(Clean(), plan, TextOf(LINES));
  }

  // ---- what may become of it ---------------------------------------------

  // A turn with a configured credential, in scope and with a working audit store.
  function Turned(): Env
  {
    Env(0, [], 4, 5, n => "t", true, Ok("repo"), AUTHORITY, Clean(), Clean(), ROOT, Raised,
        Terms(Configured("owner/name"), true, true), e => "", "900.0", k => "")
  }

  lemma TextIsAdmissible()
    ensures !BadText(PyText.Strip("x to y")) && IsRepository("owner/name")
  {
    var t := "x to y";
    assert PyText.TrimLeft(t) == t && PyText.TrimRight(t) == t;
    var r := "owner/name";
    assert r[5] == '/' && r[0] != '/' && r[6] != '/' && |r| == 10;
  }

  // Its first command fails: the job is done all the same, and no pull request was opened.
  lemma DoneUnopened() returns (j: Job, env: Env, met: Met, v: Verdict)
    ensures ApprovedPr(j) && env.terms.provider.Configured? && met.answers(met.base).returnCode == 1
    ensures Decides(j, env, met, v) && v.Completes? && !Opens(j, env, met)
  {
    hide BuildPrPlan, VerifyApproved, RequireApprovalBinding, BadText, IsRepository, PyText.Strip, Clean, Decides, Opens, TextOf;
    var plan := PlanIsBuilt();
    j, env := ApprovedAndClaimed(plan), Turned();
    JobVerifies(plan);
    VerifiedPlanBinds(j, AUTHORITY, Clean());
    TextIsAdmissible();
    met := FailedCommandIsDone(j, env, "token");
    v := Completes(ReportOf(ApprovedOutcome(env, ScriptFailed)));
  }

  // And some run of the protocol carries it to its pull request.
  lemma SomeRunOpensIt()
    ensures exists actions, plan :: ProtocolProgress.ReachesPr(actions, plan) && plan.paths == ["f"]
  {
    hide BuildPrPlan, TextOf, ProtocolProgress.ReachesPr;
    var plan := PlanIsBuilt();
    assert Unchanged(Clean(), plan, TextOf(LINES));
    var actions := ProtocolProgress.PlansCanBeOpened("7", REQUEST, AUTHORITY, TextOf(LINES), ROOT, plan, Clean(), "token");
    assert ProtocolProgress.ReachesPr(actions, plan);
  }
}
