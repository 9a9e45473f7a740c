/** The drift gate: what actually ran, held against what was authorized. */
module Drift {
  import opened Wrappers
  import opened Capabilities
  import opened Policy
  import Lex
  import Plan
  import PyText

  // One observed tool call; `command` is empty for tools other than the shell.
  datatype ToolCall = ToolCall(toolUseId: string, name: string, command: string, resultHash: string, isError: bool)

  datatype Step = Step(call: ToolCall, tool: string)

  const UNRESOLVED_PREFIX := "unresolved:"

  predicate Unresolved(tool: string)
  {
    PyText.StartsWith(tool, UNRESOLVED_PREFIX)
  }

  // The tool a call counts as.
  ghost predicate CountsAs(command: string, call: ToolCall, tool: string)
  {
    if call.command == "" then tool == call.name
    else if exists t :: Resolves(command, call.command, t) then Resolves(command, call.command, tool)
    else tool == "unresolved:" + call.name
  }

  method ResolveToolSteps(command: string, calls: seq<ToolCall>) returns (steps: seq<Step>)
    ensures |steps| == |calls|
    ensures forall i :: 0 <= i < |calls| ==> steps[i].call == calls[i] && CountsAs(command, calls[i], steps[i].tool)
  {
    hide Resolves;
    steps := [];
    for i := 0 to |calls|
      invariant |steps| == i
      invariant forall k :: 0 <= k < i ==> steps[k].call == calls[k] && CountsAs(command, calls[k], steps[k].tool)
    {
      var tool := calls[i].name;
      if calls[i].command != "" {
        var resolved := ResolveTool(command, calls[i].command);
        assert resolved.Some? ==> Resolves(command, calls[i].command, resolved.value);
        tool := if resolved.Some? then resolved.value else UNRESOLVED_PREFIX + calls[i].name;
      }
      steps := steps + [Step(calls[i], tool)];
    }
  }

  // ---- what was observed -------------------------------------------------

  function ResolvedTools(steps: seq<Step>): set<string>
  {
    set s | s in steps && !Unresolved(s.tool) :: s.tool
  }

  function ObservedCapabilities(steps: seq<Step>): seq<string>
  {
    var r := CapabilitiesForTools(TOOL_CAPABILITIES, Lex.Sorted(ResolvedTools(steps)));
    if r.Ok? then r.value else []
  }

  // Calls that ran: a call the guard denied is recorded as an error and does not count.
  function Executed(steps: seq<Step>): seq<Step>
  {
    if steps == [] then []
    else (if steps[0].call.isError then [] else [steps[0]]) + Executed(steps[1..])
  }

  lemma {:induction false} ExecutedAre(steps: seq<Step>, s: Step)
    ensures s in Executed(steps) <==> s in steps && !s.call.isError
  {
    if steps != [] {
      ExecutedAre(steps[1..], s);
      assert steps == [steps[0]] + steps[1..];
    }
  }

  // ---- the gate ----------------------------------------------------------

  datatype Drifted = UnauthorizedCall | CapabilityOutside | RiskAbove | CannotScore

  function Authorized(command: string, plan: Option<Plan.ExecutionPlan>): seq<string>
  {
    if plan.Some? then plan.value.capabilities
    else
      var tools := AllowedTools(command);
      if tools.None? then []
      else
        var r := CapabilitiesForTools(TOOL_CAPABILITIES, Lex.Sorted(set t | t in tools.value));
        if r.Ok? then r.value else []
  }

  function Ceiling(command: string, plan: Option<Plan.ExecutionPlan>): Result<int, Drifted>
  {
    if plan.Some? then Ok(plan.value.riskScore)
    else
      var score := RiskScore(Authorized(command, plan));
      if score.Ok? then Ok(score.value) else Err(CannotScore)
  }

  // The checks in the order they are made.
  function EnforceObserved(command: string, steps: seq<Step>, plan: Option<Plan.ExecutionPlan>): Result<seq<string>, Drifted>
  {
    var executed := Executed(steps);
    var observed := ObservedCapabilities(executed);
    var authorized, ceiling := Authorized(command, plan), Ceiling(command, plan);
    if exists s :: s in executed && Unresolved(s.tool) then Err(UnauthorizedCall)
    else if observed == [] then Ok([])
    else if ceiling.Err? then Err(CannotScore)
    else if exists c :: c in observed && c !in authorized then Err(CapabilityOutside)
    else
      var score := RiskScore(observed);
      if score.Err? then Err(CannotScore)
      else if score.value > ceiling.value then Err(RiskAbove)
      else Ok(observed)
  }

  // A run without calls has nothing to answer for.
  lemma NoCalls(command: string, plan: Option<Plan.ExecutionPlan>)
    ensures EnforceObserved(command, [], plan) == Ok([])
  {
    hide TOOL_CAPABILITIES, Authorized, Ceiling;
    assert Executed([]) == [] && ResolvedTools([]) == {};
    assert Lex.Sorted({}) == [];
  }

  // ---- what the gate decides ---------------------------------------------

  // Plans the worker passes have been verified: their score is that of their capabilities.
  ghost predicate Scored(plan: Option<Plan.ExecutionPlan>)
  {
    plan.Some? ==> Distinct(plan.value.capabilities) && RiskScore(plan.value.capabilities).Ok?
                   && RiskScore(plan.value.capabilities).value == plan.value.riskScore
  }

  lemma VerifiedPlansAreScored(auth: Plan.Authority, args: string, diff: string, planJson: string, planHash: string, ws: Plan.Workspace)
    requires Plan.VerifyPrWorkspace(auth, args, diff, planJson, planHash, ws).Ok?
    ensures Scored(Some(Plan.VerifyPrWorkspace(auth, args, diff, planJson, planHash, ws).value))
  {
    CollectedAreDistinct(auth.table, Lex.SortList(auth.tools));
  }

  ghost predicate NothingUnresolved(steps: seq<Step>)
  {
    forall s :: s in steps && !s.call.isError ==> !Unresolved(s.tool)
  }

  ghost predicate AllDeclared(steps: seq<Step>)
  {
    forall s :: s in steps && !s.call.isError && !Unresolved(s.tool) ==> s.tool in TOOL_CAPABILITIES
  }

  // The classes of the plan or, without one, of the tools granted to the command.
  ghost predicate MayUse(command: string, plan: Option<Plan.ExecutionPlan>, class_: string)
  {
    match plan
    case Some(p) => class_ in p.capabilities
    case None =>
      && AllowedTools(command).Some?
      && exists t :: t in AllowedTools(command).value && t in TOOL_CAPABILITIES && TOOL_CAPABILITIES[t] == class_
  }

  lemma AuthorizedAre(command: string, plan: Option<Plan.ExecutionPlan>, class_: string)
    ensures class_ in Authorized(command, plan) <==> MayUse(command, plan, class_)
  {
    hide AllowedTools, TOOL_CAPABILITIES, CapabilitiesForTools;
    if plan.None? && AllowedTools(command).Some? {
      AllowedToolsAreDeclared(command);
      GrantedAre(AllowedTools(command).value, class_);
    }
  }

  lemma GrantedAre(tools: seq<string>, class_: string)
    requires forall t :: t in tools ==> t in TOOL_CAPABILITIES
    ensures var r := CapabilitiesForTools(TOOL_CAPABILITIES, Lex.Sorted(set t | t in tools));
            r.Ok? && (class_ in r.value <==> exists t :: t in tools && t in TOOL_CAPABILITIES && TOOL_CAPABILITIES[t] == class_)
  {
    hide TOOL_CAPABILITIES, CapabilitiesForTools;
    Collected(tools);
    assert class_ in ClassesOf(TOOL_CAPABILITIES, set t | t in tools) <==>
             exists t :: t in tools && t in TOOL_CAPABILITIES && TOOL_CAPABILITIES[t] == class_;
  }

  // Every call that ran counts as a declared tool of an authorized capability.
  ghost predicate WithinAuthority(command: string, steps: seq<Step>, plan: Option<Plan.ExecutionPlan>)
  {
    forall s :: s in steps && !s.call.isError ==>
      !Unresolved(s.tool) && s.tool in TOOL_CAPABILITIES && MayUse(command, plan, TOOL_CAPABILITIES[s.tool])
  }

  lemma ObservedAre(steps: seq<Step>, c: string)
    requires AllDeclared(steps)
    ensures c in ObservedCapabilities(Executed(steps)) <==>
              exists s :: s in steps && !s.call.isError && !Unresolved(s.tool) && s.tool in TOOL_CAPABILITIES && TOOL_CAPABILITIES[s.tool] == c
  {
    hide TOOL_CAPABILITIES, Unresolved;
    forall s ensures s in Executed(steps) <==> s in steps && !s.call.isError {
      ExecutedAre(steps, s);
    }
    var used := ResolvedTools(Executed(steps));
    var tools := Lex.Sorted(used);
    assert forall t :: t in tools <==> t in used;
    assert (set t | t in tools) == used;
    assert CapabilitiesForTools(TOOL_CAPABILITIES, tools) == Ok(Lex.Sorted(ClassesOf(TOOL_CAPABILITIES, used)));
    var classes := ClassesOf(TOOL_CAPABILITIES, used);
    assert c in Lex.Sorted(classes) <==> c in classes;
    assert c in classes <==> exists t :: t in used && t in TOOL_CAPABILITIES && TOOL_CAPABILITIES[t] == c;
  }

  lemma NothingObserved(steps: seq<Step>)
    requires !AllDeclared(steps)
    ensures ObservedCapabilities(Executed(steps)) == []
  {
    hide TOOL_CAPABILITIES, Unresolved;
    var s :| s in steps && !s.call.isError && !Unresolved(s.tool) && s.tool !in TOOL_CAPABILITIES;
    ExecutedAre(steps, s);
    var used := ResolvedTools(Executed(steps));
    assert s.tool in used && s.tool in Lex.Sorted(used);
  }

  lemma ObservedIsDistinct(steps: seq<Step>)
    ensures Distinct(ObservedCapabilities(steps))
  {
    hide TOOL_CAPABILITIES, Unresolved;
    var tools := Lex.Sorted(ResolvedTools(steps));
    if CapabilitiesForTools(TOOL_CAPABILITIES, tools).Ok? {
      CollectedAreDistinct(TOOL_CAPABILITIES, tools);
    }
  }

  lemma AuthorizedIsScored(command: string, plan: Option<Plan.ExecutionPlan>)
    requires Scored(plan)
    ensures Distinct(Authorized(command, plan)) && RiskScore(Authorized(command, plan)).Ok?
    ensures Ceiling(command, plan) == Ok(RiskScore(Authorized(command, plan)).value)
  {
    if plan.None? && AllowedTools(command).Some? {
      hide AllowedTools;
      var tools := Lex.Sorted(set t | t in AllowedTools(command).value);
      var r := CapabilitiesForTools(TOOL_CAPABILITIES, tools);
      if r.Ok? {
        CollectedAreDistinct(TOOL_CAPABILITIES, tools);
        forall c | c in r.value ensures RiskWeight(c).Some? {
          DeclaredClassesAreKnown(c, set t | t in tools);
        }
        KnownSum(r.value);
      }
    }
  }

  lemma DeclaredClassesAreKnown(c: string, tools: set<string>)
    requires c in ClassesOf(TOOL_CAPABILITIES, tools)
    ensures RiskWeight(c).Some?
  {
  }

  // The last comparison never fires: a subset of the authorized classes scores no more than they do.
  lemma RiskNeverFires(command: string, steps: seq<Step>, plan: Option<Plan.ExecutionPlan>)
    requires Scored(plan)
    ensures EnforceObserved(command, steps, plan) != Err(RiskAbove) && EnforceObserved(command, steps, plan) != Err(CannotScore)
  {
    hide TOOL_CAPABILITIES, Unresolved, AllowedTools, ObservedCapabilities, Authorized, Ceiling, Executed;
    var observed, authorized := ObservedCapabilities(Executed(steps)), Authorized(command, plan);
    AuthorizedIsScored(command, plan);
    ObservedIsDistinct(Executed(steps));
    if forall c :: c in observed ==> c in authorized {
      RiskMonotone(observed, authorized);
    }
  }

  // The gate accepts exactly when no call that ran is unresolved and either every declared class
  // that was used is authorized, or some call that ran counts as a tool nobody declared.
  lemma GateAccepts(command: string, steps: seq<Step>, plan: Option<Plan.ExecutionPlan>)
    requires Scored(plan)
    ensures EnforceObserved(command, steps, plan).Ok? <==>
              NothingUnresolved(steps) && (!AllDeclared(steps) || WithinAuthority(command, steps, plan))
    ensures EnforceObserved(command, steps, plan) == Err(UnauthorizedCall) <==> !NothingUnresolved(steps)
    ensures EnforceObserved(command, steps, plan).Err? ==>
              EnforceObserved(command, steps, plan).error in {UnauthorizedCall, CapabilityOutside}
  {
    hide TOOL_CAPABILITIES, Unresolved, AllowedTools, ObservedCapabilities, Authorized, Ceiling, Executed, MayUse;
    var executed := Executed(steps);
    var observed, authorized := ObservedCapabilities(executed), Authorized(command, plan);
    RiskNeverFires(command, steps, plan);
    forall s ensures s in executed <==> s in steps && !s.call.isError {
      ExecutedAre(steps, s);
    }
    forall c ensures c in authorized <==> MayUse(command, plan, c) {
      AuthorizedAre(command, plan, c);
    }
    if AllDeclared(steps) {
      forall c ensures c in observed <==>
        exists s :: s in steps && !s.call.isError && !Unresolved(s.tool) && s.tool in TOOL_CAPABILITIES && TOOL_CAPABILITIES[s.tool] == c
      {
        ObservedAre(steps, c);
      }
      if NothingUnresolved(steps) && (forall c :: c in observed ==> c in authorized) {
        forall s | s in steps && !s.call.isError ensures TOOL_CAPABILITIES[s.tool] in authorized {
          assert TOOL_CAPABILITIES[s.tool] in observed;
        }
      }
    } else {
      NothingObserved(steps);
    }
  }

  // The classes an accepted run is recorded with are those of the calls that ran, each once and in
  // order; none are recorded when an undeclared tool ran.
  lemma AcceptedClasses(command: string, steps: seq<Step>, plan: Option<Plan.ExecutionPlan>)
    requires EnforceObserved(command, steps, plan).Ok?
    ensures var classes := EnforceObserved(command, steps, plan).value;
            Lex.Ascending(classes) && forall c :: c in classes <==>
              AllDeclared(steps) && exists s :: s in steps && !s.call.isError && !Unresolved(s.tool)
                                                && s.tool in TOOL_CAPABILITIES && TOOL_CAPABILITIES[s.tool] == c
  {
    hide TOOL_CAPABILITIES, Unresolved, AllowedTools, Authorized, Ceiling, Executed, Lex.Ascending;
    if AllDeclared(steps) {
      forall c ensures c in ObservedCapabilities(Executed(steps)) <==>
        exists s :: s in steps && !s.call.isError && !Unresolved(s.tool) && s.tool in TOOL_CAPABILITIES && TOOL_CAPABILITIES[s.tool] == c
      {
        ObservedAre(steps, c);
      }
    } else {
      NothingObserved(steps);
    }
    ObservedAscend(Executed(steps));
  }

  lemma ObservedAscend(steps: seq<Step>)
    ensures Lex.Ascending(ObservedCapabilities(steps))
  {
    hide TOOL_CAPABILITIES, Unresolved, Lex.Less, ResolvedTools;
  }

  // A shell call that ran although no schema holds its line is drift, whatever else ran.
  lemma UnresolvedCallDrifts(command: string, calls: seq<ToolCall>, steps: seq<Step>, plan: Option<Plan.ExecutionPlan>, i: nat)
    requires Scored(plan) && |steps| == |calls| && i < |calls|
    requires forall i :: 0 <= i < |calls| ==> steps[i].call == calls[i] && CountsAs(command, calls[i], steps[i].tool)
    requires calls[i].command != "" && !calls[i].isError && !exists tool :: Resolves(command, calls[i].command, tool)
    ensures EnforceObserved(command, steps, plan) == Err(UnauthorizedCall)
  {
    hide TOOL_CAPABILITIES, AllowedTools, EnforceObserved, Authorized, Resolves;
    var tool := steps[i].tool;
    assert CountsAs(command, calls[i], tool);
    assert tool[..11] == "unresolved:";
    assert Unresolved(tool) && steps[i] in steps;
    GateAccepts(command, steps, plan);
  }

  // What the gate is for, that an accepted run stayed within its authority, holds exactly when
  // nothing undeclared ran among resolved calls.
  lemma GateIsSoundIffDeclared(command: string, steps: seq<Step>, plan: Option<Plan.ExecutionPlan>)
    requires Scored(plan) && NothingUnresolved(steps)
    ensures (EnforceObserved(command, steps, plan).Ok? ==> WithinAuthority(command, steps, plan)) <==> AllDeclared(steps)
  {
    hide EnforceObserved;
    GateAccepts(command, steps, plan);
  }

  // A run of one undeclared tool, as it counts, which the gate lets pass.
  lemma UndeclaredToolPasses(call: ToolCall)
    requires call.name == "WebFetch" && call.command == "" && !call.isError
    ensures forall tool :: CountsAs("tf-review", call, tool) <==> tool == call.name
    ensures EnforceObserved("tf-review", [Step(call, call.name)], None).Ok?
    ensures !WithinAuthority("tf-review", [Step(call, call.name)], None)
  {
    hide TOOL_CAPABILITIES, AllowedTools, EnforceObserved, Authorized;
    var steps := [Step(call, call.name)];
    assert steps[0] in steps && "WebFetch"[0] == 'W' && UNRESOLVED_PREFIX[0] == 'u';
    assert |call.name| == 8;
    WebFetchUndeclared();
    assert !AllDeclared(steps) && NothingUnresolved(steps);
    GateAccepts("tf-review", steps, None);
  }

  lemma WebFetchUndeclared()
    ensures "WebFetch" !in TOOL_CAPABILITIES
  {
    var t := "WebFetch";
    assert t[0] == 'W' && t[1] == 'e' && "Write"[1] == 'r';
  }

  // ---- runs the guard let through ----------------------------------------

  // A call the hook allows and the allowlist grants.
  ghost predicate Granted(command: string, call: ToolCall)
  {
    && AllowedTools(command).Some?
    && if call.command == "" then call.name in AllowedTools(command).value
       else exists tool :: Resolves(command, call.command, tool)
  }

  lemma AllowedToolIsResolved(command: string, tool: string)
    requires AllowedTools(command).Some? && tool in AllowedTools(command).value
    ensures !Unresolved(tool) && tool in TOOL_CAPABILITIES
  {
    AllowedToolsAreDeclared(command);
    DeclaredAreResolved(tool);
  }

  lemma DeclaredAreResolved(tool: string)
    requires tool in TOOL_CAPABILITIES
    ensures !Unresolved(tool)
  {
    assert UNRESOLVED_PREFIX[0] == 'u' && tool[0] != 'u';
    assert |tool| >= 11 ==> tool[..11][0] == tool[0];
  }

  // A run made only of granted calls never drifts, whatever the calls the guard denied.
  lemma GrantedRunsNeverDrift(command: string, calls: seq<ToolCall>, steps: seq<Step>)
    requires |steps| == |calls|
    requires forall i :: 0 <= i < |calls| ==> steps[i].call == calls[i] && CountsAs(command, calls[i], steps[i].tool)
    requires forall i :: 0 <= i < |calls| && !calls[i].isError ==> Granted(command, calls[i])
    ensures EnforceObserved(command, steps, None).Ok?
  {
    hide AllowedTools, TOOL_CAPABILITIES, EnforceObserved, Authorized, Resolves, Unresolved;
    forall s | s in steps && !s.call.isError
      ensures !Unresolved(s.tool) && s.tool in TOOL_CAPABILITIES && MayUse(command, None, TOOL_CAPABILITIES[s.tool])
    {
      var i :| 0 <= i < |steps| && steps[i] == s;
      assert Granted(command, calls[i]);
      if calls[i].command != "" {
        ResolvedIsGranted(command, calls[i].command, s.tool);
      }
      AllowedToolIsResolved(command, s.tool);
    }
    GateAccepts(command, steps, None);
  }

  // ---- the pull request command, after approval --------------------------

  // The pr allowlist without PR_EXECUTE_EXCLUDED_TOOLS.
  const PR_EXECUTE_TOOLS := ["Read", GIT_STATUS, GIT_DIFF, GIT_COMMIT, GIT_PUSH, GH_PR_CREATE]

  // What is left to the executor of an approved pull request: no editing, no staging, no tests.
  lemma ExecuteTools(tool: string)
    ensures tool in PR_EXECUTE_TOOLS <==>
              && AllowedTools("pr").Some? && tool in AllowedTools("pr").value
              && tool !in {"Edit", "Write", "Bash(git checkout:*)", "Bash(git add:*)", "Bash(python -m pytest:*)"}
  {
    PrIsAllowed();
  }

  lemma PrClasses(c: string)
    ensures c in ClassesOf(TOOL_CAPABILITIES, set t | t in PR_EXECUTE_TOOLS) <==> c == READ || c == WRITE_LOW
    ensures c in ClassesOf(TOOL_CAPABILITIES, set t | t in PR_TOOLS) <==> c == READ || c == WRITE_LOW
  {
    var execute, all := set t | t in PR_EXECUTE_TOOLS, set t | t in PR_TOOLS;
    assert PR_EXECUTE_TOOLS[0] in execute && PR_EXECUTE_TOOLS[3] in execute;
    assert PR_TOOLS[0] in all && PR_TOOLS[1] in all;
  }

  // The plan a pull request is approved with authorizes as much as the allowlist of the command,
  // so granted calls do not drift from it either.
  lemma GrantedRunsNeverDriftFromThePlan(calls: seq<ToolCall>, steps: seq<Step>, plan: Plan.ExecutionPlan)
    requires CapabilitiesForTools(TOOL_CAPABILITIES, Lex.SortList(PR_EXECUTE_TOOLS)) == Ok(plan.capabilities) && Scored(Some(plan))
    requires |steps| == |calls|
    requires forall i :: 0 <= i < |calls| ==> steps[i].call == calls[i] && CountsAs("pr", calls[i], steps[i].tool)
    requires forall i :: 0 <= i < |calls| && !calls[i].isError ==> Granted("pr", calls[i])
    ensures EnforceObserved("pr", steps, Some(plan)).Ok?
  {
    GrantedRunsNeverDrift("pr", calls, steps);
    GateAccepts("pr", steps, None);
    PlanCoversAllowlist(plan);
    hide TOOL_CAPABILITIES, EnforceObserved, Unresolved, Authorized, Resolves, AllowedTools;
    forall s | s in steps && !s.call.isError ensures s.tool in TOOL_CAPABILITIES {
      var i :| 0 <= i < |steps| && steps[i] == s;
      assert Granted("pr", calls[i]);
      if calls[i].command != "" {
        ResolvedIsGranted("pr", calls[i].command, s.tool);
      }
      AllowedToolIsResolved("pr", s.tool);
    }
    GateAccepts("pr", steps, Some(plan));
  }

  lemma PlanCoversAllowlist(plan: Plan.ExecutionPlan)
    requires CapabilitiesForTools(TOOL_CAPABILITIES, Lex.SortList(PR_EXECUTE_TOOLS)) == Ok(plan.capabilities)
    ensures forall c :: MayUse("pr", None, c) ==> MayUse("pr", Some(plan), c)
  {
    hide TOOL_CAPABILITIES, AllowedTools, PR_TOOLS, PR_EXECUTE_TOOLS, ClassesOf, CapabilitiesForTools;
    PrIsAllowed();
    Lex.SortKeepsElements(PR_EXECUTE_TOOLS);
    Collected(PR_TOOLS);
    SameClasses(PR_EXECUTE_TOOLS, Lex.SortList(PR_EXECUTE_TOOLS));
    PlanClasses(plan);
    forall c ensures MayUse("pr", None, c) ==> MayUse("pr", Some(plan), c) {
      AuthorizedAre("pr", None, c);
      PrClasses(c);
    }
  }

  lemma PlanClasses(plan: Plan.ExecutionPlan)
    requires CapabilitiesForTools(TOOL_CAPABILITIES, Lex.SortList(PR_EXECUTE_TOOLS)) == Ok(plan.capabilities)
    ensures forall c :: c in plan.capabilities <==> c in ClassesOf(TOOL_CAPABILITIES, set t | t in Lex.SortList(PR_EXECUTE_TOOLS))
  {
    hide TOOL_CAPABILITIES, PR_EXECUTE_TOOLS;
  }

  lemma PrIsAllowed()
    ensures AllowedTools("pr") == Some(PR_TOOLS) && forall t :: t in PR_TOOLS ==> t in TOOL_CAPABILITIES
  {
    assert "pr"[0] == 'p' && |"pr"| == 2;
  }

  lemma Collected(tools: seq<string>)
    requires forall t :: t in tools ==> t in TOOL_CAPABILITIES
    ensures CapabilitiesForTools(TOOL_CAPABILITIES, Lex.Sorted(set t | t in tools))
         == Ok(Lex.Sorted(ClassesOf(TOOL_CAPABILITIES, set t | t in tools)))
  {
    hide TOOL_CAPABILITIES;
    var used := set t | t in tools;
    var sorted := Lex.Sorted(used);
    assert (set t | t in sorted) == used;
  }

  lemma SameClasses(tools: seq<string>, others: seq<string>)
    requires multiset(tools) == multiset(others)
    ensures ClassesOf(TOOL_CAPABILITIES, set t | t in tools) == ClassesOf(TOOL_CAPABILITIES, set t | t in others)
  {
    hide TOOL_CAPABILITIES;
    assert forall t :: t in tools <==> t in multiset(tools);
    assert forall t :: t in others <==> t in multiset(others);
    assert (set t | t in tools) == (set t | t in others);
  }
}
