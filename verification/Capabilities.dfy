/** Capability classes, the tools that carry them, and the aggregate risk of a tool chain. */
module Capabilities {
  import opened Wrappers
  import Lex

  const READ := "read"
  const SENSITIVE_READ := "sensitive-read"
  const WRITE_LOW := "write-low"
  const WRITE_HIGH := "write-high"
  const PRIVILEGED := "privileged"

  const RISK_CEILING := 10

  function RiskWeight(capability: string): (r: Option<nat>)
  {
    if capability == READ then Some(1)
    else if capability == SENSITIVE_READ then Some(4)
    else if capability == WRITE_LOW then Some(5)
    else if capability == WRITE_HIGH then Some(20)
    else if capability == PRIVILEGED then Some(50)
    else None
  }

  datatype CapabilityError = UndeclaredTool | UnknownCapability

  // Tools and their declared capability.
  type Declarations = map<string, string>

  function ClassesOf(table: Declarations, tools: set<string>): set<string>
  {
    set t | t in tools && t in table :: table[t]
  }

  function CapabilitiesForTools(table: Declarations, tools: seq<string>): Result<seq<string>, CapabilityError>
  {
    if exists t :: t in tools && t !in table then Err(UndeclaredTool)
    else Ok(Lex.Sorted(ClassesOf(table, set t | t in tools)))
  }

  // The loop of `capabilities_for_tools`.
  method CollectCapabilities(table: Declarations, tools: seq<string>) returns (r: Result<seq<string>, CapabilityError>)
    ensures r == CapabilitiesForTools(table, tools)
  {
    var capabilities: set<string> := {};
    for i := 0 to |tools|
      invariant capabilities == ClassesOf(table, set t | t in tools[..i])
      invariant forall t :: t in tools[..i] ==> t in table
    {
      assert tools[..i + 1] == tools[..i] + [tools[i]];
      if tools[i] !in table {
        return Err(UndeclaredTool);
      }
      capabilities := capabilities + {table[tools[i]]};
    }
    assert tools[..|tools|] == tools;
    return Ok(Lex.Sorted(capabilities));
  }

  // The answer is the one ascending list of the classes the tools carry.
  lemma CapabilitiesAre(table: Declarations, tools: seq<string>, classes: seq<string>)
    ensures CapabilitiesForTools(table, tools) == Ok(classes) <==>
              && (forall t :: t in tools ==> t in table) && Lex.Ascending(classes)
              && forall c :: c in classes <==> exists t :: t in tools && t in table && table[t] == c
  {
    hide Lex.Ascending;
    var used := ClassesOf(table, set t | t in tools);
    assert forall c :: c in used <==> exists t :: t in tools && t in table && table[t] == c;
    Lex.OneSorting(used, classes);
  }

  // ---- risk --------------------------------------------------------------

  function RiskScore(capabilities: seq<string>): (r: Result<nat, CapabilityError>)
  {
    if capabilities == [] then Ok(0)
    else
      var weight := RiskWeight(capabilities[|capabilities| - 1]);
      var rest := RiskScore(capabilities[..|capabilities| - 1]);
      if rest.Err? || weight.None? then Err(UnknownCapability) else Ok(rest.value + weight.value)
  }

  lemma {:induction false} UnknownPrefix(capabilities: seq<string>, i: nat)
    requires i <= |capabilities| && RiskScore(capabilities[..i]).Err?
    ensures RiskScore(capabilities).Err?
  {
    if i < |capabilities| {
      assert capabilities[..|capabilities| - 1][..i] == capabilities[..i];
      UnknownPrefix(capabilities[..|capabilities| - 1], i);
    } else {
      assert capabilities[..i] == capabilities;
    }
  }

  method ComputeRisk(capabilities: seq<string>) returns (r: Result<nat, CapabilityError>)
    ensures r == RiskScore(capabilities)
  {
    var total: nat := 0;
    for i := 0 to |capabilities|
      invariant RiskScore(capabilities[..i]) == Ok(total)
    {
      assert capabilities[..i + 1][..i] == capabilities[..i];
      match RiskWeight(capabilities[i])
      case Some(weight) => total := total + weight;
      case None =>
        UnknownPrefix(capabilities, i + 1);
        return Err(UnknownCapability);
    }
    assert capabilities[..|capabilities|] == capabilities;
    return Ok(total);
  }

  ghost predicate Distinct(capabilities: seq<string>)
  {
    forall i, j :: 0 <= i < j < |capabilities| ==> capabilities[i] != capabilities[j]
  }

  // The score of a set, class by class: the reference the loop's sum is compared with.
  function SetRisk(classes: set<string>): nat
  {
    (if "read" in classes then 1 else 0) + (if "sensitive-read" in classes then 4 else 0)
    + (if "write-low" in classes then 5 else 0) + (if "write-high" in classes then 20 else 0)
    + (if "privileged" in classes then 50 else 0)
  }

  lemma ClassesDiffer()
    ensures Distinct([READ, SENSITIVE_READ, WRITE_LOW, WRITE_HIGH, PRIVILEGED])
  {
    assert |READ| == 4 && |SENSITIVE_READ| == 14 && |WRITE_LOW| == 9 && |WRITE_HIGH| == 10 && |PRIVILEGED| == 10;
    assert WRITE_HIGH[0] == 'w' && PRIVILEGED[0] == 'p';
  }

  lemma SetRiskGrows(s: set<string>, c: string)
    requires c !in s && RiskWeight(c).Some?
    ensures SetRisk(s + {c}) == SetRisk(s) + RiskWeight(c).value
  {
    ClassesDiffer();
  }

  // The loop counts every occurrence: its sum is the score of the set exactly when no class is
  // repeated, and more when one is.
  lemma {:induction false} RiskOfDistinct(capabilities: seq<string>)
    requires RiskScore(capabilities).Ok?
    ensures RiskScore(capabilities).value >= SetRisk(set c | c in capabilities)
    ensures RiskScore(capabilities).value == SetRisk(set c | c in capabilities) <==> Distinct(capabilities)
  {
    hide SetRisk, RiskWeight;
    if capabilities == [] {
      NoRisk();
      assert (set c | c in capabilities) == {};
    } else {
      var last, init := capabilities[|capabilities| - 1], capabilities[..|capabilities| - 1];
      RiskOfDistinct(init);
      Weighs(last);
      assert capabilities == init + [last];
      assert (set c | c in capabilities) == (set c | c in init) + {last};
      if last in init {
        var i :| 0 <= i < |init| && init[i] == last;
        assert capabilities[i] == capabilities[|init|];
        assert (set c | c in init) + {last} == (set c | c in init);
      } else {
        SetRiskGrows((set c | c in init), last);
        assert Distinct(capabilities) ==> Distinct(init);
      }
    }
  }

  lemma NoRisk()
    ensures SetRisk({}) == 0
  {
  }

  lemma Weighs(c: string)
    ensures RiskWeight(c).Some? ==> RiskWeight(c).value > 0
  {
  }

  // Adding capabilities never lowers the score, so a subset never scores above its superset.
  lemma RiskMonotone(smaller: seq<string>, larger: seq<string>)
    requires Distinct(smaller) && Distinct(larger)
    requires forall c :: c in smaller ==> c in larger
    requires RiskScore(larger).Ok?
    ensures RiskScore(smaller).Ok? && RiskScore(smaller).value <= RiskScore(larger).value
  {
    forall c | c in smaller ensures RiskWeight(c).Some? {
      KnownMember(larger, c);
    }
    KnownSum(smaller);
    RiskOfDistinct(smaller);
    RiskOfDistinct(larger);
  }

  lemma {:induction false} KnownMember(capabilities: seq<string>, c: string)
    requires RiskScore(capabilities).Ok? && c in capabilities
    ensures RiskWeight(c).Some?
  {
    var last, init := capabilities[|capabilities| - 1], capabilities[..|capabilities| - 1];
    assert capabilities == init + [last];
    if c != last {
      KnownMember(init, c);
    }
  }

  lemma {:induction false} KnownSum(capabilities: seq<string>)
    requires forall c :: c in capabilities ==> RiskWeight(c).Some?
    ensures RiskScore(capabilities).Ok?
  {
    if capabilities != [] {
      assert capabilities[|capabilities| - 1] in capabilities;
      KnownSum(capabilities[..|capabilities| - 1]);
    }
  }

  // The ceiling alone keeps write-high and privileged tools out, and lets every other mix through.
  lemma CeilingExcludesHighClasses(capabilities: seq<string>)
    requires Distinct(capabilities) && RiskScore(capabilities).Ok?
    ensures RiskScore(capabilities).value <= 10 <==> "write-high" !in capabilities && "privileged" !in capabilities
  {
    RiskOfDistinct(capabilities);
  }

  lemma CollectedAreDistinct(table: Declarations, tools: seq<string>)
    requires CapabilitiesForTools(table, tools).Ok?
    ensures Distinct(CapabilitiesForTools(table, tools).value)
  {
    var r := CapabilitiesForTools(table, tools).value;
    forall i, j | 0 <= i < j < |r| ensures r[i] != r[j] {
      Lex.Irreflexive(r[i]);
    }
  }
}
