/**
 The tables that bound what a model may run: the tools of each command, their capabilities and the
 argument schemas of the guard, with the hook that applies them and the classifier that reuses it.
 */
module Policy {
  import opened Wrappers
  import opened Guard
  import opened Capabilities
  import PyText

  // ---- the tables --------------------------------------------------------

  const GIT_STATUS := "Bash(git status:*)"
  const GIT_DIFF := "Bash(git diff:*)"
  const GIT_CHECKOUT := "Bash(git checkout:*)"
  const GIT_ADD := "Bash(git add:*)"
  const GIT_COMMIT := "Bash(git commit:*)"
  const GIT_PUSH := "Bash(git push:*)"
  const GH_PR_CREATE := "Bash(gh pr create:*)"
  const PYTEST := "Bash(python -m pytest:*)"
  const TERRAFORM_PLAN := "Bash(terraform plan:*)"
  const TERRAFORM_SHOW := "Bash(terraform show:*)"

  const TOOL_CAPABILITIES: Declarations :=
    map["Read" := READ, "Edit" := WRITE_LOW, "Write" := WRITE_LOW,
        GIT_STATUS := READ, GIT_DIFF := READ, GIT_CHECKOUT := WRITE_LOW, GIT_ADD := WRITE_LOW, GIT_COMMIT := WRITE_LOW,
        GIT_PUSH := WRITE_LOW, GH_PR_CREATE := WRITE_LOW, PYTEST := WRITE_LOW,
        TERRAFORM_PLAN := READ, TERRAFORM_SHOW := READ]

  const TF_REVIEW_TOOLS := [TERRAFORM_PLAN, TERRAFORM_SHOW, "Read"]

  const PR_TOOLS := ["Read", "Edit", "Write", GIT_STATUS, GIT_DIFF, GIT_CHECKOUT, GIT_ADD, GIT_COMMIT, GIT_PUSH, GH_PR_CREATE, PYTEST]

  // None: the command has no entry, so everything is denied.
  function AllowedTools(command: string): Option<seq<string>>
  {
    if command == "logs" || command == "detect" || command == "diagnose" then Some([])
    else if command == "tf-review" then Some(TF_REVIEW_TOOLS)
    else if command == "pr" then Some(PR_TOOLS)
    else None
  }

  const TF_REVIEW_SCHEMAS: seq<ArgSchema> :=
    [ ArgSchema(["terraform", "plan"], TERRAFORM_PLAN, map["-no-color" := false, "-input" := true], None, 0),
      ArgSchema(["terraform", "show"], TERRAFORM_SHOW, map["-no-color" := false, "-json" := false], None, 0) ]

  const PR_SCHEMAS: seq<ArgSchema> :=
    [ ArgSchema(["git", "status"], GIT_STATUS, map["--porcelain" := false, "--short" := false], None, 0),
      ArgSchema(["git", "diff"], GIT_DIFF,
                map["--no-ext-diff" := false, "--binary" := false, "--staged" := false, "--cached" := false, "--stat" := false],
                Some(RepoPath), 1),
      ArgSchema(["git", "checkout", "-b"], GIT_CHECKOUT, map[], Some(Branch), 1),
      ArgSchema(["git", "add"], GIT_ADD, map["-A" := false, "--all" := false], Some(RepoPath), 50),
      ArgSchema(["git", "commit"], GIT_COMMIT, map["-m" := true, "--message" := true], None, 0),
      ArgSchema(["git", "push"], GIT_PUSH, map["-u" := false, "--set-upstream" := false], Some(Branch), 2),
      ArgSchema(["gh", "pr", "create"], GH_PR_CREATE,
                map["--title" := true, "--body" := true, "--base" := true, "--head" := true, "--draft" := false], None, 0),
      ArgSchema(["python", "-m", "pytest"], PYTEST,
                map["-q" := false, "--quiet" := false, "-x" := false, "--tb" := true], Some(RepoPath), 20) ]

  function Schemas(command: string): Option<seq<ArgSchema>>
  {
    if command == "logs" || command == "detect" || command == "diagnose" then Some([])
    else if command == "tf-review" then Some(TF_REVIEW_SCHEMAS)
    else if command == "pr" then Some(PR_SCHEMAS)
    else None
  }

  // ---- the import-time cross-checks --------------------------------------

  lemma GuardAndAllowlistAgree(command: string)
    ensures Schemas(command).Some? <==> AllowedTools(command).Some?
    ensures Schemas(command).Some? ==>
              forall s :: s in Schemas(command).value ==> s.tool in AllowedTools(command).value
  {
  }

  // The tool pattern that a command line starting with these tokens is allowed under.
  function ToolPattern(words: seq<string>): string
  {
    "Bash(" + (PyText.Join(words, ' ') + ":*)")
  }

  // The tool of a schema spells its first words.
  ghost predicate SpellsPrefix(s: ArgSchema)
  {
    exists k :: 2 <= k <= |s.prefix| && s.tool == ToolPattern(s.prefix[..k])
  }

  lemma SpellsTwo(s: ArgSchema, a: string, b: string)
    requires |s.prefix| >= 2 && s.prefix[..2] == [a, b] && s.tool == "Bash(" + ((a + [' '] + b) + ":*)")
    ensures SpellsPrefix(s)
  {
    assert [a, b][1..] == [b];
    assert PyText.Join([a, b], ' ') == a + [' '] + b;
    assert s.tool == ToolPattern(s.prefix[..2]);
  }

  lemma SpellsThree(s: ArgSchema, a: string, b: string, c: string)
    requires s.prefix == [a, b, c] && s.tool == "Bash(" + ((a + [' '] + (b + [' '] + c)) + ":*)")
    ensures SpellsPrefix(s)
  {
    assert [a, b, c][1..] == [b, c] && [b, c][1..] == [c];
    assert PyText.Join([b, c], ' ') == b + [' '] + c;
    assert s.prefix[..3] == [a, b, c];
    assert s.tool == ToolPattern(s.prefix[..3]);
  }

  lemma GitTexts()
    ensures GIT_STATUS == "Bash(" + (("git" + [' '] + "status") + ":*)") && GIT_DIFF == "Bash(" + (("git" + [' '] + "diff") + ":*)")
    ensures GIT_CHECKOUT == "Bash(" + (("git" + [' '] + "checkout") + ":*)") && GIT_ADD == "Bash(" + (("git" + [' '] + "add") + ":*)")
    ensures GIT_COMMIT == "Bash(" + (("git" + [' '] + "commit") + ":*)") && GIT_PUSH == "Bash(" + (("git" + [' '] + "push") + ":*)")
  {
  }

  lemma OtherTexts()
    ensures TERRAFORM_PLAN == "Bash(" + (("terraform" + [' '] + "plan") + ":*)")
    ensures TERRAFORM_SHOW == "Bash(" + (("terraform" + [' '] + "show") + ":*)")
    ensures GH_PR_CREATE == "Bash(" + (("gh" + [' '] + ("pr" + [' '] + "create")) + ":*)")
    ensures PYTEST == "Bash(" + (("python" + [' '] + ("-m" + [' '] + "pytest")) + ":*)")
  {
  }

  // Every schema counts as the tool whose pattern spells its first tokens.
  lemma SchemaToolsSpellPrefixes()
    ensures forall i :: 0 <= i < |TF_REVIEW_SCHEMAS| ==> SpellsPrefix(TF_REVIEW_SCHEMAS[i])
    ensures forall i :: 0 <= i < |PR_SCHEMAS| ==> SpellsPrefix(PR_SCHEMAS[i])
  {
    hide SpellsPrefix, GIT_STATUS, GIT_DIFF, GIT_CHECKOUT, GIT_ADD, GIT_COMMIT, GIT_PUSH, GH_PR_CREATE, PYTEST, TERRAFORM_PLAN, TERRAFORM_SHOW;
    GitTexts();
    OtherTexts();
    SpellsTwo(TF_REVIEW_SCHEMAS[0], "terraform", "plan");
    SpellsTwo(TF_REVIEW_SCHEMAS[1], "terraform", "show");
    SpellsTwo(PR_SCHEMAS[0], "git", "status");
    SpellsTwo(PR_SCHEMAS[1], "git", "diff");
    SpellsTwo(PR_SCHEMAS[2], "git", "checkout");
    SpellsTwo(PR_SCHEMAS[3], "git", "add");
    SpellsTwo(PR_SCHEMAS[4], "git", "commit");
    SpellsTwo(PR_SCHEMAS[5], "git", "push");
    SpellsThree(PR_SCHEMAS[6], "gh", "pr", "create");
    SpellsThree(PR_SCHEMAS[7], "python", "-m", "pytest");
  }

  lemma AllowedToolsAreDeclared(command: string)
    requires AllowedTools(command).Some?
    ensures forall t :: t in AllowedTools(command).value ==> t in TOOL_CAPABILITIES
  {
  }

  // Sequences that differ at one place, neither running out before it.
  lemma Part(a: seq<string>, b: seq<string>, k: nat)
    requires k < |a| && k < |b| && a[k] != b[k]
    ensures !Comparable(a, b)
  {
    assert |a| <= |b| ==> b[..|a|][k] == b[k];
    assert |b| <= |a| ==> a[..|b|][k] == a[k];
  }

  lemma PrefixesIncomparable()
    ensures Incomparable(TF_REVIEW_SCHEMAS) && Incomparable(PR_SCHEMAS)
  {
    assert "plan"[0] != "show"[0];
    Part(["terraform", "plan"], ["terraform", "show"], 1);
    assert "git"[1] != "gh"[1] && "git"[0] != "python"[0] && "gh"[0] != "python"[0];
    var subs := ["status", "diff", "checkout", "add", "commit", "push"];
    assert subs[0][0] == 's' && subs[1][0] == 'd' && subs[2][1] == 'h' && subs[3][0] == 'a' && subs[4][1] == 'o' && subs[5][0] == 'p';
    forall i, j | 0 <= i < j < |PR_SCHEMAS| ensures !Comparable(PR_SCHEMAS[i].prefix, PR_SCHEMAS[j].prefix) {
      if j < 6 {
        assert PR_SCHEMAS[i].prefix[1] == subs[i] && PR_SCHEMAS[j].prefix[1] == subs[j];
        Part(PR_SCHEMAS[i].prefix, PR_SCHEMAS[j].prefix, 1);
      } else {
        Part(PR_SCHEMAS[i].prefix, PR_SCHEMAS[j].prefix, 0);
      }
    }
  }

  // ---- from a command line to tokens -------------------------------------

  const FORBIDDEN_CHARS: set<char> :=
    {';', '&', '|', '<', '>', '`', '$', '(', ')', '{', '}', '[', ']', '*', '?', '~', '!', '\\', '\n', '\r', '\t', '\0'}

  // `shlex.split`; None is its ValueError. No value is given: it may split in any way.
  type Splitter = string -> Option<seq<string>>

  const Shlex: Splitter

  predicate HasTraversal(token: string)
  {
    || token == ".." || PyText.StartsWith(token, "../")
    || (exists i :: 0 <= i < |token| && PyText.StartsWith(token[i..], "/../"))
    || (|token| >= 3 && token[|token| - 3..] == "/..")
  }

  predicate IsAbsolute(token: string)
  {
    token != "" && token[0] == '/'
  }

  function Normalize(line: string): Option<seq<string>>
  {
    if PyText.Strip(line) == "" || exists c :: c in line && c in FORBIDDEN_CHARS then None
    else
      var argv := Shlex(line);
      if argv.None? || argv.value == [] then None
      else if exists t :: t in argv.value && (HasTraversal(t) || IsAbsolute(t)) then None
      else argv
  }

  // ---- validate and resolve ----------------------------------------------

  // The tool whose schema the line matches under the command, if it is allowed at all.
  ghost predicate Resolves(command: string, line: string, tool: string)
  {
    && Schemas(command).Some? && Normalize(line).Some?
    && exists s :: s in Schemas(command).value && InGrammar(s, Normalize(line).value) && s.tool == tool
  }

  method ResolveTool(command: string, line: string) returns (tool: Option<string>)
    ensures tool.Some? ==> forall t :: Resolves(command, line, t) <==> t == tool.value
    ensures tool.None? ==> forall t :: !Resolves(command, line, t)
  {
    var schemas := Schemas(command);
    var argv := Normalize(line);
    if schemas.None? || argv.None? || schemas.value == [] {
      return None;
    }
    var m := FirstMatch(schemas.value, argv.value);
    SchemasIncomparable(command);
    OrderDoesNotMatter(schemas.value, schemas.value, argv.value, m, m);
    match m
    case None =>
      assert forall s :: s in schemas.value ==> m != Some(s);
      return None;
    case Some(s) =>
      assert forall s' :: s' in schemas.value && InGrammar(s', argv.value) ==> m == Some(s');
      return Some(s.tool);
  }

  lemma SchemasIncomparable(command: string)
    requires Schemas(command).Some?
    ensures Incomparable(Schemas(command).value)
  {
    PrefixesIncomparable();
  }

  // A line the hook lets through counts as exactly one tool, the allowlist of its command grants
  // that tool, and the tool has a declared capability.
  lemma ResolvedIsGranted(command: string, line: string, tool: string)
    requires Resolves(command, line, tool)
    ensures AllowedTools(command).Some? && tool in AllowedTools(command).value && tool in TOOL_CAPABILITIES
    ensures forall other :: Resolves(command, line, other) ==> other == tool
  {
    hide InGrammar, Incomparable;
    GuardAndAllowlistAgree(command);
    AllowedToolsAreDeclared(command);
    SchemasIncomparable(command);
    var schemas, argv := Schemas(command).value, Normalize(line).value;
    var s :| s in schemas && InGrammar(s, argv) && s.tool == tool;
    forall other | Resolves(command, line, other) ensures other == tool {
      var o :| o in schemas && InGrammar(o, argv) && o.tool == other;
      var i :| 0 <= i < |schemas| && schemas[i] == s;
      var j :| 0 <= j < |schemas| && schemas[j] == o;
      OneSchemaMatches(schemas, argv, i, j);
    }
  }

  // What each tool may do at most: five only read, the other eight write little, and no more are declared.
  lemma DeclaredClasses(tool: string)
    ensures tool in TOOL_CAPABILITIES && TOOL_CAPABILITIES[tool] == "read" <==>
              tool in {"Read", "Bash(git status:*)", "Bash(git diff:*)", "Bash(terraform plan:*)", "Bash(terraform show:*)"}
    ensures tool in TOOL_CAPABILITIES && TOOL_CAPABILITIES[tool] == "write-low" <==>
              tool in {"Edit", "Write", "Bash(git checkout:*)", "Bash(git add:*)", "Bash(git commit:*)", "Bash(git push:*)",
                       "Bash(gh pr create:*)", "Bash(python -m pytest:*)"}
    ensures tool in TOOL_CAPABILITIES ==> TOOL_CAPABILITIES[tool] == "read" || TOOL_CAPABILITIES[tool] == "write-low"
  {
    assert |READ| == 4 && |WRITE_LOW| == 9;
  }

  // A review of a terraform change is given tools that read, a pull request every other one but the
  // two for terraform, the remaining three commands nothing, and no other command anything.
  lemma GrantedTools(command: string, tool: string)
    requires AllowedTools(command).Some?
    ensures command in {"logs", "detect", "diagnose", "tf-review", "pr"}
    ensures tool in AllowedTools(command).value <==>
              || (command == "tf-review" && tool in {"Read", "Bash(terraform plan:*)", "Bash(terraform show:*)"})
              || (command == "pr" && tool in TOOL_CAPABILITIES && tool != "Bash(terraform plan:*)" && tool != "Bash(terraform show:*)")
  {
    hide TOOL_CAPABILITIES;
    DeclaredClasses(tool);
    assert "pr"[0] == 'p' && "tf-review"[0] == 't';
  }
}
