/**
 The command lines a model may run, listed form by form. The guard works from its schema tables;
 the list here is written down apart from them, and the two are proved to allow the same lines.
 */
module ShellLines {
  import opened Wrappers
  import opened Guard
  import opened Policy
  import PyText

  // The words a line starts with, its flags without and with a value, and how long and how many
  // its other arguments may be.
  datatype Shape = Shape(words: seq<string>, plain: set<string>, valued: set<string>, longest: nat, most: nat)

  function ShapeOf(command: string, tool: string): Option<Shape>
  {
    if command == "tf-review" then
      if tool == "Bash(terraform plan:*)" then Some(Shape(["terraform", "plan"], {"-no-color"}, {"-input"}, 0, 0))
      else if tool == "Bash(terraform show:*)" then Some(Shape(["terraform", "show"], {"-no-color", "-json"}, {}, 0, 0))
      else None
    else if command == "pr" then
      if tool == "Bash(git status:*)" then Some(Shape(["git", "status"], {"--porcelain", "--short"}, {}, 0, 0))
      else if tool == "Bash(git diff:*)" then
        Some(Shape(["git", "diff"], {"--no-ext-diff", "--binary", "--staged", "--cached", "--stat"}, {}, 200, 1))
      else if tool == "Bash(git checkout:*)" then Some(Shape(["git", "checkout", "-b"], {}, {}, 100, 1))
      else if tool == "Bash(git add:*)" then Some(Shape(["git", "add"], {"-A", "--all"}, {}, 200, 50))
      else if tool == "Bash(git commit:*)" then Some(Shape(["git", "commit"], {}, {"-m", "--message"}, 0, 0))
      else if tool == "Bash(git push:*)" then Some(Shape(["git", "push"], {"-u", "--set-upstream"}, {}, 100, 2))
      else if tool == "Bash(gh pr create:*)" then
        Some(Shape(["gh", "pr", "create"], {"--draft"}, {"--title", "--body", "--base", "--head"}, 0, 0))
      else if tool == "Bash(python -m pytest:*)" then
        Some(Shape(["python", "-m", "pytest"], {"-q", "--quiet", "-x"}, {"--tb"}, 200, 20))
      else None
    else None
  }

  // The length of a text, a final line feed not counted.
  function Extent(s: string): nat
  {
    if s != "" && s[|s| - 1] == '\n' then |s| - 1 else |s|
  }

  predicate IsPathText(token: string, longest: nat)
  {
    && 1 <= Extent(token) <= longest
    && ('A' <= token[0] <= 'Z' || 'a' <= token[0] <= 'z' || '0' <= token[0] <= '9')
    && forall i :: 0 <= i < Extent(token) ==>
         || 'A' <= token[i] <= 'Z' || 'a' <= token[i] <= 'z' || '0' <= token[i] <= '9'
         || token[i] == '.' || token[i] == '_' || token[i] == '/' || token[i] == '-'
  }

  // No control character, and at most two thousand characters.
  predicate IsValueText(value: string)
  {
    1 <= Extent(value) <= 2000 && forall i :: 0 <= i < Extent(value) ==> value[i] as int >= 32
  }

  predicate IsArg(shape: Shape, arg: Arg)
  {
    match arg
    case Bare(name, _) => name in shape.plain
    case Inline(name, value) => name in shape.valued && IsValueText(value)
    case Spaced(name, _, value) => name in shape.valued && IsValueText(value)
    case Positional(token) => IsPathText(token, shape.longest)
  }

  ghost predicate HasForm(shape: Shape, argv: seq<string>)
  {
    exists args :: argv == shape.words + Yield(args) && AreArgs(shape, args)
  }

  ghost predicate AreArgs(shape: Shape, args: seq<Arg>)
  {
    Positionals(args) <= shape.most && forall i :: 0 <= i < |args| ==> IsArg(shape, args[i])
  }

  // ---- tokens ------------------------------------------------------------

  lemma FitsIs(p: Pattern, token: string)
    ensures Fits(p, token) <==> IsPathText(token, if p.Branch? then 100 else 200)
  {
    var body := Body(token);
    assert |body| == Extent(token) && forall i :: 0 <= i < |body| ==> body[i] == token[i];
  }

  lemma IsTextIs(value: string)
    ensures IsText(value) <==> IsValueText(value)
  {
    var body := Body(value);
    assert |body| == Extent(value) && forall i :: 0 <= i < |body| ==> body[i] == value[i];
  }

  // Two dots between slashes, or between a slash and an end, or alone.
  predicate DotsAt(s: string, i: nat)
  {
    i + 2 <= |s| && s[i] == '.' && s[i + 1] == '.' && (i == 0 || s[i - 1] == '/') && (i + 2 == |s| || s[i + 2] == '/')
  }

  lemma InnerDots(s: string, i: nat)
    requires i < |s|
    ensures PyText.StartsWith(s[i..], "/../") <==> i + 4 <= |s| && s[i] == '/' && DotsAt(s, i + 1) && s[i + 3] == '/'
  {
    if i + 4 <= |s| {
      assert s[i..][..4] == [s[i], s[i + 1], s[i + 2], s[i + 3]];
    }
  }

  lemma OuterDots(s: string)
    ensures s == ".." || PyText.StartsWith(s, "../") <==> DotsAt(s, 0)
    ensures |s| >= 3 ==> (s[|s| - 3..] == "/.." <==> DotsAt(s, |s| - 2))
  {
    if |s| >= 3 {
      assert s[..3] == [s[0], s[1], s[2]] && s[|s| - 3..] == [s[|s| - 3], s[|s| - 2], s[|s| - 1]];
    }
  }

  lemma TraversalIsDots(s: string)
    ensures HasTraversal(s) <==> exists i: nat :: DotsAt(s, i)
  {
    hide PyText.StartsWith;
    OuterDots(s);
    if i: nat :| DotsAt(s, i) {
      if i > 0 && i + 2 < |s| {
        InnerDots(s, i - 1);
        assert PyText.StartsWith(s[i - 1..], "/../");
      } else if i > 0 {
        assert i == |s| - 2;
      }
    }
    if HasTraversal(s) && !DotsAt(s, 0) && !(|s| >= 3 && s[|s| - 3..] == "/..") {
      var i :| 0 <= i < |s| && PyText.StartsWith(s[i..], "/../");
      InnerDots(s, i);
      assert DotsAt(s, i + 1);
    }
  }

  lemma {:induction false} DotsArePieces(s: string)
    ensures (exists i: nat :: DotsAt(s, i)) <==> ".." in PyText.Split(s, '/')
    decreases |s|
  {
    var p := PyText.Before(s, '/');
    PyText.BeforeIs(s, '/');
    if |p| == |s| {
      PyText.SplitPiece(s, "", '/');
      OnePiece(s);
    } else {
      var rest := s[|p| + 1..];
      assert s == p + ['/'] + rest;
      PyText.SplitPiece(p, rest, '/');
      DotsArePieces(rest);
      FirstPiece(s, p, rest);
    }
  }

  lemma OnePiece(s: string)
    requires '/' !in s
    ensures (exists i: nat :: DotsAt(s, i)) <==> s == ".."
  {
    if s == ".." {
      assert DotsAt(s, 0);
    }
  }

  lemma FirstPiece(s: string, p: string, rest: string)
    requires s == p + ['/'] + rest && '/' !in p
    ensures (exists i: nat :: DotsAt(s, i)) <==> p == ".." || exists i: nat :: DotsAt(rest, i)
  {
    forall i: nat ensures DotsAt(s, |p| + 1 + i) <==> DotsAt(rest, i) {
      assert i > 0 && i <= |rest| ==> s[|p| + i] == rest[i - 1];
    }
    if p == ".." {
      assert DotsAt(s, 0);
    }
    assert forall k :: 0 <= k < |p| ==> s[k] == p[k] && s[k] != '/';
    if i: nat :| DotsAt(s, i) && i <= |p| {
      assert i == 0 && |p| == 2;
    }
    if i: nat :| DotsAt(s, i) && i > |p| {
      assert DotsAt(rest, i - |p| - 1);
    }
  }

  lemma TokenIsPlain(t: string)
    ensures HasTraversal(t) <==> ".." in PyText.Split(t, '/')
  {
    TraversalIsDots(t);
    DotsArePieces(t);
  }

  // ---- schemas -----------------------------------------------------------

  ghost predicate HasShape(s: ArgSchema, shape: Shape)
  {
    && s.prefix == shape.words && s.maxPositional == shape.most
    && (forall n :: n in s.flags <==> n in shape.plain || n in shape.valued)
    && (forall n :: n in shape.plain ==> IsName(n) && n in s.flags && !s.flags[n])
    && (forall n :: n in shape.valued ==> IsName(n) && n in s.flags && s.flags[n])
    && (if shape.longest == 0 then s.positional.None? else s.positional.Some? && MaxLength(s.positional.value) == shape.longest)
  }

  lemma SameArg(s: ArgSchema, shape: Shape, arg: Arg)
    requires HasShape(s, shape)
    ensures Permitted(s, arg) <==> IsArg(shape, arg)
  {
    match arg
    case Bare(_, _) =>
    case Inline(_, value) => IsTextIs(value);
    case Spaced(_, _, value) => IsTextIs(value);
    case Positional(token) =>
      FitsIs(Branch, token);
      FitsIs(RepoPath, token);
  }

  lemma SameForm(s: ArgSchema, shape: Shape, argv: seq<string>)
    requires HasShape(s, shape)
    ensures InGrammar(s, argv) <==> HasForm(shape, argv)
  {
    hide IsArg, Permitted;
    forall arg ensures Permitted(s, arg) <==> IsArg(shape, arg) {
      SameArg(s, shape, arg);
    }
    var n := |s.prefix|;
    if InGrammar(s, argv) {
      var args :| Derives(s, args, argv[n..], s.maxPositional);
      assert argv == shape.words + Yield(args) && AreArgs(shape, args);
    }
    if HasForm(shape, argv) {
      var args :| argv == shape.words + Yield(args) && AreArgs(shape, args);
      assert argv[..n] == s.prefix && argv[n..] == Yield(args);
      assert Derives(s, args, argv[n..], s.maxPositional);
    }
  }

  // ---- the two tables ----------------------------------------------------

  lemma ReviewShape(i: nat)
    requires i < |TF_REVIEW_SCHEMAS|
    ensures Listed("tf-review", TF_REVIEW_SCHEMAS[i])
  {
  }

  // The schema allows the lines of the shape listed for its tool.
  ghost predicate Listed(command: string, s: ArgSchema)
  {
    ShapeOf(command, s.tool).Some? && HasShape(s, ShapeOf(command, s.tool).value)
  }

  lemma StatusShape()
    ensures Listed("pr", PR_SCHEMAS[0])
  {
  }

  lemma DiffShape()
    ensures Listed("pr", PR_SCHEMAS[1])
  {
  }

  lemma BranchShape(i: nat)
    requires 2 <= i < 4
    ensures Listed("pr", PR_SCHEMAS[i])
  {
  }

  lemma CommitShape(i: nat)
    requires 4 <= i < 6
    ensures Listed("pr", PR_SCHEMAS[i])
  {
  }

  lemma CreateShape()
    ensures Listed("pr", PR_SCHEMAS[6])
  {
  }

  lemma TestShape()
    ensures Listed("pr", PR_SCHEMAS[7])
  {
  }

  lemma EverySchemaListed(command: string)
    requires Schemas(command).Some?
    ensures forall i :: 0 <= i < |Schemas(command).value| ==> Listed(command, Schemas(command).value[i])
  {
    hide Listed;
    forall i | 0 <= i < |Schemas(command).value| ensures Listed(command, Schemas(command).value[i]) {
      if command == "tf-review" {
        ReviewShape(i);
      } else if i == 0 {
        StatusShape();
      } else if i == 1 {
        DiffShape();
      } else if i < 4 {
        BranchShape(i);
      } else if i < 6 {
        CommitShape(i);
      } else if i == 6 {
        CreateShape();
      } else {
        TestShape();
      }
    }
  }

  lemma EveryShapeHasASchema(command: string, tool: string)
    requires ShapeOf(command, tool).Some?
    ensures Schemas(command).Some? && exists i :: 0 <= i < |Schemas(command).value| && Schemas(command).value[i].tool == tool
  {
    var tools := if command == "pr" then [GIT_STATUS, GIT_DIFF, GIT_CHECKOUT, GIT_ADD, GIT_COMMIT, GIT_PUSH, GH_PR_CREATE, PYTEST]
                 else [TERRAFORM_PLAN, TERRAFORM_SHOW];
    assert tool in tools;
    var i :| 0 <= i < |tools| && tools[i] == tool;
    assert Schemas(command).value[i].tool == tools[i];
  }

  lemma NormalizedIs(line: string)
    ensures Normalize(line).Some? <==>
              && (forall c :: c in line ==>
                    c !in {';', '&', '|', '<', '>', '`', '$', '(', ')', '{', '}', '[', ']', '*', '?', '~', '!', '\\', '\n', '\r', '\t', '\0'})
              && (exists c :: c in line && !PyText.IsSpace(c))
              && Shlex(line).Some? && Shlex(line).value != []
              && (forall t :: t in Shlex(line).value ==> (t == "" || t[0] != '/') && ".." !in PyText.Split(t, '/'))
    ensures Normalize(line).Some? ==> Normalize(line) == Shlex(line)
  {
    hide HasTraversal, PyText.Split, PyText.Strip, PyText.IsSpace;
    forall t ensures HasTraversal(t) <==> ".." in PyText.Split(t, '/') {
      TokenIsPlain(t);
    }
    BlankLine(line);
  }

  lemma BlankLine(line: string)
    ensures PyText.Strip(line) == "" <==> !exists c :: c in line && !PyText.IsSpace(c)
  {
    hide PyText.Strip, PyText.IsSpace;
    PyText.StripIs(line);
    var m := PyText.Strip(line);
    var a, b :| PyText.Blank(a) && PyText.Blank(b) && line == a + m + b;
    PyText.StrippedExtent(line, a, m, b);
    if m != "" {
      assert line[|a|] in line;
    }
  }

  // Exactly these shell lines are allowed, and they count as these tools.
  lemma AllowedLines(command: string, line: string, tool: string)
    ensures Resolves(command, line, tool) <==>
              && (forall c :: c in line ==>
                    c !in {';', '&', '|', '<', '>', '`', '$', '(', ')', '{', '}', '[', ']', '*', '?', '~', '!', '\\', '\n', '\r', '\t', '\0'})
              && (exists c :: c in line && !PyText.IsSpace(c))
              && Shlex(line).Some? && Shlex(line).value != []
              && (forall t :: t in Shlex(line).value ==> (t == "" || t[0] != '/') && ".." !in PyText.Split(t, '/'))
              && ShapeOf(command, tool).Some? && HasForm(ShapeOf(command, tool).value, Shlex(line).value)
  {
    hide HasForm, InGrammar, ShapeOf, Schemas, HasShape, HasTraversal, PyText.Split, PyText.Strip;
    NormalizedIs(line);
    if Schemas(command).Some? {
      EverySchemaListed(command);
      forall s, argv | s in Schemas(command).value ensures InGrammar(s, argv) <==> HasForm(ShapeOf(command, s.tool).value, argv) {
        SameForm(s, ShapeOf(command, s.tool).value, argv);
      }
    }
    if ShapeOf(command, tool).Some? {
      EveryShapeHasASchema(command, tool);
    }
  }

  // ---- the hook ----------------------------------------------------------

  // What the hook sees of a tool call: its input is a dict or not, its command a string or not.
  datatype ToolInput = Malformed | Fields(command: Option<string>)

  datatype ToolUse = ToolUse(toolName: Option<string>, input: ToolInput)

  // The shell line of a well-formed shell call.
  ghost predicate Runs(use: ToolUse, line: string)
  {
    use.toolName == Some("Bash") && use.input.Fields? && use.input.command == Some(line)
  }

  // `command` is what the runtime configured, if anything.
  method HookAllows(use: ToolUse, command: Option<string>) returns (allow: bool)
    ensures allow <==>
              || use.toolName != Some("Bash")
              || (command.Some? && command.value != "" && exists line, tool :: Runs(use, line) && Resolves(command.value, line, tool))
    ensures forall line, c :: allow && Runs(use, line) && c in line ==>
              c !in {';', '&', '|', '<', '>', '`', '$', '(', ')', '{', '}', '[', ']', '*', '?', '~', '!', '\\', '\n', '\r', '\t', '\0'}
  {
    hide Resolves;
    if use.toolName != Some("Bash") {
      return true;
    }
    if command.None? || command.value == "" || use.input.Malformed? || use.input.command.None? {
      return false;
    }
    var tool := ResolveTool(command.value, use.input.command.value);
    if tool.Some? {
      assert Runs(use, use.input.command.value) && Resolves(command.value, use.input.command.value, tool.value);
      AllowedLines(command.value, use.input.command.value, tool.value);
    }
    return tool.Some?;
  }
}
