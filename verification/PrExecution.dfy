/** The deterministic execute step: the fixed git and gh commands that open an approved pull request. */
module PrExecution {
  import opened Wrappers
  import opened Plan
  import Paths
  import PyText

  const MAX_TITLE_CHARS := 72
  const DEFAULT_TITLE := "Automated change"
  const FOOTER := "\n\n---\n:lock: Opened by the SlackOps DevOps agent after human approval of the diff. Branch protection requires a human to review and merge."

  datatype Command =
    | Checkout(branch: string)
    | Add(paths: seq<string>)
    | Commit(title: string)
    | Push
    | CreatePr(title: string, body: string)
    | DiffPr(url: string)

  // A command as it is run: with the environment of a grant, or without one.
  datatype Call = Call(command: Command, token: Option<string>)

  datatype Completed = Completed(returnCode: int, stdout: string, stderr: string)

  // The processes a run may start: what each answers is not known beforehand.
  class Runner {
    const answers: nat -> Completed
    var trace: seq<Call>

    constructor (answers: nat -> Completed)
      ensures trace == [] && this.answers == answers
    {
      this.answers := answers;
      trace := [];
    }

    method Run(command: Command, token: Option<string>) returns (r: Completed)
      modifies this`trace
      ensures trace == old(trace) + [Call(command, token)] && r == answers(|old(trace)|)
    {
      r := answers(|trace|);
      trace := trace + [Call(command, token)];
    }
  }

  // `re.search` for a pull request address. No value is given: it may find any part of the text.
  type Search = string -> Option<string>

  const FindPrUrl: Search

  function ExtractPrUrl(created: Completed): Option<string>
  {
    var found := FindPrUrl(created.stdout);
    if found.Some? then found else FindPrUrl(created.stderr)
  }

  function BranchName(plan: ExecutionPlan): string
  {
    var digest := Digest(plan);
    "slackops/pr-" + if |digest| <= 12 then digest else digest[..12]
  }

  function Title(description: string): string
  {
    var lines := PyText.SplitLines(PyText.Strip(description));
    var first := if lines == [] then DEFAULT_TITLE else PyText.Strip(lines[0]);
    var title := PyText.TrimRight(if |first| <= MAX_TITLE_CHARS then first else first[..MAX_TITLE_CHARS]);
    if title == "" then DEFAULT_TITLE else title
  }

  function PrBody(description: string): string
  {
    PyText.Strip(description) + FOOTER
  }

  // ---- what a request is turned into -------------------------------------

  // The branch is named after the plan: the beginning of its digest, twelve characters unless it is shorter.
  lemma BranchIs(plan: ExecutionPlan)
    ensures exists digest, rest :: Digest(plan) == digest + rest && BranchName(plan) == "slackops/pr-" + digest
                                   && |digest| <= 12 && (|digest| == 12 || rest == "")
  {
    var digest := Digest(plan);
    var n := if |digest| <= 12 then |digest| else 12;
    assert digest == digest[..n] + digest[n..];
    assert n == |digest| ==> digest[..n] == digest;
  }

  // The length of the first line, seventy-two at most.
  ghost predicate TitleRoom(m: string, n: nat)
  {
    && n <= |m| && n <= 72 && (forall i :: 0 <= i < n ==> !PyText.IsLineBreak(m[i]))
    && (n == 72 || n == |m| || PyText.IsLineBreak(m[n]))
  }

  // The title is that much of the stripped request, without white space at its end; an empty request
  // has the standard one.
  lemma TitleIs(description: string, m: string, n: nat)
    requires PyText.IsStripped(description, m) && TitleRoom(m, n)
    ensures m == "" ==> Title(description) == "Automated change"
    ensures m != "" ==> exists gap :: PyText.Blank(gap) && m[..n] == Title(description) + gap && Title(description) != ""
                                      && !PyText.IsSpace(Title(description)[|Title(description)| - 1])
  {
    hide PyText.IsSpace, PyText.IsLineBreak, PyText.Strip, PyText.IsStripped, PyText.TrimRight, PyText.SplitLines, PyText.Blank, TitleRoom;
    PyText.StripIs(description);
    PyText.StrippedOnce(description, m, PyText.Strip(description));
    if m == "" {
      NoTitle();
    } else {
      StartsPlain(description, m);
      FirstLine(m, n);
      var gap := ShortTitle(m, PyText.SplitLines(m)[0], n);
    }
  }

  lemma NoTitle()
    ensures PyText.SplitLines("") == [] && PyText.TrimRight(DEFAULT_TITLE) == "Automated change" == DEFAULT_TITLE
  {
    assert !PyText.IsSpace('e');
  }

  lemma StartsPlain(description: string, m: string)
    requires PyText.IsStripped(description, m) && m != ""
    ensures !PyText.IsSpace(m[0]) && !PyText.IsLineBreak(m[0])
  {
  }

  lemma LeftPlain(line: string)
    requires line != "" && !PyText.IsSpace(line[0])
    ensures var s := PyText.Strip(line);
            && s != "" && |s| <= |line| && s == line[..|s|] && forall i :: |s| <= i < |line| ==> PyText.IsSpace(line[i])
  {
    hide PyText.IsSpace, PyText.Strip;
    var s := PyText.Strip(line);
    PyText.StripIs(line);
    var a, b :| PyText.Blank(a) && PyText.Blank(b) && line == a + s + b;
    PyText.StrippedExtent(line, a, s, b);
    assert a == "";
  }

  lemma RightTrimmed(cut: string)
    requires cut != "" && !PyText.IsSpace(cut[0])
    ensures var t := PyText.TrimRight(cut);
            && t != "" && |t| <= |cut| && t == cut[..|t|] && !PyText.IsSpace(t[|t| - 1])
            && forall i :: |t| <= i < |cut| ==> PyText.IsSpace(cut[i])
  {
    hide PyText.IsSpace, PyText.TrimRight;
    var rest := PyText.TrimRightIs(cut);
    var t := PyText.TrimRight(cut);
    assert forall i :: |t| <= i < |cut| ==> cut[i] == rest[i - |t|];
  }

  lemma ShortTitle(m: string, line: string, n: nat) returns (gap: string)
    requires line != "" && |line| <= |m| && line == m[..|line|] && !PyText.IsSpace(m[0])
    requires n == if |line| <= 72 then |line| else 72
    ensures var first := PyText.Strip(line);
            var title := PyText.TrimRight(if |first| <= 72 then first else first[..72]);
            title != "" && m[..n] == title + gap && PyText.Blank(gap) && !PyText.IsSpace(title[|title| - 1])
  {
    hide PyText.IsSpace, PyText.Strip, PyText.TrimRight;
    var first := PyText.Strip(line);
    LeftPlain(line);
    var cut := if |first| <= 72 then first else first[..72];
    RightTrimmed(cut);
    var title := PyText.TrimRight(cut);
    assert forall i :: 0 <= i < |cut| ==> m[i] == cut[i];
    assert forall i :: 0 <= i < |line| ==> m[i] == line[i];
    gap := m[|title|..n];
    assert m[..n] == title + gap;
  }

  lemma FirstLine(m: string, n: nat)
    requires m != "" && !PyText.IsLineBreak(m[0]) && TitleRoom(m, n)
    ensures var lines := PyText.SplitLines(m);
            && lines != [] && lines[0] != "" && |lines[0]| <= |m| && lines[0] == m[..|lines[0]|]
            && n == (if |lines[0]| <= 72 then |lines[0]| else 72)
  {
    hide PyText.IsLineBreak;
    PyText.LineLengthIs(m);
    var k := PyText.LineLength(m);
    assert forall i :: 0 <= i < k ==> !PyText.IsLineBreak(m[..k][i]);
    assert forall i :: 0 <= i < k ==> m[..k][i] == m[i];
    assert k == |m| ==> m[..k] == m;
  }

  // The body is the stripped request and a note that a person approved it and another review follows.
  lemma BodyIs(description: string, m: string)
    requires PyText.IsStripped(description, m)
    ensures PrBody(description) == m + "\n\n---\n:lock: Opened by the SlackOps DevOps agent after human approval of the diff. Branch protection requires a human to review and merge."
  {
    hide PyText.Strip, PyText.IsStripped;
    PyText.StripIs(description);
    PyText.StrippedOnce(description, m, PyText.Strip(description));
  }

  // ---- the script --------------------------------------------------------

  // The six commands, in order, with the environment each gets.
  function Script(description: string, plan: ExecutionPlan, token: string, url: string): (calls: seq<Call>)
    ensures |calls| == 6
  {
    [ Call(Checkout(BranchName(plan)), None),
      Call(Add(plan.paths), None),
      Call(Commit(Title(description)), None),
      Call(Push, Some(token)),
      Call(CreatePr(Title(description), PrBody(description)), Some(token)),
      Call(DiffPr(url), Some(token)) ]
  }

  datatype PrError = StepFailed | NoUrl | RemoteUnreadable | RemoteDiffers

  // The address printed by the creation that is the fifth answer from `base` on.
  function UrlAt(answers: nat -> Completed, base: nat): string
  {
    var url := ExtractPrUrl(answers(base + 4));
    if url.Some? then url.value else ""
  }

  // Every command succeeds, an address is found, and the pull request changes exactly the planned paths.
  ghost predicate Succeeds(answers: nat -> Completed, base: nat, plan: ExecutionPlan)
  {
    && (forall k :: base <= k < base + 6 ==> answers(k).returnCode == 0)
    && ExtractPrUrl(answers(base + 4)).Some?
    && Paths.ChangedPaths(answers(base + 5).stdout) == Ok(plan.paths)
  }

  // The commands run are the first n of the script; all but perhaps the last succeeded.
  ghost predicate RanScript(runner: Runner, was: seq<Call>, description: string, plan: ExecutionPlan, token: string, n: nat)
    reads runner
  {
    && 1 <= n <= 6
    && runner.trace == was + Script(description, plan, token, UrlAt(runner.answers, |was|))[..n]
    && forall k :: |was| <= k < |was| + n - 1 ==> runner.answers(k).returnCode == 0
  }

  ghost predicate RanSome(runner: Runner, was: seq<Call>, description: string, plan: ExecutionPlan, token: string)
    reads runner
  {
    exists n :: RanScript(runner, was, description, plan, token, n)
  }

  // Whichever commands are run, the credential is in the environment of the push, the creation and
  // the reading back of the pull request, and of no other.
  lemma GrantReachesThreeCommands(runner: Runner, was: seq<Call>, description: string, plan: ExecutionPlan, token: string, n: nat)
    requires RanScript(runner, was, description, plan, token, n)
    ensures |runner.trace| == |was| + n && runner.trace[..|was|] == was
    ensures forall k :: |was| <= k < |runner.trace| ==>
              var c := runner.trace[k];
              (c.token == Some(token) <==> c.command.Push? || c.command.CreatePr? || c.command.DiffPr?)
              && (c.token == None <==> c.command.Checkout? || c.command.Add? || c.command.Commit?)
  {
    hide BranchName, Title, PrBody;
    var script := Script(description, plan, token, UrlAt(runner.answers, |was|));
    forall k | |was| <= k < |runner.trace| ensures runner.trace[k] == script[k - |was|] {
      assert script[..n][k - |was|] == script[k - |was|];
    }
  }

  method OpenPr(runner: Runner, description: string, plan: ExecutionPlan, token: string) returns (r: Result<string, PrError>)
    modifies runner`trace
    ensures r.Ok? <==> Succeeds(runner.answers, |old(runner.trace)|, plan)
    ensures r.Ok? ==> RanScript(runner, old(runner.trace), description, plan, token, 6)
                      && r.value == UrlAt(runner.answers, |old(runner.trace)|)
    ensures RanSome(runner, old(runner.trace), description, plan, token)
    ensures r.Ok? ==>
              var created := runner.answers(|old(runner.trace)| + 4);
              Some(r.value) == if FindPrUrl(created.stdout).Some? then FindPrUrl(created.stdout) else FindPrUrl(created.stderr)
  {
    hide Script, BranchName, Title, PrBody, Paths.ChangedPaths;
    ghost var was := runner.trace;
    ghost var script := Script(description, plan, token, UrlAt(runner.answers, |was|));
    ScriptIs(description, plan, token, UrlAt(runner.answers, |was|));
    var a := runner.Run(Checkout(BranchName(plan)), None);
    assert RanScript(runner, was, description, plan, token, 1);
    if a.returnCode != 0 {
      return Err(StepFailed);
    }
    var b := runner.Run(Add(plan.paths), None);
    assert RanScript(runner, was, description, plan, token, 2) by { OneMore(script, 1); }
    if b.returnCode != 0 {
      return Err(StepFailed);
    }
    var c := runner.Run(Commit(Title(description)), None);
    assert RanScript(runner, was, description, plan, token, 3) by { OneMore(script, 2); }
    if c.returnCode != 0 {
      return Err(StepFailed);
    }
    r := PushAndCreate(runner, was, description, plan, token);
  }

  // The three commands with the grant.
  method PushAndCreate(runner: Runner, ghost was: seq<Call>, description: string, plan: ExecutionPlan, token: string)
    returns (r: Result<string, PrError>)
    requires RanScript(runner, was, description, plan, token, 3) && runner.answers(|was| + 2).returnCode == 0
    modifies runner`trace
    ensures r.Ok? <==> Succeeds(runner.answers, |was|, plan)
    ensures r.Ok? ==> RanScript(runner, was, description, plan, token, 6) && r.value == UrlAt(runner.answers, |was|)
    ensures RanSome(runner, was, description, plan, token)
    ensures r.Ok? ==>
              var created := runner.answers(|was| + 4);
              Some(r.value) == if FindPrUrl(created.stdout).Some? then FindPrUrl(created.stdout) else FindPrUrl(created.stderr)
  {
    hide Script, BranchName, Title, PrBody, Paths.ChangedPaths;
    ghost var script := Script(description, plan, token, UrlAt(runner.answers, |was|));
    ScriptIs(description, plan, token, UrlAt(runner.answers, |was|));
    var d := runner.Run(Push, Some(token));
    assert RanScript(runner, was, description, plan, token, 4) by { OneMore(script, 3); }
    if d.returnCode != 0 {
      return Err(StepFailed);
    }
    var created := runner.Run(CreatePr(Title(description), PrBody(description)), Some(token));
    assert RanScript(runner, was, description, plan, token, 5) by { OneMore(script, 4); }
    if created.returnCode != 0 {
      return Err(StepFailed);
    }
    var url := ExtractPrUrl(created);
    if url.None? {
      return Err(NoUrl);
    }
    var shown := runner.Run(DiffPr(url.value), Some(token));
    assert RanScript(runner, was, description, plan, token, 6) by { OneMore(script, 5); }
    if shown.returnCode != 0 {
      return Err(RemoteUnreadable);
    }
    var remote := Paths.ChangedPaths(shown.stdout);
    if remote.Err? {
      return Err(RemoteUnreadable);
    }
    if remote.value != plan.paths {
      return Err(RemoteDiffers);
    }
    return Ok(url.value);
  }

  lemma OneMore(script: seq<Call>, k: nat)
    requires k < |script|
    ensures script[..k + 1] == script[..k] + [script[k]]
  {
  }

  lemma ScriptIs(description: string, plan: ExecutionPlan, token: string, url: string)
    ensures var s := Script(description, plan, token, url);
            && s[..1] == [Call(Checkout(BranchName(plan)), None)] && s[1] == Call(Add(plan.paths), None)
            && s[2] == Call(Commit(Title(description)), None) && s[3] == Call(Push, Some(token))
            && s[4] == Call(CreatePr(Title(description), PrBody(description)), Some(token))
            && s[5] == Call(DiffPr(url), Some(token))
  {
  }
}
