/** Write credentials: minted for one approved execute step and revoked when it ends, however it ends. */
module Grants {
  import opened Wrappers
  import opened Jobs
  import opened Plan
  import opened Credentials
  import opened Capabilities
  import opened PrExecution
  import opened AuditStore
  import opened AuditEvents
  import opened Trail
  import PyText

  const MAX_DESCRIPTION_CHARS := 2000

  // Asked for tokens, one after the other: it raises, or answers with a token, which may be empty.
  class GrantIssuer {
    const mint: nat -> Option<string>
    var asked: nat
    var issued: seq<string>
    var revoked: seq<string>

    constructor (mint: nat -> Option<string>)
      ensures asked == 0 && issued == [] && revoked == [] && this.mint == mint
    {
      this.mint := mint;
      asked, issued, revoked := 0, [], [];
    }

    method Issue() returns (token: Option<string>)
      modifies this`asked, this`issued
      ensures token == mint(old(asked)) && asked == old(asked) + 1
      ensures issued == old(issued) + if token.Some? then [token.value] else []
    {
      token := mint(asked);
      asked := asked + 1;
      if token.Some? {
        issued := issued + [token.value];
      }
    }

    method Revoke(token: string)
      modifies this`revoked
      ensures revoked == old(revoked) + [token]
    {
      revoked := revoked + [token];
    }
  }

  // ---- what the step is given, and how it may end ------------------------

  // The write credential configuration: absent, incomplete, or for one repository.
  datatype Provider = NotConfigured | PartlyConfigured | Configured(repository: string)

  // What the approved step meets: the configuration, whether the audit entry can be written, and
  // whether the scope still admits the command.
  datatype Terms = Terms(provider: Provider, auditable: bool, inScope: bool)

  // A text for the requester: the pull request, or why there is none.
  datatype Ending = BadDescription | OutOfScope | NoCredential | ScriptFailed | Opened(url: string)

  // What the execute step brings to an end: a text, or an exception that reaches the worker.
  datatype StepResult = Summary(ending: Ending) | BindingRejected | IssuerRaised | NoToken | StepRaised

  // `owner/name`, slashes at either end aside.
  predicate IsRepository(repository: string)
  {
    exists i :: 0 < i < |repository| - 1 && repository[i] == '/'
                && (exists j :: 0 <= j < i && repository[j] != '/') && (exists j :: i < j < |repository| && repository[j] != '/')
  }

  function WithoutSlashes(s: string): string
  {
    if s != "" && s[0] == '/' then WithoutSlashes(s[1..])
    else if s != "" && s[|s| - 1] == '/' then WithoutSlashes(s[..|s| - 1])
    else s
  }

  // Once the slashes at both ends are off, there is one left.
  lemma {:induction false} RepositoryIs(repository: string)
    ensures IsRepository(repository) <==> '/' in WithoutSlashes(repository)
    decreases |repository|
  {
    var s := repository;
    if s != "" && s[0] == '/' {
      RepositoryIs(s[1..]);
      SlashInFront(s[1..]);
      assert s == "/" + s[1..];
    } else if s != "" && s[|s| - 1] == '/' {
      RepositoryIs(s[..|s| - 1]);
      SlashBehind(s[..|s| - 1]);
      assert s == s[..|s| - 1] + "/";
    } else if '/' in s {
      var i :| 0 <= i < |s| && s[i] == '/';
      assert s[0] != '/' && s[|s| - 1] != '/';
    }
  }

  // A slash with something else before and after it.
  predicate Parted(s: string, j: nat, i: nat, k: nat)
  {
    j < i < k < |s| && s[j] != '/' && s[i] == '/' && s[k] != '/'
  }

  lemma PartedIs(s: string)
    ensures IsRepository(s) <==> exists j: nat, i: nat, k: nat :: Parted(s, j, i, k)
  {
    if IsRepository(s) {
      var i :| 0 < i < |s| - 1 && s[i] == '/' && (exists j :: 0 <= j < i && s[j] != '/') && (exists j :: i < j < |s| && s[j] != '/');
      var j :| 0 <= j < i && s[j] != '/';
      var k :| i < k < |s| && s[k] != '/';
      assert Parted(s, j, i, k);
    }
    if j: nat, i: nat, k: nat :| Parted(s, j, i, k) {
      assert s[i] == '/';
    }
  }

  lemma SlashInFront(t: string)
    ensures IsRepository("/" + t) <==> IsRepository(t)
  {
    hide IsRepository;
    var s := "/" + t;
    PartedIs(s);
    PartedIs(t);
    assert forall i :: 0 < i < |s| ==> s[i] == t[i - 1];
    if j: nat, i: nat, k: nat :| Parted(t, j, i, k) {
      assert Parted(s, j + 1, i + 1, k + 1);
    }
    if j: nat, i: nat, k: nat :| Parted(s, j, i, k) {
      assert Parted(t, j - 1, i - 1, k - 1);
    }
  }

  lemma SlashBehind(t: string)
    ensures IsRepository(t + "/") <==> IsRepository(t)
  {
    hide IsRepository;
    var s := t + "/";
    PartedIs(s);
    PartedIs(t);
    assert forall j: nat, i: nat, k: nat :: Parted(s, j, i, k) <==> Parted(t, j, i, k);
  }

  // All that must hold before a token is asked for.
  predicate Grantable(job: Job, plan: ExecutionPlan, terms: Terms)
  {
    terms.provider.Configured? && RequireApprovalBinding(job, plan).Ok? && IsRepository(terms.provider.repository)
  }

  predicate Usable(token: Option<string>)
  {
    token.Some? && token.value != ""
  }

  predicate BadText(description: string)
  {
    description == "" || |description| > MAX_DESCRIPTION_CHARS
  }

  // A request is too short or too long by what is left of it without white space at its ends.
  lemma BadTextIs(args: string, m: string)
    requires PyText.IsStripped(args, m)
    ensures BadText(PyText.Strip(args)) <==> |m| == 0 || |m| > 2000
  {
    hide PyText.Strip, PyText.IsStripped;
    PyText.StripIs(args);
    PyText.StrippedOnce(args, m, PyText.Strip(args));
  }

  // The commands are run: with a credential, for a description of admissible length, in scope.
  predicate RunsScript(job: Job, plan: ExecutionPlan, terms: Terms, token: Option<string>)
  {
    Grantable(job, plan, terms) && Usable(token) && terms.auditable && !BadText(PyText.Strip(job.request.args)) && terms.inScope
  }

  // The causes of every end. `token` is what the issuer would mint, `answers` from `base` on what
  // the commands would answer.
  ghost predicate Ended(job: Job, plan: ExecutionPlan, terms: Terms, token: Option<string>, answers: nat -> Completed, base: nat, r: StepResult)
  {
    match r
    case BindingRejected => terms.provider.Configured? && !Grantable(job, plan, terms)
    case IssuerRaised => Grantable(job, plan, terms) && token.None?
    case NoToken => Grantable(job, plan, terms) && token == Some("")
    case StepRaised => terms.provider.PartlyConfigured? || (Grantable(job, plan, terms) && Usable(token) && !terms.auditable)
    case Summary(ending) =>
      && (terms.provider.NotConfigured? || (Grantable(job, plan, terms) && Usable(token) && terms.auditable))
      && match ending
         case BadDescription => BadText(PyText.Strip(job.request.args))
         case OutOfScope => !BadText(PyText.Strip(job.request.args)) && !terms.inScope
         case NoCredential => !BadText(PyText.Strip(job.request.args)) && terms.inScope && terms.provider.NotConfigured?
         case ScriptFailed => RunsScript(job, plan, terms, token) && !Succeeds(answers, base, plan)
         case Opened(url) => RunsScript(job, plan, terms, token) && Succeeds(answers, base, plan) && url == UrlAt(answers, base)
  }

  // The causes leave one end.
  lemma OneEnd(job: Job, plan: ExecutionPlan, terms: Terms, token: Option<string>, answers: nat -> Completed, base: nat,
               r1: StepResult, r2: StepResult)
    requires Ended(job, plan, terms, token, answers, base, r1) && Ended(job, plan, terms, token, answers, base, r2)
    ensures r1 == r2
  {
    hide IsRepository, RequireApprovalBinding, Succeeds, PyText.Strip, UrlAt;
  }

  // A pull request is reported exactly when the binding holds, a token was minted, and all six
  // commands did what they should.
  lemma ReportedIffOpened(job: Job, plan: ExecutionPlan, terms: Terms, token: Option<string>, answers: nat -> Completed, base: nat, r: StepResult)
    requires Ended(job, plan, terms, token, answers, base, r)
    ensures r.Summary? && r.ending.Opened? <==> RunsScript(job, plan, terms, token) && Succeeds(answers, base, plan)
  {
    hide IsRepository, RequireApprovalBinding, Succeeds, PyText.Strip, UrlAt;
  }

  // The issuer is asked once or not at all; a token that is not empty is revoked once, after everything else.
  ghost predicate Bracketed(issuer: GrantIssuer, asked: nat, issued: seq<string>, revoked: seq<string>, asks: bool)
    reads issuer
  {
    var token := issuer.mint(asked);
    && issuer.asked == (if asks then asked + 1 else asked)
    && issuer.issued == (if asks && token.Some? then issued + [token.value] else issued)
    && issuer.revoked == (if asks && Usable(token) then revoked + [token.value] else revoked)
  }

  // The entry of a grant: the approval it answers to as its parent, the binding as its context.
  function GrantEntry(job: Job, plan: ExecutionPlan, repository: string, approvalHash: string, approval: string): TrailEntry
  {
    TrailEntry(WRITE_CREDENTIALS_ISSUED, "scoped write credential for " + repository,
               map["job_id" := job.id, "approval_hash" := approvalHash, "policy_version" := plan.policyVersion, "repository" := repository],
               approval, "sts:github-app-installation-token", plan.capabilities, "repo:" + repository, "")
  }

  // The event of a grant: which token for which repository, under which approval, for which job and plan.
  ghost predicate ShowsGrant(e: AuditEvent, job: Job, plan: ExecutionPlan, repository: string, approval: string)
  {
    && Says(e, "write_credentials_issued", "scoped write credential for " + repository, approval,
            "sts:github-app-installation-token", "repo:" + repository, "")
    && Notes(e, "job_id", job.id) && Notes(e, "repository", repository) && Notes(e, "policy_version", plan.policyVersion)
    && "approval_hash" in e.body.context && Some(e.body.context["approval_hash"]) == job.gate.approvalHash
    && e.step.capabilities == plan.capabilities
  }

  lemma GrantEntryShows(e: AuditEvent, job: Job, plan: ExecutionPlan, repository: string, approvalHash: string, approval: string)
    requires Wrote(e, GrantEntry(job, plan, repository, approvalHash, approval)) && RequireApprovalBinding(job, plan) == Ok(approvalHash)
    ensures ShowsGrant(e, job, plan, repository, approval)
  {
    hide Digest, RiskScore;
    var keys := ["job_id", "approval_hash", "policy_version", "repository"];
    assert keys[0][0] == 'j' && keys[1][0] == 'a' && keys[2][0] == 'p' && keys[3][0] == 'r';
  }

  function GrantEntries(job: Job, plan: ExecutionPlan, terms: Terms, token: Option<string>, approval: string): seq<TrailEntry>
  {
    if Grantable(job, plan, terms) && Usable(token) && terms.auditable then
      [GrantEntry(job, plan, terms.provider.repository, RequireApprovalBinding(job, plan).value, approval)]
    else []
  }

  // ---- the step ----------------------------------------------------------

  // `pr_write_grant` around the step, with the audit entry that names the approval it answers to.
  method ExecuteWithGrant(issuer: GrantIssuer, runner: Runner, audit: SqliteAuditStore, clock: nat -> string, job: Job,
                          plan: ExecutionPlan, terms: Terms) returns (r: StepResult, ghost approval: string)
    requires audit.Valid()
    modifies issuer, runner`trace, audit
    ensures audit.Valid()
    ensures Ended(job, plan, terms, issuer.mint(old(issuer.asked)), runner.answers, |old(runner.trace)|, r)
    ensures Bracketed(issuer, old(issuer.asked), old(issuer.issued), old(issuer.revoked), Grantable(job, plan, terms))
    ensures if RunsScript(job, plan, terms, issuer.mint(old(issuer.asked)))
            then RanSome(runner, old(runner.trace), PyText.Strip(job.request.args), plan, issuer.mint(old(issuer.asked)).value)
            else runner.trace == old(runner.trace)
    ensures r.Summary? && r.ending.Opened? ==>
              RanScript(runner, old(runner.trace), PyText.Strip(job.request.args), plan, issuer.mint(old(issuer.asked)).value, 6)
    ensures Extends(old(audit.log), audit.log, job.id, GrantEntries(job, plan, terms, issuer.mint(old(issuer.asked)), approval))
    ensures GrantEntries(job, plan, terms, issuer.mint(old(issuer.asked)), approval) != [] ==>
              DecisionSeen(old(Of(audit.log, job.id)), approval)
  {
    hide RequireApprovalBinding, RanScript, Succeeds, PyText.Strip, IsRepository, Extends, HasStep, Appended, DecisionSeen;
    Stays(audit.log, job.id);
    approval := "";
    match terms.provider
    case NotConfigured => r := OpenApproved(runner, job, plan, None, terms.inScope);
    case PartlyConfigured => r := StepRaised;
    case Configured(repository) =>
      var binding := RequireApprovalBinding(job, plan);
      if binding.Err? || !IsRepository(repository) {
        return BindingRejected, approval;
      }
      var token := issuer.Issue();
      if token.None? {
        return IssuerRaised, approval;
      }
      if token.value == "" {
        return NoToken, approval;
      }
      r := StepRaised;
      if terms.auditable {
        approval := NoteGrant(audit, clock, job, plan, repository, binding.value);
        r := OpenApproved(runner, job, plan, token, terms.inScope);
      }
      issuer.Revoke(token.value);
  }

  method NoteGrant(audit: SqliteAuditStore, clock: nat -> string, job: Job, plan: ExecutionPlan, repository: string, approvalHash: string)
    returns (approval: string)
    requires audit.Valid()
    modifies audit
    ensures audit.Valid() && DecisionSeen(old(Of(audit.log, job.id)), approval)
    ensures Extends(old(audit.log), audit.log, job.id, [GrantEntry(job, plan, repository, approvalHash, approval)])
  {
    hide Extends, HasStep, Appended, DecisionSeen;
    approval := ApprovalStepId(audit, job.id);
    var id := Note(audit, job.id, clock, GrantEntry(job, plan, repository, approvalHash, approval));
  }

  // `handle_pr` after approval: the description and the scope are checked before the credential is.
  method OpenApproved(runner: Runner, job: Job, plan: ExecutionPlan, grant: Option<string>, inScope: bool) returns (r: StepResult)
    modifies runner`trace
    ensures r.Summary?
    ensures var description := PyText.Strip(job.request.args);
            && (r.ending.BadDescription? <==> BadText(description))
            && (r.ending.OutOfScope? <==> !BadText(description) && !inScope)
            && (r.ending.NoCredential? <==> !BadText(description) && inScope && grant.None?)
            && (r.ending.Opened? ==> r.ending.url == UrlAt(runner.answers, |old(runner.trace)|))
            && (if grant.Some? && !BadText(description) && inScope then
                  && RanSome(runner, old(runner.trace), description, plan, grant.value)
                  && (r.ending.Opened? <==> Succeeds(runner.answers, |old(runner.trace)|, plan))
                  && (r.ending.Opened? ==> RanScript(runner, old(runner.trace), description, plan, grant.value, 6))
                else runner.trace == old(runner.trace) && !r.ending.Opened? && !r.ending.ScriptFailed?)
  {
    hide RanScript, Succeeds, PyText.Strip, UrlAt;
    var description := PyText.Strip(job.request.args);
    if BadText(description) {
      return Summary(BadDescription);
    }
    if !inScope {
      return Summary(OutOfScope);
    }
    if grant.None? {
      return Summary(NoCredential);
    }
    var url := OpenPr(runner, description, plan, grant.value);
    return Summary(if url.Ok? then Opened(url.value) else ScriptFailed);
  }
}
