# Proofs about an approval-gated operations agent

This project models the parts of the agent that decide what may run and what may be changed, and
proves what they keep. The agent takes jobs from a shared queue, lets a model prepare a change,
stops at a gate for a human, and opens a pull request for exactly what was approved.

- **Job queue.** `Jobs` holds the record and what each store operation writes to it; `JobStore` is the
  contract of the store, one predicate over two tables and a reply. `SqliteJobs` and `DynamoJobs` are
  the two stores as classes, proved against that contract; `StoreSimulation` drives both.
- **Protocol.** `Protocol` is a step system over one table: producers, any number of workers, three
  approval surfaces and a reclaimer, each acting by single store calls, with reads that go stale and
  processes that stop. `ProtocolInvariant`, `ProtocolTheorems`, `ProtocolStores` and
  `ProtocolProgress` prove its invariant, its safety over all runs, that store calls are its steps,
  and that it reaches the pull request.
- **Plan.** `Json`, `Fields`, `Decimal`, `Paths`, `Capabilities` and `Plan`: canonical text, digest,
  changed paths, risk, build and verify. `Credentials` is the approval binding.
- **Execution.** `PrExecution` (the fixed command script), `Grants` (the credential bracket), `Trail`
  (what a worker adds to the audit trail), `Worker` (one turn and the polling loop), `Approvals`.
- **Audit.** `AuditEvents` (hashed text, rows, chain), `AuditStore`, `DynamoAudit`, `StepTree`, and
  `KeyOrder` for the text keys both databases order by.
- **Guards.** `Sanitizer` and `Prompt` (tag rewriting), `Guard` (argv grammar), `Policy` (tables),
  `ShellLines` (the allowed lines form by form, and the hook), `Drift` (what ran against what was
  authorized), `ToolCalls`.
- **Example.** One small diff under the shipped tool chain, from its plan to both ends.
- **Example.** One small diff under the shipped tool chain, from its plan to both ends.
- **Chat and notification.** `Chat`, `ChatSteps`, `DynamoChat`, `Notifier`.

SHA-256 is an arbitrary collision-free function to nonempty texts, the command-line splitter, the
pull-request address search and the word-character class are arbitrary functions: `Hashing.Sha256`,
`Policy.Shlex`, `PrExecution.FindPrUrl` and `Sanitizer.IsWord` have no value, so every statement holds
for every such function. Store clocks are integers; `KeyOrder` shows that the text order of
timestamps is the order of time.

Some promises turn out to hold only under a condition. The condition is proved, and where it can fail
an input is given:

- A listing verifies exactly when the clock did not go back and, in the SQLite rows, capability names
  are plain (`ListingVerifies`, `ClockBackBreaks`, `CommaBreaks`, `KeyedListingVerifies`). It never
  verifies once it shows a decision made on the dashboard (`WebDecisionBreaks`).
- The drift gate is sound exactly when nothing undeclared ran (`GateIsSoundIffDeclared`,
  `UndeclaredToolPasses`).
- Streamed calls show their uses exactly when ids are consistent (`CallsShowUses`, `SecondUseShows`).
- The text order of audit keys is numeric exactly below one million (`SixDigitsSuffice`,
  `SeventhDigitBreaks`).
- A credential hangs under the latest approval exactly when no decision lies beyond the hundredth
  event (`FoundIsLatestIffSeen`); a store that appends a hundred tool calls or more and then the
  approval lists no decision (`ApprovalBehindToolCalls`).
- A prompt read from DynamoDB is complete exactly when no user turn was between its requests
  (`PromptCompleteIffSettled`, `PromptCanMissAMessage`).
- The comment on `open_pr` says that the job fails when no pull request was opened. The code makes an
  approved job `DONE` whenever its step ends in a text (`DoneIffStepReturns`), and the trail then says
  that the remote pull request was verified, whichever of the five texts it is; an address is given
  exactly when one was opened (`DoneWithoutPullRequest`). `Example.DoneUnopened` is a job that goes
  wrong: built, parked, approved and claimed, and its first command fails.

## Model

| member | source | states |
|---|---|---|
| Jobs.ParkUpdates | src/app/store/sqlite_store.py:180-197 | building the `SET` list entry by entry, absent values skipped, parks the job: diff, plan and hash are stored and nothing else but status and time |
| Jobs.ApproveUpdates | src/app/store/sqlite_store.py:199-212 | the update list of an approval writes approver, time and approval hash, and nothing else but status and time |
| Jobs.RejectUpdates | src/app/store/sqlite_store.py:214-220 | the update list of a rejection writes approver and time, never an approval hash |
| Jobs.CompleteUpdates | src/app/store/sqlite_store.py:222-243 | completing overwrites only the report fields that were given |
| Jobs.ReclaimUpdates | src/app/store/sqlite_store.py:149-177 | reclaiming fails the job with the orphan error |
| Jobs.SetColumnsParts | src/app/store/sqlite_store.py:245-271 | the statement built from an `extra` dict does to a record what the dict says, for every dict |
| Jobs.AppendParts | src/app/store/sqlite_store.py:253-260 | the loop that builds the list appends exactly the entries with a value, in order |
| OrderedQuery.OrderBy | src/app/store/sqlite_store.py:116-121 | an ordered, limited query: distinct, ascending, and nothing left out sorts before what is listed |
| JobStore.NextExists | src/app/store/base.py:30-34 | whenever a job is claimable there is a next one: approved before pending, then oldest first |
| JobStore.ClaimIs | src/app/store/sqlite_store.py:123-147 | a claim takes an approved job before a new one and of two alike the older one, sets status and time and nothing else, and takes none only if there is none |
| JobStore.ReclaimIs | src/app/store/sqlite_store.py:149-178 | a reclaim fails exactly the running jobs last updated before the cutoff and replies with them |
| JobStore.Deterministic | src/app/store/base.py:100-171 | with distinct creation times the store contract fixes every reply and every successor table, so two stores that meet it agree |
| JobStore.StepKeeps | src/app/store/base.py:100-171 | every operation keeps jobs under their ids and, for fresh enqueues, creation times distinct |
| JobStore.FeedUnique | src/app/store/base.py:123-125 | there is one answer to the newest-first feed |
| SqliteJobs.SqliteJobStore.Enqueue | src/app/store/sqlite_store.py:76-108 | under a new id meets the store contract: a pending job without gate or report fields; a taken id is refused and nothing is stored |
| SqliteJobs.SqliteJobStore.Get | src/app/store/sqlite_store.py:110-114 | meets the store contract: the job, or nothing |
| SqliteJobs.SqliteJobStore.ListRecent | src/app/store/sqlite_store.py:116-121 | meets the store contract: the newest jobs, newest first |
| SqliteJobs.SqliteJobStore.Claim | src/app/store/sqlite_store.py:123-147 | meets the store contract: the first claimable job by priority and age becomes running, or nothing changes |
| SqliteJobs.SqliteJobStore.ReclaimStaleRunning | src/app/store/sqlite_store.py:149-178 | meets the store contract: exactly the running jobs older than the cutoff fail, whatever order the loop takes |
| SqliteJobs.SqliteJobStore.AwaitApproval | src/app/store/sqlite_store.py:180-197 | meets the store contract: parks a running job, leaves any other alone |
| SqliteJobs.SqliteJobStore.Approve | src/app/store/sqlite_store.py:199-212 | meets the store contract: approves a waiting job with a plan hash and stores that hash |
| SqliteJobs.SqliteJobStore.Reject | src/app/store/sqlite_store.py:214-220 | meets the store contract: rejects a waiting job |
| SqliteJobs.SqliteJobStore.Complete | src/app/store/sqlite_store.py:222-243 | meets the store contract: ends a running job |
| SqliteJobs.SqliteJobStore.ConditionalUpdate | src/app/store/sqlite_store.py:245-271 | compare the status and only then write, for every list of columns |
| DynamoJobs.ItemRoundTrip | src/app/store/dynamodb_store.py:259-322 | an item written for a job reads back as the job, and is indexed under the job's status |
| DynamoJobs.SetParts | src/app/store/dynamodb_store.py:224-241 | the update expression does to the item what the update means for the job, and keeps the status index equal to the status |
| DynamoJobs.ReclaimFromPage | src/app/store/dynamodb_store.py:123-131 | filtering the running partition by age finds exactly the stale jobs |
| DynamoJobs.OldestClaimed | src/app/store/dynamodb_store.py:96-113 | with a current index answer the claim loop takes the oldest job of the status, and finds none only if there is none |
| DynamoJobs.DynamoJobStore.Query | src/app/store/dynamodb_store.py:100-105 | the status index answers by the status jobs have |
| DynamoJobs.DynamoJobStore.Claim | src/app/store/dynamodb_store.py:96-113 | meets the same store contract as the SQLite claim |
| DynamoJobs.DynamoJobStore.ClaimAmong | src/app/store/dynamodb_store.py:106-112 | for any index answer, however stale, takes the first entry that still has the status and touches nothing else |
| DynamoJobs.DynamoJobStore.ReclaimStaleRunning | src/app/store/dynamodb_store.py:115-141 | meets the same store contract as the SQLite reclaim |
| DynamoJobs.DynamoJobStore.FailAmong | src/app/store/dynamodb_store.py:130-141 | for any index answer, fails exactly the listed jobs that look stale and still run |
| DynamoJobs.DynamoJobStore.Enqueue | src/app/store/dynamodb_store.py:52-77 | an unconditional put of a pending job: meets the contract of the enqueue for every id, and replaces an item under a taken one |
| DynamoJobs.DynamoJobStore.ListRecent | src/app/store/dynamodb_store.py:84-93 | meets the same store contract as the SQLite feed |
| DynamoJobs.DynamoJobStore.AwaitApproval | src/app/store/dynamodb_store.py:144-161 | meets the same store contract as the SQLite gate |
| DynamoJobs.DynamoJobStore.Approve | src/app/store/dynamodb_store.py:163-177 | meets the same store contract, although its write is guarded by the hash it read |
| DynamoJobs.DynamoJobStore.Reject | src/app/store/dynamodb_store.py:179-185 | meets the same store contract as the SQLite rejection |
| DynamoJobs.DynamoJobStore.Complete | src/app/store/dynamodb_store.py:187-207 | meets the same store contract as the SQLite completion |
| DynamoJobs.DynamoJobStore.ConditionalSet | src/app/store/dynamodb_store.py:210-256 | writes only if status and, when required, plan hash are the expected ones; otherwise no item changes |
| StoreSimulation.RunsAgree | src/app/store/dynamodb_store.py:1-16 | over every sequence of calls with fresh ids and creation times, two runs of the contract from one table are the same run |
| StoreSimulation.RunBoth | src/app/store/dynamodb_store.py:1-16 | both stores driven through any such sequence give equal replies at every call and end with equal jobs |
| Json.DecodeEncode | src/app/execution_plan.py:71-72 | text written with escapes per section 7 of RFC 8259 parses back to the value, for every value |
| Json.EncodeInjective | src/app/execution_plan.py:71-72 | two values with one text are one value |
| Json.EncodedIsPrintable | src/app/execution_plan.py:71-72 | whatever the value, its text is printable ASCII |
| Json.ObjectShape | src/app/execution_plan.py:71-72 | members are key, colon and value, with a comma between them and no white space |
| Plan.CanonicalKeysAscend | src/app/execution_plan.py:71-72 | the members of the canonical text are sorted by key |
| Plan.PlanRoundTrip | src/app/execution_plan.py:71-105 | reading the canonical text gives the plan back, for every plan |
| Plan.DigestInjective | src/app/execution_plan.py:74-75 | an approved digest names one plan |
| Plan.ValidatePlanPath | src/app/execution_plan.py:248-263 | the component walk accepts exactly the paths that are relative, climb nowhere, cross no symbolic link and stay inside the root |
| Plan.BuildThenVerify | src/app/execution_plan.py:208-245 | after building, verification succeeds exactly when root and diff are those of the build, no status line begins with two question marks and a space, and no planned path or directory on its way is a symbolic link or leaves the root; it returns the built plan |
| Plan.VerifyForcesTheBuild | src/app/execution_plan.py:292-357 | whatever text and deployment, a successful check against a built plan's digest forces diff, tools, capabilities, account, region and root to be those of the build, and the request to be the same text up to white space at its ends |
| Plan.BuiltPlanIs | src/app/execution_plan.py:208-245 | what a built plan says, in literals: command, policy, hash of the request stripped of white space and nothing else, hash of the diff, the tools in order, exactly their classes, none of them write-high or privileged, a score of at most ten |
| Plan.AcceptedText | src/app/execution_plan.py:308-343 | for every offered text and hash, the plans accepted before the workspace is looked at: exactly those that read back from the text, have the hash, and agree with the deployment and the request in every field |
| Plan.RefusedText | src/app/execution_plan.py:308-343 | a refusal names what is wrong: for every text, hash and deployment the reported reason holds, and a write class the plan lacks is told from any other change of classes |
| Plan.AcceptedWorkspace | src/app/execution_plan.py:248-263 | for every plan, the workspaces accepted: one untracked line, one path that climbs or crosses a link, another root or another diff is enough to fail |
| PyText.StripIs | src/app/execution_plan.py:234 | stripping takes white space off both ends, all of it, and nothing else |
| PyText.StripAlike | src/app/execution_plan.py:342 | two texts strip alike exactly when they differ in white space at their ends only |
| Lex.SortListSorts | src/app/execution_plan.py:239 | sorting leaves each element as often as it was and nothing before what sorts earlier |
| Paths.CollectPaths | src/app/execution_plan.py:128-150 | the header scan returns the sorted set of named paths, or the error of the first unsafe one or of an empty diff |
| Paths.HeaderReads | src/app/execution_plan.py:132-149 | what a header says, for every line: the text up to a tab, without its side; refused when it is empty, absolute, climbs or names no file |
| Paths.OtherLines | src/app/execution_plan.py:132-133 | any other line names nothing |
| Paths.SafeIs | src/app/execution_plan.py:143-145 | a path is safe exactly when it does not start with a slash and no piece between slashes is two dots |
| PyText.LinesAre | src/app/execution_plan.py:131 | the lines hold no line break and, with one break after each, are the text; a carriage return and line feed count as one |
| Paths.ChangedPathsAre | src/app/execution_plan.py:128-150 | a list is the answer exactly when no header is unsafe and it is the nonempty ascending list of the named paths; two diffs that name the same paths agree |
| Paths.ChangedPathsAreSafe | src/app/execution_plan.py:128-150 | every reported path is relative, climbs nowhere and is in normal form, and the list ascends without repeats |
| Capabilities.CollectCapabilities | src/app/execution_plan.py:177-190 | the loop returns the sorted classes of the tools, or fails on an undeclared one |
| Capabilities.CapabilitiesAre | src/app/execution_plan.py:177-190 | a list is the answer exactly when every tool is declared and it is the ascending list of their classes |
| Capabilities.ComputeRisk | src/app/execution_plan.py:193-205 | the loop sums the weights, or fails on an unknown class |
| Capabilities.RiskOfDistinct | src/app/execution_plan.py:193-205 | the loop counts occurrences: the sum is that of the weights 1, 4, 5, 20 and 50 of the classes present exactly when no class is repeated, and never less |
| Capabilities.RiskMonotone | src/app/execution_plan.py:29-38 | a subset of classes never scores above its superset |
| Capabilities.CeilingExcludesHighClasses | src/app/execution_plan.py:40-43 | a score of at most ten means exactly that no write-high and no privileged class is used |
| Credentials.BindingNamesOnePlan | src/app/write_credentials.py:112-146 | the binding of a job is passed by one plan at most |
| Credentials.ApprovedIs | src/app/worker.py:198-215 | an approved job verifies exactly when it holds a diff and a plan, its approval is for the hash of that plan, and the plan passes against the workspace |
| Credentials.BindingIs | src/app/write_credentials.py:112-146 | the binding passes exactly when the job is approved for the digest of the plan, which scores itself rightly, can write and stays under its ceiling; the grant is bound to that digest |
| Credentials.VerifiedPlanBinds | src/app/write_credentials.py:112-146 | after the workspace check the binding fails only for want of a job id or a write capability |
| ProtocolInvariant.StepKeepsInv | src/app/worker.py:408-562 | every step of every process keeps the invariant tying table, histories, worker snapshots and sightings |
| ProtocolInvariant.RunKeepsInv | src/app/worker.py:603-634 | so does every interleaved run |
| ProtocolTheorems.StepFalls | src/app/store/base.py:15-37 | no step loses a job, and a job that changes drops in rank and keeps its request, creation time and plan hash once set |
| ProtocolTheorems.AtMostFiveChanges | src/app/store/base.py:15-37 | over every run a job changes at most five times, and a terminal job never |
| ProtocolTheorems.ReclaimIsFinal | src/app/store/dynamodb_store.py:115-141 | a reclaimed job stays failed whatever its old worker and everybody else do next |
| ProtocolTheorems.AtMostOnce | src/app/worker.py:466-517 | for any number of workers and stale claims, each phase is claimed and started at most once, in order, with at most one gate, one approval and one pull request |
| ProtocolTheorems.ApprovalsHappenAtTheGate | src/app/store/dynamodb_store.py:163-177 | every step of every process leaves a job's approvals as they are, or adds the one hash that is the plan hash of the job, which waited, and stores it as the approval hash |
| ProtocolTheorems.ApprovalBinding | src/app/worker.py:286-315 | in every interleaving a worker that holds a credential may open the pull request, for the plan the gate built and stored for this job, approved exactly once for its digest, hashing the stored diff and the stored request without the white space at its ends, in a workspace seen unchanged; it is the first, and the executor started once for each phase |
| ProtocolTheorems.DoneMeansApproved | src/app/worker.py:513-527 | in every reachable state a pull request job that is done was approved, for the plan hash it still holds, and its executor started once before and once after |
| ProtocolTheorems.SurfacesAgree | web/app/actions.ts:45-79 | on every reachable state the unguarded SQLite update, the hash-guarded DynamoDB update and the web update do the same |
| ProtocolTheorems.AwaitingHasHash | web/app/actions.ts:60-63 | a waiting job has a nonempty plan hash, so asking that it exists and asking that it is not empty agree |
| ProtocolTheorems.CredentialBracket | src/app/write_credentials.py:185-201 | every issued token is revoked once, left by a worker that stopped, or held by one worker, and in one of these states only |
| ProtocolTheorems.TokenOnlyWhenApproved | src/app/worker.py:303-312 | a token is held only inside the execute step of an approved job whose plan was verified and passed the binding |
| ProtocolStores.ClaimIsAStep | src/app/store/sqlite_store.py:123-147 | a claim of the store is the claim step of an idle worker |
| ProtocolStores.StaleClaimIsAStep | src/app/store/dynamodb_store.py:96-113 | so is a claim from any stale index answer |
| ProtocolStores.ReclaimIsSteps | src/app/store/sqlite_store.py:149-178 | a reclaim is one step per stale job |
| ProtocolStores.ParkIsAStep | src/app/worker.py:479-484 | parking through the store is the gate step |
| ProtocolStores.CompleteIsAStep | src/app/worker.py:544-550 | completing through the store is the end step |
| ProtocolStores.FailIsAStep | src/app/worker.py:797 | failing a held job through the store is the failing step |
| ProtocolStores.RejectIsAStep | src/app/store/dynamodb_store.py:179-185 | a rejection through the store is the rejecting step exactly when it took effect, and otherwise changes nothing |
| ProtocolStores.ApproveIsTwoSteps | src/app/store/sqlite_store.py:199-212 | an approval through either store is a look and the store's own update, the one guarded by status or the one guarded by status and hash |
| ProtocolStores.ApprovingWriteIsAStep | src/app/store/sqlite_store.py:199-212 | the update of an approval, on the table it meets after whatever happened since the look, is the approving step |
| ProtocolProgress.PlansCanBeOpened | src/app/worker.py:408-562 | every plan with a write capability that can be built is carried by some run to its pull request |
| PrExecution.OpenPr | src/app/pr_execution.py:81-178 | runs a prefix of the fixed six commands, stops at the first failure, and succeeds exactly when all succeed, an address is found and the remote paths are the planned ones |
| PrExecution.BranchIs | src/app/pr_execution.py:57-59 | the branch is named by the first twelve characters of the plan digest |
| PrExecution.TitleIs | src/app/pr_execution.py:62-64 | the title is the first line of the stripped request, seventy-two characters of it at most, without white space at its end; an empty request has the standard one |
| PrExecution.BodyIs | src/app/pr_execution.py:65-70 | the body is the stripped request and the note on approval and review |
| PrExecution.GrantReachesThreeCommands | src/app/pr_execution.py:104-132 | in every trace the script leaves, however far it comes, the credential is in the environment of push, create and diff, and of no other command |
| Grants.ExecuteWithGrant | src/app/write_credentials.py:185-201 | every end has its cause: refused binding or repository, an issuer that raises, empty token, incomplete configuration or failed audit entry, or a text; the issuer is asked exactly when the binding holds and a nonempty token is revoked once; commands run only with it, and the grant's entry hangs under the approval found |
| Grants.OneEnd | src/app/worker.py:286-315 | the causes leave one end of the approved step |
| Grants.ReportedIffOpened | src/app/commands/pr.py:244-265 | an address is reported exactly when the credential was granted and all six commands did what they should |
| Grants.RepositoryIs | src/app/write_credentials.py:168 | a repository is admissible exactly when a slash is left after the slashes at both ends are off |
| Grants.BadTextIs | src/app/commands/pr.py:115-126 | a request is refused exactly when nothing or more than two thousand characters are left of it |
| Trail.Note | src/app/store/audit_store.py:157-217 | appends one event with exactly the given fields, the worker as actor, the clock's time and the next step id; a parent already in the trail keeps it a forest; no other job's trail changes |
| Trail.RecordToolSteps | src/app/worker.py:731-746 | one `tool_call` event a call, in order, with tool, command or name, use id, error flag and result hash, under the step that made them |
| Trail.ApprovalStepId | src/app/worker.py:775-782 | the latest approval or gate entry among the oldest hundred events, or nothing when they show none |
| Trail.DecisionIs | src/app/worker.py:779-782 | a decision is an event with a step id whose action is `approved` or `awaiting_approval` |
| Trail.FoundIsLatestIffSeen | src/app/worker.py:759-761 | it is the latest of the whole trail exactly when no decision comes after the hundredth event |
| Trail.ApprovalBehindToolCalls | src/app/worker.py:775-782 | for every number of tool calls from a hundred on, a trail one store appends, ending in the approval, whose listing shows no decision |
| WorkerLoop.Worker.ExecuteApproved | src/app/worker.py:286-315 | the approved step verifies again, mints for the verified plan and for no other, runs only its script, and ends by its cause; its credential entry hangs under the latest decision the listing shows |
| WorkerLoop.Worker.Try | src/app/worker.py:441-460 | scope, verification, execution and drift gate in order; an exception or outcome is the one the worker's inputs decide; commands are those of the approved plan's script or none; a credential entry hangs under the latest decision the listing shows |
| WorkerLoop.AuthorityOfRun | src/app/worker.py:707-716 | a model run answers to the allowlist of its command and never to a plan, an approved job to its verified plan |
| WorkerLoop.Worker.Fail | src/app/worker.py:787-864 | fails the job with the error, writes one failure metric, and appends exactly the known calls, an event that names the cause, as drift, refused plan or denied command, and a `failed` event with the error the job now holds |
| WorkerLoop.Worker.Park | src/app/worker.py:479-511 | stores diff, canonical plan and digest and writes one metric; the trail grows by the calls and ends in an `awaiting_approval` event, a decision, whose result hash is that of the diff now stored and whose context holds the plan hash now stored, policy, score, ceiling and observed classes |
| WorkerLoop.Worker.Finish | src/app/worker.py:529-562 | completes the job with its result and writes one metric; the trail grows by a `postcondition_verified` event with the approval hash, for an approved job, the calls and a `done` event with the hash of the result now stored |
| WorkerLoop.Worker.ProcessOne | src/app/worker.py:408-562 | a turn claims the next job and settles it by the decided verdict with one metric; its entries are exactly claim, credential, calls and end, the last two under the claim's own step and the credential under the latest decision listed right after the claim; the token is bracketed; commands are those of the approved plan's script or none |
| WorkerLoop.TurnIsTold | src/app/worker.py:425-562 | for every verdict the events of a turn say what became of the job as it is stored: action, detail, parent, tool, target, classes, hashes and context entries, written out apart from the entries the worker builds |
| WorkerLoop.GrantIsTold | src/app/worker.py:759-773 | the event right after the claim shows the credential: repository, job, approval hash, policy and classes, under the approval it answers to |
| WorkerLoop.OneVerdict | src/app/worker.py:441-527 | what the worker is given decides one verdict |
| WorkerLoop.OneTurn | src/app/worker.py:408-562 | with distinct creation times a turn takes one job and leaves one table |
| WorkerLoop.DoneIffStepReturns | src/app/worker.py:529-550 | an approved job is done exactly when it is admitted, verified twice, and its step ends in a text: no credential configured, or one granted and recorded |
| WorkerLoop.DoneWithoutPullRequest | src/app/worker.py:529-550 | every approved job that is done has the entry that says verified, under its claim, and gives an address exactly when the credential was granted and all six commands did what they should |
| WorkerLoop.FailedCommandIsDone | src/app/commands/pr.py:258-264 | every approved job that comes to its commands is done without a pull request when the first of them fails |
| WorkerLoop.UnconfiguredIsDone | src/app/commands/pr.py:253-257 | without a configured credential every verified approved job is done, and no command was run |
| Example.DoneUnopened | src/app/pr_execution.py:96-98 | a job under the shipped tool chain, built, parked, approved and verified, that is done without its pull request |
| Example.SomeRunOpensIt | src/app/worker.py:408-562 | the plan of that job is carried by some run of the protocol to its pull request |
| WorkerLoop.Worker.ReclaimStale | src/app/worker.py:564-601 | exactly the stale jobs fail, each with one failure metric with its stored error and one `reclaimed_stale` event without a parent, and no other trail changes |
| WorkerLoop.Worker.RunForever | src/app/worker.py:603-634 | jobs processed and left in the queue are those that were claimable and those that arrived; without arrivals as many are processed as were claimable, up to the polls; what runs at the end ran at the start, was not stale then and is untouched; what was stale at the start is failed |
| WorkerLoop.TurnSettles | src/app/worker.py:408-562 | for every executor outcome a turn leaves its job waiting, done or failed, never running, and no other job changed |
| WorkerLoop.TurnConsumes | src/app/worker.py:603-634 | a turn takes one job off the queue and puts none on it |
| Approvals.ApplyDecision | src/app/approval_actions.py:256-297 | applies the store operation, and audits exactly the decisions that took effect if there is an audit store |
| Approvals.DecideTwice | src/app/approval_actions.py:266-268 | of two decisions on one job at most one takes effect |
| Approvals.ModalDiffBlocks | src/app/approval_actions.py:101-127 | at most ten sections of at most 2800 characters join to the first 28 000 characters of the diff, and the note appears exactly when text is missing |
| AuditEvents.StepIdsDiffer | src/app/store/audit_store.py:27-29 | step ids of different numbers differ |
| AuditEvents.StepIdIs | src/app/store/audit_store.py:27-29 | a step id is an S and the number in six digits or as many as it takes |
| AuditEvents.AllKeysAscend | src/app/store/audit_store.py:432-433 | the hashed members are sorted by key |
| AuditEvents.PlainFields | src/app/store/audit_store.py:413-422 | eight fields are always in the hashed text |
| AuditEvents.TrajectoryFields | src/app/store/audit_store.py:423-431 | six are there only when they are set, so an event without them hashes as it did before there were any |
| AuditEvents.PayloadKeys | src/app/store/audit_store.py:413-433 | no other key is hashed, and the keys ascend |
| AuditEvents.HashDeterminesEvent | src/app/store/audit_store.py:405-433 | events with one hash agree in every field, although unset trajectory fields are left out |
| AuditEvents.ContextRoundTrip | src/app/store/audit_store.py:395-402 | the context dict reads back from its text |
| AuditEvents.RowRoundTrip | src/app/store/audit_store.py:241-259 | a row reads back as the event exactly when no capability name is empty or holds a comma |
| AuditEvents.VerifyEventChain | src/app/store/audit_store.py:455-462 | the loop accepts exactly the chains |
| AuditEvents.PrefixChained | src/app/store/audit_store.py:219-224 | a listing cut by a limit still verifies |
| AuditEvents.TamperEvidence | src/app/store/audit_store.py:455-462 | two verified lists with one final hash are equal in every field and in length |
| AuditStore.SqliteAuditStore.LatestHash | src/app/store/audit_store.py:171-174 | the hash of the last event in listing order |
| AuditStore.SqliteAuditStore.Append | src/app/store/audit_store.py:157-217 | appends one event that carries the latest hash, the next number and its own step id, to one job only |
| AuditStore.SqliteAuditStore.ListForJob | src/app/store/audit_store.py:219-224 | the rows read back, ordered by time and number, up to the limit |
| AuditStore.ListingVerifies | src/app/store/audit_store.py:157-259 | a full listing verifies exactly when the clock never went back between the job's appends and its capability names are plain |
| AuditStore.ClockBackBreaks | src/app/store/audit_store.py:157-217 | two appends, with the numbers and step ids the store gives, between which the clock goes back, to any time, and a listing that does not verify |
| AuditStore.CommaBreaks | src/app/store/audit_store.py:241-259 | one append, the store's first, with a comma in a capability name and a listing that does not verify |
| AuditStore.LimitedListingsVerify | src/app/store/audit_store.py:219-224 | then the listing is what was appended and verifies at every limit |
| AuditStore.Record | src/app/store/audit_store.py:157-224 | jobs interleaved in any order on one store under a steady clock all verify, at every limit |
| DynamoAudit.ItemRoundTrip | src/app/store/audit_store.py:302-348 | an item reads back as the event written, whatever the capability names; names are kept as a list |
| DynamoAudit.DynamoAuditStore.Append | src/app/store/audit_store.py:283-348 | appends one event that carries the hash the backward query shows, the next number and its own step id, to one job only; the key is always free |
| DynamoAudit.DynamoAuditStore.Query | src/app/store/audit_store.py:350-360 | the partition of a job in key order is the listing of what was appended |
| DynamoAudit.SameListing | src/app/store/audit_store.py:350-360 | within equal-width timestamps and six digits the key-ordered listing is the SQLite one |
| DynamoAudit.KeyedListingVerifies | src/app/store/audit_store.py:283-360 | what this store appends lists as a verifying chain exactly when the clock never went back |
| DynamoAudit.RecordByKey | src/app/store/audit_store.py:283-360 | jobs interleaved in any order, below a million events under a steady clock of one width, all verify, at every limit |
| DynamoAudit.WebDecisionBreaks | web/app/actions.ts:81-104 | a listing that shows a decision of the dashboard does not verify, because that entry has no hash |
| StepTree.BuildStepTree | src/app/store/audit_store.py:441-452 | every bucket holds exactly the steps of its parent in order, and the bucket sizes sum to the number of steps |
| StepTree.BucketMembers | src/app/store/audit_store.py:441-452 | each step is in the bucket of its parent as often as it was recorded, and in no other |
| StepTree.WalksToRoot | src/app/store/audit_store.py:441-452 | when parents come earlier, following them from any step ends at a root |
| KeyOrder.AuditKeyOrder | src/app/store/audit_store.py:325-327 | below one million, key order is time order, then number order |
| KeyOrder.AuditKeyNumber | src/app/store/audit_store.py:325-327 | a key names its number, whatever the timestamp |
| KeyOrder.SeventhDigitBreaks | src/app/store/audit_store.py:24-29 | number 1 000 000 sorts before 999 999 |
| KeyOrder.SixDigitsSuffice | src/app/store/audit_store.py:24-29 | padded text order is numeric below a bound exactly when the bound is at most one million |
| KeyOrder.IsoOrderIsTime | src/app/store/_util.py:12-17 | fixed-width timestamps with four-digit years order as text exactly as in time (the ordering of section 5.1 of RFC 3339) |
| KeyOrder.IsoIs | src/app/store/_util.py:12-17 | a timestamp is seven numerals of fixed width with the marks between them and a Z |
| KeyOrder.TickIsOne | src/app/store/_util.py:20-27 | the count of microseconds goes up by one with every tick of clock and calendar, over the end of days, months and years |
| KeyOrder.StaleTest | src/app/store/_util.py:20-27 | comparing with the cutoff text selects exactly the jobs older than the age |
| Sanitizer.MatcherIsThePattern | src/app/sanitizer.py:24 | the matcher finds exactly what the pattern denotes, the name compared after lower-casing and with the long s as an s, and takes its longest match |
| Sanitizer.NeutralizedBefore | src/app/sanitizer.py:35-49 | no match starts in rewritten text, also when white space and a bracket follow it |
| Sanitizer.NeutralizedIsTagFree | src/app/sanitizer.py:35-49 | rewritten text contains no match, for every content |
| Prompt.PromptMatches | src/app/sanitizer.py:52-78 | a prompt from a template with k placeholders holds exactly k pairs of tags and no other match, seams included |
| Prompt.PairsAlternate | src/app/sanitizer.py:52-78 | its matches alternate open and close |
| Prompt.PromptTags | src/app/sanitizer.py:52-78 | in the whole prompt a tag starts at exactly two places for each placeholder, and each is one of the two tags, letter by letter |
| Prompt.NoForgedTag | src/app/sanitizer.py:35-49 | no text that is a tag in any spelling, case and spacing occurs in a prompt but the two put in |
| Prompt.PromptLayout | src/app/sanitizer.py:48-78 | a prompt is the template with the rewritten content between its tags, on lines of its own, in place of each placeholder |
| Prompt.ScanStep | src/app/sanitizer.py:48 | up to a match the text stays, the match is escaped, and the scan goes on after it |
| Prompt.RefusedTemplates | src/app/sanitizer.py:67-75 | a template is refused exactly when the placeholder does not occur in it or it holds a tag |
| Prompt.NothingIsLost | src/app/sanitizer.py:31-49 | decoding the two entities undoes the rewriting, whatever entities the content held |
| Prompt.UntouchedIffTagFree | src/app/sanitizer.py:35-49 | content is changed exactly when it holds a tag |
| Guard.MatchSchema | src/app/command_guard.py:189-220 | the loop terminates and accepts exactly the argument lines the schema's grammar derives |
| Guard.AcceptsIsGrammar | src/app/command_guard.py:189-220 | one pass over the tokens decides derivability: bare, inline and spaced flags, bounded positionals |
| Guard.FirstMatch | src/app/command_guard.py:223-241 | the first schema whose grammar holds the line |
| Guard.OrderDoesNotMatter | src/app/command_guard.py:223-241 | with incomparable prefixes the matching schema does not depend on the order |
| Policy.PrefixesIncomparable | src/app/command_guard.py:90-150 | the prefixes of both schema sets are pairwise incomparable |
| Policy.GuardAndAllowlistAgree | src/app/allowlist.py:118-137 | guard and allowlist know the same commands, and every schema names an allowed tool |
| Policy.SchemaToolsSpellPrefixes | src/app/command_guard.py:90-150 | every schema counts as the tool whose pattern spells its own first tokens |
| Policy.AllowedToolsAreDeclared | src/app/allowlist.py:143-162 | every allowed tool has a declared capability |
| Policy.ResolveTool | src/app/command_guard.py:259-270 | the tool of the line, unique if there is one |
| ShellLines.HookAllows | src/app/command_guard.py:294-310 | the hook allows exactly the non-shell calls and the well-formed shell calls that resolve under the configured command; an allowed line holds none of the twenty-two shell characters |
| ShellLines.AllowedLines | src/app/command_guard.py:153-270 | the allowed shell lines and their tools, exactly: none of the twenty-two characters, not blank, split into tokens that are not absolute and have no piece of two dots, in one of ten forms listed apart from the schemas with their words, flags, value texts and argument lengths |
| Policy.DeclaredClasses | src/app/execution_plan.py:150-174 | five tools are declared to read and eight to write little, and no other is declared |
| Policy.GrantedTools | src/app/allowlist.py:37-56 | a terraform review is granted the reading tools, a pull request all but those for terraform, three commands nothing, and no other command anything |
| Policy.ResolvedIsGranted | src/app/command_guard.py:259-270 | an allowed line counts as exactly one tool, granted to its command and with a capability |
| Drift.ResolveToolSteps | src/app/worker.py:636-657 | every call is kept, in order, with the tool it counts as |
| Drift.GateAccepts | src/app/worker.py:672-729 | the gate accepts exactly when no executed call is unresolved and either all stayed within the classes of the plan or of the granted tools, or an undeclared tool ran; an unresolved call is the reason given exactly when there is one |
| Drift.AcceptedClasses | src/app/worker.py:659-670 | an accepted run is recorded with the classes of the calls that ran, each once and in order, and with none when an undeclared tool ran |
| Drift.UnresolvedCallDrifts | src/app/worker.py:694-705 | a shell call that ran although no schema holds its line is drift, whatever else ran |
| Drift.ExecuteTools | src/app/commands/pr.py:43-51 | the executor of an approved pull request keeps the granted tools without editing, staging and tests |
| Drift.GateIsSoundIffDeclared | src/app/worker.py:659-670 | acceptance means staying within authority exactly when nothing undeclared ran |
| Drift.UndeclaredToolPasses | src/app/worker.py:667-670 | a run of one undeclared tool, counted as the resolution counts it, that the gate accepts |
| Drift.VerifiedPlansAreScored | src/app/execution_plan.py:308-345 | a plan that passed verification carries the score of its own distinct classes |
| Drift.RiskNeverFires | src/app/worker.py:724-728 | after the subset check the risk comparison cannot fire |
| Drift.GrantedRunsNeverDrift | src/app/worker.py:697-729 | runs of calls the hook allows and the allowlist grants never drift |
| Drift.GrantedRunsNeverDriftFromThePlan | src/app/worker.py:709-711 | nor do they drift from the approved plan of a pull request |
| ToolCalls.ToolCallsFromEvents | src/app/claude_runner.py:261-303 | one call per streamed use, in order, with name and command of the last use of its id, the error flag of its last result and the hash of that result unless it is empty |
| ToolCalls.CallsShowUses | src/app/claude_runner.py:271-303 | calls show the uses they stand for exactly when repeated ids repeat name and command |
| ToolCalls.SecondUseShows | src/app/claude_runner.py:271-303 | two uses of one id: the first call shows the second command |
| Chat.SqliteChatStore.AppendUserMessage | src/app/store/chat_store.py:165-190 | stores the user's text, finished, under the next number and queues the conversation, unless it streams or is unknown |
| Chat.SqliteChatStore.ClaimConversation | src/app/store/chat_store.py:192-217 | the waiting conversation updated longest ago starts to stream, or none waits |
| Chat.SqliteChatStore.StartAssistantMessage | src/app/store/chat_store.py:219-241 | an empty unfinished message under the next number; under an unknown id number 0, once |
| Chat.SqliteChatStore.AppendChunk | src/app/store/chat_store.py:243-247 | appends the text to the message of that id and number alone, if there is one |
| Chat.SqliteChatStore.FinishTurn | src/app/store/chat_store.py:249-273 | finishes the message and sets the status, keeping an earlier proposal unless a new one comes; an unknown conversation gets no status |
| Chat.ProcessOne | src/app/chat_agent.py:61-103 | one finished answer, numbered after all the prompt held, with all that was streamed in order, and the conversation open again, also after an error |
| ChatSteps.NumbersAndUnfinished | src/app/store/chat_store.py:165-273 | in every run numbers are 0 to the count, and an unfinished message is unique and only there while streaming |
| ChatSteps.PromptIsComplete | src/app/chat_agent.py:72-77 | in every run an agent's prompt holds every message numbered before its own |
| ChatSteps.OneAgentEach | src/app/store/chat_store.py:192-217 | two agents never work on one conversation |
| ChatSteps.Drive | src/app/store/chat_store.py:149-273 | any sequence of store calls by any number of users and agents is a run of the chat steps |
| DynamoChat.ChunksAgree | src/app/store/chat_store.py:388-395 | the joined chunk list is the concatenated text, whatever is streamed |
| DynamoChat.CompleteIffNoTurnUnderWay | src/app/store/chat_store.py:323-351 | in every run of users and an agent a listing is complete exactly when no user turn is between its requests, save an empty one already placed |
| DynamoChat.PromptCompleteIffSettled | src/app/chat_agent.py:72-77 | in every run an agent's prompt holds every message before its own with its text exactly when the talk had no user turn under way at the run's last listing |
| DynamoChat.PromptCanMissAMessage | src/app/store/chat_store.py:323-351 | four requests after which an agent answers a message its prompt does not hold |
| Notifier.Notifier.NotifyJobEvents | src/app/proposal_notifier.py:82-104 | new, waiting, done and failed jobs are posted unless marked so or the post fails, and no others; posts are new, failed posts leave the mark alone, everything else is marked, a priming poll posts nothing |
| Notifier.RunForever | src/app/proposal_notifier.py:107-130 | over a whole polling run no job is posted twice in the same status, nor in the status the first poll saw it in |
| Notifier.RunsFall | src/app/store/base.py:15-37 | every protocol run moves the table the way the notifier relies on |

## Left out

- JSON: numbers with fractions or exponents, NaN, and lone surrogates are not part of the model; a plan text with a field of the wrong type is rejected, where the source converts it with `str` or `int`.
- SHA-256, `shlex`, the address search of a pull request and the word-character class are arbitrary functions.
- `trace_id` is not modelled: nothing writes it.
- The float to Decimal conversion of costs: costs are real numbers.
- Query pagination, throttling and other database errors; a store call either happens or does not.
- Within one store operation the clock gives one reading.
- The id factory is not modelled; the two stores differ on a taken id, so the lemmas about both take ids that are fresh.
- A token whose worker stops is never revoked by the program; it expires. Expiry times and token contents are not modelled.
- ProtocolTheorems.ApprovalBinding: speaks of the workspace as it was last checked, because the program does not look again before each command.
- WorkerLoop.Worker.ProcessOne: one live worker and SQLite stores; several workers, crashes and reclaim races are the business of the protocol.
- WorkerLoop.Worker.Fail: the words of error texts are parameters; the scope's own context entries of a denial are not part of the entry.
- WorkerLoop.Worker.RunForever: producers enqueue between two polls; arrivals during a turn, approvals and other workers are the business of the protocol.
- Grants.ExecuteWithGrant: the configuration, the audit entry's success and the scope answer are parameters; the workspace root is found by the verification just before, so its absence in the step itself is not modelled; an issuer that raises is taken to raise an error that has no audit entry of its own kind, as its own error type does.
- DynamoChat.PromptCompleteIffSettled: an agent's own message is numbered and placed in one request, where the program makes two; nothing but a listing by somebody else can fall between.
- AuditStore.SqliteAuditStore.Append: one store instance; numbers and step ids of several instances on one table may coincide.
- DynamoAudit.DynamoAuditStore.Append: one store instance whose queries see its earlier writes.
- Notifier.RunForever: a restart primes again, so the statement is about one run.
- Claim, list and feed of the DynamoDB chat store, which repeat the job store's pattern.
- Slack wiring, modals as screens, the dashboard pages, telemetry records and OTel spans beyond the one metric a turn writes.
- Context entries of audit events for scope denials, permissions and expiry; they are hashed like any other entry.
- Approver allowlists: any approver may decide in the protocol.
- Foreign processes, GitHub, AWS adapters: their answers are arbitrary.
- `policy_boundary.py`, `permissions.py`, `agent_monitor.detect`, proposal deduplication, ANSI stripping, diff extraction and message formatting: single checks or text layout.
