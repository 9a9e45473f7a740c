/** What a worker adds to the audit trail of the job it holds. */
module Trail {
  import opened AuditEvents
  import opened AuditStore
  import opened StepTree
  import opened Drift
  import Lex

  const WORKER_ACTOR := "worker"
  const CLAIMED := "claimed"
  const AWAITING_APPROVAL := "awaiting_approval"
  const APPROVED := "approved"
  const DONE := "done"
  const FAILED := "failed"
  const POSTCONDITION_VERIFIED := "postcondition_verified"
  const PLAN_BINDING_REJECTED := "plan_binding_rejected"
  const POLICY_DENIED := "policy_denied"
  const WRITE_CREDENTIALS_ISSUED := "write_credentials_issued"
  const TOOL_CALL := "tool_call"
  const RECLAIMED_STALE := "reclaimed_stale"
  const CAPABILITY_DRIFT := "capability_drift"

  type Log = map<string, seq<AuditEvent>>

  function Of(log: Log, job: string): seq<AuditEvent>
  {
    if job in log then log[job] else []
  }

  ghost predicate HasStep(events: seq<AuditEvent>, id: string)
  {
    exists j :: 0 <= j < |events| && events[j].step.stepId == id
  }

  // An entry as a worker writes it. The store adds number, time, step id and hashes.
  datatype TrailEntry = TrailEntry(
    action: string,
    detail: string,
    context: map<string, string>,
    parent: string,
    tool: string,
    capabilities: seq<string>,
    target: string,
    resultHash: string)

  predicate Wrote(e: AuditEvent, x: TrailEntry)
  {
    && e.body == Body(x.action, WORKER_ACTOR, x.detail, x.context)
    && e.step == Trajectory(e.step.stepId, x.parent, x.tool, x.capabilities, x.target, x.resultHash) && e.step.stepId != ""
  }

  // What an event says, field by field.
  predicate Says(e: AuditEvent, action: string, detail: string, parent: string, tool: string, target: string, resultHash: string)
  {
    && e.body.action == action && e.body.actor == "worker" && e.body.detail == detail
    && e.step.parentStepId == parent && e.step.toolName == tool && e.step.targetResource == target && e.step.resultHash == resultHash
  }

  predicate Notes(e: AuditEvent, key: string, value: string)
  {
    key in e.body.context && e.body.context[key] == value
  }

  lemma WrittenSays(e: AuditEvent, x: TrailEntry)
    requires Wrote(e, x)
    ensures Says(e, x.action, x.detail, x.parent, x.tool, x.target, x.resultHash)
    ensures e.body.context == x.context && e.step.capabilities == x.capabilities && e.step.stepId != ""
  {
  }

  // The trail of one job goes on with exactly these entries, and remains a forest.
  ghost predicate Grows(before: seq<AuditEvent>, after: seq<AuditEvent>, entries: seq<TrailEntry>)
  {
    && before <= after && |after| == |before| + |entries|
    && (forall i :: 0 <= i < |entries| ==> Wrote(after[|before| + i], entries[i]))
    && (ParentsEarlier(before) ==> ParentsEarlier(after))
  }

  // Only this job's trail grew.
  ghost predicate Extends(before: Log, after: Log, job: string, entries: seq<TrailEntry>)
  {
    && (forall other :: other != job ==> (other in after <==> other in before))
    && (forall other :: other != job && other in before ==> after[other] == before[other])
    && Grows(Of(before, job), Of(after, job), entries)
  }

  lemma Stays(log: Log, job: string)
    ensures Extends(log, log, job, [])
  {
  }

  lemma GrowsThen(a: seq<AuditEvent>, b: seq<AuditEvent>, c: seq<AuditEvent>, first: seq<TrailEntry>, second: seq<TrailEntry>)
    requires Grows(a, b, first) && Grows(b, c, second)
    ensures Grows(a, c, first + second)
  {
    hide ParentsEarlier, Wrote;
    assert c[..|a|] == c[..|b|][..|a|];
    forall i | 0 <= i < |first + second| ensures Wrote(c[|a| + i], (first + second)[i]) {
      if i < |first| {
        assert c[|a| + i] == c[..|b|][|a| + i];
      } else {
        assert c[|b| + (i - |first|)] == c[|a| + i];
      }
    }
  }

  lemma Then(a: Log, b: Log, c: Log, job: string, first: seq<TrailEntry>, second: seq<TrailEntry>)
    requires Extends(a, b, job, first) && Extends(b, c, job, second)
    ensures Extends(a, c, job, first + second)
  {
    hide Grows;
    GrowsThen(Of(a, job), Of(b, job), Of(c, job), first, second);
  }

  // After an entry and whatever follows it, the trail up to that entry is as it was right after it.
  lemma UpToFirst(a: Log, b: Log, c: Log, job: string, x: TrailEntry, rest: seq<TrailEntry>)
    requires Extends(a, b, job, [x]) && Extends(b, c, job, rest)
    ensures |Of(a, job)| < |Of(c, job)| && Of(c, job)[..|Of(a, job)| + 1] == Of(b, job)
    ensures |Of(b, job)| == |Of(a, job)| + 1 && Of(c, job)[|Of(a, job)|] == Of(b, job)[|Of(a, job)|]
  {
    hide ParentsEarlier, Wrote;
    assert Of(c, job)[..|Of(b, job)|] == Of(b, job);
    assert Of(c, job)[..|Of(b, job)|][|Of(a, job)|] == Of(c, job)[|Of(a, job)|];
  }

  // The entries in the trail, by place.
  lemma WrittenAt(a: Log, b: Log, job: string, entries: seq<TrailEntry>)
    requires Extends(a, b, job, entries)
    ensures |Of(b, job)| == |Of(a, job)| + |entries|
    ensures forall i :: 0 <= i < |entries| ==> Wrote(Of(b, job)[|Of(a, job)| + i], entries[i])
  {
    hide ParentsEarlier, Wrote;
  }

  lemma KeepsStep(a: Log, b: Log, job: string, entries: seq<TrailEntry>, id: string)
    requires Extends(a, b, job, entries) && HasStep(Of(a, job), id)
    ensures HasStep(Of(b, job), id)
  {
    hide ParentsEarlier, Wrote;
    var j :| 0 <= j < |Of(a, job)| && Of(a, job)[j].step.stepId == id;
    assert Of(b, job)[j] == Of(b, job)[..|Of(a, job)|][j];
  }

  lemma OneEvent(events: seq<AuditEvent>, e: AuditEvent, x: TrailEntry)
    requires Wrote(e, x) && (x.parent == "" || HasStep(events, x.parent))
    ensures Grows(events, events + [e], [x]) && HasStep(events + [e], e.step.stepId)
  {
    assert (events + [e])[..|events|] == events;
    if ParentsEarlier(events) {
      ParentsEarlierMore(events, e);
    }
    assert (events + [e])[|events|] == e;
  }

  // One entry under a parent that is already in the trail, or at its root. The clock is read once
  // for every entry, and the step id is the store's next number.
  method Note(audit: SqliteAuditStore, job: string, clock: nat -> string, x: TrailEntry) returns (stepId: string)
    requires audit.Valid() && (x.parent == "" || HasStep(Of(audit.log, job), x.parent))
    modifies audit
    ensures audit.Valid()
    ensures Extends(old(audit.log), audit.log, job, [x])
    ensures HasStep(Of(audit.log, job), stepId) && stepId == StepId(old(audit.nextSeq))
    ensures var e := Of(audit.log, job)[|old(Of(audit.log, job))|];
            && e.ts == clock(old(audit.nextSeq)) && e.step.stepId == stepId
            && Says(e, x.action, x.detail, x.parent, x.tool, x.target, x.resultHash)
            && e.body.context == x.context && e.step.capabilities == x.capabilities
  {
    hide Appended, Grows, StepId, HasStep;
    ghost var before := Of(audit.log, job);
    var e := audit.Append(job, clock(audit.nextSeq), Body(x.action, WORKER_ACTOR, x.detail, x.context),
                          x.parent, x.tool, x.capabilities, x.target, x.resultHash);
    NumbersAreSteps(e.seqNo);
    OneEvent(before, e, x);
    stepId := e.step.stepId;
  }

  // ---- observed tool calls -----------------------------------------------

  // A tool call under the step that made it: the tool it counts as, and what was called.
  function ToolEntry(parent: string, args: string, s: Step): TrailEntry
  {
    TrailEntry(TOOL_CALL, if s.call.command != "" then s.call.command else s.call.name,
               map["tool_use_id" := s.call.toolUseId, "is_error" := if s.call.isError then "True" else "False"],
               parent, s.tool, [], args, s.call.resultHash)
  }

  // An event that shows a tool call.
  predicate ShowsCall(e: AuditEvent, parent: string, args: string, s: Step)
  {
    && Says(e, "tool_call", if s.call.command == "" then s.call.name else s.call.command, parent, s.tool, args, s.call.resultHash)
    && Notes(e, "tool_use_id", s.call.toolUseId) && Notes(e, "is_error", if s.call.isError then "True" else "False")
  }

  lemma ToolEntryShows(e: AuditEvent, parent: string, args: string, s: Step)
    requires Wrote(e, ToolEntry(parent, args, s))
    ensures ShowsCall(e, parent, args, s)
  {
    assert "tool_use_id"[0] == 't' && "is_error"[0] == 'i';
  }

  function ToolEntries(parent: string, args: string, steps: seq<Step>): (r: seq<TrailEntry>)
    ensures |r| == |steps|
  {
    seq(|steps|, i requires 0 <= i < |steps| => ToolEntry(parent, args, steps[i]))
  }

  lemma CallsShown(a: Log, b: Log, job: string, parent: string, args: string, steps: seq<Step>)
    requires Extends(a, b, job, ToolEntries(parent, args, steps))
    ensures var n := |Of(a, job)|;
            |Of(b, job)| == n + |steps| && forall i :: 0 <= i < |steps| ==> ShowsCall(Of(b, job)[n + i], parent, args, steps[i])
  {
    hide Extends, ShowsCall, Wrote, ToolEntry;
    var entries, n := ToolEntries(parent, args, steps), |Of(a, job)|;
    WrittenAt(a, b, job, entries);
    forall i | 0 <= i < |steps| ensures ShowsCall(Of(b, job)[n + i], parent, args, steps[i]) {
      assert Wrote(Of(b, job)[n + i], entries[i]) && entries[i] == ToolEntry(parent, args, steps[i]);
      ToolEntryShows(Of(b, job)[n + i], parent, args, steps[i]);
    }
  }

  // The observed tool calls, as children of the step that made them.
  method RecordToolSteps(audit: SqliteAuditStore, job: string, clock: nat -> string, parent: string, args: string, steps: seq<Step>)
    requires audit.Valid() && HasStep(Of(audit.log, job), parent)
    modifies audit
    ensures audit.Valid()
    ensures Extends(old(audit.log), audit.log, job, ToolEntries(parent, args, steps))
    ensures HasStep(Of(audit.log, job), parent)
    ensures var n := |old(Of(audit.log, job))|;
            && |Of(audit.log, job)| == n + |steps|
            && forall i :: 0 <= i < |steps| ==> ShowsCall(Of(audit.log, job)[n + i], parent, args, steps[i])
  {
    hide Extends, HasStep, ShowsCall;
    ghost var before := audit.log;
    Stays(before, job);
    for i := 0 to |steps|
      invariant audit.Valid()
      invariant Extends(before, audit.log, job, ToolEntries(parent, args, steps[..i]))
      invariant HasStep(Of(audit.log, job), parent)
    {
      ghost var middle := audit.log;
      var id := Note(audit, job, clock, ToolEntry(parent, args, steps[i]));
      KeepsStep(middle, audit.log, job, [ToolEntry(parent, args, steps[i])], parent);
      Then(before, middle, audit.log, job, ToolEntries(parent, args, steps[..i]), [ToolEntry(parent, args, steps[i])]);
      assert ToolEntries(parent, args, steps[..i + 1]) == ToolEntries(parent, args, steps[..i]) + [ToolEntry(parent, args, steps[i])];
    }
    assert steps[..|steps|] == steps;
    CallsShown(before, audit.log, job, parent, args, steps);
  }

  // ---- the step a credential answers to ----------------------------------

  const LISTING_LIMIT := 100

  // What a listing shows: the oldest hundred events.
  function Oldest(events: seq<AuditEvent>): seq<AuditEvent>
  {
    if LISTING_LIMIT < |events| then events[..LISTING_LIMIT] else events
  }

  // A human's approval, or the gate it answers to.
  predicate IsDecision(e: AuditEvent)
  {
    (e.body.action == APPROVED || e.body.action == AWAITING_APPROVAL) && e.step.stepId != ""
  }

  lemma DecisionIs(e: AuditEvent)
    ensures IsDecision(e) <==> e.step.stepId != "" && (e.body.action == "approved" || e.body.action == "awaiting_approval")
  {
  }

  ghost predicate LatestDecision(events: seq<AuditEvent>, id: string)
  {
    if id == "" then forall k :: 0 <= k < |events| ==> !IsDecision(events[k])
    else
      exists i :: 0 <= i < |events| && IsDecision(events[i]) && events[i].step.stepId == id
                  && forall k :: i < k < |events| ==> !IsDecision(events[k])
  }

  // The step that stands for the decision on a job: the latest its listing shows.
  ghost predicate DecisionSeen(events: seq<AuditEvent>, id: string)
  {
    LatestDecision(Oldest(Listing(events)), id)
  }

  method ApprovalStepId(audit: SqliteAuditStore, job: string) returns (id: string)
    requires audit.Valid()
    ensures DecisionSeen(Of(audit.log, job), id)
    ensures id == "" || HasStep(Of(audit.log, job), id)
  {
    hide Appended, Sort, ReadBack;
    var events := audit.ListForJob(job, LISTING_LIMIT);
    var i := |events|;
    while i > 0
      invariant 0 <= i <= |events|
      invariant forall k :: i <= k < |events| ==> !IsDecision(events[k])
    {
      i := i - 1;
      var e := events[i];
      if IsDecision(e) {
        ListedIsAppended(audit, job, e);
        return e.step.stepId;
      }
    }
    return "";
  }

  lemma ListedIsAppended(audit: SqliteAuditStore, job: string, e: AuditEvent)
    requires audit.Valid() && e in Listing(audit.EventsOf(job))
    ensures HasStep(Of(audit.log, job), e.step.stepId)
  {
    hide Appended, Sort, FromRow, ToRow;
    var events := audit.EventsOf(job);
    NothingAppended();
    AppendedDistinct(events);
    ReadBackKeepsOrder(events);
    SortOrders(ReadBack(events));
    var k :| 0 <= k < |ReadBack(events)| && ReadBack(events)[k] == e;
    SameStepId(events[k]);
  }

  lemma SameStepId(e: AuditEvent)
    ensures FromRow(ToRow(e)).step.stepId == e.step.stepId
  {
  }

  // The step found is the latest decision of the whole trail exactly when none comes after the
  // hundredth event: an approval behind a long run of tool calls is not seen.
  lemma FoundIsLatestIffSeen(events: seq<AuditEvent>, id: string)
    requires LatestDecision(Oldest(events), id)
    requires forall i, j :: 0 <= i < j < |events| ==> events[i].step.stepId != events[j].step.stepId
    ensures LatestDecision(events, id) <==> forall k :: 100 <= k < |events| ==> !IsDecision(events[k])
  {
    var seen := Oldest(events);
    assert forall k :: 0 <= k < |seen| ==> seen[k] == events[k];
    if id != "" {
      var i :| 0 <= i < |seen| && IsDecision(seen[i]) && seen[i].step.stepId == id && forall k :: i < k < |seen| ==> !IsDecision(seen[k]);
      assert IsDecision(events[i]);
      if LatestDecision(events, id) {
        var j :| 0 <= j < |events| && IsDecision(events[j]) && events[j].step.stepId == id
                 && forall k :: j < k < |events| ==> !IsDecision(events[k]);
        assert i == j;
      }
    }
  }

  // ---- an approval the listing does not show -----------------------------

  // A trail one store appended within one tick of the clock.
  ghost predicate OneTick(events: seq<AuditEvent>)
  {
    && Appended(events)
    && forall i :: 0 <= i < |events| ==>
         events[i].ts == "t" && events[i].seqNo == i + 1 && events[i].step.stepId == StepId(i + 1) && events[i].step.capabilities == []
  }

  // What a store appends next.
  function NextEvent(events: seq<AuditEvent>, action: string): AuditEvent
  {
    var n := |events| + 1;
    Sealed(AuditEvent("j", "t", n, Body(action, WORKER_ACTOR, "", map[]), LastHash(events), "", Trajectory(StepId(n), "", "", [], "", "")))
  }

  lemma OneTickMore(events: seq<AuditEvent>, action: string)
    requires OneTick(events)
    ensures OneTick(events + [NextEvent(events, action)])
  {
    hide EventHash, Appended, StepId, Lex.Less;
    var e := NextEvent(events, action);
    LastIsLatest(events);
    HashIgnoresItself(e.(eventHash := ""));
    AppendedMore(events, e);
  }

  lemma LastIsLatest(events: seq<AuditEvent>)
    requires OneTick(events)
    ensures IsLatestHash(events, LastHash(events))
  {
    hide Appended, StepId, Lex.Less;
    if events != [] {
      assert IsLatest(events, |events| - 1);
    }
  }

  lemma OneTickListing(events: seq<AuditEvent>)
    requires OneTick(events)
    ensures Listing(events) == events
  {
    hide Appended, Listing, StepId;
    Lex.Irreflexive("t");
    LimitedListingsVerify(events);
  }

  lemma {:induction false} ToolCalls(n: nat) returns (events: seq<AuditEvent>)
    ensures |events| == n && OneTick(events)
    ensures forall i :: 0 <= i < n ==> events[i].body.action == TOOL_CALL
  {
    hide OneTick, StepId;
    if n == 0 {
      events := [];
      NothingYetAppended();
    } else {
      var init := ToolCalls(n - 1);
      OneTickMore(init, TOOL_CALL);
      events := init + [NextEvent(init, TOOL_CALL)];
    }
  }

  lemma NothingYetAppended()
    ensures OneTick([])
  {
    NothingAppended();
  }

  lemma StepsDiffer(events: seq<AuditEvent>)
    requires OneTick(events)
    ensures forall i, j :: 0 <= i < j < |events| ==> events[i].step.stepId != events[j].step.stepId
  {
    hide Appended, StepId;
    forall i, j | 0 <= i < j < |events| ensures events[i].step.stepId != events[j].step.stepId {
      if events[i].step.stepId == events[j].step.stepId {
        StepIdsDiffer(i + 1, j + 1);
      }
    }
  }

  // A store appends a hundred tool calls or more, and then the approval: its listing shows no
  // decision, although the trail ends in one.
  lemma ApprovalBehindToolCalls(n: nat) returns (events: seq<AuditEvent>)
    requires n >= 100
    ensures |events| == n + 1 && Appended(events) && Listing(events) == events
    ensures forall i, j :: 0 <= i < j < |events| ==> events[i].step.stepId != events[j].step.stepId
    ensures IsDecision(events[n]) && DecisionSeen(events, "") && !LatestDecision(events, "")
  {
    hide StepId, Listing, EventHash, Appended;
    var calls := ToolCalls(n);
    OneTickMore(calls, APPROVED);
    events := calls + [NextEvent(calls, APPROVED)];
    OneTickListing(events);
    StepsDiffer(events);
    NoCallDecides();
    NumbersAreSteps(n + 1);
    assert events[n].body.action == APPROVED;
  }

  lemma NoCallDecides()
    ensures TOOL_CALL != APPROVED && TOOL_CALL != AWAITING_APPROVAL
  {
    assert TOOL_CALL[0] == 't' && APPROVED[0] == 'a' && AWAITING_APPROVAL[0] == 'a';
  }

  lemma NumbersAreSteps(n: nat)
    ensures StepId(n) != ""
  {
  }
}
