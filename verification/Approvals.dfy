/** Decisions on a waiting job, and the review modal that shows the diff they are about. */
module Approvals {
  import opened Wrappers
  import opened Jobs
  import opened JobStore
  import opened SqliteJobs
  import opened AuditStore
  import opened AuditEvents
  import Trail

  const APPROVED := "approved"
  const REJECTED := "rejected"
  const AUDIT_DETAIL := "via slack"

  // `ok` is false when the job is not waiting: somebody else was first, or it never came to the gate.
  datatype Decision = Decision(ok: bool, status: Option<Status>)

  // What a decision asks of the store.
  function DecisionCall(id: string, approver: string, approve: bool): Operation
  {
    if approve then Operation.Approve(id, approver) else Operation.Reject(id, approver)
  }

  // The entry a decision leaves: who decided, and the hash the job was approved with.
  predicate IsEntry(e: AuditEvent, id: string, approver: string, approve: bool, job: Job)
  {
    && e.jobId == id && e.step.parentStepId == ""
    && e.body == Body(if approve then "approved" else "rejected", approver, "via slack",
                      map["approval_hash" := if job.gate.approvalHash.Some? then job.gate.approvalHash.value else ""])
  }

  // An approval is a decision that a credential can answer to; a rejection is none.
  lemma EntryDecides(e: AuditEvent, id: string, approver: string, approve: bool, job: Job)
    requires IsEntry(e, id, approver, approve, job) && e.step.stepId != ""
    ensures Trail.IsDecision(e) <==> approve
  {
    assert "rejected"[0] == 'r' && "awaiting_approval"[0] == 'a' && "approved"[0] == 'a';
  }

  // Without an audit store the decision is made all the same, and nothing is written.
  method ApplyDecision(jobs: SqliteJobStore, audit: SqliteAuditStore?, id: string, approver: string, approve: bool, now: Time, ts: string)
    returns (d: Decision)
    requires jobs.Valid() && (audit != null ==> audit.Valid())
    modifies jobs, audit
    ensures jobs.Valid() && (audit != null ==> audit.Valid())
    ensures exists reply :: Step(old(jobs.jobs), DecisionCall(id, approver, approve), now, jobs.jobs, One(reply))
                            && d == (if reply.Some? then Decision(true, Some(reply.value.status)) else Decision(false, None))
    ensures !d.ok ==> jobs.jobs == old(jobs.jobs) && (audit != null ==> audit.log == old(audit.log))
    ensures d.ok ==>
              && id in old(jobs.jobs) && old(jobs.jobs)[id].status == AwaitingApproval
              && id in jobs.jobs && jobs.jobs[id].status == (if approve then Status.Approved else Status.Rejected)
    ensures d.ok && audit != null ==>
              && |audit.EventsOf(id)| == |old(audit.EventsOf(id))| + 1
              && audit.log == old(audit.log)[id := audit.EventsOf(id)]
              && IsEntry(audit.EventsOf(id)[|old(audit.EventsOf(id))|], id, approver, approve, jobs.jobs[id])
              && (Trail.IsDecision(audit.EventsOf(id)[|old(audit.EventsOf(id))|]) <==> approve)
  {
    hide KeyedById, Appended, StepId, Trail.IsDecision;
    var job: Option<Job>;
    if approve {
      job := jobs.Approve(id, approver, now);
    } else {
      job := jobs.Reject(id, approver, now);
    }
    assert Step(old(jobs.jobs), DecisionCall(id, approver, approve), now, jobs.jobs, One(job));
    if job.None? {
      return Decision(false, None);
    }
    if audit != null {
      var hash := if job.value.gate.approvalHash.Some? then job.value.gate.approvalHash.value else "";
      var e := audit.Append(id, ts, Body(if approve then APPROVED else REJECTED, approver, AUDIT_DETAIL, map["approval_hash" := hash]),
                            "", "", [], "", "");
      Trail.NumbersAreSteps(e.seqNo);
      EntryDecides(e, id, approver, approve, job.value);
    }
    d := Decision(true, Some(job.value.status));
  }

  // Two people press at once: whoever comes second changes nothing and is told so.
  method DecideTwice(jobs: SqliteJobStore, audit: SqliteAuditStore?, id: string, first: string, second: string,
                     approve1: bool, approve2: bool, now: Time, ts: string) returns (d1: Decision, d2: Decision)
    requires jobs.Valid() && (audit != null ==> audit.Valid())
    modifies jobs, audit
    ensures !(d1.ok && d2.ok)
    ensures d1.ok <==> id in old(jobs.jobs) && old(jobs.jobs)[id].status == AwaitingApproval && (approve1 ==> HasHash(old(jobs.jobs)[id]))
    ensures d1.ok ==> id in jobs.jobs && jobs.jobs[id].gate.approvedBy == Some(first)
  {
    hide KeyedById, Appended;
    d1 := ApplyDecision(jobs, audit, id, first, approve1, now, ts);
    d2 := ApplyDecision(jobs, audit, id, second, approve2, now, ts);
  }

  // ---- the review modal --------------------------------------------------

  const CHUNK_MAX := 2800
  const CHUNK_COUNT := 10

  function Joined(chunks: seq<string>): string
  {
    if chunks == [] then "" else Joined(chunks[..|chunks| - 1]) + chunks[|chunks| - 1]
  }

  // The sections of the modal: together the beginning of the diff, up to 28 000 characters, and a
  // note exactly when something was cut.
  method ModalDiffBlocks(diff: Option<string>) returns (sections: seq<string>, note: bool)
    ensures var text := if diff.Some? && diff.value != "" then diff.value else "(no diff)";
            && Joined(sections) == (if |text| <= 28000 then text else text[..28000])
            && (note <==> Joined(sections) != text)
    ensures |sections| <= 10 && forall i :: 0 <= i < |sections| ==> 0 < |sections[i]| <= 2800
  {
    var text := if diff.Some? && diff.value != "" then diff.value else "(no diff)";
    var limit := CHUNK_MAX * CHUNK_COUNT;
    note := |text| > limit;
    var shown := if note then text[..limit] else text;
    sections := [];
    var offset := 0;
    while offset < |shown|
      invariant 0 <= offset <= |shown| && (offset < |shown| ==> offset == CHUNK_MAX * |sections|)
      invariant |sections| * CHUNK_MAX < offset + CHUNK_MAX && Joined(sections) == shown[..offset]
      invariant forall i :: 0 <= i < |sections| ==> 0 < |sections[i]| <= CHUNK_MAX
    {
      var end := if offset + CHUNK_MAX < |shown| then offset + CHUNK_MAX else |shown|;
      assert (sections + [shown[offset..end]])[..|sections|] == sections;
      assert shown[..end] == shown[..offset] + shown[offset..end];
      sections := sections + [shown[offset..end]];
      offset := end;
    }
    assert shown[..|shown|] == shown;
  }
}
