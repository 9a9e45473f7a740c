/** The job record, its status machine, and what each store operation does to one record. */
module Jobs {
  import opened Wrappers

  // Store clocks: ISO timestamps of fixed width, ordered as text exactly as in time (KeyOrder).
  type Time = int

  datatype Status = Pending | AwaitingApproval | Approved | Running | Done | Failed | Rejected

  datatype Source = Slack | Web | Agent

  // What the producer asked for; no later operation writes these fields.
  datatype Request = Request(
    command: string,
    args: string,
    source: Source,
    requestedBy: string,
    channel: Option<string>,
    rationale: Option<string>)

  // What the gate and the approver recorded.
  datatype Gate = Gate(
    diff: Option<string>,
    executionPlan: Option<string>,
    executionPlanHash: Option<string>,
    approvedBy: Option<string>,
    approvedAt: Option<Time>,
    approvalHash: Option<string>)

  // What the worker reported at the end.
  datatype Report = Report(result: Option<string>, costUsd: Option<real>, tokens: Option<int>, error: Option<string>)

  datatype Job = Job(
    id: string,
    request: Request,
    createdAt: Time,
    status: Status,
    updatedAt: Time,
    gate: Gate,
    report: Report)

  const ORPHANED_RUNNING_ERROR := "orphaned running job reclaimed (worker interrupted before completion)"

  predicate Terminal(s: Status)
  {
    s == Done || s == Failed || s == Rejected
  }

  // Position in CLAIMABLE_STATUSES: approved jobs first, then new ones.
  function Priority(s: Status): (p: nat)
    requires Claimable(s)
  {
    if s == Approved then 0 else 1
  }

  predicate Claimable(s: Status)
  {
    s == Approved || s == Pending
  }

  // A job is executed twice at most: to prepare, and once approved.
  datatype Phase = Prepare | Execute

  function PhaseOf(j: Job): Phase
  {
    if j.gate.approvedBy.Some? then Execute else Prepare
  }

  predicate ApprovedPr(j: Job)
  {
    j.request.command == "pr" && PhaseOf(j) == Execute
  }

  // ---- what the operations write -----------------------------------------

  function NewJob(id: string, request: Request, now: Time): Job
  {
    Job(id, request, now, Pending, now, Gate(None, None, None, None, None, None), Report(None, None, None, None))
  }

  function Or<T>(value: Option<T>, kept: Option<T>): Option<T>
  {
    if value.Some? then value else kept
  }

  function Claimed(j: Job, now: Time): Job
  {
    j.(status := Running, updatedAt := now)
  }

  function Reclaimed(j: Job, now: Time): Job
  {
    j.(status := Failed, report := j.report.(error := Some(ORPHANED_RUNNING_ERROR)), updatedAt := now)
  }

  function Parked(j: Job, diff: string, plan: Option<string>, hash: Option<string>, now: Time): Job
  {
    j.(status := AwaitingApproval, updatedAt := now,
       gate := j.gate.(diff := Some(diff), executionPlan := Or(plan, j.gate.executionPlan),
                       executionPlanHash := Or(hash, j.gate.executionPlanHash)))
  }

  function ApprovedJob(j: Job, approver: string, hash: string, now: Time): Job
  {
    j.(status := Approved, updatedAt := now,
       gate := j.gate.(approvedBy := Some(approver), approvedAt := Some(now), approvalHash := Some(hash)))
  }

  function RejectedJob(j: Job, approver: string, now: Time): Job
  {
    j.(status := Rejected, updatedAt := now, gate := j.gate.(approvedBy := Some(approver), approvedAt := Some(now)))
  }

  datatype Outcome = Outcome(status: Status, report: Report)

  function FailedReport(error: string): Report
  {
    Report(None, None, None, Some(error))
  }

  function Completed(j: Job, o: Outcome, now: Time): Job
  {
    j.(status := o.status, updatedAt := now,
       report := Report(Or(o.report.result, j.report.result), Or(o.report.costUsd, j.report.costUsd),
                        Or(o.report.tokens, j.report.tokens), Or(o.report.error, j.report.error)))
  }

  // A new record, a claimed one and an orphaned one, field by field.
  lemma RecordsAre(id: string, request: Request, j: Job, now: Time)
    ensures NewJob(id, request, now)
         == Job(id, request, now, Pending, now, Gate(None, None, None, None, None, None), Report(None, None, None, None))
    ensures Claimed(j, now) == Job(j.id, j.request, j.createdAt, Running, now, j.gate, j.report)
    ensures Reclaimed(j, now)
         == Job(j.id, j.request, j.createdAt, Failed, now, j.gate,
                Report(j.report.result, j.report.costUsd, j.report.tokens,
                       Some("orphaned running job reclaimed (worker interrupted before completion)")))
  {
  }

  // `not job.execution_plan_hash`: absent or empty.
  predicate HasHash(j: Job)
  {
    j.gate.executionPlanHash.Some? && j.gate.executionPlanHash.value != ""
  }

  // ---- updates as lists of columns ---------------------------------------

  datatype Column =
    | IdColumn | CommandColumn | ArgsColumn | SourceColumn | StatusColumn | RequestedByColumn | CreatedAtColumn
    | UpdatedAtColumn | ChannelColumn | DiffColumn | ResultColumn | CostColumn | TokensColumn | ErrorColumn
    | ApprovedByColumn | ApprovedAtColumn | RationaleColumn | PlanColumn | PlanHashColumn
    | ApprovalHashColumn | StatusIndexColumn

  datatype Value =
    | Text(s: string)
    | Moment(t: Time)
    | Amount(r: real)
    | Count(n: int)
    | StatusValue(status: Status)
    | SourceValue(source: Source)

  datatype Assignment = Assignment(column: Column, value: Value)

  // An entry of the `extra` dict: a `None` value is skipped.
  datatype Extra = Extra(column: Column, value: Option<Value>)

  predicate Typed(a: Assignment)
  {
    match a.column
    case DiffColumn | ResultColumn | ErrorColumn | ApprovedByColumn | PlanColumn | PlanHashColumn | ApprovalHashColumn => a.value.Text?
    case ApprovedAtColumn => a.value.Moment?
    case CostColumn => a.value.Amount?
    case TokensColumn => a.value.Count?
    case _ => false
  }

  function SetColumn(j: Job, a: Assignment): Job
  {
    match a
    case Assignment(DiffColumn, Text(s)) => j.(gate := j.gate.(diff := Some(s)))
    case Assignment(ResultColumn, Text(s)) => j.(report := j.report.(result := Some(s)))
    case Assignment(ErrorColumn, Text(s)) => j.(report := j.report.(error := Some(s)))
    case Assignment(ApprovedByColumn, Text(s)) => j.(gate := j.gate.(approvedBy := Some(s)))
    case Assignment(PlanColumn, Text(s)) => j.(gate := j.gate.(executionPlan := Some(s)))
    case Assignment(PlanHashColumn, Text(s)) => j.(gate := j.gate.(executionPlanHash := Some(s)))
    case Assignment(ApprovalHashColumn, Text(s)) => j.(gate := j.gate.(approvalHash := Some(s)))
    case Assignment(ApprovedAtColumn, Moment(t)) => j.(gate := j.gate.(approvedAt := Some(t)))
    case Assignment(CostColumn, Amount(r)) => j.(report := j.report.(costUsd := Some(r)))
    case Assignment(TokensColumn, Count(n)) => j.(report := j.report.(tokens := Some(n)))
    case _ => j
  }

  // The `SET` list of an update statement, applied left to right.
  function SetColumns(j: Job, parts: seq<Assignment>): Job
  {
    if parts == [] then j else SetColumn(SetColumns(j, parts[..|parts| - 1]), parts[|parts| - 1])
  }

  function Merge1(j: Job, e: Extra): Job
  {
    if e.value.Some? then SetColumn(j, Assignment(e.column, e.value.value)) else j
  }

  // What the entries of an `extra` dict do to a record.
  function Merge(j: Job, extra: seq<Extra>): Job
    decreases |extra|
  {
    if extra == [] then j else Merge(Merge1(j, extra[0]), extra[1..])
  }

  lemma {:induction false} MergeKeepsId(j: Job, extra: seq<Extra>)
    ensures Merge(j, extra).id == j.id
    decreases |extra|
  {
    if extra != [] {
      MergeKeepsId(Merge1(j, extra[0]), extra[1..]);
    }
  }

  // The assignments an `extra` dict turns into.
  function Parts(extra: seq<Extra>): seq<Assignment>
    decreases |extra|
  {
    if extra == [] then []
    else if extra[0].value.Some? then [Assignment(extra[0].column, extra[0].value.value)] + Parts(extra[1..])
    else Parts(extra[1..])
  }

  lemma PartsMore(before: seq<Assignment>, e: Extra, rest: seq<Extra>)
    ensures before + Parts([e] + rest)
         == (if e.value.Some? then before + [Assignment(e.column, e.value.value)] else before) + Parts(rest)
  {
    assert ([e] + rest)[1..] == rest;
    if e.value.Some? {
      Regroup(before, [Assignment(e.column, e.value.value)], Parts(rest));
    }
  }

  lemma Regroup<T>(a: seq<T>, b: seq<T>, c: seq<T>)
    ensures a + (b + c) == (a + b) + c
  {
  }

  // The record after a conditional update that succeeded.
  function Updated(j: Job, target: Status, extra: seq<Extra>, now: Time): Job
  {
    Merge(j.(status := target, updatedAt := now), extra)
  }

  lemma SetColumnsMore(j: Job, parts: seq<Assignment>, a: Assignment)
    ensures SetColumns(j, parts + [a]) == SetColumn(SetColumns(j, parts), a)
  {
    assert (parts + [a])[..|parts|] == parts;
  }

  lemma MergeFirst(j: Job, e: Extra, rest: seq<Extra>)
    ensures Merge(j, [e] + rest) == Merge(Merge1(j, e), rest)
  {
    assert ([e] + rest)[1..] == rest;
  }

  // The statement built from the dict does to a record what the dict says.
  lemma {:induction false} SetColumnsParts(j: Job, before: seq<Assignment>, extra: seq<Extra>)
    ensures SetColumns(j, before + Parts(extra)) == Merge(SetColumns(j, before), extra)
    decreases |extra|
  {
    if extra == [] {
      assert before + [] == before;
    } else {
      var e, rest := extra[0], extra[1..];
      assert extra == [e] + rest;
      PartsMore(before, e, rest);
      MergeFirst(SetColumns(j, before), e, rest);
      if e.value.Some? {
        var a := Assignment(e.column, e.value.value);
        SetColumnsMore(j, before, a);
        SetColumnsParts(j, before + [a], rest);
      } else {
        SetColumnsParts(j, before, rest);
      }
    }
  }

  // The loop that builds the SET list.
  method AppendParts(first: seq<Assignment>, extra: seq<Extra>) returns (parts: seq<Assignment>)
    ensures parts == first + Parts(extra)
  {
    parts := first;
    for i := 0 to |extra|
      invariant parts + Parts(extra[i..]) == first + Parts(extra)
    {
      PartsMore(parts, extra[i], extra[i + 1..]);
      assert extra[i..] == [extra[i]] + extra[i + 1..];
      if extra[i].value.Some? {
        parts := parts + [Assignment(extra[i].column, extra[i].value.value)];
      }
    }
    assert extra[|extra|..] == [];
  }

  function TextExtra(column: Column, value: Option<string>): Extra
  {
    Extra(column, if value.Some? then Some(Text(value.value)) else None)
  }

  function AmountExtra(cost: Option<real>): Extra
  {
    Extra(CostColumn, if cost.Some? then Some(Amount(cost.value)) else None)
  }

  function CountExtra(tokens: Option<int>): Extra
  {
    Extra(TokensColumn, if tokens.Some? then Some(Count(tokens.value)) else None)
  }

  function ParkExtra(diff: string, plan: Option<string>, hash: Option<string>): seq<Extra>
  {
    [TextExtra(DiffColumn, Some(diff))] + ([TextExtra(PlanColumn, plan)] + ([TextExtra(PlanHashColumn, hash)] + []))
  }

  function ApproveExtra(approver: string, hash: string, now: Time): seq<Extra>
  {
    [TextExtra(ApprovedByColumn, Some(approver))]
    + ([Extra(ApprovedAtColumn, Some(Moment(now)))] + ([TextExtra(ApprovalHashColumn, Some(hash))] + []))
  }

  function RejectExtra(approver: string, now: Time): seq<Extra>
  {
    [TextExtra(ApprovedByColumn, Some(approver))] + ([Extra(ApprovedAtColumn, Some(Moment(now)))] + [])
  }

  function CompleteExtra(o: Outcome): seq<Extra>
  {
    [TextExtra(ResultColumn, o.report.result)]
    + ([AmountExtra(o.report.costUsd)] + ([CountExtra(o.report.tokens)] + ([TextExtra(ErrorColumn, o.report.error)] + [])))
  }

  function ReclaimExtra(): seq<Extra>
  {
    [TextExtra(ErrorColumn, Some(ORPHANED_RUNNING_ERROR))] + []
  }

  // ---- the column lists mean the record updates --------------------------

  lemma ParkUpdates(j: Job, diff: string, plan: Option<string>, hash: Option<string>, now: Time)
    ensures Updated(j, AwaitingApproval, ParkExtra(diff, plan, hash), now) == Parked(j, diff, plan, hash, now)
  {
    var j0 := j.(status := AwaitingApproval, updatedAt := now);
    var e0, e1, e2 := TextExtra(DiffColumn, Some(diff)), TextExtra(PlanColumn, plan), TextExtra(PlanHashColumn, hash);
    MergeFirst(j0, e0, [e1] + ([e2] + []));
    MergeFirst(Merge1(j0, e0), e1, [e2] + []);
    MergeFirst(Merge1(Merge1(j0, e0), e1), e2, []);
  }

  lemma ApproveUpdates(j: Job, approver: string, hash: string, now: Time)
    ensures Updated(j, Approved, ApproveExtra(approver, hash, now), now) == ApprovedJob(j, approver, hash, now)
  {
    var j0 := j.(status := Approved, updatedAt := now);
    var e0, e1 := TextExtra(ApprovedByColumn, Some(approver)), Extra(ApprovedAtColumn, Some(Moment(now)));
    var e2 := TextExtra(ApprovalHashColumn, Some(hash));
    MergeFirst(j0, e0, [e1] + ([e2] + []));
    MergeFirst(Merge1(j0, e0), e1, [e2] + []);
    MergeFirst(Merge1(Merge1(j0, e0), e1), e2, []);
  }

  lemma RejectUpdates(j: Job, approver: string, now: Time)
    ensures Updated(j, Rejected, RejectExtra(approver, now), now) == RejectedJob(j, approver, now)
  {
    var j0 := j.(status := Rejected, updatedAt := now);
    var e0, e1 := TextExtra(ApprovedByColumn, Some(approver)), Extra(ApprovedAtColumn, Some(Moment(now)));
    MergeFirst(j0, e0, [e1] + []);
    MergeFirst(Merge1(j0, e0), e1, []);
  }

  // What each entry of a report does to a record.
  lemma ReportEntries(j: Job, r: Report)
    ensures Merge1(j, TextExtra(ResultColumn, r.result)) == j.(report := j.report.(result := Or(r.result, j.report.result)))
    ensures Merge1(j, AmountExtra(r.costUsd)) == j.(report := j.report.(costUsd := Or(r.costUsd, j.report.costUsd)))
    ensures Merge1(j, CountExtra(r.tokens)) == j.(report := j.report.(tokens := Or(r.tokens, j.report.tokens)))
    ensures Merge1(j, TextExtra(ErrorColumn, r.error)) == j.(report := j.report.(error := Or(r.error, j.report.error)))
  {
  }

  lemma CompleteUpdates(j: Job, o: Outcome, now: Time)
    ensures Updated(j, o.status, CompleteExtra(o), now) == Completed(j, o, now)
  {
    hide Merge1, TextExtra, AmountExtra, CountExtra, Or;
    var j0 := j.(status := o.status, updatedAt := now);
    var e0, e3 := TextExtra(ResultColumn, o.report.result), TextExtra(ErrorColumn, o.report.error);
    var e1, e2 := AmountExtra(o.report.costUsd), CountExtra(o.report.tokens);
    var j1 := Merge1(j0, e0);
    var j2 := Merge1(j1, e1);
    var j3 := Merge1(j2, e2);
    MergeFirst(j0, e0, [e1] + ([e2] + ([e3] + [])));
    MergeFirst(j1, e1, [e2] + ([e3] + []));
    MergeFirst(j2, e2, [e3] + []);
    MergeFirst(j3, e3, []);
    ReportEntries(j0, o.report);
    ReportEntries(j1, o.report);
    ReportEntries(j2, o.report);
    ReportEntries(j3, o.report);
  }

  lemma ReclaimUpdates(j: Job, now: Time)
    ensures Updated(j, Failed, ReclaimExtra(), now) == Reclaimed(j, now)
  {
    MergeFirst(j.(status := Failed, updatedAt := now), TextExtra(ErrorColumn, Some(ORPHANED_RUNNING_ERROR)), []);
  }
}
