/**
 The DynamoDB job store: one item of named attributes per job, a status index that is an
 attribute of the item, and conditional single-item updates.
 */
module DynamoJobs {
  import opened Wrappers
  import opened Jobs
  import opened JobStore
  import OrderedQuery

  const CLAIM_SCAN_LIMIT := 10

  type Item = map<Column, Value>

  // ---- records and items -------------------------------------------------

  function TextOf(item: Item, c: Column): Option<string>
  {
    if c in item && item[c].Text? then Some(item[c].s) else None
  }

  function MomentOf(item: Item, c: Column): Option<Time>
  {
    if c in item && item[c].Moment? then Some(item[c].t) else None
  }

  function AmountOf(item: Item, c: Column): Option<real>
  {
    if c in item && item[c].Amount? then Some(item[c].r) else None
  }

  function CountOf(item: Item, c: Column): Option<int>
  {
    if c in item && item[c].Count? then Some(item[c].n) else None
  }

  predicate HasRequired(item: Item)
  {
    && IdColumn in item && item[IdColumn].Text?
    && CommandColumn in item && item[CommandColumn].Text?
    && SourceColumn in item && item[SourceColumn].SourceValue?
    && StatusColumn in item && item[StatusColumn].StatusValue?
    && CreatedAtColumn in item && item[CreatedAtColumn].Moment?
    && UpdatedAtColumn in item && item[UpdatedAtColumn].Moment?
  }

  function TextOr(item: Item, c: Column, default: string): string
  {
    var t := TextOf(item, c);
    if t.Some? then t.value else default
  }

  function RequestOf(item: Item): Request
    requires HasRequired(item)
  {
    Request(item[CommandColumn].s, TextOr(item, ArgsColumn, ""), item[SourceColumn].source,
            TextOr(item, RequestedByColumn, ""), TextOf(item, ChannelColumn), TextOf(item, RationaleColumn))
  }

  function GateOf(item: Item): Gate
  {
    Gate(TextOf(item, DiffColumn), TextOf(item, PlanColumn), TextOf(item, PlanHashColumn), TextOf(item, ApprovedByColumn),
         MomentOf(item, ApprovedAtColumn), TextOf(item, ApprovalHashColumn))
  }

  function ReportOf(item: Item): Report
  {
    Report(TextOf(item, ResultColumn), AmountOf(item, CostColumn), CountOf(item, TokensColumn), TextOf(item, ErrorColumn))
  }

  function FromItem(item: Item): Job
    requires HasRequired(item)
  {
    Job(item[IdColumn].s, RequestOf(item), item[CreatedAtColumn].t, item[StatusColumn].status, item[UpdatedAtColumn].t,
        GateOf(item), ReportOf(item))
  }

  function AsText(v: Option<string>): Option<Value>
  {
    if v.Some? then Some(Text(v.value)) else None
  }

  function Attribute(j: Job, c: Column): Option<Value>
  {
    match c
    case IdColumn => Some(Text(j.id))
    case CommandColumn => Some(Text(j.request.command))
    case ArgsColumn => Some(Text(j.request.args))
    case SourceColumn => Some(SourceValue(j.request.source))
    case StatusColumn => Some(StatusValue(j.status))
    case StatusIndexColumn => Some(StatusValue(j.status))
    case RequestedByColumn => Some(Text(j.request.requestedBy))
    case CreatedAtColumn => Some(Moment(j.createdAt))
    case UpdatedAtColumn => Some(Moment(j.updatedAt))
    case ChannelColumn => AsText(j.request.channel)
    case RationaleColumn => AsText(j.request.rationale)
    case DiffColumn => AsText(j.gate.diff)
    case PlanColumn => AsText(j.gate.executionPlan)
    case PlanHashColumn => AsText(j.gate.executionPlanHash)
    case ApprovedByColumn => AsText(j.gate.approvedBy)
    case ApprovedAtColumn => if j.gate.approvedAt.Some? then Some(Moment(j.gate.approvedAt.value)) else None
    case ApprovalHashColumn => AsText(j.gate.approvalHash)
    case ResultColumn => AsText(j.report.result)
    case CostColumn => if j.report.costUsd.Some? then Some(Amount(j.report.costUsd.value)) else None
    case TokensColumn => if j.report.tokens.Some? then Some(Count(j.report.tokens.value)) else None
    case ErrorColumn => AsText(j.report.error)
  }

  // Attributes without a value are left out of the item.
  function ToItem(j: Job): Item
  {
    map c: Column | Attribute(j, c).Some? :: Attribute(j, c).value
  }

  lemma TextAttribute(j: Job, c: Column, v: Option<string>)
    requires Attribute(j, c) == AsText(v)
    ensures TextOf(ToItem(j), c) == v
  {
  }

  lemma OtherAttributes(j: Job)
    ensures MomentOf(ToItem(j), ApprovedAtColumn) == j.gate.approvedAt
    ensures AmountOf(ToItem(j), CostColumn) == j.report.costUsd
    ensures CountOf(ToItem(j), TokensColumn) == j.report.tokens
  {
  }

  lemma ItemHasRequired(j: Job)
    ensures HasRequired(ToItem(j)) && InIndex(ToItem(j))
  {
  }

  lemma RequestRoundTrip(j: Job)
    ensures HasRequired(ToItem(j)) && RequestOf(ToItem(j)) == j.request
  {
    ItemHasRequired(j);
    TextAttribute(j, ArgsColumn, Some(j.request.args));
    TextAttribute(j, RequestedByColumn, Some(j.request.requestedBy));
    TextAttribute(j, ChannelColumn, j.request.channel);
    TextAttribute(j, RationaleColumn, j.request.rationale);
  }

  lemma GateRoundTrip(j: Job)
    ensures GateOf(ToItem(j)) == j.gate
  {
    hide TextOf, MomentOf, AmountOf, CountOf, ToItem;
    OtherAttributes(j);
    TextAttribute(j, DiffColumn, j.gate.diff);
    TextAttribute(j, PlanColumn, j.gate.executionPlan);
    TextAttribute(j, PlanHashColumn, j.gate.executionPlanHash);
    TextAttribute(j, ApprovedByColumn, j.gate.approvedBy);
    TextAttribute(j, ApprovalHashColumn, j.gate.approvalHash);
  }

  lemma ReportRoundTrip(j: Job)
    ensures ReportOf(ToItem(j)) == j.report
  {
    hide TextOf, MomentOf, AmountOf, CountOf, ToItem;
    OtherAttributes(j);
    TextAttribute(j, ResultColumn, j.report.result);
    TextAttribute(j, ErrorColumn, j.report.error);
  }

  lemma ItemRoundTrip(j: Job)
    ensures HasRequired(ToItem(j)) && InIndex(ToItem(j)) && FromItem(ToItem(j)) == j
  {
    ItemHasRequired(j);
    RequestRoundTrip(j);
    GateRoundTrip(j);
    ReportRoundTrip(j);
  }

  // GSI1PK is "STATUS#" and the item's own status: the index lists a job under the status it has.
  predicate InIndex(item: Item)
  {
    StatusColumn in item && StatusIndexColumn in item && item[StatusIndexColumn] == item[StatusColumn]
  }

  function ApplySets(item: Item, parts: seq<Assignment>): Item
  {
    if parts == [] then item
    else ApplySets(item, parts[..|parts| - 1])[parts[|parts| - 1].column := parts[|parts| - 1].value]
  }

  predicate GateColumn(c: Column)
  {
    c == DiffColumn || c == PlanColumn || c == PlanHashColumn || c == ApprovedByColumn || c == ApprovedAtColumn || c == ApprovalHashColumn
  }

  predicate ReportColumn(c: Column)
  {
    c == ResultColumn || c == CostColumn || c == TokensColumn || c == ErrorColumn
  }

  // Parts of a record that a set attribute does not touch.
  lemma PutElsewhere(item: Item, c: Column, v: Value)
    ensures !GateColumn(c) ==> GateOf(item[c := v]) == GateOf(item)
    ensures !ReportColumn(c) ==> ReportOf(item[c := v]) == ReportOf(item)
  {
  }

  lemma SetGateAttribute(item: Item, a: Assignment)
    requires HasRequired(item) && Typed(a) && GateColumn(a.column)
    ensures GateOf(item[a.column := a.value]) == SetColumn(FromItem(item), a).gate
    ensures ReportOf(item[a.column := a.value]) == ReportOf(item)
    ensures SetColumn(FromItem(item), a) == FromItem(item).(gate := SetColumn(FromItem(item), a).gate)
  {
    hide HasRequired, RequestOf;
    PutElsewhere(item, a.column, a.value);
  }

  lemma SetReportAttribute(item: Item, a: Assignment)
    requires HasRequired(item) && Typed(a) && ReportColumn(a.column)
    ensures ReportOf(item[a.column := a.value]) == SetColumn(FromItem(item), a).report
    ensures GateOf(item[a.column := a.value]) == GateOf(item)
    ensures SetColumn(FromItem(item), a) == FromItem(item).(report := SetColumn(FromItem(item), a).report)
  {
    hide HasRequired, RequestOf;
    PutElsewhere(item, a.column, a.value);
  }

  // Setting an attribute of the item sets the column of the record it stands for.
  lemma SetAttribute(item: Item, a: Assignment)
    requires HasRequired(item) && Typed(a)
    ensures HasRequired(item[a.column := a.value]) && FromItem(item[a.column := a.value]) == SetColumn(FromItem(item), a)
    ensures InIndex(item) ==> InIndex(item[a.column := a.value])
  {
    assert GateColumn(a.column) || ReportColumn(a.column);
    if GateColumn(a.column) {
      SetGateAttribute(item, a);
    } else {
      SetReportAttribute(item, a);
    }
    assert RequestOf(item[a.column := a.value]) == RequestOf(item);
  }

  // The first three parts of every update: status, its index key, and the time.
  function StatusParts(target: Status, now: Time): seq<Assignment>
  {
    [Assignment(StatusColumn, StatusValue(target)), Assignment(StatusIndexColumn, StatusValue(target)), Assignment(UpdatedAtColumn, Moment(now))]
  }

  function Stamp(item: Item, target: Status, now: Time): Item
  {
    item[StatusColumn := StatusValue(target)][StatusIndexColumn := StatusValue(target)][UpdatedAtColumn := Moment(now)]
  }

  lemma StatusPartsStamp(item: Item, target: Status, now: Time)
    ensures ApplySets(item, StatusParts(target, now)) == Stamp(item, target, now)
  {
    var p := StatusParts(target, now);
    var first := p[..2][..1];
    assert ApplySets(item, first[..0]) == item;
    assert ApplySets(item, first) == item[StatusColumn := StatusValue(target)];
    assert ApplySets(item, p[..2]) == ApplySets(item, first)[StatusIndexColumn := StatusValue(target)];
  }

  lemma StampIsStatus(item: Item, target: Status, now: Time)
    requires HasRequired(item)
    ensures var item' := Stamp(item, target, now);
            && HasRequired(item') && InIndex(item')
            && FromItem(item') == FromItem(item).(status := target, updatedAt := now)
  {
    var item' := Stamp(item, target, now);
    assert RequestOf(item') == RequestOf(item);
    assert GateOf(item') == GateOf(item);
    assert ReportOf(item') == ReportOf(item);
  }

  lemma ApplySetsMore(item: Item, parts: seq<Assignment>, a: Assignment)
    ensures ApplySets(item, parts + [a]) == ApplySets(item, parts)[a.column := a.value]
  {
    assert (parts + [a])[..|parts|] == parts;
  }

  lemma {:induction false} SetAttributes(item: Item, before: seq<Assignment>, extra: seq<Extra>)
    requires HasRequired(ApplySets(item, before)) && InIndex(ApplySets(item, before)) && TypedExtra(extra)
    ensures var item' := ApplySets(item, before + Parts(extra));
            HasRequired(item') && InIndex(item') && FromItem(item') == Merge(FromItem(ApplySets(item, before)), extra)
    decreases |extra|
  {
    hide HasRequired, InIndex, FromItem;
    if extra == [] {
      assert before + [] == before;
    } else {
      var e, rest := extra[0], extra[1..];
      assert extra == [e] + rest;
      PartsMore(before, e, rest);
      MergeFirst(FromItem(ApplySets(item, before)), e, rest);
      if e.value.Some? {
        var a := Assignment(e.column, e.value.value);
        ApplySetsMore(item, before, a);
        SetAttribute(ApplySets(item, before), a);
        SetAttributes(item, before + [a], rest);
      } else {
        SetAttributes(item, before, rest);
      }
    }
  }

  // The update statement does to the item what `Updated` does to the record it stands for.
  lemma SetParts(item: Item, target: Status, extra: seq<Extra>, now: Time)
    requires HasRequired(item) && TypedExtra(extra)
    ensures var item' := ApplySets(item, StatusParts(target, now) + Parts(extra));
            HasRequired(item') && InIndex(item') && FromItem(item') == Updated(FromItem(item), target, extra, now)
    ensures FromItem(item).gate.executionPlanHash == TextOf(item, PlanHashColumn)
    ensures forall s :: HasItemStatus(item, s) <==> FromItem(item).status == s
    ensures Updated(FromItem(item), target, extra, now).id == FromItem(item).id
  {
    StatusPartsStamp(item, target, now);
    StampIsStatus(item, target, now);
    SetAttributes(item, StatusParts(target, now), extra);
    MergeKeepsId(FromItem(item).(status := target, updatedAt := now), extra);
  }

  predicate HasItemStatus(item: Item, s: Status)
  {
    StatusColumn in item && item[StatusColumn] == StatusValue(s)
  }

  predicate TypedExtra(extra: seq<Extra>)
  {
    forall e :: e in extra && e.value.Some? ==> Typed(Assignment(e.column, e.value.value))
  }

  lemma TypedFirst(e: Extra, rest: seq<Extra>)
    requires (e.value.Some? ==> Typed(Assignment(e.column, e.value.value))) && TypedExtra(rest)
    ensures TypedExtra([e] + rest)
  {
  }

  lemma ParkTyped(diff: string, plan: Option<string>, hash: Option<string>)
    ensures TypedExtra(ParkExtra(diff, plan, hash))
  {
    hide TypedExtra;
    var e0, e1, e2 := TextExtra(DiffColumn, Some(diff)), TextExtra(PlanColumn, plan), TextExtra(PlanHashColumn, hash);
    NothingTyped();
    TypedFirst(e2, []);
    TypedFirst(e1, [e2] + []);
    TypedFirst(e0, [e1] + ([e2] + []));
  }

  lemma ApproveTyped(approver: string, hash: string, now: Time)
    ensures TypedExtra(ApproveExtra(approver, hash, now))
  {
    hide TypedExtra;
    var e0, e1 := TextExtra(ApprovedByColumn, Some(approver)), Extra(ApprovedAtColumn, Some(Moment(now)));
    var e2 := TextExtra(ApprovalHashColumn, Some(hash));
    NothingTyped();
    TypedFirst(e2, []);
    TypedFirst(e1, [e2] + []);
    TypedFirst(e0, [e1] + ([e2] + []));
  }

  lemma RejectTyped(approver: string, now: Time)
    ensures TypedExtra(RejectExtra(approver, now))
  {
    hide TypedExtra;
    NothingTyped();
    TypedFirst(Extra(ApprovedAtColumn, Some(Moment(now))), []);
    TypedFirst(TextExtra(ApprovedByColumn, Some(approver)), [Extra(ApprovedAtColumn, Some(Moment(now)))] + []);
  }

  lemma CompleteTyped(o: Outcome)
    ensures TypedExtra(CompleteExtra(o))
  {
    hide TypedExtra;
    var e0, e3 := TextExtra(ResultColumn, o.report.result), TextExtra(ErrorColumn, o.report.error);
    var e1, e2 := AmountExtra(o.report.costUsd), CountExtra(o.report.tokens);
    NothingTyped();
    TypedFirst(e3, []);
    TypedFirst(e2, [e3] + []);
    TypedFirst(e1, [e2] + ([e3] + []));
    TypedFirst(e0, [e1] + ([e2] + ([e3] + [])));
  }

  lemma NothingTyped()
    ensures TypedExtra([])
  {
  }

  lemma ReclaimTyped()
    ensures TypedExtra(ReclaimExtra())
  {
  }

  // ---- the table ---------------------------------------------------------

  ghost predicate WellFormed(items: map<string, Item>)
  {
    forall id :: id in items ==> HasRequired(items[id]) && InIndex(items[id]) && FromItem(items[id]).id == id
  }

  function Records(items: map<string, Item>): Table
    requires forall id :: id in items ==> HasRequired(items[id])
  {
    map id | id in items :: FromItem(items[id])
  }

  lemma RecordsPut(items: map<string, Item>, id: string, item: Item)
    requires WellFormed(items) && HasRequired(item) && InIndex(item) && FromItem(item).id == id
    ensures WellFormed(items[id := item]) && Records(items[id := item]) == Records(items)[id := FromItem(item)]
  {
  }

  lemma RecordsSize(items: map<string, Item>)
    requires WellFormed(items)
    ensures |Records(items)| == |items|
  {
    assert Records(items).Keys == items.Keys;
    assert |Records(items)| == |Records(items).Keys| && |items| == |items.Keys|;
  }

  // ---- the status index --------------------------------------------------

  // What a query of GSI1 shows of an item.
  datatype IndexEntry = IndexEntry(id: string, updatedAt: Time)

  function EntryIds(page: seq<IndexEntry>): (ids: seq<string>)
    ensures |ids| == |page| && forall i :: 0 <= i < |page| ==> ids[i] == page[i].id
  {
    seq(|page|, i requires 0 <= i < |page| => page[i].id)
  }

  function KeysWithStatus(t: Table, status: Status): map<string, int>
  {
    map id | id in t && t[id].status == status :: t[id].createdAt
  }

  predicate Listed(item: Item, status: Status)
  {
    StatusIndexColumn in item && item[StatusIndexColumn] == StatusValue(status)
  }

  function SortKey(item: Item): Time
    requires HasRequired(item)
  {
    item[CreatedAtColumn].t
  }

  // The entries the index holds for a status, with its sort key.
  function IndexKeys(items: map<string, Item>, status: Status): map<string, int>
    requires forall id :: id in items ==> HasRequired(items[id])
  {
    map id | id in items && Listed(items[id], status) :: SortKey(items[id])
  }

  lemma ListedByStatus(item: Item, status: Status)
    requires HasRequired(item) && InIndex(item)
    ensures Listed(item, status) <==> FromItem(item).status == status
    ensures SortKey(item) == FromItem(item).createdAt
  {
  }

  lemma IndexIsByStatus(items: map<string, Item>, status: Status)
    requires WellFormed(items)
    ensures IndexKeys(items, status) == KeysWithStatus(Records(items), status)
  {
    hide HasRequired, InIndex, FromItem, Listed, SortKey;
    forall id | id in items
      ensures Listed(items[id], status) <==> FromItem(items[id]).status == status
      ensures SortKey(items[id]) == FromItem(items[id]).createdAt
    {
      ListedByStatus(items[id], status);
    }
  }

  // An answer that is up to date.
  ghost predicate IsPage(t: Table, status: Status, limit: nat, page: seq<IndexEntry>)
  {
    && OrderedQuery.IsOrdered(KeysWithStatus(t, status), limit, EntryIds(page))
    && forall i :: 0 <= i < |page| ==> page[i].id in t && page[i].updatedAt == t[page[i].id].updatedAt
  }

  lemma AnswerIsPage(items: map<string, Item>, status: Status, limit: nat, page: seq<IndexEntry>)
    requires WellFormed(items) && OrderedQuery.IsOrdered(IndexKeys(items, status), limit, EntryIds(page))
    requires forall i :: 0 <= i < |page| ==> page[i].id in items && page[i].updatedAt == FromItem(items[page[i].id]).updatedAt
    ensures IsPage(Records(items), status, limit, page)
  {
    hide OrderedQuery.IsOrdered, IndexKeys, KeysWithStatus, FromItem;
    IndexIsByStatus(items, status);
  }

  predicate HasStatus(t: Table, id: string, status: Status)
  {
    id in t && t[id].status == status
  }

  predicate FirstWith(t: Table, page: seq<IndexEntry>, i: nat, status: Status)
    requires i < |page|
  {
    HasStatus(t, page[i].id, status) && forall k :: 0 <= k < i ==> !HasStatus(t, page[k].id, status)
  }

  // With an up-to-date answer the first entry is the oldest job of that status, and an empty
  // answer means there is none.
  lemma ClaimFromPage(t: Table, status: Status, page: seq<IndexEntry>)
    requires IsPage(t, status, CLAIM_SCAN_LIMIT, page)
    ensures page == [] ==> forall id :: id in t ==> t[id].status != status
    ensures page != [] ==> FirstWith(t, page, 0, status)
    ensures page != [] ==> forall id :: id in t && t[id].status == status ==> t[page[0].id].createdAt <= t[id].createdAt
  {
    var keys, ids := KeysWithStatus(t, status), EntryIds(page);
    if page == [] {
      assert |keys| == 0;
      assert forall id :: id in t && t[id].status == status ==> id in keys;
    } else {
      assert ids[0] in keys;
      forall id | id in t && t[id].status == status ensures keys[ids[0]] <= keys[id] {
        assert id in keys;
        if id in ids {
          var k :| 0 <= k < |ids| && ids[k] == id;
        }
      }
    }
  }

  // What the claim loop over one answer does: the first entry whose job still has the status is
  // taken, and nothing else happens.
  ghost predicate ClaimedFrom(t: Table, status: Status, page: seq<IndexEntry>, now: Time, t': Table, reply: Option<Job>)
  {
    if reply.None? then t' == t && forall i :: 0 <= i < |page| ==> !HasStatus(t, page[i].id, status)
    else
      exists i :: 0 <= i < |page| && FirstWith(t, page, i, status)
                  && t' == t[page[i].id := Claimed(t[page[i].id], now)] && reply.value == Claimed(t[page[i].id], now)
  }

  lemma OldestClaimed(t: Table, status: Status, page: seq<IndexEntry>, now: Time, t': Table, reply: Option<Job>)
    requires IsPage(t, status, CLAIM_SCAN_LIMIT, page) && ClaimedFrom(t, status, page, now, t', reply)
    ensures reply.None? ==> t' == t && forall id :: id in t ==> t[id].status != status
    ensures reply.Some? ==>
              exists id :: HasStatus(t, id, status) && t' == t[id := Claimed(t[id], now)] && reply.value == Claimed(t[id], now)
                           && forall k :: k in t && t[k].status == status ==> t[id].createdAt <= t[k].createdAt
  {
    ClaimFromPage(t, status, page);
    if reply.Some? {
      var i :| 0 <= i < |page| && FirstWith(t, page, i, status)
               && t' == t[page[i].id := Claimed(t[page[i].id], now)] && reply.value == Claimed(t[page[i].id], now);
      assert i == 0;
    }
  }

  lemma ApprovedFirst(t: Table, now: Time, page: seq<IndexEntry>, t': Table, reply: Option<Job>)
    requires IsPage(t, Status.Approved, CLAIM_SCAN_LIMIT, page) && ClaimedFrom(t, Status.Approved, page, now, t', reply)
    ensures reply.Some? ==> ClaimStep(t, now, t', reply)
    ensures reply.None? ==> t' == t && forall id :: id in t ==> t[id].status != Status.Approved
  {
    OldestClaimed(t, Status.Approved, page, now, t', reply);
    if reply.Some? {
      var id :| HasStatus(t, id, Status.Approved) && t' == t[id := Claimed(t[id], now)] && reply.value == Claimed(t[id], now)
                && forall k :: k in t && t[k].status == Status.Approved ==> t[id].createdAt <= t[k].createdAt;
      assert IsNext(t, id);
    }
  }

  lemma ThenPending(t: Table, now: Time, page: seq<IndexEntry>, t': Table, reply: Option<Job>)
    requires IsPage(t, Pending, CLAIM_SCAN_LIMIT, page) && ClaimedFrom(t, Pending, page, now, t', reply)
    requires forall id :: id in t ==> t[id].status != Status.Approved
    ensures ClaimStep(t, now, t', reply)
  {
    OldestClaimed(t, Pending, page, now, t', reply);
    if reply.Some? {
      var id :| HasStatus(t, id, Pending) && t' == t[id := Claimed(t[id], now)] && reply.value == Claimed(t[id], now)
                && forall k :: k in t && t[k].status == Pending ==> t[id].createdAt <= t[k].createdAt;
      assert IsNext(t, id);
    }
  }

  function Selected(t: Table, page: seq<IndexEntry>, olderThan: Time): set<string>
  {
    set e | e in page && e.updatedAt < olderThan && HasStatus(t, e.id, Running) :: e.id
  }

  lemma SelectedMore(t: Table, page: seq<IndexEntry>, i: nat, olderThan: Time)
    requires i < |page|
    ensures Selected(t, page[..i + 1], olderThan)
         == Selected(t, page[..i], olderThan)
            + (if page[i].updatedAt < olderThan && HasStatus(t, page[i].id, Running) then {page[i].id} else {})
  {
    assert page[..i + 1] == page[..i] + [page[i]];
  }

  lemma NoneSelected(t: Table, olderThan: Time, now: Time)
    ensures Selected(t, [], olderThan) == {} && ReclaimAll(t, {}, now) == t
  {
  }

  // A job that was failed no longer runs.
  lemma StillRunning(t: Table, done: set<string>, id: string, now: Time)
    ensures HasStatus(ReclaimAll(t, done, now), id, Running) <==> HasStatus(t, id, Running) && id !in done
    ensures HasStatus(t, id, Running) ==> id in t
    ensures ReclaimAll(t, done, now).Keys == t.Keys
    ensures id in done ==> done + {id} == done
    ensures done + {} == done
  {
  }

  // A full answer has an entry for every job of the status.
  lemma AllEntries(t: Table, status: Status, page: seq<IndexEntry>, id: string)
    requires IsPage(t, status, |t|, page) && HasStatus(t, id, status)
    ensures exists i :: 0 <= i < |page| && page[i] == IndexEntry(id, t[id].updatedAt)
  {
    var keys, ids := KeysWithStatus(t, status), EntryIds(page);
    assert t.Keys == keys.Keys + (t.Keys - keys.Keys) && |keys.Keys| == |keys| && |t.Keys| == |t|;
    AllListed(keys, |t|, ids);
    assert id in keys;
    var i :| 0 <= i < |ids| && ids[i] == id;
    assert page[i] == IndexEntry(id, t[id].updatedAt);
  }

  lemma ReclaimFromPage(t: Table, olderThan: Time, page: seq<IndexEntry>)
    requires IsPage(t, Running, |t|, page)
    ensures Selected(t, page, olderThan) == StaleIds(t, olderThan)
  {
    hide OrderedQuery.IsOrdered, KeysWithStatus, EntryIds;
    forall id | id in StaleIds(t, olderThan) ensures id in Selected(t, page, olderThan) {
      AllEntries(t, Running, page, id);
      var i :| 0 <= i < |page| && page[i] == IndexEntry(id, t[id].updatedAt);
      assert page[i] in page;
    }
  }

  // A listing as long as the keys leaves none out.
  lemma AllListed(keys: map<string, int>, limit: nat, ids: seq<string>)
    requires OrderedQuery.IsOrdered(keys, limit, ids) && |keys| <= limit
    ensures forall k :: k in keys ==> k in ids
  {
    var listed := set k | k in ids;
    DistinctSize(ids);
    assert listed <= keys.Keys;
    assert keys.Keys == listed + (keys.Keys - listed) && |keys.Keys| == |keys|;
  }

  lemma {:induction false} DistinctSize(ids: seq<string>)
    requires forall i, j :: 0 <= i < j < |ids| ==> ids[i] != ids[j]
    ensures |set k | k in ids| == |ids|
  {
    if ids != [] {
      var init, last := ids[..|ids| - 1], ids[|ids| - 1];
      DistinctSize(init);
      assert ids == init + [last];
      assert (set k | k in ids) == (set k | k in init) + {last};
    }
  }

  class DynamoJobStore {
    var items: map<string, Item>

    ghost predicate Valid()
      reads this
    {
      WellFormed(items)
    }

    ghost function Contents(): Table
      requires Valid()
      reads this
    {
      Records(items)
    }

    constructor ()
      ensures Valid() && Contents() == map[]
    {
      items := map[];
    }

    // An unconditional put: an item under a taken identifier is replaced.
    method Enqueue(id: string, request: Request, now: Time) returns (reply: Option<Job>)
      requires Valid()
      modifies this
      ensures Valid()
      ensures Step(old(Contents()), Operation.Enqueue(id, request), now, Contents(), One(reply))
    {
      var job := NewJob(id, request, now);
      ItemRoundTrip(job);
      RecordsPut(items, id, ToItem(job));
      items := items[id := ToItem(job)];
      reply := Some(job);
    }

    method Get(id: string) returns (reply: Option<Job>)
      requires Valid()
      ensures Step(Contents(), Operation.Get(id), 0, Contents(), One(reply))
    {
      reply := if id in items then Some(FromItem(items[id])) else None;
    }

    // GSI2 read backwards.
    method ListRecent(limit: nat) returns (feed: seq<Job>)
      requires Valid()
      ensures Step(Contents(), Recent(limit), 0, Contents(), Feed(feed))
    {
      var records := Records(items);
      var ids := OrderedQuery.OrderBy(NewestFirst(records), limit);
      FeedOfOrdered(records, limit, ids);
      feed := Rows(records, ids);
    }

    // GSI1: the items whose index key is the given status, oldest first.
    method Query(status: Status, limit: nat) returns (page: seq<IndexEntry>)
      requires Valid()
      ensures IsPage(Contents(), status, limit, page)
    {
      hide OrderedQuery.IsOrdered, FromItem, IsPage, InIndex;
      var ids := OrderedQuery.OrderBy(IndexKeys(items, status), limit);
      OrderedQuery.OrderedAreKeys(IndexKeys(items, status), limit, ids);
      page := [];
      for k := 0 to |ids|
        invariant |page| == k
        invariant forall i :: 0 <= i < k ==> page[i] == IndexEntry(ids[i], FromItem(items[ids[i]]).updatedAt)
      {
        page := page + [IndexEntry(ids[k], FromItem(items[ids[k]]).updatedAt)];
      }
      assert EntryIds(page) == ids;
      AnswerIsPage(items, status, limit, page);
    }

    method Claim(now: Time) returns (reply: Option<Job>)
      requires Valid()
      modifies this
      ensures Valid()
      ensures Step(old(Contents()), Operation.Claim, now, Contents(), One(reply))
    {
      hide Records, WellFormed, IsPage, ClaimedFrom, ClaimStep;
      ghost var was := Contents();
      var page := Query(Status.Approved, CLAIM_SCAN_LIMIT);
      reply := ClaimAmong(Status.Approved, page, now);
      ApprovedFirst(was, now, page, Contents(), reply);
      if reply.None? {
        page := Query(Pending, CLAIM_SCAN_LIMIT);
        reply := ClaimAmong(Pending, page, now);
        ThenPending(was, now, page, Contents(), reply);
      }
    }

    // One status of the claim loop, for any answer the index may give, current or stale.
    method ClaimAmong(status: Status, page: seq<IndexEntry>, now: Time) returns (reply: Option<Job>)
      requires Valid()
      modifies this
      ensures Valid()
      ensures ClaimedFrom(old(Contents()), status, page, now, Contents(), reply)
    {
      hide WellFormed, Records, FromItem;
      for i := 0 to |page|
        invariant items == old(items)
        invariant forall k :: 0 <= k < i ==> !HasStatus(Contents(), page[k].id, status)
      {
        reply := ConditionalSet(page[i].id, status, Running, [], None, now);
        if reply.Some? {
          assert FirstWith(old(Contents()), page, i, status);
          return;
        }
      }
      reply := None;
    }

    method ReclaimStaleRunning(olderThan: Time, now: Time) returns (reclaimed: seq<Job>)
      requires Valid()
      modifies this
      ensures Valid()
      ensures Step(old(Contents()), Reclaim(olderThan), now, Contents(), Many(set j | j in reclaimed))
    {
      hide Records, WellFormed, IsPage;
      ghost var was := Contents();
      RecordsSize(items);
      var page := Query(Running, |items|);
      ReclaimFromPage(was, olderThan, page);
      ghost var ids: seq<string>;
      reclaimed, ids := FailAmong(page, olderThan, now);
      ReclaimedRows(was, olderThan, now, ids);
    }

    // The reclaim loop, for any answer the index may give: exactly the listed jobs that look
    // stale and still are running fail.
    method FailAmong(page: seq<IndexEntry>, olderThan: Time, now: Time) returns (reclaimed: seq<Job>, ghost ids: seq<string>)
      requires Valid()
      modifies this
      ensures Valid()
      ensures forall id :: id in ids <==> id in Selected(old(Contents()), page, olderThan)
      ensures Contents() == ReclaimAll(old(Contents()), Selected(old(Contents()), page, olderThan), now)
      ensures (forall i :: 0 <= i < |ids| ==> ids[i] in Contents()) && reclaimed == Rows(Contents(), ids)
    {
      hide Records, WellFormed, FromItem, HasStatus, ReclaimAll, Selected;
      ghost var was := Contents();
      reclaimed, ids := [], [];
      NoneSelected(was, olderThan, now);
      assert page[..0] == [];
      for i := 0 to |page|
        invariant Valid()
        invariant forall id :: id in ids <==> id in Selected(was, page[..i], olderThan)
        invariant Contents() == ReclaimAll(was, Selected(was, page[..i], olderThan), now)
        invariant |reclaimed| == |ids| && forall k :: 0 <= k < |ids| ==> ids[k] in Contents() && reclaimed[k] == Contents()[ids[k]]
      {
        SelectedMore(was, page, i, olderThan);
        StillRunning(was, Selected(was, page[..i], olderThan), page[i].id, now);
        if page[i].updatedAt < olderThan {
          var failed := FailRunning(page[i].id, now);
          if failed.Some? {
            ReclaimOneMore(was, Selected(was, page[..i], olderThan), page[i].id, now);
            reclaimed, ids := reclaimed + [failed.value], ids + [page[i].id];
          }
        }
      }
      assert page[..|page|] == page;
    }

    method FailRunning(id: string, now: Time) returns (failed: Option<Job>)
      requires Valid()
      modifies this
      ensures Valid()
      ensures if HasStatus(old(Contents()), id, Running)
              then Contents() == old(Contents())[id := Reclaimed(old(Contents())[id], now)] && failed == Some(Contents()[id])
              else Contents() == old(Contents()) && failed == None
    {
      hide FromItem, HasRequired, InIndex, TypedExtra, Updated;
      if id in items {
        ReclaimUpdates(FromItem(items[id]), now);
      }
      ReclaimTyped();
      failed := ConditionalSet(id, Running, Failed, ReclaimExtra(), None, now);
    }

    method AwaitApproval(id: string, diff: string, plan: Option<string>, hash: Option<string>, now: Time) returns (reply: Option<Job>)
      requires Valid()
      modifies this
      ensures Valid()
      ensures Step(old(Contents()), Park(id, diff, plan, hash), now, Contents(), One(reply))
    {
      hide FromItem, HasRequired, InIndex, TypedExtra, Updated;
      if id in items {
        ParkUpdates(FromItem(items[id]), diff, plan, hash, now);
      }
      ParkTyped(diff, plan, hash);
      reply := ConditionalSet(id, Running, Status.AwaitingApproval, ParkExtra(diff, plan, hash), None, now);
    }

    // Reads the job, then updates only if the plan hash it read is still the stored one.
    method Approve(id: string, approver: string, now: Time) returns (reply: Option<Job>)
      requires Valid()
      modifies this
      ensures Valid()
      ensures Step(old(Contents()), Operation.Approve(id, approver), now, Contents(), One(reply))
    {
      hide FromItem, HasRequired, InIndex, TypedExtra, Updated;
      var job := Get(id);
      if job.None? || !HasHash(job.value) {
        return None;
      }
      var hash := job.value.gate.executionPlanHash.value;
      ApproveUpdates(job.value, approver, hash, now);
      ApproveTyped(approver, hash, now);
      reply := ConditionalSet(id, Status.AwaitingApproval, Status.Approved, ApproveExtra(approver, hash, now), Some(hash), now);
    }

    method Reject(id: string, approver: string, now: Time) returns (reply: Option<Job>)
      requires Valid()
      modifies this
      ensures Valid()
      ensures Step(old(Contents()), Operation.Reject(id, approver), now, Contents(), One(reply))
    {
      hide FromItem, HasRequired, InIndex, TypedExtra, Updated;
      if id in items {
        RejectUpdates(FromItem(items[id]), approver, now);
      }
      RejectTyped(approver, now);
      reply := ConditionalSet(id, Status.AwaitingApproval, Status.Rejected, RejectExtra(approver, now), None, now);
    }

    method Complete(id: string, outcome: Outcome, now: Time) returns (reply: Option<Job>)
      requires Valid()
      modifies this
      ensures Valid()
      ensures Step(old(Contents()), Operation.Complete(id, outcome), now, Contents(), One(reply))
    {
      hide FromItem, HasRequired, InIndex, TypedExtra, Updated;
      if id in items {
        CompleteUpdates(FromItem(items[id]), outcome, now);
      }
      CompleteTyped(outcome);
      reply := ConditionalSet(id, Running, outcome.status, CompleteExtra(outcome), None, now);
    }

    // The conditional update: the SET list is built entry by entry, the condition is the status
    // and, when one is required, the plan hash.
    method ConditionalSet(id: string, expected: Status, target: Status, extra: seq<Extra>, requiredHash: Option<string>, now: Time)
      returns (reply: Option<Job>)
      requires Valid() && TypedExtra(extra)
      modifies this
      ensures Valid()
      ensures if HasStatus(old(Contents()), id, expected)
                 && (requiredHash.Some? ==> old(Contents())[id].gate.executionPlanHash == requiredHash)
              then Contents() == old(Contents())[id := Updated(old(Contents())[id], target, extra, now)] && reply == Some(Contents()[id])
              else items == old(items) && reply == None
    {
      hide HasRequired, InIndex, FromItem, TypedExtra, Updated;
      var setParts := AppendParts(StatusParts(target, now), extra);
      if id !in items {
        return None;
      }
      SetParts(items[id], target, extra, now);
      RecordsPut(items, id, ApplySets(items[id], setParts));
      if !HasItemStatus(items[id], expected) {
        return None;
      }
      if requiredHash.Some? && TextOf(items[id], PlanHashColumn) != requiredHash {
        return None;
      }
      items := items[id := ApplySets(items[id], setParts)];
      reply := Some(FromItem(items[id]));
    }
  }
}
