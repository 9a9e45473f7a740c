/** One audit event: the text that is hashed, and the row it is stored as. */
module AuditEvents {
  import opened Wrappers
  import opened Hashing
  import opened Json
  import opened Fields
  import Decimal
  import Lex
  import PyText

  // ---- the event ---------------------------------------------------------

  datatype Body = Body(action: string, actor: string, detail: string, context: map<string, string>)

  datatype Trajectory = Trajectory(
    stepId: string,
    parentStepId: string,
    toolName: string,
    capabilities: seq<string>,
    targetResource: string,
    resultHash: string)

  datatype AuditEvent = AuditEvent(
    jobId: string,
    ts: string,
    seqNo: nat,
    body: Body,
    prevEventHash: string,
    eventHash: string,
    step: Trajectory)

  const SEQ_PAD := 6

  function StepId(seqNo: nat): string
  {
    "S" + Decimal.Pad(seqNo, SEQ_PAD)
  }

  lemma StepIdsDiffer(a: nat, b: nat)
    requires StepId(a) == StepId(b)
    ensures a == b
  {
    assert StepId(a)[1..] == Decimal.Pad(a, SEQ_PAD) && StepId(b)[1..] == Decimal.Pad(b, SEQ_PAD);
    Decimal.ValueOfPad(a, SEQ_PAD);
    Decimal.ValueOfPad(b, SEQ_PAD);
  }

  // An S and the number, in six digits or, from a million on, in as many as it takes.
  lemma StepIdIs(n: nat)
    ensures exists digits :: StepId(n) == "S" + digits && (forall c :: c in digits ==> Decimal.IsDigit(c))
                             && Decimal.ValueOf(digits) == n && |digits| >= 6 && (|digits| > 6 ==> digits[0] != '0')
  {
    var digits := Decimal.Pad(n, SEQ_PAD);
    Decimal.ValueOfPad(n, SEQ_PAD);
    Decimal.LeadingZeroOnlyInZero(n);
    assert n == 0 ==> |Decimal.Digits(n)| == 1;
    assert StepId(n) == "S" + digits;
  }

  // ---- the hashed text ---------------------------------------------------

  function Pairs(m: map<string, string>, keys: seq<string>): (members: seq<Member>)
    requires forall k :: k in keys ==> k in m
    ensures |members| == |keys| && Keys(members) == keys
  {
    seq(|keys|, i requires 0 <= i < |keys| => Member(keys[i], Str(m[keys[i]])))
  }

  // A dict of strings, its keys sorted.
  function ContextJson(context: map<string, string>): Json
  {
    Obj(Pairs(context, Lex.Sorted(context.Keys)))
  }

  // Every field, set or not.
  function AllMembers(e: AuditEvent): seq<Member>
  {
    [ Member("action", Str(e.body.action)),
      Member("actor", Str(e.body.actor)),
      Member("capabilities", Arr(Texts(e.step.capabilities))),
      Member("context", ContextJson(e.body.context)),
      Member("detail", Str(e.body.detail)),
      Member("job_id", Str(e.jobId)),
      Member("parent_step_id", Str(e.step.parentStepId)),
      Member("prev_event_hash", Str(e.prevEventHash)),
      Member("result_hash", Str(e.step.resultHash)),
      Member("seq", Int(e.seqNo)),
      Member("step_id", Str(e.step.stepId)),
      Member("target_resource", Str(e.step.targetResource)),
      Member("tool_name", Str(e.step.toolName)),
      Member("ts", Str(e.ts)) ]
  }

  const TRAJECTORY_KEYS := {"step_id", "parent_step_id", "tool_name", "capabilities", "target_resource", "result_hash"}

  // Trajectory fields join the text only when set.
  predicate Kept(m: Member)
  {
    m.key in TRAJECTORY_KEYS ==> m.value != Str("") && m.value != Arr([])
  }

  function KeepMembers(members: seq<Member>): seq<Member>
  {
    if members == [] then []
    else (if Kept(members[0]) then [members[0]] else []) + KeepMembers(members[1..])
  }

  function Payload(e: AuditEvent): Json
  {
    Obj(KeepMembers(AllMembers(e)))
  }

  function EventHash(e: AuditEvent): string
  {
    Sha256(Encode(Payload(e)))
  }

  // ---- reading a dict of strings back ------------------------------------

  // `{str(key): str(item)}` over an object of strings; anything else reads as the empty dict.
  function ContextOf(v: Json): map<string, string>
  {
    if v.Obj? then
      map key | key in Keys(v.members) && Get(v.members, key).Some? && Get(v.members, key).value.Str? :: Get(v.members, key).value.s
    else map[]
  }

  function ContextFromText(text: string): map<string, string>
  {
    var doc := Decode(text);
    if doc.Some? then ContextOf(doc.value) else map[]
  }

  lemma ContextRoundTrip(context: map<string, string>)
    ensures ContextOf(ContextJson(context)) == context
    ensures ContextFromText(Encode(ContextJson(context))) == context
  {
    var keys := Lex.Sorted(context.Keys);
    var members := Pairs(context, keys);
    forall i | 0 <= i < |keys| ensures Get(members, keys[i]) == Some(Str(context[keys[i]])) {
      GetAt(members, i);
    }
    forall key ensures key in context <==> key in Keys(members) {
    }
    assert ContextOf(Obj(members)) == context;
    DecodeEncode(ContextJson(context));
  }

  // ---- the text determines the event -------------------------------------

  const KEYS := ["action", "actor", "capabilities", "context", "detail", "job_id", "parent_step_id", "prev_event_hash",
                 "result_hash", "seq", "step_id", "target_resource", "tool_name", "ts"]

  lemma KeysAscend()
    ensures Lex.Ascending(KEYS)
  {
    hide Lex.Less;
    FieldNamesAscend();
    assert forall i :: 0 <= i < |KEYS| - 1 ==> Lex.Less(KEYS[i], KEYS[i + 1]);
    Lex.AdjacentAscending(KEYS);
  }

  // `sort_keys=True`.
  lemma AllKeysAscend(e: AuditEvent)
    ensures Lex.Ascending(Keys(AllMembers(e)))
  {
    hide Lex.Ascending;
    KeysAscend();
    assert Keys(AllMembers(e)) == KEYS;
  }

  lemma FieldNamesAscend()
    ensures Lex.Less("action", "actor") && Lex.Less("actor", "capabilities") && Lex.Less("capabilities", "context")
    ensures Lex.Less("context", "detail") && Lex.Less("detail", "job_id") && Lex.Less("job_id", "parent_step_id")
    ensures Lex.Less("parent_step_id", "prev_event_hash") && Lex.Less("prev_event_hash", "result_hash")
    ensures Lex.Less("result_hash", "seq") && Lex.Less("seq", "step_id") && Lex.Less("step_id", "target_resource")
    ensures Lex.Less("target_resource", "tool_name") && Lex.Less("tool_name", "ts")
  {
  }

  // Dropping members keeps the order, and a lookup finds what was not dropped.
  lemma {:induction false} KeptLookup(members: seq<Member>, key: string)
    requires Lex.Ascending(Keys(members))
    ensures Lex.Ascending(Keys(KeepMembers(members)))
    ensures forall m :: m in KeepMembers(members) <==> m in members && Kept(m)
    ensures Get(KeepMembers(members), key)
         == if Get(members, key).Some? && Kept(Member(key, Get(members, key).value)) then Get(members, key) else None
  {
    hide Kept;
    var all, kept := Keys(members), KeepMembers(members);
    if members != [] {
      var rest := members[1..];
      assert Keys(rest) == all[1..];
      KeptLookup(rest, key);
      assert members == [members[0]] + rest;
      var tail := KeepMembers(rest);
      forall m | m in tail ensures Lex.Less(members[0].key, m.key) {
        var i :| 0 <= i < |rest| && rest[i] == m;
        assert Lex.Less(all[0], all[i + 1]);
      }
      FirstLookup(members[0], rest, key);
      if Kept(members[0]) {
        FirstAscending(members[0], tail);
        FirstLookup(members[0], tail, key);
      } else {
        assert kept == tail;
      }
      if Get(rest, key).Some? {
        var i := FoundAt(rest, key);
        Lex.Irreflexive(key);
        assert Lex.Less(all[0], all[i + 1]);
      }
    }
  }

  lemma FirstAscending(m: Member, tail: seq<Member>)
    requires Lex.Ascending(Keys(tail)) && forall x :: x in tail ==> Lex.Less(m.key, x.key)
    ensures Lex.Ascending(Keys([m] + tail))
  {
    var k := Keys([m] + tail);
    forall i, j | 0 <= i < j < |k| ensures Lex.Less(k[i], k[j]) {
      assert k[j] == Keys(tail)[j - 1] == tail[j - 1].key;
      if i > 0 {
        assert k[i] == Keys(tail)[i - 1];
      }
    }
  }

  lemma {:induction false} FirstLookup(m: Member, rest: seq<Member>, key: string)
    ensures Get([m] + rest, key) == if Get(rest, key).Some? then Get(rest, key) else if m.key == key then Some(m.value) else None
  {
    var all := [m] + rest;
    if rest == [] {
      assert all == [m] && all[..0] == [];
    } else {
      assert all[|all| - 1] == rest[|rest| - 1];
      assert all[..|all| - 1] == [m] + rest[..|rest| - 1];
      FirstLookup(m, rest[..|rest| - 1], key);
    }
  }

  lemma {:induction false} FoundAt(members: seq<Member>, key: string) returns (i: nat)
    requires Get(members, key).Some?
    ensures i < |members| && members[i].key == key
  {
    if members[|members| - 1].key == key {
      i := |members| - 1;
    } else {
      i := FoundAt(members[..|members| - 1], key);
    }
  }

  // The values of every field in the text, set or not.
  lemma FieldsOf(e: AuditEvent)
    ensures var ms := AllMembers(e);
            && Get(ms, "action") == Some(Str(e.body.action)) && Get(ms, "actor") == Some(Str(e.body.actor))
            && Get(ms, "capabilities") == Some(Arr(Texts(e.step.capabilities)))
            && Get(ms, "context") == Some(ContextJson(e.body.context)) && Get(ms, "detail") == Some(Str(e.body.detail))
            && Get(ms, "job_id") == Some(Str(e.jobId)) && Get(ms, "parent_step_id") == Some(Str(e.step.parentStepId))
            && Get(ms, "prev_event_hash") == Some(Str(e.prevEventHash)) && Get(ms, "result_hash") == Some(Str(e.step.resultHash))
            && Get(ms, "seq") == Some(Int(e.seqNo)) && Get(ms, "step_id") == Some(Str(e.step.stepId))
            && Get(ms, "target_resource") == Some(Str(e.step.targetResource))
            && Get(ms, "tool_name") == Some(Str(e.step.toolName)) && Get(ms, "ts") == Some(Str(e.ts))
  {
    var ms := AllMembers(e);
    AllKeysAscend(e);
    forall i | 0 <= i < 14 ensures Get(ms, ms[i].key) == Some(ms[i].value) {
      GetAt(ms, i);
    }
    assert ms[0].key == "action" && ms[1].key == "actor" && ms[2].key == "capabilities" && ms[3].key == "context";
    assert ms[4].key == "detail" && ms[5].key == "job_id" && ms[6].key == "parent_step_id" && ms[7].key == "prev_event_hash";
    assert ms[8].key == "result_hash" && ms[9].key == "seq" && ms[10].key == "step_id" && ms[11].key == "target_resource";
    assert ms[12].key == "tool_name" && ms[13].key == "ts";
  }

  // What a reader finds in the text under a key, an unset field reading as the empty string.
  lemma TextField(e: AuditEvent, key: string, s: string)
    requires Get(AllMembers(e), key) == Some(Str(s))
    ensures TextOr(KeepMembers(AllMembers(e)), key, "") == Some(s)
  {
    AllKeysAscend(e);
    KeptLookup(AllMembers(e), key);
  }

  lemma OtherFields(e: AuditEvent)
    ensures var ms := KeepMembers(AllMembers(e));
            && TextsOr(ms, "capabilities") == Some(e.step.capabilities)
            && Get(ms, "context") == Some(ContextJson(e.body.context))
            && Get(ms, "seq") == Some(Int(e.seqNo))
  {
    hide AllMembers;
    var ms := KeepMembers(AllMembers(e));
    FieldsOf(e);
    AllKeysAscend(e);
    KeptLookup(AllMembers(e), "capabilities");
    KeptLookup(AllMembers(e), "context");
    KeptLookup(AllMembers(e), "seq");
    NotTrajectory();
    if Get(ms, "capabilities").Some? {
      TextsRoundTrip(e.step.capabilities, ms, "capabilities");
    } else {
      assert Texts(e.step.capabilities) == [];
    }
  }

  lemma NotTrajectory()
    ensures "context" !in TRAJECTORY_KEYS && "seq" !in TRAJECTORY_KEYS
  {
    assert "context"[1] == 'o' && "capabilities"[1] == 'a';
    assert |"seq"| == 3;
  }

  // ---- the hashed text, key by key ---------------------------------------

  lemma HashedField(e: AuditEvent, key: string, v: Json)
    requires Get(AllMembers(e), key) == Some(v)
    ensures Get(Payload(e).members, key) == if Kept(Member(key, v)) then Some(v) else None
  {
    AllKeysAscend(e);
    KeptLookup(AllMembers(e), key);
  }

  lemma TrajectoryKeys(key: string)
    ensures key in TRAJECTORY_KEYS <==>
              || key == "step_id" || key == "parent_step_id" || key == "tool_name" || key == "capabilities"
              || key == "target_resource" || key == "result_hash"
    ensures key in TRAJECTORY_KEYS ==> key != "action" && key != "actor" && key != "context" && key != "detail" && key != "job_id"
                                       && key != "prev_event_hash" && key != "seq" && key != "ts"
  {
    assert |"action"| == 6 && |"actor"| == 5 && |"context"| == 7 && |"detail"| == 6 && |"job_id"| == 6 && |"prev_event_hash"| == 15;
    assert |"seq"| == 3 && |"ts"| == 2 && "target_resource"[0] == 't' && "prev_event_hash"[0] == 'p';
  }

  // Eight fields are always in the text.
  lemma PlainFields(e: AuditEvent)
    ensures var ms := Payload(e).members;
            && Get(ms, "action") == Some(Str(e.body.action)) && Get(ms, "actor") == Some(Str(e.body.actor))
            && Get(ms, "context") == Some(ContextJson(e.body.context)) && Get(ms, "detail") == Some(Str(e.body.detail))
            && Get(ms, "job_id") == Some(Str(e.jobId)) && Get(ms, "prev_event_hash") == Some(Str(e.prevEventHash))
            && Get(ms, "seq") == Some(Int(e.seqNo)) && Get(ms, "ts") == Some(Str(e.ts))
  {
    hide AllMembers, TRAJECTORY_KEYS, ContextJson, Payload, Get;
    FieldsOf(e);
    TrajectoryKeys("action");
    TrajectoryKeys("actor");
    TrajectoryKeys("context");
    TrajectoryKeys("detail");
    TrajectoryKeys("job_id");
    TrajectoryKeys("prev_event_hash");
    TrajectoryKeys("seq");
    TrajectoryKeys("ts");
    HashedField(e, "action", Str(e.body.action));
    HashedField(e, "actor", Str(e.body.actor));
    HashedField(e, "context", ContextJson(e.body.context));
    HashedField(e, "detail", Str(e.body.detail));
    HashedField(e, "job_id", Str(e.jobId));
    HashedField(e, "prev_event_hash", Str(e.prevEventHash));
    HashedField(e, "seq", Int(e.seqNo));
    HashedField(e, "ts", Str(e.ts));
  }

  function Unless<T(==)>(v: T, unset: T): Option<T>
  {
    if v == unset then None else Some(v)
  }

  // The other six only when they are set, so an event without them hashes as it did before there were any.
  lemma TrajectoryFields(e: AuditEvent)
    ensures var ms := Payload(e).members;
            && Get(ms, "step_id") == Unless(Str(e.step.stepId), Str(""))
            && Get(ms, "parent_step_id") == Unless(Str(e.step.parentStepId), Str(""))
            && Get(ms, "tool_name") == Unless(Str(e.step.toolName), Str(""))
            && Get(ms, "capabilities") == Unless(Arr(Texts(e.step.capabilities)), Arr([]))
            && Get(ms, "target_resource") == Unless(Str(e.step.targetResource), Str(""))
            && Get(ms, "result_hash") == Unless(Str(e.step.resultHash), Str(""))
  {
    hide AllMembers, TRAJECTORY_KEYS, Payload, Get, Texts;
    FieldsOf(e);
    TrajectoryKeys("step_id");
    TrajectoryKeys("parent_step_id");
    TrajectoryKeys("tool_name");
    TrajectoryKeys("capabilities");
    TrajectoryKeys("target_resource");
    TrajectoryKeys("result_hash");
    HashedField(e, "step_id", Str(e.step.stepId));
    HashedField(e, "parent_step_id", Str(e.step.parentStepId));
    HashedField(e, "tool_name", Str(e.step.toolName));
    HashedField(e, "capabilities", Arr(Texts(e.step.capabilities)));
    HashedField(e, "target_resource", Str(e.step.targetResource));
    HashedField(e, "result_hash", Str(e.step.resultHash));
  }

  // No other key is in the text, and the keys ascend.
  lemma PayloadKeys(e: AuditEvent)
    ensures Lex.Ascending(Keys(Payload(e).members)) && forall m :: m in Payload(e).members ==> m.key in KEYS
  {
    hide Lex.Ascending, Kept;
    AllKeysAscend(e);
    KeptLookup(AllMembers(e), "");
    assert Keys(AllMembers(e)) == KEYS;
    forall m | m in Payload(e).members ensures m.key in KEYS {
      var i :| 0 <= i < 14 && AllMembers(e)[i] == m;
      assert Keys(AllMembers(e))[i] == m.key;
    }
  }

  // All that is hashed of an event: everything but its own hash.
  function Hashed(e: AuditEvent): AuditEvent
  {
    e.(eventHash := "")
  }

  lemma TextFields(e: AuditEvent)
    ensures var ms := KeepMembers(AllMembers(e));
            && TextOr(ms, "action", "") == Some(e.body.action) && TextOr(ms, "actor", "") == Some(e.body.actor)
            && TextOr(ms, "detail", "") == Some(e.body.detail) && TextOr(ms, "job_id", "") == Some(e.jobId)
            && TextOr(ms, "parent_step_id", "") == Some(e.step.parentStepId)
            && TextOr(ms, "prev_event_hash", "") == Some(e.prevEventHash)
            && TextOr(ms, "result_hash", "") == Some(e.step.resultHash) && TextOr(ms, "step_id", "") == Some(e.step.stepId)
            && TextOr(ms, "target_resource", "") == Some(e.step.targetResource)
            && TextOr(ms, "tool_name", "") == Some(e.step.toolName) && TextOr(ms, "ts", "") == Some(e.ts)
  {
    hide AllMembers, TextOr;
    FieldsOf(e);
    TextField(e, "action", e.body.action);
    TextField(e, "actor", e.body.actor);
    TextField(e, "detail", e.body.detail);
    TextField(e, "job_id", e.jobId);
    TextField(e, "parent_step_id", e.step.parentStepId);
    TextField(e, "prev_event_hash", e.prevEventHash);
    TextField(e, "result_hash", e.step.resultHash);
    TextField(e, "step_id", e.step.stepId);
    TextField(e, "target_resource", e.step.targetResource);
    TextField(e, "tool_name", e.step.toolName);
    TextField(e, "ts", e.ts);
  }

  // Two events hash alike only if they agree in every field, although unset fields are left out.
  lemma HashDeterminesEvent(a: AuditEvent, b: AuditEvent)
    requires EventHash(a) == EventHash(b)
    ensures Hashed(a) == Hashed(b)
  {
    hide AllMembers, TextOr, TextsOr, ContextJson;
    EncodeInjective(Payload(a), Payload(b));
    assert KeepMembers(AllMembers(a)) == KeepMembers(AllMembers(b));
    TextFields(a);
    TextFields(b);
    OtherFields(a);
    OtherFields(b);
    ContextRoundTrip(a.body.context);
    ContextRoundTrip(b.body.context);
  }

  // ---- rows --------------------------------------------------------------

  datatype Row = Row(
    jobId: string,
    ts: string,
    seqNo: nat,
    action: string,
    actor: string,
    detail: string,
    context: string,
    prevEventHash: string,
    eventHash: string,
    stepId: string,
    parentStepId: string,
    toolName: string,
    capabilities: string,
    targetResource: string,
    resultHash: string)

  function ToRow(e: AuditEvent): Row
  {
    Row(e.jobId, e.ts, e.seqNo, e.body.action, e.body.actor, e.body.detail, Encode(ContextJson(e.body.context)),
        e.prevEventHash, e.eventHash, e.step.stepId, e.step.parentStepId, e.step.toolName,
        PyText.Join(e.step.capabilities, ','), e.step.targetResource, e.step.resultHash)
  }

  function NonEmpty(parts: seq<string>): (r: seq<string>)
    ensures forall p :: p in r <==> p in parts && p != ""
  {
    if parts == [] then []
    else
      assert parts == [parts[0]] + parts[1..];
      (if parts[0] != "" then [parts[0]] else []) + NonEmpty(parts[1..])
  }

  function FromRow(r: Row): AuditEvent
  {
    AuditEvent(r.jobId, r.ts, r.seqNo, Body(r.action, r.actor, r.detail, ContextFromText(r.context)), r.prevEventHash, r.eventHash,
               Trajectory(r.stepId, r.parentStepId, r.toolName, NonEmpty(PyText.Split(r.capabilities, ',')), r.targetResource, r.resultHash))
  }

  ghost predicate PlainNames(names: seq<string>)
  {
    forall i :: 0 <= i < |names| ==> names[i] != "" && ',' !in names[i]
  }

  lemma {:induction false} AllNonEmpty(parts: seq<string>)
    requires forall i :: 0 <= i < |parts| ==> parts[i] != ""
    ensures NonEmpty(parts) == parts
  {
    if parts != [] {
      AllNonEmpty(parts[1..]);
    }
  }

  // A row reads back as the event written exactly when no capability name is empty or holds a comma.
  lemma RowRoundTrip(e: AuditEvent)
    ensures FromRow(ToRow(e)) == e <==> PlainNames(e.step.capabilities)
    ensures FromRow(ToRow(e)) == e.(step := e.step.(capabilities := FromRow(ToRow(e)).step.capabilities))
  {
    ContextRoundTrip(e.body.context);
    var names := e.step.capabilities;
    var parts := PyText.Split(PyText.Join(names, ','), ',');
    if PlainNames(names) {
      if names == [] {
        assert PyText.Join(names, ',') == "" && parts == [""];
        assert NonEmpty([""]) == NonEmpty([]);
      } else {
        PyText.SplitJoin(names, ',');
        AllNonEmpty(names);
      }
    }
    ReadNamesArePlain(PyText.Join(names, ','));
  }

  lemma ReadNamesArePlain(raw: string)
    ensures PlainNames(NonEmpty(PyText.Split(raw, ',')))
  {
    var parts := PyText.Split(raw, ',');
    forall i | 0 <= i < |NonEmpty(parts)| ensures NonEmpty(parts)[i] != "" && ',' !in NonEmpty(parts)[i] {
      assert NonEmpty(parts)[i] in parts;
    }
  }

  // ---- the chain ---------------------------------------------------------

  function Previous(events: seq<AuditEvent>, i: nat): string
    requires i <= |events|
  {
    if i == 0 then "" else events[i - 1].eventHash
  }

  lemma PreviousIs(events: seq<AuditEvent>, i: nat)
    requires i < |events|
    ensures Previous(events, i + 1) == events[i].eventHash && Previous(events, 0) == ""
    ensures Previous(events, i) == LastHash(events[..i])
  {
  }

  predicate Links(e: AuditEvent, previous: string)
  {
    e.prevEventHash == previous && e.eventHash == EventHash(e)
  }

  ghost predicate Chained(events: seq<AuditEvent>)
  {
    forall i {:trigger Previous(events, i)} :: 0 <= i < |events| ==> Links(events[i], Previous(events, i))
  }

  method VerifyEventChain(events: seq<AuditEvent>) returns (ok: bool)
    ensures ok <==> Chained(events)
  {
    hide EventHash, Previous;
    var previous := "";
    if events == [] {
      return true;
    }
    PreviousIs(events, 0);
    for i := 0 to |events|
      invariant forall k :: 0 <= k < i ==> Links(events[k], Previous(events, k))
      invariant previous == Previous(events, i)
    {
      if events[i].prevEventHash != previous || events[i].eventHash != EventHash(events[i]) {
        assert !Links(events[i], Previous(events, i));
        return false;
      }
      previous := events[i].eventHash;
      PreviousIs(events, i);
    }
    return true;
  }

  function LastHash(events: seq<AuditEvent>): string
  {
    if events == [] then "" else events[|events| - 1].eventHash
  }

  // A listing cut short by a limit still verifies.
  lemma PrefixChained(events: seq<AuditEvent>, n: nat)
    requires Chained(events) && n <= |events|
    ensures Chained(events[..n])
  {
    hide EventHash, LastHash;
    forall i | 0 <= i < n ensures Links(events[..n][i], Previous(events[..n], i)) {
      assert Links(events[i], Previous(events, i));
    }
  }

  // Two lists that both verify and end in the same hash are the same list: one hash pins down
  // every field of every event before it, and how many there are.
  lemma {:induction false} TamperEvidence(a: seq<AuditEvent>, b: seq<AuditEvent>)
    requires Chained(a) && Chained(b) && LastHash(a) == LastHash(b)
    ensures a == b
    decreases |a|
  {
    hide EventHash, Previous;
    if a == [] || b == [] {
      HashesAreNotEmpty(a);
      HashesAreNotEmpty(b);
    } else {
      var x, y := a[|a| - 1], b[|b| - 1];
      assert Links(x, Previous(a, |a| - 1)) && Links(y, Previous(b, |b| - 1));
      PreviousIs(a, |a| - 1);
      PreviousIs(b, |b| - 1);
      HashDeterminesEvent(x, y);
      PrefixChained(a, |a| - 1);
      PrefixChained(b, |b| - 1);
      TamperEvidence(a[..|a| - 1], b[..|b| - 1]);
      assert a == a[..|a| - 1] + [x] && b == b[..|b| - 1] + [y];
    }
  }

  lemma HashesAreNotEmpty(events: seq<AuditEvent>)
    requires Chained(events)
    ensures LastHash(events) == "" <==> events == []
  {
    if events != [] {
      assert Links(events[|events| - 1], Previous(events, |events| - 1));
    }
  }
}
