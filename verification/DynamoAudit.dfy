/** The DynamoDB audit store: items under a text sort key, listed in the order of the keys. */
module DynamoAudit {
  import opened AuditEvents
  import opened AuditStore
  import KeyOrder
  import Lex

  // ---- items -------------------------------------------------------------

  datatype Attribute =
    | JobIdOf | TsOf | SeqOf | ActionOf | ActorOf | DetailOf | ContextOf | PrevHashOf | HashOf
    | StepIdOf | ParentOf | ToolOf | CapabilitiesOf | TargetOf | ResultHashOf

  datatype Value = Text(s: string) | Number(n: nat) | Texts(items: seq<string>) | Dict(entries: map<string, string>)

  type Item = map<Attribute, Value>

  // `item.get(name, "")`.
  function TextAt(item: Item, a: Attribute): string
  {
    if a in item && item[a].Text? then item[a].s else ""
  }

  function TextsAt(item: Item, a: Attribute): seq<string>
  {
    if a in item && item[a].Texts? then item[a].items else []
  }

  function DictAt(item: Item, a: Attribute): map<string, string>
  {
    if a in item && item[a].Dict? then item[a].entries else map[]
  }

  function NumberAt(item: Item, a: Attribute): nat
  {
    if a in item && item[a].Number? then item[a].n else 0
  }

  function ValueOf(e: AuditEvent, a: Attribute): Value
  {
    match a
    case JobIdOf => Text(e.jobId)
    case TsOf => Text(e.ts)
    case SeqOf => Number(e.seqNo)
    case ActionOf => Text(e.body.action)
    case ActorOf => Text(e.body.actor)
    case DetailOf => Text(e.body.detail)
    case ContextOf => Dict(e.body.context)
    case PrevHashOf => Text(e.prevEventHash)
    case HashOf => Text(e.eventHash)
    case StepIdOf => Text(e.step.stepId)
    case ParentOf => Text(e.step.parentStepId)
    case ToolOf => Text(e.step.toolName)
    case CapabilitiesOf => Texts(e.step.capabilities)
    case TargetOf => Text(e.step.targetResource)
    case ResultHashOf => Text(e.step.resultHash)
  }

  function ToItem(e: AuditEvent): Item
  {
    map a: Attribute | true :: ValueOf(e, a)
  }

  function BodyOf(item: Item): Body
  {
    Body(TextAt(item, ActionOf), TextAt(item, ActorOf), TextAt(item, DetailOf), DictAt(item, ContextOf))
  }

  function TrajectoryOf(item: Item): Trajectory
  {
    Trajectory(TextAt(item, StepIdOf), TextAt(item, ParentOf), TextAt(item, ToolOf), TextsAt(item, CapabilitiesOf),
               TextAt(item, TargetOf), TextAt(item, ResultHashOf))
  }

  function FromItem(item: Item): AuditEvent
  {
    AuditEvent(TextAt(item, JobIdOf), TextAt(item, TsOf), NumberAt(item, SeqOf), BodyOf(item),
               TextAt(item, PrevHashOf), TextAt(item, HashOf), TrajectoryOf(item))
  }

  lemma TextAttribute(e: AuditEvent, a: Attribute, s: string)
    requires ValueOf(e, a) == Text(s)
    ensures TextAt(ToItem(e), a) == s
  {
  }

  lemma OtherAttributes(e: AuditEvent)
    ensures NumberAt(ToItem(e), SeqOf) == e.seqNo
    ensures DictAt(ToItem(e), ContextOf) == e.body.context
    ensures TextsAt(ToItem(e), CapabilitiesOf) == e.step.capabilities
  {
  }

  lemma BodyRoundTrip(e: AuditEvent)
    ensures BodyOf(ToItem(e)) == e.body
  {
    hide TextAt, DictAt, NumberAt, TextsAt, ToItem;
    OtherAttributes(e);
    TextAttribute(e, ActionOf, e.body.action);
    TextAttribute(e, ActorOf, e.body.actor);
    TextAttribute(e, DetailOf, e.body.detail);
  }

  lemma TrajectoryRoundTrip(e: AuditEvent)
    ensures TrajectoryOf(ToItem(e)) == e.step
  {
    hide TextAt, DictAt, NumberAt, TextsAt, ToItem;
    OtherAttributes(e);
    TextAttribute(e, StepIdOf, e.step.stepId);
    TextAttribute(e, ParentOf, e.step.parentStepId);
    TextAttribute(e, ToolOf, e.step.toolName);
    TextAttribute(e, TargetOf, e.step.targetResource);
    TextAttribute(e, ResultHashOf, e.step.resultHash);
  }

  // An item reads back as the event written, whatever the capability names: lists stay lists.
  lemma ItemRoundTrip(e: AuditEvent)
    ensures FromItem(ToItem(e)) == e
  {
    hide TextAt, DictAt, NumberAt, TextsAt, ToItem, BodyOf, TrajectoryOf;
    OtherAttributes(e);
    BodyRoundTrip(e);
    TrajectoryRoundTrip(e);
    TextAttribute(e, JobIdOf, e.jobId);
    TextAttribute(e, TsOf, e.ts);
    TextAttribute(e, PrevHashOf, e.prevEventHash);
    TextAttribute(e, HashOf, e.eventHash);
  }

  // ---- the order of a listing --------------------------------------------

  function KeyOf(e: AuditEvent): string
  {
    KeyOrder.AuditKey(e.ts, e.seqNo)
  }

  function InsertByKey(e: AuditEvent, s: seq<AuditEvent>): seq<AuditEvent>
  {
    if s == [] then [e] else if Lex.Less(KeyOf(s[0]), KeyOf(e)) then [s[0]] + InsertByKey(e, s[1..]) else [e] + s
  }

  // `ScanIndexForward=True` over the partition of a job.
  function SortByKey(s: seq<AuditEvent>): seq<AuditEvent>
  {
    if s == [] then [] else InsertByKey(s[0], SortByKey(s[1..]))
  }

  // Timestamps of one width, and numbers the six-digit padding is wide enough for.
  ghost predicate WithinKeys(s: seq<AuditEvent>)
  {
    forall i, j :: 0 <= i < |s| && 0 <= j < |s| ==> |s[i].ts| == |s[j].ts| && s[i].seqNo < 1000000
  }

  lemma {:induction false} InsertsAlike(e: AuditEvent, s: seq<AuditEvent>)
    requires WithinKeys([e] + s)
    ensures InsertByKey(e, s) == Insert(e, s)
  {
    hide Lex.Less;
    if s != [] {
      var all := [e] + s;
      assert all[0] == e && all[1] == s[0];
      KeyOrder.AuditKeyOrder(s[0].ts, s[0].seqNo, e.ts, e.seqNo);
      forall i, j | 0 <= i < |[e] + s[1..]| && 0 <= j < |[e] + s[1..]|
        ensures |([e] + s[1..])[i].ts| == |([e] + s[1..])[j].ts| && ([e] + s[1..])[i].seqNo < 1000000
      {
        var i', j' := if i == 0 then 0 else i + 1, if j == 0 then 0 else j + 1;
        assert ([e] + s[1..])[i] == all[i'] && ([e] + s[1..])[j] == all[j'];
      }
      InsertsAlike(e, s[1..]);
    }
  }

  // Both stores list a job's events in the same order.
  lemma {:induction false} SameListing(s: seq<AuditEvent>)
    requires WithinKeys(s) && DistinctSeqs(s)
    ensures SortByKey(s) == Sort(s)
  {
    hide Lex.Less, Earlier;
    if s != [] {
      assert forall i :: 0 <= i < |s[1..]| ==> s[1..][i] == s[i + 1];
      SameListing(s[1..]);
      SortOrders(s[1..]);
      assert WithinKeys([s[0]] + Sort(s[1..])) by {
        var r := [s[0]] + Sort(s[1..]);
        forall i | 0 <= i < |r| ensures exists k :: 0 <= k < |s| && s[k] == r[i] {
          if i == 0 {
            assert s[0] == r[i];
          } else {
            assert r[i] in Sort(s[1..]) && r[i] in s[1..];
            var k :| 0 <= k < |s[1..]| && s[1..][k] == r[i];
            assert s[k + 1] == r[i];
          }
        }
      }
      InsertsAlike(s[0], Sort(s[1..]));
    }
  }

  // ---- keys name events --------------------------------------------------

  function KeysOf(s: seq<AuditEvent>): (r: seq<string>)
    ensures |r| == |s| && forall i :: 0 <= i < |s| ==> r[i] == KeyOf(s[i])
  {
    seq(|s|, i requires 0 <= i < |s| => KeyOf(s[i]))
  }

  ghost predicate DistinctKeys(s: seq<AuditEvent>)
  {
    forall i, j :: 0 <= i < j < |s| ==> KeyOf(s[i]) != KeyOf(s[j])
  }

  // Whatever the timestamps look like, numbers of their own give keys of their own.
  lemma SeqsGiveKeys(s: seq<AuditEvent>)
    requires DistinctSeqs(s)
    ensures DistinctKeys(s)
  {
    hide KeyOf;
    forall i, j | 0 <= i < j < |s| ensures KeyOf(s[i]) != KeyOf(s[j]) {
      if KeyOf(s[i]) == KeyOf(s[j]) {
        KeyDeterminesSeq(s[i], s[j]);
      }
    }
  }

  lemma KeyDeterminesSeq(a: AuditEvent, b: AuditEvent)
    requires KeyOf(a) == KeyOf(b)
    ensures a.seqNo == b.seqNo
  {
    KeyOrder.AuditKeyNumber(a.ts, a.seqNo, b.ts, b.seqNo);
  }

  lemma {:induction false} InsertByKeyOrders(e: AuditEvent, s: seq<AuditEvent>)
    requires Lex.Ascending(KeysOf(s)) && forall x :: x in s ==> KeyOf(x) != KeyOf(e)
    ensures Lex.Ascending(KeysOf(InsertByKey(e, s))) && forall x :: x in InsertByKey(e, s) <==> x == e || x in s
  {
    hide KeyOf, Lex.Less, Lex.Ascending, KeysOf;
    if s == [] {
      NoKeys();
      FirstAscending(e, s);
      assert [e] + s == [e];
    } else {
      assert s == [s[0]] + s[1..] && s[0] in s;
      if Lex.Less(KeyOf(s[0]), KeyOf(e)) {
        AscendingTail(s);
        InsertByKeyOrders(e, s[1..]);
        FirstAscending(s[0], InsertByKey(e, s[1..]));
      } else {
        Lex.Total(KeyOf(s[0]), KeyOf(e));
        forall x | x in s ensures Lex.Less(KeyOf(e), KeyOf(x)) {
          if x != s[0] {
            AscendingTail(s);
            Lex.Transitive(KeyOf(e), KeyOf(s[0]), KeyOf(x));
          }
        }
        FirstAscending(e, s);
      }
    }
  }

  lemma AscendingTail(s: seq<AuditEvent>)
    requires s != [] && Lex.Ascending(KeysOf(s))
    ensures Lex.Ascending(KeysOf(s[1..])) && forall x :: x in s[1..] ==> Lex.Less(KeyOf(s[0]), KeyOf(x))
  {
    hide KeyOf, Lex.Less;
    assert KeysOf(s[1..]) == KeysOf(s)[1..];
    forall x | x in s[1..] ensures Lex.Less(KeyOf(s[0]), KeyOf(x)) {
      var k :| 0 <= k < |s[1..]| && s[1..][k] == x;
      assert KeysOf(s)[k + 1] == KeyOf(x) && KeysOf(s)[0] == KeyOf(s[0]);
    }
  }

  lemma FirstAscending(e: AuditEvent, s: seq<AuditEvent>)
    requires Lex.Ascending(KeysOf(s)) && forall x :: x in s ==> Lex.Less(KeyOf(e), KeyOf(x))
    ensures Lex.Ascending(KeysOf([e] + s))
  {
    hide KeyOf, Lex.Less;
    assert KeysOf([e] + s) == [KeyOf(e)] + KeysOf(s);
    forall j | 0 <= j < |s| ensures Lex.Less(KeyOf(e), KeysOf(s)[j]) {
      assert s[j] in s;
    }
  }

  lemma {:induction false} SortByKeyOrders(s: seq<AuditEvent>)
    requires DistinctKeys(s)
    ensures Lex.Ascending(KeysOf(SortByKey(s))) && forall x :: x in SortByKey(s) <==> x in s
  {
    hide KeyOf, Lex.Ascending;
    if s != [] {
      assert forall i :: 0 <= i < |s[1..]| ==> s[1..][i] == s[i + 1];
      SortByKeyOrders(s[1..]);
      forall x | x in SortByKey(s[1..]) ensures KeyOf(x) != KeyOf(s[0]) {
        var k :| 0 <= k < |s[1..]| && s[1..][k] == x;
        assert s[k + 1] == x;
      }
      InsertByKeyOrders(s[0], SortByKey(s[1..]));
      assert s == [s[0]] + s[1..];
    } else {
      assert Lex.Ascending(KeysOf([])) by { NoKeys(); }
    }
  }

  lemma NoKeys()
    ensures Lex.Ascending(KeysOf([]))
  {
  }

  // ---- what appending builds ---------------------------------------------

  // Every event carries the hash of the event that a backward query over its predecessors shows first.
  ghost predicate AppendedByKey(events: seq<AuditEvent>)
  {
    forall k :: 0 <= k < |events| ==> SealedAt(events, k)
  }

  ghost predicate SealedAt(events: seq<AuditEvent>, k: nat)
    requires k < |events|
  {
    && events[k].prevEventHash == LastHash(SortByKey(events[..k])) && events[k].eventHash == EventHash(events[k])
    && forall i :: 0 <= i < k ==> events[i].seqNo < events[k].seqNo
  }

  lemma ByKeyDistinct(events: seq<AuditEvent>)
    requires AppendedByKey(events)
    ensures DistinctSeqs(events)
  {
    hide EventHash, SortByKey;
    forall i, j | 0 <= i < j < |events| ensures events[i].seqNo != events[j].seqNo {
      assert SealedAt(events, j);
    }
  }

  lemma ByKeyMore(events: seq<AuditEvent>, e: AuditEvent)
    requires AppendedByKey(events) && SeqsBelow(events, e.seqNo)
    requires e.prevEventHash == LastHash(SortByKey(events)) && e.eventHash == EventHash(e)
    ensures AppendedByKey(events + [e])
  {
    hide EventHash, SortByKey;
    var all := events + [e];
    forall k | 0 <= k < |all| ensures SealedAt(all, k) {
      if k < |events| {
        assert SealedAt(events, k) && all[..k] == events[..k];
      } else {
        assert all[..k] == events;
      }
    }
  }

  // The last event of an ordered listing is the latest.
  lemma LastIsLatest(events: seq<AuditEvent>)
    requires DistinctSeqs(events)
    ensures IsLatestHash(events, LastHash(Sort(events)))
  {
    hide Earlier, Sort;
    var sorted := Sort(events);
    SortOrders(events);
    if events != [] {
      var last := sorted[|sorted| - 1];
      assert last in sorted;
      var k :| 0 <= k < |events| && events[k] == last;
      forall i | 0 <= i < |events| && i != k ensures Earlier(events[i], events[k]) {
        assert events[i] in sorted;
        var p :| 0 <= p < |sorted| && sorted[p] == events[i];
        assert events[i].seqNo != events[k].seqNo;
      }
      assert IsLatest(events, k);
    }
  }

  // Within the bounds of the keys, appending here is appending as in the other store.
  lemma ByKeyIsAppended(events: seq<AuditEvent>)
    requires AppendedByKey(events) && WithinKeys(events)
    ensures Appended(events)
  {
    hide EventHash, SortByKey, Sort, IsLatestHash;
    ByKeyDistinct(events);
    forall k | 0 <= k < |events| ensures AppendedAt(events, k) {
      assert SealedAt(events, k);
      SameListing(events[..k]);
      LastIsLatest(events[..k]);
    }
  }

  // A listing from the key-ordered store verifies exactly when the clock never went back.
  lemma KeyedListingVerifies(events: seq<AuditEvent>)
    requires AppendedByKey(events) && WithinKeys(events)
    ensures Chained(SortByKey(events)) <==> ClockMonotone(events)
  {
    hide EventHash, Sort, SortByKey, Appended, Chained, ClockMonotone, Ordered;
    ByKeyDistinct(events);
    SameListing(events);
    ByKeyIsAppended(events);
    MonotoneIsOrdered(events);
    if Chained(Sort(events)) {
      ChainedIsOrdered(events);
    }
    if Ordered(events) {
      SortedAlready(events);
      OrderedIsChained(events);
    }
  }

  // The listing is what was appended, and verifies however short a limit cuts it.
  ghost predicate KeyedAtEveryLimit(events: seq<AuditEvent>)
  {
    SortByKey(events) == events && forall limit :: 0 <= limit <= |events| ==> Chained(events[..limit])
  }

  lemma KeyedLimitsVerify(events: seq<AuditEvent>)
    requires AppendedByKey(events) && WithinKeys(events) && ClockMonotone(events)
    ensures KeyedAtEveryLimit(events)
  {
    hide EventHash, Sort, SortByKey, Appended, Chained, ClockMonotone, Ordered;
    ByKeyDistinct(events);
    SameListing(events);
    ByKeyIsAppended(events);
    MonotoneIsOrdered(events);
    SortedAlready(events);
    OrderedIsChained(events);
    forall limit | 0 <= limit <= |events| ensures Chained(events[..limit]) {
      PrefixChained(events, limit);
    }
  }

  // ---- entries of the dashboard ------------------------------------------

  // What the dashboard puts for a decision: six attributes, without a hash, a predecessor or a step id.
  function WebItem(job: string, ts: string, action: string, actor: string, detail: string): Item
  {
    map[JobIdOf := Text(job), TsOf := Text(ts), SeqOf := Number(1), ActionOf := Text(action), ActorOf := Text(actor), DetailOf := Text(detail)]
  }

  // A listing that shows a decision made on the dashboard does not verify, whatever else it shows.
  lemma WebDecisionBreaks(events: seq<AuditEvent>, i: nat, job: string, ts: string, action: string, actor: string, detail: string)
    requires i < |events| && events[i] == FromItem(WebItem(job, ts, action, actor, detail))
    ensures !Chained(events)
  {
    if Chained(events) {
      ChainedIsHashed(events, i);
    }
  }

  lemma ChainedIsHashed(events: seq<AuditEvent>, i: nat)
    requires Chained(events) && i < |events|
    ensures events[i].eventHash != ""
  {
    hide EventHash;
    assert Links(events[i], Previous(events, i));
    HashIsNotEmpty(events[i]);
  }

  // ---- the store ---------------------------------------------------------

  // Partition and sort key of an item.
  datatype Key = Key(job: string, sk: string)

  // The item stored for the i-th event of a job.
  ghost predicate Stored(items: map<Key, Item>, job: string, e: AuditEvent)
  {
    Key(job, KeyOf(e)) in items && items[Key(job, KeyOf(e))] == ToItem(e)
  }

  ghost predicate Names(events: seq<AuditEvent>, sk: string)
  {
    exists i :: 0 <= i < |events| && KeyOf(events[i]) == sk
  }

  // The partition of a job holds these events and nothing else.
  ghost predicate Partition(items: map<Key, Item>, job: string, events: seq<AuditEvent>)
  {
    && (forall i :: 0 <= i < |events| ==> Stored(items, job, events[i]))
    && (forall k :: k in items && k.job == job ==> Names(events, k.sk))
  }

  lemma PutInPartition(items: map<Key, Item>, job: string, events: seq<AuditEvent>, e: AuditEvent)
    requires Partition(items, job, events) && Key(job, KeyOf(e)) !in items
    ensures Partition(items[Key(job, KeyOf(e)) := ToItem(e)], job, events + [e])
  {
    hide KeyOf, ToItem;
    var all := events + [e];
    assert all[|events|] == e;
    forall k | k in items[Key(job, KeyOf(e)) := ToItem(e)] && k.job == job ensures Names(all, k.sk) {
      if k.sk != KeyOf(e) {
        var i :| 0 <= i < |events| && KeyOf(events[i]) == k.sk;
        assert all[i] == events[i];
      }
    }
  }

  lemma PutElsewhere(items: map<Key, Item>, job: string, events: seq<AuditEvent>, key: Key, item: Item)
    requires Partition(items, job, events) && key.job != job
    ensures Partition(items[key := item], job, events)
  {
    hide KeyOf, ToItem;
    forall i | 0 <= i < |events| ensures Stored(items[key := item], job, events[i]) {
      assert Stored(items, job, events[i]);
    }
  }

  function SortKeys(items: map<Key, Item>, job: string): set<string>
  {
    set k | k in items && k.job == job :: k.sk
  }

  // The sort keys in ascending order are those of the listing.
  lemma KeysOfListing(items: map<Key, Item>, job: string, events: seq<AuditEvent>)
    requires Partition(items, job, events) && DistinctKeys(events)
    ensures Lex.Sorted(SortKeys(items, job)) == KeysOf(SortByKey(events))
    ensures forall x :: x in SortByKey(events) ==> Stored(items, job, x)
  {
    hide KeyOf, ToItem, Lex.Ascending, SortByKey;
    var listing := SortByKey(events);
    SortByKeyOrders(events);
    forall k ensures k in KeysOf(listing) <==> k in SortKeys(items, job) {
      if k in KeysOf(listing) {
        var i :| 0 <= i < |listing| && KeysOf(listing)[i] == k;
        assert listing[i] in events;
        var n :| 0 <= n < |events| && events[n] == listing[i];
        assert Stored(items, job, events[n]);
      }
      if k in SortKeys(items, job) {
        assert Key(job, k) in items && Names(events, k);
        var n :| 0 <= n < |events| && KeyOf(events[n]) == k;
        assert events[n] in listing;
        var i :| 0 <= i < |listing| && listing[i] == events[n];
        assert KeysOf(listing)[i] == k;
      }
    }
    Lex.OneSorting(SortKeys(items, job), KeysOf(listing));
  }

  class DynamoAuditStore {
    var items: map<Key, Item>
    var nextSeq: nat
    // The events as they were appended.
    ghost var log: map<string, seq<AuditEvent>>

    ghost predicate Valid()
      reads this
    {
      forall job :: Partition(items, job, EventsOf(job)) && AppendedByKey(EventsOf(job)) && SeqsBelow(EventsOf(job), nextSeq)
    }

    ghost function EventsOf(job: string): seq<AuditEvent>
      reads this
    {
      if job in log then log[job] else []
    }

    constructor ()
      ensures Valid() && log == map[] && nextSeq == 1
    {
      items, log := map[], map[];
      nextSeq := 1;
    }

    // The items of a job in the order of their keys.
    method Query(job: string) returns (events: seq<AuditEvent>)
      requires Valid()
      ensures events == SortByKey(EventsOf(job))
    {
      hide KeyOf, ToItem, FromItem, AppendedByKey, SortByKey, Partition, Lex.Ascending;
      ghost var appended := EventsOf(job);
      ByKeyDistinct(appended);
      SeqsGiveKeys(appended);
      KeysOfListing(items, job, appended);
      var sks := Lex.Sorted(SortKeys(items, job));
      ghost var listing := SortByKey(appended);
      events := [];
      for i := 0 to |sks|
        invariant events == listing[..i]
      {
        assert sks[i] == KeyOf(listing[i]) && Stored(items, job, listing[i]);
        ItemRoundTrip(listing[i]);
        events := events + [FromItem(items[Key(job, sks[i])])];
      }
    }

    // A backward query with limit one, then a put on the condition that the key is free; the store
    // assigns number and step id, so the key always is free.
    method Append(job: string, now: string, body: Body, parent: string, tool: string, capabilities: seq<string>,
                  target: string, resultHash: string) returns (e: AuditEvent, ok: bool)
      requires Valid()
      modifies this
      ensures Valid() && ok && nextSeq == old(nextSeq) + 1
      ensures log == old(log)[job := old(EventsOf(job)) + [e]]
      ensures e.jobId == job && e.ts == now && e.seqNo == old(nextSeq) && e.body == body
      ensures e.step == Trajectory(StepId(e.seqNo), parent, tool, capabilities, target, resultHash)
    {
      hide EventHash, AppendedByKey, KeyOf, ToItem, StepId, SortByKey, Partition, SeqsBelow;
      ghost var appended := EventsOf(job);
      var page := Query(job);
      var n := nextSeq;
      nextSeq := nextSeq + 1;
      e := AuditEvent(job, now, n, body, LastHash(page), "", Trajectory(StepId(n), parent, tool, capabilities, target, resultHash));
      HashIgnoresItself(e);
      e := Sealed(e);
      FreeKey(items, job, appended, e);
      ok := Key(job, KeyOf(e)) !in items;
      if !ok {
        return;
      }
      ghost var was := items;
      items := items[Key(job, KeyOf(e)) := ToItem(e)];
      log := log[job := appended + [e]];
      PutInPartition(was, job, appended, e);
      ByKeyMore(appended, e);
      forall other ensures Partition(items, other, EventsOf(other)) && AppendedByKey(EventsOf(other)) && SeqsBelow(EventsOf(other), nextSeq) {
        if other == job {
          SeqsStayBelow(appended, e);
        } else {
          assert EventsOf(other) == old(EventsOf(other)) && Partition(was, other, old(EventsOf(other)));
          PutElsewhere(was, other, EventsOf(other), Key(job, KeyOf(e)), ToItem(e));
          SeqsBelowMore(EventsOf(other), n);
        }
      }
    }

    method ListForJob(job: string, limit: nat) returns (events: seq<AuditEvent>)
      requires Valid()
      ensures var all := SortByKey(EventsOf(job)); events == if limit < |all| then all[..limit] else all
    {
      hide AppendedByKey, SortByKey, Partition;
      var all := Query(job);
      events := if limit < |all| then all[..limit] else all;
    }
  }

  lemma FreeKey(items: map<Key, Item>, job: string, events: seq<AuditEvent>, e: AuditEvent)
    requires Partition(items, job, events) && SeqsBelow(events, e.seqNo)
    ensures Key(job, KeyOf(e)) !in items
  {
    hide KeyOf, ToItem;
    if Key(job, KeyOf(e)) in items {
      assert Names(events, KeyOf(e));
      var i :| 0 <= i < |events| && KeyOf(events[i]) == KeyOf(e);
      KeyDeterminesSeq(events[i], e);
    }
  }

  lemma SeqsBelowMore(events: seq<AuditEvent>, n: nat)
    requires SeqsBelow(events, n)
    ensures SeqsBelow(events, n + 1)
  {
  }

  lemma SeqsStayBelow(events: seq<AuditEvent>, e: AuditEvent)
    requires SeqsBelow(events, e.seqNo)
    ensures SeqsBelow(events + [e], e.seqNo + 1)
  {
  }

  // ---- interleaved jobs on one store -------------------------------------

  // Timestamps recorded and to come have one width.
  ghost predicate OneWidth(events: seq<AuditEvent>, coming: seq<Entry>, width: nat)
  {
    && (forall i :: 0 <= i < |events| ==> |events[i].ts| == width)
    && (forall i :: 0 <= i < |coming| ==> |coming[i].now| == width)
  }

  lemma OneWidthMore(events: seq<AuditEvent>, e: AuditEvent, coming: seq<Entry>, width: nat)
    requires coming != [] && OneWidth(events, coming, width) && e.ts == coming[0].now
    ensures OneWidth(events + [e], coming[1..], width) && OneWidth(events, coming[1..], width)
  {
  }

  lemma OneWidthIsWithin(events: seq<AuditEvent>, width: nat, n: nat)
    requires OneWidth(events, [], width) && SeqsBelow(events, n) && n <= 1000000
    ensures WithinKeys(events)
  {
  }

  // Appends for any jobs in any order, fewer than a million, under a clock that does not go back and
  // writes timestamps of one width: whenever the recording stops, every job's listing verifies, at
  // every limit, whatever the capability names.
  method RecordByKey(entries: seq<Entry>, ghost width: nat) returns (store: DynamoAuditStore)
    requires forall i, j :: 0 <= i < j < |entries| ==> !Lex.Less(entries[j].now, entries[i].now)
    requires |entries| < 1000000 && forall i :: 0 <= i < |entries| ==> |entries[i].now| == width
    ensures fresh(store) && store.Valid()
    ensures forall job :: KeyedAtEveryLimit(store.EventsOf(job))
  {
    hide InTime, OneWidth, AppendedByKey, KeyedAtEveryLimit, Partition, SeqsBelow;
    store := new DynamoAuditStore();
    assert entries[0..] == entries;
    Beginning(entries, width);
    for n := 0 to |entries|
      invariant fresh(store) && store.Valid() && store.nextSeq == n + 1
      invariant forall job :: InTime(store.EventsOf(job), entries[n..]) && OneWidth(store.EventsOf(job), entries[n..], width)
    {
      var x := entries[n];
      ghost var was := store.EventsOf(x.job);
      label before:
      var e, ok := store.Append(x.job, x.now, x.body, x.parent, x.tool, x.capabilities, x.target, x.resultHash);
      assert entries[n..][0] == x && entries[n..][1..] == entries[n + 1..];
      forall job ensures InTime(store.EventsOf(job), entries[n + 1..]) && OneWidth(store.EventsOf(job), entries[n + 1..], width) {
        if job == x.job {
          InTimeMore(was, e, entries[n..]);
          OneWidthMore(was, e, entries[n..], width);
        } else {
          assert store.EventsOf(job) == old@before(store.EventsOf(job));
          assert InTime(old@before(store.EventsOf(job)), entries[n..]);
          InTimeLess(store.EventsOf(job), entries[n..]);
          OneWidthMore(store.EventsOf(job), e, entries[n..], width);
        }
      }
    }
    assert entries[|entries|..] == [];
    forall job ensures KeyedAtEveryLimit(store.EventsOf(job)) {
      InTimeIs(store.EventsOf(job), []);
      OneWidthIsWithin(store.EventsOf(job), width, store.nextSeq);
      KeyedLimitsVerify(store.EventsOf(job));
    }
  }

  lemma Beginning(entries: seq<Entry>, width: nat)
    requires forall i, j :: 0 <= i < j < |entries| ==> !Lex.Less(entries[j].now, entries[i].now)
    requires forall i :: 0 <= i < |entries| ==> |entries[i].now| == width
    ensures InTime([], entries) && OneWidth([], entries, width)
  {
    NothingYet(entries);
  }
}
