/** The SQLite audit store: append, list, and when a listing verifies. */
module AuditStore {
  import opened AuditEvents
  import Lex

  // ---- the order of a listing --------------------------------------------

  // `ORDER BY ts, seq`.
  predicate Earlier(a: AuditEvent, b: AuditEvent)
  {
    Lex.Less(a.ts, b.ts) || (a.ts == b.ts && a.seqNo < b.seqNo)
  }

  lemma EarlierIsStrict(a: AuditEvent, b: AuditEvent)
    ensures !(Earlier(a, b) && Earlier(b, a)) && !Earlier(a, a)
    ensures a.seqNo != b.seqNo ==> Earlier(a, b) || Earlier(b, a)
  {
    hide Lex.Less;
    Lex.Irreflexive(a.ts);
    Lex.Total(a.ts, b.ts);
    if Lex.Less(a.ts, b.ts) && Lex.Less(b.ts, a.ts) {
      Lex.Transitive(a.ts, b.ts, a.ts);
    }
  }

  lemma EarlierTransitive(a: AuditEvent, b: AuditEvent, c: AuditEvent)
    requires Earlier(a, b) && Earlier(b, c)
    ensures Earlier(a, c)
  {
    hide Lex.Less;
    if Lex.Less(a.ts, b.ts) && Lex.Less(b.ts, c.ts) {
      Lex.Transitive(a.ts, b.ts, c.ts);
    }
  }

  function Insert(e: AuditEvent, s: seq<AuditEvent>): seq<AuditEvent>
  {
    if s == [] then [e] else if Earlier(s[0], e) then [s[0]] + Insert(e, s[1..]) else [e] + s
  }

  function Sort(s: seq<AuditEvent>): seq<AuditEvent>
  {
    if s == [] then [] else Insert(s[0], Sort(s[1..]))
  }

  ghost predicate Ordered(s: seq<AuditEvent>)
  {
    forall i, j :: 0 <= i < j < |s| ==> Earlier(s[i], s[j])
  }

  ghost predicate DistinctSeqs(s: seq<AuditEvent>)
  {
    forall i, j :: 0 <= i < j < |s| ==> s[i].seqNo != s[j].seqNo
  }

  lemma {:induction false} InsertOrders(e: AuditEvent, s: seq<AuditEvent>)
    requires Ordered(s) && forall x :: x in s ==> x.seqNo != e.seqNo
    ensures Ordered(Insert(e, s)) && |Insert(e, s)| == |s| + 1
    ensures forall x :: x in Insert(e, s) <==> x == e || x in s
  {
    hide Earlier;
    if s != [] {
      var r := Insert(e, s);
      assert s == [s[0]] + s[1..] && s[0] in s;
      EarlierIsStrict(s[0], e);
      if Earlier(s[0], e) {
        forall i, j | 0 <= i < j < |s[1..]| ensures Earlier(s[1..][i], s[1..][j]) {
          assert Earlier(s[i + 1], s[j + 1]);
        }
        InsertOrders(e, s[1..]);
        forall x | x in s[1..] ensures Earlier(s[0], x) {
          var k :| 0 <= k < |s[1..]| && s[1..][k] == x;
          assert Earlier(s[0], s[k + 1]);
        }
        FirstOrdered(s[0], Insert(e, s[1..]));
      } else {
        forall x | x in s ensures Earlier(e, x) {
          if x != s[0] {
            var k :| 0 <= k < |s| && s[k] == x;
            assert Earlier(s[0], s[k]);
            EarlierTransitive(e, s[0], x);
          }
        }
        FirstOrdered(e, s);
      }
    }
  }

  lemma FirstOrdered(e: AuditEvent, s: seq<AuditEvent>)
    requires Ordered(s) && forall x :: x in s ==> Earlier(e, x)
    ensures Ordered([e] + s)
  {
    hide Earlier;
    var r := [e] + s;
    forall i, j | 0 <= i < j < |r| ensures Earlier(r[i], r[j]) {
      assert r[j] == s[j - 1] && s[j - 1] in s;
      if i > 0 {
        assert r[i] == s[i - 1];
      }
    }
  }

  // The listing is the ordered arrangement of what was appended.
  lemma {:induction false} SortOrders(s: seq<AuditEvent>)
    requires DistinctSeqs(s)
    ensures Ordered(Sort(s)) && |Sort(s)| == |s|
    ensures forall x :: x in Sort(s) <==> x in s
  {
    hide Earlier;
    if s != [] {
      forall i, j | 0 <= i < j < |s[1..]| ensures s[1..][i].seqNo != s[1..][j].seqNo {
        assert s[i + 1].seqNo != s[j + 1].seqNo;
      }
      SortOrders(s[1..]);
      forall x | x in s[1..] ensures x.seqNo != s[0].seqNo {
        var k :| 0 <= k < |s[1..]| && s[1..][k] == x;
        assert s[k + 1].seqNo != s[0].seqNo;
      }
      InsertOrders(s[0], Sort(s[1..]));
      assert s == [s[0]] + s[1..];
    }
  }

  lemma {:induction false} SortedAlready(s: seq<AuditEvent>)
    requires Ordered(s)
    ensures Sort(s) == s
  {
    hide Earlier;
    if s != [] {
      forall i, j | 0 <= i < j < |s[1..]| ensures Earlier(s[1..][i], s[1..][j]) {
        assert Earlier(s[i + 1], s[j + 1]);
      }
      SortedAlready(s[1..]);
      assert s == [s[0]] + s[1..];
      if |s| > 1 {
        assert Earlier(s[0], s[1]);
        EarlierIsStrict(s[0], s[1]);
      }
    }
  }

  // ---- what appending builds ---------------------------------------------

  // The hash of the last event in listing order, or nothing.
  ghost predicate IsLatestHash(events: seq<AuditEvent>, h: string)
  {
    if events == [] then h == ""
    else exists k :: 0 <= k < |events| && IsLatest(events, k) && events[k].eventHash == h
  }

  ghost predicate IsLatest(events: seq<AuditEvent>, k: nat)
    requires k < |events|
  {
    forall i :: 0 <= i < |events| && i != k ==> Earlier(events[i], events[k])
  }

  ghost predicate AppendedAt(events: seq<AuditEvent>, k: nat)
    requires k < |events|
  {
    && IsLatestHash(events[..k], events[k].prevEventHash) && events[k].eventHash == EventHash(events[k])
    && forall i :: 0 <= i < k ==> events[i].seqNo < events[k].seqNo
  }

  // One job's events, in the order one store instance appended them.
  ghost predicate Appended(events: seq<AuditEvent>)
  {
    forall k :: 0 <= k < |events| ==> AppendedAt(events, k)
  }

  ghost predicate ClockMonotone(events: seq<AuditEvent>)
  {
    forall i, j :: 0 <= i < j < |events| ==> !Lex.Less(events[j].ts, events[i].ts)
  }

  ghost predicate AllPlain(events: seq<AuditEvent>)
  {
    forall i :: 0 <= i < |events| ==> PlainNames(events[i].step.capabilities)
  }

  function ReadBack(events: seq<AuditEvent>): (r: seq<AuditEvent>)
    ensures |r| == |events|
  {
    seq(|events|, i requires 0 <= i < |events| => FromRow(ToRow(events[i])))
  }

  // What `list_for_job` answers when nothing is cut off.
  function Listing(events: seq<AuditEvent>): seq<AuditEvent>
  {
    Sort(ReadBack(events))
  }

  lemma MonotoneIsOrdered(events: seq<AuditEvent>)
    requires Appended(events)
    ensures ClockMonotone(events) <==> Ordered(events)
  {
    hide EventHash, IsLatestHash, Lex.Less;
    forall i, j | 0 <= i < j < |events|
      ensures events[i].seqNo < events[j].seqNo
      ensures !Lex.Less(events[j].ts, events[i].ts) <==> Earlier(events[i], events[j])
    {
      assert AppendedAt(events, j);
      Lex.Total(events[i].ts, events[j].ts);
      EarlierIsStrict(events[i], events[j]);
      EarlierIsStrict(events[j], events[i]);
    }
    if ClockMonotone(events) {
      forall i, j | 0 <= i < j < |events| ensures Earlier(events[i], events[j]) {
        assert !Lex.Less(events[j].ts, events[i].ts);
      }
    }
    if Ordered(events) {
      forall i, j | 0 <= i < j < |events| ensures !Lex.Less(events[j].ts, events[i].ts) {
        assert Earlier(events[i], events[j]);
      }
    }
  }

  // While events come in order, the latest is the one appended last.
  lemma LatestInOrder(events: seq<AuditEvent>, h: string)
    requires Ordered(events) && IsLatestHash(events, h)
    ensures h == LastHash(events)
  {
    hide Earlier;
    if events != [] {
      var k :| 0 <= k < |events| && IsLatest(events, k) && events[k].eventHash == h;
      var n := |events| - 1;
      if k < n {
        assert Earlier(events[n], events[k]) && Earlier(events[k], events[n]);
        EarlierIsStrict(events[n], events[k]);
      }
    }
  }

  lemma OrderedIsChained(events: seq<AuditEvent>)
    requires Appended(events) && Ordered(events)
    ensures Chained(events)
  {
    hide EventHash, Earlier, IsLatestHash, Previous;
    forall k | 0 <= k < |events| ensures Links(events[k], Previous(events, k)) {
      assert AppendedAt(events, k);
      assert Ordered(events[..k]);
      LatestInOrder(events[..k], events[k].prevEventHash);
      PreviousIs(events, k);
    }
  }

  // The first place where the order breaks, if it does.
  lemma {:induction false} FirstBreak(events: seq<AuditEvent>) returns (k: nat)
    requires !Ordered(events) && DistinctSeqs(events)
    ensures 0 < k < |events| && Ordered(events[..k]) && Earlier(events[k], events[k - 1])
  {
    hide Earlier;
    var init := events[..|events| - 1];
    if Ordered(init) {
      k := |events| - 1;
      if k == 0 || !Earlier(events[k], events[k - 1]) {
        if k > 0 {
          assert events[k - 1].seqNo != events[k].seqNo;
          EarlierIsStrict(events[k - 1], events[k]);
        }
        forall i, j | 0 <= i < j < |events| ensures Earlier(events[i], events[j]) {
          if j < k {
            assert Earlier(init[i], init[j]);
          } else if i < k - 1 {
            assert Earlier(init[i], init[k - 1]);
            EarlierTransitive(events[i], events[k - 1], events[k]);
          }
        }
      }
    } else {
      assert DistinctSeqs(init);
      k := FirstBreak(init);
      assert init[..k] == events[..k];
    }
  }

  lemma AppendedDistinct(events: seq<AuditEvent>)
    requires Appended(events)
    ensures DistinctSeqs(events)
  {
    hide EventHash, IsLatestHash;
    forall i, j | 0 <= i < j < |events| ensures events[i].seqNo != events[j].seqNo {
      assert AppendedAt(events, j);
    }
  }

  // If the arrangement in listing order is a chain, the events were appended in that order.
  lemma ChainedIsOrdered(events: seq<AuditEvent>)
    requires Appended(events) && Chained(Sort(events))
    ensures Ordered(events)
  {
    hide EventHash, Earlier, Previous, Sort;
    AppendedDistinct(events);
    if !Ordered(events) {
      var k := FirstBreak(events);
      var x, y := events[k - 1], events[k];
      var sorted := Sort(events);
      SortOrders(events);
      assert AppendedAt(events, k) && AppendedAt(events, k - 1);
      LatestInOrder(events[..k], y.prevEventHash);
      assert y.prevEventHash == EventHash(x);
      assert y in sorted;
      var p :| 0 <= p < |sorted| && sorted[p] == y;
      assert Links(sorted[p], Previous(sorted, p));
      HashIsNotEmpty(x);
      PreviousIs(sorted, p);
      if p > 0 {
        PreviousIs(sorted, p - 1);
        assert Links(sorted[p - 1], Previous(sorted, p - 1));
        HashDeterminesEvent(sorted[p - 1], x);
        assert Earlier(x, y);
      }
      EarlierIsStrict(x, y);
    }
  }

  lemma HashIsNotEmpty(e: AuditEvent)
    ensures EventHash(e) != ""
  {
  }

  // ---- when a listing verifies -------------------------------------------

  lemma PlainReadBack(events: seq<AuditEvent>)
    ensures ReadBack(events) == events <==> AllPlain(events)
  {
    hide FromRow, ToRow, PlainNames;
    forall i | 0 <= i < |events| ensures ReadBack(events)[i] == events[i] <==> PlainNames(events[i].step.capabilities) {
      RowRoundTrip(events[i]);
    }
  }

  lemma ReadBackKeepsOrder(events: seq<AuditEvent>)
    requires DistinctSeqs(events)
    ensures DistinctSeqs(ReadBack(events))
    ensures forall i :: 0 <= i < |events| ==> ReadBack(events)[i].eventHash == events[i].eventHash
  {
    forall i | 0 <= i < |events|
      ensures ReadBack(events)[i].seqNo == events[i].seqNo && ReadBack(events)[i].eventHash == events[i].eventHash
    {
    }
  }

  lemma ChainedIsPlain(events: seq<AuditEvent>)
    requires Appended(events) && Chained(Listing(events))
    ensures AllPlain(events)
  {
    hide EventHash, FromRow, ToRow, PlainNames, Sort;
    AppendedDistinct(events);
    ReadBackKeepsOrder(events);
    SortOrders(ReadBack(events));
    forall i | 0 <= i < |events| ensures PlainNames(events[i].step.capabilities) {
      var r := ReadBack(events)[i];
      assert r in ReadBack(events) && r in Listing(events);
      var p :| 0 <= p < |Listing(events)| && Listing(events)[p] == r;
      assert Links(Listing(events)[p], Previous(Listing(events), p));
      assert AppendedAt(events, i);
      HashDeterminesEvent(r, events[i]);
      RowRoundTrip(events[i]);
    }
  }

  // A job's full listing verifies exactly when the clock never went back between its appends and
  // every capability name survived the row. Other jobs' appends in between do not matter.
  lemma ListingVerifies(events: seq<AuditEvent>)
    requires Appended(events)
    ensures Chained(Listing(events)) <==> ClockMonotone(events) && AllPlain(events)
  {
    hide EventHash, ReadBack, Sort, Appended, Chained, ClockMonotone, AllPlain, Ordered;
    MonotoneIsOrdered(events);
    PlainReadBack(events);
    if Chained(Listing(events)) {
      ChainedIsPlain(events);
      ChainedIsOrdered(events);
    }
    if ClockMonotone(events) && AllPlain(events) {
      SortedAlready(events);
      OrderedIsChained(events);
    }
  }

  // An event with its own hash, after the given one.
  function Sealed(e: AuditEvent): AuditEvent
  {
    e.(eventHash := EventHash(e))
  }

  lemma FirstAppended(e: AuditEvent)
    requires e.prevEventHash == ""
    ensures Appended([Sealed(e)])
  {
    hide EventHash;
    HashIgnoresItself(e);
    assert [Sealed(e)][..0] == [];
  }

  lemma SecondAppended(first: AuditEvent, e: AuditEvent)
    requires first.prevEventHash == "" && e.prevEventHash == Sealed(first).eventHash && first.seqNo < e.seqNo
    ensures Appended([Sealed(first), Sealed(e)])
  {
    hide EventHash, Appended;
    var s := Sealed(first);
    FirstAppended(first);
    HashIgnoresItself(e);
    assert IsLatest([s], 0) && [s][0].eventHash == e.prevEventHash;
    AppendedMore([s], Sealed(e));
    assert [s] + [Sealed(e)] == [s, Sealed(e)];
  }

  // The clock goes back once, from any time to any earlier one, between two appends with plain
  // names: the listing does not verify.
  lemma ClockBackBreaks(before: string, after: string) returns (events: seq<AuditEvent>)
    requires Lex.Less(after, before)
    ensures |events| == 2 && Appended(events) && AllPlain(events) && events[0].ts == before && events[1].ts == after
    ensures events[0].step.stepId == StepId(1) && events[1].step.stepId == StepId(2)
    ensures !Chained(Listing(events))
  {
    hide EventHash, Appended, Chained, Listing, Lex.Less, StepId;
    var body := Body("claimed", "worker", "", map[]);
    var first := AuditEvent("j", before, 1, body, "", "", Trajectory(StepId(1), "", "", [], "", ""));
    var second := AuditEvent("j", after, 2, body, Sealed(first).eventHash, "", Trajectory(StepId(2), "", "", [], "", ""));
    events := [Sealed(first), Sealed(second)];
    SecondAppended(first, second);
    ListingVerifies(events);
  }

  // One capability name with a comma in it: the listing does not verify, although the clock never went back.
  lemma CommaBreaks() returns (events: seq<AuditEvent>)
    ensures |events| == 1 && Appended(events) && ClockMonotone(events) && events[0].step.capabilities == ["read,write"]
    ensures events[0].seqNo == 1 && events[0].step.stepId == StepId(1)
    ensures !Chained(Listing(events))
  {
    hide EventHash, Appended, Chained, Listing, StepId;
    var e := AuditEvent("j", "2026-01-01", 1, Body("claimed", "worker", "", map[]), "", "", Trajectory(StepId(1), "", "", ["read,write"], "", ""));
    events := [Sealed(e)];
    FirstAppended(e);
    assert ["read,write"][0][4] == ',';
    ListingVerifies(events);
  }

  // The listing is what was appended, and verifies however short a limit cuts it.
  ghost predicate VerifiesAtEveryLimit(events: seq<AuditEvent>)
  {
    Listing(events) == events && forall limit :: 0 <= limit <= |events| ==> Chained(events[..limit])
  }

  lemma LimitedListingsVerify(events: seq<AuditEvent>)
    requires Appended(events) && ClockMonotone(events) && AllPlain(events)
    ensures VerifiesAtEveryLimit(events)
  {
    hide EventHash, ReadBack, Sort, Appended, Chained, ClockMonotone, AllPlain, Ordered;
    MonotoneIsOrdered(events);
    PlainReadBack(events);
    SortedAlready(events);
    OrderedIsChained(events);
    forall limit | 0 <= limit <= |events| ensures Chained(events[..limit]) {
      PrefixChained(events, limit);
    }
  }

  // ---- the store ---------------------------------------------------------

  function Rows(events: seq<AuditEvent>): (r: seq<Row>)
    ensures |r| == |events|
  {
    seq(|events|, i requires 0 <= i < |events| => ToRow(events[i]))
  }

  lemma RowsMore(events: seq<AuditEvent>, e: AuditEvent)
    ensures Rows(events + [e]) == Rows(events) + [ToRow(e)]
  {
  }

  ghost predicate SeqsBelow(events: seq<AuditEvent>, n: nat)
  {
    forall i :: 0 <= i < |events| ==> events[i].seqNo < n
  }

  lemma AppendedMore(events: seq<AuditEvent>, e: AuditEvent)
    requires Appended(events) && SeqsBelow(events, e.seqNo)
    requires IsLatestHash(events, e.prevEventHash) && e.eventHash == EventHash(e)
    ensures Appended(events + [e])
  {
    hide EventHash, IsLatestHash;
    var all := events + [e];
    forall k | 0 <= k < |all| ensures AppendedAt(all, k) {
      if k < |events| {
        assert AppendedAt(events, k) && all[..k] == events[..k];
      } else {
        assert all[..k] == events;
      }
    }
  }

  class SqliteAuditStore {
    // The rows of each job, in the order they were inserted.
    var rows: map<string, seq<Row>>
    var nextSeq: nat
    // The events as they were appended.
    ghost var log: map<string, seq<AuditEvent>>

    ghost predicate Valid()
      reads this
    {
      && rows.Keys == log.Keys
      && forall job :: job in log ==> rows[job] == Rows(log[job]) && Appended(log[job]) && SeqsBelow(log[job], nextSeq)
    }

    ghost function EventsOf(job: string): seq<AuditEvent>
      reads this
    {
      if job in log then log[job] else []
    }

    constructor ()
      ensures Valid() && log == map[]
    {
      rows, log := map[], map[];
      nextSeq := 1;
    }

    // SELECT event_hash … ORDER BY ts DESC, seq DESC LIMIT 1.
    method LatestHash(job: string) returns (h: string)
      requires Valid()
      ensures IsLatestHash(EventsOf(job), h)
    {
      hide Earlier, Appended, FromRow, ToRow;
      if job !in rows || rows[job] == [] {
        return "";
      }
      ghost var events := log[job];
      var best := 0;
      for i := 1 to |rows[job]|
        invariant 0 <= best < i
        invariant forall k :: 0 <= k < i && k != best ==> Earlier(events[k], events[best])
      {
        RowKeys(events[best]);
        RowKeys(events[i]);
        DistinctAt(events, best, i);
        EarlierIsStrict(events[best], events[i]);
        if Earlier(FromRow(rows[job][best]), FromRow(rows[job][i])) {
          forall k | 0 <= k < i && k != best ensures Earlier(events[k], events[i]) {
            EarlierTransitive(events[k], events[best], events[i]);
          }
          best := i;
        }
      }
      RowKeys(events[best]);
      h := FromRow(rows[job][best]).eventHash;
      assert IsLatest(events, best);
    }

    // One event for a job; the store assigns its number and its step id.
    method Append(job: string, now: string, body: Body, parent: string, tool: string, capabilities: seq<string>,
                  target: string, resultHash: string) returns (e: AuditEvent)
      requires Valid()
      modifies this
      ensures Valid() && nextSeq == old(nextSeq) + 1
      ensures log == old(log)[job := old(EventsOf(job)) + [e]]
      ensures e.jobId == job && e.ts == now && e.seqNo == old(nextSeq) && e.body == body
      ensures e.step == Trajectory(StepId(e.seqNo), parent, tool, capabilities, target, resultHash)
    {
      hide EventHash, Appended, FromRow, ToRow, StepId, IsLatestHash, Rows;
      var previous := LatestHash(job);
      var n := nextSeq;
      nextSeq := nextSeq + 1;
      e := AuditEvent(job, now, n, body, previous, "", Trajectory(StepId(n), parent, tool, capabilities, target, resultHash));
      HashIgnoresItself(e);
      e := Sealed(e);
      NothingAppended();
      AppendedMore(EventsOf(job), e);
      RowsMore(EventsOf(job), e);
      var before := if job in rows then rows[job] else [];
      rows := rows[job := before + [ToRow(e)]];
      log := log[job := EventsOf(job) + [e]];
    }

    method ListForJob(job: string, limit: nat) returns (events: seq<AuditEvent>)
      requires Valid()
      ensures var all := Listing(EventsOf(job)); events == if limit < |all| then all[..limit] else all
    {
      hide Appended, FromRow, ToRow, Sort;
      var found := if job in rows then rows[job] else [];
      var read := seq(|found|, i requires 0 <= i < |found| => FromRow(found[i]));
      assert read == ReadBack(EventsOf(job));
      var all := Sort(read);
      events := if limit < |all| then all[..limit] else all;
    }
  }

  lemma RowKeys(e: AuditEvent)
    ensures var r := FromRow(ToRow(e)); r.ts == e.ts && r.seqNo == e.seqNo && r.eventHash == e.eventHash
    ensures forall x: AuditEvent :: Earlier(FromRow(ToRow(e)), x) <==> Earlier(e, x)
    ensures forall x: AuditEvent :: Earlier(x, FromRow(ToRow(e))) <==> Earlier(x, e)
  {
    hide Lex.Less;
  }

  lemma DistinctAt(events: seq<AuditEvent>, i: nat, j: nat)
    requires Appended(events) && i < j < |events|
    ensures events[i].seqNo != events[j].seqNo
  {
    hide EventHash, IsLatestHash;
    assert AppendedAt(events, j);
  }

  lemma HashIgnoresItself(e: AuditEvent)
    ensures EventHash(e.(eventHash := EventHash(e))) == EventHash(e)
  {
    assert AllMembers(e.(eventHash := EventHash(e))) == AllMembers(e);
  }

  lemma NothingAppended()
    ensures Appended([]) && SeqsBelow([], 0) && Rows([]) == []
  {
  }

  // ---- interleaved jobs on one store -------------------------------------

  datatype Entry = Entry(job: string, now: string, body: Body, parent: string, tool: string, capabilities: seq<string>,
                         target: string, resultHash: string)

  // What is recorded is in order of time, and everything still to come is in order and no earlier.
  ghost predicate InTime(events: seq<AuditEvent>, coming: seq<Entry>)
  {
    && ClockMonotone(events)
    && (forall i, j :: 0 <= i < j < |coming| ==> !Lex.Less(coming[j].now, coming[i].now))
    && (forall k, m :: 0 <= k < |events| && 0 <= m < |coming| ==> !Lex.Less(coming[m].now, events[k].ts))
  }

  lemma NothingYet(entries: seq<Entry>)
    requires forall i, j :: 0 <= i < j < |entries| ==> !Lex.Less(entries[j].now, entries[i].now)
    ensures InTime([], entries)
  {
  }

  lemma InTimeMore(events: seq<AuditEvent>, e: AuditEvent, coming: seq<Entry>)
    requires coming != [] && InTime(events, coming) && e.ts == coming[0].now
    ensures InTime(events + [e], coming[1..])
  {
    hide Lex.Less;
    var all, rest := events + [e], coming[1..];
    assert forall m :: 0 <= m < |rest| ==> rest[m] == coming[m + 1];
  }

  lemma InTimeLess(events: seq<AuditEvent>, coming: seq<Entry>)
    requires coming != [] && InTime(events, coming)
    ensures InTime(events, coming[1..])
  {
    hide Lex.Less;
    assert forall m :: 0 <= m < |coming[1..]| ==> coming[1..][m] == coming[m + 1];
  }

  // Appends for any jobs in any order under a clock that does not go back: whenever the recording
  // stops, every job's listing verifies, at every limit.
  method Record(entries: seq<Entry>) returns (store: SqliteAuditStore)
    requires forall i, j :: 0 <= i < j < |entries| ==> !Lex.Less(entries[j].now, entries[i].now)
    requires forall i :: 0 <= i < |entries| ==> PlainNames(entries[i].capabilities)
    ensures fresh(store) && store.Valid()
    ensures forall job :: VerifiesAtEveryLimit(store.EventsOf(job))
  {
    hide InTime, PlainNames, Appended, VerifiesAtEveryLimit;
    assert InTime([], entries[0..]) by {
      assert entries[0..] == entries;
      NothingYet(entries);
    }
    store := new SqliteAuditStore();
    for n := 0 to |entries|
      invariant fresh(store) && store.Valid()
      invariant forall job :: InTime(store.EventsOf(job), entries[n..]) && AllPlain(store.EventsOf(job))
    {
      var x := entries[n];
      ghost var was := store.EventsOf(x.job);
      label before:
      var e := store.Append(x.job, x.now, x.body, x.parent, x.tool, x.capabilities, x.target, x.resultHash);
      assert entries[n..][0] == x && entries[n..][1..] == entries[n + 1..];
      forall job ensures InTime(store.EventsOf(job), entries[n + 1..]) && AllPlain(store.EventsOf(job)) {
        if job == x.job {
          InTimeMore(was, e, entries[n..]);
        } else {
          assert store.EventsOf(job) == old@before(store.EventsOf(job));
          assert InTime(old@before(store.EventsOf(job)), entries[n..]);
          InTimeLess(store.EventsOf(job), entries[n..]);
        }
      }
    }
    forall job ensures VerifiesAtEveryLimit(store.EventsOf(job)) {
      NothingAppended();
      InTimeIs(store.EventsOf(job), entries[|entries|..]);
      LimitedListingsVerify(store.EventsOf(job));
    }
  }

  lemma InTimeIs(events: seq<AuditEvent>, coming: seq<Entry>)
    requires InTime(events, coming)
    ensures ClockMonotone(events)
  {
  }
}
