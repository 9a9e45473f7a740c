/**
 The job store contract: what every operation replies and does to the table, independent of
 a backend. Within one operation the clock gives one reading.
 */
module JobStore {
  import opened Wrappers
  import opened Jobs
  import OrderedQuery

  type Table = map<string, Job>

  ghost predicate KeyedById(t: Table)
  {
    forall id :: id in t ==> t[id].id == id
  }

  datatype Operation =
    | Enqueue(id: string, request: Request)
    | Claim
    | Reclaim(olderThan: Time)
    | Park(id: string, diff: string, plan: Option<string>, hash: Option<string>)
    | Approve(id: string, approver: string)
    | Reject(id: string, approver: string)
    | Complete(id: string, outcome: Outcome)
    | Get(id: string)
    | Recent(limit: nat)

  datatype Reply = One(job: Option<Job>) | Many(jobs: set<Job>) | Feed(feed: seq<Job>)

  // ---- conditional transitions -------------------------------------------

  // Compare the status, and only if it is the expected one write the new record.
  predicate Transition(t: Table, id: string, expected: Status, next: Job -> Job, t': Table, reply: Option<Job>)
  {
    if id in t && t[id].status == expected then
      t' == t[id := next(t[id])] && reply == Some(next(t[id]))
    else t' == t && reply == None
  }

  // ---- claim -------------------------------------------------------------

  // a is served before b.
  predicate Before(a: Job, b: Job)
    requires Claimable(a.status) && Claimable(b.status)
  {
    Priority(a.status) < Priority(b.status) || (a.status == b.status && a.createdAt < b.createdAt)
  }

  predicate IsNext(t: Table, id: string)
  {
    && id in t && Claimable(t[id].status)
    && forall k :: k in t && Claimable(t[k].status) ==> !Before(t[k], t[id])
  }

  predicate Idle(t: Table)
  {
    forall k :: k in t ==> !Claimable(t[k].status)
  }

  ghost predicate ClaimStep(t: Table, now: Time, t': Table, reply: Option<Job>)
  {
    if Idle(t) then t' == t && reply == None
    else exists id :: IsNext(t, id) && t' == t[id := Claimed(t[id], now)] && reply == Some(Claimed(t[id], now))
  }

  lemma {:induction false} NextExistsAmong(t: Table, ids: set<string>)
    requires ids != {} && forall k :: k in ids ==> k in t && Claimable(t[k].status)
    ensures exists id :: id in ids && forall k :: k in ids ==> !Before(t[k], t[id])
  {
    var x :| x in ids;
    var rest := ids - {x};
    assert forall k :: k in ids <==> k == x || k in rest;
    if rest == {} {
      assert !Before(t[x], t[x]);
    } else {
      NextExistsAmong(t, rest);
      var y :| y in rest && forall k :: k in rest ==> !Before(t[k], t[y]);
      var id := if Before(t[x], t[y]) then x else y;
      assert forall k :: k in rest ==> !Before(t[k], t[id]);
      assert !Before(t[x], t[id]);
    }
  }

  lemma NextExists(t: Table)
    requires !Idle(t)
    ensures exists id :: IsNext(t, id)
  {
    var ids := set k | k in t && Claimable(t[k].status);
    var k0 :| k0 in t && Claimable(t[k0].status);
    assert k0 in ids;
    NextExistsAmong(t, ids);
    var id :| id in ids && forall k :: k in ids ==> !Before(t[k], t[id]);
    assert IsNext(t, id);
  }

  // ---- reclaim -----------------------------------------------------------

  predicate Stale(j: Job, olderThan: Time)
  {
    j.status == Running && j.updatedAt < olderThan
  }

  function StaleIds(t: Table, olderThan: Time): set<string>
  {
    set id | id in t && Stale(t[id], olderThan)
  }

  function ReclaimAll(t: Table, ids: set<string>, now: Time): Table
  {
    map id | id in t :: if id in ids then Reclaimed(t[id], now) else t[id]
  }

  predicate ReclaimStep(t: Table, olderThan: Time, now: Time, t': Table, reply: set<Job>)
  {
    var ids := StaleIds(t, olderThan);
    t' == ReclaimAll(t, ids, now) && reply == (set id | id in ids :: Reclaimed(t[id], now))
  }

  // ---- the feed ----------------------------------------------------------

  // The newest `limit` jobs, newest first.
  ghost predicate IsFeed(t: Table, limit: nat, feed: seq<Job>)
  {
    && |feed| == OrderedQuery.Min(limit, |t|)
    && (forall i :: 0 <= i < |feed| ==> feed[i].id in t && t[feed[i].id] == feed[i])
    && (forall i, j :: 0 <= i < j < |feed| ==> feed[i].id != feed[j].id && feed[i].createdAt >= feed[j].createdAt)
    && (forall k, i :: k in t && 0 <= i < |feed| && t[k] !in feed ==> t[k].createdAt <= feed[i].createdAt)
  }

  // ---- one operation -----------------------------------------------------

  ghost predicate Step(t: Table, op: Operation, now: Time, t': Table, reply: Reply)
  {
    match op
    case Enqueue(id, request) =>
      var j := NewJob(id, request, now);
      t' == t[id := j] && reply == One(Some(j))
    case Claim => reply.One? && ClaimStep(t, now, t', reply.job)
    case Reclaim(olderThan) => reply.Many? && ReclaimStep(t, olderThan, now, t', reply.jobs)
    case Park(id, diff, plan, hash) =>
      reply.One? && Transition(t, id, Running, (j: Job) => Parked(j, diff, plan, hash, now), t', reply.job)
    case Approve(id, approver) =>
      if id in t && HasHash(t[id]) then
        var hash := t[id].gate.executionPlanHash.value;
        reply.One? && Transition(t, id, AwaitingApproval, (j: Job) => ApprovedJob(j, approver, hash, now), t', reply.job)
      else t' == t && reply == One(None)
    case Reject(id, approver) =>
      reply.One? && Transition(t, id, AwaitingApproval, (j: Job) => RejectedJob(j, approver, now), t', reply.job)
    case Complete(id, outcome) =>
      reply.One? && Transition(t, id, Running, (j: Job) => Completed(j, outcome, now), t', reply.job)
    case Get(id) => t' == t && reply == One(if id in t then Some(t[id]) else None)
    case Recent(limit) => t' == t && reply.Feed? && IsFeed(t, limit, reply.feed)
  }

  // ---- the contract in the words of the record ---------------------------

  // A claim takes an approved job before a new one, of two alike the older one, and changes nothing
  // but its status and its last update; it takes none only if there is none.
  lemma ClaimIs(t: Table, now: Time, t': Table, reply: Option<Job>)
    requires ClaimStep(t, now, t', reply)
    ensures reply.None? <==> forall k :: k in t ==> t[k].status != Pending && t[k].status != Approved
    ensures reply.Some? ==>
              exists id :: id in t && reply.value == t[id].(status := Running, updatedAt := now) && t' == t[id := reply.value]
                && (t[id].status == Approved || (t[id].status == Pending && forall k :: k in t ==> t[k].status != Approved))
                && forall k :: k in t && t[k].status == t[id].status ==> t[id].createdAt <= t[k].createdAt
  {
    hide Claimed;
    if reply.Some? {
      var id :| IsNext(t, id) && t' == t[id := Claimed(t[id], now)] && reply == Some(Claimed(t[id], now));
      RecordsAre("", t[id].request, t[id], now);
    }
  }

  // A reclaim fails exactly the running jobs that were last updated before the given time.
  lemma ReclaimIs(t: Table, olderThan: Time, now: Time, t': Table, reply: set<Job>)
    requires ReclaimStep(t, olderThan, now, t', reply)
    ensures t'.Keys == t.Keys
    ensures forall id :: id in t ==>
              if t[id].status == Running && t[id].updatedAt < olderThan
              then t'[id].status == Failed && t'[id].updatedAt == now && t'[id].gate == t[id].gate && t'[id] in reply
              else t'[id] == t[id]
    ensures forall j :: j in reply ==> exists id :: id in t && t[id].status == Running && t[id].updatedAt < olderThan && j == t'[id]
  {
    forall j | j in reply ensures exists id :: id in t && t[id].status == Running && t[id].updatedAt < olderThan && j == t'[id] {
      var id :| id in StaleIds(t, olderThan) && j == Reclaimed(t[id], now);
      assert t'[id] == j;
    }
  }

  // ---- determinism -------------------------------------------------------

  ghost predicate DistinctCreated(t: Table)
  {
    forall a, b :: a in t && b in t && a != b ==> t[a].createdAt != t[b].createdAt
  }

  // A fresh identifier and a creation time nobody has: what uuid4 and the clock provide.
  ghost predicate Admissible(t: Table, op: Operation, now: Time)
  {
    op.Enqueue? ==> op.id !in t && forall k :: k in t ==> t[k].createdAt != now
  }

  lemma NextUnique(t: Table, a: string, b: string)
    requires DistinctCreated(t) && IsNext(t, a) && IsNext(t, b)
    ensures a == b
  {
  }

  lemma FeedUnique(t: Table, limit: nat, a: seq<Job>, b: seq<Job>)
    requires DistinctCreated(t) && KeyedById(t) && IsFeed(t, limit, a) && IsFeed(t, limit, b)
    ensures a == b
  {
    FeedsAgree(t, limit, a, b, |a|);
    assert a[..|a|] == a && b[..|b|] == b;
  }

  lemma {:induction false} FeedsAgree(t: Table, limit: nat, a: seq<Job>, b: seq<Job>, n: nat)
    requires DistinctCreated(t) && KeyedById(t) && IsFeed(t, limit, a) && IsFeed(t, limit, b) && n <= |a|
    ensures a[..n] == b[..n]
  {
    if n > 0 {
      FeedsAgree(t, limit, a, b, n - 1);
      NotNewer(t, limit, a, b, n - 1);
      NotNewer(t, limit, b, a, n - 1);
      assert a[n - 1] == b[n - 1];
      assert a[..n] == a[..n - 1] + [a[n - 1]] && b[..n] == b[..n - 1] + [b[n - 1]];
    }
  }

  // After a common beginning, what the one feed shows next is no newer than what the other does.
  lemma NotNewer(t: Table, limit: nat, a: seq<Job>, b: seq<Job>, i: nat)
    requires DistinctCreated(t) && KeyedById(t) && IsFeed(t, limit, a) && IsFeed(t, limit, b)
    requires i < |a| == |b| && a[..i] == b[..i]
    ensures b[i].createdAt <= a[i].createdAt
  {
    hide IsFeed, DistinctCreated;
    var j := b[i];
    FeedHolds(t, limit, b, i);
    if j in a {
      var k :| 0 <= k < |a| && a[k] == j;
      if k < i {
        assert a[k] == a[..i][k] == b[k];
        FeedDescends(t, limit, b, k, i);
      } else if i < k {
        FeedDescends(t, limit, a, i, k);
      }
    } else {
      FeedIsNewest(t, limit, a, j.id, i);
    }
  }

  lemma FeedHolds(t: Table, limit: nat, feed: seq<Job>, i: nat)
    requires IsFeed(t, limit, feed) && i < |feed|
    ensures feed[i].id in t && t[feed[i].id] == feed[i]
  {
  }

  lemma FeedDescends(t: Table, limit: nat, feed: seq<Job>, i: nat, j: nat)
    requires IsFeed(t, limit, feed) && i < j < |feed|
    ensures feed[i].id != feed[j].id && feed[i].createdAt >= feed[j].createdAt
  {
  }

  lemma FeedIsNewest(t: Table, limit: nat, feed: seq<Job>, k: string, i: nat)
    requires IsFeed(t, limit, feed) && k in t && t[k] !in feed && i < |feed|
    ensures t[k].createdAt <= feed[i].createdAt
  {
  }

  // The contract fixes every reply and every successor table.
  lemma Deterministic(t: Table, op: Operation, now: Time, t1: Table, r1: Reply, t2: Table, r2: Reply)
    requires DistinctCreated(t) && KeyedById(t)
    requires Step(t, op, now, t1, r1) && Step(t, op, now, t2, r2)
    ensures t1 == t2 && r1 == r2
  {
    match op
    case Claim =>
      if !Idle(t) {
        var a :| IsNext(t, a) && t1 == t[a := Claimed(t[a], now)] && r1.job == Some(Claimed(t[a], now));
        var b :| IsNext(t, b) && t2 == t[b := Claimed(t[b], now)] && r2.job == Some(Claimed(t[b], now));
        NextUnique(t, a, b);
      }
    case Recent(limit) => FeedUnique(t, limit, r1.feed, r2.feed);
    case _ =>
  }

  // Every operation keeps the keys and, for admissible calls, the distinct creation times.
  lemma StepKeeps(t: Table, op: Operation, now: Time, t': Table, reply: Reply)
    requires DistinctCreated(t) && KeyedById(t) && Admissible(t, op, now)
    requires Step(t, op, now, t', reply)
    ensures DistinctCreated(t') && KeyedById(t')
  {
  }

  // ---- rows named by a query ---------------------------------------------

  function Rows(t: Table, ids: seq<string>): (r: seq<Job>)
    requires forall i :: 0 <= i < |ids| ==> ids[i] in t
    ensures |r| == |ids| && forall i :: 0 <= i < |ids| ==> r[i] == t[ids[i]]
  {
    seq(|ids|, i requires 0 <= i < |ids| => t[ids[i]])
  }

  // `ORDER BY created_at DESC`: the sort key of every row.
  function NewestFirst(t: Table): (keys: map<string, int>)
    ensures keys.Keys == t.Keys && |keys| == |t|
  {
    var keys := map id | id in t :: -t[id].createdAt;
    assert keys.Keys == t.Keys;
    assert |keys| == |keys.Keys| && |t| == |t.Keys|;
    keys
  }

  lemma FeedOfOrdered(t: Table, limit: nat, ids: seq<string>)
    requires KeyedById(t) && OrderedQuery.IsOrdered(NewestFirst(t), limit, ids)
    ensures IsFeed(t, limit, Rows(t, ids))
  {
    var feed := Rows(t, ids);
    assert forall n :: 0 <= n < |ids| ==> feed[n] in feed && t[ids[n]] == feed[n];
    forall k, i | k in t && 0 <= i < |feed| && t[k] !in feed ensures t[k].createdAt <= feed[i].createdAt {
      assert k !in ids;
      assert NewestFirst(t)[ids[i]] <= NewestFirst(t)[k];
    }
  }

  lemma ReclaimOneMore(t: Table, done: set<string>, id: string, now: Time)
    requires id in t && id !in done
    ensures ReclaimAll(t, done, now)[id] == t[id]
    ensures ReclaimAll(t, done + {id}, now) == ReclaimAll(t, done, now)[id := Reclaimed(t[id], now)]
  {
  }

  lemma ReclaimedRows(t: Table, olderThan: Time, now: Time, ids: seq<string>)
    requires forall id :: id in ids <==> id in StaleIds(t, olderThan)
    ensures var t' := ReclaimAll(t, StaleIds(t, olderThan), now);
            && (forall i :: 0 <= i < |ids| ==> ids[i] in t')
            && ReclaimStep(t, olderThan, now, t', set j | j in Rows(t', ids))
  {
    var stale := StaleIds(t, olderThan);
    var t' := ReclaimAll(t, stale, now);
    assert forall i :: 0 <= i < |ids| ==> ids[i] in ids;
    var rows := Rows(t', ids);
    forall id | id in stale ensures Reclaimed(t[id], now) in rows {
      var i :| 0 <= i < |ids| && ids[i] == id;
      assert rows[i] == Reclaimed(t[id], now);
    }
    assert (set j | j in rows) == set id | id in stale :: Reclaimed(t[id], now);
  }
}
