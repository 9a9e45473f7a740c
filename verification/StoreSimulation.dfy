/**
 Two stores, one meaning: over every sequence of operations the SQLite and the DynamoDB job
 store give the same replies and end with the same jobs.
 */
module StoreSimulation {
  import opened Jobs
  import opened JobStore
  import SqliteJobs
  import DynamoJobs

  // One call: the operation and the reading of the clock during it.
  datatype Call = Call(op: Operation, now: Time)

  // Every enqueue has an identifier and a creation time that no job has and no later enqueue uses.
  ghost predicate Fresh(t: Table, calls: seq<Call>)
  {
    forall i :: 0 <= i < |calls| && calls[i].op.Enqueue? ==>
      && Admissible(t, calls[i].op, calls[i].now)
      && forall j :: i < j < |calls| && calls[j].op.Enqueue? ==>
           calls[j].op.id != calls[i].op.id && calls[j].now != calls[i].now
  }

  // tables[i] is the state before call i, replies[i] its reply.
  ghost predicate IsRun(calls: seq<Call>, tables: seq<Table>, replies: seq<Reply>)
  {
    && |tables| == |calls| + 1 && |replies| == |calls|
    && forall i :: 0 <= i < |calls| ==> Step(tables[i], calls[i].op, calls[i].now, tables[i + 1], replies[i])
  }

  // An operation adds no job but the enqueued one, and no creation time but its own.
  lemma NothingElseAdded(t: Table, op: Operation, now: Time, t': Table, reply: Reply, k: string)
    requires Step(t, op, now, t', reply) && k in t'
    ensures (op.Enqueue? && k == op.id && t'[k].createdAt == now) || (k in t && t'[k].createdAt == t[k].createdAt)
  {
  }

  lemma FreshAfter(t: Table, calls: seq<Call>, t': Table, reply: Reply)
    requires calls != [] && Fresh(t, calls) && Step(t, calls[0].op, calls[0].now, t', reply)
    ensures Fresh(t', calls[1..])
  {
    hide Step;
    forall k | k in t'
      ensures (calls[0].op.Enqueue? && k == calls[0].op.id && t'[k].createdAt == calls[0].now)
           || (k in t && t'[k].createdAt == t[k].createdAt)
    {
      NothingElseAdded(t, calls[0].op, calls[0].now, t', reply, k);
    }
    var rest := calls[1..];
    forall i | 0 <= i < |rest| && rest[i].op.Enqueue?
      ensures Admissible(t', rest[i].op, rest[i].now)
    {
      assert rest[i] == calls[i + 1];
    }
    forall i, j | 0 <= i < j < |rest| && rest[i].op.Enqueue? && rest[j].op.Enqueue?
      ensures rest[j].op.id != rest[i].op.id && rest[j].now != rest[i].now
    {
      assert rest[i] == calls[i + 1] && rest[j] == calls[j + 1];
    }
  }

  // The contract leaves one run: the same calls on the same jobs give the same replies and jobs.
  lemma {:induction false} RunsAgree(calls: seq<Call>, tables1: seq<Table>, replies1: seq<Reply>,
                                     tables2: seq<Table>, replies2: seq<Reply>, n: nat)
    requires IsRun(calls, tables1, replies1) && IsRun(calls, tables2, replies2) && n <= |calls|
    requires tables1[0] == tables2[0] && Fresh(tables1[0], calls)
    requires KeyedById(tables1[0]) && DistinctCreated(tables1[0])
    ensures tables1[..n + 1] == tables2[..n + 1] && replies1[..n] == replies2[..n]
    ensures Fresh(tables1[n], calls[n..]) && KeyedById(tables1[n]) && DistinctCreated(tables1[n])
  {
    hide Step;
    if n > 0 {
      var k := n - 1;
      RunsAgree(calls, tables1, replies1, tables2, replies2, k);
      assert calls[k..][0] == calls[k] && calls[k..][1..] == calls[n..];
      assert tables1[k] == tables1[..n][k] == tables2[..n][k] == tables2[k];
      FreshAfter(tables1[k], calls[k..], tables1[n], replies1[k]);
      Deterministic(tables1[k], calls[k].op, calls[k].now, tables1[n], replies1[k], tables2[n], replies2[k]);
      StepKeeps(tables1[k], calls[k].op, calls[k].now, tables1[n], replies1[k]);
      assert tables1[..n + 1] == tables1[..n] + [tables1[n]] && tables2[..n + 1] == tables2[..n] + [tables2[n]];
      assert replies1[..n] == replies1[..k] + [replies1[k]] && replies2[..n] == replies2[..k] + [replies2[k]];
    } else {
      assert calls[0..] == calls;
    }
  }

  method CallSqlite(store: SqliteJobs.SqliteJobStore, call: Call) returns (reply: Reply)
    requires store.Valid() && (call.op.Enqueue? ==> call.op.id !in store.jobs)
    modifies store
    ensures store.Valid() && Step(old(store.jobs), call.op, call.now, store.jobs, reply)
  {
    hide KeyedById, Transition, ClaimStep, ReclaimStep, IsFeed, HasHash;
    match call.op
    case Enqueue(id, request) =>
      var job := store.Enqueue(id, request, call.now);
      reply := One(job);
    case Claim =>
      var job := store.Claim(call.now);
      reply := One(job);
    case Reclaim(olderThan) =>
      var jobs := store.ReclaimStaleRunning(olderThan, call.now);
      reply := Many(set j | j in jobs);
    case Park(id, diff, plan, hash) =>
      var job := store.AwaitApproval(id, diff, plan, hash, call.now);
      reply := One(job);
    case Approve(id, approver) =>
      var job := store.Approve(id, approver, call.now);
      reply := One(job);
    case Reject(id, approver) =>
      var job := store.Reject(id, approver, call.now);
      reply := One(job);
    case Complete(id, outcome) =>
      var job := store.Complete(id, outcome, call.now);
      reply := One(job);
    case Get(id) =>
      var job := store.Get(id);
      reply := One(job);
    case Recent(limit) =>
      var feed := store.ListRecent(limit);
      reply := Feed(feed);
  }

  method CallDynamo(store: DynamoJobs.DynamoJobStore, call: Call) returns (reply: Reply)
    requires store.Valid()
    modifies store
    ensures store.Valid() && Step(old(store.Contents()), call.op, call.now, store.Contents(), reply)
  {
    hide DynamoJobs.WellFormed, Transition, ClaimStep, ReclaimStep, IsFeed, HasHash;
    match call.op
    case Enqueue(id, request) =>
      var job := store.Enqueue(id, request, call.now);
      reply := One(job);
    case Claim =>
      var job := store.Claim(call.now);
      reply := One(job);
    case Reclaim(olderThan) =>
      var jobs := store.ReclaimStaleRunning(olderThan, call.now);
      reply := Many(set j | j in jobs);
    case Park(id, diff, plan, hash) =>
      var job := store.AwaitApproval(id, diff, plan, hash, call.now);
      reply := One(job);
    case Approve(id, approver) =>
      var job := store.Approve(id, approver, call.now);
      reply := One(job);
    case Reject(id, approver) =>
      var job := store.Reject(id, approver, call.now);
      reply := One(job);
    case Complete(id, outcome) =>
      var job := store.Complete(id, outcome, call.now);
      reply := One(job);
    case Get(id) =>
      var job := store.Get(id);
      reply := One(job);
    case Recent(limit) =>
      var feed := store.ListRecent(limit);
      reply := Feed(feed);
  }

  // Both stores driven through the same calls.
  method RunBoth(sqlite: SqliteJobs.SqliteJobStore, dynamo: DynamoJobs.DynamoJobStore, calls: seq<Call>)
    returns (replies1: seq<Reply>, replies2: seq<Reply>)
    requires sqlite.Valid() && dynamo.Valid()
    requires sqlite.jobs == dynamo.Contents() && DistinctCreated(sqlite.jobs) && Fresh(sqlite.jobs, calls)
    modifies sqlite, dynamo
    ensures sqlite.Valid() && dynamo.Valid() && sqlite.jobs == dynamo.Contents()
    ensures |replies1| == |calls| && replies1 == replies2
  {
    hide Step, KeyedById, DistinctCreated, Fresh, DynamoJobs.WellFormed, DynamoJobs.Records;
    replies1, replies2 := [], [];
    assert calls[0..] == calls;
    for i := 0 to |calls|
      invariant sqlite.Valid() && dynamo.Valid() && sqlite.jobs == dynamo.Contents()
      invariant DistinctCreated(sqlite.jobs) && Fresh(sqlite.jobs, calls[i..])
      invariant |replies1| == i && replies1 == replies2
    {
      var call := calls[i];
      assert calls[i..][0] == call && calls[i..][1..] == calls[i + 1..];
      NextIsAdmissible(sqlite.jobs, calls[i..]);
      ghost var was := sqlite.jobs;
      var reply1 := CallSqlite(sqlite, call);
      var reply2 := CallDynamo(dynamo, call);
      Deterministic(was, call.op, call.now, sqlite.jobs, reply1, dynamo.Contents(), reply2);
      StepKeeps(was, call.op, call.now, sqlite.jobs, reply1);
      FreshAfter(was, calls[i..], sqlite.jobs, reply1);
      replies1, replies2 := replies1 + [reply1], replies2 + [reply2];
    }
  }

  lemma NextIsAdmissible(t: Table, calls: seq<Call>)
    requires calls != [] && Fresh(t, calls)
    ensures Admissible(t, calls[0].op, calls[0].now)
  {
  }
}
