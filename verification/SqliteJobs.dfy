/** The SQLite job store: one table keyed by job id, one transaction per operation. */
module SqliteJobs {
  import opened Wrappers
  import opened Jobs
  import opened JobStore
  import OrderedQuery

  class SqliteJobStore {
    var jobs: map<string, Job>

    ghost predicate Valid()
      reads this
    {
      KeyedById(jobs)
    }

    constructor ()
      ensures Valid() && jobs == map[]
    {
      jobs := map[];
    }

    // The primary key refuses an identifier that is taken: the INSERT fails and nothing is stored.
    method Enqueue(id: string, request: Request, now: Time) returns (reply: Option<Job>)
      requires Valid()
      modifies this
      ensures Valid()
      ensures id !in old(jobs) ==> Step(old(jobs), Operation.Enqueue(id, request), now, jobs, One(reply))
      ensures id in old(jobs) ==> jobs == old(jobs) && reply == None
    {
      if id in jobs {
        return None;
      }
      var job := NewJob(id, request, now);
      jobs := jobs[id := job];
      reply := Some(job);
    }

    method Get(id: string) returns (reply: Option<Job>)
      ensures Step(jobs, Operation.Get(id), 0, jobs, One(reply))
    {
      reply := if id in jobs then Some(jobs[id]) else None;
    }

    method ListRecent(limit: nat) returns (feed: seq<Job>)
      requires Valid()
      ensures Step(jobs, Recent(limit), 0, jobs, Feed(feed))
    {
      var ids := OrderedQuery.OrderBy(NewestFirst(jobs), limit);
      FeedOfOrdered(jobs, limit, ids);
      feed := Rows(jobs, ids);
    }

    method Claim(now: Time) returns (reply: Option<Job>)
      requires Valid()
      modifies this
      ensures Valid()
      ensures Step(old(jobs), Operation.Claim, now, jobs, One(reply))
    {
      if forall k :: k in jobs ==> !Claimable(jobs[k].status) {
        return None;
      }
      NextExists(jobs);
      // SELECT … ORDER BY priority, created_at LIMIT 1: any first row.
      var id :| id in jobs && IsNext(jobs, id);
      var status := jobs[id].status;
      reply := ConditionalUpdate(id, status, Running, [], now);
    }

    method ReclaimStaleRunning(olderThan: Time, now: Time) returns (reclaimed: seq<Job>)
      requires Valid()
      modifies this
      ensures Valid()
      ensures Step(old(jobs), Reclaim(olderThan), now, jobs, Many(set j | j in reclaimed))
      ensures forall i, k :: 0 <= i < k < |reclaimed| ==> reclaimed[i].id != reclaimed[k].id
    {
      var rows := StaleIds(jobs, olderThan);
      var ids := FailEach(rows, now);
      ReclaimedRows(old(jobs), olderThan, now, ids);
      reclaimed := Rows(jobs, ids);
    }

    // The update loop over the selected rows, in whatever order they come.
    method FailEach(selected: set<string>, now: Time) returns (ids: seq<string>)
      requires Valid() && forall id :: id in selected ==> id in jobs && jobs[id].status == Running
      modifies this
      ensures Valid()
      ensures jobs == ReclaimAll(old(jobs), selected, now)
      ensures forall id :: id in ids <==> id in selected
      ensures forall i, k :: 0 <= i < k < |ids| ==> ids[i] != ids[k]
    {
      ghost var was, done := jobs, {};
      assert jobs == ReclaimAll(was, done, now);
      var rows := selected;
      ids := [];
      while rows != {}
        invariant forall id :: id in selected <==> id in done || id in rows
        invariant forall id :: id in rows ==> id !in done
        invariant forall id :: id in ids <==> id in done
        invariant forall i, k :: 0 <= i < k < |ids| ==> ids[i] != ids[k]
        invariant Valid() && jobs == ReclaimAll(was, done, now)
        decreases |rows|
      {
        var id :| id in rows;
        ReclaimOneMore(was, done, id, now);
        var updated := FailRunning(id, now);
        if updated {
          ids := ids + [id];
        }
        rows, done := rows - {id}, done + {id};
      }
      assert done == selected;
    }

    method FailRunning(id: string, now: Time) returns (updated: bool)
      requires Valid() && id in jobs
      modifies this
      ensures Valid()
      ensures updated <==> old(jobs)[id].status == Running
      ensures jobs == if updated then old(jobs)[id := Reclaimed(old(jobs)[id], now)] else old(jobs)
    {
      ReclaimUpdates(jobs[id], now);
      var reply := ConditionalUpdate(id, Running, Failed, ReclaimExtra(), now);
      updated := reply.Some?;
    }

    method AwaitApproval(id: string, diff: string, plan: Option<string>, hash: Option<string>, now: Time) returns (reply: Option<Job>)
      requires Valid()
      modifies this
      ensures Valid()
      ensures Step(old(jobs), Park(id, diff, plan, hash), now, jobs, One(reply))
    {
      if id in jobs {
        ParkUpdates(jobs[id], diff, plan, hash, now);
      }
      reply := ConditionalUpdate(id, Running, Status.AwaitingApproval, ParkExtra(diff, plan, hash), now);
    }

    // Reads the job, then updates on the status alone.
    method Approve(id: string, approver: string, now: Time) returns (reply: Option<Job>)
      requires Valid()
      modifies this
      ensures Valid()
      ensures Step(old(jobs), Operation.Approve(id, approver), now, jobs, One(reply))
    {
      if id !in jobs || !HasHash(jobs[id]) {
        return None;
      }
      var hash := jobs[id].gate.executionPlanHash.value;
      ApproveUpdates(jobs[id], approver, hash, now);
      reply := ConditionalUpdate(id, Status.AwaitingApproval, Status.Approved, ApproveExtra(approver, hash, now), now);
    }

    method Reject(id: string, approver: string, now: Time) returns (reply: Option<Job>)
      requires Valid()
      modifies this
      ensures Valid()
      ensures Step(old(jobs), Operation.Reject(id, approver), now, jobs, One(reply))
    {
      if id in jobs {
        RejectUpdates(jobs[id], approver, now);
      }
      reply := ConditionalUpdate(id, Status.AwaitingApproval, Status.Rejected, RejectExtra(approver, now), now);
    }

    method Complete(id: string, outcome: Outcome, now: Time) returns (reply: Option<Job>)
      requires Valid()
      modifies this
      ensures Valid()
      ensures Step(old(jobs), Operation.Complete(id, outcome), now, jobs, One(reply))
    {
      if id in jobs {
        CompleteUpdates(jobs[id], outcome, now);
      }
      reply := ConditionalUpdate(id, Running, outcome.status, CompleteExtra(outcome), now);
    }

    // UPDATE … WHERE id = :id AND status = :expected, with the SET list built entry by entry.
    method ConditionalUpdate(id: string, expected: Status, target: Status, extra: seq<Extra>, now: Time) returns (reply: Option<Job>)
      requires Valid()
      modifies this
      ensures Valid()
      ensures if id in old(jobs) && old(jobs)[id].status == expected
              then jobs == old(jobs)[id := Updated(old(jobs)[id], target, extra, now)] && reply == Some(jobs[id])
              else jobs == old(jobs) && reply == None
    {
      var sets := AppendParts([], extra);
      if id !in jobs || jobs[id].status != expected {
        return None;
      }
      ghost var first := jobs[id].(status := target, updatedAt := now);
      SetColumnsParts(first, [], extra);
      MergeKeepsId(first, extra);
      jobs := jobs[id := SetColumns(jobs[id].(status := target, updatedAt := now), sets)];
      reply := Some(jobs[id]);
    }
  }
}
