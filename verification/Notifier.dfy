/** The proposal notifier: posts the jobs that entered a status worth posting, each once. */
module Notifier {
  import opened Jobs
  import opened JobStore
  import opened Protocol
  import opened ProtocolTheorems
  import ProtocolInvariant

  const FEED_LIMIT := 50

  predicate Notifies(s: Status)
  {
    s == Pending || s == AwaitingApproval || s == Done || s == Failed
  }

  // A new job, one that waits for approval, and one that ended by itself, well or not.
  predicate IsNews(s: Status)
  {
    s != Approved && s != Running && s != Rejected
  }

  datatype Post = Post(id: string, status: Status)

  predicate Worthy(seen: map<string, Status>, j: Job)
  {
    (j.id in seen ==> seen[j.id] != j.status) && Notifies(j.status)
  }

  ghost predicate AllAccounted(seen: map<string, Status>, t: Table, posts: seq<Post>)
  {
    forall i :: 0 <= i < |posts| ==> Accounted(seen, t, posts[i])
  }

  // Tries to post; the n-th attempt of a run gets through or does not.
  class Notifier {
    const delivers: nat -> bool
    var attempts: nat
    var seen: map<string, Status>
    var posted: seq<Post>
    // What a priming poll marked without posting it.
    ghost var primed: seq<Post>

    constructor (delivers: nat -> bool)
      ensures seen == map[] && posted == [] && primed == [] && this.delivers == delivers
    {
      this.delivers := delivers;
      attempts, seen, posted, primed := 0, map[], [], [];
    }

    // Everything posted or primed so far is marked, or the job has moved on for good; nothing is
    // posted twice, or after it was primed.
    ghost predicate Valid(t: Table)
      reads this
    {
      && AllAccounted(seen, t, posted) && AllAccounted(seen, t, primed)
      && (forall i, j :: 0 <= i < j < |posted| ==> posted[i] != posted[j])
      && (forall i :: 0 <= i < |posted| ==> posted[i] !in primed)
    }

    // New, waiting, done and failed jobs are posted unless they are marked so or a post fails.
    method NotifyJobEvents(t: Table, feed: seq<Job>, prime: bool) returns (newly: seq<string>)
      requires Valid(t) && forall j :: j in feed ==> j.id in t && t[j.id] == j
      requires forall i, k :: 0 <= i < k < |feed| ==> feed[i].id != feed[k].id
      modifies this
      ensures Valid(t)
      ensures |posted| == |old(posted)| + |newly| && posted[..|old(posted)|] == old(posted)
      ensures forall i :: 0 <= i < |newly| ==>
                posted[|old(posted)| + i].id == newly[i] && newly[i] in t && t[newly[i]].status == posted[|old(posted)| + i].status
                && IsNews(t[newly[i]].status)
      ensures forall j :: j in feed && !prime && IsNews(j.status) && !(j.id in old(seen) && old(seen)[j.id] == j.status) && j.id !in newly ==>
                exists n :: old(attempts) <= n < attempts && !delivers(n)
      ensures prime ==> newly == []
      ensures forall j :: j in feed ==> Treated(old(seen), seen, newly, prime, j)
      ensures old(primed) <= primed && (!prime ==> primed == old(primed))
      ensures prime ==> forall j :: j in feed && Notifies(j.status) ==> Post(j.id, j.status) in primed || Post(j.id, j.status) in old(posted)
    {
      hide Accounted, AllAccounted, Treated;
      newly := PostFeed(t, feed, prime);
      OnlyNews(seen, t, posted);
      forall j | j in feed && IsNews(j.status) && !(j.id in old(seen) && old(seen)[j.id] == j.status) ensures Worthy(old(seen), j) {
        WorthyIs(old(seen), j);
      }
    }

    // The loop over the feed, oldest first.
    method PostFeed(t: Table, feed: seq<Job>, prime: bool) returns (newly: seq<string>)
      requires Valid(t) && forall j :: j in feed ==> j.id in t && t[j.id] == j
      requires forall i, k :: 0 <= i < k < |feed| ==> feed[i].id != feed[k].id
      modifies this
      ensures Valid(t)
      ensures |posted| == |old(posted)| + |newly| && posted[..|old(posted)|] == old(posted)
      ensures forall i :: 0 <= i < |newly| ==>
                posted[|old(posted)| + i].id == newly[i] && newly[i] in t && t[newly[i]].status == posted[|old(posted)| + i].status
      ensures prime ==> newly == []
      ensures forall j :: j in feed ==> Treated(old(seen), seen, newly, prime, j)
      ensures forall j :: j in feed && !prime && Worthy(old(seen), j) && j.id !in newly ==>
                exists n :: old(attempts) <= n < attempts && !delivers(n)
      ensures old(primed) <= primed && (!prime ==> primed == old(primed))
      ensures prime ==> forall j :: j in feed && Notifies(j.status) ==> Post(j.id, j.status) in primed || Post(j.id, j.status) in old(posted)
    {
      hide Accounted, AllAccounted;
      newly := [];
      var i := |feed|;
      while i > 0
        invariant 0 <= i <= |feed| && Valid(t)
        invariant |posted| == |old(posted)| + |newly| && posted[..|old(posted)|] == old(posted)
        invariant forall k :: 0 <= k < |newly| ==>
                    posted[|old(posted)| + k].id == newly[k] && newly[k] in t && t[newly[k]].status == posted[|old(posted)| + k].status
        invariant prime ==> newly == []
        invariant forall k :: 0 <= k < i ==> SameMark(old(seen), seen, feed[k].id) && feed[k].id !in newly
        invariant forall k :: i <= k < |feed| ==> Treated(old(seen), seen, newly, prime, feed[k])
        invariant attempts >= old(attempts)
        invariant forall k :: i <= k < |feed| && !prime && Worthy(old(seen), feed[k]) && feed[k].id !in newly ==>
                    exists n :: old(attempts) <= n < attempts && !delivers(n)
        invariant old(primed) <= primed && (!prime ==> primed == old(primed)) && (prime ==> posted == old(posted))
        invariant prime ==> forall k :: i <= k < |feed| && Notifies(feed[k].status) ==>
                    Post(feed[k].id, feed[k].status) in primed || Post(feed[k].id, feed[k].status) in old(posted)
      {
        i := i - 1;
        var job := feed[i];
        assert job in feed;
        ghost var n := attempts;
        var sent := NotifyOne(t, job, prime);
        if sent {
          newly := newly + [job.id];
        } else if !prime && Worthy(old(seen), job) {
          assert old(attempts) <= n < attempts && !delivers(n);
        }
      }
    }

    // Marks a job, or posts and then marks it; a post that fails leaves the mark as it was.
    method NotifyOne(t: Table, job: Job, prime: bool) returns (sent: bool)
      requires Valid(t) && job.id in t && t[job.id] == job
      modifies this
      ensures Valid(t) && posted == old(posted) + if sent then [Post(job.id, job.status)] else []
      ensures sent ==> !prime && Worthy(old(seen), job)
      ensures seen == if sent || prime || !Worthy(old(seen), job) then old(seen)[job.id := job.status] else old(seen)
      ensures attempts >= old(attempts)
      ensures !prime && Worthy(old(seen), job) && !sent ==> attempts == old(attempts) + 1 && !delivers(old(attempts))
      ensures primed == old(primed) + if prime && Marks(old(posted), job) then [Post(job.id, job.status)] else []
    {
      hide Accounted, AllAccounted;
      MarkKeepsAccounts(seen, t, posted, job);
      MarkKeepsAccounts(seen, t, primed, job);
      if prime || !Worthy(seen, job) {
        if prime && Marks(posted, job) {
          NowAccounted(seen, t, primed, job);
          primed := primed + [Post(job.id, job.status)];
        }
        seen := seen[job.id := job.status];
        return false;
      }
      sent := delivers(attempts);
      attempts := attempts + 1;
      if sent {
        NotPostedBefore(seen, t, posted, job);
        NotPostedBefore(seen, t, primed, job);
        NowAccounted(seen, t, posted, job);
        seen := seen[job.id := job.status];
        posted := posted + [Post(job.id, job.status)];
      }
    }
  }

  predicate SameMark(before: map<string, Status>, after: map<string, Status>, id: string)
  {
    (id in after <==> id in before) && (id in after ==> after[id] == before[id])
  }

  // What a poll does about one job of the feed: a job not worth posting, and one that was posted,
  // is marked with its status; one whose post failed keeps its mark.
  predicate Treated(before: map<string, Status>, after: map<string, Status>, newly: seq<string>, prime: bool, j: Job)
  {
    if prime || !Worthy(before, j) || j.id in newly then j.id in after && after[j.id] == j.status
    else SameMark(before, after, j.id)
  }

  function StatusRank(s: Status): nat
    requires Notifies(s)
  {
    match s
    case Pending => 5
    case AwaitingApproval => 3
    case _ => 0
  }

  // A post is accounted for: its job still is in the posted status and marked so, or has a lower rank now.
  ghost predicate Accounted(seen: map<string, Status>, t: Table, p: Post)
  {
    && p.id in t && Notifies(p.status)
    && ((t[p.id].status == p.status && p.id in seen && seen[p.id] == p.status) || Rank(t[p.id]) < StatusRank(p.status))
  }

  // A priming poll marks this job's status, and it was not posted before.
  predicate Marks(posted: seq<Post>, j: Job)
  {
    Notifies(j.status) && Post(j.id, j.status) !in posted
  }

  lemma NotPostedBefore(seen: map<string, Status>, t: Table, posts: seq<Post>, j: Job)
    requires AllAccounted(seen, t, posts) && j.id in t && t[j.id] == j && Worthy(seen, j)
    ensures Post(j.id, j.status) !in posts
  {
  }

  lemma WorthyIs(seen: map<string, Status>, j: Job)
    ensures Worthy(seen, j) <==> IsNews(j.status) && !(j.id in seen && seen[j.id] == j.status)
  {
  }

  lemma OnlyNews(seen: map<string, Status>, t: Table, posts: seq<Post>)
    requires AllAccounted(seen, t, posts)
    ensures forall i :: 0 <= i < |posts| ==> IsNews(posts[i].status)
  {
    hide Rank;
    forall i | 0 <= i < |posts| ensures IsNews(posts[i].status) {
      assert Accounted(seen, t, posts[i]);
    }
  }

  lemma MarkKeepsAccounts(seen: map<string, Status>, t: Table, posts: seq<Post>, j: Job)
    requires AllAccounted(seen, t, posts) && j.id in t && t[j.id] == j
    ensures AllAccounted(seen[j.id := j.status], t, posts)
  {
  }

  lemma NowAccounted(seen: map<string, Status>, t: Table, posts: seq<Post>, j: Job)
    requires AllAccounted(seen[j.id := j.status], t, posts) && j.id in t && t[j.id] == j && Notifies(j.status)
    ensures AllAccounted(seen[j.id := j.status], t, posts + [Post(j.id, j.status)])
  {
  }

  // ---- polling a table that moves ----------------------------------------

  // Between two polls every job stays, or has dropped in rank.
  ghost predicate AllFall(t: Table, t': Table)
  {
    forall id :: id in t ==> id in t' && (t'[id] == t[id] || Rank(t'[id]) < Rank(t[id]))
  }

  // Any run of the job protocol moves the table so.
  lemma {:induction false} RunsFall(w: World, actions: seq<Action>)
    requires Inv(w) && IsRun(w, actions)
    ensures AllFall(w.jobs, After(w, actions).jobs)
    decreases |actions|
  {
    hide Rank, Enabled, Apply, Inv;
    if actions != [] {
      var w1 := Apply(w, actions[0]);
      ProtocolInvariant.StepKeepsInv(w, actions[0]);
      RunsFall(w1, actions[1..]);
      forall id | id in w.jobs
        ensures id in w1.jobs && (w1.jobs[id] == w.jobs[id] || Rank(w1.jobs[id]) < Rank(w.jobs[id]))
      {
        InvStepFalls(w, actions[0], id);
      }
    }
  }

  lemma AccountFalls(seen: map<string, Status>, t: Table, t': Table, p: Post)
    requires Accounted(seen, t, p) && AllFall(t, t')
    ensures Accounted(seen, t', p)
  {
    if t[p.id].status == p.status {
      RankOfStatus(t[p.id]);
    }
  }

  lemma AccountsFall(seen: map<string, Status>, t: Table, t': Table, posts: seq<Post>)
    requires AllAccounted(seen, t, posts) && AllFall(t, t')
    ensures AllAccounted(seen, t', posts)
  {
    hide Accounted, AllFall;
    forall i | 0 <= i < |posts| ensures Accounted(seen, t', posts[i]) {
      AccountFalls(seen, t, t', posts[i]);
    }
  }

  lemma NothingPosted(seen: map<string, Status>, tables: seq<Table>)
    ensures tables != [] ==> AllAccounted(seen, tables[0], [])
  {
  }

  lemma PostsAreWorthy(seen: map<string, Status>, t: Table, posts: seq<Post>)
    requires AllAccounted(seen, t, posts)
    ensures forall i :: 0 <= i < |posts| ==> Notifies(posts[i].status)
  {
  }

  lemma RankOfStatus(j: Job)
    requires Notifies(j.status)
    ensures Rank(j) == StatusRank(j.status)
  {
  }

  // A whole polling run, one table and its feed a poll: what the first poll sees is not posted in the
  // status it then has, and no job is ever posted twice in the same status, whichever posts failed
  // and were tried again.
  method RunForever(notifier: Notifier, tables: seq<Table>, feeds: seq<seq<Job>>) returns (posted: nat)
    requires |tables| == |feeds| && notifier.posted == [] && notifier.primed == []
    requires forall i :: 0 <= i < |tables| ==> IsFeed(tables[i], FEED_LIMIT, feeds[i])
    requires forall i :: 0 <= i < |tables| - 1 ==> AllFall(tables[i], tables[i + 1])
    modifies notifier
    ensures posted == |notifier.posted|
    ensures forall i, j :: 0 <= i < j < |notifier.posted| ==> notifier.posted[i] != notifier.posted[j]
    ensures feeds != [] ==> forall j :: j in feeds[0] ==> Post(j.id, j.status) !in notifier.posted
  {
    hide AllAccounted, AllFall;
    posted := 0;
    var primed := false;
    NothingPosted(notifier.seen, tables);
    for n := 0 to |tables|
      invariant posted == |notifier.posted| && primed == (n > 0)
      invariant n < |tables| ==> notifier.Valid(tables[n])
      invariant 0 < n == |tables| ==> notifier.Valid(tables[n - 1])
      invariant n == 0 ==> notifier.posted == []
      invariant n > 0 ==> forall j :: j in feeds[0] && Notifies(j.status) ==> Post(j.id, j.status) in notifier.primed
    {
      FeedIsOfTable(tables[n], feeds[n]);
      var newly := notifier.NotifyJobEvents(tables[n], feeds[n], !primed);
      posted := posted + |newly|;
      primed := true;
      if n + 1 < |tables| {
        AccountsFall(notifier.seen, tables[n], tables[n + 1], notifier.posted);
        AccountsFall(notifier.seen, tables[n], tables[n + 1], notifier.primed);
      }
    }
    if tables != [] {
      PostsAreWorthy(notifier.seen, tables[|tables| - 1], notifier.posted);
    }
  }

  lemma FeedIsOfTable(t: Table, feed: seq<Job>)
    requires IsFeed(t, FEED_LIMIT, feed)
    ensures forall j :: j in feed ==> j.id in t && t[j.id] == j
    ensures forall i, k :: 0 <= i < k < |feed| ==> feed[i].id != feed[k].id
  {
  }
}
