/** The trajectory of a job: its events grouped by parent. */
module StepTree {
  import opened AuditEvents

  type Tree = map<string, seq<AuditEvent>>

  // The steps under a parent, in order; events without a step id are ignored.
  function Children(events: seq<AuditEvent>, parent: string): seq<AuditEvent>
  {
    if events == [] then []
    else
      var last := events[|events| - 1];
      Children(events[..|events| - 1], parent) + if last.step.stepId != "" && last.step.parentStepId == parent then [last] else []
  }

  function Steps(events: seq<AuditEvent>): nat
  {
    if events == [] then 0
    else Steps(events[..|events| - 1]) + if events[|events| - 1].step.stepId != "" then 1 else 0
  }

  // How many events the buckets hold together.
  ghost function Size(tree: Tree): nat
  {
    if tree == map[] then 0
    else
      var k :| k in tree;
      |tree[k]| + Size(tree - {k})
  }

  // The order in which the buckets are counted does not matter.
  lemma {:induction false} SizeWithout(tree: Tree, k: string)
    requires k in tree
    ensures Size(tree) == |tree[k]| + Size(tree - {k})
    decreases |tree|
  {
    var c :| c in tree && Size(tree) == |tree[c]| + Size(tree - {c});
    if c != k {
      Smaller(tree, c);
      SizeWithout(tree - {c}, k);
      assert tree - {c} - {k} == tree - {k} - {c};
      Smaller(tree, k);
      SizeWithout(tree - {k}, c);
    }
  }

  lemma Smaller(tree: Tree, k: string)
    requires k in tree
    ensures |tree - {k}| < |tree|
  {
    assert (tree - {k}).Keys == tree.Keys - {k};
    assert |(tree - {k}).Keys| == |tree - {k}| && |tree.Keys| == |tree|;
  }

  lemma BucketGrows(tree: Tree, k: string, e: AuditEvent)
    ensures Size(tree[k := (if k in tree then tree[k] else []) + [e]]) == Size(tree) + 1
  {
    var tree' := tree[k := (if k in tree then tree[k] else []) + [e]];
    SizeWithout(tree', k);
    if k in tree {
      SizeWithout(tree, k);
      assert tree' - {k} == tree - {k};
    } else {
      assert tree' - {k} == tree;
    }
  }

  method BuildStepTree(events: seq<AuditEvent>) returns (tree: Tree)
    ensures forall p :: p in tree <==> Children(events, p) != []
    ensures forall p :: p in tree ==> tree[p] == Children(events, p)
    ensures Size(tree) == Steps(events)
  {
    tree := map[];
    for i := 0 to |events|
      invariant forall p :: p in tree <==> Children(events[..i], p) != []
      invariant forall p :: p in tree ==> tree[p] == Children(events[..i], p)
      invariant Size(tree) == Steps(events[..i])
    {
      assert events[..i + 1][..i] == events[..i];
      var e := events[i];
      if e.step.stepId != "" {
        BucketGrows(tree, e.step.parentStepId, e);
        var bucket := if e.step.parentStepId in tree then tree[e.step.parentStepId] else [];
        tree := tree[e.step.parentStepId := bucket + [e]];
      }
    }
    assert events[..|events|] == events;
  }

  // ---- a forest ----------------------------------------------------------

  // Every step names no parent or an earlier step.
  ghost predicate ParentsEarlier(events: seq<AuditEvent>)
  {
    forall i :: 0 <= i < |events| && events[i].step.parentStepId != "" ==>
      exists j :: 0 <= j < i && events[j].step.stepId == events[i].step.parentStepId
  }

  // A walk from a step to its parent, to the parent's parent, and so on.
  ghost predicate IsWalk(events: seq<AuditEvent>, walk: seq<nat>)
  {
    && walk != [] && (forall n :: 0 <= n < |walk| ==> walk[n] < |events|)
    && forall n :: 0 <= n < |walk| - 1 ==>
         walk[n + 1] < walk[n] && events[walk[n]].step.parentStepId != ""
         && events[walk[n + 1]].step.stepId == events[walk[n]].step.parentStepId
  }

  // From every step, following parents leads back to a root, through ever earlier steps.
  lemma {:induction false} WalksToRoot(events: seq<AuditEvent>, i: nat) returns (walk: seq<nat>)
    requires ParentsEarlier(events) && i < |events|
    ensures IsWalk(events, walk) && walk[0] == i && events[walk[|walk| - 1]].step.parentStepId == ""
    decreases i
  {
    if events[i].step.parentStepId == "" {
      walk := [i];
    } else {
      var j: nat :| j < i && events[j].step.stepId == events[i].step.parentStepId;
      var rest := WalksToRoot(events, j);
      walk := [i] + rest;
      forall n | 0 <= n < |walk| - 1
        ensures walk[n + 1] < walk[n] && events[walk[n]].step.parentStepId != ""
             && events[walk[n + 1]].step.stepId == events[walk[n]].step.parentStepId
      {
        if n > 0 {
          assert walk[n] == rest[n - 1] && walk[n + 1] == rest[n];
        }
      }
    }
  }

  // A bucket holds exactly the steps of its parent, each as often and in the order it was recorded.
  lemma {:induction false} BucketMembers(events: seq<AuditEvent>, parent: string, e: AuditEvent)
    ensures multiset(Children(events, parent))[e]
         == if e.step.stepId != "" && e.step.parentStepId == parent then multiset(events)[e] else 0
  {
    if events != [] {
      var init := events[..|events| - 1];
      BucketMembers(init, parent, e);
      assert events == init + [events[|events| - 1]];
    }
  }

  // Appending a step keeps the forest when its parent is empty or already there.
  lemma ParentsEarlierMore(events: seq<AuditEvent>, e: AuditEvent)
    requires ParentsEarlier(events)
    requires e.step.parentStepId == "" || exists j :: 0 <= j < |events| && events[j].step.stepId == e.step.parentStepId
    ensures ParentsEarlier(events + [e])
  {
    var all := events + [e];
    forall i | 0 <= i < |all| && all[i].step.parentStepId != ""
      ensures exists j :: 0 <= j < i && all[j].step.stepId == all[i].step.parentStepId
    {
      if i < |events| {
        var j :| 0 <= j < i && events[j].step.stepId == events[i].step.parentStepId;
        assert all[j].step.stepId == all[i].step.parentStepId;
      } else {
        var j :| 0 <= j < |events| && events[j].step.stepId == e.step.parentStepId;
        assert all[j].step.stepId == all[i].step.parentStepId;
      }
    }
  }
}
