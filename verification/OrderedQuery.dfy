/** `ORDER BY … LIMIT n`, the one query shape both databases are asked for. */
module OrderedQuery {

  function Min(a: nat, b: nat): nat
  {
    if a < b then a else b
  }

  // Ids in ascending order of their key, the first `limit` of them. Ties come in any order.
  ghost predicate IsOrdered(keys: map<string, int>, limit: nat, ids: seq<string>)
  {
    && |ids| == Min(limit, |keys|)
    && (forall i :: 0 <= i < |ids| ==> ids[i] in keys)
    && (forall i, j :: 0 <= i < j < |ids| ==> ids[i] != ids[j] && keys[ids[i]] <= keys[ids[j]])
    && (forall k, i :: k in keys && k !in ids && 0 <= i < |ids| ==> keys[ids[i]] <= keys[k])
  }

  lemma OrderedAreKeys(keys: map<string, int>, limit: nat, ids: seq<string>)
    requires IsOrdered(keys, limit, ids)
    ensures forall i :: 0 <= i < |ids| ==> ids[i] in keys
  {
  }

  lemma {:induction false} LeastExists(keys: map<string, int>, ids: set<string>)
    requires ids != {} && ids <= keys.Keys
    ensures exists id :: id in ids && forall k :: k in ids ==> keys[id] <= keys[k]
  {
    var x :| x in ids;
    var rest := ids - {x};
    assert ids == rest + {x};
    if rest != {} {
      LeastExists(keys, rest);
      var y :| y in rest && forall k :: k in rest ==> keys[y] <= keys[k];
      var id := if keys[x] < keys[y] then x else y;
      assert forall k :: k in ids ==> keys[id] <= keys[k];
    } else {
      assert forall k :: k in ids ==> keys[x] <= keys[k];
    }
  }

  method OrderBy(keys: map<string, int>, limit: nat) returns (ids: seq<string>)
    ensures IsOrdered(keys, limit, ids)
  {
    ids := [];
    var remaining := keys.Keys;
    while |ids| < limit && remaining != {}
      invariant |ids| <= limit && |ids| + |remaining| == |keys|
      invariant remaining <= keys.Keys
      invariant forall k :: k in keys <==> k in ids || k in remaining
      invariant forall i :: 0 <= i < |ids| ==> ids[i] in keys && ids[i] !in remaining
      invariant forall i, j :: 0 <= i < j < |ids| ==> ids[i] != ids[j] && keys[ids[i]] <= keys[ids[j]]
      invariant forall k, i :: k in remaining && 0 <= i < |ids| ==> keys[ids[i]] <= keys[k]
      decreases limit - |ids|
    {
      LeastExists(keys, remaining);
      var id :| id in remaining && forall k :: k in remaining ==> keys[id] <= keys[k];
      ids := ids + [id];
      remaining := remaining - {id};
    }
  }
}
