/** The order of Python strings and of the stores' string keys: lexicographic by code point. */
module Lex {

  predicate Less(a: string, b: string)
  {
    b != "" && (a == "" || a[0] < b[0] || (a[0] == b[0] && Less(a[1..], b[1..])))
  }

  lemma {:induction false} Irreflexive(a: string)
    ensures !Less(a, a)
  {
    if a != "" {
      Irreflexive(a[1..]);
    }
  }

  lemma {:induction false} Transitive(a: string, b: string, c: string)
    requires Less(a, b) && Less(b, c)
    ensures Less(a, c)
  {
    if a != "" && a[0] == b[0] == c[0] {
      Transitive(a[1..], b[1..], c[1..]);
    }
  }

  lemma {:induction false} Total(a: string, b: string)
    ensures Less(a, b) || a == b || Less(b, a)
  {
    if a != "" && b != "" && a[0] == b[0] {
      Total(a[1..], b[1..]);
      assert a == [a[0]] + a[1..] && b == [b[0]] + b[1..];
    }
  }

  // Texts of equal width compare before whatever follows them.
  lemma {:induction false} FixedWidth(a: string, b: string, c: string, d: string)
    requires |a| == |c|
    ensures Less(a + b, c + d) <==> Less(a, c) || (a == c && Less(b, d))
  {
    if a == "" {
      assert a + b == b && c + d == d;
    } else {
      assert (a + b)[1..] == a[1..] + b && (c + d)[1..] == c[1..] + d;
      FixedWidth(a[1..], b, c[1..], d);
      if a[0] == c[0] {
        assert a == [a[0]] + a[1..] && c == [c[0]] + c[1..];
      }
    }
  }

  // ---- sorted(set) -------------------------------------------------------

  ghost predicate Ascending(keys: seq<string>)
  {
    forall i, j :: 0 <= i < j < |keys| ==> Less(keys[i], keys[j])
  }

  predicate IsLeast(k: string, keys: set<string>)
  {
    k in keys && forall x :: x in keys && x != k ==> Less(k, x)
  }

  lemma {:induction false} LeastExists(keys: set<string>)
    requires keys != {}
    ensures exists k :: IsLeast(k, keys)
  {
    var x :| x in keys;
    if keys == {x} {
      assert IsLeast(x, keys);
    } else {
      var rest := keys - {x};
      assert keys == rest + {x};
      LeastExists(rest);
      var k :| IsLeast(k, rest);
      Total(k, x);
      if Less(x, k) {
        forall y | y in keys && y != x ensures Less(x, y) {
          if y != k {
            Transitive(x, k, y);
          }
        }
        assert IsLeast(x, keys);
      } else {
        assert IsLeast(k, keys);
      }
    }
  }

  lemma LeastUnique(keys: set<string>, a: string, b: string)
    requires IsLeast(a, keys) && IsLeast(b, keys)
    ensures a == b
  {
    if a != b {
      Transitive(a, b, a);
      Irreflexive(a);
    }
  }

  function Sorted(keys: set<string>): (r: seq<string>)
    ensures Ascending(r)
    ensures forall k :: k in r <==> k in keys
    ensures |r| == |keys|
  {
    if keys == {} then []
    else
      LeastExists(keys);
      assert forall a, b :: IsLeast(a, keys) && IsLeast(b, keys) ==> a == b by {
        forall a, b | IsLeast(a, keys) && IsLeast(b, keys) ensures a == b {
          LeastUnique(keys, a, b);
        }
      }
      var k :| k in keys && IsLeast(k, keys);
      [k] + Sorted(keys - {k})
  }

  lemma {:induction false} AscendingUnique(a: seq<string>, b: seq<string>)
    requires Ascending(a) && Ascending(b)
    requires forall k :: k in a <==> k in b
    ensures a == b
  {
    if a == [] {
      assert forall i :: 0 <= i < |b| ==> b[i] in b;
    } else {
      assert a[0] in b && b != [];
      assert b[0] in a;
      if a[0] != b[0] {
        var i :| 0 <= i < |b| && b[i] == a[0];
        var j :| 0 <= j < |a| && a[j] == b[0];
        Transitive(a[0], b[0], a[0]);
        Irreflexive(a[0]);
      }
      forall k ensures k in a[1..] <==> k in b[1..] {
        TailMember(a, k);
        TailMember(b, k);
      }
      AscendingUnique(a[1..], b[1..]);
    }
  }

  lemma TailMember(a: seq<string>, k: string)
    requires a != [] && Ascending(a)
    ensures k in a[1..] <==> k in a && k != a[0]
  {
    Irreflexive(a[0]);
    if k in a[1..] {
      var i :| 0 <= i < |a[1..]| && a[1..][i] == k;
      assert Less(a[0], a[i + 1]);
    }
  }

  // The ascending list of a set is one list.
  lemma OneSorting(keys: set<string>, s: seq<string>)
    ensures s == Sorted(keys) <==> Ascending(s) && forall k :: k in s <==> k in keys
  {
    hide Ascending;
    if Ascending(s) && forall k :: k in s <==> k in keys {
      AscendingUnique(s, Sorted(keys));
    }
  }

  // Keys listed in ascending order one step at a time are ascending throughout.
  lemma {:induction false} AdjacentAscending(keys: seq<string>)
    requires forall i :: 0 <= i < |keys| - 1 ==> Less(keys[i], keys[i + 1])
    ensures Ascending(keys)
  {
    forall i, j | 0 <= i < j < |keys| ensures Less(keys[i], keys[j]) {
      StepUp(keys, i, j);
    }
  }

  lemma {:induction false} StepUp(keys: seq<string>, i: nat, j: nat)
    requires forall k :: 0 <= k < |keys| - 1 ==> Less(keys[k], keys[k + 1])
    requires i < j < |keys|
    ensures Less(keys[i], keys[j])
  {
    if i + 1 < j {
      StepUp(keys, i, j - 1);
      assert Less(keys[j - 1], keys[j - 1 + 1]);
      Transitive(keys[i], keys[j - 1], keys[j]);
    }
  }

  lemma AscendingDistinct(keys: seq<string>, i: nat, j: nat)
    requires Ascending(keys) && i < |keys| && j < |keys| && keys[i] == keys[j]
    ensures i == j
  {
    Irreflexive(keys[i]);
  }

  // ---- sorted(list) ------------------------------------------------------

  function Insert(x: string, s: seq<string>): seq<string>
  {
    if s == [] then [x] else if Less(s[0], x) then [s[0]] + Insert(x, s[1..]) else [x] + s
  }

  function SortList(s: seq<string>): seq<string>
  {
    if s == [] then [] else Insert(s[0], SortList(s[1..]))
  }

  lemma {:induction false} InsertKeepsElements(x: string, s: seq<string>)
    ensures multiset(Insert(x, s)) == multiset{x} + multiset(s)
  {
    if s != [] && Less(s[0], x) {
      InsertKeepsElements(x, s[1..]);
      assert s == [s[0]] + s[1..];
    }
  }

  lemma {:induction false} SortKeepsElements(s: seq<string>)
    ensures multiset(SortList(s)) == multiset(s)
  {
    if s != [] {
      SortKeepsElements(s[1..]);
      InsertKeepsElements(s[0], SortList(s[1..]));
      assert s == [s[0]] + s[1..];
    }
  }

  lemma {:induction false} InsertAscends(x: string, s: seq<string>)
    requires NeverDescends(s)
    ensures NeverDescends(Insert(x, s))
  {
    hide Less;
    var r := Insert(x, s);
    if s != [] && Less(s[0], x) {
      assert forall i :: 0 <= i < |s[1..]| ==> s[1..][i] == s[i + 1];
      InsertAscends(x, s[1..]);
      InsertKeepsElements(x, s[1..]);
      forall j | 0 < j < |r| ensures !Less(r[j], s[0]) {
        assert r[j] in multiset(Insert(x, s[1..]));
        assert r[j] in multiset{x} + multiset(s[1..]);
        NotBelowBoth(s, x, r[j]);
      }
    } else {
      forall j | 0 < j < |r| ensures !Less(r[j], x) {
        assert r[j] == s[j - 1];
        if Less(s[j - 1], x) {
          FirstIsLeast(s, x, j - 1);
        }
      }
    }
  }

  // Nothing listed sorts before what is listed earlier.
  ghost predicate NeverDescends(s: seq<string>)
  {
    forall i, j :: 0 <= i < j < |s| ==> !Less(s[j], s[i])
  }

  lemma NotBelowBoth(s: seq<string>, x: string, y: string)
    requires NeverDescends(s) && s != [] && Less(s[0], x) && (y == x || y in multiset(s[1..]))
    ensures !Less(y, s[0])
  {
    hide Less;
    if y == x {
      if Less(x, s[0]) {
        Transitive(s[0], x, s[0]);
        Irreflexive(s[0]);
      }
    } else {
      var k :| 0 <= k < |s[1..]| && s[1..][k] == y;
      assert s[k + 1] == y;
    }
  }

  lemma FirstIsLeast(s: seq<string>, x: string, k: nat)
    requires NeverDescends(s) && k < |s| && Less(s[k], x)
    ensures Less(s[0], x)
  {
    hide Less;
    Total(s[0], s[k]);
    if s[0] != s[k] && k > 0 {
      Transitive(s[0], s[k], x);
    }
  }

  // A sorted list is in order, and holds each element as often as before.
  lemma {:induction false} SortListSorts(s: seq<string>)
    ensures NeverDescends(SortList(s)) && multiset(SortList(s)) == multiset(s)
  {
    hide Less;
    SortKeepsElements(s);
    if s != [] {
      SortListSorts(s[1..]);
      InsertAscends(s[0], SortList(s[1..]));
    }
  }

  // Text order is decided where two texts first differ, or by one being the beginning of the other.
  lemma {:induction false} LessIs(a: string, b: string)
    ensures Less(a, b) <==> exists k :: 0 <= k <= |a| && k < |b| && a[..k] == b[..k] && (k == |a| || a[k] < b[k])
  {
    if a == "" {
      if b != "" {
        assert a[..0] == b[..0];
      }
    } else if b != "" {
      LessIs(a[1..], b[1..]);
      if Less(a, b) {
        if a[0] == b[0] {
          var k :| 0 <= k <= |a[1..]| && k < |b[1..]| && a[1..][..k] == b[1..][..k] && (k == |a[1..]| || a[1..][k] < b[1..][k]);
          assert a[..k + 1] == [a[0]] + a[1..][..k] && b[..k + 1] == [b[0]] + b[1..][..k];
        } else {
          assert a[..0] == b[..0];
        }
      }
      if k :| 0 <= k <= |a| && k < |b| && a[..k] == b[..k] && (k == |a| || a[k] < b[k]) {
        if k > 0 {
          assert a[..k][0] == b[..k][0];
          assert a[1..][..k - 1] == a[..k][1..] && b[1..][..k - 1] == b[..k][1..];
        }
      }
    }
  }
}
