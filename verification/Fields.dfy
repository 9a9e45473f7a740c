/** Reading the members of a parsed JSON object. */
module Fields {
  import opened Wrappers
  import opened Json
  import Lex

  function Texts(items: seq<string>): (r: seq<Json>)
    ensures |r| == |items|
  {
    seq(|items|, i requires 0 <= i < |items| => Str(items[i]))
  }

  function Keys(members: seq<Member>): (r: seq<string>)
    ensures |r| == |members|
  {
    seq(|members|, i requires 0 <= i < |members| => members[i].key)
  }

  // A dict lookup in a parsed object: the last of several equal keys wins.
  function Get(members: seq<Member>, key: string): Option<Json>
  {
    if members == [] then None
    else if members[|members| - 1].key == key then Some(members[|members| - 1].value)
    else Get(members[..|members| - 1], key)
  }

  lemma {:induction false} GetAt(members: seq<Member>, i: nat)
    requires i < |members| && Lex.Ascending(Keys(members))
    ensures Get(members, members[i].key) == Some(members[i].value)
  {
    var init := members[..|members| - 1];
    var k := Keys(members);
    if i == |members| - 1 {
    } else {
      assert Keys(init) == k[..|members| - 1];
      if k[i] == k[|members| - 1] {
        Lex.AscendingDistinct(k, i, |members| - 1);
      }
      GetAt(init, i);
      assert init[i] == members[i];
    }
  }

  function TextAt(members: seq<Member>, key: string): Option<string>
  {
    var v := Get(members, key);
    if v.Some? && v.value.Str? then Some(v.value.s) else None
  }

  function TextOr(members: seq<Member>, key: string, default: string): Option<string>
  {
    if Get(members, key).None? then Some(default) else TextAt(members, key)
  }

  function IntOr(members: seq<Member>, key: string, default: int): Option<int>
  {
    var v := Get(members, key);
    if v.None? then Some(default) else if v.value.Int? then Some(v.value.n) else None
  }

  function TextsAt(members: seq<Member>, key: string): Option<seq<string>>
  {
    var v := Get(members, key);
    if v.Some? && v.value.Arr? && (forall j :: j in v.value.items ==> j.Str?) then
      var items := v.value.items;
      Some(seq(|items|, i requires 0 <= i < |items| => items[i].s))
    else None
  }

  function TextsOr(members: seq<Member>, key: string): Option<seq<string>>
  {
    if Get(members, key).None? then Some([]) else TextsAt(members, key)
  }

  lemma TextsRoundTrip(items: seq<string>, members: seq<Member>, key: string)
    requires Get(members, key) == Some(Arr(Texts(items)))
    ensures TextsAt(members, key) == Some(items)
  {
    var v := Texts(items);
    assert forall i :: 0 <= i < |v| ==> v[i].Str? && v[i].s == items[i];
    assert forall j :: j in v ==> j.Str?;
    assert TextsAt(members, key).value == items;
  }
}
