/** JSON values and their measures. */
module Json {
  import opened JsonNumbers

  const MAX_SAFE_JSON_INTEGER := 9_007_199_254_740_991

  datatype Json =
    | JNull
    | JBool(b: bool)
    | JInt(n: int)
    | JFloat(repr: Float)
    | JString(s: string)
    | JArray(items: seq<Json>)
    | JObject(members: map<string, Json>)

  function Larger(a: nat, b: nat): (m: nat)
    ensures m == a || m == b
    ensures a <= m && b <= m
  {
    if a >= b then a else b
  }

  /** The number of values on the longest path from the root to a leaf. */
  ghost function Depth(value: Json): nat
    decreases value, 1, 0
  {
    match value
    case JArray(items) => 1 + DeepestItem(value, 0)
    case JObject(members) => 1 + DeepestMember(value, members.Keys)
    case _ => 1
  }

  ghost function DeepestItem(value: Json, from: nat): nat
    requires value.JArray? && from <= |value.items|
    decreases value, 0, |value.items| - from
  {
    if from == |value.items| then 0 else Larger(Depth(value.items[from]), DeepestItem(value, from + 1))
  }

  ghost function DeepestMember(value: Json, keys: set<string>): nat
    requires value.JObject? && keys <= value.members.Keys
    decreases value, 0, |keys|
  {
    if keys == {} then 0
    else
      var key :| key in keys;
      Larger(DeepestMember(value, keys - {key}), Depth(value.members[key]))
  }

  /** The number of values in the tree. */
  ghost function Nodes(value: Json): nat
    decreases value, 1, 0
  {
    match value
    case JArray(items) => 1 + ItemNodes(value, 0)
    case JObject(members) => 1 + MemberNodes(value, members.Keys)
    case _ => 1
  }

  ghost function ItemNodes(value: Json, from: nat): nat
    requires value.JArray? && from <= |value.items|
    decreases value, 0, |value.items| - from
  {
    if from == |value.items| then 0 else Nodes(value.items[from]) + ItemNodes(value, from + 1)
  }

  ghost function MemberNodes(value: Json, keys: set<string>): nat
    requires value.JObject? && keys <= value.members.Keys
    decreases value, 0, |keys|
  {
    if keys == {} then 0
    else
      var key :| key in keys;
      MemberNodes(value, keys - {key}) + Nodes(value.members[key])
  }

  lemma {:induction false} MemberNodesRemove(value: Json, keys: set<string>, key: string)
    requires value.JObject? && key in keys && keys <= value.members.Keys
    ensures MemberNodes(value, keys) == MemberNodes(value, keys - {key}) + Nodes(value.members[key])
    decreases |keys|
  {
    hide Nodes;
    var first :| first in keys
      && MemberNodes(value, keys) == MemberNodes(value, keys - {first}) + Nodes(value.members[first]);
    if first != key {
      MemberNodesRemove(value, keys - {first}, key);
      MemberNodesRemove(value, keys - {key}, first);
      assert keys - {first} - {key} == keys - {key} - {first};
    }
  }

  lemma {:induction false} DeepestItemBound(value: Json, from: nat, d: nat)
    requires value.JArray? && from <= |value.items|
    ensures DeepestItem(value, from) <= d <==>
      forall i :: from <= i < |value.items| ==> Depth(value.items[i]) <= d
    decreases |value.items| - from
  {
    hide Depth;
    if from < |value.items| {
      DeepestItemBound(value, from + 1, d);
    }
  }

  lemma {:induction false} DeepestMemberBound(value: Json, keys: set<string>, d: nat)
    requires value.JObject? && keys <= value.members.Keys
    ensures DeepestMember(value, keys) <= d <==> forall key :: key in keys ==> Depth(value.members[key]) <= d
    decreases |keys|
  {
    if keys != {} {
      var key :| key in keys
        && DeepestMember(value, keys) == Larger(DeepestMember(value, keys - {key}), Depth(value.members[key]));
      DeepestMemberBound(value, keys - {key}, d);
      var rest := keys - {key};
      assert keys == rest + {key};
      var a, b := DeepestMember(value, rest), Depth(value.members[key]);
      assert DeepestMember(value, keys) == Larger(a, b);
      assert Larger(a, b) <= d <==> a <= d && b <= d;
    }
  }
}
