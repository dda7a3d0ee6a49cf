/** What the canonical text looks like: the order of the keys and the form of the escapes. With its size and the
    value it parses to, this leaves the printer no choice. */
module CanonicalForm {
  import opened AuthorityBytes
  import opened Json
  import opened JsonText
  import opened StringOrder

  /** What the printer puts in front of the members from the next position on. */
  lemma OneMember(value: Json, keys: seq<string>, from: nat, rest: string) returns (front: string)
    requires HasMembers(value, keys) && from + 1 < |keys|
    ensures MembersOnto(value, keys, from, rest) == front + MembersOnto(value, keys, from + 1, rest)
  {
    var key, next := keys[from], MembersOnto(value, keys, from + 1, rest);
    var member := value.members[key];
    var printed := PrintOnto(member, ",");
    PrintAppend(member, ",", next);
    assert [','] + next == "," + next;
    front := StringOnto(key, [':'] + printed);
    StringAppend(key, [':'] + printed, next);
    assert [':'] + (printed + next) == [':'] + printed + next;
    hide PrintOnto, StringOnto, HasMembers;
  }

  lemma {:induction false} LaterMembers(value: Json, keys: seq<string>, from: nat, to: nat, rest: string)
    returns (front: string)
    requires HasMembers(value, keys) && from <= to < |keys|
    ensures MembersOnto(value, keys, from, rest) == front + MembersOnto(value, keys, to, rest)
    decreases |keys| - from
  {
    hide MembersOnto, HasMembers;
    if from == to {
      front := "";
      Nothing(MembersOnto(value, keys, to, rest));
      return;
    }
    var one := OneMember(value, keys, from, rest);
    var more := LaterMembers(value, keys, from + 1, to, rest);
    front := one + more;
    Regroup(one, more, MembersOnto(value, keys, to, rest));
  }

  /** The text of a member in front of what follows it. */
  function MemberOnto(value: Json, key: string, rest: string): string
    requires value.JObject? && key in value.members
  {
    StringOnto(key, [':'] + PrintOnto(value.members[key], rest))
  }

  lemma MemberHere(value: Json, keys: seq<string>, from: nat, rest: string) returns (after: string)
    requires HasMembers(value, keys) && from < |keys|
    ensures MembersOnto(value, keys, from, rest) == MemberOnto(value, keys[from], after)
    ensures from + 1 < |keys| ==> after == [','] + MembersOnto(value, keys, from + 1, rest)
  {
    after := if from + 1 == |keys| then ['}'] + rest else [','] + MembersOnto(value, keys, from + 1, rest);
    hide PrintOnto, StringOnto;
  }

  lemma MembersInOrder(value: Json, keys: seq<string>, i: nat, j: nat)
    returns (front: string, middle: string, after: string)
    requires HasMembers(value, keys) && i < j < |keys|
    ensures keys[i] in value.members && keys[j] in value.members
    ensures MembersOnto(value, keys, 0, "")
      == front + MemberOnto(value, keys[i], middle + MemberOnto(value, keys[j], after))
  {
    hide MembersOnto, MemberOnto;
    front := LaterMembers(value, keys, 0, i, "");
    var behind := MemberHere(value, keys, i, "");
    var between := LaterMembers(value, keys, i + 1, j, "");
    after := MemberHere(value, keys, j, "");
    middle := [','] + between;
    Regroup([','], between, MembersOnto(value, keys, j, ""));
  }

  lemma Nothing(text: string)
    ensures text == "" + text
  {
  }

  lemma Regroup(a: string, b: string, c: string)
    ensures a + (b + c) == (a + b) + c
  {
  }

  lemma ObjectPrinted(value: Json)
    requires value.JObject? && value.members != map[]
    ensures HasMembers(value, SortedKeys(value.members.Keys))
    ensures PrintOnto(value, "") == ['{'] + MembersOnto(value, SortedKeys(value.members.Keys), 0, "")
  {
    SortedKeysSorted(value.members.Keys);
    hide SortedKeys, KeyLeq, MembersOnto;
  }

  /** Of two members the one whose key precedes is printed first. */
  lemma KeysPrintedInOrder(value: Json, a: string, b: string)
    returns (front: string, middle: string, after: string)
    requires value.JObject? && a in value.members && b in value.members && a != b && Precedes(a, b)
    ensures PrintOnto(value, "") == front + MemberOnto(value, a, middle + MemberOnto(value, b, after))
  {
    var keys := SortedKeys(value.members.Keys);
    ObjectPrinted(value);
    var i, j := OrderedPositions(value.members.Keys, a, b);
    hide SortedKeys, MembersOnto, MemberOnto, PrintOnto, HasMembers, Precedes;
    front, middle, after := MembersInOrder(value, keys, i, j);
    Regroup(['{'], front, MemberOnto(value, a, middle + MemberOnto(value, b, after)));
    front := ['{'] + front;
  }
}
