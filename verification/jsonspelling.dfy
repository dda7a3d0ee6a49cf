/** The canonical text written out token by token, without an accumulator, and the printer's agreement with it. */
module JsonSpelling {
  import opened AuthorityBytes
  import opened Json
  import opened JsonText
  import opened StringOrder

  // Strings.

  /** Quote, backslash and five control characters have their own escapes, the other control characters are written
      with two lower-case hexadecimal digits, and everything else stands for itself. */
  function Escaped(c: char): string {
    match c as int
    case 0x22 => "\\\""
    case 0x5C => "\\\\"
    case 0x08 => "\\b"
    case 0x09 => "\\t"
    case 0x0A => "\\n"
    case 0x0C => "\\f"
    case 0x0D => "\\r"
    case code =>
      if code < 0x20 then "\\u00" + ["0123456789abcdef"[code / 16], "0123456789abcdef"[code % 16]] else [c]
  }

  function AllEscaped(s: string): string {
    if s == "" then "" else Escaped(s[0]) + AllEscaped(s[1..])
  }

  function Quoted(s: string): string {
    "\"" + AllEscaped(s) + "\""
  }

  lemma HexDigits(d: nat)
    requires d < 16
    ensures HexChar(d) == "0123456789abcdef"[d]
  {
  }

  lemma CharSpelled(c: char, rest: string)
    ensures CharOnto(c, rest) == Escaped(c) + rest
  {
    if c < ' ' {
      HexDigits(c as int / 16);
      HexDigits(c as int % 16);
    }
    hide HexChar;
  }

  lemma {:induction false} CharsSpelled(s: string, from: nat, rest: string)
    requires from <= |s|
    ensures CharsOnto(s, from, rest) == AllEscaped(s[from..]) + "\"" + rest
    decreases |s| - from
  {
    hide CharOnto, Escaped;
    if from < |s| {
      CharsSpelled(s, from + 1, rest);
      CharSpelled(s[from], CharsOnto(s, from + 1, rest));
      assert s[from..][1..] == s[from + 1..];
      Regroup(Escaped(s[from]), AllEscaped(s[from + 1..]), "\"" + rest);
      Regroup(AllEscaped(s[from + 1..]), "\"", rest);
      Regroup(AllEscaped(s[from..]), "\"", rest);
    } else {
      Regroup(AllEscaped(s[from..]), "\"", rest);
    }
  }

  lemma Regroup(a: string, b: string, c: string)
    ensures a + (b + c) == a + b + c
  {
  }

  lemma StringSpelled(s: string, rest: string)
    ensures StringOnto(s, rest) == Quoted(s) + rest
  {
    CharsSpelled(s, 0, rest);
    assert s[0..] == s;
    hide CharsOnto, AllEscaped;
    Regroup("\"", AllEscaped(s) + "\"", rest);
    Regroup("\"", AllEscaped(s), "\"");
  }

  // Numbers.

  function Decimal(n: nat): string {
    (if n < 10 then "" else Decimal(n / 10)) + ["0123456789"[n % 10]]
  }

  lemma DigitSpelled(d: nat)
    requires d < 10
    ensures DigitChar(d) == "0123456789"[d]
  {
  }

  lemma {:induction false} DigitsSpelled(n: nat, rest: string)
    ensures DigitsOnto(n, rest) == Decimal(n) + rest
    decreases n
  {
    DigitSpelled(n % 10);
    hide DigitChar;
    if n >= 10 {
      DigitsSpelled(n / 10, [DigitChar(n % 10)] + rest);
      Regroup(Decimal(n / 10), [DigitChar(n % 10)], rest);
    }
  }

  // Values.

  /** One line without a blank between tokens, members in ascending order of their keys. */
  function Text(value: Json): string
    decreases value, 1, 0
  {
    match value
    case JNull => "null"
    case JBool(b) => if b then "true" else "false"
    case JInt(n) => if n < 0 then "-" + Decimal(-n) else Decimal(n)
    case JFloat(repr) => repr
    case JString(s) => Quoted(s)
    case JArray(items) => if items == [] then "[]" else "[" + ItemsText(value, 0) + "]"
    case JObject(members) =>
      SortedKeysSorted(members.Keys);
      if members == map[] then "{}" else "{" + MembersText(value, SortedKeys(members.Keys), 0) + "}"
  }

  function ItemsText(value: Json, from: nat): string
    requires value.JArray? && from < |value.items|
    decreases value, 0, |value.items| - from
  {
    Text(value.items[from]) + if from + 1 == |value.items| then "" else "," + ItemsText(value, from + 1)
  }

  function MembersText(value: Json, keys: seq<string>, from: nat): string
    requires HasMembers(value, keys) && from < |keys|
    decreases value, 0, |keys| - from
  {
    Quoted(keys[from]) + ":" + Text(value.members[keys[from]])
    + if from + 1 == |keys| then "" else "," + MembersText(value, keys, from + 1)
  }

  /** The printer puts exactly this text in front of what follows. */
  lemma {:induction false} PrintSpelled(value: Json, rest: string)
    ensures PrintOnto(value, rest) == Text(value) + rest
    decreases value, 1, 0
  {
    hide DigitsOnto, StringOnto, ItemsOnto, MembersOnto, SortedKeys, KeyLeq, Decimal, Quoted, ItemsText, MembersText;
    match value
    case JInt(n) =>
      DigitsSpelled(if n < 0 then -n else n, rest);
      Regroup("-", Decimal(if n < 0 then -n else n), rest);
    case JString(s) => StringSpelled(s, rest);
    case JArray(items) =>
      if items != [] {
        ItemsSpelled(value, 0, rest);
        Bracketed("[", ItemsText(value, 0), "]", rest);
      }
    case JObject(members) =>
      if members != map[] {
        SortedKeysSorted(members.Keys);
        var keys := SortedKeys(members.Keys);
        MembersSpelled(value, keys, 0, rest);
        Bracketed("{", MembersText(value, keys, 0), "}", rest);
      }
    case _ =>
  }

  lemma Bracketed(open: string, inner: string, close: string, rest: string)
    ensures open + (inner + (close + rest)) == open + inner + close + rest
  {
  }

  lemma {:induction false} ItemsSpelled(value: Json, from: nat, rest: string)
    requires value.JArray? && from < |value.items|
    ensures ItemsOnto(value, from, rest) == ItemsText(value, from) + ("]" + rest)
    decreases value, 0, |value.items| - from
  {
    var item := value.items[from];
    hide PrintOnto, Text;
    if from + 1 == |value.items| {
      PrintSpelled(item, "]" + rest);
      assert Text(item) + "" == Text(item);
    } else {
      ItemsSpelled(value, from + 1, rest);
      PrintSpelled(item, "," + ItemsOnto(value, from + 1, rest));
      Bracketed(Text(item), ",", ItemsText(value, from + 1), "]" + rest);
      Regroup(Text(item), ",", ItemsText(value, from + 1));
    }
  }

  lemma {:induction false} MembersSpelled(value: Json, keys: seq<string>, from: nat, rest: string)
    requires HasMembers(value, keys) && from < |keys|
    ensures MembersOnto(value, keys, from, rest) == MembersText(value, keys, from) + ("}" + rest)
    decreases value, 0, |keys| - from
  {
    var key, member := keys[from], value.members[keys[from]];
    hide PrintOnto, Text, StringOnto, Quoted, HasMembers;
    var more := if from + 1 == |keys| then "" else "," + MembersText(value, keys, from + 1);
    var after := if from + 1 == |keys| then "}" + rest else "," + MembersOnto(value, keys, from + 1, rest);
    if from + 1 < |keys| {
      MembersSpelled(value, keys, from + 1, rest);
      Regroup(",", MembersText(value, keys, from + 1), "}" + rest);
    }
    assert after == more + ("}" + rest);
    PrintSpelled(member, after);
    StringSpelled(key, ":" + PrintOnto(member, after));
    MemberGrouped(Quoted(key), Text(member), more, "}" + rest);
  }

  lemma MemberGrouped(key: string, member: string, more: string, rest: string)
    ensures key + (":" + (member + (more + rest))) == key + ":" + member + more + rest
  {
  }

  /** The canonical text is this text and a line feed. */
  lemma CanonicalIsSpelled(value: Json)
    ensures CanonicalText(value) == Text(value) + "\n"
  {
    PrintSpelled(value, "\n");
    hide PrintOnto, Text;
  }
}
