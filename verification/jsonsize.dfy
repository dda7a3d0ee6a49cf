/** How long a value's text must be, and that the canonical text is no longer. */
module JsonSize {
  import opened Json
  import opened JsonNumbers
  import opened JsonRoundTrip
  import opened JsonText
  import opened Options
  import opened StringOrder

  // The size of a value: its tokens and the punctuation between them.

  function DigitCount(n: nat): nat {
    if n < 10 then 1 else DigitCount(n / 10) + 1
  }

  function CharSize(c: char): nat {
    if c in {'"', '\\', '\U{0008}', '\U{000C}', '\n', '\r', '\t'} then 2 else if c < '\U{0020}' then 6 else 1
  }

  function TextSize(s: string): nat {
    if s == "" then 0 else TextSize(s[..|s| - 1]) + CharSize(s[|s| - 1])
  }

  function StringSize(s: string): nat {
    TextSize(s) + 2
  }

  /** `least` bounds the length of the tokens that denote a float. */
  ghost function Size(value: Json, least: Float -> nat): nat
    decreases value, 1, 0
  {
    match value
    case JNull => 4
    case JBool(b) => if b then 4 else 5
    case JInt(n) => if n < 0 then 1 + DigitCount(-n) else DigitCount(n)
    case JFloat(repr) => least(repr)
    case JString(s) => StringSize(s)
    case JArray(items) => if items == [] then 2 else 1 + ItemSizes(value, 0, least)
    case JObject(members) => if members == map[] then 2 else 1 + MemberSizes(value, members.Keys, least)
  }

  /** Every item and the one character behind it. */
  ghost function ItemSizes(value: Json, from: nat, least: Float -> nat): nat
    requires value.JArray? && from <= |value.items|
    decreases value, 0, |value.items| - from
  {
    if from == |value.items| then 0 else Size(value.items[from], least) + 1 + ItemSizes(value, from + 1, least)
  }

  /** Every key, its colon, its value and the one character behind it. */
  ghost function MemberSizes(value: Json, keys: set<string>, least: Float -> nat): nat
    requires value.JObject? && keys <= value.members.Keys
    decreases value, 0, |keys|
  {
    if keys == {} then 0
    else
      var key :| key in keys;
      MemberSizes(value, keys - {key}, least) + StringSize(key) + 1 + Size(value.members[key], least) + 1
  }

  lemma {:induction false} MemberSizesRemove(value: Json, keys: set<string>, key: string, least: Float -> nat)
    requires value.JObject? && key in keys && keys <= value.members.Keys
    ensures MemberSizes(value, keys, least)
      == MemberSizes(value, keys - {key}, least) + StringSize(key) + 1 + Size(value.members[key], least) + 1
    decreases |keys|
  {
    hide Size, StringSize;
    var first :| first in keys
      && MemberSizes(value, keys, least)
         == MemberSizes(value, keys - {first}, least) + StringSize(first) + 1 + Size(value.members[first], least) + 1;
    if first != key {
      MemberSizesRemove(value, keys - {first}, key, least);
      MemberSizesRemove(value, keys - {key}, first, least);
      assert keys - {first} - {key} == keys - {key} - {first};
    }
  }

  function TokenLength(repr: Float): nat {
    |repr|
  }

  // The printed text has exactly that size.

  lemma {:induction false} DigitsSize(n: nat, rest: string)
    ensures |DigitsOnto(n, rest)| == DigitCount(n) + |rest|
    decreases n
  {
    if n >= 10 {
      DigitsSize(n / 10, [DigitChar(n % 10)] + rest);
    }
  }

  lemma CharPrinted(c: char, rest: string)
    ensures |CharOnto(c, rest)| == CharSize(c) + |rest|
  {
  }

  lemma {:induction false} TextSizeFront(s: string)
    requires s != ""
    ensures TextSize(s) == CharSize(s[0]) + TextSize(s[1..])
  {
    var init, last := s[..|s| - 1], s[|s| - 1];
    if |s| > 1 {
      TextSizeFront(init);
      assert init[1..] == s[1..][..|s| - 2];
    } else {
      assert s[1..] == "" && init == "";
    }
  }

  lemma {:induction false} CharsSize(s: string, from: nat, rest: string)
    requires from <= |s|
    ensures |CharsOnto(s, from, rest)| == TextSize(s[from..]) + 1 + |rest|
    decreases |s| - from
  {
    hide CharSize, CharOnto;
    if from < |s| {
      CharsSize(s, from + 1, rest);
      CharPrinted(s[from], CharsOnto(s, from + 1, rest));
      TextSizeFront(s[from..]);
      assert s[from..][1..] == s[from + 1..];
    }
  }

  lemma StringPrinted(s: string, rest: string)
    ensures |StringOnto(s, rest)| == StringSize(s) + |rest|
  {
    CharsSize(s, 0, rest);
    assert s[0..] == s;
    hide CharsOnto, TextSize;
  }

  lemma {:induction false} PrintSize(value: Json, rest: string)
    ensures |PrintOnto(value, rest)| == Size(value, TokenLength) + |rest|
    decreases value, 1, 0
  {
    hide DigitsOnto, StringOnto, ItemsOnto, MembersOnto, SortedKeys, KeyLeq, StringSize, DigitCount, FloatText;
    match value
    case JInt(n) => DigitsSize(if n < 0 then -n else n, rest);
    case JString(s) => StringPrinted(s, rest);
    case JArray(items) =>
      if items != [] {
        ItemsSize(value, 0, rest);
      }
    case JObject(members) =>
      if members != map[] {
        SortedKeysSorted(members.Keys);
        var keys := SortedKeys(members.Keys);
        assert keys[0..] == keys && KeysFrom(keys, 0) == members.Keys;
        MembersSize(value, keys, 0, rest);
      }
    case _ =>
  }

  lemma {:induction false} ItemsSize(value: Json, from: nat, rest: string)
    requires value.JArray? && from < |value.items|
    ensures |ItemsOnto(value, from, rest)| == ItemSizes(value, from, TokenLength) + |rest|
    decreases value, 0, |value.items| - from
  {
    hide PrintOnto, Size;
    if from + 1 == |value.items| {
      PrintSize(value.items[from], [']'] + rest);
    } else {
      ItemsSize(value, from + 1, rest);
      PrintSize(value.items[from], [','] + ItemsOnto(value, from + 1, rest));
    }
  }

  function KeysFrom(keys: seq<string>, from: nat): set<string>
    requires from <= |keys|
  {
    set key | key in keys[from..]
  }

  lemma {:induction false} MembersSize(value: Json, keys: seq<string>, from: nat, rest: string)
    requires HasMembers(value, keys) && from < |keys| && Differ(keys)
    ensures KeysFrom(keys, from) <= value.members.Keys
    ensures |MembersOnto(value, keys, from, rest)|
      == MemberSizes(value, KeysFrom(keys, from), TokenLength) + |rest|
    decreases value, 0, |keys| - from
  {
    hide PrintOnto, Size, StringOnto, StringSize;
    var key, left := keys[from], KeysFrom(keys, from);
    assert left - {key} == KeysFrom(keys, from + 1);
    MemberSizesRemove(value, left, key, TokenLength);
    if from + 1 == |keys| {
      assert left - {key} == {};
      PrintSize(value.members[key], ['}'] + rest);
      StringPrinted(key, [':'] + PrintOnto(value.members[key], ['}'] + rest));
    } else {
      MembersSize(value, keys, from + 1, rest);
      var after := [','] + MembersOnto(value, keys, from + 1, rest);
      PrintSize(value.members[key], after);
      StringPrinted(key, [':'] + PrintOnto(value.members[key], after));
    }
  }

  // No text that parses to the value is shorter.

  /** No token that the reader takes for a float is shorter than the bound says. */
  ghost predicate Bounds(floats: FloatReader, least: Float -> nat) {
    forall token :: floats(token).Some? ==> least(floats(token).value) <= |token|
  }

  lemma {:induction false} DigitsRead(s: string, read: nat)
    requires read > 0
    ensures DigitCount(ParseDigits(s, read).0) == DigitCount(read) + |s| - |ParseDigits(s, read).1|
    decreases |s|
  {
    if s != "" && IsDigit(s[0]) {
      var more := 10 * read + (s[0] as int - '0' as int);
      assert more / 10 == read;
      DigitsRead(s[1..], more);
    }
  }

  lemma NaturalRead(s: string)
    requires ParseNatural(s).Some?
    ensures DigitCount(ParseNatural(s).value.0) <= |s| - |ParseNatural(s).value.1|
  {
    if s[0] != '0' {
      DigitsRead(s[1..], s[0] as int - '0' as int);
    }
  }

  lemma NumberRead(floats: FloatReader, least: Float -> nat, s: string)
    requires Bounds(floats, least) && ParseNumber(floats, s).Some?
    ensures var (value, after) := ParseNumber(floats, s).value;
      Size(value, least) + |after| <= |s|
  {
    NaturalRead(s[SignLength(s)..]);
    hide ParseNatural, TailLength, DigitCount, FloatText;
  }

  lemma EscapeRead(s: string)
    requires ParseEscape(s).Some?
    ensures CharSize(ParseEscape(s).value.0) <= 1 + |s| - |ParseEscape(s).value.1|
  {
    hide HexValue;
  }

  lemma {:induction false} CharsRead(s: string, read: string)
    requires ParseChars(s, read).Some?
    ensures var (text, after) := ParseChars(s, read).value;
      && |read| <= |text| && text[..|read|] == read
      && TextSize(text[|read|..]) + 1 + |after| <= |s|
    decreases |s|
  {
    hide ParseEscape, TextSize, CharSize;
    if s[0] == '"' {
      NothingToRead();
      assert read[..|read|] == read && read[|read|..] == "";
    } else if s[0] == '\\' {
      var (c, rest) := ParseEscape(s[1..]).value;
      EscapeRead(s[1..]);
      CharsRead(rest, read + [c]);
      OneMoreChar(ParseChars(s, read).value.0, read, c);
    } else {
      PlainChar(s[0]);
      CharsRead(s[1..], read + [s[0]]);
      OneMoreChar(ParseChars(s, read).value.0, read, s[0]);
    }
  }

  lemma NothingToRead()
    ensures TextSize("") == 0
  {
  }

  lemma PlainChar(c: char)
    requires c >= ' ' && c != '"' && c != '\\'
    ensures CharSize(c) == 1
  {
  }

  lemma OneMoreChar(text: string, read: string, c: char)
    requires |read| < |text| && text[..|read| + 1] == read + [c]
    ensures text[..|read|] == read
    ensures TextSize(text[|read|..]) == CharSize(c) + TextSize(text[|read| + 1..])
  {
    assert text[..|read|] == text[..|read| + 1][..|read|];
    assert text[|read|] == text[..|read| + 1][|read|] == c;
    TextSizeFront(text[|read|..]);
    assert text[|read|..][1..] == text[|read| + 1..];
    hide TextSize, CharSize;
  }

  lemma StringRead(s: string)
    requires s != "" && AsString(ParseChars(s[1..], "")).Some?
    ensures var (value, after) := AsString(ParseChars(s[1..], "")).value;
      value.JString? && StringSize(value.s) + |after| <= |s|
  {
    CharsRead(s[1..], "");
    var text := ParseChars(s[1..], "").value.0;
    assert text[0..] == text;
    hide TextSize, ParseChars;
  }

  lemma {:induction false} ValueRead(floats: FloatReader, least: Float -> nat, s: string)
    requires Bounds(floats, least) && ParseValue(floats, s).Some?
    ensures var (value, after) := ParseValue(floats, s).value;
      Size(value, least) + |after| <= |s|
    decreases |s|, 0
  {
    hide ParseValue, ParseItems, ParseMembers, ParseNumber, ParseChars, SkipBlanks, Bounds, StringSize;
    ValueOpens(floats, s);
    ContainerOpens(floats, s);
    SomethingThere(floats, s);
    if s[0] == '{' {
      var inner := SkipBlanks(s[1..]);
      if !StartsWith(inner, '}') {
        MembersRead(floats, least, inner, map[]);
        var members := ParseValue(floats, s).value.0.members;
        var read: map<string, Json> := map[];
        assert members.Keys - read.Keys == members.Keys;
      }
    } else if s[0] == '[' {
      var inner := SkipBlanks(s[1..]);
      if !StartsWith(inner, ']') {
        ItemsRead(floats, least, inner, []);
      }
    } else if s[0] == '"' {
      StringRead(s);
    } else if s[0] !in {'n', 't', 'f'} {
      NumberRead(floats, least, s);
      hide Size;
    }
  }

  lemma SomethingThere(floats: FloatReader, s: string)
    requires ParseValue(floats, s).Some?
    ensures s != ""
  {
  }

  /** The items read so far are the first ones, and the rest took at least its size. */
  lemma {:induction false} ItemsRead(floats: FloatReader, least: Float -> nat, s: string, read: seq<Json>)
    requires Bounds(floats, least) && ParseItems(floats, s, read).Some?
    ensures var (value, after) := ParseItems(floats, s, read).value;
      && value.JArray? && |read| < |value.items| && value.items[..|read|] == read
      && ItemSizes(value, |read|, least) + |after| <= |s|
    decreases |s|, 1
  {
    hide ParseValue, SkipBlanks, Bounds, Size;
    var (item, rest) := ParseValue(floats, s).value;
    ValueRead(floats, least, s);
    var after, items := SkipBlanks(rest), read + [item];
    var value := ParseItems(floats, s, read).value.0;
    if StartsWith(after, ',') {
      ItemsRead(floats, least, SkipBlanks(after[1..]), items);
      assert value.items[..|read|] == value.items[..|items|][..|read|];
      assert value.items[|read|] == value.items[..|items|][|read|];
    } else {
      assert value == JArray(items) && ItemSizes(value, |items|, least) == 0;
    }
  }

  /** The members read so far are among the members, and the others took at least their size. */
  lemma {:induction false} MembersRead(
    floats: FloatReader, least: Float -> nat, s: string, read: map<string, Json>)
    requires Bounds(floats, least) && ParseMembers(floats, s, read).Some?
    ensures var (value, after) := ParseMembers(floats, s, read).value;
      && value.JObject? && read.Keys < value.members.Keys
      && (forall key :: key in read ==> value.members[key] == read[key])
      && MemberSizes(value, value.members.Keys - read.Keys, least) + |after| <= |s|
    decreases |s|, 1
  {
    hide ParseValue, ParseChars, SkipBlanks, Bounds, Size, StringSize;
    var (key, colon) := ParseChars(s[1..], "").value;
    StringRead(s);
    var text := SkipBlanks(SkipBlanks(colon)[1..]);
    var (member, rest) := ParseValue(floats, text).value;
    ValueRead(floats, least, text);
    var after, members := SkipBlanks(rest), read[key := member];
    var value := ParseMembers(floats, s, read).value.0;
    if StartsWith(after, ',') {
      MembersRead(floats, least, SkipBlanks(after[1..]), members);
    } else {
      assert value == JObject(members);
    }
    var left := value.members.Keys - read.Keys;
    assert left - {key} == value.members.Keys - members.Keys;
    MemberSizesRemove(value, left, key, least);
  }

  /** No text that parses to the value is shorter than its size. */
  lemma ParsedSize(floats: FloatReader, least: Float -> nat, t: string, value: Json)
    requires Bounds(floats, least) && Parse(floats, t) == Some(value)
    ensures Size(value, least) <= |t|
  {
    hide ParseValue, Size, SkipBlanks;
    ValueRead(floats, least, SkipBlanks(t));
  }

  predicate FloatFree(value: Json) {
    match value
    case JFloat(_) => false
    case JArray(items) => forall i :: 0 <= i < |items| ==> FloatFree(items[i])
    case JObject(members) => forall key :: key in members ==> FloatFree(members[key])
    case _ => true
  }

  lemma {:induction false} FloatFreeSize(value: Json, a: Float -> nat, b: Float -> nat)
    requires FloatFree(value)
    ensures Size(value, a) == Size(value, b)
    decreases value, 1, 0
  {
    match value
    case JArray(items) => FloatFreeItems(value, 0, a, b);
    case JObject(members) => FloatFreeMembers(value, members.Keys, a, b);
    case _ =>
  }

  lemma {:induction false} FloatFreeItems(value: Json, from: nat, a: Float -> nat, b: Float -> nat)
    requires value.JArray? && from <= |value.items| && FloatFree(value)
    ensures ItemSizes(value, from, a) == ItemSizes(value, from, b)
    decreases value, 0, |value.items| - from
  {
    hide Size;
    if from < |value.items| {
      FloatFreeSize(value.items[from], a, b);
      FloatFreeItems(value, from + 1, a, b);
    }
  }

  lemma {:induction false} FloatFreeMembers(value: Json, keys: set<string>, a: Float -> nat, b: Float -> nat)
    requires value.JObject? && keys <= value.members.Keys && FloatFree(value)
    ensures MemberSizes(value, keys, a) == MemberSizes(value, keys, b)
    decreases value, 0, |keys|
  {
    hide Size, StringSize;
    if keys != {} {
      var key :| key in keys;
      FloatFreeSize(value.members[key], a, b);
      FloatFreeMembers(value, keys - {key}, a, b);
      MemberSizesRemove(value, keys, key, a);
      MemberSizesRemove(value, keys, key, b);
    }
  }

  /** Without floats no text that parses to the value is shorter than the printed one. With floats none is
      shorter than what remains of it when each float counts for no more than its shortest token. */
  lemma PrintedIsShortest(floats: FloatReader, least: Float -> nat, t: string, value: Json)
    requires Bounds(floats, least) && Parse(floats, t) == Some(value)
    ensures |PrintOnto(value, "")| == Size(value, TokenLength)
    ensures Size(value, least) <= |t|
    ensures FloatFree(value) ==> |PrintOnto(value, "")| <= |t|
  {
    PrintSize(value, "");
    ParsedSize(floats, least, t, value);
    hide PrintOnto, Size, Parse;
    if FloatFree(value) {
      FloatFreeSize(value, TokenLength, least);
    }
  }
}
