/** Parsing undoes printing. */
module JsonRoundTrip {
  import opened Json
  import opened JsonNumbers
  import opened JsonText
  import opened Options
  import opened StringOrder

  /** What may follow a number without becoming part of it. */
  predicate Delimited(rest: string) {
    rest != "" && (rest[0] == ',' || rest[0] == ']' || rest[0] == '}' || rest[0] == '\n')
  }

  /** Every float of the value is one that the reader knows. */
  ghost predicate Finite(floats: FloatReader, value: Json) {
    match value
    case JFloat(repr) => floats(repr) == Some(repr)
    case JArray(items) => forall i :: 0 <= i < |items| ==> Finite(floats, items[i])
    case JObject(members) => forall key :: key in members ==> Finite(floats, members[key])
    case _ => true
  }

  // Numbers.

  lemma {:induction false} DigitsParsed(n: nat, rest: string)
    ensures ParseDigits(DigitsOnto(n, rest), 0) == ParseDigits(rest, n)
    decreases n
  {
    if n < 10 {
      assert ([DigitChar(n)] + rest)[1..] == rest;
    } else {
      DigitsParsed(n / 10, [DigitChar(n % 10)] + rest);
      assert ([DigitChar(n % 10)] + rest)[1..] == rest;
    }
  }

  lemma {:induction false} DigitsHead(n: nat, rest: string)
    ensures DigitsOnto(n, rest) != "" && IsDigit(DigitsOnto(n, rest)[0])
    ensures n > 0 ==> DigitsOnto(n, rest)[0] != '0'
    decreases n
  {
    if n >= 10 {
      DigitsHead(n / 10, [DigitChar(n % 10)] + rest);
    }
  }

  lemma NaturalParsed(n: nat, rest: string)
    requires Delimited(rest)
    ensures ParseNatural(DigitsOnto(n, rest)) == Some((n, rest))
  {
    var s := DigitsOnto(n, rest);
    DigitsHead(n, rest);
    if n == 0 {
      assert s[1..] == rest;
    } else {
      DigitsParsed(n, rest);
      assert ParseDigits(s, 0) == ParseDigits(s[1..], s[0] as int - '0' as int);
      assert ParseDigits(rest, n) == (n, rest);
    }
  }

  lemma PlainNumber(floats: FloatReader, s: string, n: nat, rest: string)
    requires ParseNatural(s[SignLength(s)..]) == Some((n, rest)) && TailLength(rest) == 0
    ensures ParseNumber(floats, s) == Some((JInt(if SignLength(s) == 1 then 0 - n else n), rest))
  {
    hide ParseNatural, TailLength, NaturalLength, SignLength, FloatText;
  }

  lemma IntParsed(floats: FloatReader, n: int, rest: string)
    requires Delimited(rest)
    ensures ParseNumber(floats, IntOnto(n, rest)) == Some((JInt(n), rest))
  {
    assert TailLength(rest) == 0;
    var digits := if n < 0 then -n else n;
    NaturalParsed(digits, rest);
    DigitsHead(digits, rest);
    hide ParseNatural, TailLength, DigitsOnto, ParseNumber;
    assert IntOnto(n, rest)[SignLength(IntOnto(n, rest))..] == DigitsOnto(digits, rest);
    PlainNumber(floats, IntOnto(n, rest), digits, rest);
  }

  lemma FloatParsed(floats: FloatReader, text: Float, rest: string)
    requires Delimited(rest) && floats(text) == Some(text)
    ensures ParseNumber(floats, text + rest) == Some((JFloat(text), rest))
  {
    hide ParseNatural, TailLength, NaturalLength, SignLength, FloatText;
    FloatStops(text, rest);
  }

  // Strings.

  lemma HexParsed(d: nat)
    requires d < 16
    ensures HexValue(HexChar(d)) == Some(d)
  {
  }

  lemma CharParsed(c: char, more: string, read: string)
    ensures ParseChars(CharOnto(c, more), read) == ParseChars(more, read + [c])
  {
    var s := CharOnto(c, more);
    if ShortEscape(c).Some? {
      assert s[1..] == [ShortEscape(c).value] + more;
      assert s[1..][1..] == more;
    } else if c < ' ' {
      var hi, lo := c as int / 16, c as int % 16;
      HexParsed(hi);
      HexParsed(lo);
      var escape := s[1..];
      assert escape == ['u', '0', '0', HexChar(hi), HexChar(lo)] + more;
      assert escape[1..][0] == '0' && escape[1..][1] == '0';
      assert escape[1..][2] == HexChar(hi) && escape[1..][3] == HexChar(lo);
      assert escape[5..] == more;
      assert ParseHex(escape[1..]) == Some(16 * hi + lo);
    } else {
      assert s[1..] == more;
    }
  }

  lemma {:induction false} CharsParsed(s: string, from: nat, rest: string, read: string)
    requires from <= |s|
    ensures ParseChars(CharsOnto(s, from, rest), read) == Some((read + s[from..], rest))
    decreases |s| - from
  {
    hide CharOnto;
    if from == |s| {
      assert (['"'] + rest)[1..] == rest && read + s[from..] == read;
    } else {
      CharParsed(s[from], CharsOnto(s, from + 1, rest), read);
      hide ParseChars;
      CharsParsed(s, from + 1, rest, read + [s[from]]);
      assert read + [s[from]] + s[from + 1..] == read + s[from..];
    }
  }

  lemma StringParsed(s: string, rest: string)
    ensures StringOnto(s, rest)[0] == '"'
    ensures ParseChars(StringOnto(s, rest)[1..], "") == Some((s, rest))
  {
    CharsParsed(s, 0, rest, "");
    assert StringOnto(s, rest)[1..] == CharsOnto(s, 0, rest);
    assert "" + s[0..] == s;
  }

  // Values.

  /** Every printed value starts with a character that is no blank and closes nothing. */
  lemma PrintHead(value: Json, rest: string)
    ensures PrintOnto(value, rest) != "" && !IsBlank(PrintOnto(value, rest)[0])
    ensures PrintOnto(value, rest)[0] != ']'
  {
    hide DigitsOnto, CharsOnto, ItemsOnto, MembersOnto, SortedKeys, FloatText, Differ, KeyLeq;
    match value
    case JInt(n) => DigitsHead(if n < 0 then -n else n, rest);
    case JFloat(repr) => FloatHead(repr);
    case _ =>
  }

  lemma WordParsed(word: string, value: Json, rest: string)
    requires word != ""
    ensures ParseWord(word + rest, word, value) == Some((value, rest))
  {
    assert (word + rest)[|word|..] == rest;
  }

  lemma ArrayOpens(floats: FloatReader, inner: string)
    requires inner != "" && !IsBlank(inner[0]) && inner[0] != ']'
    ensures ParseValue(floats, ['['] + inner) == ParseItems(floats, inner, [])
  {
    assert (['['] + inner)[1..] == inner;
    hide ParseItems;
  }

  lemma ObjectOpens(floats: FloatReader, inner: string)
    requires StartsWith(inner, '"')
    ensures ParseValue(floats, ['{'] + inner) == ParseMembers(floats, inner, map[])
  {
    assert (['{'] + inner)[1..] == inner;
    hide ParseMembers;
  }

  lemma EmptyContainers(floats: FloatReader, rest: string)
    ensures ParseValue(floats, ['[', ']'] + rest) == Some((JArray([]), rest))
    ensures ParseValue(floats, ['{', '}'] + rest) == Some((JObject(map[]), rest))
  {
    assert (['[', ']'] + rest)[1..] == [']'] + rest && ([']'] + rest)[1..] == rest;
    assert (['{', '}'] + rest)[1..] == ['}'] + rest && (['}'] + rest)[1..] == rest;
    hide ParseItems, ParseMembers;
  }

  lemma LeafParsed(floats: FloatReader, value: Json, rest: string)
    requires Delimited(rest) && !value.JArray? && !value.JObject? && Finite(floats, value)
    ensures ParseValue(floats, PrintOnto(value, rest)) == Some((value, rest))
  {
    hide DigitsOnto, ParseNumber, ParseChars, CharsOnto, ParseValue, Delimited;
    ValueOpens(floats, PrintOnto(value, rest));
    match value
    case JNull => WordParsed("null", value, rest);
    case JBool(b) => WordParsed(if b then "true" else "false", value, rest);
    case JInt(n) =>
      DigitsHead(if n < 0 then -n else n, rest);
      IntParsed(floats, n, rest);
    case JFloat(repr) =>
      FloatHead(repr);
      FloatParsed(floats, repr, rest);
    case JString(text) => StringParsed(text, rest);
  }

  /** The first character decides how a leaf goes on. */
  lemma ValueOpens(floats: FloatReader, s: string)
    ensures s != "" && s[0] == '"' ==> ParseValue(floats, s) == AsString(ParseChars(s[1..], ""))
    ensures s != "" && s[0] == 'n' ==> ParseValue(floats, s) == ParseWord(s, "null", JNull)
    ensures s != "" && s[0] == 't' ==> ParseValue(floats, s) == ParseWord(s, "true", JBool(true))
    ensures s != "" && s[0] == 'f' ==> ParseValue(floats, s) == ParseWord(s, "false", JBool(false))
    ensures s != "" && s[0] !in {'"', 'n', 't', 'f', '[', '{'} ==> ParseValue(floats, s) == ParseNumber(floats, s)
  {
    hide ParseNumber, ParseWord, ParseChars, ParseItems, ParseMembers;
  }

  function AsString(parsed: Option<(string, string)>): Option<(Json, string)> {
    if parsed.None? then None else Some((JString(parsed.value.0), parsed.value.1))
  }

  lemma ItemsHead(value: Json, from: nat, rest: string)
    requires value.JArray? && from < |value.items|
    ensures var s := ItemsOnto(value, from, rest);
      s != "" && !IsBlank(s[0]) && s[0] != ']'
  {
    PrintHead(value.items[from],
      if from + 1 == |value.items| then [']'] + rest else [','] + ItemsOnto(value, from + 1, rest));
  }

  /** Parsing what was printed gives the value back and leaves the rest. */
  lemma {:induction false} ValueParsed(floats: FloatReader, value: Json, rest: string)
    requires Delimited(rest) && Finite(floats, value)
    ensures ParseValue(floats, PrintOnto(value, rest)) == Some((value, rest))
    decreases value, 1, 0
  {
    hide ParseValue, ItemsOnto, MembersOnto, SortedKeys, KeyLeq, Differ, Unread;
    EmptyContainers(floats, rest);
    if value.JArray? && value.items != [] {
      ItemsHead(value, 0, rest);
      ArrayOpens(floats, ItemsOnto(value, 0, rest));
      ItemsParsed(floats, value, 0, rest, []);
      assert [] + value.items[0..] == value.items;
    } else if value.JObject? && value.members != map[] {
      var keys := SortedKeys(value.members.Keys);
      KeysReady(value.members);
      MembersParsed(floats, value, keys, 0, rest, map[]);
      ObjectOpens(floats, MembersOnto(value, keys, 0, rest));
      assert map[] + Taken(value, keys, 0) == value.members;
    } else if !value.JArray? && !value.JObject? {
      LeafParsed(floats, value, rest);
    }
  }

  lemma KeysReady(members: map<string, Json>)
    requires members != map[]
    ensures var keys := SortedKeys(members.Keys);
      && keys != [] && Differ(keys) && Unread(keys, 0, map[])
      && forall key :: key in keys <==> key in members
  {
    var keys := SortedKeys(members.Keys);
    SortedKeysSorted(members.Keys);
    hide SortedKeys, KeyLeq;
    var key :| key in members;
    assert key in keys;
  }

  lemma ItemStep(floats: FloatReader, item: Json, s: string, after: string, read: seq<Json>)
    requires ParseValue(floats, s) == Some((item, after))
    ensures StartsWith(after, ']') ==> ParseItems(floats, s, read) == Some((JArray(read + [item]), after[1..]))
    ensures StartsWith(after, ',') ==>
      ParseItems(floats, s, read) == ParseItems(floats, SkipBlanks(after[1..]), read + [item])
  {
    hide ParseValue;
  }

  /** What the printer puts behind the item at a position. */
  function AfterItem(value: Json, from: nat, rest: string): string
    requires value.JArray? && from < |value.items|
  {
    if from + 1 == |value.items| then [']'] + rest else [','] + ItemsOnto(value, from + 1, rest)
  }

  lemma ItemsUnfold(value: Json, from: nat, rest: string)
    requires value.JArray? && from < |value.items|
    ensures ItemsOnto(value, from, rest) == PrintOnto(value.items[from], AfterItem(value, from, rest))
    ensures Delimited(AfterItem(value, from, rest))
    ensures var after := AfterItem(value, from, rest);
      if from + 1 == |value.items| then StartsWith(after, ']') && after[1..] == rest
      else StartsWith(after, ',') && SkipBlanks(after[1..]) == ItemsOnto(value, from + 1, rest)
  {
    hide PrintOnto;
    if from + 1 < |value.items| {
      ItemsHead(value, from + 1, rest);
    }
  }

  lemma {:induction false} ItemsParsed(floats: FloatReader, value: Json, from: nat, rest: string, read: seq<Json>)
    requires value.JArray? && from < |value.items| && Finite(floats, value)
    ensures ParseItems(floats, ItemsOnto(value, from, rest), read) == Some((JArray(read + value.items[from..]), rest))
    decreases value, 0, |value.items| - from
  {
    hide ParseItems, ParseValue, ItemsOnto, PrintOnto, SkipBlanks, AfterItem;
    var item, after := value.items[from], AfterItem(value, from, rest);
    ItemsUnfold(value, from, rest);
    ValueParsed(floats, item, after);
    ItemStep(floats, item, PrintOnto(item, after), after, read);
    assert read + [item] + value.items[from + 1..] == read + value.items[from..];
    if from + 1 < |value.items| {
      ItemsParsed(floats, value, from + 1, rest, read + [item]);
    } else {
      assert read + [item] == read + value.items[from..];
    }
  }

  /** The members under the keys from the given position on. */
  function Taken(value: Json, keys: seq<string>, from: nat): map<string, Json>
    requires HasMembers(value, keys) && from <= |keys|
  {
    map key | key in keys[from..] :: value.members[key]
  }

  lemma TakenStep(value: Json, keys: seq<string>, from: nat, read: map<string, Json>)
    requires HasMembers(value, keys) && from < |keys|
    requires Differ(keys)
    ensures read[keys[from] := value.members[keys[from]]] + Taken(value, keys, from + 1)
      == read + Taken(value, keys, from)
  {
    assert forall key :: key in keys[from..] <==> key == keys[from] || key in keys[from + 1..];
    assert keys[from] !in keys[from + 1..];
  }

  lemma MemberStep(
    floats: FloatReader, key: string, member: Json, printed: string, after: string, read: map<string, Json>)
    requires ParseValue(floats, printed) == Some((member, after)) && key !in read
    requires printed != "" && !IsBlank(printed[0])
    ensures var s := StringOnto(key, [':'] + printed);
      && (StartsWith(after, '}') ==> ParseMembers(floats, s, read) == Some((JObject(read[key := member]), after[1..])))
      && (StartsWith(after, ',') ==>
            ParseMembers(floats, s, read) == ParseMembers(floats, SkipBlanks(after[1..]), read[key := member]))
  {
    StringParsed(key, [':'] + printed);
    assert ([':'] + printed)[1..] == printed;
    hide ParseValue, ParseChars, StringOnto;
  }

  predicate Differ(keys: seq<string>) {
    forall i, j :: 0 <= i < j < |keys| ==> keys[i] != keys[j]
  }

  /** None of the keys still to come was read before. */
  predicate Unread(keys: seq<string>, from: nat, read: map<string, Json>) {
    forall i :: from <= i < |keys| ==> keys[i] !in read
  }

  lemma UnreadStep(keys: seq<string>, from: nat, read: map<string, Json>, member: Json)
    requires Differ(keys) && Unread(keys, from, read) && from < |keys|
    ensures keys[from] !in read && Unread(keys, from + 1, read[keys[from] := member])
  {
  }

  /** What the printer puts behind the member at a position. */
  function AfterMember(value: Json, keys: seq<string>, from: nat, rest: string): string
    requires HasMembers(value, keys) && from < |keys|
  {
    if from + 1 == |keys| then ['}'] + rest else [','] + MembersOnto(value, keys, from + 1, rest)
  }

  lemma MembersHead(value: Json, keys: seq<string>, from: nat, rest: string)
    requires HasMembers(value, keys) && from < |keys|
    ensures keys[from] in value.members
    ensures MembersOnto(value, keys, from, rest)
      == StringOnto(keys[from], [':'] + PrintOnto(value.members[keys[from]], AfterMember(value, keys, from, rest)))
    ensures StartsWith(MembersOnto(value, keys, from, rest), '"')
  {
    hide PrintOnto, CharsOnto;
  }

  lemma AfterMemberStep(value: Json, keys: seq<string>, from: nat, rest: string)
    requires HasMembers(value, keys) && from < |keys|
    ensures Delimited(AfterMember(value, keys, from, rest))
    ensures var after := AfterMember(value, keys, from, rest);
      if from + 1 == |keys| then StartsWith(after, '}') && after[1..] == rest
      else StartsWith(after, ',') && SkipBlanks(after[1..]) == MembersOnto(value, keys, from + 1, rest)
  {
    if from + 1 < |keys| {
      MembersHead(value, keys, from + 1, rest);
      hide MembersOnto, HasMembers;
      assert ([','] + MembersOnto(value, keys, from + 1, rest))[1..] == MembersOnto(value, keys, from + 1, rest);
    }
  }

  lemma MemberFinite(floats: FloatReader, value: Json, key: string)
    requires value.JObject? && key in value.members && Finite(floats, value)
    ensures Finite(floats, value.members[key])
  {
  }

  lemma {:induction false} MembersParsed(
    floats: FloatReader, value: Json, keys: seq<string>, from: nat, rest: string, read: map<string, Json>)
    requires HasMembers(value, keys) && from < |keys|
    requires Differ(keys) && Unread(keys, from, read) && Finite(floats, value)
    ensures StartsWith(MembersOnto(value, keys, from, rest), '"')
    ensures ParseMembers(floats, MembersOnto(value, keys, from, rest), read)
      == Some((JObject(read + Taken(value, keys, from)), rest))
    decreases value, 0, |keys| - from
  {
    MembersHead(value, keys, from, rest);
    hide ParseMembers, ParseValue, MembersOnto, PrintOnto, Taken, Differ, Unread, StringOnto, HasMembers;
    MemberFinite(floats, value, keys[from]);
    hide Finite;
    hide AfterMember, SkipBlanks, Delimited;
    var key, member, after := keys[from], value.members[keys[from]], AfterMember(value, keys, from, rest);
    AfterMemberStep(value, keys, from, rest);
    UnreadStep(keys, from, read, member);
    ValueParsed(floats, member, after);
    PrintHead(member, after);
    MemberStep(floats, key, member, PrintOnto(member, after), after, read);
    TakenStep(value, keys, from, read);
    if from + 1 == |keys| {
      NothingTaken(value, keys);
      assert read[key := member] + map[] == read[key := member];
    } else {
      MembersParsed(floats, value, keys, from + 1, rest, read[key := member]);
    }
  }

  lemma NothingTaken(value: Json, keys: seq<string>)
    requires HasMembers(value, keys)
    ensures Taken(value, keys, |keys|) == map[]
  {
  }

  // What is read is finite.

  lemma NumberFinite(floats: FloatReader, s: string)
    requires Represents(floats) && ParseNumber(floats, s).Some?
    ensures Finite(floats, ParseNumber(floats, s).value.0)
  {
    hide ParseNatural, TailLength, SignLength;
  }

  lemma {:induction false} ValueFinite(floats: FloatReader, s: string)
    requires Represents(floats) && ParseValue(floats, s).Some?
    ensures Finite(floats, ParseValue(floats, s).value.0)
    decreases |s|, 0
  {
    hide ParseValue, ParseItems, ParseMembers, ParseNumber, ParseChars, ParseWord, Represents, SkipBlanks, Finite;
    ValueOpens(floats, s);
    ContainerOpens(floats, s);
    SimpleFinite(floats, s);
    if s[0] == '{' {
      var inner := SkipBlanks(s[1..]);
      if !StartsWith(inner, '}') {
        MembersFinite(floats, inner, map[]);
      }
    } else if s[0] == '[' {
      var inner := SkipBlanks(s[1..]);
      if !StartsWith(inner, ']') {
        ItemsFinite(floats, inner, []);
      }
    } else if s[0] !in {'"', 'n', 't', 'f'} {
      NumberFinite(floats, s);
    }
  }

  lemma ContainerOpens(floats: FloatReader, s: string)
    ensures s != "" && s[0] == '{' ==>
      var inner := SkipBlanks(s[1..]);
      ParseValue(floats, s)
      == if StartsWith(inner, '}') then Some((JObject(map[]), inner[1..])) else ParseMembers(floats, inner, map[])
    ensures s != "" && s[0] == '[' ==>
      var inner := SkipBlanks(s[1..]);
      ParseValue(floats, s)
      == if StartsWith(inner, ']') then Some((JArray([]), inner[1..])) else ParseItems(floats, inner, [])
  {
    hide ParseItems, ParseMembers, SkipBlanks;
  }

  lemma SimpleFinite(floats: FloatReader, s: string)
    ensures forall parsed :: AsString(parsed).Some? ==> Finite(floats, AsString(parsed).value.0)
    ensures forall word: string, value: Json | word != "" && (value.JNull? || value.JBool?) ::
      ParseWord(s, word, value).Some? ==> Finite(floats, ParseWord(s, word, value).value.0)
    ensures Finite(floats, JObject(map[])) && Finite(floats, JArray([]))
  {
  }

  lemma {:induction false} ItemsFinite(floats: FloatReader, s: string, read: seq<Json>)
    requires Represents(floats) && ParseItems(floats, s, read).Some?
    requires forall i :: 0 <= i < |read| ==> Finite(floats, read[i])
    ensures Finite(floats, ParseItems(floats, s, read).value.0)
    decreases |s|, 1
  {
    hide ParseValue, Represents, SkipBlanks;
    var item := ParseValue(floats, s);
    ValueFinite(floats, s);
    var after, items := SkipBlanks(item.value.1), read + [item.value.0];
    if StartsWith(after, ',') {
      ItemsFinite(floats, SkipBlanks(after[1..]), items);
    }
  }

  lemma {:induction false} MembersFinite(floats: FloatReader, s: string, read: map<string, Json>)
    requires Represents(floats) && ParseMembers(floats, s, read).Some?
    requires forall key :: key in read ==> Finite(floats, read[key])
    ensures Finite(floats, ParseMembers(floats, s, read).value.0)
    decreases |s|, 1
  {
    hide ParseValue, ParseChars, Represents, SkipBlanks;
    var key := ParseChars(s[1..], "");
    var text := SkipBlanks(SkipBlanks(key.value.1)[1..]);
    ValueFinite(floats, text);
    var value := ParseValue(floats, text);
    var after, members := SkipBlanks(value.value.1), read[key.value.0 := value.value.0];
    if StartsWith(after, ',') {
      MembersFinite(floats, SkipBlanks(after[1..]), members);
    }
  }
}
