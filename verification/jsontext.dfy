/** Canonical JSON text and a strict JSON parser, after sections 2 to 7 of RFC 8259. */
module JsonText {
  import opened Json
  import opened JsonNumbers
  import opened Options
  import opened StringOrder

  // Printing. Each printer puts its text in front of the text that follows it.

  function DigitChar(d: nat): char
    requires d < 10
  {
    ('0' as int + d) as char
  }

  function HexChar(d: nat): char
    requires d < 16
  {
    if d < 10 then DigitChar(d) else ('a' as int + d - 10) as char
  }

  function DigitsOnto(n: nat, rest: string): string {
    if n < 10 then [DigitChar(n)] + rest else DigitsOnto(n / 10, [DigitChar(n % 10)] + rest)
  }

  function IntOnto(n: int, rest: string): string {
    if n < 0 then ['-'] + DigitsOnto(-n, rest) else DigitsOnto(n, rest)
  }

  /** The letter of a two-character escape, if the character has one. */
  function ShortEscape(c: char): Option<char> {
    if c == '"' then Some('"')
    else if c == '\\' then Some('\\')
    else if c == '\U{0008}' then Some('b')
    else if c == '\U{000C}' then Some('f')
    else if c == '\n' then Some('n')
    else if c == '\r' then Some('r')
    else if c == '\t' then Some('t')
    else None
  }

  function CharOnto(c: char, rest: string): string {
    if ShortEscape(c).Some? then ['\\', ShortEscape(c).value] + rest
    else if c < ' ' then ['\\', 'u', '0', '0', HexChar(c as int / 16), HexChar(c as int % 16)] + rest
    else [c] + rest
  }

  function CharsOnto(s: string, from: nat, rest: string): string
    requires from <= |s|
    decreases |s| - from
  {
    if from == |s| then ['"'] + rest else CharOnto(s[from], CharsOnto(s, from + 1, rest))
  }

  function StringOnto(s: string, rest: string): string {
    ['"'] + CharsOnto(s, 0, rest)
  }

  predicate HasMembers(value: Json, keys: seq<string>) {
    value.JObject? && forall key :: key in keys ==> key in value.members
  }

  /** Keys sorted, no insignificant whitespace. */
  function PrintOnto(value: Json, rest: string): string
    decreases value, 1, 0
  {
    match value
    case JNull => "null" + rest
    case JBool(b) => (if b then "true" else "false") + rest
    case JInt(n) => IntOnto(n, rest)
    case JFloat(repr) => repr + rest
    case JString(s) => StringOnto(s, rest)
    case JArray(items) =>
      if items == [] then ['[', ']'] + rest else ['['] + ItemsOnto(value, 0, rest)
    case JObject(members) =>
      SortedKeysSorted(members.Keys);
      if members == map[] then ['{', '}'] + rest
      else ['{'] + MembersOnto(value, SortedKeys(members.Keys), 0, rest)
  }

  function ItemsOnto(value: Json, from: nat, rest: string): string
    requires value.JArray? && from < |value.items|
    decreases value, 0, |value.items| - from
  {
    PrintOnto(value.items[from],
      if from + 1 == |value.items| then [']'] + rest else [','] + ItemsOnto(value, from + 1, rest))
  }

  function MembersOnto(value: Json, keys: seq<string>, from: nat, rest: string): string
    requires HasMembers(value, keys) && from <= |keys|
    decreases value, 0, |keys| - from
  {
    if from == |keys| then rest
    else
      StringOnto(keys[from], [':'] + PrintOnto(value.members[keys[from]],
        if from + 1 == |keys| then ['}'] + rest else [','] + MembersOnto(value, keys, from + 1, rest)))
  }

  // Parsing.

  predicate IsBlank(c: char) {
    c == ' ' || c == '\t' || c == '\n' || c == '\r'
  }

  function SkipBlanks(s: string): (rest: string)
    ensures |rest| <= |s|
  {
    if s != "" && IsBlank(s[0]) then SkipBlanks(s[1..]) else s
  }

  function HexValue(c: char): Option<nat> {
    if IsDigit(c) then Some(c as int - '0' as int)
    else if 'a' <= c <= 'f' then Some(c as int - 'a' as int + 10)
    else if 'A' <= c <= 'F' then Some(c as int - 'A' as int + 10)
    else None
  }

  function ParseHex(s: string): Option<nat> {
    if |s| < 4 then None
    else
      var a, b, c, d := HexValue(s[0]), HexValue(s[1]), HexValue(s[2]), HexValue(s[3]);
      if a.None? || b.None? || c.None? || d.None? then None
      else Some(((a.value * 16 + b.value) * 16 + c.value) * 16 + d.value)
  }

  predicate IsScalar(code: nat) {
    code < 0xD800 || 0xE000 <= code < 0x110000
  }

  function ShortUnescape(c: char): Option<char> {
    if c == '"' || c == '\\' || c == '/' then Some(c)
    else if c == 'b' then Some('\U{0008}')
    else if c == 'f' then Some('\U{000C}')
    else if c == 'n' then Some('\n')
    else if c == 'r' then Some('\r')
    else if c == 't' then Some('\t')
    else None
  }

  /** One escape, after its backslash. A surrogate outside a pair names no character. */
  function ParseEscape(s: string): (result: Option<(char, string)>)
    ensures result.Some? ==> |result.value.1| < |s|
  {
    if s == "" then None
    else if s[0] != 'u' then
      if ShortUnescape(s[0]).Some? then Some((ShortUnescape(s[0]).value, s[1..])) else None
    else
      var first := ParseHex(s[1..]);
      if first.None? then None
      else if IsScalar(first.value) then Some((first.value as char, s[5..]))
      else if first.value < 0xDC00 && |s| >= 11 && s[5] == '\\' && s[6] == 'u' then
        var second := ParseHex(s[7..]);
        if second.Some? && 0xDC00 <= second.value < 0xE000 then
          Some(((0x10000 + (first.value - 0xD800) * 0x400 + (second.value - 0xDC00)) as char, s[11..]))
        else None
      else None
  }

  /** The characters of a string after its opening quote. */
  function ParseChars(s: string, read: string): (result: Option<(string, string)>)
    ensures result.Some? ==> |result.value.1| < |s|
    decreases |s|
  {
    if s == "" then None
    else if s[0] == '"' then Some((read, s[1..]))
    else if s[0] == '\\' then
      var escape := ParseEscape(s[1..]);
      if escape.None? then None else ParseChars(escape.value.1, read + [escape.value.0])
    else if s[0] < ' ' then None
    else ParseChars(s[1..], read + [s[0]])
  }

  /** The token decides whether the number is an integer or a float. */
  function ParseNumber(floats: FloatReader, s: string): (result: Option<(Json, string)>)
    ensures result.Some? ==> |result.value.1| < |s|
  {
    var sign := SignLength(s);
    var natural := ParseNatural(s[sign..]);
    if natural.None? then None
    else
      var rest := natural.value.1;
      if TailLength(rest) == 0 then
        Some((JInt(if sign == 1 then 0 - natural.value.0 else natural.value.0), rest))
      else
        var after := rest[TailLength(rest)..];
        var float := floats(s[..|s| - |after|]);
        if float.None? then None else Some((JFloat(float.value), after))
  }

  function ParseWord(s: string, word: string, value: Json): (result: Option<(Json, string)>)
    requires word != ""
    ensures result.Some? ==> |result.value.1| < |s|
  {
    if word <= s then Some((value, s[|word|..])) else None
  }

  function ParseValue(floats: FloatReader, s: string): (result: Option<(Json, string)>)
    ensures result.Some? ==> |result.value.1| < |s|
    decreases |s|, 0
  {
    if s == "" then None
    else if s[0] == '"' then
      var text := ParseChars(s[1..], "");
      if text.None? then None else Some((JString(text.value.0), text.value.1))
    else if s[0] == '{' then
      var inner := SkipBlanks(s[1..]);
      if StartsWith(inner, '}') then Some((JObject(map[]), inner[1..])) else ParseMembers(floats, inner, map[])
    else if s[0] == '[' then
      var inner := SkipBlanks(s[1..]);
      if StartsWith(inner, ']') then Some((JArray([]), inner[1..])) else ParseItems(floats, inner, [])
    else if s[0] == 'n' then ParseWord(s, "null", JNull)
    else if s[0] == 't' then ParseWord(s, "true", JBool(true))
    else if s[0] == 'f' then ParseWord(s, "false", JBool(false))
    else ParseNumber(floats, s)
  }

  function ParseItems(floats: FloatReader, s: string, read: seq<Json>): (result: Option<(Json, string)>)
    ensures result.Some? ==> |result.value.1| < |s|
    decreases |s|, 1
  {
    var item := ParseValue(floats, s);
    if item.None? then None
    else
      var after, items := SkipBlanks(item.value.1), read + [item.value.0];
      if StartsWith(after, ']') then Some((JArray(items), after[1..]))
      else if StartsWith(after, ',') then ParseItems(floats, SkipBlanks(after[1..]), items)
      else None
  }

  /** A repeated key is an error. */
  function ParseMembers(floats: FloatReader, s: string, read: map<string, Json>): (result: Option<(Json, string)>)
    ensures result.Some? ==> |result.value.1| < |s|
    decreases |s|, 1
  {
    if !StartsWith(s, '"') then None
    else
      var key := ParseChars(s[1..], "");
      if key.None? || !StartsWith(SkipBlanks(key.value.1), ':') then None
      else
        var value := ParseValue(floats, SkipBlanks(SkipBlanks(key.value.1)[1..]));
        if value.None? || key.value.0 in read then None
        else
          var after, members := SkipBlanks(value.value.1), read[key.value.0 := value.value.0];
          if StartsWith(after, '}') then Some((JObject(members), after[1..]))
          else if StartsWith(after, ',') then ParseMembers(floats, SkipBlanks(after[1..]), members)
          else None
  }

  /** A whole document: one value with nothing but blanks around it. */
  function Parse(floats: FloatReader, s: string): Option<Json> {
    var parsed := ParseValue(floats, SkipBlanks(s));
    if parsed.Some? && SkipBlanks(parsed.value.1) == "" then Some(parsed.value.0) else None
  }
}
