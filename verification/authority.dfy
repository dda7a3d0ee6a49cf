/** Canonical authority bytes and their strict loader. */
module AuthorityBytes {
  import opened Json
  import opened JsonGraph
  import opened JsonNumbers
  import opened JsonValidation
  import opened JsonText
  import opened JsonRoundTrip
  import opened Options
  import opened StringOrder
  import opened Utf8

  /** Every integer lies in the portable safe range. */
  ghost predicate IntegersSafe(value: Json) {
    match value
    case JInt(n) => -MAX_SAFE_JSON_INTEGER <= n <= MAX_SAFE_JSON_INTEGER
    case JArray(items) => forall i :: 0 <= i < |items| ==> IntegersSafe(items[i])
    case JObject(members) => forall key :: key in members ==> IntegersSafe(members[key])
    case _ => true
  }

  ghost predicate Admissible(value: Json, maxDepth: int, maxNodes: int) {
    && maxDepth > 0 && maxNodes > 0
    && value.JObject?
    && IntegersSafe(value)
    && Depth(value) <= maxDepth && Nodes(value) <= maxNodes
  }

  ghost function CanonicalText(value: Json): string {
    PrintOnto(value, "\n")
  }

  ghost function CanonicalBytes(value: Json): seq<Byte> {
    Encode(CanonicalText(value))
  }

  lemma {:induction false} DenotedSafe(heap: Heap, ref: Ref, value: Json)
    requires WellFormed(heap) && ref in heap && Denotes(heap, ref, value)
    ensures IntegersSafe(value)
    decreases value
  {
    match heap[ref]
    case DictNode(entries) =>
      forall key | key in value.members ensures IntegersSafe(value.members[key]) {
        var i := EntryAt(entries, key);
        DenotedSafe(heap, heap[ref].Children()[i], value.members[key]);
      }
    case ListNode(items) =>
      forall i | 0 <= i < |items| ensures IntegersSafe(value.items[i]) {
        DenotedSafe(heap, heap[ref].Children()[i], value.items[i]);
      }
    case _ =>
  }

  /** The validator lets exactly the graphs of admissible values reach the printer. */
  lemma AcceptedGraphs(heap: Heap, root: Ref, maxDepth: int, maxNodes: int)
    requires WellFormed(heap) && root in heap
    ensures Accepts(heap, root, maxDepth, maxNodes) <==>
      exists value :: Denotes(heap, root, value) && Admissible(value, maxDepth, maxNodes)
  {
    hide WellFormed, IntegersSafe, Depth, Nodes;
    forall value | Denotes(heap, root, value)
      ensures IntegersSafe(value) && (heap[root].DictNode? <==> value.JObject?)
    {
      DenotedSafe(heap, root, value);
    }
    hide Denotes;
    if Accepts(heap, root, maxDepth, maxNodes) {
      var value :| Denotes(heap, root, value) && Depth(value) <= maxDepth && Nodes(value) <= maxNodes;
      assert Admissible(value, maxDepth, maxNodes);
    }
  }

  // The text.

  ghost predicate NoControls(s: string) {
    forall c :: c in s ==> c >= ' '
  }

  lemma {:induction false} DigitsVisible(n: nat, rest: string)
    requires NoControls(rest)
    ensures NoControls(DigitsOnto(n, rest))
    decreases n
  {
    if n >= 10 {
      DigitsVisible(n / 10, [DigitChar(n % 10)] + rest);
    }
  }

  lemma CharVisible(c: char, rest: string)
    requires NoControls(rest)
    ensures NoControls(CharOnto(c, rest))
  {
  }

  lemma {:induction false} CharsVisible(s: string, from: nat, rest: string)
    requires from <= |s| && NoControls(rest)
    ensures NoControls(CharsOnto(s, from, rest))
    decreases |s| - from
  {
    hide CharOnto;
    if from < |s| {
      CharsVisible(s, from + 1, rest);
      CharVisible(s[from], CharsOnto(s, from + 1, rest));
    }
  }

  lemma FloatVisible(repr: Float, rest: string)
    requires NoControls(rest)
    ensures NoControls(repr + rest)
  {
    hide FloatText;
    FloatChars(repr);
  }

  lemma StringVisible(s: string, rest: string)
    requires NoControls(rest)
    ensures NoControls(StringOnto(s, rest))
  {
    CharsVisible(s, 0, rest);
    hide CharsOnto;
  }

  /** Printing never emits a control character, so in particular no line break. */
  lemma {:induction false} PrintVisible(value: Json, rest: string)
    requires NoControls(rest)
    ensures NoControls(PrintOnto(value, rest))
    decreases value, 1, 0
  {
    hide DigitsOnto, StringOnto, ItemsOnto, MembersOnto, FloatText, SortedKeys, KeyLeq;
    match value
    case JInt(n) => DigitsVisible(if n < 0 then -n else n, rest);
    case JFloat(repr) => FloatVisible(repr, rest);
    case JString(s) => StringVisible(s, rest);
    case JArray(items) =>
      if items != [] {
        ItemsVisible(value, 0, rest);
      }
    case JObject(members) =>
      if members != map[] {
        SortedKeysSorted(members.Keys);
        MembersVisible(value, SortedKeys(members.Keys), 0, rest);
      }
    case _ =>
  }

  lemma {:induction false} ItemsVisible(value: Json, from: nat, rest: string)
    requires value.JArray? && from < |value.items| && NoControls(rest)
    ensures NoControls(ItemsOnto(value, from, rest))
    decreases value, 0, |value.items| - from
  {
    if from + 1 == |value.items| {
      PrintVisible(value.items[from], [']'] + rest);
    } else {
      ItemsVisible(value, from + 1, rest);
      PrintVisible(value.items[from], [','] + ItemsOnto(value, from + 1, rest));
    }
  }

  lemma {:induction false} MembersVisible(value: Json, keys: seq<string>, from: nat, rest: string)
    requires HasMembers(value, keys) && from <= |keys| && NoControls(rest)
    ensures NoControls(MembersOnto(value, keys, from, rest))
    decreases value, 0, |keys| - from
  {
    if from < |keys| {
      MembersVisible(value, keys, from + 1, rest);
      var after := if from + 1 == |keys| then ['}'] + rest else [','] + MembersOnto(value, keys, from + 1, rest);
      PrintVisible(value.members[keys[from]], after);
      CharsVisible(keys[from], 0, [':'] + PrintOnto(value.members[keys[from]], after));
    }
  }

  lemma {:induction false} DigitsAppend(n: nat, a: string, b: string)
    ensures DigitsOnto(n, a + b) == DigitsOnto(n, a) + b
    decreases n
  {
    var digit := [DigitChar(n % 10)];
    assert digit + (a + b) == (digit + a) + b;
    if n >= 10 {
      DigitsAppend(n / 10, digit + a, b);
    }
  }

  lemma CharAppend(c: char, a: string, b: string)
    ensures CharOnto(c, a + b) == CharOnto(c, a) + b
  {
  }

  lemma {:induction false} CharsAppend(s: string, from: nat, a: string, b: string)
    requires from <= |s|
    ensures CharsOnto(s, from, a + b) == CharsOnto(s, from, a) + b
    decreases |s| - from
  {
    hide CharOnto;
    if from < |s| {
      CharsAppend(s, from + 1, a, b);
      CharAppend(s[from], CharsOnto(s, from + 1, a), b);
    } else {
      assert ['"'] + (a + b) == ['"'] + a + b;
    }
  }

  lemma StringAppend(s: string, a: string, b: string)
    ensures StringOnto(s, a + b) == StringOnto(s, a) + b
  {
    hide CharsOnto;
    CharsAppend(s, 0, a, b);
    assert ['"'] + (CharsOnto(s, 0, a) + b) == ['"'] + CharsOnto(s, 0, a) + b;
  }

  lemma ConsAppend(head: string, a: string, b: string)
    ensures head + (a + b) == (head + a) + b
  {
  }

  /** Printing only puts text in front of what follows. */
  lemma {:induction false} PrintAppend(value: Json, a: string, b: string)
    ensures PrintOnto(value, a + b) == PrintOnto(value, a) + b
    decreases value, 1, 0
  {
    hide DigitsOnto, StringOnto, ItemsOnto, MembersOnto, SortedKeys, KeyLeq;
    match value
    case JInt(n) =>
      DigitsAppend(if n < 0 then -n else n, a, b);
      ConsAppend("-", DigitsOnto(if n < 0 then -n else n, a), b);
    case JFloat(repr) => ConsAppend(repr, a, b);
    case JString(s) => StringAppend(s, a, b);
    case JArray(items) =>
      ConsAppend("[]", a, b);
      if items != [] {
        ItemsAppend(value, 0, a, b);
        ConsAppend("[", ItemsOnto(value, 0, a), b);
      }
    case JObject(members) =>
      ConsAppend("{}", a, b);
      if members != map[] {
        SortedKeysSorted(members.Keys);
        MembersAppend(value, SortedKeys(members.Keys), 0, a, b);
        ConsAppend("{", MembersOnto(value, SortedKeys(members.Keys), 0, a), b);
      }
    case _ =>
      ConsAppend("null", a, b);
      ConsAppend("true", a, b);
      ConsAppend("false", a, b);
  }

  lemma {:induction false} ItemsAppend(value: Json, from: nat, a: string, b: string)
    requires value.JArray? && from < |value.items|
    ensures ItemsOnto(value, from, a + b) == ItemsOnto(value, from, a) + b
    decreases value, 0, |value.items| - from
  {
    if from + 1 == |value.items| {
      ConsAppend("]", a, b);
      PrintAppend(value.items[from], [']'] + a, b);
    } else {
      ItemsAppend(value, from + 1, a, b);
      ConsAppend(",", ItemsOnto(value, from + 1, a), b);
      PrintAppend(value.items[from], [','] + ItemsOnto(value, from + 1, a), b);
    }
  }

  lemma {:induction false} MembersAppend(value: Json, keys: seq<string>, from: nat, a: string, b: string)
    requires HasMembers(value, keys) && from <= |keys|
    ensures MembersOnto(value, keys, from, a + b) == MembersOnto(value, keys, from, a) + b
    decreases value, 0, |keys| - from
  {
    if from < |keys| {
      var member := value.members[keys[from]];
      hide HasMembers, StringOnto, PrintOnto;
      MembersAppend(value, keys, from + 1, a, b);
      ConsAppend("}", a, b);
      ConsAppend(",", MembersOnto(value, keys, from + 1, a), b);
      var after := if from + 1 == |keys| then ['}'] + a else [','] + MembersOnto(value, keys, from + 1, a);
      PrintAppend(member, after, b);
      ConsAppend(":", PrintOnto(member, after), b);
      StringAppend(keys[from], [':'] + PrintOnto(member, after), b);
    }
  }

  /** The canonical text is one line that ends with its only line feed. */
  lemma OneTrailingLineFeed(value: Json)
    ensures CanonicalText(value) == PrintOnto(value, "") + "\n"
    ensures NoControls(PrintOnto(value, ""))
  {
    PrintAppend(value, "", "\n");
    PrintVisible(value, "");
    assert "" + "\n" == "\n";
  }

  // Loading.

  ghost function Load(floats: FloatReader, data: seq<Byte>, maxBytes: int, maxDepth: int, maxNodes: int): Option<Json> {
    if maxBytes <= 0 || |data| > maxBytes then None
    else
      var text := Decode(data);
      if text.None? then None
      else
        var value := Parse(floats, text.value);
        if value.None? || !Admissible(value.value, maxDepth, maxNodes) then None
        else if data != CanonicalBytes(value.value) then None
        else value
  }

  lemma CanonicalParses(floats: FloatReader, value: Json)
    requires Finite(floats, value)
    ensures Decode(CanonicalBytes(value)) == Some(CanonicalText(value))
    ensures Parse(floats, CanonicalText(value)) == Some(value)
  {
    DecodeEncode(CanonicalText(value));
    PrintHead(value, "\n");
    ValueParsed(floats, value, "\n");
    hide PrintOnto, ParseValue, Finite;
  }

  lemma ParsedFinite(floats: FloatReader, s: string)
    requires Represents(floats) && Parse(floats, s).Some?
    ensures Finite(floats, Parse(floats, s).value)
  {
    hide ParseValue, Finite, Represents;
    ValueFinite(floats, SkipBlanks(s));
  }

  /** Loading accepts exactly the canonical bytes of an admissible value with finite floats, and returns
      that value. */
  lemma LoadsExactlyCanonicalBytes(
    floats: FloatReader, data: seq<Byte>, maxBytes: int, maxDepth: int, maxNodes: int, value: Json)
    requires Represents(floats)
    ensures Load(floats, data, maxBytes, maxDepth, maxNodes) == Some(value) <==>
      && 0 < maxBytes && |data| <= maxBytes
      && Admissible(value, maxDepth, maxNodes) && Finite(floats, value)
      && data == CanonicalBytes(value)
  {
    hide Admissible, CanonicalBytes, CanonicalText, Parse, Decode, Finite, Represents;
    if Finite(floats, value) {
      CanonicalParses(floats, value);
    }
    if Load(floats, data, maxBytes, maxDepth, maxNodes).Some? {
      ParsedFinite(floats, Decode(data).value);
    }
  }

  /** A reader that takes every float token for a float of its own. */
  function EveryToken(): FloatReader {
    token => if FloatText(token) then Some(token) else None
  }

  lemma {:induction false} EveryTokenFinite(value: Json)
    ensures Finite(EveryToken(), value)
  {
    match value
    case JFloat(repr) => assert FloatText(repr);
    case JArray(items) =>
      forall i | 0 <= i < |items| {
        EveryTokenFinite(items[i]);
      }
    case JObject(members) =>
      forall key | key in members {
        EveryTokenFinite(members[key]);
      }
    case _ =>
  }

  /** Equal canonical bytes come from equal values. */
  lemma CanonicalBytesInjective(a: Json, b: Json)
    requires CanonicalBytes(a) == CanonicalBytes(b)
    ensures a == b
  {
    hide CanonicalBytes, CanonicalText, Parse, Decode, Finite;
    EveryTokenFinite(a);
    EveryTokenFinite(b);
    CanonicalParses(EveryToken(), a);
    CanonicalParses(EveryToken(), b);
  }

  // What an admissible value holds.

  /** The value is the part, or holds it at any depth. */
  ghost predicate Holds(value: Json, part: Json) {
    || value == part
    || match value
       case JArray(items) => exists i :: 0 <= i < |items| && Holds(items[i], part)
       case JObject(members) => exists key :: key in members && Holds(members[key], part)
       case _ => false
  }

  /** The integers that are safe are those at every depth that a double represents together with both neighbours. */
  lemma {:induction false} IntegersExactly(value: Json)
    ensures IntegersSafe(value) <==>
      forall n: int :: Holds(value, JInt(n)) ==> -9_007_199_254_740_992 < n < 9_007_199_254_740_992
  {
    match value
    case JArray(items) =>
      forall i | 0 <= i < |items| {
        IntegersExactly(items[i]);
      }
    case JObject(members) =>
      forall key | key in members {
        IntegersExactly(members[key]);
      }
    case JInt(n) =>
      assert Holds(value, JInt(n));
    case _ =>
  }
}
