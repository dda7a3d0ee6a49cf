/** Strict UTF-8, after RFC 3629. */
module Utf8 {
  import opened Options

  type Byte = b: int | 0 <= b < 256

  function EncodeChar(c: char): (bytes: seq<Byte>)
    ensures bytes != []
  {
    var code := c as int;
    if code < 0x80 then [code]
    else if code < 0x800 then [0xC0 + code / 0x40, 0x80 + code % 0x40]
    else if code < 0x10000 then [0xE0 + code / 0x1000, 0x80 + code / 0x40 % 0x40, 0x80 + code % 0x40]
    else [0xF0 + code / 0x40000, 0x80 + code / 0x1000 % 0x40, 0x80 + code / 0x40 % 0x40, 0x80 + code % 0x40]
  }

  function Encode(s: string): seq<Byte> {
    if s == "" then [] else EncodeChar(s[0]) + Encode(s[1..])
  }

  predicate Continues(bytes: seq<Byte>, n: nat) {
    |bytes| > n && forall i :: 1 <= i <= n ==> 0x80 <= bytes[i] < 0xC0
  }

  /** The payload of a byte above its marker, after the bits already read. */
  function Join(high: int, byte: Byte, marker: int): int {
    high * 0x40 + (byte as int - marker)
  }

  /** The first character: no overlong form, no surrogate, nothing past the last code point. */
  function DecodeOne(bytes: seq<Byte>): (result: Option<(char, nat)>)
    ensures result.Some? ==> 0 < result.value.1 <= |bytes|
  {
    if bytes == [] then None
    else if bytes[0] < 0x80 then Some((bytes[0] as char, 1))
    else if 0xC2 <= bytes[0] < 0xE0 && Continues(bytes, 1) then
      Some((Join(Join(0, bytes[0], 0xC0), bytes[1], 0x80) as char, 2))
    else if 0xE0 <= bytes[0] < 0xF0 && Continues(bytes, 2) then
      var code := Join(Join(Join(0, bytes[0], 0xE0), bytes[1], 0x80), bytes[2], 0x80);
      if code < 0x800 || 0xD800 <= code < 0xE000 then None else Some((code as char, 3))
    else if 0xF0 <= bytes[0] < 0xF5 && Continues(bytes, 3) then
      var code := Join(Join(Join(Join(0, bytes[0], 0xF0), bytes[1], 0x80), bytes[2], 0x80), bytes[3], 0x80);
      if code < 0x10000 || 0x110000 <= code then None else Some((code as char, 4))
    else None
  }

  function Decode(bytes: seq<Byte>): Option<string>
    decreases |bytes|
  {
    if bytes == [] then Some("")
    else
      var first := DecodeOne(bytes);
      if first.None? then None
      else
        var rest := Decode(bytes[first.value.1..]);
        if rest.None? then None else Some([first.value.0] + rest.value)
  }

  lemma SplitCode(code: nat)
    ensures code == code / 0x40 * 0x40 + code % 0x40
    ensures code / 0x40 / 0x40 == code / 0x1000 && code / 0x1000 / 0x40 == code / 0x40000
  {
  }

  lemma TwoBytes(code: nat, more: seq<Byte>)
    requires 0x80 <= code < 0x800
    ensures DecodeOne([0xC0 + code / 0x40, 0x80 + code % 0x40] + more) == Some((code as char, 2))
  {
    SplitCode(code);
  }

  lemma ThreeBytes(code: nat, more: seq<Byte>)
    requires 0x800 <= code < 0xD800 || 0xE000 <= code < 0x10000
    ensures DecodeOne([0xE0 + code / 0x1000, 0x80 + code / 0x40 % 0x40, 0x80 + code % 0x40] + more)
      == Some((code as char, 3))
  {
    SplitCode(code);
    SplitCode(code / 0x40);
  }

  lemma FourBytes(code: nat, more: seq<Byte>)
    requires 0x10000 <= code < 0x110000
    ensures DecodeOne(
      [0xF0 + code / 0x40000, 0x80 + code / 0x1000 % 0x40, 0x80 + code / 0x40 % 0x40, 0x80 + code % 0x40] + more)
      == Some((code as char, 4))
  {
    SplitCode(code);
    SplitCode(code / 0x40);
    SplitCode(code / 0x1000);
  }

  lemma CharDecoded(c: char, more: seq<Byte>)
    ensures DecodeOne(EncodeChar(c) + more) == Some((c, |EncodeChar(c)|))
  {
    var code := c as int;
    if 0x80 <= code {
      hide DecodeOne;
      if code < 0x800 {
        TwoBytes(code, more);
      } else if code < 0x10000 {
        ThreeBytes(code, more);
      } else {
        FourBytes(code, more);
      }
    }
  }

  lemma {:induction false} DecodeEncode(s: string)
    ensures Decode(Encode(s)) == Some(s)
  {
    if s != "" {
      hide EncodeChar, DecodeOne;
      CharDecoded(s[0], Encode(s[1..]));
      DecodeEncode(s[1..]);
      assert Encode(s)[|EncodeChar(s[0])|..] == Encode(s[1..]);
      assert s == [s[0]] + s[1..];
    }
  }
}
