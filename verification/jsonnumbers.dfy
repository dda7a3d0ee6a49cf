/** The number tokens of section 6 of RFC 8259, and floats as the texts that denote them. */
module JsonNumbers {
  import opened Options

  predicate StartsWith(s: string, c: char) {
    s != "" && s[0] == c
  }

  predicate IsDigit(c: char) {
    '0' <= c <= '9'
  }

  /** How many digits come first. */
  function DigitRun(s: string): (n: nat)
    ensures n <= |s|
    ensures forall i :: 0 <= i < n ==> IsDigit(s[i])
  {
    if s != "" && IsDigit(s[0]) then 1 + DigitRun(s[1..]) else 0
  }

  function ParseDigits(s: string, read: nat): (result: (nat, string))
    ensures result.1 == s[DigitRun(s)..]
  {
    if s != "" && IsDigit(s[0]) then ParseDigits(s[1..], 10 * read + (s[0] as int - '0' as int))
    else (read, s)
  }

  /** An integer without a superfluous leading zero. */
  function ParseNatural(s: string): (result: Option<(nat, string)>)
    ensures result.Some? ==> 0 < NaturalLength(s) <= |s| && result.value.1 == s[NaturalLength(s)..]
    ensures result.Some? <==> s != "" && IsDigit(s[0])
  {
    if s == "" || !IsDigit(s[0]) then None
    else if s[0] == '0' then Some((0, s[1..]))
    else Some(ParseDigits(s[1..], s[0] as int - '0' as int))
  }

  function NaturalLength(s: string): (n: nat)
    ensures n <= |s|
    ensures forall i :: 0 <= i < n ==> IsDigit(s[i])
  {
    if StartsWith(s, '0') then 1 else DigitRun(s)
  }

  function FractionLength(s: string): (n: nat)
    ensures n <= |s|
  {
    if |s| >= 2 && s[0] == '.' && IsDigit(s[1]) then 1 + DigitRun(s[1..]) else 0
  }

  function ExponentLength(s: string): (n: nat)
    ensures n <= |s|
  {
    if |s| >= 2 && (s[0] == 'e' || s[0] == 'E') && IsDigit(s[1]) then 1 + DigitRun(s[1..])
    else if |s| >= 3 && (s[0] == 'e' || s[0] == 'E') && (s[1] == '+' || s[1] == '-') && IsDigit(s[2])
    then 2 + DigitRun(s[2..])
    else 0
  }

  /** The fraction and the exponent behind an integer; a number with either is a float. */
  function TailLength(s: string): (n: nat)
    ensures n <= |s|
  {
    FractionLength(s) + ExponentLength(s[FractionLength(s)..])
  }

  function SignLength(s: string): (n: nat)
    ensures n <= |s|
  {
    if StartsWith(s, '-') then 1 else 0
  }

  /** The text is one number token, and it has a fraction or an exponent. */
  predicate FloatText(s: string) {
    var unsigned := s[SignLength(s)..];
    && ParseNatural(unsigned).Some?
    && var tail := unsigned[NaturalLength(unsigned)..];
    tail != "" && TailLength(tail) == |tail|
  }

  /** A finite float is the text that represents it. */
  type Float = s: string | FloatText(s) witness "0.0"

  /** What a float token is read as, unless it is out of range. */
  type FloatReader = string -> Option<Float>

  /** Every float the reader knows is read back as itself. */
  ghost predicate Represents(floats: FloatReader) {
    forall token :: floats(token).Some? ==> floats(floats(token).value) == floats(token)
  }

  // A token is read alike whatever delimiter follows it.

  predicate EndsNumber(rest: string) {
    rest == "" || !(IsDigit(rest[0]) || rest[0] in {'.', 'e', 'E', '+', '-'})
  }

  lemma {:induction false} DigitRunStops(s: string, rest: string)
    requires rest == "" || !IsDigit(rest[0])
    ensures DigitRun(s + rest) == DigitRun(s)
  {
    if s == "" {
      assert s + rest == rest;
    } else if IsDigit(s[0]) {
      DigitRunStops(s[1..], rest);
      assert (s + rest)[1..] == s[1..] + rest;
    }
  }

  lemma NaturalStops(s: string, rest: string)
    requires s != "" && IsDigit(s[0]) && (rest == "" || !IsDigit(rest[0]))
    ensures NaturalLength(s + rest) == NaturalLength(s)
    ensures (s + rest)[NaturalLength(s)..] == s[NaturalLength(s)..] + rest
  {
    DigitRunStops(s, rest);
  }

  lemma FractionStops(s: string, rest: string)
    requires EndsNumber(rest) && s != "."
    ensures FractionLength(s + rest) == FractionLength(s)
  {
    if s == "" {
      assert s + rest == rest;
    } else if |s| >= 2 {
      assert (s + rest)[1..] == s[1..] + rest;
      DigitRunStops(s[1..], rest);
    }
  }

  lemma ExponentStops(s: string, rest: string)
    requires EndsNumber(rest) && (s == "" || ExponentLength(s) > 0)
    ensures ExponentLength(s + rest) == ExponentLength(s)
  {
    if s == "" {
      assert s + rest == rest;
    } else {
      assert (s + rest)[1..] == s[1..] + rest && (s + rest)[2..] == s[2..] + rest;
      DigitRunStops(s[1..], rest);
      DigitRunStops(s[2..], rest);
    }
  }

  lemma TailStops(s: string, rest: string)
    requires EndsNumber(rest) && (s == "" || TailLength(s) == |s|)
    ensures TailLength(s + rest) == |s|
  {
    var n := FractionLength(s);
    FractionStops(s, rest);
    assert (s + rest)[n..] == s[n..] + rest;
    ExponentStops(s[n..], rest);
  }

  /** A float's text is found again in front of any delimiter. */
  lemma FloatStops(text: Float, rest: string)
    requires EndsNumber(rest)
    ensures var s := text + rest;
      var unsigned := s[SignLength(s)..];
      && ParseNatural(unsigned).Some?
      && var tail := unsigned[NaturalLength(unsigned)..];
         && TailLength(tail) == |tail| - |rest| > 0
         && tail[TailLength(tail)..] == rest && s[..|s| - |rest|] == text
  {
    var s, n := text + rest, SignLength(text);
    var own := text[n..];
    assert SignLength(s) == n && s[n..] == own + rest;
    NaturalStops(own, rest);
    TailStops(own[NaturalLength(own)..], rest);
    assert (own + rest)[NaturalLength(own)..][|own| - NaturalLength(own)..] == rest;
  }

  lemma FloatHead(text: Float)
    ensures text != "" && (text[0] == '-' || IsDigit(text[0]))
  {
  }

  predicate NumberChar(c: char) {
    IsDigit(c) || c in {'.', 'e', 'E', '+', '-'}
  }

  lemma TailChars(s: string, i: nat)
    requires i < TailLength(s)
    ensures NumberChar(s[i])
  {
    var n := FractionLength(s);
    if i < n {
      assert i > 0 ==> s[i] == s[1..][i - 1];
    } else {
      var x := s[n..];
      assert s[i] == x[i - n];
      assert i - n > 0 ==> x[i - n] == x[1..][i - n - 1];
      assert i - n > 1 ==> x[i - n] == x[2..][i - n - 2];
    }
  }

  lemma FloatChars(text: Float)
    ensures forall i :: 0 <= i < |text| ==> NumberChar(text[i])
  {
    var n := SignLength(text);
    var own := text[n..];
    var m := NaturalLength(own);
    forall i | 0 <= i < |text| ensures NumberChar(text[i]) {
      if i >= n + m {
        TailChars(own[m..], i - n - m);
        assert text[i] == own[m..][i - n - m];
      } else if i >= n {
        assert text[i] == own[i - n];
      }
    }
  }
}
