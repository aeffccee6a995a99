/**
 * The string and number helpers of Go's standard library that the core relies on:
 * `strings.ToLower` on ASCII text, `strings.ReplaceAll(s, c, "")`, `strings.HasPrefix`,
 * `strings.TrimPrefix`, `%d` formatting and `strconv.ParseInt(s, 10, bitSize)`.
 */
module Text {
  import opened Util

  function LowerChar(c: char): char {
    if 'A' <= c <= 'Z' then (c as int + 32) as char else c
  }

  /** `strings.ToLower`, restricted to ASCII (every reason phrase is ASCII). */
  function Lower(s: string): (r: string)
    ensures |r| == |s|
    ensures forall i :: 0 <= i < |s| ==> r[i] == LowerChar(s[i])
  {
    if s == [] then [] else [LowerChar(s[0])] + Lower(s[1..])
  }

  /** `strings.ReplaceAll(s, string(c), "")`: every occurrence of `c` dropped, the rest kept in order. */
  function RemoveAll(s: string, c: char): (r: string)
    ensures c !in r
    ensures forall x :: x != c ==> (x in r <==> x in s)
    ensures |r| <= |s|
    ensures c !in s ==> r == s
  {
    if s == [] then [] else (if s[0] == c then [] else [s[0]]) + RemoveAll(s[1..], c)
  }

  lemma {:induction false} RemoveAllAppend(a: string, b: string, c: char)
    ensures RemoveAll(a + b, c) == RemoveAll(a, c) + RemoveAll(b, c)
  {
    if a == [] {
      assert a + b == b;
    } else {
      assert (a + b)[0] == a[0] && (a + b)[1..] == a[1..] + b;
      RemoveAllAppend(a[1..], b, c);
    }
  }

  /** `strings.HasPrefix`. */
  function HasPrefix(s: string, prefix: string): (r: bool)
    ensures r ==> |prefix| <= |s| && s == prefix + s[|prefix|..]
  {
    |prefix| <= |s| && s[..|prefix|] == prefix
  }

  /** Every text that continues `prefix` has it as a prefix: with `HasPrefix`'s ensures, an if-and-only-if. */
  lemma PrefixOfConcat(prefix: string, t: string)
    ensures HasPrefix(prefix + t, prefix)
  {
    assert (prefix + t)[..|prefix|] == prefix;
  }

  /** `strings.TrimPrefix`: drops `prefix` when `s` starts with it, otherwise returns `s`. */
  function TrimPrefix(s: string, prefix: string): (r: string)
    ensures HasPrefix(s, prefix) ==> prefix + r == s
    ensures !HasPrefix(s, prefix) ==> r == s
  {
    if HasPrefix(s, prefix) then s[|prefix|..] else s
  }

  predicate IsDigit(c: char) {
    '0' <= c <= '9'
  }

  predicate AllDigits(s: string) {
    forall i :: 0 <= i < |s| ==> IsDigit(s[i])
  }

  function DigitChar(d: nat): char
    requires d < 10
  {
    ('0' as int + d) as char
  }

  /** The decimal digits of `n`, most significant first, with no leading zero (`%d`). */
  function NatToDecimal(n: nat): (r: string)
    ensures |r| > 0 && AllDigits(r)
    ensures |r| > 1 ==> r[0] != '0'
  {
    if n < 10 then [DigitChar(n)] else NatToDecimal(n / 10) + [DigitChar(n % 10)]
  }

  /** `%d` on a signed integer: a minus sign exactly for negative values, then the magnitude's digits. */
  function IntToDecimal(i: int): (r: string)
    ensures |r| > 0 && (r[0] == '-' <==> i < 0)
    ensures i >= 0 ==> AllDigits(r) && DigitsValue(r) == i
    ensures i < 0 ==> AllDigits(r[1..]) && DigitsValue(r[1..]) == -i
  {
    if i < 0 then
      DecimalRoundTrip(-i);
      assert ("-" + NatToDecimal(-i))[1..] == NatToDecimal(-i);
      "-" + NatToDecimal(-i)
    else
      DecimalRoundTrip(i);
      NatToDecimal(i)
  }

  /** A three-digit number is written as its hundreds, tens and units digits. */
  lemma ThreeDigits(n: int)
    requires 100 <= n <= 999
    ensures IntToDecimal(n) == [DigitChar(n / 100), DigitChar(n / 10 % 10), DigitChar(n % 10)]
  {
    assert NatToDecimal(n / 100) == [DigitChar(n / 100)];
    assert NatToDecimal(n / 10) == NatToDecimal(n / 100) + [DigitChar(n / 10 % 10)];
    assert NatToDecimal(n) == NatToDecimal(n / 10) + [DigitChar(n % 10)];
  }

  /** The value of a string of decimal digits. */
  function DigitsValue(s: string): nat
    requires AllDigits(s)
  {
    if s == [] then 0 else DigitsValue(s[..|s| - 1]) * 10 + (s[|s| - 1] as int - '0' as int)
  }

  lemma {:induction false} DecimalRoundTrip(n: nat)
    ensures DigitsValue(NatToDecimal(n)) == n
  {
    if n >= 10 {
      var s := NatToDecimal(n);
      assert s[..|s| - 1] == NatToDecimal(n / 10);
      DecimalRoundTrip(n / 10);
    }
  }

  /** The bit sizes the core passes to `strconv.ParseInt`. */
  type BitSize = b: int | b == 8 || b == 16 || b == 32 || b == 64 witness 64

  /** 2^(size-1), the magnitude of the most negative value of a signed integer of that size. */
  function HalfRange(size: BitSize): nat {
    match size
    case 8 => 0x80
    case 16 => 0x8000
    case 32 => 0x8000_0000
    case _ => 0x8000_0000_0000_0000
  }

  function MinInt(size: BitSize): int { -(HalfRange(size) as int) }
  function MaxInt(size: BitSize): int { HalfRange(size) - 1 }

  /**
   * `strconv.ParseInt(s, 10, size)`: an optional `+` or `-`, then one or more decimal digits
   * (no underscores, since the base is given), and a value that fits in `size` bits.
   * `None` stands for both of Go's errors (syntax and range).
   */
  function ParseInt(s: string, size: BitSize): (r: Option<int>)
    ensures r.Some? ==> MinInt(size) <= r.value <= MaxInt(size)
    ensures r.Some? ==> |s| > 0
  {
    var signed := |s| > 0 && (s[0] == '+' || s[0] == '-');
    var digits := if signed then s[1..] else s;
    if |digits| == 0 || !AllDigits(digits) then None
    else
      var magnitude := DigitsValue(digits);
      var v := if signed && s[0] == '-' then -(magnitude as int) else magnitude;
      if MinInt(size) <= v <= MaxInt(size) then Some(v) else None
  }

  /** Formatting with `%d` and parsing back with `strconv.ParseInt` is the identity on every in-range value. */
  lemma ParseFormattedInt(v: int, size: BitSize)
    requires MinInt(size) <= v <= MaxInt(size)
    ensures ParseInt(IntToDecimal(v), size) == Some(v)
  {
    var s := IntToDecimal(v);
    if v < 0 {
      var digits := NatToDecimal(-v);
      assert s == "-" + digits && s[0] == '-' && s[1..] == digits;
      DecimalRoundTrip(-v);
      assert DigitsValue(digits) == -v;
    } else {
      var digits := NatToDecimal(v);
      assert s == digits;
      assert !IsDigit('+') && !IsDigit('-');
      assert s[0] != '+' && s[0] != '-';
      DecimalRoundTrip(v);
      assert DigitsValue(digits) == v;
    }
  }

  /** The value of a sign (empty, `+` or `-`) followed by decimal digits. */
  function SignedValue(sign: string, digits: string): int
    requires AllDigits(digits)
  {
    if sign == "-" then -(DigitsValue(digits) as int) else DigitsValue(digits)
  }

  /** Whatever `ParseInt` accepts is an optional sign followed by digits, and the value is theirs. */
  lemma ParsedShape(s: string, size: BitSize)
    requires ParseInt(s, size).Some?
    ensures var signed := s[0] == '+' || s[0] == '-';
      var sign := if signed then s[..1] else "";
      var digits := if signed then s[1..] else s;
      && s == sign + digits
      && |digits| > 0 && AllDigits(digits)
      && ParseInt(s, size).value == SignedValue(sign, digits)
  {
    if s[0] == '+' || s[0] == '-' {
      assert s == s[..1] + s[1..];
      assert s[..1] == "-" <==> s[0] == '-';
    }
  }

  /**
   * The converse of `ParsedShape`: an optional sign followed by one or more digits whose value
   * fits is accepted, so "+5", "007" and "-0" parse as `strconv.ParseInt` parses them.
   */
  lemma ParseIntAccepts(sign: string, digits: string, size: BitSize)
    requires sign == "" || sign == "+" || sign == "-"
    requires |digits| > 0 && AllDigits(digits)
    requires MinInt(size) <= SignedValue(sign, digits) <= MaxInt(size)
    ensures ParseInt(sign + digits, size) == Some(SignedValue(sign, digits))
  {
    var s := sign + digits;
    if sign == "" {
      assert s == digits;
      assert IsDigit(s[0]);
    } else {
      assert s[0] == sign[0] && s[1..] == digits;
    }
  }

  /** Signs and leading zeros are accepted; empty text, a bare sign and a non-digit are not. */
  lemma ParseIntExamples()
    ensures ParseInt("+5", 64) == Some(5)
    ensures ParseInt("007", 8) == Some(7)
    ensures ParseInt("-0", 16) == Some(0)
    ensures ParseInt("", 64).None? && ParseInt("-", 64).None? && ParseInt("5a", 64).None?
  {
    assert DigitsValue("5") == 5 by { assert "5"[..0] == ""; }
    assert DigitsValue("0") == 0 by { assert "0"[..0] == ""; }
    assert DigitsValue("007") == 7 by {
      assert "007"[..2] == "00" && "00"[..1] == "0";
      assert DigitsValue("00") == 0;
    }
    assert "+5"[0] == '+' && "+5"[1..] == "5";
    assert "-0"[0] == '-' && "-0"[1..] == "0";
    assert "-"[1..] == "";
    assert !IsDigit("5a"[1]);
  }

}
