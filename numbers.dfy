/**
 * `parseInt(s)` without a radix argument, on integers: leading white space
 * is skipped, one sign is read, a `0x`/`0X` prefix selects base 16, and the
 * longest run of digits that follows is the value; no digit at all gives
 * NaN, written `None`.
 */
module Numbers {
  import opened Basics
  import opened Strings

  /** A digit in base 10, or in base 16 (either case). */
  predicate IsRadixDigit(c: char, radix: nat)
  {
    IsDigit(c) || (radix == 16 && (('a' <= c <= 'f') || ('A' <= c <= 'F')))
  }

  function DigitValue(c: char, radix: nat): (r: nat)
    requires IsRadixDigit(c, radix)
    ensures IsDigit(c) ==> r == c as int - '0' as int
    ensures r < Max(radix, 10)
  {
    if IsDigit(c) then c as int - '0' as int
    else if 'a' <= c <= 'f' then c as int - 'a' as int + 10
    else c as int - 'A' as int + 10
  }

  /** The length of the run of digits at the start of `s`. */
  function LeadingDigits(s: string, radix: nat): (n: nat)
    ensures n <= |s|
    ensures forall i :: 0 <= i < n ==> IsRadixDigit(s[i], radix)
    ensures n < |s| ==> !IsRadixDigit(s[n], radix)
    decreases |s|
  {
    if s == [] || !IsRadixDigit(s[0], radix) then 0 else 1 + LeadingDigits(s[1..], radix)
  }

  /** The value of a run of digits, most significant first. */
  function RadixValue(s: string, radix: nat): nat
    requires forall i :: 0 <= i < |s| ==> IsRadixDigit(s[i], radix)
    decreases |s|
  {
    if s == [] then 0 else RadixValue(s[..|s| - 1], radix) * radix + DigitValue(s[|s| - 1], radix)
  }

  /** In base 10 the value is the decimal value of the digits. */
  lemma {:induction false} RadixValueDecimal(s: string)
    requires AllDigits(s)
    ensures RadixValue(s, 10) == DigitsValue(s)
    decreases |s|
  {
    if s != [] {
      RadixValueDecimal(s[..|s| - 1]);
    }
  }

  /** `s` without its leading white space. */
  function TrimStart(s: string): (r: string)
    ensures |r| <= |s| && r == s[|s| - |r|..]
    ensures r == [] || !IsSpace(r[0])
    ensures forall i :: 0 <= i < |s| - |r| ==> IsSpace(s[i])
    decreases |s|
  {
    if s != [] && IsSpace(s[0]) then TrimStart(s[1..]) else s
  }

  /** What follows the sign: a `0x`/`0X` prefix selects base 16, and the
      run of digits after it is the magnitude. */
  function ParseMagnitude(u: string): (r: Option<int>)
    ensures r.Some? ==> r.value >= 0
  {
    var hex := |u| >= 2 && u[0] == '0' && (u[1] == 'x' || u[1] == 'X');
    var radix := if hex then 16 else 10;
    var v := if hex then u[2..] else u;
    var n := LeadingDigits(v, radix);
    if n == 0 then None else Some(RadixValue(v[..n], radix))
  }

  /** Reads an optional sign, then the magnitude. */
  function ParseSigned(t: string): Option<int>
  {
    if t != [] && t[0] == '-' then
      match ParseMagnitude(t[1..])
      case Some(m) => Some(-m)
      case None => None
    else if t != [] && t[0] == '+' then ParseMagnitude(t[1..])
    else ParseMagnitude(t)
  }

  /** `parseInt(s)`. */
  function ParseInt(s: string): Option<int>
  {
    ParseSigned(TrimStart(s))
  }

  /** The digit run of `digits + rest` is `digits` when `rest` does not continue it. */
  lemma {:induction false} LeadingDigitsOfRun(digits: string, rest: string, radix: nat)
    requires forall i :: 0 <= i < |digits| ==> IsRadixDigit(digits[i], radix)
    requires rest == [] || !IsRadixDigit(rest[0], radix)
    ensures LeadingDigits(digits + rest, radix) == |digits|
    decreases |digits|
  {
    if digits == [] {
      assert digits + rest == rest;
    } else {
      assert (digits + rest)[1..] == digits[1..] + rest;
      LeadingDigitsOfRun(digits[1..], rest, radix);
    }
  }

  /**
   * A run of decimal digits, followed by nothing or by a non-digit, is read
   * as its decimal value (unless it is a lone "0" that an "x" turns into a
   * hex prefix).
   */
  lemma MagnitudeOfDecimalRun(digits: string, rest: string)
    requires digits != [] && AllDigits(digits)
    requires rest == [] || !IsDigit(rest[0])
    requires !(digits == "0" && rest != [] && (rest[0] == 'x' || rest[0] == 'X'))
    ensures ParseMagnitude(digits + rest) == Some(DigitsValue(digits))
  {
    var s := digits + rest;
    assert !(|s| >= 2 && s[0] == '0' && (s[1] == 'x' || s[1] == 'X')) by {
      assert s[0] == digits[0];
      if |digits| >= 2 {
        assert s[1] == digits[1];
      } else if |s| >= 2 {
        assert s[1] == rest[0];
      }
    }
    LeadingDigitsOfRun(digits, rest, 10);
    assert s[..|digits|] == digits;
    RadixValueDecimal(digits);
  }

  /** Without leading white space there is nothing to skip. */
  lemma NothingToTrim(s: string)
    requires s == [] || !IsSpace(s[0])
    ensures ParseInt(s) == ParseSigned(s)
  {
    assert TrimStart(s) == s;
  }

  /** A string starting with a digit is read as a magnitude, and a minus sign
      in front of it negates that. */
  lemma SignOfDigitRun(s: string)
    requires s != [] && IsDigit(s[0])
    ensures ParseSigned(s) == ParseMagnitude(s)
    ensures ParseMagnitude(s).Some? ==> ParseSigned("-" + s) == Some(-ParseMagnitude(s).value)
    ensures ParseMagnitude(s).None? ==> ParseSigned("-" + s) == None
  {
    assert ("-" + s)[1..] == s;
  }

  /** A number typed without sign or white space parses to its decimal value,
      and with a minus sign in front to its negation. */
  lemma ParseDecimalPrefix(digits: string, rest: string)
    requires digits != [] && AllDigits(digits)
    requires rest == [] || !IsDigit(rest[0])
    requires !(digits == "0" && rest != [] && (rest[0] == 'x' || rest[0] == 'X'))
    ensures ParseInt(digits + rest) == Some(DigitsValue(digits))
    ensures ParseInt("-" + (digits + rest)) == Some(-(DigitsValue(digits) as int))
  {
    var s := digits + rest;
    assert s[0] == digits[0];
    MagnitudeOfDecimalRun(digits, rest);
    SignOfDigitRun(s);
    NothingToTrim(s);
    NothingToTrim("-" + s);
  }

  /** No digits, no number. */
  lemma ParseIntWithoutDigits(s: string)
    requires forall i :: 0 <= i < |s| ==> !IsDigit(s[i])
    ensures ParseInt(s) == None
  {
    var t := TrimStart(s);
    var u := if t != [] && (t[0] == '-' || t[0] == '+') then t[1..] else t;
    if u != [] {
      assert u[0] in s;
    }
    if |u| >= 2 {
      assert u[2..] == [] || u[2..][0] in s;
    }
  }

  /** Leading white space does not change the result. */
  lemma ParseIntSkipsSpace(c: char, s: string)
    requires IsSpace(c)
    ensures ParseInt([c] + s) == ParseInt(s)
  {
    assert ([c] + s)[1..] == s;
  }
}
