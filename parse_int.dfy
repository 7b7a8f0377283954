/**
 * `parseInt(s, 10)` as the upload handler uses it to read a numeric column
 * reference: leading white space, an optional sign, then the longest run of
 * decimal digits.
 */
module IntParse {
  import opened Wrappers
  import opened Text

  /** The longest run of decimal digits at the start of `s`. */
  function DigitPrefix(s: string): (r: string)
    ensures AllDigits(r)
    decreases |s|
  {
    if s != [] && IsDigit(s[0]) then [s[0]] + DigitPrefix(s[1..]) else []
  }

  /**
   * `parseInt(s, 10)`: skip leading white space, take an optional sign, then
   * the longest run of decimal digits; `None` stands for NaN (no digits).
   */
  function ParseInt(s: string): Option<int>
  {
    ParseSigned(TrimStart(s))
  }

  /** An optional sign, then the longest run of decimal digits; `None` when there are no digits. */
  function ParseSigned(t: string): Option<int>
  {
    if |t| > 0 && t[0] == '-' then
      match ParseDigits(t[1..])
      case Some(magnitude) => Some(-magnitude)
      case None => None
    else if |t| > 0 && t[0] == '+' then ParseDigits(t[1..])
    else ParseDigits(t)
  }

  /** The value of the longest run of decimal digits at the start; `None` when there is none. */
  function ParseDigits(u: string): Option<int>
  {
    var digits := DigitPrefix(u);
    if digits == [] then None else Some(DigitsValue(digits) as int)
  }

  lemma {:induction false} DigitPrefixOfNumeral(digits: string, rest: string)
    requires AllDigits(digits)
    requires rest == [] || !IsDigit(rest[0])
    ensures DigitPrefix(digits + rest) == digits
    decreases |digits|
  {
    if digits != [] {
      DigitPrefixOfNumeral(digits[1..], rest);
      assert (digits + rest)[1..] == digits[1..] + rest;
      assert digits == [digits[0]] + digits[1..];
    } else {
      assert digits + rest == rest;
    }
  }

  /** A string that does not start with white space is left as it is by `TrimStart`. */
  lemma TrimStartNoSpace(s: string)
    requires s != [] && !IsSpace(s[0])
    ensures TrimStart(s) == s
  {
  }

  /** A numeral followed by a non-digit starts with a digit, and its leading digits read as the number. */
  lemma NumeralDigits(n: nat, rest: string)
    requires rest == [] || !IsDigit(rest[0])
    ensures var u := Decimal(n) + rest; u != [] && IsDigit(u[0]) && DigitsValue(DigitPrefix(u)) == n
  {
    DigitPrefixOfNumeral(Decimal(n), rest);
    DecimalValue(n);
    assert (Decimal(n) + rest)[0] == Decimal(n)[0];
  }

  lemma DigitPrefixStarts(t: string)
    requires t != [] && IsDigit(t[0])
    ensures DigitPrefix(t) != []
  {
  }

  /** After the white space, a digit first gives the value of the leading digits. */
  lemma ParseSignedDigitFirst(t: string, v: int)
    requires t != [] && IsDigit(t[0]) && DigitsValue(DigitPrefix(t)) == v
    ensures ParseSigned(t) == Some(v)
  {
    DigitPrefixStarts(t);
  }

  /** A minus sign and then a digit gives the negated value of the digits after the sign. */
  lemma ParseSignedMinusDigit(t: string, v: int)
    requires t != [] && IsDigit(t[0]) && DigitsValue(DigitPrefix(t)) == v
    ensures ParseSigned("-" + t) == Some(-v)
  {
    DigitPrefixStarts(t);
    var m := "-" + t;
    assert m[0] == '-' && m[1..] == t;
  }

  /** Text that starts with a digit is read from its leading digits. */
  lemma ParseIntDigitFirst(t: string, v: int)
    requires t != [] && IsDigit(t[0]) && DigitsValue(DigitPrefix(t)) == v
    ensures ParseInt(t) == Some(v)
  {
    TrimStartNoSpace(t);
    ParseSignedDigitFirst(t, v);
  }

  /** A minus sign before a digit negates the number the digits read as. */
  lemma ParseIntMinusDigit(t: string, v: int)
    requires t != [] && IsDigit(t[0]) && DigitsValue(DigitPrefix(t)) == v
    ensures ParseInt("-" + t) == Some(-v)
  {
    var m := "-" + t;
    assert m[0] == '-';
    TrimStartNoSpace(m);
    ParseSignedMinusDigit(t, v);
  }

  /**
   * `parseInt` reads back every decimal numeral and ignores whatever
   * follows it from the first non-digit on.
   */
  lemma ParseIntNumeral(n: nat, rest: string)
    requires rest == [] || !IsDigit(rest[0])
    ensures ParseInt(Decimal(n) + rest) == Some(n)
  {
    NumeralDigits(n, rest);
    ParseIntDigitFirst(Decimal(n) + rest, n);
  }

  /** The same holds after a minus sign, which negates the number ("-0" is zero). */
  lemma ParseIntNegativeNumeral(n: nat, rest: string)
    requires rest == [] || !IsDigit(rest[0])
    ensures ParseInt("-" + (Decimal(n) + rest)) == Some(-(n as int))
  {
    NumeralDigits(n, rest);
    ParseIntMinusDigit(Decimal(n) + rest, n);
  }

  lemma TrimStartSpace(c: char, s: string)
    requires IsSpace(c)
    ensures TrimStart([c] + s) == TrimStart(s)
  {
    assert ([c] + s)[1..] == s;
  }

  /** Leading white space is skipped. */
  lemma ParseIntSkipsSpace(c: char, s: string)
    requires IsSpace(c)
    ensures ParseInt([c] + s) == ParseInt(s)
  {
    TrimStartSpace(c, s);
  }

  /** Without a digit at the start or after a leading sign there is no number. */
  lemma ParseSignedNaN(t: string)
    requires t == [] || !IsDigit(t[0])
    requires |t| > 1 && (t[0] == '-' || t[0] == '+') ==> !IsDigit(t[1])
    ensures ParseSigned(t) == None
  {
    if t != [] && (t[0] == '-' || t[0] == '+') && |t| > 1 {
      NoDigitPrefix(t[1..]);
    } else if t != [] {
      NoDigitPrefix(t);
    }
  }

  lemma NoDigitPrefix(s: string)
    requires s == [] || !IsDigit(s[0])
    ensures DigitPrefix(s) == []
  {
  }

  /**
   * NaN when, after the white space, there is no digit, either at the
   * start or after a leading sign.
   */
  lemma ParseIntNaN(s: string)
    requires s == [] || !IsSpace(s[0])
    requires s == [] || !IsDigit(s[0])
    requires |s| > 1 && (s[0] == '-' || s[0] == '+') ==> !IsDigit(s[1])
    ensures ParseInt(s) == None
  {
    if s != [] {
      TrimStartNoSpace(s);
    }
    ParseSignedNaN(s);
  }
}
