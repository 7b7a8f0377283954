/**
 * Column references of the product-list upload: A1-style column names
 * (the spreadsheet library's `decode_col` and `encode_col`), and how the
 * upload handler chooses between a column name and a number.
 */
module ColumnRef {
  import opened Wrappers
  import opened Text
  import opened IntParse

  /** The pattern `/^[A-Za-z]+$/`. */
  predicate AllLetters(s: string)
  {
    |s| > 0 && forall i :: 0 <= i < |s| ==> IsAsciiLetter(s[i])
  }

  predicate AllUpper(s: string)
  {
    forall i :: 0 <= i < |s| ==> IsUpper(s[i])
  }

  /** Bijective base 26, read left to right: each letter adds its code minus 64 (A = 1). */
  function ColumnNumber(name: string): int
    decreases |name|
  {
    if name == [] then 0
    else 26 * ColumnNumber(name[..|name| - 1]) + (name[|name| - 1] as int - 64)
  }

  /** `decode_col`: the zero-based index of an upper-case column name. */
  function DecodeCol(name: string): int
  {
    ColumnNumber(name) - 1
  }

  /** `encode_col`: the column name of a zero-based index (0 is A, 25 is Z, 26 is AA). */
  function ColumnName(index: nat): (r: string)
    ensures |r| > 0 && AllUpper(r)
    decreases index
  {
    (if index / 26 == 0 then [] else ColumnName(index / 26 - 1)) + [(65 + index % 26) as char]
  }

  /** Decoding the name of a column gives its index back. */
  lemma {:induction false} DecodeColumnName(index: nat)
    ensures DecodeCol(ColumnName(index)) == index
    decreases index
  {
    var q, r := index / 26, index % 26;
    var prefix: string := if q == 0 then [] else ColumnName(q - 1);
    var last := (65 + r) as char;
    var name := ColumnName(index);
    assert name == prefix + [last];
    assert name[..|name| - 1] == prefix && name[|name| - 1] == last;
    if q == 0 {
      assert ColumnNumber(prefix) == 0;
    } else {
      DecodeColumnName(q - 1);
      assert ColumnNumber(prefix) == q;
    }
    assert ColumnNumber(name) == 26 * ColumnNumber(prefix) + r + 1;
  }

  lemma {:induction false} ColumnNumberPositive(name: string)
    requires AllUpper(name)
    ensures name == [] <==> ColumnNumber(name) == 0
    ensures ColumnNumber(name) >= 0
    decreases |name|
  {
    if name != [] {
      ColumnNumberPositive(name[..|name| - 1]);
    }
  }

  /** Every non-empty upper-case name is the name of the column it decodes to. */
  lemma {:induction false} ColumnNameOfDecoded(name: string)
    requires |name| > 0 && AllUpper(name)
    ensures DecodeCol(name) >= 0 && ColumnName(DecodeCol(name)) == name
    decreases |name|
  {
    var prefix, last := name[..|name| - 1], name[|name| - 1];
    ColumnNumberPositive(prefix);
    var p := ColumnNumber(prefix);
    var index := DecodeCol(name);
    assert index == 26 * p + (last as int - 65);
    assert index / 26 == p && index % 26 == last as int - 65;
    if prefix != [] {
      ColumnNameOfDecoded(prefix);
    }
    assert name == prefix + [last];
  }

  lemma DecodeExamples()
    ensures DecodeCol("A") == 0 && DecodeCol("Z") == 25 && DecodeCol("AA") == 26
    ensures DecodeCol("AZ") == 51 && DecodeCol("BA") == 52
  {
  }

  /**
   * The column index the upload handler resolves `columnRef` to, or `None`
   * for "Invalid column reference". An all-letter reference, in either
   * case, names a column; any other is read by `parseInt` and must not be
   * NaN or negative.
   */
  function ColumnIndex(columnRef: string): (r: Option<nat>)
    ensures AllLetters(columnRef) ==> r.Some? && ColumnName(r.value) == ToUpper(columnRef)
    ensures !AllLetters(columnRef) ==>
              (r.Some? <==> ParseInt(columnRef).Some? && ParseInt(columnRef).value >= 0)
    ensures !AllLetters(columnRef) && r.Some? ==> ParseInt(columnRef) == Some(r.value as int)
  {
    if AllLetters(columnRef) then
      var upper := ToUpper(columnRef);
      ColumnNameOfDecoded(upper);
      Some(DecodeCol(upper))
    else
      match ParseInt(columnRef)
      case Some(n) => if n >= 0 then Some(n) else None
      case None => None
  }

  /** Lower-case letters name the same column as upper-case ones. */
  lemma ColumnIndexIgnoresCase(columnRef: string)
    requires AllLetters(columnRef)
    ensures AllLetters(ToUpper(columnRef))
    ensures ColumnIndex(columnRef) == ColumnIndex(ToUpper(columnRef))
  {
    var upper := ToUpper(columnRef);
    assert forall i :: 0 <= i < |upper| ==> IsAsciiLetter(upper[i]);
    assert ToUpper(upper) == upper;
  }

  lemma ColumnIndexLetters()
    ensures ColumnIndex("aB") == Some(27)
  {
    assert AllLetters("aB") && ToUpper("aB") == "AB";
  }

  /** A reference that is not all letters resolves to what `parseInt` reads, when that is not negative. */
  lemma ColumnIndexNumeric(columnRef: string, n: int)
    requires !AllLetters(columnRef) && ParseInt(columnRef) == Some(n)
    ensures ColumnIndex(columnRef) == if n >= 0 then Some(n as nat) else None
  {
  }

  lemma NotAllLetters(columnRef: string)
    requires columnRef != [] && !IsAsciiLetter(columnRef[0])
    ensures !AllLetters(columnRef)
  {
  }

  /** A numeral, whatever non-digit text follows it, is a zero-based column index. */
  lemma ColumnIndexOfNumeral(n: nat, rest: string)
    requires rest == [] || !IsDigit(rest[0])
    ensures ColumnIndex(Decimal(n) + rest) == Some(n)
  {
    var columnRef := Decimal(n) + rest;
    assert !AllLetters(columnRef) by {
      NumeralDigits(n, rest);
      NotAllLetters(columnRef);
    }
    assert ParseInt(columnRef) == Some(n as int) by {
      ParseIntNumeral(n, rest);
    }
    ColumnIndexNumeric(columnRef, n);
  }

  /** A negative numeral is refused. */
  lemma ColumnIndexOfNegative(n: nat, rest: string)
    requires n > 0
    requires rest == [] || !IsDigit(rest[0])
    ensures ColumnIndex("-" + (Decimal(n) + rest)) == None
  {
    var columnRef := "-" + (Decimal(n) + rest);
    assert !AllLetters(columnRef) by {
      assert columnRef[0] == '-';
      NotAllLetters(columnRef);
    }
    assert ParseInt(columnRef) == Some(-(n as int)) by {
      ParseIntNegativeNumeral(n, rest);
    }
    ColumnIndexNumeric(columnRef, -(n as int));
  }

  /** A reference that starts with a letter but is not all letters is NaN, so it is refused. */
  lemma ColumnIndexOfMixed(columnRef: string)
    requires |columnRef| > 0 && IsAsciiLetter(columnRef[0]) && !AllLetters(columnRef)
    ensures ColumnIndex(columnRef) == None
  {
    ParseIntNaN(columnRef);
  }
}
