/**
 * Decimal text of port numbers: formatting a number as the endpoint URL does, and
 * parsing text as a 16-bit unsigned number as the configuration reader does.
 */
module Decimal {
  import opened Types

  predicate IsDigit(c: char)
  {
    '0' <= c <= '9'
  }

  predicate AllDigits(s: string)
  {
    forall i :: 0 <= i < |s| ==> IsDigit(s[i])
  }

  function DigitValue(c: char): nat
    requires IsDigit(c)
  {
    c as int - '0' as int
  }

  function DigitChar(d: nat): (c: char)
    requires d < 10
    ensures IsDigit(c) && DigitValue(c) == d
  {
    ('0' as int + d) as char
  }

  /** The shortest decimal text of `n`. */
  function Format(n: nat): (s: string)
    ensures |s| > 0 && AllDigits(s)
  {
    if n < 10 then [DigitChar(n)] else Format(n / 10) + [DigitChar(n % 10)]
  }

  /** The number `acc` extended by the digits of `s`, most significant first. */
  function ValueFrom(acc: nat, s: string): nat
    requires AllDigits(s)
    decreases |s|
  {
    if s == [] then acc else ValueFrom(acc * 10 + DigitValue(s[0]), s[1..])
  }

  /**
   * The largest unsigned 16-bit number.
   */
  const U16Max: nat := 0xFFFF

  /** The messages of the three ways integer parsing fails. */
  const EmptyText: string := "cannot parse integer from empty string"
  const InvalidDigit: string := "invalid digit found in string"
  const TooLarge: string := "number too large to fit in target type"

  /**
   * Accumulates the digits of `s` onto `acc`, failing at the first character that is
   * not a digit and at the first step whose value no longer fits in 16 bits.
   */
  function Accumulate(acc: u16, s: string): Result<u16>
    decreases |s|
  {
    if s == [] then Ok(acc)
    else if !IsDigit(s[0]) then Err(InvalidDigit)
    else
      var next := acc * 10 + DigitValue(s[0]);
      if next > U16Max then Err(TooLarge) else Accumulate(next, s[1..])
  }

  /**
   * Parses `s` as an unsigned 16-bit number: an optional `+`, then at least one digit;
   * empty text, a lone sign, a `-`, any other character, or a value above 65535 is
   * refused.
   */
  function ParseU16(s: string): Result<u16>
  {
    if s == [] then Err(EmptyText)
    else if s[0] == '+' then (if |s| == 1 then Err(InvalidDigit) else Accumulate(0, s[1..]))
    else Accumulate(0, s)
  }

  /** The text after an optional leading `+`. */
  function Unsigned(s: string): string
  {
    if |s| > 0 && s[0] == '+' then s[1..] else s
  }

  lemma {:induction false} ValueFromGrows(acc: nat, s: string)
    requires AllDigits(s)
    ensures ValueFrom(acc, s) >= acc
    decreases |s|
  {
    if s != [] {
      ValueFromGrows(acc * 10 + DigitValue(s[0]), s[1..]);
    }
  }

  /**
   * The step-by-step overflow check fails exactly when the final value does not fit:
   * accumulation succeeds iff all characters are digits and the value is at most 65535.
   */
  lemma {:induction false} AccumulateValue(acc: u16, s: string)
    ensures Accumulate(acc, s).Ok? <==> AllDigits(s) && ValueFrom(acc, s) <= U16Max
    ensures Accumulate(acc, s).Ok? ==> Accumulate(acc, s).value == ValueFrom(acc, s)
    decreases |s|
  {
    if s != [] {
      if IsDigit(s[0]) {
        var next := acc * 10 + DigitValue(s[0]);
        if next > U16Max {
          if AllDigits(s) {
            ValueFromGrows(next, s[1..]);
          }
        } else {
          AccumulateValue(next, s[1..]);
          assert AllDigits(s) <==> AllDigits(s[1..]) by {
            if AllDigits(s[1..]) {
              forall i | 0 <= i < |s| ensures IsDigit(s[i]) {
                if i > 0 { assert s[i] == s[1..][i - 1]; }
              }
            }
          }
        }
      } else {
        assert !AllDigits(s);
      }
    }
  }

  /**
   * Port parsing succeeds exactly for an optional `+` followed by one or more digits
   * whose value is at most 65535, and then yields that value.
   */
  lemma ParseU16Accepts(s: string)
    ensures ParseU16(s).Ok? <==> |Unsigned(s)| > 0 && AllDigits(Unsigned(s)) && ValueFrom(0, Unsigned(s)) <= U16Max
    ensures ParseU16(s).Ok? ==> ParseU16(s).value == ValueFrom(0, Unsigned(s))
  {
    if s != [] {
      if s[0] == '+' {
        if |s| > 1 { AccumulateValue(0, s[1..]); }
      } else {
        AccumulateValue(0, s);
      }
    }
  }

  lemma {:induction false} ValueFromAppend(acc: nat, s: string, c: char)
    requires AllDigits(s) && IsDigit(c)
    ensures AllDigits(s + [c])
    ensures ValueFrom(acc, s + [c]) == ValueFrom(acc, s) * 10 + DigitValue(c)
    decreases |s|
  {
    if s != [] {
      assert (s + [c])[1..] == s[1..] + [c];
      ValueFromAppend(acc * 10 + DigitValue(s[0]), s[1..], c);
    } else {
      assert [c][1..] == [];
    }
  }

  /** The decimal text of a number reads back as that number. */
  lemma {:induction false} ValueOfFormat(n: nat)
    ensures ValueFrom(0, Format(n)) == n
  {
    if n < 10 {
      assert [DigitChar(n)][1..] == [];
    } else {
      ValueOfFormat(n / 10);
      ValueFromAppend(0, Format(n / 10), DigitChar(n % 10));
    }
  }

  /** Formatting a 16-bit number and parsing the text gives the number back. */
  lemma FormatParseRoundTrip(p: u16)
    ensures ParseU16(Format(p)) == Ok(p)
  {
    ValueOfFormat(p);
    assert Format(p)[0] != '+';
    ParseU16Accepts(Format(p));
  }

  /** Decimal text never contains a colon. */
  lemma FormatHasNoColon(n: nat)
    ensures ':' !in Format(n)
  {
  }
}
