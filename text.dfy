/**
 * Decimal text of integers, as produced by Python's f-string formatting of
 * an `int`, and the reading of a digit string back into a number, as done
 * by `int(...)` on the dropdown's option strings.
 */
module Text {

  datatype Option<+T> = None | Some(value: T)

  predicate IsDigit(c: char) {
    '0' <= c <= '9'
  }

  predicate AllDigits(s: string) {
    forall i :: 0 <= i < |s| ==> IsDigit(s[i])
  }

  function DigitChar(d: nat): (c: char)
    requires d < 10
    ensures IsDigit(c) && (c as int) - ('0' as int) == d
  {
    ('0' as int + d) as char
  }

  /** The decimal digits of `n`, most significant first, with no leading zero. */
  function Decimal(n: nat): (s: string)
    ensures |s| > 0 && AllDigits(s)
    ensures |s| > 1 ==> s[0] != '0'
    decreases n
  {
    if n < 10 then [DigitChar(n)] else Decimal(n / 10) + [DigitChar(n % 10)]
  }

  /** The number a string of decimal digits denotes. */
  function DigitsValue(s: string): nat
    requires AllDigits(s)
  {
    if |s| == 0 then 0
    else DigitsValue(s[..|s| - 1]) * 10 + ((s[|s| - 1] as int) - ('0' as int))
  }

  /** `int(s)` restricted to plain digit strings; `None` stands for the ValueError. */
  function ParseDecimal(s: string): (r: Option<nat>)
    ensures r.Some? <==> |s| > 0 && AllDigits(s)
  {
    if |s| > 0 && AllDigits(s) then Some(DigitsValue(s)) else None
  }

  /** f"{i}" for a Python `int`: a minus sign in front of negative numbers. */
  function IntToText(i: int): (s: string)
    ensures |s| > 0 && (s[0] == '-' <==> i < 0)
    ensures ParseDecimal(if i < 0 then s[1..] else s) == Some(if i < 0 then -i else i)
    ensures var t := if i < 0 then s[1..] else s; |t| > 1 ==> t[0] != '0'
  {
    var t := if i < 0 then "-" + Decimal(-i) else Decimal(i);
    ParseDecimalOfDecimal(if i < 0 then -i else i);
    assert i < 0 ==> t[1..] == Decimal(-i);
    t
  }

  /** Reading back the decimal text of a number gives that number. */
  lemma {:induction false} ParseDecimalOfDecimal(n: nat)
    ensures ParseDecimal(Decimal(n)) == Some(n)
    decreases n
  {
    DigitsValueOfDecimal(n);
  }

  lemma {:induction false} DigitsValueOfDecimal(n: nat)
    ensures DigitsValue(Decimal(n)) == n
    decreases n
  {
    var s := Decimal(n);
    if n < 10 {
      assert s[..0] == [];
    } else {
      DigitsValueOfDecimal(n / 10);
      assert s[..|s| - 1] == Decimal(n / 10);
    }
  }

  /** The decimal text determines the number: `Decimal` never maps two numbers to one string. */
  lemma DecimalInjective(m: nat, n: nat)
    ensures Decimal(m) == Decimal(n) <==> m == n
  {
    if Decimal(m) == Decimal(n) {
      DigitsValueOfDecimal(m);
      DigitsValueOfDecimal(n);
    }
  }

  /** The quantified form of the round trip, for use inside function bodies. */
  lemma ParseInvertsDecimal()
    ensures forall n: nat {:trigger Decimal(n)} :: ParseDecimal(Decimal(n)) == Some(n)
  {
    forall n: nat ensures ParseDecimal(Decimal(n)) == Some(n) {
      ParseDecimalOfDecimal(n);
    }
  }
}
