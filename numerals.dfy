/** The two number/text conversions the obfuscator performs on the amount it
    reads: `parseInt` of the first word, and `toString` of the integer it got. */
module Numerals {
  import opened Wrappers

  predicate IsDigit(c: char) {
    '0' <= c <= '9'
  }

  predicate AllDigits(s: string) {
    forall i :: 0 <= i < |s| ==> IsDigit(s[i])
  }

  function DigitValue(c: char): nat
    requires IsDigit(c)
  {
    c as int - '0' as int
  }

  function DigitChar(d: nat): (c: char)
    requires d < 10
    ensures IsDigit(c) && DigitValue(c) == d
  {
    ('0' as int + d) as char
  }

  /** `n.toString()` for a natural number: its decimal digits, most
      significant first, with no leading zero. */
  function DecimalString(n: nat): (r: string)
    ensures |r| > 0 && AllDigits(r)
    ensures r[0] == '0' ==> n == 0 && r == "0"
    decreases n
  {
    if n < 10 then [DigitChar(n)] else DecimalString(n / 10) + [DigitChar(n % 10)]
  }

  /** The number a string of decimal digits denotes. */
  function DigitsValue(ds: string): nat
    requires AllDigits(ds)
  {
    if ds == [] then 0 else DigitsValue(ds[..|ds| - 1]) * 10 + DigitValue(ds[|ds| - 1])
  }

  /** The longest prefix of `w` made of decimal digits. */
  function LeadingDigits(w: string): (r: string)
    ensures r <= w && AllDigits(r)
    ensures |r| < |w| ==> !IsDigit(w[|r|])
  {
    if w != [] && IsDigit(w[0]) then [w[0]] + LeadingDigits(w[1..]) else ""
  }

  /** `parseInt(w)` for a word that is a run of decimal digits, possibly
      followed by other characters that parsing ignores; None stands for NaN,
      the outcome when `w` does not start with a digit. */
  function ParseInt(w: string): (r: Option<nat>)
    ensures r.None? <==> w == [] || !IsDigit(w[0])
  {
    var ds := LeadingDigits(w);
    if ds == [] then None else Some(DigitsValue(ds))
  }

  /** Reading back the decimal text of `n` gives `n`. */
  lemma {:induction false} DigitsValueOfDecimal(n: nat)
    ensures DigitsValue(DecimalString(n)) == n
    decreases n
  {
    var r := DecimalString(n);
    if n >= 10 {
      DigitsValueOfDecimal(n / 10);
      assert r[..|r| - 1] == DecimalString(n / 10);
    }
  }

  /** The leading digits of a digit run followed by a non-digit are the run. */
  lemma {:induction false} LeadingDigitsOfRun(ds: string, rest: string)
    requires AllDigits(ds)
    requires rest == [] || !IsDigit(rest[0])
    ensures LeadingDigits(ds + rest) == ds
  {
    if ds != [] {
      assert (ds + rest)[1..] == ds[1..] + rest;
      LeadingDigitsOfRun(ds[1..], rest);
    } else {
      assert ds + rest == rest;
    }
  }

  /** `parseInt` undoes `toString` on naturals: the decimal text of `n`,
      followed by anything that does not start with a digit, parses as `n`. */
  lemma ParseDecimal(n: nat, rest: string)
    requires rest == [] || !IsDigit(rest[0])
    ensures ParseInt(DecimalString(n) + rest) == Some(n)
  {
    LeadingDigitsOfRun(DecimalString(n), rest);
    DigitsValueOfDecimal(n);
  }
}
