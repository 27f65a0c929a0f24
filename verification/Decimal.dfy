/** Decimal printing (strconv.FormatUint base 10, fmt %d) and 64-bit parsing (strconv.ParseUint). */
module Decimal {
  import opened Prelude

  predicate IsDigit(c: char) { '0' <= c <= '9' }

  predicate AllDigits(s: string) { forall i :: 0 <= i < |s| ==> IsDigit(s[i]) }

  function Digit(d: nat): (c: char)
    requires d < 10
    ensures IsDigit(c) && DigitValue(c) == d
  {
    '0' + d as char
  }

  function DigitValue(c: char): (d: nat)
    requires IsDigit(c)
    ensures d < 10 && (d == 0 <==> c == '0')
  {
    (c - '0') as nat
  }

  function Print(n: nat): (s: string)
    ensures AllDigits(s) && |s| >= 1
  {
    if n < 10 then [Digit(n)] else Print(n / 10) + [Digit(n % 10)]
  }

  function Value(s: string): nat
    requires AllDigits(s)
  {
    if s == [] then 0 else 10 * Value(s[..|s| - 1]) + DigitValue(s[|s| - 1])
  }

  /** strconv.ParseUint(s, 10, 64): refuses an empty text, a non-digit and a value out of range. */
  function ParseUint64(s: string): Option<nat> {
    if s == [] || !AllDigits(s) || Value(s) >= UINT64_LIMIT then None else Some(Value(s))
  }

  lemma {:induction false} ValueOfPrint(n: nat)
    ensures Value(Print(n)) == n
  {
    if n >= 10 {
      ValueOfPrint(n / 10);
      assert Print(n)[..|Print(n)| - 1] == Print(n / 10);
    }
  }

  /** Printing loses nothing: distinct numbers print differently. */
  lemma PrintInjective(m: nat, n: nat)
    requires Print(m) == Print(n)
    ensures m == n
  {
    ValueOfPrint(m);
    ValueOfPrint(n);
  }

  /** Every uint64 parses back from its printed form. */
  lemma ParsePrint(n: nat)
    requires n < UINT64_LIMIT
    ensures ParseUint64(Print(n)) == Some(n)
  {
    ValueOfPrint(n);
  }

  /** A leading zero changes no value. */
  lemma {:induction false} ValuePadded(s: string)
    requires AllDigits(s)
    ensures AllDigits("0" + s) && Value("0" + s) == Value(s)
  {
    var t := "0" + s;
    if s == [] {
      assert t[..0] == [] && Value(t[..0]) == 0;
    } else {
      ValuePadded(s[..|s| - 1]);
      assert t[..|t| - 1] == "0" + s[..|s| - 1];
    }
  }

  /** A digit string without a superfluous leading zero is the printed form of its value. */
  lemma {:induction false} PrintOfValue(s: string)
    requires AllDigits(s) && s != [] && (|s| == 1 || s[0] != '0')
    ensures Print(Value(s)) == s
    ensures |s| > 1 ==> Value(s) >= 10
  {
    var front := s[..|s| - 1];
    if |s| > 1 {
      PrintOfValue(front);
      if |front| == 1 {
        assert front == [s[0]];
        assert Value(front) == 10 * Value(front[..0]) + DigitValue(s[0]);
      }
      assert Value(front) >= 1;
      assert Value(s) / 10 == Value(front) && Value(s) % 10 == DigitValue(s[|s| - 1]);
      assert Digit(DigitValue(s[|s| - 1])) == s[|s| - 1];
      assert s == front + [s[|s| - 1]];
    } else {
      assert Value(s) == DigitValue(s[0]);
      assert Digit(DigitValue(s[0])) == s[0];
    }
  }
}
