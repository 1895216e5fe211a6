/** Decimal text of numbers, as JavaScript prints them: integers below 10^21
    in magnitude (larger ones would switch to exponent notation, which is not
    modelled), and two-decimal fixed notation. `ParseNat` reads digits back and
    is the inverse used to state what the text means. */
module NumberText {
  import opened JsNumber
  import opened JsString

  predicate IsDigit(c: char) {
    '0' <= c <= '9'
  }

  predicate AllDigits(s: string) {
    forall k :: 0 <= k < |s| ==> IsDigit(s[k])
  }

  /** Digits without a superfluous leading zero. */
  predicate Canonical(s: string) {
    |s| >= 1 && AllDigits(s) && (s[0] == '0' ==> |s| == 1)
  }

  function DigitChar(d: nat): (c: char)
    requires d < 10
    ensures IsDigit(c)
  {
    ('0' as int + d) as char
  }

  function DigitValue(c: char): (d: nat)
    requires IsDigit(c)
    ensures d < 10
  {
    c as int - '0' as int
  }

  /** Value of a string of decimal digits (the empty string reads as 0). */
  function ParseNat(s: string): nat
    requires AllDigits(s)
  {
    if |s| == 0 then 0 else ParseNat(s[..|s| - 1]) * 10 + DigitValue(s[|s| - 1])
  }

  /** Decimal text of a natural number. */
  function NatToString(n: nat): (r: string)
    ensures Canonical(r)
  {
    if n < 10 then [DigitChar(n)]
    else
      var r := NatToString(n / 10) + [DigitChar(n % 10)];
      assert r[0] == NatToString(n / 10)[0];
      r
  }

  /** Decimal text of an integer, with a leading minus sign when negative. */
  function IntToString(i: int): string
  {
    if i < 0 then "-" + NatToString(-i) else NatToString(i)
  }

  /** Reading the printed digits gives the number back. */
  lemma {:induction false} ParseNatToString(n: nat)
    ensures ParseNat(NatToString(n)) == n
    decreases n
  {
    var s := NatToString(n);
    if n < 10 {
      assert s[..0] == [];
    } else {
      assert s[..|s| - 1] == NatToString(n / 10);
      ParseNatToString(n / 10);
    }
  }

  lemma {:induction false} ParseNatPositive(s: string)
    requires AllDigits(s) && |s| >= 1 && s[0] != '0'
    ensures ParseNat(s) >= 1
    decreases |s|
  {
    if |s| > 1 {
      ParseNatPositive(s[..|s| - 1]);
    }
  }

  /** Printing the value of canonical digits gives the same digits back. */
  lemma {:induction false} NatToStringParse(s: string)
    requires Canonical(s)
    ensures NatToString(ParseNat(s)) == s
    decreases |s|
  {
    var last := s[|s| - 1];
    assert DigitChar(DigitValue(last)) == last;
    if |s| == 1 {
      assert s[..0] == [];
    } else {
      var init := s[..|s| - 1];
      assert init[0] == s[0];
      ParseNatPositive(init);
      NatToStringParse(init);
      assert s == init + [last];
    }
  }

  lemma {:induction false} ParseNatZeros(k: nat)
    ensures ParseNat(Chars('0', k)) == 0
  {
    if k > 0 {
      assert Chars('0', k)[..k - 1] == Chars('0', k - 1);
      ParseNatZeros(k - 1);
    }
  }

  /** Leading zeros do not change the value. */
  lemma {:induction false} ParseNatPadded(k: nat, s: string)
    requires AllDigits(s)
    ensures ParseNat(Chars('0', k) + s) == ParseNat(s)
    decreases |s|
  {
    var z := Chars('0', k);
    if |s| == 0 {
      assert z + s == z;
      ParseNatZeros(k);
    } else {
      assert (z + s)[..|z + s| - 1] == z + s[..|s| - 1];
      ParseNatPadded(k, s[..|s| - 1]);
    }
  }

  const FixedLimit: real := 1000000000000000000000.0

  /** The integer `n` for which `n / 100 - x` is as close to zero as possible,
      the larger one on a tie. */
  function RoundHundredths(x: real): (n: nat)
    requires x >= 0.0
    ensures n as real - 0.5 <= x * 100.0 < n as real + 0.5
  {
    (x * 100.0 + 0.5).Floor
  }

  /** The toFixed rounding rule: no integer is nearer to `100 x`, and on a
      tie the larger one is chosen. */
  lemma RoundHundredthsNearest(x: real, m: int)
    requires x >= 0.0
    ensures var n := RoundHundredths(x) as real;
            var y := x * 100.0;
            Abs(n - y) <= Abs(m as real - y) && (Abs(n - y) == Abs(m as real - y) ==> m as real <= n)
  {
    var k := RoundHundredths(x);
    var y := x * 100.0;
    assert Abs(k as real - y) <= 0.5;
    if m < k {
      assert m as real <= k as real - 1.0;
      assert Abs(m as real - y) >= 0.5;
    } else if m > k {
      assert m as real >= k as real + 1.0;
      assert Abs(m as real - y) > 0.5;
    }
  }

  function Abs(v: real): real {
    if v < 0.0 then -v else v
  }

  /** Digits of `n` hundredths with a decimal point before the last two, padded
      with zeros so that there is at least one integer digit. */
  function FixedDigits(n: nat): string
  {
    var m := NatToString(n);
    var padded := if |m| <= 2 then Chars('0', 3 - |m|) + m else m;
    padded[..|padded| - 2] + "." + padded[|padded| - 2..]
  }

  /** Two-decimal fixed notation of a finite `x` below 10^21 in magnitude. */
  function ToFixed2(x: real): string
    requires -FixedLimit < x < FixedLimit
  {
    if x < 0.0 then "-" + FixedDigits(RoundHundredths(-x)) else FixedDigits(RoundHundredths(x))
  }

  /** Two-decimal fixed notation of any number value the scripts can format. */
  function NumToFixed2(x: Num): string
    requires x.Finite? ==> -FixedLimit < x.v < FixedLimit
  {
    match x
    case Finite(v) => ToFixed2(v)
    case NaN => "NaN"
    case PosInf => "Infinity"
    case NegInf => "-Infinity"
  }

  /** The text of `FixedDigits(n)`: canonical integer digits, a point, exactly
      two fraction digits, and all digits together read back as `n`. */
  lemma FixedDigitsSpec(n: nat)
    ensures var r := FixedDigits(n);
            |r| >= 4 && r[|r| - 3] == '.' &&
            Canonical(r[..|r| - 3]) && AllDigits(r[|r| - 2..]) && |r[|r| - 2..]| == 2 &&
            ParseNat(r[..|r| - 3] + r[|r| - 2..]) == n
  {
    var m := NatToString(n);
    var padded := if |m| <= 2 then Chars('0', 3 - |m|) + m else m;
    var r := FixedDigits(n);
    assert r[..|r| - 3] == padded[..|padded| - 2];
    assert r[|r| - 2..] == padded[|padded| - 2..];
    assert r[..|r| - 3] + r[|r| - 2..] == padded;
    ParseNatToString(n);
    if |m| <= 2 {
      ParseNatPadded(3 - |m|, m);
      assert padded[..|padded| - 2] == "0";
    } else {
      assert padded[..|padded| - 2][0] == m[0];
    }
  }

  /** `toFixed(2)` writes a minus sign exactly for negative inputs, then the
      nearest number of hundredths of the magnitude, with two decimals. */
  lemma {:induction false} ToFixed2Spec(x: real)
    requires -FixedLimit < x < FixedLimit
    ensures var r := ToFixed2(x);
            var sign := if x < 0.0 then 1 else 0;
            var body := r[sign..];
            var n := RoundHundredths(Abs(x));
            |r| >= sign + 4 && (x < 0.0 <==> r[0] == '-') &&
            body[|body| - 3] == '.' && Canonical(body[..|body| - 3]) &&
            AllDigits(body[|body| - 2..]) && |body[|body| - 2..]| == 2 &&
            ParseNat(body[..|body| - 3] + body[|body| - 2..]) == n &&
            n as real - 0.5 <= Abs(x) * 100.0 < n as real + 0.5
  {
    var n := RoundHundredths(Abs(x));
    FixedDigitsSpec(n);
    var d := FixedDigits(n);
    if x < 0.0 {
      assert ToFixed2(x)[1..] == d;
    } else {
      assert ToFixed2(x)[0..] == d;
      assert d[0] != '-';
    }
  }

  /** A full progress reading prints as `100.00`. */
  lemma ToFixed2Hundred()
    ensures ToFixed2(100.0) == "100.00"
  {
    assert RoundHundredths(100.0) == 10000;
    assert NatToString(10) == "10";
    assert NatToString(100) == "100";
    assert NatToString(1000) == "1000";
    assert NatToString(10000) == "10000";
  }
}
