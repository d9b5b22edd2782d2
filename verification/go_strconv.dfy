/**
 Models of the integer conversions the handler relies on: `strconv.Atoi`
 (text to a 64-bit `int`) and the `%d` verb of `fmt.Sprintf` on a
 non-negative `int` (used to print placeholder ordinals).
 */
module GoStrconv {
  import opened Wrappers

  /** The range of Go's `int` on a 64-bit platform. */
  const MinInt64: int := -0x8000_0000_0000_0000
  const MaxInt64: int := 0x7FFF_FFFF_FFFF_FFFF

  predicate IsDigit(c: char) {
    '0' <= c <= '9'
  }

  predicate AllDigits(s: string) {
    forall i :: 0 <= i < |s| ==> IsDigit(s[i])
  }

  predicate IsSign(c: char) {
    c == '+' || c == '-'
  }

  /** The syntax `Atoi` accepts: an optional sign, then at least one ASCII
      decimal digit, and nothing else (no spaces, underscores or base prefix). */
  predicate IsDecimal(s: string) {
    && |s| > 0
    && IsDigit(s[|s| - 1])
    && forall i :: 0 <= i < |s| ==> IsDigit(s[i]) || (i == 0 && IsSign(s[i]))
  }

  function DigitValue(c: char): (d: nat)
    requires IsDigit(c)
    ensures d < 10
  {
    c as int - '0' as int
  }

  function DigitChar(d: nat): (c: char)
    requires d < 10
    ensures IsDigit(c) && DigitValue(c) == d
  {
    (d + '0' as int) as char
  }

  function Pow10(n: nat): (p: nat)
    ensures p >= 1
  {
    if n == 0 then 1 else 10 * Pow10(n - 1)
  }

  /** The number a run of decimal digits denotes, most significant first.
      It is bounded by the run's length. */
  function DigitsValue(s: string): (v: nat)
    requires AllDigits(s)
    ensures v < Pow10(|s|)
  {
    if |s| == 0 then 0
    else
      var prefix := DigitsValue(s[..|s| - 1]);
      assert prefix * 10 <= (Pow10(|s| - 1) - 1) * 10;
      prefix * 10 + DigitValue(s[|s| - 1])
  }

  /** `fmt.Sprintf("%d", n)` for `n >= 0`: the shortest decimal numeral for
      `n`, which reads back as `n`. */
  function FormatNat(n: nat): (r: string)
    ensures |r| > 0 && AllDigits(r)
    ensures |r| > 1 ==> r[0] != '0'
    ensures DigitsValue(r) == n
  {
    if n < 10 then [DigitChar(n)]
    else
      var high := FormatNat(n / 10);
      var r := high + [DigitChar(n % 10)];
      assert r[..|r| - 1] == high;
      assert |high| == 1 ==> DigitValue(high[0]) == n / 10;
      r
  }

  /** `strconv.Atoi` on a 64-bit platform: `None` stands for every error it
      reports, the syntax errors and the range errors alike. */
  function Atoi(s: string): (r: Option<int>)
    ensures r.Some? ==> IsDecimal(s)
    ensures r.Some? ==> MinInt64 <= r.value <= MaxInt64
  {
    if |s| == 0 then None
    else
      var digits := if IsSign(s[0]) then s[1..] else s;
      if |digits| == 0 || !AllDigits(digits) then None
      else
        var magnitude: int := DigitsValue(digits);
        var v := if s[0] == '-' then -magnitude else magnitude;
        if MinInt64 <= v <= MaxInt64 then Some(v) else None
  }

  /** Printing a non-negative number and parsing it back gives the same
      value exactly when it fits in an `int`; beyond that `Atoi` fails. */
  lemma AtoiFormatNat(n: nat)
    ensures Atoi(FormatNat(n)) == if n <= MaxInt64 then Some(n) else None
  {
    var s := FormatNat(n);
    assert !IsSign(s[0]);
  }

  /** A minus sign in front of a numeral negates it, down to the most
      negative `int`; beyond that `Atoi` fails. */
  lemma AtoiNegated(n: nat)
    ensures Atoi("-" + FormatNat(n)) == if n <= -MinInt64 then Some(-(n as int)) else None
  {
    var s := "-" + FormatNat(n);
    assert s[1..] == FormatNat(n);
  }

  /** `z` copies of the digit zero. */
  function Zeros(z: nat): (r: string)
    ensures |r| == z && AllDigits(r)
  {
    if z == 0 then "" else Zeros(z - 1) + "0"
  }

  /** Two digit runs side by side form a digit run. */
  lemma AllDigitsAppend(a: string, b: string)
    requires AllDigits(a) && AllDigits(b)
    ensures AllDigits(a + b)
  {
    var s := a + b;
    forall i | 0 <= i < |s| ensures IsDigit(s[i]) {
      if i < |a| { assert s[i] == a[i]; } else { assert s[i] == b[i - |a|]; }
    }
  }

  /** The value of a digit run splits at any cut: the digits before the cut
      are shifted left by the length of the rest. */
  lemma {:induction false} DigitsValueAppend(a: string, b: string)
    requires AllDigits(a) && AllDigits(b)
    ensures AllDigits(a + b)
    ensures DigitsValue(a + b) == DigitsValue(a) * Pow10(|b|) + DigitsValue(b)
    decreases |b|
  {
    AllDigitsAppend(a, b);
    var s := a + b;
    if |b| == 0 {
      assert s == a;
    } else {
      var front := b[..|b| - 1];
      assert s[..|s| - 1] == a + front;
      assert s[|s| - 1] == b[|b| - 1];
      DigitsValueAppend(a, front);
      ShiftDigit(DigitsValue(a), Pow10(|front|), DigitsValue(front), DigitValue(b[|b| - 1]));
    }
  }

  /** Appending a digit `d` to a run worth `va * p + vf` multiplies both
      parts by ten. */
  lemma ShiftDigit(va: int, p: int, vf: int, d: int)
    ensures (va * p + vf) * 10 + d == va * (p * 10) + (vf * 10 + d)
  {
  }

  /** Leading zeros add nothing to a digit run's value. */
  lemma {:induction false} ZerosValue(z: nat)
    ensures DigitsValue(Zeros(z)) == 0
    decreases z
  {
    if z > 0 {
      var front := Zeros(z - 1);
      ZerosValue(z - 1);
      DigitsValueAppend(front, "0");
      assert DigitsValue(front) * Pow10(1) == 0 * Pow10(1) == 0;
    }
  }

  /** The digits after an optional sign: zeros, then the numeral of `n`. */
  lemma PaddedValue(z: nat, n: nat)
    ensures AllDigits(Zeros(z) + FormatNat(n))
    ensures DigitsValue(Zeros(z) + FormatNat(n)) == n
  {
    var zeros, digits := Zeros(z), FormatNat(n);
    DigitsValueAppend(zeros, digits);
    ZerosValue(z);
    var p := Pow10(|digits|);
    assert DigitsValue(zeros) * p == 0 * p == 0;
  }

  /** Unsigned text with leading zeros parses to its value within `int` range. */
  lemma AtoiUnsigned(z: nat, n: nat)
    ensures Atoi(Zeros(z) + FormatNat(n)) == if n <= MaxInt64 then Some(n) else None
  {
    var s := Zeros(z) + FormatNat(n);
    PaddedValue(z, n);
    assert !IsSign(s[0]);
  }

  /** A plus sign changes nothing: the text parses to its value within `int`
      range. */
  lemma AtoiPlus(z: nat, n: nat)
    ensures Atoi("+" + Zeros(z) + FormatNat(n)) == if n <= MaxInt64 then Some(n) else None
  {
    var zeros, numeral := Zeros(z), FormatNat(n);
    var digits := zeros + numeral;
    assert "+" + zeros + numeral == "+" + digits;
    assert ("+" + digits)[1..] == digits;
    PaddedValue(z, n);
  }

  /** A minus sign before a digit run negates its value, down to the least
      `int`. */
  lemma AtoiNegative(digits: string, v: nat)
    requires |digits| > 0 && AllDigits(digits) && DigitsValue(digits) == v
    ensures Atoi("-" + digits) == if v <= -MinInt64 then Some(-(v as int)) else None
  {
    var s := "-" + digits;
    assert s[0] == '-' && s[1..] == digits;
  }

  /** A minus sign negates the value, down to the least `int`. */
  lemma AtoiMinus(z: nat, n: nat)
    ensures Atoi("-" + Zeros(z) + FormatNat(n)) == if n <= -MinInt64 then Some(-(n as int)) else None
  {
    var zeros, numeral := Zeros(z), FormatNat(n);
    var digits := zeros + numeral;
    assert "-" + zeros + numeral == "-" + digits;
    PaddedValue(z, n);
    AtoiNegative(digits, n);
  }

  /** Every decimal text `Atoi` can meet, whatever its sign and leading
      zeros: it parses to its signed value when that fits in an `int`, and
      fails otherwise. */
  lemma AtoiDecimal(sign: string, z: nat, n: nat)
    requires sign == "" || sign == "+" || sign == "-"
    ensures Atoi(sign + Zeros(z) + FormatNat(n))
            == if sign == "-" then (if n <= -MinInt64 then Some(-(n as int)) else None)
               else (if n <= MaxInt64 then Some(n) else None)
  {
    if sign == "" {
      var zeros, numeral := Zeros(z), FormatNat(n);
      assert sign + zeros + numeral == zeros + numeral;
      AtoiUnsigned(z, n);
    } else if sign == "+" {
      AtoiPlus(z, n);
    } else {
      AtoiMinus(z, n);
    }
  }

  /** A digit run that does not start with `0` denotes a positive number. */
  lemma {:induction false} LeadingNonZero(t: string)
    requires |t| > 0 && AllDigits(t) && t[0] != '0'
    ensures DigitsValue(t) >= 1
    decreases |t|
  {
    if |t| > 1 {
      var front := t[..|t| - 1];
      assert front[0] == t[0];
      LeadingNonZero(front);
    }
  }

  /** A numeral without a superfluous leading zero is exactly what `%d`
      prints for the number it denotes. */
  lemma {:induction false} FormatNatOfCanonical(t: string)
    requires |t| > 0 && AllDigits(t) && (|t| > 1 ==> t[0] != '0')
    ensures FormatNat(DigitsValue(t)) == t
    decreases |t|
  {
    var last := t[|t| - 1];
    if |t| == 1 {
      assert DigitChar(DigitValue(last)) == last;
      assert t == [last];
    } else {
      var front := t[..|t| - 1];
      assert front[0] == t[0];
      FormatNatOfCanonical(front);
      LeadingNonZero(front);
      var v, d := DigitsValue(front), DigitValue(last);
      assert DigitsValue(t) == v * 10 + d;
      assert (v * 10 + d) / 10 == v && (v * 10 + d) % 10 == d;
      assert DigitChar(d) == last;
      assert t == front + [last];
    }
  }

  /** A leading zero followed by `z` zeros is `z + 1` zeros. */
  lemma {:induction false} ZerosFront(z: nat)
    ensures "0" + Zeros(z) == Zeros(z + 1)
    decreases z
  {
    if z > 0 {
      ZerosFront(z - 1);
      assert "0" + Zeros(z) == ("0" + Zeros(z - 1)) + "0";
    }
  }

  /** Every digit run is some leading zeros followed by a numeral as `%d`
      would print it. */
  lemma {:induction false} SplitZeros(digits: string) returns (z: nat, t: string)
    requires |digits| > 0 && AllDigits(digits)
    ensures digits == Zeros(z) + t
    ensures |t| > 0 && AllDigits(t) && (|t| > 1 ==> t[0] != '0')
    decreases |digits|
  {
    if |digits| > 1 && digits[0] == '0' {
      var z';
      z', t := SplitZeros(digits[1..]);
      z := z' + 1;
      ZerosFront(z');
      calc {
        digits;
        "0" + digits[1..];
        "0" + (Zeros(z') + t);
        ("0" + Zeros(z')) + t;
      }
    } else {
      z, t := 0, digits;
      assert Zeros(0) + digits == digits;
    }
  }

  /** Every text `Atoi` accepts the syntax of is an optional sign, some
      leading zeros and a numeral, so `AtoiDecimal` covers all of them. */
  lemma DecimalForm(s: string) returns (sign: string, z: nat, n: nat)
    requires IsDecimal(s)
    ensures sign == "" || sign == "+" || sign == "-"
    ensures s == sign + Zeros(z) + FormatNat(n)
  {
    sign := if IsSign(s[0]) then s[..1] else "";
    var digits := s[|sign|..];
    assert s == sign + digits;
    assert |digits| > 0 by {
      if IsSign(s[0]) { assert |s| > 1 by { assert !IsDigit(s[0]); } }
    }
    assert AllDigits(digits) by {
      forall i | 0 <= i < |digits| ensures IsDigit(digits[i]) {
        assert digits[i] == s[i + |sign|];
      }
    }
    var t;
    z, t := SplitZeros(digits);
    n := DigitsValue(t);
    FormatNatOfCanonical(t);
    assert sign + Zeros(z) + t == sign + (Zeros(z) + t);
  }
}
