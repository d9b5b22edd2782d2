/**
 An independent reading of SQL text: the ordinals of its PostgreSQL
 positional parameters (`$1`, `$2`, ...), in the order they appear. The
 driver binds the k-th argument to every `$k`, so this is what pairs the
 query text with its argument list.
 */
module Placeholders {
  import opened GoStrings
  import opened GoStrconv

  /** The length of the run of digits at the front of `s`. */
  function DigitRun(s: string): (k: nat)
    ensures k <= |s| && AllDigits(s[..k])
    ensures k == |s| || !IsDigit(s[k])
  {
    if |s| > 0 && IsDigit(s[0]) then 1 + DigitRun(s[1..]) else 0
  }

  predicate NoDollar(s: string) {
    forall i :: 0 <= i < |s| ==> s[i] != '$'
  }

  /** `fmt.Sprintf("$%d", n)`: the text of placeholder `n`, which reads back
      as that placeholder and no other. */
  function Param(n: nat): (r: string)
    ensures |r| > 1 && r[0] == '$'
    ensures Ordinals(r) == [n]
  {
    var digits := FormatNat(n);
    DigitRunAll(digits);
    var r := "$" + digits;
    assert r[1..] == digits;
    assert digits[..|digits|] == digits && digits[|digits|..] == [];
    r
  }

  /** The ordinals of the `$n` placeholders of `s`, left to right. A `$` not
      followed by a digit is not a placeholder. */
  function Ordinals(s: string): seq<nat>
    decreases |s|
  {
    if |s| == 0 then []
    else if s[0] == '$' && |s| > 1 && IsDigit(s[1]) then
      var rest := s[1..];
      var k := DigitRun(rest);
      [DigitsValue(rest[..k])] + Ordinals(rest[k..])
    else Ordinals(s[1..])
  }

  /** Text without a `$` holds no placeholder. */
  lemma {:induction false} OrdinalsNoDollar(s: string)
    requires NoDollar(s)
    ensures Ordinals(s) == []
    decreases |s|
  {
    if |s| > 0 {
      OrdinalsNoDollar(s[1..]);
    }
  }

  /** Appending digits to a string that does not start with a digit leaves
      its leading digit run alone. */
  lemma {:induction false} DigitRunAppend(a: string, b: string)
    requires |b| == 0 || !IsDigit(b[0])
    ensures DigitRun(a + b) == DigitRun(a)
    decreases |a|
  {
    if |a| == 0 {
      assert a + b == b;
    } else if IsDigit(a[0]) {
      assert (a + b)[1..] == a[1..] + b;
      DigitRunAppend(a[1..], b);
    }
  }

  /** Placeholders of a concatenation are those of the parts, in order, as
      long as the second part cannot extend a numeral the first one ends with. */
  lemma {:induction false} OrdinalsAppend(a: string, b: string)
    requires |b| == 0 || !IsDigit(b[0])
    ensures Ordinals(a + b) == Ordinals(a) + Ordinals(b)
    decreases |a|
  {
    var s := a + b;
    if |a| == 0 {
      assert s == b;
    } else if a[0] == '$' && |a| > 1 && IsDigit(a[1]) {
      var rest := a[1..];
      var k := DigitRun(rest);
      assert s[1..] == rest + b;
      DigitRunAppend(rest, b);
      assert (rest + b)[..k] == rest[..k];
      assert (rest + b)[k..] == rest[k..] + b;
      OrdinalsAppend(rest[k..], b);
    } else {
      assert s[0] == a[0] && s[1..] == a[1..] + b;
      OrdinalsAppend(a[1..], b);
    }
  }

  lemma {:induction false} DigitRunAll(s: string)
    requires AllDigits(s)
    ensures DigitRun(s) == |s|
    decreases |s|
  {
    if |s| > 0 { DigitRunAll(s[1..]); }
  }

  /** A clause made of a dollar-free `keyword` and placeholder `n` holds
      exactly that placeholder. */
  lemma OrdinalsOfClause(keyword: string, n: nat)
    requires NoDollar(keyword)
    ensures Ordinals(keyword + Param(n)) == [n]
  {
    OrdinalsAppend(keyword, Param(n));
    OrdinalsNoDollar(keyword);
  }

  /** `ordinals` is `1, 2, ..., n`. */
  predicate NumberedFromOne(ordinals: seq<nat>, n: nat) {
    |ordinals| == n && forall k :: 0 <= k < n ==> ordinals[k] == k + 1
  }

  /** The placeholders of each write, in the order of the writes. */
  function WriteOrdinals(writes: seq<string>): seq<nat> {
    if |writes| == 0 then []
    else WriteOrdinals(writes[..|writes| - 1]) + Ordinals(writes[|writes| - 1])
  }

  /** Reading the builder's text gives the placeholders of the writes one
      after another, as long as no write starts with a digit (which could
      lengthen a numeral the text before it ends with). */
  lemma {:induction false} OrdinalsOfBuilder(writes: seq<string>)
    requires forall k :: 0 <= k < |writes| ==> |writes[k]| == 0 || !IsDigit(writes[k][0])
    ensures Ordinals(BuilderString(writes)) == WriteOrdinals(writes)
    decreases |writes|
  {
    if |writes| > 0 {
      var front := writes[..|writes| - 1];
      OrdinalsOfBuilder(front);
      OrdinalsAppend(BuilderString(front), writes[|writes| - 1]);
    }
  }
}
