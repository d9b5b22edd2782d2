/**
 Models of the parts of Go's `strings` package that the handler uses:
 `TrimSpace`, `Join` and `Builder`. Strings are sequences of Unicode code points.
 */
module GoStrings {

  /** Go's `unicode.IsSpace`: the Latin-1 spaces and the other code points
      carrying the Unicode White_Space property. */
  predicate IsSpace(c: char) {
    c in Latin1Spaces || c in OtherSpaces || '\U{2000}' <= c <= '\U{200A}'
  }

  /** The Latin-1 spaces: tab, line feed, vertical tab, form feed, carriage
      return, space, next line and no-break space. */
  const Latin1Spaces: set<char> := {'\t', '\n', '\U{000B}', '\U{000C}', '\r', ' ', '\U{0085}', '\U{00A0}'}

  /** White space above Latin-1 outside the block U+2000..U+200A. */
  const OtherSpaces: set<char> := {'\U{1680}', '\U{2028}', '\U{2029}', '\U{202F}', '\U{205F}', '\U{3000}'}

  /** Every character of `s` is white space (vacuously so for ""). */
  predicate IsBlank(s: string) {
    forall i :: 0 <= i < |s| ==> IsSpace(s[i])
  }

  /** `s` neither starts nor ends with white space. */
  predicate IsTrimmed(s: string) {
    |s| == 0 || (!IsSpace(s[0]) && !IsSpace(s[|s| - 1]))
  }

  /** The index of the first non-space character of `s` at or after `i`
      (or `|s|`): the forward scan of `strings.TrimSpace`. */
  function TrimStart(s: string, i: nat): (start: nat)
    requires i <= |s|
    ensures i <= start <= |s|
    ensures forall k :: i <= k < start ==> IsSpace(s[k])
    ensures start == |s| || !IsSpace(s[start])
    decreases |s| - i
  {
    if i < |s| && IsSpace(s[i]) then TrimStart(s, i + 1) else i
  }

  /** The end of `s[start..stop]` once its trailing white space is dropped:
      the backward scan of `strings.TrimSpace`, which never passes `start`. */
  function TrimStop(s: string, start: nat, stop: nat): (end: nat)
    requires start <= stop <= |s|
    ensures start <= end <= stop
    ensures forall k :: end <= k < stop ==> IsSpace(s[k])
    ensures end == start || !IsSpace(s[end - 1])
    decreases stop - start
  {
    if start < stop && IsSpace(s[stop - 1]) then TrimStop(s, start, stop - 1) else stop
  }

  /** A string is blank exactly when both pieces of any cut of it are. */
  lemma BlankSplit(s: string, k: int)
    requires 0 <= k <= |s|
    ensures IsBlank(s) <==> IsBlank(s[..k]) && IsBlank(s[k..])
  {
    if IsBlank(s[..k]) && IsBlank(s[k..]) {
      forall n | 0 <= n < |s| ensures IsSpace(s[n]) {
        if n < k { assert s[..k][n] == s[n]; } else { assert s[k..][n - k] == s[n]; }
      }
    }
  }

  /** `strings.TrimSpace`: the infix of `s` left once all leading and
      trailing white space is removed. */
  function TrimSpace(s: string): (r: string)
    ensures IsTrimmed(r)
    ensures r == [] <==> IsBlank(s)
  {
    var start := TrimStart(s, 0);
    var stop := TrimStop(s, start, |s|);
    assert stop > start ==> s[start..stop][0] == s[start];
    assert !IsBlank(s) ==> start < |s|;
    s[start..stop]
  }

  /** What `TrimSpace` removes is white space at the two ends and nothing else:
      its result is an infix of `s` with a blank prefix and a blank suffix. */
  lemma TrimSpaceCut(s: string) returns (i: int, j: int)
    ensures 0 <= i <= j <= |s|
    ensures TrimSpace(s) == s[i..j]
    ensures IsBlank(s[..i]) && IsBlank(s[j..])
  {
    i := TrimStart(s, 0);
    j := TrimStop(s, i, |s|);
    assert forall k :: 0 <= k < i ==> s[..i][k] == s[k];
    assert forall k :: 0 <= k < |s| - j ==> s[j..][k] == s[j + k];
  }

  /** Two blank prefixes that each stop at a non-space character are the same. */
  lemma SameStart(s: string, a: int, b: int)
    requires 0 <= a < |s| && 0 <= b < |s|
    requires IsBlank(s[..a]) && !IsSpace(s[a])
    requires IsBlank(s[..b]) && !IsSpace(s[b])
    ensures a == b
  {
  }

  /** Two blank suffixes that each start after a non-space character are the same. */
  lemma SameEnd(s: string, a: int, b: int)
    requires 0 < a <= |s| && 0 < b <= |s|
    requires IsBlank(s[a..]) && !IsSpace(s[a - 1])
    requires IsBlank(s[b..]) && !IsSpace(s[b - 1])
    ensures a == b
  {
  }

  /** There is only one way to cut `s` into blank, trimmed, blank: whichever
      cut is found, `TrimSpace` returns its middle part. */
  lemma TrimSpaceUnique(s: string, i: int, j: int)
    requires 0 <= i <= j <= |s|
    requires IsBlank(s[..i]) && IsBlank(s[j..]) && IsTrimmed(s[i..j])
    ensures TrimSpace(s) == s[i..j]
  {
    var r := TrimSpace(s);
    var i', j' := TrimSpaceCut(s);
    if i == j {
      BlankSplit(s, i);
    } else {
      assert s[i..j][0] == s[i] && s[i..j][j - i - 1] == s[j - 1];
      BlankSplit(s, i);
      assert !IsBlank(s[i..]) by { assert s[i..][0] == s[i]; }
      assert r != [];
      assert r[0] == s[i'] && r[|r| - 1] == s[j' - 1];
      SameStart(s, i, i');
      SameEnd(s, j, j');
    }
  }

  /** Blank padding on either side does not change what `TrimSpace` keeps. */
  lemma TrimSpacePadded(pre: string, s: string, post: string)
    requires IsBlank(pre) && IsBlank(post)
    ensures TrimSpace(pre + s + post) == TrimSpace(s)
  {
    var r := TrimSpace(s);
    var i, j := TrimSpaceCut(s);
    var t := pre + s + post;
    var a, b := |pre| + i, |pre| + j;
    assert t[a..b] == r;
    assert IsBlank(t[..a]) by {
      forall k | 0 <= k < a ensures IsSpace(t[..a][k]) {
        if k < |pre| { assert t[k] == pre[k]; } else { assert t[k] == s[..i][k - |pre|]; }
      }
    }
    assert IsBlank(t[b..]) by {
      forall k | 0 <= k < |t| - b ensures IsSpace(t[b..][k]) {
        if b + k < |pre| + |s| { assert t[b + k] == s[j..][k]; }
        else { assert t[b + k] == post[b + k - |pre| - |s|]; }
      }
    }
    TrimSpaceUnique(t, a, b);
  }

  /** The text of a `strings.Builder` after `WriteString` was called with
      each element of `writes`, in order. The text starts with the first
      string written. */
  function BuilderString(writes: seq<string>): (r: string)
    ensures |writes| > 0 ==> writes[0] <= r
    decreases |writes|
  {
    if |writes| == 0 then ""
    else
      var front := writes[..|writes| - 1];
      assert |front| > 0 ==> front[0] == writes[0];
      BuilderString(front) + writes[|writes| - 1]
  }

  /** `strings.Join`: the parts in order with `sep` between neighbours. */
  function Join(parts: seq<string>, sep: string): (r: string)
    ensures |parts| > 0 ==> parts[0] <= r
    ensures |parts| == 1 ==> r == parts[0]
    ensures |parts| > 1 ==> (parts[0] + sep) <= r
  {
    if |parts| == 0 then ""
    else if |parts| == 1 then parts[0]
    else parts[0] + sep + Join(parts[1..], sep)
  }
}
