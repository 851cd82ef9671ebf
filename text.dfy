/**
 * String helpers the source relies on through JavaScript built-ins:
 * `Array.prototype.join`, `String.prototype.indexOf`, and the decimal
 * rendering of a number inside a template string.
 */
module Text {
  import opened Wrappers

  predicate HasPrefix(s: string, prefix: string)
  {
    |prefix| <= |s| && s[..|prefix|] == prefix
  }

  /** `sep` occurs in `s` starting at position `j`. */
  predicate OccursAt(s: string, sep: string, j: nat)
  {
    j + |sep| <= |s| && s[j..j + |sep|] == sep
  }

  /** The position of the first occurrence of `sep` in `s`, as `s.indexOf(sep)` (None for -1). */
  function IndexOf(s: string, sep: string): (k: Option<nat>)
    requires |sep| > 0
    ensures k.Some? ==> OccursAt(s, sep, k.value)
    ensures k.Some? ==> forall j: nat :: j < k.value ==> !OccursAt(s, sep, j)
    ensures k.None? ==> forall j: nat :: !OccursAt(s, sep, j)
    decreases |s|
  {
    if |s| < |sep| then None
    else if s[..|sep|] == sep then Some(0)
    else
      var k := IndexOf(s[1..], sep);
      assert forall j: nat :: 1 <= j ==> (OccursAt(s, sep, j) <==> OccursAt(s[1..], sep, j - 1));
      if k.None? then None else Some(k.value + 1)
  }

  /** When the first character of `sep` does not occur in `x`, the first `sep` in `x + sep + rest` follows `x`. */
  lemma IndexOfAfter(x: string, sep: string, rest: string)
    requires |sep| > 0 && sep[0] !in x
    ensures IndexOf(x + sep + rest, sep) == Some(|x|)
  {
    var s := x + sep + rest;
    assert OccursAt(s, sep, |x|);
    assert forall j: nat :: j < |x| ==> s[j] == x[j] != sep[0];
  }

  /** `xs.join(sep)`: the elements separated by `sep`; the empty list joins to "". */
  function Join(xs: seq<string>, sep: string): string
  {
    if |xs| == 0 then ""
    else if |xs| == 1 then xs[0]
    else xs[0] + sep + Join(xs[1..], sep)
  }

  /** `s.split(sep)`: the pieces between occurrences of `sep`, left to right. */
  function Split(s: string, sep: string): (parts: seq<string>)
    requires |sep| > 0
    ensures |parts| > 0
    decreases |s|
  {
    match IndexOf(s, sep)
    case None => [s]
    case Some(k) => [s[..k]] + Split(s[k + |sep|..], sep)
  }

  /**
   * A joined list can be split back into its elements when none of them contains the
   * separator's first character. The empty list is excluded: it joins to "", which is
   * also the join of [""], so a caller must treat it apart.
   */
  lemma {:induction false} SplitJoin(xs: seq<string>, sep: string)
    requires |xs| > 0 && |sep| > 0
    requires forall i :: 0 <= i < |xs| ==> sep[0] !in xs[i]
    ensures Split(Join(xs, sep), sep) == xs
  {
    if |xs| > 1 {
      var rest := Join(xs[1..], sep);
      var s := xs[0] + sep + rest;
      IndexOfAfter(xs[0], sep, rest);
      assert s[..|xs[0]|] == xs[0];
      assert s[|xs[0]| + |sep|..] == rest;
      SplitJoin(xs[1..], sep);
      assert [xs[0]] + xs[1..] == xs;
    }
  }

  predicate IsDigits(s: string)
  {
    forall i :: 0 <= i < |s| ==> '0' <= s[i] <= '9'
  }

  function DigitChar(d: nat): char
    requires d < 10
  {
    ('0' as int + d) as char
  }

  /** The decimal rendering of a natural number, as `${n}` produces it. */
  function DecimalString(n: nat): (s: string)
    ensures |s| > 0 && IsDigits(s)
    ensures s[0] == '0' ==> n == 0
    decreases n
  {
    if n < 10 then [DigitChar(n)] else DecimalString(n / 10) + [DigitChar(n % 10)]
  }

  /** The number a string of decimal digits denotes. */
  function DecimalValue(s: string): nat
    requires IsDigits(s)
    decreases |s|
  {
    if |s| == 0 then 0 else DecimalValue(s[..|s| - 1]) * 10 + (s[|s| - 1] as int - '0' as int)
  }

  lemma {:induction false} DecimalRoundTrip(n: nat)
    ensures DecimalValue(DecimalString(n)) == n
    decreases n
  {
    if n >= 10 {
      var s := DecimalString(n);
      assert s[..|s| - 1] == DecimalString(n / 10);
      DecimalRoundTrip(n / 10);
    }
  }
}
