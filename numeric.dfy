/** Numeric conversions and searches of the Kotlin standard library, on
    unbounded reals. */
module Numeric {

  /** `Double.roundToInt()`: the nearest integer, ties rounded towards
      positive infinity (saturation at the `Int` range is not modelled). */
  function RoundToInt(x: real): (r: int)
    ensures r as real - 1.0 / 2.0 <= x < r as real + 1.0 / 2.0
  {
    (x + 1.0 / 2.0).Floor
  }

  /** Rounding never reverses the order of two values. */
  lemma RoundToIntMonotone(x: real, y: real)
    requires x <= y
    ensures RoundToInt(x) <= RoundToInt(y)
  {
  }

  /** A whole number rounds to itself. */
  lemma RoundToIntOfInt(n: int)
    ensures RoundToInt(n as real) == n
  {
  }

  /** `Double.toLong()` of a non-negative value: truncation, which for a
      non-negative value is the floor. */
  function TruncateNonNegative(x: real): (r: int)
    requires x >= 0.0
    ensures 0 <= r && r as real <= x < r as real + 1.0
  {
    x.Floor
  }

  /** `s.indexOfLast { x > it }`: the position of the last entry below `x`,
      or -1 when there is none. */
  function IndexOfLastBelow(s: seq<real>, x: real): (r: int)
    ensures -1 <= r < |s|
    ensures r >= 0 ==> x > s[r]
    ensures forall j :: r < j < |s| ==> x <= s[j]
  {
    if s == [] then -1
    else if x > s[|s| - 1] then |s| - 1
    else IndexOfLastBelow(s[..|s| - 1], x)
  }

  /** A table whose entries strictly increase. */
  predicate StrictlyAscending(s: seq<real>) {
    forall i, j :: 0 <= i < j < |s| ==> s[i] < s[j]
  }

  /** In an ascending table, the search for an entry itself lands on the
      entry before it. */
  lemma IndexOfLastBelowAtEntry(s: seq<real>, k: nat)
    requires StrictlyAscending(s) && 0 < k < |s|
    ensures IndexOfLastBelow(s, s[k]) == k - 1
  {
    var r := IndexOfLastBelow(s, s[k]);
    assert s[k - 1] < s[k];
  }
}
