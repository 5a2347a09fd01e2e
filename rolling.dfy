/**
 * Trailing-window extrema over a price column, as read from a pandas
 * `rolling(window=n).min()` / `.max()` at the last row: the minimum (maximum)
 * of the last `n` values. Prices are exact reals; missing values are not
 * modelled, so every value in a window is present.
 */
module Rolling {

  /** `m` is one of the values of `s` and no value of `s` is below it. */
  ghost predicate IsLeast(m: real, s: seq<real>) {
    m in s && forall i | 0 <= i < |s| :: m <= s[i]
  }

  /** `m` is one of the values of `s` and no value of `s` is above it. */
  ghost predicate IsGreatest(m: real, s: seq<real>) {
    m in s && forall i | 0 <= i < |s| :: s[i] <= m
  }

  /** The smallest value of a non-empty column. */
  function MinOf(s: seq<real>): (m: real)
    requires |s| > 0
    ensures IsLeast(m, s)
  {
    if |s| == 1 then s[0]
    else
      var rest := MinOf(s[1..]);
      assert s == [s[0]] + s[1..];
      if s[0] <= rest then s[0] else rest
  }

  /** The largest value of a non-empty column. */
  function MaxOf(s: seq<real>): (m: real)
    requires |s| > 0
    ensures IsGreatest(m, s)
  {
    if |s| == 1 then s[0]
    else
      var rest := MaxOf(s[1..]);
      assert s == [s[0]] + s[1..];
      if rest <= s[0] then s[0] else rest
  }

  /** A column has at most one least and at most one greatest value, so
      MinOf and MaxOf are determined by their contracts. */
  lemma ExtremaAreUnique(s: seq<real>, a: real, b: real)
    ensures IsLeast(a, s) && IsLeast(b, s) ==> a == b
    ensures IsGreatest(a, s) && IsGreatest(b, s) ==> a == b
  {
  }

  /** The last `n` values of `s`. */
  function Trailing(s: seq<real>, n: nat): (w: seq<real>)
    requires n <= |s|
    ensures |w| == n
    ensures forall k | 0 <= k < n :: w[k] == s[|s| - n + k]
  {
    s[|s| - n..]
  }

  /** The `k`-th value counted from the end of `s` (0 is the last). */
  function FromEnd(s: seq<real>, k: nat): real
    requires k < |s|
  {
    s[|s| - 1 - k]
  }

  /** Only the last `n` values decide the trailing minimum and maximum:
      two columns that agree there give the same extrema, whatever comes
      before and however long they are. */
  lemma {:induction false} TrailingExtremaAreLocal(s: seq<real>, t: seq<real>, n: nat)
    requires 0 < n <= |s| && n <= |t|
    requires forall k | 0 <= k < n :: FromEnd(s, k) == FromEnd(t, k)
    ensures MinOf(Trailing(s, n)) == MinOf(Trailing(t, n))
    ensures MaxOf(Trailing(s, n)) == MaxOf(Trailing(t, n))
  {
    var ws, wt := Trailing(s, n), Trailing(t, n);
    assert ws == wt by {
      forall k | 0 <= k < n ensures ws[k] == wt[k] {
        assert ws[k] == FromEnd(s, n - 1 - k) && wt[k] == FromEnd(t, n - 1 - k);
      }
    }
  }
}
