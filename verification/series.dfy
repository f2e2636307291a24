/**
 Column operations on pandas series that the backtest relies on: the sum of a
 column of reals and the first difference `diff()` of a column.
 */
module Series {
  import opened Wrappers

  /** Sum of the entries s[lo..hi) of a column of reals. */
  function SumRange(s: seq<real>, lo: nat, hi: nat): real
    requires lo <= hi <= |s|
    decreases hi
  {
    if lo == hi then 0.0 else SumRange(s, lo, hi - 1) + s[hi - 1]
  }

  /** A range sum splits at any intermediate index. */
  lemma {:induction false} SumRangeSplit(s: seq<real>, lo: nat, mid: nat, hi: nat)
    requires lo <= mid <= hi <= |s|
    ensures SumRange(s, lo, hi) == SumRange(s, lo, mid) + SumRange(s, mid, hi)
    decreases hi
  {
    if hi > mid {
      SumRangeSplit(s, lo, mid, hi - 1);
    }
  }

  /** A range whose entries all lie in [a, b] sums to between its length times a and its length times b. */
  lemma {:induction false} SumRangeBounds(s: seq<real>, lo: nat, hi: nat, a: real, b: real)
    requires lo <= hi <= |s|
    requires forall k :: lo <= k < hi ==> a <= s[k] <= b
    ensures (hi - lo) as real * a <= SumRange(s, lo, hi) <= (hi - lo) as real * b
    decreases hi
  {
    if hi > lo {
      SumRangeBounds(s, lo, hi - 1, a, b);
      assert (hi - lo) as real * a == (hi - 1 - lo) as real * a + a;
      assert (hi - lo) as real * b == (hi - 1 - lo) as real * b + b;
    }
  }

  /** Dropping the first entry of a non-empty range subtracts it from the sum. */
  lemma SumRangeDropFirst(s: seq<real>, lo: nat, hi: nat)
    requires lo < hi <= |s|
    ensures SumRange(s, lo + 1, hi) == SumRange(s, lo, hi) - s[lo]
  {
    SumRangeSplit(s, lo, lo + 1, hi);
  }

  /**
   pandas `diff()`: entry i is the change from entry i - 1; the first entry
   has no predecessor and is missing.
   */
  function Diff(xs: seq<real>): (d: seq<Option<real>>)
    ensures |d| == |xs|
    ensures |xs| > 0 ==> d[0] == None
    ensures forall i {:trigger d[i]} :: 1 <= i < |xs| ==> d[i] == Some(xs[i] - xs[i - 1])
  {
    seq(|xs|, i requires 0 <= i < |xs| => if i == 0 then None else Some(xs[i] - xs[i - 1]))
  }

  /**
   Running total of the changes d[1..i]; a missing change counts as nothing,
   as pandas' NaN-skipping `cumsum()` does.
   */
  function Accumulate(d: seq<Option<real>>, i: nat): real
    requires i < |d|
  {
    if i == 0 then 0.0 else Accumulate(d, i - 1) + d[i].GetOr(0.0)
  }
}
