/** Whole-number averages: what dividing a sum of durations by their count keeps. */
module Averages {
  function Sum(samples: seq<int>): int {
    if samples == [] then 0 else Sum(samples[..|samples| - 1]) + samples[|samples| - 1]
  }

  lemma {:induction false} SumBounds(samples: seq<int>, lo: int, hi: int)
    requires forall i | 0 <= i < |samples| :: lo <= samples[i] <= hi
    ensures lo * |samples| <= Sum(samples) <= hi * |samples|
  {
    if samples != [] {
      var n := |samples| - 1;
      SumBounds(samples[..n], lo, hi);
      assert lo * |samples| == lo * n + lo && hi * |samples| == hi * n + hi;
    }
  }

  lemma {:induction false} Scaled(a: int, b: int, n: nat)
    ensures a > b ==> a * n >= b * n + n
  {
    if n > 0 {
      Scaled(a, b, n - 1);
      assert a * n == a * (n - 1) + a && b * n == b * (n - 1) + b;
    }
  }

  lemma AverageBetween(samples: seq<int>, avg: int, lo: int, hi: int)
    requires samples != [] && forall i | 0 <= i < |samples| :: lo <= samples[i] <= hi
    requires avg * |samples| <= Sum(samples) < avg * |samples| + |samples|
    ensures lo <= avg <= hi
  {
    SumBounds(samples, lo, hi);
    var n := |samples|;
    assert (avg + 1) * n == avg * n + n;
    assert (avg + 1) * n > lo * n && avg * n <= hi * n;
    Scaled(avg, hi, n);
    Scaled(lo, avg, n);
  }
}
