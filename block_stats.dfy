/** Statistics of one block of samples, over exact reals: the mean, the
    population variance (the square of the standard deviation before its
    square root is taken) and the range of the cumulative deviations from a
    given mean. */
module BlockStats {

  /** Sum of the samples, accumulated from the left as the source's loop does. */
  function Sum(s: seq<real>): real
  {
    if |s| == 0 then 0.0 else Sum(s[..|s| - 1]) + s[|s| - 1]
  }

  function Mean(s: seq<real>): real
    requires |s| > 0
  {
    Sum(s) / (|s| as real)
  }

  /** Sum of the squared deviations of the samples from `mean`. */
  function SquaredDeviations(s: seq<real>, mean: real): real
  {
    if |s| == 0 then 0.0
    else SquaredDeviations(s[..|s| - 1], mean) + (s[|s| - 1] - mean) * (s[|s| - 1] - mean)
  }

  /** Population variance: the mean of the squared deviations from the mean. */
  function Variance(s: seq<real>): real
    requires |s| > 0
  {
    SquaredDeviations(s, Mean(s)) / (|s| as real)
  }

  /** Cumulative deviation of all of `s` from `mean`. */
  function Deviation(s: seq<real>, mean: real): real
  {
    if |s| == 0 then 0.0 else Deviation(s[..|s| - 1], mean) + (s[|s| - 1] - mean)
  }

  /** The running sums t_1, ..., t_n that the range loop visits: entry `k` is
      the cumulative deviation of the first `k + 1` samples. */
  function CumulativeDeviations(s: seq<real>, mean: real): (t: seq<real>)
    ensures |t| == |s|
  {
    seq(|s|, k requires 0 <= k < |s| => Deviation(s[..k + 1], mean))
  }

  function MaxOf(t: seq<real>): real
    requires |t| > 0
  {
    if |t| == 1 then t[0]
    else var m := MaxOf(t[..|t| - 1]); if t[|t| - 1] > m then t[|t| - 1] else m
  }

  function MinOf(t: seq<real>): real
    requires |t| > 0
  {
    if |t| == 1 then t[0]
    else var m := MinOf(t[..|t| - 1]); if t[|t| - 1] < m then t[|t| - 1] else m
  }

  /** The range: largest minus smallest cumulative deviation. */
  function Range(s: seq<real>, mean: real): real
    requires |s| > 0
  {
    var t := CumulativeDeviations(s, mean);
    MaxOf(t) - MinOf(t)
  }

  /** MaxOf and MinOf bound every entry and are entries themselves. */
  lemma {:induction false} ExtremaBound(t: seq<real>)
    requires |t| > 0
    ensures forall k :: 0 <= k < |t| ==> MinOf(t) <= t[k] <= MaxOf(t)
    ensures MaxOf(t) in t && MinOf(t) in t
  {
    if |t| > 1 {
      var init := t[..|t| - 1];
      ExtremaBound(init);
      assert forall k :: 0 <= k < |t| - 1 ==> t[k] == init[k];
    }
  }

  /** The range is never negative. */
  lemma RangeNonNegative(s: seq<real>, mean: real)
    requires |s| > 0
    ensures Range(s, mean) >= 0.0
  {
    ExtremaBound(CumulativeDeviations(s, mean));
  }

  /** A one-sample block has range 0. */
  lemma RangeOfSingleton(s: seq<real>, mean: real)
    requires |s| == 1
    ensures Range(s, mean) == 0.0
  {
  }

  lemma {:induction false} DeviationIsSumMinusMean(s: seq<real>, mean: real)
    ensures Deviation(s, mean) == Sum(s) - (|s| as real) * mean
  {
    if |s| > 0 {
      DeviationIsSumMinusMean(s[..|s| - 1], mean);
    }
  }

  /** Measured from the block's own mean, the cumulative deviations end at 0. */
  lemma DeviationsEndAtZero(s: seq<real>)
    requires |s| > 0
    ensures CumulativeDeviations(s, Mean(s))[|s| - 1] == 0.0
  {
    assert s[..|s|] == s;
    DeviationIsSumMinusMean(s, Mean(s));
  }

  /** Measured from the block's own mean, the largest cumulative deviation is
      at least 0 and the smallest at most 0, so the range is at least each of
      their magnitudes. */
  lemma RangeSpansZero(s: seq<real>)
    requires |s| > 0
    ensures var t := CumulativeDeviations(s, Mean(s));
      MinOf(t) <= 0.0 <= MaxOf(t) && Range(s, Mean(s)) >= MaxOf(t) && Range(s, Mean(s)) >= -MinOf(t)
  {
    DeviationsEndAtZero(s);
    ExtremaBound(CumulativeDeviations(s, Mean(s)));
  }

  lemma {:induction false} SquaredDeviationsNonNegative(s: seq<real>, mean: real)
    ensures SquaredDeviations(s, mean) >= 0.0
  {
    if |s| > 0 {
      SquaredDeviationsNonNegative(s[..|s| - 1], mean);
      var d := s[|s| - 1] - mean;
      assert d * d >= 0.0 by {
        if d < 0.0 { assert d * d == (-d) * (-d); }
      }
    }
  }

  /** The variance is never negative, and it is 0 for a one-sample block (the
      case in which the calculation substitutes its floor for the standard
      deviation). */
  lemma VarianceBounds(s: seq<real>)
    requires |s| > 0
    ensures Variance(s) >= 0.0
    ensures |s| == 1 ==> Variance(s) == 0.0
  {
    SquaredDeviationsNonNegative(s, Mean(s));
    if |s| == 1 {
      assert s[..0] == [];
      assert Sum(s) == s[0];
      assert Mean(s) == s[0];
    }
  }

  /** `s` with `c` added to every sample. */
  function Shift(s: seq<real>, c: real): (r: seq<real>)
    ensures |r| == |s|
  {
    seq(|s|, k requires 0 <= k < |s| => s[k] + c)
  }

  lemma {:induction false} SumOfShift(s: seq<real>, c: real)
    ensures Sum(Shift(s, c)) == Sum(s) + (|s| as real) * c
  {
    if |s| > 0 {
      SumOfShift(s[..|s| - 1], c);
      assert Shift(s, c)[..|s| - 1] == Shift(s[..|s| - 1], c);
    }
  }

  lemma {:induction false} DeviationOfShift(s: seq<real>, mean: real, c: real)
    ensures Deviation(Shift(s, c), mean + c) == Deviation(s, mean)
  {
    if |s| > 0 {
      DeviationOfShift(s[..|s| - 1], mean, c);
      assert Shift(s, c)[..|s| - 1] == Shift(s[..|s| - 1], c);
    }
  }

  lemma {:induction false} SquaredDeviationsOfShift(s: seq<real>, mean: real, c: real)
    ensures SquaredDeviations(Shift(s, c), mean + c) == SquaredDeviations(s, mean)
  {
    if |s| > 0 {
      SquaredDeviationsOfShift(s[..|s| - 1], mean, c);
      assert Shift(s, c)[..|s| - 1] == Shift(s[..|s| - 1], c);
    }
  }

  lemma MeanOfShift(s: seq<real>, c: real)
    requires |s| > 0
    ensures Mean(Shift(s, c)) == Mean(s) + c
  {
    SumOfShift(s, c);
  }

  /** Adding a constant to every sample of a block changes neither its range
      nor its variance: the rescaled-range statistic does not depend on the
      level of the series. */
  lemma ShiftInvariance(s: seq<real>, c: real)
    requires |s| > 0
    ensures Range(Shift(s, c), Mean(Shift(s, c))) == Range(s, Mean(s))
    ensures Variance(Shift(s, c)) == Variance(s)
  {
    MeanOfShift(s, c);
    var m := Mean(s);
    forall k | 0 <= k < |s|
      ensures CumulativeDeviations(Shift(s, c), m + c)[k] == CumulativeDeviations(s, m)[k]
    {
      assert Shift(s, c)[..k + 1] == Shift(s[..k + 1], c);
      DeviationOfShift(s[..k + 1], m, c);
    }
    assert CumulativeDeviations(Shift(s, c), m + c) == CumulativeDeviations(s, m);
    SquaredDeviationsOfShift(s, m, c);
  }

  /** The mean half of the source's mean-and-deviation helper, with the
      deviation part kept as the variance: two accumulator loops over
      `data[idx0..idx1]`. */
  method MeanAndVariance(data: seq<real>, idx0: int, idx1: int) returns (mean: real, variance: real)
    requires 0 <= idx0 < idx1 <= |data|
    ensures mean == Mean(data[idx0..idx1])
    ensures variance == Variance(data[idx0..idx1])
  {
    ghost var block := data[idx0..idx1];
    var length := idx1 - idx0;
    var sum := 0.0;
    var i := 0;
    while i < length
      invariant 0 <= i <= length
      invariant sum == Sum(block[..i])
    {
      assert block[..i + 1][..i] == block[..i];
      sum := sum + data[idx0 + i];
      i := i + 1;
    }
    assert block[..length] == block;
    mean := sum / (length as real);

    var squares := 0.0;
    i := 0;
    while i < length
      invariant 0 <= i <= length
      invariant squares == SquaredDeviations(block[..i], mean)
    {
      assert block[..i + 1][..i] == block[..i];
      squares := squares + (data[idx0 + i] - mean) * (data[idx0 + i] - mean);
      i := i + 1;
    }
    variance := squares * (1.0 / (length as real));
  }

  /** The range helper: a running sum of deviations from `mean` over
      `data[idx0..idx1]`, with running minimum and maximum seeded by the first
      deviation. */
  method ComputeRange(data: seq<real>, idx0: int, idx1: int, mean: real) returns (range: real)
    requires 0 <= idx0 < idx1 <= |data|
    ensures range == Range(data[idx0..idx1], mean)
  {
    ghost var block := data[idx0..idx1];
    ghost var ts := CumulativeDeviations(block, mean);
    var length := idx1 - idx0;
    var min := data[idx0] - mean;
    var max := data[idx0] - mean;
    var t := 0.0;
    var i := 0;
    assert ts[..1] == [ts[0]];
    while i < length
      invariant 0 <= i <= length
      invariant t == Deviation(block[..i], mean)
      invariant min == MinOf(ts[..if i == 0 then 1 else i])
      invariant max == MaxOf(ts[..if i == 0 then 1 else i])
      invariant min <= max
    {
      assert block[..i + 1][..i] == block[..i];
      t := t + (data[idx0 + i] - mean);
      assert t == ts[i];
      if t > max {
        max := t;
      } else if t < min {
        min := t;
      }
      if i > 0 {
        assert ts[..i + 1][..i] == ts[..i];
      }
      i := i + 1;
    }
    assert ts[..length] == ts;
    range := max - min;
  }
}
