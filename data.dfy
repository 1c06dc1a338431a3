/** The data preparation of the AI service: sliding windows over a closing
    price series, the train/test split and the guard that a series is long
    enough. Prices are reals; the download of the series is not part of this
    module (its result is a parameter). */
module SeriesData {
  import opened Wrappers

  /** A downloaded closing price series and the date of its last point. */
  datatype Series = Series(values: seq<real>, endDate: string)

  /** The spec of one sliding-window pass: window k is the `lookback` values
      starting at k, and its target the value right after it. */
  function Windows<T>(values: seq<T>, lookback: nat): (r: seq<seq<T>>)
    ensures |r| == Max(0, |values| - lookback)
  {
    seq(Max(0, |values| - lookback), k requires 0 <= k < Max(0, |values| - lookback) => values[k..k + lookback])
  }

  function Targets<T>(values: seq<T>, lookback: nat): (r: seq<T>)
    ensures |r| == Max(0, |values| - lookback)
  {
    seq(Max(0, |values| - lookback), k requires 0 <= k < Max(0, |values| - lookback) => values[k + lookback])
  }

  /** `create_sequences`: one window and one target per index from
      `lookback` to the end of the series. */
  method CreateSequences<T>(values: seq<T>, lookback: nat) returns (x: seq<seq<T>>, y: seq<T>)
    ensures |x| == |y| == Max(0, |values| - lookback)
    ensures forall k :: 0 <= k < |x| ==>
      |x[k]| == lookback && x[k] == values[k..k + lookback] && y[k] == values[k + lookback]
    ensures x == Windows(values, lookback) && y == Targets(values, lookback)
  {
    x, y := [], [];
    var i := lookback;
    while i < |values|
      invariant lookback <= i
      invariant |x| == |y| == i - lookback
      invariant i > lookback ==> i <= |values|
      invariant forall k :: 0 <= k < |x| ==> x[k] == values[k..k + lookback] && y[k] == values[k + lookback]
    {
      x := x + [values[i - lookback..i]];
      y := y + [values[i]];
      i := i + 1;
    }
  }

  /** The smallest and the largest value of a non-empty series. */
  function Least(values: seq<real>): (m: real)
    requires |values| > 0
    ensures m in values && forall i :: 0 <= i < |values| ==> m <= values[i]
  {
    if |values| == 1 then values[0]
    else var rest := Least(values[1..]); if values[0] <= rest then values[0] else rest
  }

  function Greatest(values: seq<real>): (m: real)
    requires |values| > 0
    ensures m in values && forall i :: 0 <= i < |values| ==> values[i] <= m
  {
    if |values| == 1 then values[0]
    else var rest := Greatest(values[1..]); if values[0] >= rest then values[0] else rest
  }

  /** `minmax_scale_with` over exact reals: each value mapped by the range
      [vmin, vmax], or to 0 when the range is empty. */
  function ScaleWith(values: seq<real>, vmin: real, vmax: real): (r: seq<real>)
    ensures |r| == |values|
  {
    if vmax - vmin == 0.0 then seq(|values|, i => 0.0)
    else seq(|values|, i requires 0 <= i < |values| => (values[i] - vmin) / (vmax - vmin))
  }

  /** `minmax_scale`: the series scaled by its own smallest and largest
      value, together with those two values. */
  function MinMaxScale(values: seq<real>): (r: (seq<real>, real, real))
    requires |values| > 0
    ensures |r.0| == |values| && r.1 == Least(values) && r.2 == Greatest(values)
  {
    var vmin := Least(values);
    var vmax := Greatest(values);
    (ScaleWith(values, vmin, vmax), vmin, vmax)
  }

  /** A value inside a non-empty range is scaled into [0, 1]. */
  lemma ScaleIntoUnit(v: real, vmin: real, vmax: real)
    requires vmin <= v <= vmax
    ensures 0.0 <= ScaleWith([v], vmin, vmax)[0] <= 1.0
  {
    if vmax - vmin != 0.0 {
      var d := vmax - vmin;
      var q := (v - vmin) / d;
      assert q * d == v - vmin;
      assert d > 0.0;
    }
  }

  /** Every value of a series scaled by its own range lies in [0, 1]. */
  lemma MinMaxScaleInUnit(values: seq<real>)
    requires |values| > 0
    ensures forall i :: 0 <= i < |values| ==> 0.0 <= MinMaxScale(values).0[i] <= 1.0
  {
    var vmin := Least(values);
    var vmax := Greatest(values);
    forall i | 0 <= i < |values| ensures 0.0 <= MinMaxScale(values).0[i] <= 1.0 {
      ScaleIntoUnit(values[i], vmin, vmax);
      assert ScaleWith(values, vmin, vmax)[i] == ScaleWith([values[i]], vmin, vmax)[0];
    }
  }

  /** Python's `s[-k:]`: the last `k` elements, except that `-0` is `0`
      and so `k == 0` gives the whole sequence. */
  function Tail<T>(s: seq<T>, k: nat): (r: seq<T>)
    ensures |r| <= |s| && s[..|s| - |r|] + r == s
    ensures 0 < k <= |s| ==> |r| == k
    ensures k == 0 || k >= |s| ==> r == s
  {
    s[SliceBound(-(k as int), |s|)..]
  }

  /** Python's `int()` of a float: truncation toward zero. */
  function Trunc(r: real): int
  {
    if r >= 0.0 then r.Floor else -((-r).Floor)
  }

  /** A Python slice bound `i` on a sequence of length `n`: negative bounds
      count from the end, and every bound is clamped to [0, n]. */
  function SliceBound(i: int, n: nat): (b: nat)
    ensures b <= n
    ensures 0 <= i <= n ==> b == i
  {
    if i < 0 then Max(0, n + i) else Min(i, n)
  }

  datatype Split<X, Y> = Split(xTrain: seq<X>, yTrain: seq<Y>, xTest: seq<X>, yTest: seq<Y>)

  /** `int(len(x) * train_ratio)`. */
  function SplitIndex(n: nat, trainRatio: real): int
  {
    Trunc(n as real * trainRatio)
  }

  /** `split_train_test`. */
  function SplitTrainTest<X, Y>(x: seq<X>, y: seq<Y>, trainRatio: real): (r: Split<X, Y>)
    ensures |x| == 0 ==> r == Split(x, y, x, y)
    ensures |x| > 0 ==> r.xTrain + r.xTest == x && r.yTrain + r.yTest == y
    ensures |x| > 0 ==> |r.xTrain| == SliceBound(SplitIndex(|x|, trainRatio), |x|)
    ensures |x| > 0 && |y| == |x| ==> |r.yTrain| == |r.xTrain|
  {
    if |x| == 0 then Split(x, y, x, y)
    else
      var splitIndex := SplitIndex(|x|, trainRatio);
      var xEnd := SliceBound(splitIndex, |x|);
      var yEnd := SliceBound(splitIndex, |y|);
      assert x[..xEnd] + x[xEnd..] == x;
      assert y[..yEnd] + y[yEnd..] == y;
      Split(x[..xEnd], y[..yEnd], x[xEnd..], y[yEnd..])
  }

  /** With a ratio in [0, 1] the split index lies within the sequence and is
      the length of the training part. */
  lemma SplitIndexInRange(n: nat, trainRatio: real)
    requires 0.0 <= trainRatio <= 1.0
    ensures 0 <= SplitIndex(n, trainRatio) <= n
  {
    var p := n as real * trainRatio;
    assert 0.0 <= p <= n as real;
  }

  /** With the ratio 0.8 used for training, a non-empty set of windows always
      leaves at least one window for testing; the training part is empty only
      for a single window. */
  lemma EightyPercentSplit<X, Y>(x: seq<X>, y: seq<Y>)
    requires |x| > 0 && |y| == |x|
    ensures var r := SplitTrainTest(x, y, 0.8);
      && |r.xTest| >= 1 && |r.yTest| == |r.xTest|
      && (|r.xTrain| == 0 <==> |x| == 1)
  {
    var n := |x|;
    var p := n as real * 0.8;
    assert p < n as real;
    SplitIndexInRange(n, 0.8);
    var k := SplitIndex(n, 0.8);
    assert k == p.Floor;
    assert k < n;
    if n >= 2 { assert p >= 1.0; }
  }

  datatype Prepared = Prepared(
    values: seq<real>,
    scaled: seq<real>,
    vmin: real,
    vmax: real,
    x: seq<seq<real>>,
    y: seq<real>,
    dataPoints: nat,
    dataEndDate: string,
    lastClose: real)

  /** The record `prepare_data` builds from a series long enough for
      `lookback`. */
  function Prepare(series: Series, lookback: nat): (p: Prepared)
    requires |series.values| > lookback
    ensures p.values == series.values && p.dataPoints == |series.values| && p.dataEndDate == series.endDate
    ensures p.lastClose == series.values[|series.values| - 1]
    ensures |p.scaled| == |p.values| && p.vmin == Least(p.values) && p.vmax == Greatest(p.values)
    ensures |p.x| == |p.y| == |series.values| - lookback >= 1
    ensures forall k :: 0 <= k < |p.x| ==> |p.x[k]| == lookback && p.x[k] + [p.y[k]] == p.scaled[k..k + lookback + 1]
  {
    var values := series.values;
    var scaled := MinMaxScale(values);
    var x := Windows(scaled.0, lookback);
    var y := Targets(scaled.0, lookback);
    assert forall k :: 0 <= k < |x| ==> x[k] + [y[k]] == scaled.0[k..k + lookback + 1];
    Prepared(values, scaled.0, scaled.1, scaled.2, x, y, |values|, series.endDate, values[|values| - 1])
  }

  /** `prepare_data` on the downloaded series (or the error the download
      raised). */
  method PrepareData(fetched: Result<Series>, lookback: nat) returns (r: Result<Prepared>)
    ensures fetched.Err? ==> r == Err(fetched.message)
    ensures fetched.Ok? && |fetched.value.values| <= lookback ==> r == Err("Insufficient data for prediction")
    ensures fetched.Ok? && |fetched.value.values| > lookback ==> r == Ok(Prepare(fetched.value, lookback))
  {
    if fetched.Err? {
      return Err(fetched.message);
    }
    var values := fetched.value.values;
    if |values| <= lookback {
      return Err("Insufficient data for prediction");
    }
    var scaled := MinMaxScale(values);
    var x, y := CreateSequences(scaled.0, lookback);
    r := Ok(Prepared(values, scaled.0, scaled.1, scaled.2, x, y, |values|, fetched.value.endDate, values[|values| - 1]));
  }
}
