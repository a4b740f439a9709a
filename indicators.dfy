/**
 * The price summary and the technical chart of `render_analysis`: the latest
 * close and its change, and the 100- and 200-day simple moving averages.
 */
module Indicators {
  import opened Wrappers
  import opened Series

  /** The two moving-average windows charted as MA100 and MA200. */
  const ShortWindow: nat := 100
  const LongWindow: nat := 200

  datatype Metrics = Metrics(current: real, delta: real)

  datatype MetricsError =
    | NoData           // an empty download: "No data found", the view stops
    | SingleRow        // one row: `iloc[-2]` raises

  /** "Current Price" is the last close and its delta the change from the close before it. */
  function LatestMetrics(close: seq<real>): (r: Result<Metrics, MetricsError>)
    ensures r == Failure(NoData) <==> |close| == 0
    ensures r == Failure(SingleRow) <==> |close| == 1
    ensures r.Success? ==> r.value.current == close[|close| - 1]
    ensures r.Success? ==> close[|close| - 2] + r.value.delta == r.value.current
  {
    if |close| == 0 then Failure(NoData)
    else if |close| == 1 then Failure(SingleRow)
    else
      var current, prev := close[|close| - 1], close[|close| - 2];
      Success(Metrics(current, current - prev))
  }

  /** `close.rolling(k).mean()` at row i: missing (NaN) until k closes are available. */
  function RollingMeanAt(close: seq<real>, k: nat, i: nat): (r: Option<real>)
    requires 0 < k && i < |close|
    ensures r.Some? <==> i + 1 >= k
    ensures r.Some? ==> r.value * k as real == Sum(close[i + 1 - k..i + 1])
  {
    if i + 1 < k then None else Some(Mean(close[i + 1 - k..i + 1]))
  }

  function RollingMean(close: seq<real>, k: nat): (ma: seq<Option<real>>)
    requires 0 < k
    ensures |ma| == |close|
  {
    seq(|close|, i requires 0 <= i < |close| => RollingMeanAt(close, k, i))
  }

  /** Row i has a value exactly from row k - 1 on, and that value is the mean of the last k closes. */
  lemma RollingMeanDefinedFrom(close: seq<real>, k: nat, i: nat)
    requires 0 < k && i < |close|
    ensures RollingMean(close, k)[i].Some? <==> i >= k - 1
    ensures i >= k - 1 ==> RollingMean(close, k)[i].value == Sum(close[i + 1 - k..i + 1]) / k as real
  {
  }

  /** A constant series v averages to v wherever the average is defined. */
  lemma RollingMeanOfConstant(close: seq<real>, k: nat, v: real, i: nat)
    requires 0 < k && k - 1 <= i < |close|
    requires forall j :: 0 <= j < |close| ==> close[j] == v
    ensures RollingMean(close, k)[i] == Some(v)
  {
    MeanConstant(close[i + 1 - k..i + 1], v);
  }

  /** Every average lies between the lowest and the highest close of its window. */
  lemma RollingMeanWithinWindow(close: seq<real>, k: nat, i: nat)
    requires 0 < k && k - 1 <= i < |close|
    ensures var w := close[i + 1 - k..i + 1];
      Min(w) <= RollingMean(close, k)[i].value <= Max(w)
  {
    MeanBetweenExtremes(close[i + 1 - k..i + 1]);
  }

  /**
   * Moving one row on adds the entering close and drops the leaving one, each
   * weighted 1/k.
   */
  lemma RollingMeanSlides(close: seq<real>, k: nat, i: nat)
    requires 0 < k && k <= i < |close|
    ensures RollingMean(close, k)[i].value
         == RollingMean(close, k)[i - 1].value + (close[i] - close[i - k]) / k as real
  {
    var a := i - k;
    var wide := close[a..i + 1];
    assert wide == [close[a]] + close[a + 1..i + 1];
    assert wide == close[a..i] + [close[i]];
    SumConcat([close[a]], close[a + 1..i + 1]);
    SumConcat(close[a..i], [close[i]]);
    assert Sum([close[a]]) == close[a] && Sum([close[i]]) == close[i];
    var before, after, n := Sum(close[a..i]), Sum(close[a + 1..i + 1]), k as real;
    assert after == before + (close[i] - close[a]);
    DivAdd(before, close[i] - close[a], n);
  }

  /** Division by a non-zero n distributes over a sum. */
  lemma DivAdd(x: real, y: real, n: real)
    requires n != 0.0
    ensures (x + y) / n == x / n + y / n
  {
    assert (x / n + y / n) * n == x + y;
  }

  /**
   * The two charted averages: MA100 has a value from row 99 on and MA200 from
   * row 199 on, so wherever MA200 is drawn MA100 is drawn too, and on a flat
   * stretch of 200 closes both lines sit on the price.
   */
  lemma ChartedAverages(close: seq<real>, i: nat, v: real)
    requires i < |close|
    ensures RollingMean(close, ShortWindow)[i].Some? <==> i >= ShortWindow - 1
    ensures RollingMean(close, LongWindow)[i].Some? <==> i >= LongWindow - 1
    ensures RollingMean(close, LongWindow)[i].Some? ==> RollingMean(close, ShortWindow)[i].Some?
    ensures i >= LongWindow - 1 && (forall j :: i + 1 - LongWindow <= j <= i ==> close[j] == v) ==>
      RollingMean(close, ShortWindow)[i] == Some(v) && RollingMean(close, LongWindow)[i] == Some(v)
  {
    RollingMeanDefinedFrom(close, ShortWindow, i);
    RollingMeanDefinedFrom(close, LongWindow, i);
    if i >= LongWindow - 1 && (forall j :: i + 1 - LongWindow <= j <= i ==> close[j] == v) {
      var long := close[i + 1 - LongWindow..i + 1];
      var short := close[i + 1 - ShortWindow..i + 1];
      assert forall j :: 0 <= j < |long| ==> long[j] == v;
      assert forall j :: 0 <= j < |short| ==> short[j] == v by {
        forall j | 0 <= j < |short|
          ensures short[j] == v
        {
          assert short[j] == close[i + 1 - ShortWindow + j];
        }
      }
      MeanConstant(long, v);
      MeanConstant(short, v);
    }
  }
}
