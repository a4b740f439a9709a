/**
 * The data preparation around the LSTM forecast in `render_analysis`:
 * the chronological train/test split of the closing prices, the min-max
 * scaler fitted on the training part, the 100-step sliding windows, the
 * lead-in taken from the training tail, and the "rescale" applied to the
 * targets and the predictions before they are charted.
 */
module Forecast {
  import opened Wrappers
  import opened Series

  /** Window length of every model input, and length of the lead-in. */
  const Lookback: nat := 100

  // ---------------------------------------------------------------- split

  /**
   * The split point the source computes as `int(len(df) * 0.70)`. Because 0.70
   * is not exact in binary floating point, the truncated product is either
   * floor(7n/10) or one less (90 rows give 62, not 63).
   */
  predicate FloatSplitPoint(n: nat, k: nat)
  {
    k <= n * 7 / 10 <= k + 1
  }

  /**
   * The split point lies in [0, n]; from 10 rows on the training part is not
   * empty; up to 144 rows it holds at most 100 rows (no training window), and
   * from 146 rows on more than 100 (for 145 rows FloatSplitPoint allows 100 or 101).
   */
  lemma SplitPointInRange(n: nat, k: nat)
    requires FloatSplitPoint(n, k)
    ensures k <= n
    ensures n >= 10 ==> k > 0
    ensures n <= 144 ==> k <= Lookback
    ensures n >= 146 ==> k > Lookback
  {
  }

  /** `df['Close'][0:k]` and `df['Close'][k:]`. */
  function Split(close: seq<real>, k: nat): (parts: (seq<real>, seq<real>))
    requires k <= |close|
    ensures parts.0 + parts.1 == close
    ensures |parts.0| == k && |parts.0| + |parts.1| == |close|
  {
    (close[..k], close[k..])
  }

  // -------------------------------------------------------------- scaler

  /** A fitted `MinMaxScaler(feature_range=(0,1))`: the training minimum and maximum. */
  datatype MinMax = MinMax(lo: real, hi: real)

  predicate NonDegenerate(m: MinMax) { m.lo < m.hi }

  /** `scaler.fit(training)`: no scaler can be fitted to an empty column. */
  function Fit(training: seq<real>): (r: Option<MinMax>)
    ensures r.None? <==> training == []
    ensures r.Some? ==> r.value.lo in training && r.value.hi in training
    ensures r.Some? ==> forall i :: 0 <= i < |training| ==> r.value.lo <= training[i] <= r.value.hi
  {
    if training == [] then None else Some(MinMax(Min(training), Max(training)))
  }

  /** `scaler.transform` on one value: the affine map sending lo to 0 and hi to 1. */
  function Transform(m: MinMax, x: real): (t: real)
    requires NonDegenerate(m)
    ensures t * (m.hi - m.lo) == x - m.lo
  {
    (x - m.lo) / (m.hi - m.lo)
  }

  function TransformAll(m: MinMax, xs: seq<real>): (ts: seq<real>)
    requires NonDegenerate(m)
    ensures |ts| == |xs|
    ensures forall i :: 0 <= i < |xs| ==> ts[i] == Transform(m, xs[i])
  {
    seq(|xs|, i requires 0 <= i < |xs| => Transform(m, xs[i]))
  }

  /** The map is strictly increasing. */
  lemma TransformMonotone(m: MinMax, x: real, y: real)
    requires NonDegenerate(m)
    ensures x < y <==> Transform(m, x) < Transform(m, y)
  {
    var d := m.hi - m.lo;
    assert Transform(m, y) - Transform(m, x) == (y - x) / d;
  }

  /** lo goes to 0 and hi to 1. */
  lemma TransformEndpoints(m: MinMax)
    requires NonDegenerate(m)
    ensures Transform(m, m.lo) == 0.0 && Transform(m, m.hi) == 1.0
  {
    assert (m.hi - m.lo) / (m.hi - m.lo) == 1.0;
  }

  /** The training minimum goes to 0, the maximum to 1, every training price into [0, 1]. */
  lemma TransformTrainingIntoUnit(training: seq<real>, m: MinMax, x: real)
    requires Fit(training) == Some(m) && NonDegenerate(m)
    requires x in training
    ensures 0.0 <= Transform(m, x) <= 1.0
    ensures Transform(m, Min(training)) == 0.0 && Transform(m, Max(training)) == 1.0
  {
    assert m.lo <= x <= m.hi;
    TransformEndpoints(m);
    TransformMonotone(m, x, m.hi);
    TransformMonotone(m, m.lo, x);
  }

  /**
   * The scaler is not refitted on the testing part: a test price above the
   * training maximum scales above 1 and one below the minimum scales below 0.
   */
  lemma TransformOutsideTrainingRange(m: MinMax, x: real)
    requires NonDegenerate(m)
    ensures x > m.hi ==> Transform(m, x) > 1.0
    ensures x < m.lo ==> Transform(m, x) < 0.0
  {
    TransformEndpoints(m);
    TransformMonotone(m, x, m.hi);
    TransformMonotone(m, m.hi, x);
    TransformMonotone(m, x, m.lo);
  }

  /** `1 / scaler.scale_[0]`, where sklearn stores `scale_ = 1 / (hi - lo)`. */
  function ScaleFactor(m: MinMax): (f: real)
    requires NonDegenerate(m)
    ensures f == m.hi - m.lo
  {
    var scale := 1.0 / (m.hi - m.lo);
    1.0 / scale
  }

  /** `y * scale_factor`, the source's way back to price units. */
  function Rescale(m: MinMax, y: real): (r: real)
    requires NonDegenerate(m)
    ensures r == y * (m.hi - m.lo)
  {
    y * ScaleFactor(m)
  }

  function RescaleAll(m: MinMax, ys: seq<real>): (rs: seq<real>)
    requires NonDegenerate(m)
    ensures |rs| == |ys|
  {
    seq(|ys|, i requires 0 <= i < |ys| => Rescale(m, ys[i]))
  }

  /** Every rescaled value is the scaled value times the training range. */
  lemma RescaleAllByRange(m: MinMax, ys: seq<real>)
    requires NonDegenerate(m)
    ensures |RescaleAll(m, ys)| == |ys|
    ensures forall j :: 0 <= j < |ys| ==> RescaleAll(m, ys)[j] == ys[j] * (m.hi - m.lo)
  {
  }

  /** Rescaling a scaled price gives the price less the training minimum, not the price. */
  lemma RescaleOfTransform(m: MinMax, x: real)
    requires NonDegenerate(m)
    ensures Rescale(m, Transform(m, x)) == x - m.lo
  {
    var d := m.hi - m.lo;
    assert Transform(m, x) * d == x - m.lo;
  }

  /** So the rescale undoes the scaling exactly when the training minimum is 0. */
  lemma RescaleIsInverseOnlyAtZeroMin(m: MinMax, x: real)
    requires NonDegenerate(m)
    ensures Rescale(m, Transform(m, x)) == x <==> m.lo == 0.0
  {
    RescaleOfTransform(m, x);
  }

  /** A concrete instance: training [1, 2], the price 2 is charted as 1. */
  lemma RescaleCounterexample()
    ensures Fit([1.0, 2.0]) == Some(MinMax(1.0, 2.0))
    ensures Rescale(MinMax(1.0, 2.0), Transform(MinMax(1.0, 2.0), 2.0)) == 1.0
  {
    var training := [1.0, 2.0];
    assert training[1..] == [2.0];
    assert Min(training) == 1.0 && Max(training) == 2.0;
    RescaleOfTransform(MinMax(1.0, 2.0), 2.0);
  }

  /**
   * One factor is applied to both the targets and the predictions, so their
   * order is kept and every gap between them is multiplied by hi - lo.
   */
  lemma RescaleKeepsOrderAndGaps(m: MinMax, a: real, b: real)
    requires NonDegenerate(m)
    ensures a < b <==> Rescale(m, a) < Rescale(m, b)
    ensures Rescale(m, b) - Rescale(m, a) == (b - a) * (m.hi - m.lo)
  {
    var d := m.hi - m.lo;
    assert Rescale(m, b) - Rescale(m, a) == (b - a) * d;
  }

  /** The inverse the scaler itself offers (`inverse_transform`), which adds lo back. */
  function InverseTransform(m: MinMax, y: real): real
    requires NonDegenerate(m)
  {
    y * (m.hi - m.lo) + m.lo
  }

  lemma InverseRoundTrip(m: MinMax, x: real, y: real)
    requires NonDegenerate(m)
    ensures InverseTransform(m, Transform(m, x)) == x
    ensures Transform(m, InverseTransform(m, y)) == y
  {
    var d := m.hi - m.lo;
    assert Transform(m, x) * d == x - m.lo;
    assert (y * d + m.lo - m.lo) / d == y;
  }

  // ------------------------------------------------------------- windows

  /** xs and ys are the windows of length w over arr, each paired with the value that follows it. */
  predicate WindowsOf(arr: seq<real>, w: nat, xs: seq<seq<real>>, ys: seq<real>)
  {
    && |xs| == |ys| == (if |arr| > w then |arr| - w else 0)
    && forall j :: 0 <= j < |xs| ==> j + w < |arr| && xs[j] == arr[j..j + w] && ys[j] == arr[j + w]
  }

  /**
   * The `for i in range(100, len(arr))` loops that build `x_train`/`y_train`
   * and `x_test`/`y_test`: window `i - w` is `arr[i-w:i]` and its target is `arr[i]`.
   */
  method MakeWindows(arr: seq<real>, w: nat) returns (xs: seq<seq<real>>, ys: seq<real>)
    ensures WindowsOf(arr, w, xs, ys)
  {
    xs, ys := [], [];
    var i := w;
    while i < |arr|
      invariant w <= i && (i <= |arr| || i == w)
      invariant |xs| == i - w && |ys| == i - w
      invariant forall j {:trigger xs[j]} :: 0 <= j < |xs| ==> xs[j] == arr[j..j + w]
      invariant forall j {:trigger ys[j]} :: 0 <= j < |ys| ==> ys[j] == arr[j + w]
    {
      xs := xs + [arr[i - w..i]];
      ys := ys + [arr[i]];
      i := i + 1;
    }
    assert |xs| == |ys| == (if |arr| > w then |arr| - w else 0);
    assert forall j :: 0 <= j < |xs| ==> j + w < |arr| && xs[j] == arr[j..j + w] && ys[j] == arr[j + w];
  }

  /** Scaling commutes with slicing. */
  lemma TransformAllSlice(m: MinMax, xs: seq<real>, a: nat, b: nat)
    requires NonDegenerate(m) && a <= b <= |xs|
    ensures TransformAll(m, xs)[a..b] == TransformAll(m, xs[a..b])
  {
  }

  /** Training window j is the scaled closes j..j+99 and its target the scaled close j+100. */
  lemma TrainingWindowsAlign(close: seq<real>, k: nat, m: MinMax, xs: seq<seq<real>>, ys: seq<real>)
    requires k <= |close| && NonDegenerate(m)
    requires WindowsOf(TransformAll(m, close[..k]), Lookback, xs, ys)
    ensures |xs| == |ys| == if k > Lookback then k - Lookback else 0
    ensures forall j :: 0 <= j < |xs| ==>
      xs[j] == TransformAll(m, close[j..j + Lookback]) && ys[j] == Transform(m, close[j + Lookback])
  {
    var arr := TransformAll(m, close[..k]);
    forall j | 0 <= j < |xs|
      ensures xs[j] == TransformAll(m, close[j..j + Lookback])
    {
      TransformAllSlice(m, close[..k], j, j + Lookback);
      assert close[..k][j..j + Lookback] == close[j..j + Lookback];
    }
  }

  /** `pd.concat([data_training.tail(100), data_testing])`. */
  function LeadIn(training: seq<real>, testing: seq<real>): (l: seq<real>)
    ensures |l| == (if |training| < Lookback then |training| else Lookback) + |testing|
    ensures l[|l| - |testing|..] == testing
    ensures l[..|l| - |testing|] == training[|training| - (|l| - |testing|)..]
  {
    Tail(training, Lookback) + testing
  }

  /**
   * With at least 100 training rows the lead-in is the contiguous stretch of
   * the closing prices that starts 100 rows before the split point.
   */
  lemma LeadInIsContiguous(close: seq<real>, k: nat)
    requires Lookback <= k <= |close|
    ensures LeadIn(Split(close, k).0, Split(close, k).1) == close[k - Lookback..]
    ensures |LeadIn(Split(close, k).0, Split(close, k).1)| == Lookback + (|close| - k)
  {
    assert close[..k][k - Lookback..] + close[k..] == close[k - Lookback..];
  }

  /**
   * With at least 100 training rows there is one test window per testing day:
   * window j is the scaled 100 closes before day k + j and its target is the
   * scaled close of that day, `testing[j]`.
   */
  lemma TestWindowsAlign(close: seq<real>, k: nat, m: MinMax, xs: seq<seq<real>>, ys: seq<real>)
    requires Lookback <= k <= |close| && NonDegenerate(m)
    requires WindowsOf(TransformAll(m, LeadIn(close[..k], close[k..])), Lookback, xs, ys)
    ensures |xs| == |ys| == |close| - k
    ensures forall j :: 0 <= j < |xs| ==>
      xs[j] == TransformAll(m, close[k - Lookback + j..k + j]) && ys[j] == Transform(m, close[k + j])
  {
    LeadInIsContiguous(close, k);
    var tail := close[k - Lookback..];
    forall j | 0 <= j < |xs|
      ensures xs[j] == TransformAll(m, close[k - Lookback + j..k + j])
    {
      TransformAllSlice(m, tail, j, j + Lookback);
      assert tail[j..j + Lookback] == close[k - Lookback + j..k + j];
    }
  }

  // ------------------------------------------------------------ pipeline

  /** `model.predict(x_test)`: one prediction per window. */
  function PredictAll(model: seq<real> -> real, xs: seq<seq<real>>): (ys: seq<real>)
    ensures |ys| == |xs|
    ensures forall j :: 0 <= j < |xs| ==> ys[j] == model(xs[j])
  {
    seq(|xs|, j requires 0 <= j < |xs| => model(xs[j]))
  }

  /** The charted predictions: each window's prediction times the training range. */
  lemma RescaledPredictions(m: MinMax, model: seq<real> -> real, xs: seq<seq<real>>)
    requires NonDegenerate(m)
    ensures |RescaleAll(m, PredictAll(model, xs))| == |xs|
    ensures forall j :: 0 <= j < |xs| ==> RescaleAll(m, PredictAll(model, xs))[j] == model(xs[j]) * (m.hi - m.lo)
  {
    var ys := PredictAll(model, xs);
    RescaleAllByRange(m, ys);
  }

  datatype ForecastError =
    | EmptyTrainingSet   // `fit_transform` on zero rows raises
    | NoTrainingWindows  // 100 or fewer training rows: `x_train.shape[1]` raises

  /** The fitted scaler, the training set, and what is charted: the rescaled test targets and predictions. */
  datatype Forecast = Forecast(
    scaler: MinMax,
    xTrain: seq<seq<real>>,
    yTrain: seq<real>,
    xTest: seq<seq<real>>,
    actual: seq<real>,
    predicted: seq<real>)

  /** Training window j holds the scaled closes j..j+99 and its target is the scaled close j+100. */
  predicate TrainingSetOf(close: seq<real>, k: nat, f: Forecast)
    requires k <= |close| && NonDegenerate(f.scaler)
  {
    && |f.xTrain| == |f.yTrain| == k - Lookback
    && forall j :: 0 <= j < k - Lookback ==>
         && f.xTrain[j] == TransformAll(f.scaler, close[j..j + Lookback])
         && f.yTrain[j] == Transform(f.scaler, close[j + Lookback])
  }

  /**
   * One charted point per testing day k + j: the window holds the scaled 100
   * closes before that day, the "original price" is that day's close less the
   * training minimum, and the prediction is the model's output on the window
   * times the training range.
   */
  predicate ChartOf(close: seq<real>, k: nat, model: seq<real> -> real, f: Forecast)
    requires Lookback <= k <= |close| && NonDegenerate(f.scaler)
  {
    var m := f.scaler;
    && |f.xTest| == |f.actual| == |f.predicted| == |close| - k
    && forall j :: 0 <= j < |close| - k ==>
         && f.xTest[j] == TransformAll(m, close[k - Lookback + j..k + j])
         && f.actual[j] == close[k + j] - m.lo
         && f.predicted[j] == model(f.xTest[j]) * (m.hi - m.lo)
  }

  /**
   * The test windows built from the lead-in, their rescaled targets and the
   * rescaled predictions line up with the testing days as `ChartOf` says.
   */
  lemma ChartedPair(close: seq<real>, k: nat, m: MinMax, model: seq<real> -> real,
                    xTrain: seq<seq<real>>, yTrain: seq<real>, xs: seq<seq<real>>, ys: seq<real>)
    requires Lookback <= k <= |close| && NonDegenerate(m)
    requires WindowsOf(TransformAll(m, LeadIn(close[..k], close[k..])), Lookback, xs, ys)
    ensures ChartOf(close, k, model, Forecast(m, xTrain, yTrain, xs, RescaleAll(m, ys), RescaleAll(m, PredictAll(model, xs))))
  {
    var f := Forecast(m, xTrain, yTrain, xs, RescaleAll(m, ys), RescaleAll(m, PredictAll(model, xs)));
    TestWindowsAlign(close, k, m, xs, ys);
    RescaledPredictions(m, model, xs);
    forall j | 0 <= j < |close| - k
      ensures f.actual[j] == close[k + j] - m.lo
    {
      RescaleOfTransform(m, close[k + j]);
    }
  }

  /**
   * The chart the corrected map `InverseTransform` gives from the same test
   * targets and predictions: the original value of testing day k + j is that close itself,
   * which the charted one falls short of by the training minimum, and its
   * prediction likewise lies the training minimum above the charted one.
   */
  lemma IntendedChart(close: seq<real>, k: nat, model: seq<real> -> real, f: Forecast, j: nat)
    requires Lookback <= k <= |close| && NonDegenerate(f.scaler)
    requires ChartOf(close, k, model, f) && j < |close| - k
    ensures InverseTransform(f.scaler, Transform(f.scaler, close[k + j])) == close[k + j]
    ensures f.actual[j] + f.scaler.lo == close[k + j]
    ensures InverseTransform(f.scaler, model(f.xTest[j])) == f.predicted[j] + f.scaler.lo
  {
    InverseRoundTrip(f.scaler, close[k + j], 0.0);
  }

  /**
   * A training part long enough to yield windows has a proper range
   * (sklearn's flat-series handling is not modelled). Shorter training parts
   * end in the missing-window crash whatever their values.
   */
  predicate TrainingNotFlat(close: seq<real>, k: nat)
    requires k <= |close|
  {
    k > Lookback ==> Min(close[..k]) < Max(close[..k])
  }

  /**
   * The "Start LSTM Training" branch of `render_analysis`, from the split to
   * the rescaled pair that is plotted. `k` is the split point and `model` the
   * trained network's prediction for one window; its training is not modelled.
   */
  method RunForecast(close: seq<real>, k: nat, model: seq<real> -> real) returns (r: Result<Forecast, ForecastError>)
    requires k <= |close|
    requires TrainingNotFlat(close, k)
    ensures FloatSplitPoint(|close|, k) && 10 <= |close| <= 144 ==> r == Failure(NoTrainingWindows)
    ensures FloatSplitPoint(|close|, k) && |close| >= 146 ==> r.Success?
    ensures r == Failure(EmptyTrainingSet) <==> k == 0
    ensures r == Failure(NoTrainingWindows) <==> 0 < k <= Lookback
    ensures r.Success? ==> r.value.scaler == MinMax(Min(close[..k]), Max(close[..k]))
    ensures r.Success? ==> NonDegenerate(r.value.scaler)
    ensures r.Success? ==> TrainingSetOf(close, k, r.value)
    ensures r.Success? ==> ChartOf(close, k, model, r.value)
  {
    if FloatSplitPoint(|close|, k) {
      SplitPointInRange(|close|, k);
    }
    var (training, testing) := Split(close, k);
    var fitted := Fit(training);
    if fitted.None? {
      return Failure(EmptyTrainingSet);
    }
    var m := fitted.value;
    assert training == close[..k] && testing == close[k..];
    assert m == MinMax(Min(close[..k]), Max(close[..k]));
    if |training| <= Lookback {
      // `range(100, len(data_training_array))` is empty: x_train has no rows,
      // whatever the scaled values are, and `x_train.shape[1]` raises.
      return Failure(NoTrainingWindows);
    }
    var trainingArray := TransformAll(m, training);
    var xTrain, yTrain := MakeWindows(trainingArray, Lookback);
    TrainingWindowsAlign(close, k, m, xTrain, yTrain);
    var inputData := TransformAll(m, LeadIn(training, testing));
    var xTest, yTest := MakeWindows(inputData, Lookback);
    var yPredicted := PredictAll(model, xTest);
    ChartedPair(close, k, m, model, xTrain, yTrain, xTest, yTest);
    var f := Forecast(m, xTrain, yTrain, xTest, RescaleAll(m, yTest), RescaleAll(m, yPredicted));
    assert TrainingSetOf(close, k, f);
    assert ChartOf(close, k, model, f);
    r := Success(f);
  }
}
