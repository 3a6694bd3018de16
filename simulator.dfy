/**
 * The per-model simulation of `runSimulation`: every model walks the series
 * with its own generator, perturbs each actual price by a relative error of
 * penalty x difficulty x noise, clamps the prediction at 0, records the
 * absolute error and counts how often the predicted move has the direction of
 * the actual one. The metrics are then folded from those sequences.
 */
module Simulator {
  import opened Wrappers
  import opened Types
  import opened Host
  import opened Mulberry32
  import opened SeriesStats

  function Abs(x: real): (r: real)
    ensures r >= 0.0 && (r == x || r == -x)
  {
    if x < 0.0 then -x else x
  }

  /** `Math.max(0, x)`. */
  function ClampAtZero(x: real): (r: real)
    ensures r >= 0.0 && r >= x && (r == 0.0 || r == x)
  {
    if 0.0 >= x then 0.0 else x
  }

  /**
   * The difficulty multiplier of a point, set by three `if`s in a row so that
   * a later match overrides an earlier one.
   */
  function Difficulty(hour: real, dayOfWeek: Option<int>): (r: real)
    ensures r == 1.0 || r == 1.15 || r == 1.2 || r == 1.3
  {
    var evening := if 18.0 <= hour <= 22.0 then 1.3 else 1.0;
    var morning := if 7.0 <= hour <= 10.0 then 1.15 else evening;
    if dayOfWeek == Some(1) && hour < 6.0 then 1.2 else morning
  }

  /**
   * The multiplier is one of four values, each for exactly one situation:
   * a Monday before 6 h, the morning peak 7-10 h, the evening peak 18-22 h,
   * and 1 for every other point.
   */
  lemma DifficultyCases(hour: real, dayOfWeek: Option<int>)
    ensures var d := Difficulty(hour, dayOfWeek);
      && (d == 1.2 <==> dayOfWeek == Some(1) && hour < 6.0)
      && (d == 1.15 <==> 7.0 <= hour <= 10.0)
      && (d == 1.3 <==> 18.0 <= hour <= 22.0)
      && (d == 1.0 <==> !(dayOfWeek == Some(1) && hour < 6.0) && !(7.0 <= hour <= 10.0) && !(18.0 <= hour <= 22.0))
  {
  }

  /** `(modelRng() - 0.5) * 2`. */
  function Noise(draw: real): (r: real)
    requires 0.0 <= draw < 1.0
    ensures -1.0 <= r < 1.0
  {
    (draw - 0.5) * 2.0
  }

  /** `Math.max(0, actual + actual * (penalty * difficulty * noise))`. */
  function Predict(actual: real, penalty: real, difficulty: real, noise: real): (r: real)
    ensures r >= 0.0
  {
    ClampAtZero(actual + actual * (penalty * difficulty * noise))
  }

  lemma ScaledNoise(a: real, k: real, noise: real)
    requires a >= 0.0 && k >= 0.0 && -1.0 <= noise <= 1.0
    ensures Abs(a * (k * noise)) <= a * k
  {
    if noise >= 0.0 {
      assert a * (k * noise) == (a * k) * noise;
      assert (a * k) * noise <= a * k;
    } else {
      assert -(a * (k * noise)) == (a * k) * -noise;
      assert (a * k) * -noise <= a * k;
    }
  }

  /**
   * For a non-negative price and penalty, the error of a prediction is at
   * most penalty x difficulty times the price: clamping at 0 only shortens it.
   */
  lemma PredictionErrorBound(actual: real, penalty: real, difficulty: real, noise: real)
    requires actual >= 0.0 && penalty >= 0.0 && difficulty >= 0.0 && -1.0 <= noise <= 1.0
    ensures Abs(actual - Predict(actual, penalty, difficulty, noise)) <= actual * (penalty * difficulty)
  {
    var k := penalty * difficulty;
    assert k >= 0.0;
    assert penalty * difficulty * noise == k * noise;
    ScaledNoise(actual, k, noise);
  }

  /** The direction test: both moves up, both down, or both exactly flat. */
  predicate DirectionHit(prevActual: real, currActual: real, pred: real) {
    var actualDiff := currActual - prevActual;
    var predDiff := pred - prevActual;
    (actualDiff > 0.0 && predDiff > 0.0) || (actualDiff < 0.0 && predDiff < 0.0) || (actualDiff == 0.0 && predDiff == 0.0)
  }

  /** The prediction for one point, given the model's penalty and the draw taken for the point. */
  function PointPrediction(point: DataPoint, penalty: real, draw: real): (r: real)
    requires 0.0 <= draw < 1.0
    ensures r >= 0.0
  {
    var difficultyMultiplier := Difficulty(point.hour, point.dayOfWeek);
    Predict(point.mcpKWh, penalty, difficultyMultiplier, Noise(draw))
  }

  /** The prediction for point `i`, made with draw `i` of the model's own stream. */
  function PredictionAt(data: seq<DataPoint>, penalty: real, modelSeed: nat, i: nat): real
    requires i < |data|
  {
    PointPrediction(data[i], penalty, Draw(modelSeed, i))
  }

  /** The predictions for the first `k` points, in data order. */
  function ModelPredictions(data: seq<DataPoint>, penalty: real, modelSeed: nat, k: nat): (ps: seq<real>)
    requires k <= |data|
    ensures |ps| == k
  {
    if k == 0 then [] else ModelPredictions(data, penalty, modelSeed, k - 1) + [PredictionAt(data, penalty, modelSeed, k - 1)]
  }

  /** Prediction `i` is made for point `i` with draw `i`, and is never negative. */
  lemma {:induction false} ModelPredictionsAt(data: seq<DataPoint>, penalty: real, modelSeed: nat, k: nat, i: nat)
    requires i < k <= |data|
    ensures ModelPredictions(data, penalty, modelSeed, k)[i] == PredictionAt(data, penalty, modelSeed, i)
    ensures ModelPredictions(data, penalty, modelSeed, k)[i] >= 0.0
  {
    if i < k - 1 {
      ModelPredictionsAt(data, penalty, modelSeed, k - 1, i);
    }
  }

  /** `Math.abs(actual - predicted)` for the first `k` points, in data order. */
  function ModelErrors(data: seq<DataPoint>, penalty: real, modelSeed: nat, k: nat): (es: seq<real>)
    requires k <= |data|
    ensures |es| == k
  {
    if k == 0 then []
    else ModelErrors(data, penalty, modelSeed, k - 1) + [Abs(data[k - 1].mcpKWh - PredictionAt(data, penalty, modelSeed, k - 1))]
  }

  /** Error `i` is the distance of prediction `i` from the price of point `i`, and so never negative. */
  lemma {:induction false} ModelErrorsAt(data: seq<DataPoint>, penalty: real, modelSeed: nat, k: nat, i: nat)
    requires i < k <= |data|
    ensures ModelErrors(data, penalty, modelSeed, k)[i]
            == Abs(data[i].mcpKWh - ModelPredictions(data, penalty, modelSeed, k)[i])
    ensures ModelErrors(data, penalty, modelSeed, k)[i] >= 0.0
  {
    ModelPredictionsAt(data, penalty, modelSeed, k, i);
    ErrorsAt(data, penalty, modelSeed, k, i);
  }

  lemma {:induction false} ErrorsAt(data: seq<DataPoint>, penalty: real, modelSeed: nat, k: nat, i: nat)
    requires i < k <= |data|
    ensures ModelErrors(data, penalty, modelSeed, k)[i] == Abs(data[i].mcpKWh - PredictionAt(data, penalty, modelSeed, i))
  {
    if i < k - 1 {
      ErrorsAt(data, penalty, modelSeed, k - 1, i);
    }
  }

  /**
   * Over the whole series: every prediction is non-negative and every error
   * is the distance of its prediction from the actual price.
   */
  lemma SeriesShape(data: seq<DataPoint>, penalty: real, modelSeed: nat)
    ensures var predictions := ModelPredictions(data, penalty, modelSeed, |data|);
      var errors := ModelErrors(data, penalty, modelSeed, |data|);
      && (forall j :: 0 <= j < |data| ==> predictions[j] >= 0.0)
      && (forall j :: 0 <= j < |data| ==> errors[j] == Abs(data[j].mcpKWh - predictions[j]))
      && NonNegative(errors)
  {
    var predictions := ModelPredictions(data, penalty, modelSeed, |data|);
    var errors := ModelErrors(data, penalty, modelSeed, |data|);
    forall j | 0 <= j < |data|
      ensures predictions[j] >= 0.0
      ensures errors[j] == Abs(data[j].mcpKWh - predictions[j]) && errors[j] >= 0.0
    {
      ModelPredictionsAt(data, penalty, modelSeed, |data|, j);
      ModelErrorsAt(data, penalty, modelSeed, |data|, j);
    }
  }

  /** One point further, the predictions and the errors each grow by that point's entry. */
  lemma ModelStep(data: seq<DataPoint>, penalty: real, modelSeed: nat, k: nat)
    requires k < |data|
    ensures ModelPredictions(data, penalty, modelSeed, k + 1)
            == ModelPredictions(data, penalty, modelSeed, k) + [PredictionAt(data, penalty, modelSeed, k)]
    ensures ModelErrors(data, penalty, modelSeed, k + 1)
            == ModelErrors(data, penalty, modelSeed, k) + [Abs(data[k].mcpKWh - PredictionAt(data, penalty, modelSeed, k))]
  {
  }

  /** The number of points after the first whose predicted move has the actual direction. */
  function CorrectCount(data: seq<DataPoint>, predictions: seq<real>): (c: nat)
    requires |predictions| <= |data|
    ensures c <= DirectionChecks(|predictions|)
  {
    if |predictions| <= 1 then 0
    else
      var k := |predictions| - 1;
      CorrectCount(data, predictions[..k])
      + (if DirectionHit(data[k - 1].mcpKWh, data[k].mcpKWh, predictions[k]) then 1 else 0)
  }

  /** One more prediction adds one to the count exactly when it is not the first and its move is a hit. */
  lemma CorrectCountSnoc(data: seq<DataPoint>, predictions: seq<real>, pred: real)
    requires |predictions| < |data|
    ensures var k := |predictions|;
      CorrectCount(data, predictions + [pred])
      == CorrectCount(data, predictions) + (if k > 0 && DirectionHit(data[k - 1].mcpKWh, data[k].mcpKWh, pred) then 1 else 0)
  {
    var longer := predictions + [pred];
    assert longer[..|predictions|] == predictions;
    assert longer[|predictions|] == pred;
  }

  /** The number of direction checks after `k` points: one per point after the first. */
  function DirectionChecks(k: nat): nat {
    if k == 0 then 0 else k - 1
  }

  /**
   * The rest of the loop body for point `i`, once its prediction is made:
   * append the prediction and its error, then score its direction against
   * the previous point's price.
   */
  method RecordPoint(data: seq<DataPoint>, penalty: real, modelSeed: nat, i: nat, pred: real,
                     predictions: seq<real>, errors: seq<real>, correct: nat, checks: nat)
    returns (predictions': seq<real>, errors': seq<real>, correct': nat, checks': nat)
    requires i < |data| && pred == PredictionAt(data, penalty, modelSeed, i)
    requires predictions == ModelPredictions(data, penalty, modelSeed, i)
    requires errors == ModelErrors(data, penalty, modelSeed, i)
    requires correct == CorrectCount(data, predictions) && checks == DirectionChecks(i)
    ensures predictions' == ModelPredictions(data, penalty, modelSeed, i + 1)
    ensures errors' == ModelErrors(data, penalty, modelSeed, i + 1)
    ensures correct' == CorrectCount(data, predictions') && checks' == DirectionChecks(i + 1)
  {
    ModelStep(data, penalty, modelSeed, i);
    CorrectCountSnoc(data, predictions, pred);
    predictions' := predictions + [pred];
    errors' := errors + [Abs(data[i].mcpKWh - pred)];
    correct', checks' := correct, checks;
    if i > 0 {
      if DirectionHit(data[i - 1].mcpKWh, data[i].mcpKWh, pred) {
        correct' := correct' + 1;
      }
      checks' := checks' + 1;
    }
  }

  /**
   * The body of `data.forEach` for one model: a fresh generator seeded with
   * the model's seed, one draw per point, in data order.
   */
  method SimulateModel(data: seq<DataPoint>, penalty: real, modelSeed: nat)
    returns (predictions: seq<real>, errors: seq<real>, correct: nat, checks: nat)
    ensures predictions == ModelPredictions(data, penalty, modelSeed, |data|)
    ensures errors == ModelErrors(data, penalty, modelSeed, |data|)
    ensures correct == CorrectCount(data, predictions)
    ensures checks == DirectionChecks(|data|)
    ensures correct <= checks
  {
    var rng := new Rng(modelSeed);
    predictions, errors := [], [];
    correct, checks := 0, 0;
    var i := 0;
    while i < |data|
      invariant 0 <= i <= |data|
      invariant rng.Valid() && rng.seed == modelSeed && rng.calls == i
      invariant predictions == ModelPredictions(data, penalty, modelSeed, i)
      invariant errors == ModelErrors(data, penalty, modelSeed, i)
      invariant correct == CorrectCount(data, predictions)
      invariant checks == DirectionChecks(i)
    {
      var draw := rng.Next();
      var pred := PointPrediction(data[i], penalty, draw);
      predictions, errors, correct, checks := RecordPoint(data, penalty, modelSeed, i, pred, predictions, errors, correct, checks);
      i := i + 1;
    }
  }

  /** A series whose prices all stay put, predicted exactly, scores a hit on every check. */
  lemma {:induction false} ExactFlatSeriesAllHits(data: seq<DataPoint>, predictions: seq<real>)
    requires |predictions| <= |data|
    requires forall i :: 0 <= i < |data| ==> data[i].mcpKWh == data[0].mcpKWh
    requires forall i :: 0 <= i < |predictions| ==> predictions[i] == data[i].mcpKWh
    ensures CorrectCount(data, predictions) == DirectionChecks(|predictions|)
  {
    if |predictions| > 1 {
      var k := |predictions| - 1;
      ExactFlatSeriesAllHits(data, predictions[..k]);
      assert DirectionHit(data[k - 1].mcpKWh, data[k].mcpKWh, predictions[k]);
    }
  }

  /** `errors.reduce((sum, e) => sum + e * e, 0)`. */
  function SumSquares(xs: seq<real>): (r: real)
    ensures r >= 0.0
  {
    if xs == [] then 0.0 else SumSquares(xs[..|xs| - 1]) + Square(xs[|xs| - 1])
  }

  function Square(x: real): real {
    x * x
  }

  predicate NonNegative(xs: seq<real>) {
    forall i :: 0 <= i < |xs| ==> xs[i] >= 0.0
  }

  predicate AllZero(xs: seq<real>) {
    forall i :: 0 <= i < |xs| ==> xs[i] == 0.0
  }

  lemma {:induction false} ZeroSumSquares(xs: seq<real>)
    requires AllZero(xs)
    ensures SumSquares(xs) == 0.0
  {
    if xs != [] {
      assert AllZero(xs[..|xs| - 1]);
      ZeroSumSquares(xs[..|xs| - 1]);
    }
  }

  lemma {:induction false} SumNonNegative(xs: seq<real>)
    requires NonNegative(xs)
    ensures Sum(xs) >= 0.0
  {
    if xs != [] {
      SumNonNegative(xs[..|xs| - 1]);
    }
  }

  /** One term of the MAPE sum: 0 where the actual price is 0, else the relative error. */
  function MapeTerm(error: real, actual: real): (r: real)
    ensures r >= 0.0
    ensures actual == 0.0 ==> r == 0.0
    ensures actual != 0.0 ==> r * Abs(actual) == Abs(error)
  {
    if actual == 0.0 then 0.0 else Abs(error / actual)
  }

  /** The MAPE sum over the first `k` errors, each against the price of its own point. */
  function MapeSum(errors: seq<real>, prices: seq<real>, k: nat): (r: real)
    requires k <= |errors| == |prices|
    ensures r >= 0.0
  {
    if k == 0 then 0.0 else MapeSum(errors, prices, k - 1) + MapeTerm(errors[k - 1], prices[k - 1])
  }

  /** The facts about the error sums that the metrics rest on. */
  lemma ErrorSums(errors: seq<real>, prices: seq<real>)
    requires |errors| == |prices|
    ensures NonNegative(errors) ==> Sum(errors) >= 0.0
    ensures AllZero(errors) ==> SumSquares(errors) == 0.0 && Sum(errors) == 0.0 && MapeSum(errors, prices, |errors|) == 0.0
  {
    if NonNegative(errors) {
      SumNonNegative(errors);
    }
    if AllZero(errors) {
      ZeroSumSquares(errors);
      ZeroErrorsSums(errors, prices);
    }
  }

  /** Zero errors give zero sums, whatever the prices. */
  lemma {:induction false} ZeroErrorsSums(errors: seq<real>, prices: seq<real>)
    requires |errors| == |prices| && AllZero(errors)
    ensures Sum(errors) == 0.0 && MapeSum(errors, prices, |errors|) == 0.0
  {
    ZeroMapePrefix(errors, prices, |errors|);
    ZeroSum(errors);
  }

  lemma {:induction false} ZeroSum(xs: seq<real>)
    requires AllZero(xs)
    ensures Sum(xs) == 0.0
  {
    if xs != [] {
      assert AllZero(xs[..|xs| - 1]);
      ZeroSum(xs[..|xs| - 1]);
    }
  }

  lemma {:induction false} ZeroMapePrefix(errors: seq<real>, prices: seq<real>, k: nat)
    requires k <= |errors| == |prices| && AllZero(errors)
    ensures MapeSum(errors, prices, k) == 0.0
  {
    if k > 0 {
      ZeroMapePrefix(errors, prices, k - 1);
      assert errors[k - 1] == 0.0;
    }
  }

  /** `(correctDirection / totalDirectionChecks) * 100`, or 0 without checks. */
  function DirectionalAccuracy(correct: nat, checks: nat): (r: real)
    ensures checks == 0 ==> r == 0.0
    ensures correct <= checks ==> 0.0 <= r <= 100.0
    ensures checks > 0 ==> (r == 100.0 <==> correct == checks)
  {
    if checks > 0 then (correct as real / checks as real) * 100.0 else 0.0
  }

  /** `ssTot === 0 ? 0 : 1 - ssRes / ssTot`. */
  function RSquared(ssRes: real, ssTot: real): (r: real)
    requires ssRes >= 0.0 && ssTot >= 0.0
    ensures ssTot == 0.0 ==> r == 0.0
    ensures r <= 1.0
    ensures ssTot > 0.0 ==> (r == 1.0 <==> ssRes == 0.0)
    ensures ssTot > 0.0 ==> (r >= 0.0 <==> ssRes <= ssTot)
  {
    if ssTot == 0.0 then 0.0 else 1.0 - ssRes / ssTot
  }

  /**
   * The five metrics of one model. The series is non-empty: for an empty one
   * every division here is 0/0 and the run fails later anyway.
   */
  function ComputeMetrics(prices: seq<real>, errors: seq<real>, correct: nat, checks: nat, meanPrice: real, num: Numerics): (r: Metrics)
    requires ValidNumerics(num)
    requires |errors| == |prices| >= 1
    ensures r.rmse >= 0.0 && r.mape >= 0.0
    ensures r.r2 <= 1.0
  {
    var n := |errors| as real;
    var ssRes := SumSquares(errors);
    var mse := ssRes / n;
    var mae := Sum(errors) / n;
    var mape := (MapeSum(errors, prices, |errors|) / n) * 100.0;
    var ssTot := SumSquaredDeviations(prices, meanPrice);
    Metrics(num.sqrt(mse), mae, mape, RSquared(ssRes, ssTot), DirectionalAccuracy(correct, checks))
  }

  /**
   * What the metrics say about the errors: a flat price series gives R² = 0,
   * non-negative errors a non-negative MAE, a perfect model zero error
   * measures and (on a varying series) R² = 1, and the directional accuracy
   * is a percentage.
   */
  lemma MetricsMeaning(prices: seq<real>, errors: seq<real>, correct: nat, checks: nat, meanPrice: real, num: Numerics)
    requires ValidNumerics(num)
    requires |errors| == |prices| >= 1
    ensures var r := ComputeMetrics(prices, errors, correct, checks, meanPrice, num);
      && (SumSquaredDeviations(prices, meanPrice) == 0.0 ==> r.r2 == 0.0)
      && (NonNegative(errors) ==> r.mae >= 0.0)
      && (AllZero(errors) ==> r.rmse == 0.0 && r.mae == 0.0 && r.mape == 0.0)
      && (AllZero(errors) && SumSquaredDeviations(prices, meanPrice) > 0.0 ==> r.r2 == 1.0)
      && (checks == 0 ==> r.directionalAccuracy == 0.0)
      && (correct <= checks ==> 0.0 <= r.directionalAccuracy <= 100.0)
  {
    ErrorSums(errors, prices);
  }
}
