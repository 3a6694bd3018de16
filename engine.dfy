/**
 * `runSimulation`: seed the run from the dataset, describe the series,
 * score the six models, simulate each model's predictions and metrics,
 * pick the model with the least RMSE and forecast the coming days with its
 * error as the band.
 */
module Engine {
  import opened Wrappers
  import opened Types
  import opened Host
  import SeriesStats
  import Fingerprint
  import Registry
  import Simulator
  import Winner
  import Forecast

  /** `Math.abs(slope) * 1000`. */
  function TrendStrength(slope: real): (t: real)
    ensures t >= 0.0
  {
    Simulator.Abs(slope) * 1000.0
  }

  /** `modelPenalties` in registry order. */
  function Penalties(volatility: real, trendStrength: real, dataLength: nat, seed: nat): (ps: seq<real>)
    ensures |ps| == |Registry.Models|
  {
    seq(|Registry.Models|, i requires 0 <= i < |Registry.Models| =>
      Registry.PenaltyAt(i, volatility, trendStrength, dataLength, seed))
  }

  /** The result stored for `model` run on its own stream `modelSeed`: its predictions and errors, and their metrics. */
  function ResultFor(data: seq<DataPoint>, model: Registry.ModelId, penalty: real, modelSeed: nat,
                     meanPrice: real, num: Numerics): PredictionResult
    requires ValidNumerics(num) && |data| >= 1
  {
    var predictions := Simulator.ModelPredictions(data, penalty, modelSeed, |data|);
    var errors := Simulator.ModelErrors(data, penalty, modelSeed, |data|);
    var metrics := Simulator.ComputeMetrics(Prices(data), errors, Simulator.CorrectCount(data, predictions),
                                            Simulator.DirectionChecks(|data|), meanPrice, num);
    PredictionResult(model.Name(), predictions, errors, metrics, model.Color())
  }

  /** The result stored for model `i`, whose stream is seeded by the dataset seed plus the model's offset. */
  function ModelResultAt(data: seq<DataPoint>, penalties: seq<real>, seed: nat, meanPrice: real,
                         num: Numerics, i: nat): PredictionResult
    requires ValidNumerics(num) && |data| >= 1
    requires |penalties| == |Registry.Models| && i < |Registry.Models|
  {
    var model := Registry.Models[i];
    ResultFor(data, model, penalties[i], seed + Registry.ModelSeedOffset(model), meanPrice, num)
  }

  /** The results of the first `k` models, in registry order. */
  function ModelResults(data: seq<DataPoint>, penalties: seq<real>, seed: nat, meanPrice: real,
                        num: Numerics, k: nat): (rs: seq<PredictionResult>)
    requires ValidNumerics(num) && |data| >= 1
    requires |penalties| == |Registry.Models| && k <= |Registry.Models|
    ensures |rs| == k
  {
    if k == 0 then []
    else ModelResults(data, penalties, seed, meanPrice, num, k - 1)
         + [ModelResultAt(data, penalties, seed, meanPrice, num, k - 1)]
  }

  lemma {:induction false} ModelResultsAt(data: seq<DataPoint>, penalties: seq<real>, seed: nat, meanPrice: real,
                                          num: Numerics, k: nat, i: nat)
    requires ValidNumerics(num) && |data| >= 1
    requires |penalties| == |Registry.Models| && i < k <= |Registry.Models|
    ensures ModelResults(data, penalties, seed, meanPrice, num, k)[i]
            == ModelResultAt(data, penalties, seed, meanPrice, num, i)
  {
    if i < k - 1 {
      ModelResultsAt(data, penalties, seed, meanPrice, num, k - 1, i);
    }
  }

  /** Every result is named and coloured after its model, with one prediction and one error per point. */
  lemma ResultNamed(data: seq<DataPoint>, model: Registry.ModelId, penalty: real, modelSeed: nat,
                    meanPrice: real, num: Numerics)
    requires ValidNumerics(num) && |data| >= 1
    ensures var r := ResultFor(data, model, penalty, modelSeed, meanPrice, num);
      && r.modelName == model.Name() && r.color == model.Color()
      && |r.predictions| == |data| && |r.errors| == |data|
  {
  }

  /** No prediction is negative. */
  lemma ResultPredictions(data: seq<DataPoint>, model: Registry.ModelId, penalty: real, modelSeed: nat,
                          meanPrice: real, num: Numerics, j: nat)
    requires ValidNumerics(num) && |data| >= 1 && j < |data|
    ensures ResultFor(data, model, penalty, modelSeed, meanPrice, num).predictions[j] >= 0.0
  {
    Simulator.ModelPredictionsAt(data, penalty, modelSeed, |data|, j);
  }

  /** Every error is the distance of its prediction from the actual price. */
  lemma ResultErrors(data: seq<DataPoint>, model: Registry.ModelId, penalty: real, modelSeed: nat,
                     meanPrice: real, num: Numerics, j: nat)
    requires ValidNumerics(num) && |data| >= 1 && j < |data|
    ensures var r := ResultFor(data, model, penalty, modelSeed, meanPrice, num);
      r.errors[j] == Simulator.Abs(data[j].mcpKWh - r.predictions[j])
  {
    Simulator.ModelErrorsAt(data, penalty, modelSeed, |data|, j);
  }

  /** Every result's metrics are in range: no negative error measure, R² at most 1, accuracy a percentage. */
  lemma ResultMetrics(data: seq<DataPoint>, model: Registry.ModelId, penalty: real, modelSeed: nat,
                      meanPrice: real, num: Numerics)
    requires ValidNumerics(num) && |data| >= 1
    ensures var m := ResultFor(data, model, penalty, modelSeed, meanPrice, num).metrics;
      && m.rmse >= 0.0 && m.mae >= 0.0 && m.mape >= 0.0 && m.r2 <= 1.0
      && 0.0 <= m.directionalAccuracy <= 100.0
  {
    var predictions := Simulator.ModelPredictions(data, penalty, modelSeed, |data|);
    var errors := Simulator.ModelErrors(data, penalty, modelSeed, |data|);
    Simulator.SeriesShape(data, penalty, modelSeed);
    Simulator.MetricsMeaning(Prices(data), errors, Simulator.CorrectCount(data, predictions),
                             Simulator.DirectionChecks(|data|), meanPrice, num);
  }

  /**
   * `at` agrees with `ModelResultAt` on every model. The model loop carries
   * this fact rather than the results themselves, so that it reasons about
   * positions without unfolding each model's simulation.
   */
  ghost predicate DescribesResults(data: seq<DataPoint>, penalties: seq<real>, seed: nat, meanPrice: real,
                                   num: Numerics, at: nat -> PredictionResult)
    requires ValidNumerics(num) && |data| >= 1 && |penalties| == |Registry.Models|
  {
    forall i: nat {:trigger ModelResultAt(data, penalties, seed, meanPrice, num, i)} ::
      i < |Registry.Models| ==> at(i) == ModelResultAt(data, penalties, seed, meanPrice, num, i)
  }

  /** The results of all models, as one function value. */
  ghost function ResultTable(data: seq<DataPoint>, penalties: seq<real>, seed: nat, meanPrice: real,
                             num: Numerics): (at: nat -> PredictionResult)
    requires ValidNumerics(num) && |data| >= 1 && |penalties| == |Registry.Models|
    ensures DescribesResults(data, penalties, seed, meanPrice, num, at)
  {
    (i: nat) =>
      if i < |Registry.Models| then ModelResultAt(data, penalties, seed, meanPrice, num, i)
      else PredictionResult("", [], [], Metrics(0.0, 0.0, 0.0, 0.0, 0.0), "")
  }

  /**
   * The body of `MODELS.forEach` for model `i`: the entry of `at`, which is
   * `ModelResultAt`, under the model's own name and colour, with one
   * prediction and one error per point.
   */
  method SimulateOne(data: seq<DataPoint>, prices: seq<real>, penalties: seq<real>, seed: nat,
                     meanPrice: real, num: Numerics, ghost at: nat -> PredictionResult, i: nat)
    returns (result: PredictionResult)
    requires ValidNumerics(num) && |data| >= 1 && prices == Prices(data)
    requires |penalties| == |Registry.Models| && i < |Registry.Models|
    requires DescribesResults(data, penalties, seed, meanPrice, num, at)
    ensures result == at(i)
    ensures result.modelName == Registry.Models[i].Name() && result.color == Registry.Models[i].Color()
    ensures |result.predictions| == |data| && |result.errors| == |data|
  {
    var model := Registry.Models[i];
    var modelSeed := seed + Registry.ModelSeedOffset(model);
    var predictions, errors, correctDirection, totalDirectionChecks :=
      Simulator.SimulateModel(data, penalties[i], modelSeed);
    var metrics := Simulator.ComputeMetrics(prices, errors, correctDirection, totalDirectionChecks, meanPrice, num);
    result := PredictionResult(model.Name(), predictions, errors, metrics, model.Color());
    assert result == ResultFor(data, model, penalties[i], modelSeed, meanPrice, num);
    assert result == ModelResultAt(data, penalties, seed, meanPrice, num, i);
  }

  /** Step 4: every model in registry order. */
  method RunModels(data: seq<DataPoint>, prices: seq<real>, penalties: seq<real>, seed: nat,
                   meanPrice: real, num: Numerics, ghost at: nat -> PredictionResult)
    returns (results: seq<PredictionResult>)
    requires ValidNumerics(num) && |data| >= 1 && prices == Prices(data)
    requires |penalties| == |Registry.Models|
    requires DescribesResults(data, penalties, seed, meanPrice, num, at)
    ensures results == ModelResults(data, penalties, seed, meanPrice, num, |Registry.Models|)
  {
    results := [];
    var i := 0;
    while i < |Registry.Models|
      invariant 0 <= i <= |Registry.Models| && |results| == i
      invariant forall j :: 0 <= j < i ==> results[j] == at(j)
    {
      var result := SimulateOne(data, prices, penalties, seed, meanPrice, num, at, i);
      results := results + [result];
      i := i + 1;
    }
    ResultsAreModelResults(data, penalties, seed, meanPrice, num, at, results);
  }

  lemma ResultsAreModelResults(data: seq<DataPoint>, penalties: seq<real>, seed: nat, meanPrice: real,
                               num: Numerics, at: nat -> PredictionResult, results: seq<PredictionResult>)
    requires ValidNumerics(num) && |data| >= 1 && |penalties| == |Registry.Models|
    requires DescribesResults(data, penalties, seed, meanPrice, num, at)
    requires |results| == |Registry.Models|
    requires forall j :: 0 <= j < |results| ==> results[j] == at(j)
    ensures results == ModelResults(data, penalties, seed, meanPrice, num, |Registry.Models|)
  {
    var rs := ModelResults(data, penalties, seed, meanPrice, num, |Registry.Models|);
    forall j | 0 <= j < |results|
      ensures results[j] == rs[j]
    {
      ModelResultsAt(data, penalties, seed, meanPrice, num, |Registry.Models|, j);
    }
  }

  /** The names of the results are the registry's names, so a name picks out one result. */
  lemma ResultNames(data: seq<DataPoint>, penalties: seq<real>, seed: nat, meanPrice: real, num: Numerics)
    requires ValidNumerics(num) && |data| >= 1 && |penalties| == |Registry.Models|
    ensures var rs := ModelResults(data, penalties, seed, meanPrice, num, |Registry.Models|);
      && (forall i :: 0 <= i < |rs| ==> rs[i].modelName == Registry.Models[i].Name())
      && (forall i, j :: 0 <= i < j < |rs| ==> rs[i].modelName != rs[j].modelName)
  {
    var rs := ModelResults(data, penalties, seed, meanPrice, num, |Registry.Models|);
    forall i | 0 <= i < |rs|
      ensures rs[i].modelName == Registry.Models[i].Name()
    {
      ModelResultsAt(data, penalties, seed, meanPrice, num, |Registry.Models|, i);
    }
    Registry.ModelsDistinct();
  }

  /** `modelResults[name]`: the position of the result stored under `name`, if any. */
  function IndexOfName(results: seq<PredictionResult>, name: string): (r: Option<nat>)
    ensures r.Some? ==> r.value < |results| && results[r.value].modelName == name
    ensures r.None? ==> forall i :: 0 <= i < |results| ==> results[i].modelName != name
  {
    if results == [] then None
    else if results[0].modelName == name then Some(0)
    else match IndexOfName(results[1..], name)
      case None => None
      case Some(i) => Some(i + 1)
  }

  /** With distinct names, the lookup finds the one result that carries the name. */
  lemma IndexOfDistinctName(results: seq<PredictionResult>, j: nat)
    requires j < |results|
    requires forall i, i' :: 0 <= i < i' < |results| ==> results[i].modelName != results[i'].modelName
    ensures IndexOfName(results, results[j].modelName) == Some(j)
  {
    var r := IndexOfName(results, results[j].modelName);
    assert results[r.value].modelName == results[j].modelName;
  }

  /** The position of the winner among the results. */
  function WinnerIndex(results: seq<PredictionResult>): nat
    requires |results| >= 1
  {
    Winner.FirstMinIndex(Winner.Rmses(results), |results|)
  }

  /** What the forecast loop reads: the series summary, the winner's RMSE, the z-score and the seed. */
  function ForecastInputsOf(data: seq<DataPoint>, results: seq<PredictionResult>, confidenceLevel: int,
                            seed: nat): Forecast.ForecastInputs
    requires |data| >= 1 && |results| >= 1
  {
    var prices := Prices(data);
    Forecast.ForecastInputs(SeriesStats.Mean(prices), SeriesStats.Slope(prices), |data|,
                            results[WinnerIndex(results)].metrics.rmse, Forecast.ZScore(confidenceLevel),
                            seed, data[|data| - 1].date)
  }

  /** The characteristics of the series: its volatility, its slope and its length. */
  function CharacteristicsOf(data: seq<DataPoint>, num: Numerics): DataCharacteristics
    requires ValidNumerics(num)
  {
    var prices := Prices(data);
    var meanPrice := SeriesStats.Mean(prices);
    DataCharacteristics(SeriesStats.Volatility(meanPrice, SeriesStats.StdDev(prices, num)),
                        SeriesStats.Slope(prices), |data|)
  }

  /**
   * The whole run on a non-empty series, with `Date.now()` as `now`: the
   * series itself, one result per model and 96 forecasts per day.
   */
  function Simulation(data: seq<DataPoint>, now: nat, forecastDays: int, confidenceLevel: int,
                      num: Numerics, cal: Calendar): (r: SimulationResult)
    requires ValidNumerics(num) && |data| >= 1
    ensures r.processedData == data
    ensures |r.modelResults| == |Registry.Models|
    ensures |r.forecasts| == Forecast.BlockCount(forecastDays)
  {
    var seed := Fingerprint.DatasetSeed(data, now, num);
    var characteristics := CharacteristicsOf(data, num);
    var meanPrice := SeriesStats.Mean(Prices(data));
    var penalties := Penalties(characteristics.volatility, TrendStrength(characteristics.trend), |data|, seed);
    var results := ModelResults(data, penalties, seed, meanPrice, num, |Registry.Models|);
    var inputs := ForecastInputsOf(data, results, confidenceLevel, seed);
    SimulationResult(data, results, Winner.WinnerAfter(results, |results|),
                     Forecast.Forecasts(inputs, cal, Forecast.BlockCount(forecastDays)), characteristics)
  }

  /** The winner's RMSE, which sets the width of the forecast band, is never negative. */
  lemma WinnerRmseNonNegative(data: seq<DataPoint>, penalties: seq<real>, seed: nat, meanPrice: real, num: Numerics)
    requires ValidNumerics(num) && |data| >= 1 && |penalties| == |Registry.Models|
    ensures var rs := ModelResults(data, penalties, seed, meanPrice, num, |Registry.Models|);
      rs[WinnerIndex(rs)].metrics.rmse >= 0.0
  {
    var rs := ModelResults(data, penalties, seed, meanPrice, num, |Registry.Models|);
    var w := WinnerIndex(rs);
    ModelResultsAt(data, penalties, seed, meanPrice, num, |Registry.Models|, w);
    var model := Registry.Models[w];
    ResultMetrics(data, model, penalties[w], seed + Registry.ModelSeedOffset(model), meanPrice, num);
  }

  /**
   * Forecast `k` of a run belongs to day `k / 96 + 1`, is never negative and
   * lies inside its band, and the band reaches above the price by
   * `BandWidth`: the winner's RMSE times the z-score of the confidence level
   * times the day's growth factor.
   */
  lemma SimulationForecast(data: seq<DataPoint>, now: nat, forecastDays: int, confidenceLevel: int,
                           num: Numerics, cal: Calendar, k: nat)
    requires ValidNumerics(num) && |data| >= 1
    requires k < Forecast.BlockCount(forecastDays)
    ensures var r := Simulation(data, now, forecastDays, confidenceLevel, num, cal);
      var inputs := ForecastInputsOf(data, r.modelResults, confidenceLevel, Fingerprint.DatasetSeed(data, now, num));
      var f := r.forecasts[k];
      && f.dayOffset == Forecast.DayOf(k)
      && f.price >= 0.0 && 0.0 <= f.lowerBound <= f.price <= f.upperBound
      && f.upperBound - f.price == Forecast.BandWidth(inputs, k)
      && inputs.rmse == r.modelResults[WinnerIndex(r.modelResults)].metrics.rmse
      && inputs.zScore == Forecast.ZScore(confidenceLevel)
  {
    var seed := Fingerprint.DatasetSeed(data, now, num);
    var characteristics := CharacteristicsOf(data, num);
    var meanPrice := SeriesStats.Mean(Prices(data));
    var penalties := Penalties(characteristics.volatility, TrendStrength(characteristics.trend), |data|, seed);
    var results := ModelResults(data, penalties, seed, meanPrice, num, |Registry.Models|);
    var inputs := ForecastInputsOf(data, results, confidenceLevel, seed);
    WinnerRmseNonNegative(data, penalties, seed, meanPrice, num);
    Forecast.ForecastsAt(inputs, cal, Forecast.BlockCount(forecastDays), k);
    Forecast.ForecastAtBand(inputs, cal, k);
  }

  /** The results come in registry order, under the registry's names and colours. */
  lemma SimulationModels(data: seq<DataPoint>, now: nat, forecastDays: int, confidenceLevel: int,
                         num: Numerics, cal: Calendar)
    requires ValidNumerics(num) && |data| >= 1
    ensures var rs := Simulation(data, now, forecastDays, confidenceLevel, num, cal).modelResults;
      && |rs| == |Registry.Models|
      && (forall i :: 0 <= i < |rs| ==> rs[i].modelName == Registry.Models[i].Name())
      && (forall i :: 0 <= i < |rs| ==> rs[i].color == Registry.Models[i].Color())
  {
    var seed := Fingerprint.DatasetSeed(data, now, num);
    var characteristics := CharacteristicsOf(data, num);
    var meanPrice := SeriesStats.Mean(Prices(data));
    var penalties := Penalties(characteristics.volatility, TrendStrength(characteristics.trend), |data|, seed);
    var rs := ModelResults(data, penalties, seed, meanPrice, num, |Registry.Models|);
    forall i | 0 <= i < |rs|
      ensures rs[i].modelName == Registry.Models[i].Name() && rs[i].color == Registry.Models[i].Color()
    {
      ModelResultsAt(data, penalties, seed, meanPrice, num, |Registry.Models|, i);
      var model := Registry.Models[i];
      ResultNamed(data, model, penalties[i], seed + Registry.ModelSeedOffset(model), meanPrice, num);
    }
  }

  /** The best model is the first result with the least RMSE. */
  lemma SimulationWinner(data: seq<DataPoint>, now: nat, forecastDays: int, confidenceLevel: int,
                         num: Numerics, cal: Calendar)
    requires ValidNumerics(num) && |data| >= 1
    ensures var r := Simulation(data, now, forecastDays, confidenceLevel, num, cal);
      var rs := r.modelResults;
      exists w :: 0 <= w < |rs| && r.bestModel == rs[w].modelName
        && (forall j :: 0 <= j < |rs| ==> rs[w].metrics.rmse <= rs[j].metrics.rmse)
        && (forall j :: 0 <= j < w ==> rs[w].metrics.rmse < rs[j].metrics.rmse)
  {
    var rs := Simulation(data, now, forecastDays, confidenceLevel, num, cal).modelResults;
    var w := WinnerIndex(rs);
    assert Winner.IsFirstMin(Winner.Rmses(rs), |rs|, w);
  }

  /**
   * A flat series, every price the same, has no trend and no volatility:
   * the run then scores the models on their base errors and dataset size
   * alone.
   */
  lemma FlatSeriesCharacteristics(data: seq<DataPoint>, now: nat, forecastDays: int, confidenceLevel: int,
                                  num: Numerics, cal: Calendar, c: real)
    requires ValidNumerics(num) && |data| >= 1
    requires forall i :: 0 <= i < |data| ==> data[i].mcpKWh == c
    ensures var ch := Simulation(data, now, forecastDays, confidenceLevel, num, cal).dataCharacteristics;
      ch.volatility == 0.0 && ch.trend == 0.0 && ch.dataLength == |data|
  {
    SeriesStats.ConstantStatistics(Prices(data), c, num);
    SeriesStats.ConstantSlope(Prices(data), c);
  }

  /**
   * What the Promise rejects with on an empty series: with no last point,
   * reading `data[data.length - 1].dateObj` throws (the message V8 gives).
   */
  const LastPointMissing: string := "Cannot read properties of undefined (reading 'dateObj')"

  /**
   * `runSimulation`, its Promise settled: Ok with the result, or Err where
   * it rejects. An empty series fails only at the forecast step, but nothing
   * computed before that is observable, so the model fails at once.
   */
  method RunSimulation(data: seq<DataPoint>, now: nat, forecastDays: int, confidenceLevel: int,
                       num: Numerics, cal: Calendar)
    returns (r: Result<SimulationResult>)
    requires ValidNumerics(num)
    ensures r.Err? <==> |data| == 0
    ensures r.Err? ==> r.message == LastPointMissing
    ensures r.Ok? ==> r.value == Simulation(data, now, forecastDays, confidenceLevel, num, cal)
    ensures r.Ok? ==> && r.value.processedData == data
                      && |r.value.modelResults| == |Registry.Models|
                      && |r.value.forecasts| == Forecast.BlockCount(forecastDays)
  {
    if |data| == 0 {
      return Err(LastPointMissing);
    }

    // 1. the seed
    var seed := Fingerprint.GenerateDatasetSignature(data, now, num);

    // 2. the series
    var prices := Prices(data);
    var meanPrice := SeriesStats.Mean(prices);
    var stdDev := SeriesStats.StdDev(prices, num);
    var volatility := SeriesStats.Volatility(meanPrice, stdDev);
    var slope := SeriesStats.Slope(prices);
    var trendStrength := TrendStrength(slope);
    var dataLength := |data|;

    // 3. the penalties
    var penalties := Registry.ScorePenalties(volatility, trendStrength, dataLength, seed);
    assert penalties == Penalties(volatility, trendStrength, dataLength, seed);

    // 4. the models
    var results := RunModels(data, prices, penalties, seed, meanPrice, num, ResultTable(data, penalties, seed, meanPrice, num));

    // 5. the winner
    var bestModel := Winner.SelectWinner(results);

    // 6. the forecasts, with the winner's RMSE looked up by name
    ResultNames(data, penalties, seed, meanPrice, num);
    IndexOfDistinctName(results, WinnerIndex(results));
    var winnerIndex := IndexOfName(results, bestModel);
    var winnerRmse := match winnerIndex
      case Some(i) => results[i].metrics.rmse
      case None => 0.0;
    var inputs := Forecast.ForecastInputs(meanPrice, slope, dataLength, winnerRmse, Forecast.ZScore(confidenceLevel),
                                          seed, data[|data| - 1].date);
    assert inputs == ForecastInputsOf(data, results, confidenceLevel, seed);
    var forecasts := Forecast.GenerateForecasts(inputs, cal, forecastDays);

    r := Ok(SimulationResult(data, results, bestModel, forecasts, DataCharacteristics(volatility, slope, dataLength)));
  }
}
