/** The records the parser produces and the engine returns. */
module Types {
  import opened Wrappers

  datatype Season = Winter | Spring | Summer | Monsoon

  datatype TimeOfDay = Morning | Afternoon | Evening | Night

  /**
   * One market interval (`IEXDataPoint`). The JavaScript `dateObj` is
   * represented by the `date` label it was built from; `dayOfWeek` is None
   * where `getDay()` of an invalid date gives NaN.
   */
  datatype DataPoint = DataPoint(
    date: string,
    timeBlock: string,
    purchaseBid: real,
    sellBid: real,
    mcv: real,
    mcpMWh: real,
    mcpKWh: real,
    hour: real,
    minute: real,
    dayOfWeek: Option<int>,
    isWeekend: bool,
    season: Season,
    timeOfDay: TimeOfDay)

  datatype Metrics = Metrics(
    rmse: real,
    mae: real,
    mape: real,
    r2: real,
    directionalAccuracy: real)

  datatype PredictionResult = PredictionResult(
    modelName: string,
    predictions: seq<real>,
    errors: seq<real>,
    metrics: Metrics,
    color: string)

  /** One future 15-minute block; `dayOffset` is the number of days after the last data date. */
  datatype FutureForecast = FutureForecast(
    dayOffset: nat,
    dateStr: string,
    timeBlock: string,
    price: real,
    upperBound: real,
    lowerBound: real)

  datatype DataCharacteristics = DataCharacteristics(volatility: real, trend: real, dataLength: nat)

  /** `modelResults` lists the per-model results in insertion (registry) order. */
  datatype SimulationResult = SimulationResult(
    processedData: seq<DataPoint>,
    modelResults: seq<PredictionResult>,
    bestModel: string,
    forecasts: seq<FutureForecast>,
    dataCharacteristics: DataCharacteristics)

  function Prices(data: seq<DataPoint>): (prices: seq<real>)
    ensures |prices| == |data|
    ensures forall i :: 0 <= i < |data| ==> prices[i] == data[i].mcpKWh
  {
    if data == [] then [] else Prices(data[..|data| - 1]) + [data[|data| - 1].mcpKWh]
  }
}
