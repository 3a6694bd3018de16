/**
 * Step 6 of `runSimulation`: 96 future quarter-hour blocks per forecast
 * day, each priced from the mean price shaped by the hour of day, the
 * linear trend and the weekend discount, perturbed by a draw from a
 * stream of its own, and given a confidence band from the winner's RMSE.
 */
module Forecast {
  import opened Wrappers
  import opened Types
  import opened Host
  import opened Text
  import opened Mulberry32
  import opened Simulator
  import Registry

  /** `confidenceLevel === 90 ? 1.645 : confidenceLevel === 99 ? 2.576 : 1.96`. */
  function ZScore(confidenceLevel: int): (z: real)
    ensures z > 0.0
    ensures z == 1.645 || z == 1.96 || z == 2.576
  {
    if confidenceLevel == 90 then 1.645 else if confidenceLevel == 99 then 2.576 else 1.96
  }

  /** A higher confidence level gives a wider band; every level other than 90 and 99 is read as 95. */
  lemma ZScoreOrder(level: int)
    ensures ZScore(90) < ZScore(95) < ZScore(99)
    ensures level != 90 && level != 99 ==> ZScore(level) == ZScore(95)
  {
  }

  /** The hourly seasonality factor: morning x1.25, evening x1.4, night x0.75, otherwise unchanged. */
  function HourFactor(h: nat): (f: real)
    ensures f > 0.0
  {
    if 6 <= h < 10 then 1.25
    else if 18 <= h < 22 then 1.4
    else if h < 6 then 0.75
    else 1.0
  }

  /** The evening peak carries the largest factor and the night the smallest. */
  lemma HourFactorRange(h: nat)
    ensures 0.75 <= HourFactor(h) <= 1.4
    ensures HourFactor(h) == 1.4 <==> 18 <= h < 22
    ensures HourFactor(h) == 0.75 <==> h < 6
  {
  }

  /** The day (from 1), hour and minute of the forecast block at position `k`. */
  function DayOf(k: nat): nat {
    k / 96 + 1
  }

  function HourOf(k: nat): nat {
    (k % 96) / 4
  }

  function MinuteOf(k: nat): nat {
    (k % 4) * 15
  }

  /** The position the three nested loops have reached at day `d`, hour `h`, minute `m`. */
  function SlotIndex(d: nat, h: nat, m: nat): nat
    requires d >= 1
  {
    (d - 1) * 96 + h * 4 + m / 15
  }

  /** Day, hour and minute read back from the position are the loop counters that produced it. */
  lemma SlotRoundTrip(d: nat, h: nat, q: nat)
    requires d >= 1 && h < 24 && q < 4
    ensures SlotIndex(d, h, q * 15) == (d - 1) * 96 + h * 4 + q
    ensures DayOf(SlotIndex(d, h, q * 15)) == d
    ensures HourOf(SlotIndex(d, h, q * 15)) == h
    ensures MinuteOf(SlotIndex(d, h, q * 15)) == q * 15
  {
    assert (q * 15) / 15 == q;
    var r := h * 4 + q;
    var k := SlotIndex(d, h, q * 15);
    DivMod(k, 96, d - 1, r);
    DivMod(r, 4, h, q);
    DivMod(k, 4, (d - 1) * 24 + h, q);
  }

  /** Every position is reached by exactly one set of loop counters, in range. */
  lemma SlotOfIndex(k: nat)
    ensures DayOf(k) >= 1 && HourOf(k) < 24 && MinuteOf(k) < 60 && MinuteOf(k) % 15 == 0
    ensures SlotIndex(DayOf(k), HourOf(k), MinuteOf(k)) == k
  {
    var r := k % 96;
    DivMod(k, 4, (k / 96) * 24 + r / 4, r % 4);
  }

  /** Division by a positive literal has one quotient and one remainder. */
  lemma DivMod(k: nat, b: nat, a: nat, r: nat)
    requires b == 4 || b == 96
    requires r < b && k == a * b + r
    ensures k / b == a && k % b == r
  {
    if b == 4 {
      assert k == a * 4 + r;
    } else {
      assert k == a * 96 + r;
    }
  }

  /** Later positions come later in time: by day, then hour, then minute. */
  lemma SlotsInTimeOrder(k1: nat, k2: nat)
    requires k1 < k2
    ensures DayOf(k1) < DayOf(k2)
            || (DayOf(k1) == DayOf(k2) && HourOf(k1) < HourOf(k2))
            || (DayOf(k1) == DayOf(k2) && HourOf(k1) == HourOf(k2) && MinuteOf(k1) < MinuteOf(k2))
  {
    SlotOfIndex(k1);
    SlotOfIndex(k2);
  }

  /** `${String(h).padStart(2,'0')}:${String(m).padStart(2,'0')}`. */
  function TimeBlockLabel(h: nat, m: nat): string {
    Pad2(h) + ":" + Pad2(m)
  }

  /** Within a day the label is "HH:MM", whose two fields read back as the hour and the minute. */
  lemma TimeBlockLabelFormat(h: nat, m: nat)
    requires h < 24 && m < 60
    ensures var s := TimeBlockLabel(h, m);
      |s| == 5 && s[2] == ':' && DecimalValue(s[..2]) == h && DecimalValue(s[3..]) == m
  {
    Pad2Value(h);
    Pad2Value(m);
    var s := TimeBlockLabel(h, m);
    assert s[..2] == Pad2(h);
    assert s[3..] == Pad2(m);
  }

  /** `1 + d * 0.05`: the band and the noise widen by 5% of their first-day size per day. */
  function Growth(d: nat): (g: real)
    ensures g >= 1.0
  {
    1.0 + d as real * 0.05
  }

  lemma GrowthIncreases(d1: nat, d2: nat)
    requires d1 < d2
    ensures Growth(d1) < Growth(d2)
  {
  }

  /** What the forecast loop reads from the rest of the run. */
  datatype ForecastInputs = ForecastInputs(
    meanPrice: real,
    slope: real,
    dataLength: nat,
    rmse: real,
    zScore: real,
    seed: nat,
    lastDate: string)

  /** `currentDate.getDay() === 0 || currentDate.getDay() === 6` for the date `d` days after the last one. */
  predicate IsWeekend(cal: Calendar, lastDate: string, d: nat) {
    cal.weekdayAfter(lastDate, d) == Some(0) || cal.weekdayAfter(lastDate, d) == Some(6)
  }

  /**
   * The base price of block `k`: seasonality, then the trend continued past
   * the data, then the weekend discount. A non-negative mean with a rising
   * or flat trend gives a non-negative base price.
   */
  function BasePrice(inputs: ForecastInputs, k: nat, weekend: bool): (r: real)
    ensures inputs.meanPrice >= 0.0 && inputs.slope >= 0.0 ==> r >= 0.0
  {
    var seasonal := inputs.meanPrice * HourFactor(HourOf(k));
    var trended := seasonal + inputs.slope * (inputs.dataLength + k) as real;
    if weekend then trended * 0.92 else trended
  }

  /** What one pushed record is computed from. */
  datatype Block = Block(
    day: nat,
    dateStr: string,
    timeBlock: string,
    basePrice: real,
    draw: real,
    growth: real,
    rmse: real,
    zScore: real)

  /** `rmse * zScore * uncertaintyGrowth`: how far the band reaches from the price. */
  function Band(rmse: real, zScore: real, growth: real): real {
    rmse * zScore * growth
  }

  /** One pushed record: the base price perturbed by the draw and clamped at zero, then its band. */
  function MakeForecast(b: Block): (f: FutureForecast)
    ensures f.dayOffset == b.day && f.price >= 0.0 && f.lowerBound >= 0.0
  {
    var randomVar := (b.draw - 0.5) * 0.1 * b.growth;
    var noisy := b.basePrice * (1.0 + randomVar);
    var predictedPrice := if 0.0 >= noisy then 0.0 else noisy;
    var interval := Band(b.rmse, b.zScore, b.growth);
    FutureForecast(b.day, b.dateStr, b.timeBlock, predictedPrice, predictedPrice + interval,
                   if 0.0 >= predictedPrice - interval then 0.0 else predictedPrice - interval)
  }

  /**
   * The price and the lower bound are never negative; the upper bound sits
   * `rmse * z * growth` above the price, and the lower bound as far below
   * unless that would cross zero.
   */
  lemma BlockBand(b: Block)
    ensures var f := MakeForecast(b);
      var interval := Band(b.rmse, b.zScore, b.growth);
      && f.dayOffset == b.day && f.dateStr == b.dateStr && f.timeBlock == b.timeBlock
      && f.price >= 0.0 && f.lowerBound >= 0.0
      && f.upperBound - f.price == interval
      && (interval >= 0.0 ==> f.lowerBound <= f.price <= f.upperBound)
      && (f.price >= interval ==> f.price - f.lowerBound == interval)
      && (f.price <= interval ==> f.lowerBound == 0.0)
  {
  }

  /** The seed of the forecast stream. */
  function ForecastSeed(inputs: ForecastInputs): nat {
    inputs.seed + Registry.ForecastSeedOffset
  }

  /** The inputs of the record pushed at position `k`, which takes draw `k` of the forecast stream. */
  function BlockAt(inputs: ForecastInputs, cal: Calendar, k: nat): Block {
    var d := DayOf(k);
    Block(d, cal.labelAfter(inputs.lastDate, d), TimeBlockLabel(HourOf(k), MinuteOf(k)),
          BasePrice(inputs, k, IsWeekend(cal, inputs.lastDate, d)),
          Draw(ForecastSeed(inputs), k), Growth(d), inputs.rmse, inputs.zScore)
  }

  /** The record pushed at position `k`. */
  function ForecastAt(inputs: ForecastInputs, cal: Calendar, k: nat): FutureForecast {
    MakeForecast(BlockAt(inputs, cal, k))
  }

  /** The values of `f` at 0, 1, ..., count - 1. */
  function Tabulate<T>(f: nat -> T, count: nat): (xs: seq<T>)
    ensures |xs| == count
  {
    if count == 0 then [] else Tabulate(f, count - 1) + [f(count - 1)]
  }

  lemma {:induction false} TabulateAt<T>(f: nat -> T, count: nat, k: nat)
    requires k < count
    ensures Tabulate(f, count)[k] == f(k)
  {
    if k < count - 1 {
      TabulateAt(f, count - 1, k);
    }
  }

  /** The record of every position, as one function value. */
  function ForecastFn(inputs: ForecastInputs, cal: Calendar): nat -> FutureForecast {
    (k: nat) => ForecastAt(inputs, cal, k)
  }

  /** The first `count` records, in push order. */
  function Forecasts(inputs: ForecastInputs, cal: Calendar, count: nat): (fs: seq<FutureForecast>)
    ensures |fs| == count
  {
    Tabulate(ForecastFn(inputs, cal), count)
  }

  lemma ForecastsAt(inputs: ForecastInputs, cal: Calendar, count: nat, k: nat)
    requires k < count
    ensures Forecasts(inputs, cal, count)[k] == ForecastAt(inputs, cal, k)
  {
    TabulateAt(ForecastFn(inputs, cal), count, k);
  }

  /**
   * `at` agrees with `ForecastAt` everywhere. The loops carry this fact
   * rather than `ForecastFn` itself, so that they reason about positions
   * without the arithmetic of each record.
   */
  ghost predicate Describes(inputs: ForecastInputs, cal: Calendar, at: nat -> FutureForecast) {
    forall k: nat {:trigger ForecastAt(inputs, cal, k)} :: at(k) == ForecastAt(inputs, cal, k)
  }

  /** `for (let d = 1; d <= forecastDays; d++)` runs `forecastDays` times, and not at all below 1. */
  function BlockCount(forecastDays: int): nat {
    if forecastDays >= 1 then forecastDays * 96 else 0
  }

  /**
   * With a non-negative RMSE and z-score every block has a band around its
   * price, every price and lower bound is non-negative, and the day, hour and
   * minute of block `k` are those of its position.
   */
  lemma ForecastShape(inputs: ForecastInputs, cal: Calendar, count: nat, k: nat)
    requires k < count
    requires inputs.rmse >= 0.0 && inputs.zScore >= 0.0
    ensures var f := Forecasts(inputs, cal, count)[k];
      && f.price >= 0.0 && 0.0 <= f.lowerBound <= f.price <= f.upperBound
      && f.dayOffset == DayOf(k)
      && f.timeBlock == TimeBlockLabel(HourOf(k), MinuteOf(k))
  {
    ForecastsAt(inputs, cal, count, k);
    ForecastAtBand(inputs, cal, k);
  }

  lemma ForecastAtBand(inputs: ForecastInputs, cal: Calendar, k: nat)
    requires inputs.rmse >= 0.0 && inputs.zScore >= 0.0
    ensures var f := ForecastAt(inputs, cal, k);
      && f.price >= 0.0 && 0.0 <= f.lowerBound <= f.price <= f.upperBound
      && f.upperBound - f.price == BandWidth(inputs, k)
  {
    var b := BlockAt(inputs, cal, k);
    BlockBand(b);
    ProductNonNegative(b.rmse, b.zScore, b.growth);
  }

  /** The half-width of the band of block `k`. */
  function BandWidth(inputs: ForecastInputs, k: nat): real {
    Band(inputs.rmse, inputs.zScore, Growth(DayOf(k)))
  }

  /** A later day's band is strictly wider than an earlier day's. */
  lemma BandWidens(inputs: ForecastInputs, k1: nat, k2: nat)
    requires DayOf(k1) < DayOf(k2)
    requires inputs.rmse > 0.0 && inputs.zScore > 0.0
    ensures BandWidth(inputs, k1) < BandWidth(inputs, k2)
  {
    GrowthIncreases(DayOf(k1), DayOf(k2));
    assert inputs.rmse * inputs.zScore > 0.0;
    ScaleIncreases(inputs.rmse * inputs.zScore, Growth(DayOf(k1)), Growth(DayOf(k2)));
  }

  lemma ScaleIncreases(a: real, g1: real, g2: real)
    requires a > 0.0 && g1 < g2
    ensures a * g1 < a * g2
  {
  }

  lemma ProductNonNegative(a: real, b: real, c: real)
    requires a >= 0.0 && b >= 0.0 && c >= 0.0
    ensures a * b * c >= 0.0
  {
    assert a * b >= 0.0;
  }

  /** The hourly factor, the trend and the weekend discount applied in turn to the mean price. */
  method ShapeBasePrice(inputs: ForecastInputs, k: nat, h: nat, isWeekend: bool) returns (basePrice: real)
    requires h == HourOf(k)
    ensures basePrice == BasePrice(inputs, k, isWeekend)
  {
    basePrice := inputs.meanPrice;
    if h >= 6 && h < 10 {
      basePrice := basePrice * 1.25;
    } else if h >= 18 && h < 22 {
      basePrice := basePrice * 1.4;
    } else if h < 6 {
      basePrice := basePrice * 0.75;
    }
    basePrice := basePrice + inputs.slope * (inputs.dataLength + k) as real;
    if isWeekend {
      basePrice := basePrice * 0.92;
    }
  }

  /** The noisy price, clamped at zero, and its band. */
  method PriceBlock(b: Block) returns (f: FutureForecast)
    ensures f == MakeForecast(b)
  {
    var randomVar := (b.draw - 0.5) * 0.1 * b.growth;
    var predictedPrice := b.basePrice * (1.0 + randomVar);
    predictedPrice := if 0.0 >= predictedPrice then 0.0 else predictedPrice;
    var interval := b.rmse * b.zScore * b.growth;
    var lowerBound := predictedPrice - interval;
    lowerBound := if 0.0 >= lowerBound then 0.0 else lowerBound;
    f := FutureForecast(b.day, b.dateStr, b.timeBlock, predictedPrice, predictedPrice + interval, lowerBound);
  }

  /** The body of the innermost loop: one draw, one record pushed. */
  method PushForecast(rng: Rng, inputs: ForecastInputs, cal: Calendar, ghost at: nat -> FutureForecast,
                      forecasts: seq<FutureForecast>, d: nat, h: nat, m: nat, isWeekend: bool, dateStr: string)
    returns (forecasts': seq<FutureForecast>)
    requires Describes(inputs, cal, at)
    requires rng.Valid() && rng.seed == ForecastSeed(inputs) && rng.calls == |forecasts|
    requires forecasts == Tabulate(at, |forecasts|)
    requires d == DayOf(|forecasts|) && h == HourOf(|forecasts|) && m == MinuteOf(|forecasts|)
    requires isWeekend == IsWeekend(cal, inputs.lastDate, d) && dateStr == cal.labelAfter(inputs.lastDate, d)
    modifies rng
    ensures rng.Valid() && rng.seed == ForecastSeed(inputs) && rng.calls == old(rng.calls) + 1
    ensures forecasts' == Tabulate(at, |forecasts| + 1)
  {
    var basePrice := ShapeBasePrice(inputs, |forecasts|, h, isWeekend);
    var uncertaintyGrowth := Growth(d);
    var draw := rng.Next();
    var f := PriceBlock(Block(d, dateStr, TimeBlockLabel(h, m), basePrice, draw, uncertaintyGrowth,
                              inputs.rmse, inputs.zScore));
    assert f == ForecastAt(inputs, cal, |forecasts|);
    forecasts' := forecasts + [f];
  }

  /** The innermost loop: the four quarter hours of hour `h` of day `d`. */
  method ForecastHour(rng: Rng, inputs: ForecastInputs, cal: Calendar, ghost at: nat -> FutureForecast,
                      forecasts: seq<FutureForecast>, d: nat, h: nat, isWeekend: bool, dateStr: string)
    returns (forecasts': seq<FutureForecast>)
    requires Describes(inputs, cal, at)
    requires d >= 1 && h < 24 && |forecasts| == (d - 1) * 96 + h * 4
    requires rng.Valid() && rng.seed == ForecastSeed(inputs) && rng.calls == |forecasts|
    requires forecasts == Tabulate(at, |forecasts|)
    requires isWeekend == IsWeekend(cal, inputs.lastDate, d) && dateStr == cal.labelAfter(inputs.lastDate, d)
    modifies rng
    ensures rng.Valid() && rng.seed == ForecastSeed(inputs) && rng.calls == |forecasts'|
    ensures forecasts' == Tabulate(at, |forecasts| + 4)
  {
    forecasts' := forecasts;
    var m := 0;
    ghost var q := 0;
    while m < 60
      invariant q <= 4 && m == q * 15
      invariant |forecasts'| == |forecasts| + q
      invariant rng.Valid() && rng.seed == ForecastSeed(inputs) && rng.calls == |forecasts'|
      invariant forecasts' == Tabulate(at, |forecasts'|)
    {
      SlotRoundTrip(d, h, q);
      forecasts' := PushForecast(rng, inputs, cal, at, forecasts', d, h, m, isWeekend, dateStr);
      m := m + 15;
      q := q + 1;
    }
  }

  /** The middle loop: the 24 hours of day `d`, whose weekday and label are read once. */
  method ForecastDay(rng: Rng, inputs: ForecastInputs, cal: Calendar, ghost at: nat -> FutureForecast,
                     forecasts: seq<FutureForecast>, d: nat)
    returns (forecasts': seq<FutureForecast>)
    requires Describes(inputs, cal, at)
    requires d >= 1 && |forecasts| == (d - 1) * 96
    requires rng.Valid() && rng.seed == ForecastSeed(inputs) && rng.calls == |forecasts|
    requires forecasts == Tabulate(at, |forecasts|)
    modifies rng
    ensures rng.Valid() && rng.seed == ForecastSeed(inputs) && rng.calls == |forecasts'|
    ensures forecasts' == Tabulate(at, |forecasts| + 96)
  {
    var isWeekend := IsWeekend(cal, inputs.lastDate, d);
    var dateStr := cal.labelAfter(inputs.lastDate, d);
    forecasts' := forecasts;
    var h := 0;
    while h < 24
      invariant 0 <= h <= 24
      invariant |forecasts'| == (d - 1) * 96 + h * 4
      invariant rng.Valid() && rng.seed == ForecastSeed(inputs) && rng.calls == |forecasts'|
      invariant forecasts' == Tabulate(at, |forecasts'|)
    {
      forecasts' := ForecastHour(rng, inputs, cal, at, forecasts', d, h, isWeekend, dateStr);
      h := h + 1;
    }
  }

  /** The outer loop over the forecast days, with a stream seeded `seed + 9999`. */
  method GenerateForecasts(inputs: ForecastInputs, cal: Calendar, forecastDays: int)
    returns (forecasts: seq<FutureForecast>)
    ensures forecasts == Forecasts(inputs, cal, BlockCount(forecastDays))
    ensures |forecasts| == BlockCount(forecastDays)
  {
    ghost var at := ForecastFn(inputs, cal);
    assert Describes(inputs, cal, at);
    var forecastRng := new Rng(ForecastSeed(inputs));
    forecasts := [];
    var d := 1;
    while d <= forecastDays
      invariant 1 <= d <= if forecastDays >= 1 then forecastDays + 1 else 1
      invariant |forecasts| == (d - 1) * 96
      invariant forecastRng.Valid() && forecastRng.seed == ForecastSeed(inputs) && forecastRng.calls == |forecasts|
      invariant forecasts == Tabulate(at, |forecasts|)
    {
      forecasts := ForecastDay(forecastRng, inputs, cal, at, forecasts, d);
      d := d + 1;
    }
    assert |forecasts| == BlockCount(forecastDays);
  }
}
