# IEX price simulation engine and sheet parser, in Dafny

This project models the part of an electricity-price dashboard for the Indian
Energy Exchange (IEX) that does the computing. It has two parts.

- **The simulation engine**, `runSimulation` in `services/predictionEngine.ts`.
  - It derives a seed from a fingerprint of the price series.
  - It measures the series: mean, population standard deviation, coefficient of variation and least-squares slope.
  - It scores a fixed panel of six forecasting models with a table of threshold rules, plus one jitter draw per model.
  - For every model it simulates predictions from the model's own Mulberry32 stream.
  - From the errors it computes RMSE, MAE, MAPE, R² and directional accuracy.
  - It picks the model with the least RMSE.
  - It forecasts 96 quarter-hour blocks per future day, each with a confidence band built from the winner's RMSE.
- **The sheet parser**, `parseIEXRows` in `services/dataParser.ts`.
  - It finds the header row among the first 20 rows and locates the columns by words in their headings.
  - It turns every later row into a data point.
  - It skips empty lines, summary lines and lines without a numeric price.
  - It derives each point's season, time of day and weekend flag.

## How the model is organised

Each module is its own file.

| File | Module | What it holds |
|---|---|---|
| `types.dfy` | `Types` | The records of `types.ts` |
| `mulberry.dfy` | `Mulberry32` | `createRNG` |
| `fingerprint.dfy` | `Fingerprint` | `generateDatasetSignature` |
| `stats.dfy` | `SeriesStats` | `calculateStdDev` and the series statistics |
| `registry.dfy` | `Registry` | `MODELS` and the penalty scorer |
| `simulator.dfy` | `Simulator` | The per-model loop and the metrics |
| `winner.dfy` | `Winner` | The winner scan |
| `forecast.dfy` | `Forecast` | The forecast grid |
| `engine.dfy` | `Engine` | `runSimulation` as a whole |
| `parser.dfy` | `Parser` | `parseIEXRows` |
| `text.dfy` | `Text` | The JavaScript string operations used by the parser and the engine: `includes`, `trim`, `split`, `join`, `String(n)`, `padStart` |

Host functions are passed in as values (`Host.Numerics`, `Host.Calendar`, `Host.Conversions`). These are `Math.sqrt`, `toFixed(3)`, number-to-text conversion, `parseFloat`, `Number` and the JavaScript `Date` calendar.

**Loops.** Every loop of the source is a `method` with a `while` loop. Each is proved equal to a specification function: `Forecasts`, `ModelPredictions`, `ModelErrors`, `CorrectCount`, `PenaltyAt`, `StringHash`, `HeaderRow`, `ParsedPoints`, `WinnerAfter`.

**Generator.** `createRNG` returns a closure over a mutable `seed`. It is the class `Mulberry32.Rng`, whose 32-bit `state` field `Next` updates in place.

**Record order.** A JavaScript `Record` keeps string keys in insertion order. So `modelResults` is a sequence in registry order, and the lookup `modelResults[bestModel]` is `Engine.IndexOfName`.

**Empty series.** On an empty series `runSimulation` throws at `services/predictionEngine.ts:251`, reading `data[data.length - 1].dateObj`, so its Promise rejects. `Engine.RunSimulation` returns `Err` exactly then.

## Model

| member | source | states |
|---|---|---|
| Mulberry32.Output | services/predictionEngine.ts:19 | the mixed 32-bit word over 2^32 is a value in [0, 1) |
| Mulberry32.DrawsAt | services/predictionEngine.ts:14-21 | value `i` of the stream is the output of the state advanced `i + 1` times by 0x6D2B79F5, and lies in [0, 1) |
| Mulberry32.DrawsPrefix | services/predictionEngine.ts:14-21 | drawing more values only extends the stream; values already drawn never change |
| Mulberry32.Rng.constructor | services/predictionEngine.ts:14 | a new generator holds the seed reduced to 32 bits and has made no call |
| Mulberry32.Rng.Next | services/predictionEngine.ts:15-20 | one call advances the state by 0x6D2B79F5, wrapping at 32 bits, and returns the next draw of the stream, in [0, 1) |
| Mulberry32.SameSeedSameStream | services/predictionEngine.ts:14-21 | two generators from one seed, called alternately, give the same values: no state is shared |
| Fingerprint.ToInt32 | services/predictionEngine.ts:43 | `hash & hash` yields the signed 32-bit integer congruent to the hash modulo 2^32 |
| Fingerprint.ToInt32Congruent | services/predictionEngine.ts:42-43 | integers congruent modulo 2^32 wrap to the same 32-bit value |
| Fingerprint.HashStepIsTimes31 | services/predictionEngine.ts:42-43 | `((hash << 5) - hash) + char`, wrapped, is `31 * hash + char` taken modulo 2^32 |
| Fingerprint.PolyHashSnoc | services/predictionEngine.ts:39-44 | appending a character multiplies the polynomial hash by 31 and adds the character's code |
| Fingerprint.StringHashIsJavaHash | services/predictionEngine.ts:39-44 | the loop's hash equals the polynomial hash `sum s[i] * 31^(n-1-i)` wrapped once to 32 bits |
| Fingerprint.HashSignature | services/predictionEngine.ts:39-44 | the hashing loop computes that wrapped polynomial hash of the signature |
| Fingerprint.AbsInt32 | services/predictionEngine.ts:45 | `Math.abs` of a 32-bit value is that value or its negation, and at most 2^31 |
| Fingerprint.Signature | services/predictionEngine.ts:30-37 | the six fields joined by `\|` open with the series length and a separator |
| Fingerprint.DatasetSeed | services/predictionEngine.ts:24-46 | the clock value for an empty series, otherwise a seed of at most 2^31 |
| Fingerprint.GenerateDatasetSignature | services/predictionEngine.ts:24-46 | an empty series gives the clock value; otherwise the seed is the absolute wrapped polynomial hash of the signature, at most 2^31 |
| Fingerprint.SeedDependsOnSummary | services/predictionEngine.ts:30-37 | two series that agree on length, both end dates and the three sampled prices get the same seed |
| SeriesStats.Mean | services/predictionEngine.ts:67 | the mean over `length \|\| 1`: 0 for no data, otherwise the value that times the length gives the sum |
| SeriesStats.SumSquaredDeviations | services/predictionEngine.ts:51 | the sum of squared deviations is never negative |
| SeriesStats.StdDev | services/predictionEngine.ts:48-53 | the standard deviation is never negative, and 0 for no data |
| SeriesStats.Volatility | services/predictionEngine.ts:71 | the coefficient of variation: 0 where the mean is 0, otherwise the multiple of the mean that the standard deviation is |
| SeriesStats.ClosedForms | services/predictionEngine.ts:75-78 | the closed forms `n(n-1)/2` and `n(n-1)(2n-1)/6` are the sums of the indices and of their squares |
| SeriesStats.DenominatorForm | services/predictionEngine.ts:79 | the slope denominator is `n^2 (n^2 - 1) / 12` |
| SeriesStats.DenominatorSign | services/predictionEngine.ts:79 | the denominator is 0 for at most one point, so the `\|\| 1` fallback applies only then, and positive from two points on |
| SeriesStats.Slope | services/predictionEngine.ts:74-79 | the least-squares slope against the index, with the `\|\| 1` fallback; a series of at most one point has slope 0 |
| SeriesStats.ConstantSlope | services/predictionEngine.ts:74-79 | a constant series has slope 0 |
| SeriesStats.ConstantStatistics | services/predictionEngine.ts:66-71 | a constant series has its value as mean, standard deviation 0 and volatility 0 |
| Registry.ModelsDistinct | services/predictionEngine.ts:3-10 | the panel has six models, each exactly once, under distinct names |
| Registry.PenaltyBeforeJitter | services/predictionEngine.ts:87-144 | the `switch` moves the base error 0.045 by each model's threshold rules, and every outcome lies in [0.005, 0.085] |
| Registry.PenaltyMatchesRules | services/predictionEngine.ts:94-144 | each model's `switch` case equals the base error plus the adjustments of exactly those rules in its row of the threshold table whose condition holds |
| Registry.Jitter | services/predictionEngine.ts:150 | the jitter lies in [-0.0075, 0.0075) |
| Registry.FinalPenalty | services/predictionEngine.ts:152 | the final penalty is the jittered penalty or the floor 0.005, whichever is larger |
| Registry.ScorePenalties | services/predictionEngine.ts:89-153 | model `i` in registry order gets draw `i` of the dataset stream, and every penalty is at least 0.005 |
| Registry.ModelSeedOffsetValue | services/predictionEngine.ts:168 | the character-code sums of the six names are 533, 1268, 678, 718, 799 and 320 |
| Registry.StreamOffsetsDistinct | services/predictionEngine.ts:167-169 | the six model streams, the dataset stream and the forecast stream (offset 9999) start from distinct seeds |
| Simulator.ClampAtZero | services/predictionEngine.ts:190 | `Math.max(0, x)` is non-negative, at least `x`, and is either 0 or `x` |
| Simulator.Difficulty | services/predictionEngine.ts:173-180 | the three `if`s give one of the four multipliers 1, 1.15, 1.2 and 1.3 |
| Simulator.DifficultyCases | services/predictionEngine.ts:173-180 | the multiplier is 1.2 exactly for a Monday before 6 h, 1.15 exactly for 7-10 h, 1.3 exactly for 18-22 h, and 1 otherwise |
| Simulator.Noise | services/predictionEngine.ts:183 | the noise lies in [-1, 1) |
| Simulator.Predict | services/predictionEngine.ts:187-190 | a prediction is never negative |
| Simulator.PointPrediction | services/predictionEngine.ts:173-190 | a point's prediction, from its difficulty, the model's penalty and the point's draw, is never negative |
| Simulator.PredictionErrorBound | services/predictionEngine.ts:186-190 | for a non-negative price and penalty, a prediction is off by at most penalty x difficulty x price |
| Simulator.ModelPredictionsAt | services/predictionEngine.ts:171-191 | prediction `i` is made for point `i` with draw `i` of the model stream, and is non-negative |
| Simulator.ModelErrorsAt | services/predictionEngine.ts:192 | error `i` is the distance of prediction `i` from the price of point `i` |
| Simulator.SeriesShape | services/predictionEngine.ts:171-192 | over the whole series every prediction is non-negative and every error is the distance of its prediction from the actual price |
| Simulator.ModelStep | services/predictionEngine.ts:191-192 | one point further, the predictions and the errors each grow by that point's entry |
| Simulator.CorrectCount | services/predictionEngine.ts:194-207 | the count of direction hits never exceeds the number of checks |
| Simulator.CorrectCountSnoc | services/predictionEngine.ts:195-206 | a new prediction adds a hit exactly when it is not the first and its move has the actual move's direction |
| Simulator.RecordPoint | services/predictionEngine.ts:191-207 | one loop step extends predictions, errors, hits and checks by exactly the next point's contribution |
| Simulator.SimulateModel | services/predictionEngine.ts:167-208 | the loop over the series, on a fresh stream from the model seed, yields the specified predictions, errors, hit count and `n - 1` checks |
| Simulator.ExactFlatSeriesAllHits | services/predictionEngine.ts:203 | on a flat series predicted exactly, every check counts as a hit |
| Simulator.SumSquares | services/predictionEngine.ts:211 | the sum of squared errors is never negative |
| Simulator.MapeTerm | services/predictionEngine.ts:215-217 | a term is 0 where the actual price is 0; otherwise it is the error relative to the price |
| Simulator.ErrorSums | services/predictionEngine.ts:211-218 | non-negative errors have a non-negative sum; all-zero errors give zero sums of errors, squares and relative errors |
| Simulator.DirectionalAccuracy | services/predictionEngine.ts:225-227 | 0 without checks, a percentage when hits do not exceed checks, and 100 exactly when every check hits |
| Simulator.RSquared | services/predictionEngine.ts:221-223 | 0 on a flat series and at most 1; on a varying series it is 1 exactly for zero residual and non-negative exactly when the residual does not exceed the total |
| Simulator.ComputeMetrics | services/predictionEngine.ts:210-227 | RMSE and MAPE are non-negative and R² is at most 1 |
| Simulator.MetricsMeaning | services/predictionEngine.ts:210-227 | a flat series gives R² = 0; non-negative errors give MAE >= 0; a perfect model has RMSE, MAE and MAPE 0 and, on a varying series, R² = 1; accuracy is 0 without checks and a percentage otherwise |
| Winner.Rmses | services/predictionEngine.ts:242-243 | the RMSEs of the results, in result order |
| Winner.FirstMinIndex | services/predictionEngine.ts:239-247 | the position found holds the least RMSE, and every earlier one is strictly larger |
| Winner.FirstMinUnique | services/predictionEngine.ts:238-247 | at most one position has that property, so the winner is well defined |
| Winner.SelectWinner | services/predictionEngine.ts:238-247 | the scan names 'SARIMAX' when there is nothing to scan; otherwise it names the first result with the least RMSE |
| Winner.WinnerHasLeastRmse | services/predictionEngine.ts:242-247 | the winner's RMSE is no larger than any model's |
| Winner.EarlierWinsTies | services/predictionEngine.ts:243 | of two results with equal RMSE the later one never wins |
| Forecast.ZScore | services/predictionEngine.ts:254 | the z-score is 1.645, 1.96 or 2.576, and positive |
| Forecast.ZScoreOrder | services/predictionEngine.ts:253-254 | 90% < 95% < 99% in band width; every level other than 90 and 99 is treated as 95 |
| Forecast.HourFactor | services/predictionEngine.ts:271-274 | the hourly factor is positive |
| Forecast.HourFactorRange | services/predictionEngine.ts:271-274 | the factor lies in [0.75, 1.4]; it is 1.4 exactly in the evening 18-22 h and 0.75 exactly before 6 h |
| Forecast.SlotRoundTrip | services/predictionEngine.ts:260-266 | the block position reached at day `d`, hour `h`, minute `15q` reads back as that day, hour and minute |
| Forecast.SlotOfIndex | services/predictionEngine.ts:260-266 | every position is reached by one set of loop counters in range: day >= 1, hour < 24, minute a multiple of 15 below 60 |
| Forecast.SlotsInTimeOrder | services/predictionEngine.ts:260-266 | later positions are later in time: by day, then hour, then minute |
| Forecast.TimeBlockLabelFormat | services/predictionEngine.ts:295 | the label is "HH:MM", five characters, whose fields read back as the hour and the minute |
| Forecast.Growth | services/predictionEngine.ts:283 | the growth factor is at least 1 |
| Forecast.GrowthIncreases | services/predictionEngine.ts:283 | a later day has a larger growth factor |
| Forecast.BasePrice | services/predictionEngine.ts:269-280 | hourly seasonality, the trend continued past the data and the weekend discount; a non-negative mean with a flat or rising trend gives a non-negative base price |
| Forecast.MakeForecast | services/predictionEngine.ts:283-298 | a pushed record keeps its day, and its price and lower bound are never negative |
| Forecast.BlockBand | services/predictionEngine.ts:283-298 | the price and the lower bound are non-negative; the upper bound is the interval above the price; the lower bound is the interval below it, or 0 if that would be negative |
| Forecast.Forecasts | services/predictionEngine.ts:249-302 | the grid holds one record per position |
| Forecast.ForecastsAt | services/predictionEngine.ts:249-302 | record `k` of the grid is the record of block `k`, which takes draw `k` of the forecast stream |
| Forecast.ForecastAtBand | services/predictionEngine.ts:283-298 | with non-negative RMSE and z-score every block lies within its band, above 0, and its band reaches `rmse * z * growth` above the price |
| Forecast.ForecastShape | services/predictionEngine.ts:260-299 | every record of the grid is banded and non-negative and carries the day and "HH:MM" label of its position |
| Forecast.BandWidens | services/predictionEngine.ts:283-290 | with positive RMSE and z-score, a later day's band is strictly wider |
| Forecast.ShapeBasePrice | services/predictionEngine.ts:269-280 | the hourly factor, the trend over `dataLength + forecasts.length` and the weekend discount give the specified base price |
| Forecast.PriceBlock | services/predictionEngine.ts:283-298 | the noisy, clamped price and its band are the specified record |
| Forecast.PushForecast | services/predictionEngine.ts:267-299 | one iteration takes one draw and appends the record of the next position |
| Forecast.ForecastHour | services/predictionEngine.ts:266-300 | the minute loop appends the four records of the hour, in order |
| Forecast.ForecastDay | services/predictionEngine.ts:260-301 | the hour loop appends the 96 records of the day, in order |
| Forecast.GenerateForecasts | services/predictionEngine.ts:249-302 | the three loops, on a stream seeded `seed + 9999`, produce the specified grid: `96 * forecastDays` records, none below one day |
| Engine.TrendStrength | services/predictionEngine.ts:80 | the trend strength is never negative |
| Engine.Penalties | services/predictionEngine.ts:84-153 | there is one penalty per model in the panel |
| Engine.ModelResults | services/predictionEngine.ts:155-236 | there is one result per model |
| Engine.ModelResultsAt | services/predictionEngine.ts:156-236 | result `i` is model `i` simulated with its own penalty on the stream seeded with the dataset seed plus its name's code sum |
| Engine.ResultNamed | services/predictionEngine.ts:229-235 | each result carries its model's name and colour, and one prediction and one error per point |
| Engine.ResultPredictions | services/predictionEngine.ts:190-191 | no stored prediction is negative |
| Engine.ResultErrors | services/predictionEngine.ts:192 | each stored error is the distance of its prediction from the actual price |
| Engine.ResultMetrics | services/predictionEngine.ts:210-235 | each result's RMSE, MAE and MAPE are non-negative, R² is at most 1 and the accuracy is a percentage |
| Engine.SimulateOne | services/predictionEngine.ts:158-235 | one iteration of the model loop builds the specified result for model `i`, under that model's name and colour, with one prediction and one error per point |
| Engine.RunModels | services/predictionEngine.ts:155-236 | the model loop builds the results of all models, in registry order |
| Engine.ResultNames | services/predictionEngine.ts:229-235 | results are stored under the registry's names, which are pairwise distinct |
| Engine.IndexOfName | services/predictionEngine.ts:257 | the lookup by name finds a result with that name, or reports that none has it |
| Engine.IndexOfDistinctName | services/predictionEngine.ts:257 | with distinct names the lookup finds the one result that carries the name |
| Engine.WinnerRmseNonNegative | services/predictionEngine.ts:257-290 | the RMSE that sets the band width is never negative |
| Engine.SimulationForecast | services/predictionEngine.ts:249-302 | every forecast of a run belongs to day `k / 96 + 1`, is non-negative, lies in its band, and the band reaches the winner's RMSE x the level's z-score x the day's growth above the price |
| Engine.SimulationModels | services/predictionEngine.ts:155-236 | a run returns six results in registry order with the registry's names and colours |
| Engine.SimulationWinner | services/predictionEngine.ts:238-247 | the best model of a run is the first result with the least RMSE |
| Engine.FlatSeriesCharacteristics | services/predictionEngine.ts:66-82 | a series of equal prices is reported with volatility 0, trend 0 and its length |
| Engine.Simulation | services/predictionEngine.ts:60-315 | the run on a non-empty series returns that series, one result per model and 96 forecasts per day |
| Engine.RunSimulation | services/predictionEngine.ts:55-316 | the run fails, as the source's rejected Promise, exactly on an empty series; otherwise it returns the specified result, with the input series, six model results and `96 * forecastDays` forecasts |
| Types.Prices | services/predictionEngine.ts:66 | `data.map(d => d.mcpKWh)`: one price per point, in order |
| Text.ContainsIffOccurs | services/dataParser.ts:33-34 | `includes` holds exactly when the key occurs at some position of the text |
| Text.TrimStartDrops | services/dataParser.ts:58 | trimming the start drops exactly the leading white space |
| Text.TrimEndDrops | services/dataParser.ts:58 | trimming the end drops exactly the trailing white space |
| Text.TrimSlice | services/dataParser.ts:58 | `trim` leaves the slice between the leading and trailing white space, which neither starts nor ends with white space |
| Text.Split | services/dataParser.ts:72 | `split` always yields at least one piece |
| Text.SplitJoin | services/dataParser.ts:72 | joining the pieces of a split with its separator restores the text |
| Text.SplitPiecesFree | services/dataParser.ts:81-82 | no piece of a split contains the separator |
| Text.NatToDecimal | services/predictionEngine.ts:31 | `String(n)` has at least one digit |
| Text.DecimalRoundTrip | services/predictionEngine.ts:31 | `String(n)` consists of decimal digits without a leading zero and reads back as `n` |
| Text.Pad2Value | services/predictionEngine.ts:295 | `padStart(2, '0')` of a number below 100 has two characters and reads back as the number |
| Parser.CellOrEmpty | services/dataParser.ts:58 | `String(cell \|\| '')` is empty for an undefined cell and the text itself for a text cell |
| Parser.CellAt | services/dataParser.ts:58-59 | reading outside the row, index -1 of a missing column included, gives undefined |
| Parser.ScanLength | services/dataParser.ts:31 | the scan covers `min(20, rawData.length)` rows |
| Parser.HeaderSearch | services/dataParser.ts:30-38 | a header found among the first `k` rows lies below `k` |
| Parser.HeaderSearchFirst | services/dataParser.ts:30-38 | the search finds the first row with a "Date" cell and an "MCP" cell, and finds nothing only when no row has both |
| Parser.HeaderSearchStable | services/dataParser.ts:31-37 | once found, the header stays found when the search looks further, which is why the loop may `break` |
| Parser.FindHeader | services/dataParser.ts:30-38 | `headerIndex` stays -1 exactly when no header is within the first 20 rows; otherwise it is the first header |
| Parser.FindIndex | services/dataParser.ts:48-53 | `findIndex` is -1 or a column of the header row |
| Parser.FindIndexFirst | services/dataParser.ts:48-53 | `findIndex` is -1 exactly when no heading mentions the key; otherwise it is the first heading that does |
| Parser.HeaderColumns | services/dataParser.ts:30-53 | in the header the scan finds, the date and price columns are found |
| Parser.SeasonOf | services/dataParser.ts:88-92 | the season chain; a month that is not a number falls through to monsoon |
| Parser.SeasonOfMonth | services/dataParser.ts:88-92 | December to February is winter, March to May spring, June to August summer, and September to November monsoon |
| Parser.TimeOfDayOf | services/dataParser.ts:95-99 | 6-12 h is morning, 12-18 h afternoon and 18-22 h evening; every other hour, a missing one included, is night |
| Parser.PointOf | services/dataParser.ts:101-116 | the pushed record keeps the row's date label and price, and its price per kWh is a thousandth of it |
| Parser.PointOfDefaults | services/dataParser.ts:80-111 | given that `parseFloat` of `undefined` or `''` is NaN and `Number('')` is 0: an empty or missing purchase, sell or MCV cell reads as 0; an hour or minute that is not a number reads as 0, the hour then at night; a row without a time block starts at 00:00, at night |
| Parser.PointOfWellFormed | services/dataParser.ts:71-116 | a point built from a trimmed, non-summary date is well formed: price per kWh is price per MWh / 1000, weekend exactly on Sunday or Saturday, time of day that of its hour |
| Parser.RowPoint | services/dataParser.ts:57-117 | one row's contribution; a point carries the price its row's price cell parses to |
| Parser.RowPointCases | services/dataParser.ts:57-117 | a row yields a point exactly when its trimmed date is non-empty and names no summary line and its price is numeric; the point is well formed and carries that date and price |
| Parser.RowPointSkipsEmptyPrice | services/dataParser.ts:59-69 | given the same facts about `parseFloat`, a row whose price cell is empty or missing yields no point |
| Parser.ParseRow | services/dataParser.ts:58-116 | one loop iteration skips exactly the rows that yield nothing and otherwise builds the specified point |
| Parser.ParsedPointsAppend | services/dataParser.ts:57-117 | rows are parsed independently and in order: two runs of rows give the concatenation of their points |
| Parser.ParsedPointsMembers | services/dataParser.ts:57-117 | the parsed points are exactly the points of the rows that yield one |
| Parser.ParsedPointsWellFormed | services/dataParser.ts:57-117 | every parsed point is well formed |
| Parser.ParseRows | services/dataParser.ts:55-119 | the row loop appends, in row order, the point of every row that yields one |
| Parser.ParseIEX | services/dataParser.ts:28-119 | the result of `parseIEXRows`: the header error, with its message, or the points after a header row that exists |
| Parser.ParseIEXFails | services/dataParser.ts:28-42 | parsing fails, with the header message, exactly when none of the first 20 rows has a "Date" cell and an "MCP" cell |
| Parser.ParseIEXPoints | services/dataParser.ts:44-119 | a successful parse finds a header among the first 20 rows and gives at most one point per row after it, every one well formed |
| Parser.ParseIEXRows | services/dataParser.ts:28-120 | the parser returns the specified outcome: the header error, or the points of the rows after the header |

## Left out

- `parseFile` is not part of this model. It reads the uploaded file with `FileReader` and decodes the workbook with the `xlsx` library, which is I/O and a foreign library. Its result, the rows of the first sheet, is the input of `Parser.ParseIEXRows`.
- The user interface (`App.tsx`, `components/`) is not part of this model: it only displays the result.
- The Promise, and the asynchrony of the run, are not modelled. `Engine.RunSimulation` returns what the Promise settles with.
- Floating-point arithmetic is modelled with exact reals. Rounding, NaN and Infinity are not modelled, with these exceptions:
  - A NaN from parsing is `None`.
  - The winner scan's `Infinity` start is `None`.
- Host functions are parameters, and only these facts about them are used:
  - `Math.sqrt`: `sqrt(0) = 0`, and the square root of a non-negative number is non-negative (`Host.ValidNumerics`).
  - `toFixed(3)`: no facts.
  - `String` of a number: no facts.
  - `parseFloat` and `Number`: only for the defaults of `Parser.PointOfDefaults` and `Parser.RowPointSkipsEmptyPrice`, `parseFloat` of `undefined` and of `''` is NaN and `Number('')` is 0 (`Host.ValidConversions`).
  - The `Date` calendar: no facts.
- `Date.now()` is the parameter `now`.
- JavaScript `Date` objects are represented by what the code reads from them:
  - `dateObj` of a data point is represented by its `date` label. The label's weekday, including the two-digit-year correction, is `Conversions.weekdayOf`.
  - The `date` of a forecast is its day offset after the last data date. Its label is `Calendar.labelAfter`.
- Spreadsheet cells are text, numbers or undefined. These are not modelled:
  - boolean and `Date` cells;
  - NaN number cells;
  - rows that are not arrays.
- Mulberry32.Rng.Next: the source adds 0x6D2B79F5 to `seed` as a double and reduces it to 32 bits. This agrees with the 32-bit model only while `seed` stays below 2^53, which is about 4.9 million calls beyond any seed. The engine makes at most `6 + 6n + 96 * forecastDays` calls.
- Fingerprint.HashSignature: `charCodeAt` reads UTF-16 code units, while a Dafny `char` is a Unicode scalar value. The two differ for characters outside the Basic Multilingual Plane in a date label.
- Forecast.GenerateForecasts: `forecastDays` and `confidenceLevel` are integers, so a fractional day count is not modelled. The configuration offers only 1, 3, 5 and 7 days and 90, 95 and 99 percent.
- SeriesStats.Slope: only three properties are proved about it:
  - its closed-form sums are the index sums;
  - its value on a constant series;
  - its value on a series of at most one point.

  That it minimises squared error is not stated.
- Simulator.ComputeMetrics: it requires a non-empty series. On an empty series every division is 0/0, and the run fails afterwards anyway (see `Engine.RunSimulation`).
