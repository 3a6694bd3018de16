/**
 * The fixed panel of models (`MODELS`) and the penalty scorer: a base error
 * adjusted by each model's threshold rules, then one jitter draw per model
 * from the dataset's shared stream, then a floor.
 */
module Registry {
  import opened Mulberry32

  datatype Category = Statistical | Ensemble | Boosting | DeepLearning

  datatype ModelId = Sarimax | RandomForest | XGBoost | LightGBM | CatBoost | Lstm {
    function Name(): string {
      match this
      case Sarimax => "SARIMAX"
      case RandomForest => "Random Forest"
      case XGBoost => "XGBoost"
      case LightGBM => "LightGBM"
      case CatBoost => "CatBoost"
      case Lstm => "LSTM"
    }

    function Color(): string {
      match this
      case Sarimax => "#3b82f6"
      case RandomForest => "#10b981"
      case XGBoost => "#f59e0b"
      case LightGBM => "#8b5cf6"
      case CatBoost => "#ec4899"
      case Lstm => "#ef4444"
    }

    function Category(): Category {
      match this
      case Sarimax => Statistical
      case RandomForest => Ensemble
      case XGBoost | LightGBM | CatBoost => Boosting
      case Lstm => DeepLearning
    }
  }

  /** The panel in registry order; the order fixes which jitter draw each model gets. */
  const Models: seq<ModelId> := [Sarimax, RandomForest, XGBoost, LightGBM, CatBoost, Lstm]

  /** Every model appears in the panel exactly once, so names identify models. */
  lemma ModelsDistinct()
    ensures |Models| == 6
    ensures forall i, j :: 0 <= i < j < |Models| ==> Models[i] != Models[j] && Models[i].Name() != Models[j].Name()
    ensures forall m: ModelId :: m in Models
  {
    forall m: ModelId
      ensures m in Models
    {
      var i := match m
        case Sarimax => 0
        case RandomForest => 1
        case XGBoost => 2
        case LightGBM => 3
        case CatBoost => 4
        case Lstm => 5;
      assert Models[i] == m;
    }
  }

  const BaseError: real := 0.045
  const PenaltyFloor: real := 0.005

  /**
   * The `switch (model.name)` block: the base error moved by the model's
   * threshold rules. It always lies in [0.005, 0.085], the base error moved
   * by at most the rules' adjustments.
   */
  function PenaltyBeforeJitter(m: ModelId, volatility: real, trendStrength: real, dataLength: nat): (r: real)
    ensures PenaltyFloor <= r <= 0.085
  {
    var penalty := BaseError;
    match m
    case Sarimax =>
      var p := if volatility < 0.18 then penalty - 0.015
               else if volatility > 0.30 then penalty + 0.02 else penalty;
      if dataLength < 2000 then p - 0.005 else p
    case RandomForest =>
      var p := if volatility > 0.35 then penalty - 0.02
               else if volatility > 0.20 then penalty - 0.005 else penalty;
      if trendStrength > 0.1 then p + 0.01 else p
    case XGBoost =>
      var p := if trendStrength > 0.02 then penalty - 0.015 else penalty;
      p - 0.005
    case LightGBM =>
      if dataLength > 1500 then penalty - 0.015
      else if dataLength < 300 then penalty + 0.01 else penalty
    case CatBoost =>
      if dataLength > 350 then penalty - 0.01 else penalty
    case Lstm =>
      var p := if dataLength < 600 then penalty + 0.04
               else if dataLength > 3000 then penalty - 0.03 else penalty;
      if volatility > 0.25 then p - 0.01 else p
  }

  /** A condition of a threshold rule, over volatility, trend strength and length. */
  datatype Condition =
    | VolatilityBelow(v: real)
    | VolatilityAbove(v: real)
    | VolatilityWithin(low: real, high: real)   // low < volatility <= high
    | TrendAbove(t: real)
    | LengthBelow(n: nat)
    | LengthAbove(n: nat)
    | Always

  predicate Holds(c: Condition, volatility: real, trendStrength: real, dataLength: nat) {
    match c
    case VolatilityBelow(v) => volatility < v
    case VolatilityAbove(v) => volatility > v
    case VolatilityWithin(low, high) => low < volatility <= high
    case TrendAbove(t) => trendStrength > t
    case LengthBelow(n) => dataLength < n
    case LengthAbove(n) => dataLength > n
    case Always => true
  }

  datatype Rule = Rule(when: Condition, adjustment: real)

  /** The heuristic policy as independent rules: each row applies whenever its condition holds. */
  function RulesFor(m: ModelId): seq<Rule> {
    match m
    case Sarimax => [Rule(VolatilityBelow(0.18), -0.015), Rule(VolatilityAbove(0.30), 0.02), Rule(LengthBelow(2000), -0.005)]
    case RandomForest => [Rule(VolatilityAbove(0.35), -0.02), Rule(VolatilityWithin(0.20, 0.35), -0.005), Rule(TrendAbove(0.1), 0.01)]
    case XGBoost => [Rule(TrendAbove(0.02), -0.015), Rule(Always, -0.005)]
    case LightGBM => [Rule(LengthAbove(1500), -0.015), Rule(LengthBelow(300), 0.01)]
    case CatBoost => [Rule(LengthAbove(350), -0.01)]
    case Lstm => [Rule(LengthBelow(600), 0.04), Rule(LengthAbove(3000), -0.03), Rule(VolatilityAbove(0.25), -0.01)]
  }

  /** What one rule contributes: its adjustment if its condition holds, else nothing. */
  function Contribution(r: Rule, v: real, t: real, n: nat): real {
    if Holds(r.when, v, t, n) then r.adjustment else 0.0
  }

  /** The sum of the adjustments of the rules whose condition holds. */
  function Adjustment(rules: seq<Rule>, v: real, t: real, n: nat): real {
    if rules == [] then 0.0 else Contribution(rules[0], v, t, n) + Adjustment(rules[1..], v, t, n)
  }

  lemma {:induction false} AdjustmentOfRows(rules: seq<Rule>, v: real, t: real, n: nat)
    requires 1 <= |rules| <= 3
    ensures Adjustment(rules, v, t, n)
            == Contribution(rules[0], v, t, n)
               + (if |rules| > 1 then Contribution(rules[1], v, t, n) else 0.0)
               + (if |rules| > 2 then Contribution(rules[2], v, t, n) else 0.0)
  {
    var r1 := rules[1..];
    if |rules| > 1 {
      var r2 := r1[1..];
      if |rules| > 2 {
        assert r2[1..] == [];
      } else {
        assert r2 == [];
      }
      assert Adjustment(r1, v, t, n) == Contribution(r1[0], v, t, n) + Adjustment(r2, v, t, n);
    } else {
      assert r1 == [];
    }
  }

  /**
   * Each model's penalty before jitter is the base error plus exactly the
   * adjustments of its rules whose conditions hold: the `else if` chains of
   * the switch cover disjoint cases, so reading them as independent rules
   * changes nothing.
   */
  lemma PenaltyMatchesRules(m: ModelId, v: real, t: real, n: nat)
    ensures PenaltyBeforeJitter(m, v, t, n) == BaseError + Adjustment(RulesFor(m), v, t, n)
  {
    AdjustmentOfRows(RulesFor(m), v, t, n);
  }

  /** `(rng() - 0.5) * 0.015`. */
  function Jitter(draw: real): (j: real)
    requires 0.0 <= draw < 1.0
    ensures -0.0075 <= j < 0.0075
  {
    (draw - 0.5) * 0.015
  }

  /** `Math.max(0.005, penalty + staticJitter)`. */
  function FinalPenalty(penalty: real, draw: real): (p: real)
    requires 0.0 <= draw < 1.0
    ensures p >= PenaltyFloor
    ensures p >= penalty + Jitter(draw)
    ensures p == PenaltyFloor || p == penalty + Jitter(draw)
  {
    var jittered := penalty + Jitter(draw);
    if PenaltyFloor >= jittered then PenaltyFloor else jittered
  }

  /** The penalty of the model at registry position `i`, which takes draw `i` of the dataset stream. */
  function PenaltyAt(i: nat, volatility: real, trendStrength: real, dataLength: nat, seed: nat): real
    requires i < |Models|
  {
    FinalPenalty(PenaltyBeforeJitter(Models[i], volatility, trendStrength, dataLength), Draw(seed, i))
  }

  /** The penalty loop: one draw from the shared dataset stream per model, in registry order. */
  method ScorePenalties(volatility: real, trendStrength: real, dataLength: nat, seed: nat)
    returns (penalties: seq<real>)
    ensures |penalties| == |Models|
    ensures forall i :: 0 <= i < |Models| ==> penalties[i] == PenaltyAt(i, volatility, trendStrength, dataLength, seed)
    ensures forall i :: 0 <= i < |Models| ==> penalties[i] >= PenaltyFloor
  {
    var rng := new Rng(seed);
    penalties := [];
    var i := 0;
    while i < |Models|
      invariant 0 <= i <= |Models| && |penalties| == i
      invariant rng.Valid() && rng.seed == seed && rng.calls == i
      invariant forall k :: 0 <= k < i ==> penalties[k] == PenaltyAt(k, volatility, trendStrength, dataLength, seed)
      invariant forall k :: 0 <= k < i ==> penalties[k] >= PenaltyFloor
    {
      var penalty := PenaltyBeforeJitter(Models[i], volatility, trendStrength, dataLength);
      var draw := rng.Next();
      var staticJitter := (draw - 0.5) * 0.015;
      var p := if PenaltyFloor >= penalty + staticJitter then PenaltyFloor else penalty + staticJitter;
      penalties := penalties + [p];
      i := i + 1;
    }
  }

  /** `model.name.split('').reduce((acc, char) => acc + char.charCodeAt(0), 0)`. */
  function CodeSum(s: string): nat {
    if s == [] then 0 else CodeSum(s[..|s| - 1]) + s[|s| - 1] as nat
  }

  /** Extending a prefix by one character adds that character's code. */
  lemma CodeSumPrefix(s: string, i: nat)
    requires i < |s|
    ensures CodeSum(s[..i + 1]) == CodeSum(s[..i]) + s[i] as nat
  {
    assert s[..i + 1][..i] == s[..i];
  }

  /** The offset added to the dataset seed to seed a model's own stream. */
  function ModelSeedOffset(m: ModelId): nat {
    CodeSum(m.Name())
  }

  /** The offset of the forecast stream. */
  const ForecastSeedOffset: nat := 9999

  /** The code sums of the six names. */
  function OffsetValue(m: ModelId): nat {
    match m
    case Sarimax => 533
    case RandomForest => 1268
    case XGBoost => 678
    case LightGBM => 718
    case CatBoost => 799
    case Lstm => 320
  }

  /** The code sum of a name, added up one character at a time. */
  lemma SarimaxCodeSum()
    ensures CodeSum("SARIMAX") == 533
  {
    var s := "SARIMAX";
    assert s[..0] == [] && s[..7] == s;
    CodeSumPrefix(s, 0);
    CodeSumPrefix(s, 1);
    CodeSumPrefix(s, 2);
    CodeSumPrefix(s, 3);
    CodeSumPrefix(s, 4);
    CodeSumPrefix(s, 5);
    CodeSumPrefix(s, 6);
  }

  lemma RandomForestCodeSum()
    ensures CodeSum("Random Forest") == 1268
  {
    var s := "Random Forest";
    assert s[..0] == [] && s[..13] == s;
    CodeSumPrefix(s, 0);
    CodeSumPrefix(s, 1);
    CodeSumPrefix(s, 2);
    CodeSumPrefix(s, 3);
    CodeSumPrefix(s, 4);
    CodeSumPrefix(s, 5);
    CodeSumPrefix(s, 6);
    CodeSumPrefix(s, 7);
    CodeSumPrefix(s, 8);
    CodeSumPrefix(s, 9);
    CodeSumPrefix(s, 10);
    CodeSumPrefix(s, 11);
    CodeSumPrefix(s, 12);
  }

  lemma XGBoostCodeSum()
    ensures CodeSum("XGBoost") == 678
  {
    var s := "XGBoost";
    assert s[..0] == [] && s[..7] == s;
    CodeSumPrefix(s, 0);
    CodeSumPrefix(s, 1);
    CodeSumPrefix(s, 2);
    CodeSumPrefix(s, 3);
    CodeSumPrefix(s, 4);
    CodeSumPrefix(s, 5);
    CodeSumPrefix(s, 6);
  }

  lemma LightGBMCodeSum()
    ensures CodeSum("LightGBM") == 718
  {
    var s := "LightGBM";
    assert s[..0] == [] && s[..8] == s;
    CodeSumPrefix(s, 0);
    CodeSumPrefix(s, 1);
    CodeSumPrefix(s, 2);
    CodeSumPrefix(s, 3);
    CodeSumPrefix(s, 4);
    CodeSumPrefix(s, 5);
    CodeSumPrefix(s, 6);
    CodeSumPrefix(s, 7);
  }

  lemma CatBoostCodeSum()
    ensures CodeSum("CatBoost") == 799
  {
    var s := "CatBoost";
    assert s[..0] == [] && s[..8] == s;
    CodeSumPrefix(s, 0);
    CodeSumPrefix(s, 1);
    CodeSumPrefix(s, 2);
    CodeSumPrefix(s, 3);
    CodeSumPrefix(s, 4);
    CodeSumPrefix(s, 5);
    CodeSumPrefix(s, 6);
    CodeSumPrefix(s, 7);
  }

  lemma LstmCodeSum()
    ensures CodeSum("LSTM") == 320
  {
    var s := "LSTM";
    assert s[..0] == [] && s[..4] == s;
    CodeSumPrefix(s, 0);
    CodeSumPrefix(s, 1);
    CodeSumPrefix(s, 2);
    CodeSumPrefix(s, 3);
  }

  lemma ModelSeedOffsetValue(m: ModelId)
    ensures ModelSeedOffset(m) == OffsetValue(m)
  {
    match m
    case Sarimax => SarimaxCodeSum();
    case RandomForest => RandomForestCodeSum();
    case XGBoost => XGBoostCodeSum();
    case LightGBM => LightGBMCodeSum();
    case CatBoost => CatBoostCodeSum();
    case Lstm => LstmCodeSum();
  }

  /**
   * The six model streams, the forecast stream and the dataset stream start
   * from distinct seeds: the offsets 533, 1268, 678, 718, 799, 320 and 9999
   * differ from each other and from 0.
   */
  lemma StreamOffsetsDistinct()
    ensures forall m :: ModelSeedOffset(m) != 0 && ModelSeedOffset(m) != ForecastSeedOffset
    ensures forall m1, m2 :: m1 != m2 ==> ModelSeedOffset(m1) != ModelSeedOffset(m2)
  {
    forall m ensures ModelSeedOffset(m) == OffsetValue(m) {
      ModelSeedOffsetValue(m);
    }
  }
}
