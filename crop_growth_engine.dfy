/**
 * The crop growth engine: health, growth and yield of a crop under the
 * current environment (src/engines/CropGrowthEngine.ts). The crop catalog,
 * read from one JSON file per lower-cased crop type in the original, is a
 * map from that name to the model.
 */
module CropGrowthEngine {
  import opened Wrappers
  import opened Text
  import opened Domain
  import opened Numeric

  /** The optimal `[min, max]` ranges of a crop model; each may be absent. */
  datatype OptimalRanges = OptimalRanges(
    temperature: Option<Range>,
    humidity: Option<Range>,
    soilMoisture: Option<Range>,
    lightLux: Option<Range>)

  /** A crop catalog entry. */
  datatype CropModel = CropModel(name: string, optimal: OptimalRanges, growthRate: real, healthDecayRate: real)

  /** The catalog, keyed by file name (without `.json`). */
  type CropCatalog = map<string, CropModel>

  /** `loadCropModel(cropType)`: the entry under the lower-cased type, `None` when there is no such file. */
  function LoadCropModel(catalog: CropCatalog, cropType: string): (r: Option<CropModel>)
    ensures r.Some? <==> ToLower(cropType) in catalog
    ensures r.Some? ==> r.value == catalog[ToLower(cropType)]
  {
    if ToLower(cropType) in catalog then Some(catalog[ToLower(cropType)]) else None
  }

  /** A value outside a present range; the bounds themselves are inside. */
  predicate OutOfRange(v: real, range: Option<Range>) {
    range.Some? && (v < range.value.min || v > range.value.max)
  }

  /** 1 for a true condition, 0 otherwise. */
  function Count(b: bool): nat {
    if b then 1 else 0
  }

  /**
   * `calculateHealthDelta(env, model)`: a base of +0.2, minus the decay rate
   * for each of temperature, humidity and soil moisture out of range, minus
   * half the decay rate when light is out of range.
   */
  function HealthDelta(e: EnvValues, m: CropModel): (delta: real)
    ensures delta == 0.2
      - m.healthDecayRate * (Count(OutOfRange(e.temperature, m.optimal.temperature))
                             + Count(OutOfRange(e.humidity, m.optimal.humidity))
                             + Count(OutOfRange(e.soilMoisture, m.optimal.soilMoisture))) as real
      - 0.5 * m.healthDecayRate * Count(OutOfRange(e.lightLux, m.optimal.lightLux)) as real
  {
    var d0 := 0.2;
    var d1 := if OutOfRange(e.temperature, m.optimal.temperature) then d0 - m.healthDecayRate else d0;
    var d2 := if OutOfRange(e.humidity, m.optimal.humidity) then d1 - m.healthDecayRate else d1;
    var d3 := if OutOfRange(e.soilMoisture, m.optimal.soilMoisture) then d2 - m.healthDecayRate else d2;
    if OutOfRange(e.lightLux, m.optimal.lightLux) then d3 - m.healthDecayRate * 0.5 else d3
  }

  /** With every dimension in range (or without a range) the health gains exactly 0.2. */
  lemma HealthDeltaAllInRange(e: EnvValues, m: CropModel)
    requires !OutOfRange(e.temperature, m.optimal.temperature) && !OutOfRange(e.humidity, m.optimal.humidity)
    requires !OutOfRange(e.soilMoisture, m.optimal.soilMoisture) && !OutOfRange(e.lightLux, m.optimal.lightLux)
    ensures HealthDelta(e, m) == 0.2
  {
  }

  /** A model without any optimal range never penalises, whatever the environment. */
  lemma NoRangeNoPenalty(e: EnvValues, m: CropModel)
    requires m.optimal == OptimalRanges(None, None, None, None)
    ensures HealthDelta(e, m) == 0.2
  {
  }

  /**
   * The crop after `evaluate`: unchanged without a model; otherwise health
   * clamped to [0, 100], growth at most 1 and yield the product of the two
   * new values.
   */
  function Evaluated(c: CropValues, e: EnvValues, model: Option<CropModel>): (r: CropValues)
    ensures model.None? ==> r == c
    ensures r.cropType == c.cropType
    ensures model.Some? ==> 0.0 <= r.healthScore <= 100.0
    ensures model.Some? ==> r.growthStage <= 1.0
    ensures model.Some? ==> r.yieldScore == r.growthStage * r.healthScore
  {
    match model
    case None => c
    case Some(m) =>
      var health := Max(0.0, Min(100.0, c.healthScore + HealthDelta(e, m)));
      var growth := Min(1.0, c.growthStage + m.growthRate * (health / 100.0));
      c.(healthScore := health, growthStage := growth, yieldScore := growth * health)
  }

  /** The crop lookup ignores the case of the crop type. */
  lemma LoadCropModelIgnoresCase(catalog: CropCatalog, cropType: string)
    ensures LoadCropModel(catalog, ToLower(cropType)) == LoadCropModel(catalog, cropType)
  {
    ToLowerIdempotent(cropType);
  }

  /**
   * The health clamp: a sum below 0 gives 0, above 100 gives 100, and in
   * between the sum itself.
   */
  lemma HealthClamped(c: CropValues, e: EnvValues, m: CropModel)
    ensures c.healthScore + HealthDelta(e, m) < 0.0 ==> Evaluated(c, e, Some(m)).healthScore == 0.0
    ensures c.healthScore + HealthDelta(e, m) > 100.0 ==> Evaluated(c, e, Some(m)).healthScore == 100.0
    ensures 0.0 <= c.healthScore + HealthDelta(e, m) <= 100.0 ==>
      Evaluated(c, e, Some(m)).healthScore == c.healthScore + HealthDelta(e, m)
  {
  }

  /** A crop whose health reaches 0 does not grow (beyond the cap at 1). */
  lemma NoHealthNoGrowth(c: CropValues, e: EnvValues, m: CropModel)
    requires c.healthScore + HealthDelta(e, m) <= 0.0
    ensures Evaluated(c, e, Some(m)).healthScore == 0.0
    ensures Evaluated(c, e, Some(m)).growthStage == Min(1.0, c.growthStage)
    ensures Evaluated(c, e, Some(m)).yieldScore == 0.0
  {
  }

  /**
   * Growth is slower when health is poorer: of two crops at the same stage
   * in the same environment, the less healthy one ends up healthier by no
   * more and grows by no more, when the growth rate is non-negative.
   */
  lemma GrowthFallsWithHealth(c1: CropValues, c2: CropValues, e: EnvValues, m: CropModel)
    requires m.growthRate >= 0.0 && c1.growthStage == c2.growthStage && c1.healthScore <= c2.healthScore
    ensures Evaluated(c1, e, Some(m)).healthScore <= Evaluated(c2, e, Some(m)).healthScore
    ensures Evaluated(c1, e, Some(m)).growthStage <= Evaluated(c2, e, Some(m)).growthStage
  {
    var h1 := Evaluated(c1, e, Some(m)).healthScore;
    var h2 := Evaluated(c2, e, Some(m)).healthScore;
    assert Evaluated(c1, e, Some(m)).growthStage == Min(1.0, c1.growthStage + m.growthRate * (h1 / 100.0));
    assert Evaluated(c2, e, Some(m)).growthStage == Min(1.0, c1.growthStage + m.growthRate * (h2 / 100.0));
    GrowthStepMonotone(c1.growthStage, m.growthRate, h1 / 100.0, h2 / 100.0);
  }

  /** The capped growth step grows with the multiplier when the rate is non-negative. */
  lemma GrowthStepMonotone(stage: real, rate: real, k1: real, k2: real)
    requires rate >= 0.0 && k1 <= k2
    ensures Min(1.0, stage + rate * k1) <= Min(1.0, stage + rate * k2)
  {
    MulNonNegative(rate, k2 - k1);
    assert rate * (k2 - k1) == rate * k2 - rate * k1;
  }

  /**
   * A crop never shrinks: with a non-negative growth rate, a growth stage
   * that was at most 1 does not decrease.
   */
  lemma GrowthMonotone(c: CropValues, e: EnvValues, m: CropModel)
    requires m.growthRate >= 0.0 && c.growthStage <= 1.0
    ensures c.growthStage <= Evaluated(c, e, Some(m)).growthStage
  {
    var health := Evaluated(c, e, Some(m)).healthScore;
    assert health / 100.0 >= 0.0;
    MulNonNegative(m.growthRate, health / 100.0);
  }

  /** `evaluate(crop, env)`. */
  method Evaluate(crop: CropState, env: EnvironmentState, catalog: CropCatalog)
    modifies crop
    ensures crop.Values() == Evaluated(old(crop.Values()), env.Values(), LoadCropModel(catalog, crop.cropType))
  {
    var model := LoadCropModel(catalog, crop.cropType);
    if model.None? {
      return;
    }
    var healthDelta := HealthDelta(env.Values(), model.value);
    crop.healthScore := Max(0.0, Min(100.0, crop.healthScore + healthDelta));
    var growthMultiplier := crop.healthScore / 100.0;
    crop.growthStage := Min(1.0, crop.growthStage + model.value.growthRate * growthMultiplier);
    crop.yieldScore := crop.growthStage * crop.healthScore;
  }
}
