/**
 * The farm area of the legacy simulator: a five-key environment record,
 * the crops planted in it, and the random drift applied to the
 * environment each tick. The four `Math.random()` draws of a drift are
 * parameters, in the order the code takes them.
 */
module FarmEnvironment {
  import opened Domain
  import LegacyCrop

  /** The legacy environment record (no pH). */
  datatype FarmEnv = FarmEnv(
    temperature: real,
    humidity: real,
    soilMoisture: real,
    lightLux: real,
    oxygenPPM: real)
  {
    /** Key-wise sum, used for adding a vector of deltas. */
    function Plus(d: FarmEnv): FarmEnv {
      FarmEnv(temperature + d.temperature, humidity + d.humidity, soilMoisture + d.soilMoisture,
              lightLux + d.lightLux, oxygenPPM + d.oxygenPPM)
    }
  }

  /** The all-zero delta. */
  const NoChange := FarmEnv(0.0, 0.0, 0.0, 0.0, 0.0)

  /** The environment of a new farm area. */
  const DefaultEnv := FarmEnv(25.0, 65.0, 50.0, 14000.0, 21000.0)

  lemma PlusNoChange(a: FarmEnv)
    ensures a.Plus(NoChange) == a && NoChange.Plus(a) == a
  {
  }

  lemma PlusAssociative(a: FarmEnv, b: FarmEnv, c: FarmEnv)
    ensures a.Plus(b).Plus(c) == a.Plus(b.Plus(c))
  {
  }

  lemma PlusCommutative(a: FarmEnv, b: FarmEnv)
    ensures a.Plus(b) == b.Plus(a)
  {
  }

  /** The environment record, updated in place by drift, weather and devices. */
  class FarmEnvState {
    var temperature: real
    var humidity: real
    var soilMoisture: real
    var lightLux: real
    var oxygenPPM: real

    constructor (v: FarmEnv)
      ensures Values() == v
    {
      temperature, humidity, soilMoisture := v.temperature, v.humidity, v.soilMoisture;
      lightLux, oxygenPPM := v.lightLux, v.oxygenPPM;
    }

    function Values(): FarmEnv
      reads this
    {
      FarmEnv(temperature, humidity, soilMoisture, lightLux, oxygenPPM)
    }
  }

  /**
   * The environment after one drift with draws `r1` to `r4`: temperature
   * moves by less than half a degree either way, humidity by less than one
   * point, soil moisture only falls and by less than 0.4, light by less
   * than 250 lux, and oxygen is untouched.
   */
  function Drifted(e: FarmEnv, r1: Draw, r2: Draw, r3: Draw, r4: Draw): (d: FarmEnv)
    ensures e.temperature - 0.5 <= d.temperature < e.temperature + 0.5
    ensures e.humidity - 1.0 <= d.humidity < e.humidity + 1.0
    ensures e.soilMoisture - 0.4 < d.soilMoisture <= e.soilMoisture
    ensures e.lightLux - 250.0 <= d.lightLux < e.lightLux + 250.0
    ensures d.oxygenPPM == e.oxygenPPM
  {
    FarmEnv(
      e.temperature + (r1 - 0.5),
      e.humidity + (r2 - 0.5) * 2.0,
      e.soilMoisture - r3 * 0.4,
      e.lightLux + (r4 - 0.5) * 500.0,
      e.oxygenPPM)
  }

  /** The bounds are tight: every environment inside them is the drift of some draws. */
  lemma DriftReaches(e: FarmEnv, d: FarmEnv)
    requires e.temperature - 0.5 <= d.temperature < e.temperature + 0.5
    requires e.humidity - 1.0 <= d.humidity < e.humidity + 1.0
    requires e.soilMoisture - 0.4 < d.soilMoisture <= e.soilMoisture
    requires e.lightLux - 250.0 <= d.lightLux < e.lightLux + 250.0
    requires d.oxygenPPM == e.oxygenPPM
    ensures exists r1: Draw, r2: Draw, r3: Draw, r4: Draw :: Drifted(e, r1, r2, r3, r4) == d
  {
    var r1: Draw := d.temperature - e.temperature + 0.5;
    var r2: Draw := (d.humidity - e.humidity) / 2.0 + 0.5;
    var r3: Draw := (e.soilMoisture - d.soilMoisture) / 0.4;
    var r4: Draw := (d.lightLux - e.lightLux) / 500.0 + 0.5;
    assert Drifted(e, r1, r2, r3, r4) == d;
  }

  /** A field of crops under one environment. */
  class FarmArea {
    var crops: seq<LegacyCrop.Crop>
    const env: FarmEnvState

    constructor ()
      ensures crops == [] && fresh(env) && env.Values() == DefaultEnv
    {
      crops := [];
      env := new FarmEnvState(DefaultEnv);
    }

    /** `addCrop(crop)`: the crop is appended after the ones already planted. */
    method AddCrop(crop: LegacyCrop.Crop)
      modifies this
      ensures crops == old(crops) + [crop]
    {
      crops := crops + [crop];
    }

    /** `updateDrift()` with its four draws. */
    method UpdateDrift(r1: Draw, r2: Draw, r3: Draw, r4: Draw)
      modifies env
      ensures env.Values() == Drifted(old(env.Values()), r1, r2, r3, r4)
    {
      env.temperature := env.temperature + (r1 - 0.5);
      env.humidity := env.humidity + (r2 - 0.5) * 2.0;
      env.soilMoisture := env.soilMoisture - r3 * 0.4;
      env.lightLux := env.lightLux + (r4 - 0.5) * 500.0;
    }
  }
}
