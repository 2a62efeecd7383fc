/**
 * The environment engine: natural drift followed by clamping to physical
 * ranges (src/engines/EnvironmentEngine.ts). The drift catalog is a
 * parameter instead of a file read, and the `Math.random()` draws are
 * parameters too.
 */
module EnvironmentEngine {
  import opened Wrappers
  import opened Domain
  import opened Numeric

  /** The drift catalog: one `[min, max]` range per key. */
  datatype DriftModel = DriftModel(
    temperature: Range,
    humidity: Range,
    soilMoisture: Range,
    lightLux: Range,
    oxygenPPM: Range,
    pH: Range)
  {
    function Get(f: Field): Range {
      match f
      case Temperature => temperature
      case Humidity => humidity
      case SoilMoisture => soilMoisture
      case LightLux => lightLux
      case OxygenPPM => oxygenPPM
      case PH => pH
    }
  }

  /** The six `Math.random()` draws of one `applyDrift`, in call order. */
  datatype DriftDraws = DriftDraws(
    temperature: Draw,
    humidity: Draw,
    soilMoisture: Draw,
    lightLux: Draw,
    oxygenPPM: Draw,
    pH: Draw)
  {
    function Get(f: Field): Draw {
      match f
      case Temperature => temperature
      case Humidity => humidity
      case SoilMoisture => soilMoisture
      case LightLux => lightLux
      case OxygenPPM => oxygenPPM
      case PH => pH
    }
  }

  /** `rand([min, max])` given the draw `r`: a point of the range, `min` included, `max` excluded. */
  function Rand(r: Draw, range: Range): (x: real)
    ensures range.min < range.max ==> range.min <= x < range.max
    ensures range.min == range.max ==> x == range.min
    ensures range.min > range.max ==> range.max < x <= range.min
  {
    Scaled(r, range.max - range.min) + range.min
  }

  /** `r * w`: for a draw `r`, between 0 (included) and `w` (excluded). */
  function Scaled(r: Draw, w: real): (x: real)
    ensures w > 0.0 ==> 0.0 <= x < w
    ensures w < 0.0 ==> w < x <= 0.0
  {
    var x := r * w;
    DrawTimes(r, w);
    assert w > 0.0 ==> 0.0 <= x < w;
    assert w < 0.0 ==> w < x <= 0.0;
    x
  }


  /** The lowest realistic value of each key. */
  function Lower(f: Field): real {
    if f == Temperature then -10.0 else 0.0
  }

  /** The highest realistic value of each key; lightLux and oxygenPPM have none. */
  function Upper(f: Field): Option<real> {
    match f
    case Temperature => Some(50.0)
    case Humidity => Some(100.0)
    case SoilMoisture => Some(100.0)
    case LightLux => None
    case OxygenPPM => None
    case PH => Some(14.0)
  }

  predicate InRange(f: Field, v: real) {
    Lower(f) <= v && (Upper(f).Some? ==> v <= Upper(f).value)
  }

  /** Every key within its realistic range. */
  predicate InPhysicalRange(e: EnvValues) {
    forall f :: InRange(f, e.Get(f))
  }

  /** The clamp `applyDrift` applies to key `f`: the nearest point of its range. */
  function Clamp(f: Field, v: real): (r: real)
    ensures InRange(f, r)
    ensures InRange(f, v) ==> r == v
    ensures v < Lower(f) ==> r == Lower(f)
    ensures Upper(f).Some? && v > Upper(f).value ==> r == Upper(f).value
  {
    match f
    case Temperature => Max(-10.0, Min(50.0, v))
    case Humidity => Max(0.0, Min(100.0, v))
    case SoilMoisture => Max(0.0, Min(100.0, v))
    case LightLux => Max(0.0, v)
    case OxygenPPM => Max(0.0, v)
    case PH => Max(0.0, Min(14.0, v))
  }

  /** The environment after one drift: every key shifted by its own draw, then clamped. */
  function Drifted(e: EnvValues, m: DriftModel, d: DriftDraws): (r: EnvValues)
    ensures InPhysicalRange(r)
  {
    EnvValues(
      Clamp(Temperature, e.temperature + Rand(d.temperature, m.temperature)),
      Clamp(Humidity, e.humidity + Rand(d.humidity, m.humidity)),
      Clamp(SoilMoisture, e.soilMoisture + Rand(d.soilMoisture, m.soilMoisture)),
      Clamp(LightLux, e.lightLux + Rand(d.lightLux, m.lightLux)),
      Clamp(OxygenPPM, e.oxygenPPM + Rand(d.oxygenPPM, m.oxygenPPM)),
      Clamp(PH, e.pH + Rand(d.pH, m.pH)))
  }

  /**
   * `applyDrift(env)`: first every key gets its random delta, then every key
   * is clamped.
   */
  method ApplyDrift(env: EnvironmentState, m: DriftModel, d: DriftDraws)
    modifies env
    ensures env.Values() == Drifted(old(env.Values()), m, d)
  {
    env.temperature := env.temperature + Rand(d.temperature, m.temperature);
    env.humidity := env.humidity + Rand(d.humidity, m.humidity);
    env.soilMoisture := env.soilMoisture + Rand(d.soilMoisture, m.soilMoisture);
    env.lightLux := env.lightLux + Rand(d.lightLux, m.lightLux);
    env.oxygenPPM := env.oxygenPPM + Rand(d.oxygenPPM, m.oxygenPPM);
    env.pH := env.pH + Rand(d.pH, m.pH);

    env.temperature := Max(-10.0, Min(50.0, env.temperature));
    env.humidity := Max(0.0, Min(100.0, env.humidity));
    env.soilMoisture := Max(0.0, Min(100.0, env.soilMoisture));
    env.lightLux := Max(0.0, env.lightLux);
    env.oxygenPPM := Max(0.0, env.oxygenPPM);
    env.pH := Max(0.0, Min(14.0, env.pH));
  }

  /**
   * Each key's new value depends only on its own old value, its own range and
   * its own draw: `clamp(old + delta)`.
   */
  lemma DriftedPerKey(e: EnvValues, m: DriftModel, d: DriftDraws, f: Field)
    ensures Drifted(e, m, d).Get(f) == Clamp(f, e.Get(f) + Rand(d.Get(f), m.Get(f)))
  {
  }

  /** lightLux and oxygenPPM are never capped from above. */
  lemma NoUpperBoundOnLuxOrOxygen(e: EnvValues, m: DriftModel, d: DriftDraws)
    ensures e.lightLux + Rand(d.lightLux, m.lightLux) >= 0.0 ==>
      Drifted(e, m, d).lightLux == e.lightLux + Rand(d.lightLux, m.lightLux)
    ensures e.oxygenPPM + Rand(d.oxygenPPM, m.oxygenPPM) >= 0.0 ==>
      Drifted(e, m, d).oxygenPPM == e.oxygenPPM + Rand(d.oxygenPPM, m.oxygenPPM)
  {
  }

  /** With every delta 0, an environment already in range is left as it is. */
  lemma DriftFixedPoint(e: EnvValues, m: DriftModel, d: DriftDraws)
    requires forall f :: Rand(d.Get(f), m.Get(f)) == 0.0
    requires InPhysicalRange(e)
    ensures Drifted(e, m, d) == e
  {
    forall f ensures Drifted(e, m, d).Get(f) == e.Get(f) {
      DriftedPerKey(e, m, d, f);
    }
    EnvExt(Drifted(e, m, d), e);
  }
}
