/**
 * Weather in the legacy simulator: a random pick among five weather
 * types, each adding a fixed amount to temperature, humidity and light.
 */
module Weather {
  import opened Domain
  import opened Numeric
  import opened FarmEnvironment

  datatype WeatherType = Clear | Cloudy | Rainy | Heatwave | ColdSnap

  /** `Object.values(WeatherType)`, in declaration order. */
  const WeatherValues: seq<WeatherType> := [Clear, Cloudy, Rainy, Heatwave, ColdSnap]

  /** `randomWeather()` for the draw `r`. */
  function RandomWeather(r: Draw): (w: WeatherType)
    ensures w in WeatherValues
  {
    WeatherValues[DrawIndex(r, |WeatherValues|)]
  }

  /** Each weather type is picked on its own fifth of the draws. */
  lemma RandomWeatherBucket(r: Draw, i: nat)
    requires i < |WeatherValues|
    ensures RandomWeather(r) == WeatherValues[i] <==> i as real / 5.0 <= r < (i + 1) as real / 5.0
  {
    var k := DrawIndex(r, 5);
    assert k as real <= r * 5.0 < k as real + 1.0;
    assert WeatherValues[k] == WeatherValues[i] <==> k == i;
  }

  /** Every weather type can be drawn. */
  lemma RandomWeatherOnto(w: WeatherType)
    ensures exists r: Draw :: RandomWeather(r) == w
  {
    var i: nat := match w case Clear => 0 case Cloudy => 1 case Rainy => 2 case Heatwave => 3 case ColdSnap => 4;
    assert WeatherValues[i] == w;
    var r: Draw := i as real / 5.0;
    RandomWeatherBucket(r, i);
  }

  /** The effect of one weather type. */
  datatype Effect = Effect(t: real, h: real, l: real)

  /**
   * The effect table of `applyWeather`: every weather moves all three
   * values; clear skies and heatwaves warm and brighten, the rest cool and
   * darken; only clear skies and heatwaves dry the air.
   */
  function EffectOf(w: WeatherType): (r: Effect)
    ensures r.t != 0.0 && r.h != 0.0 && r.l != 0.0
    ensures r.t > 0.0 <==> w == Clear || w == Heatwave
    ensures r.l > 0.0 <==> w == Clear || w == Heatwave
    ensures r.h < 0.0 <==> w == Clear || w == Heatwave
  {
    match w
    case Clear => Effect(1.0, -2.0, 2000.0)
    case Cloudy => Effect(-1.0, 3.0, -4000.0)
    case Rainy => Effect(-2.0, 6.0, -6000.0)
    case Heatwave => Effect(4.0, -5.0, 3000.0)
    case ColdSnap => Effect(-5.0, 2.0, -2000.0)
  }

  /** The environment after the weather `w`. */
  function Weathered(e: FarmEnv, w: WeatherType): (r: FarmEnv)
    ensures r.soilMoisture == e.soilMoisture && r.oxygenPPM == e.oxygenPPM
  {
    var x := EffectOf(w);
    e.(temperature := e.temperature + x.t, humidity := e.humidity + x.h, lightLux := e.lightLux + x.l)
  }

  /** `applyWeather(weather, env)`. */
  method ApplyWeather(w: WeatherType, env: FarmEnvState)
    modifies env
    ensures env.Values() == Weathered(old(env.Values()), w)
  {
    var x := EffectOf(w);
    env.temperature := env.temperature + x.t;
    env.humidity := env.humidity + x.h;
    env.lightLux := env.lightLux + x.l;
  }

  /** Clear skies and heatwaves warm the farm; the other three weathers cool it. */
  lemma WeatherWarms(e: FarmEnv, w: WeatherType)
    ensures Weathered(e, w).temperature > e.temperature <==> w == Clear || w == Heatwave
    ensures Weathered(e, w).temperature < e.temperature <==> w == Cloudy || w == Rainy || w == ColdSnap
  {
  }

  /** Clouds, rain and cold snaps moisten the air; clear skies and heatwaves dry it. */
  lemma WeatherMoistens(e: FarmEnv, w: WeatherType)
    ensures Weathered(e, w).humidity > e.humidity <==> w == Cloudy || w == Rainy || w == ColdSnap
  {
  }

  /** Weather effects add up, so two weathers give the same result in either order. */
  lemma WeatherCommutes(e: FarmEnv, v: WeatherType, w: WeatherType)
    ensures Weathered(Weathered(e, v), w) == Weathered(Weathered(e, w), v)
  {
  }

  /** Nothing is clamped: clouds over a dark farm leave negative light, a heatwave on dry air negative humidity. */
  lemma WeatherUnclamped()
    ensures Weathered(FarmEnv(25.0, 3.0, 50.0, 0.0, 21000.0), Cloudy).lightLux == -4000.0
    ensures Weathered(FarmEnv(25.0, 3.0, 50.0, 0.0, 21000.0), Heatwave).humidity == -2.0
  {
  }
}
