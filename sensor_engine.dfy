/**
 * The sensor engine: a rounded, read-only snapshot of the environment
 * (src/engines/SensorEngine.ts).
 */
module SensorEngine {
  import opened Domain
  import opened Numeric

  /**
   * `r` is `v` rounded at the positive scale `p`: a whole number of `1/p`
   * steps and the nearest such value to `v` (a half rounded up).
   */
  predicate RoundedAt(v: real, r: real, p: real) {
    p > 0.0 && r * p == MathRound(v * p) as real && v - 0.5 / p < r <= v + 0.5 / p
  }

  /** `Math.round(v * p) / p` for a positive scale `p`. */
  function RoundAt(v: real, p: real): (r: real)
    requires p > 0.0
    ensures RoundedAt(v, r, p)
  {
    var k := MathRound(v * p);
    var r := k as real / p;
    assert r * p == k as real;
    assert v * p / p == v;
    assert k as real / p - v == (k as real - v * p) / p;
    r
  }

  /**
   * `round(v, d) = Math.round(v * 10^d) / 10^d`: a whole number of `10^-d`
   * steps, within half a step of `v`.
   */
  function Round(v: real, d: nat): (r: real)
    ensures RoundedAt(v, r, Pow10(d))
  {
    RoundAt(v, Pow10(d))
  }

  lemma MulCancel(a: real, b: real, p: real)
    requires p > 0.0 && a * p == b * p
    ensures a == b
  {
    assert (a - b) * p == 0.0;
  }

  lemma RoundAtIdempotent(v: real, p: real)
    requires p >= 1.0
    ensures RoundAt(RoundAt(v, p), p) == RoundAt(v, p)
  {
    var r := RoundAt(v, p);
    var k := MathRound(v * p);
    MathRoundOfInt(k);
    MulCancel(RoundAt(r, p), r, p);
  }

  /**
   * `round(v, d)` has `d` decimals and is within half a unit of the last
   * decimal from `v`; `p` names `10^d`.
   */
  lemma RoundFacts(v: real, d: nat, p: real)
    requires p == Pow10(d)
    ensures Round(v, d) * p == MathRound(v * p) as real
    ensures v - 0.5 / p < Round(v, d) <= v + 0.5 / p
  {
    assert RoundedAt(v, Round(v, d), p);
  }

  /** Rounding an already rounded value changes nothing. */
  lemma RoundIdempotent(v: real, d: nat)
    ensures Round(Round(v, d), d) == Round(v, d)
  {
    RoundAtIdempotent(v, Pow10(d));
  }

  /** Worked values: 22.456 to 2 decimals is 22.46, 10234.7 to none is 10235. */
  lemma RoundExamples()
    ensures Round(22.456, 2) == 22.46
    ensures Round(10234.7, 0) == 10235.0
    ensures Round(2.5, 0) == 3.0 && Round(-2.5, 0) == -2.0
  {
    MathRoundUnique(22.456 * 100.0, 2246);
    MathRoundUnique(10234.7, 10235);
    MathRoundUnique(2.5, 3);
    MathRoundUnique(-2.5, -2);
  }

  /** The decimals `read` keeps per key: none for lightLux, two for the rest. */
  function Decimals(f: Field): nat {
    if f == LightLux then 0 else 2
  }

  /**
   * `read(env)`: a fresh record with lightLux rounded to a whole number and
   * every other key to within half a hundredth.
   */
  function Read(e: EnvValues): (r: EnvValues)
    ensures r.lightLux == MathRound(e.lightLux) as real
    ensures forall f :: f != LightLux ==> e.Get(f) - 0.005 < r.Get(f) <= e.Get(f) + 0.005
  {
    assert Pow10(0) == 1.0 && Pow10(2) == 100.0;
    MathRoundUnique(e.lightLux, MathRound(e.lightLux * 1.0));
    EnvValues(Round(e.temperature, 2), Round(e.humidity, 2), Round(e.soilMoisture, 2),
              Round(e.lightLux, 0), Round(e.oxygenPPM, 2), Round(e.pH, 2))
  }

  /**
   * What `read` reports: lightLux rounded to a whole number, every other key
   * to the nearest hundredth.
   */
  lemma ReadRounds(e: EnvValues, f: Field)
    ensures f == LightLux ==>
      Read(e).lightLux == MathRound(e.lightLux) as real
    ensures f != LightLux ==>
      Read(e).Get(f) * 100.0 == MathRound(e.Get(f) * 100.0) as real &&
      e.Get(f) - 0.005 < Read(e).Get(f) <= e.Get(f) + 0.005
  {
    if f == LightLux {
      RoundFacts(e.lightLux, 0, 1.0);
    } else {
      RoundFacts(e.Get(f), 2, 100.0);
    }
  }

  /** `readSensor(env, key)`: one key, always to 2 decimals. */
  function ReadSensor(e: EnvValues, f: Field): (r: real)
    ensures r * 100.0 == MathRound(e.Get(f) * 100.0) as real
    ensures e.Get(f) - 0.005 < r <= e.Get(f) + 0.005
  {
    RoundFacts(e.Get(f), 2, 100.0);
    Round(e.Get(f), 2)
  }

  /** `readSensor` agrees with `read` on every key but lightLux. */
  lemma ReadSensorAgreesWithRead(e: EnvValues, f: Field)
    requires f != LightLux
    ensures ReadSensor(e, f) == Read(e).Get(f)
  {
  }

  /** ... and on lightLux it keeps decimals that `read` drops. */
  lemma ReadSensorKeepsLuxDecimals()
    ensures var e := EnvValues(0.0, 0.0, 0.0, 0.25, 0.0, 0.0);
            ReadSensor(e, LightLux) == 0.25 && Read(e).lightLux == 0.0
  {
    MathRoundUnique(0.25 * 100.0, 25);
    MathRoundUnique(0.25, 0);
  }

  /** Reading a snapshot again gives the same snapshot. */
  lemma ReadIdempotent(e: EnvValues)
    ensures Read(Read(e)) == Read(e)
  {
    forall f ensures Read(Read(e)).Get(f) == Read(e).Get(f) {
      RoundIdempotent(e.Get(f), Decimals(f));
    }
    EnvExt(Read(Read(e)), Read(e));
  }
}
