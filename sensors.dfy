/**
 * The legacy sensor read-out: a reading is a copy of the environment's
 * five values, taken as they are, with no rounding and no noise.
 */
module Sensors {
  import opened Domain
  import opened FarmEnvironment

  /** `readSensors(env)`: a new record holding the five values of `env`. */
  function ReadSensors(env: FarmEnvState): (r: FarmEnv)
    reads env
    ensures r.temperature == env.temperature && r.humidity == env.humidity
    ensures r.soilMoisture == env.soilMoisture && r.lightLux == env.lightLux
    ensures r.oxygenPPM == env.oxygenPPM
  {
    FarmEnv(env.temperature, env.humidity, env.soilMoisture, env.lightLux, env.oxygenPPM)
  }

  /**
   * A reading is a snapshot: a later change of the environment, such as a
   * drift, does not reach a reading already taken, and reading again
   * gives the new values.
   */
  method ReadThenDrift(area: FarmArea, r1: Draw, r2: Draw, r3: Draw, r4: Draw) returns (before: FarmEnv, after: FarmEnv)
    modifies area.env
    ensures before == old(area.env.Values())
    ensures after == Drifted(before, r1, r2, r3, r4)
  {
    before := ReadSensors(area.env);
    area.UpdateDrift(r1, r2, r3, r4);
    after := ReadSensors(area.env);
  }
}
