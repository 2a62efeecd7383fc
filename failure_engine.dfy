/**
 * The failure engine: random environmental shocks and random device
 * switch-offs (src/engines/FailureEngine.ts). Each `Math.random()` draw is a
 * parameter; `p` is the engine's `failureProbability`.
 */
module FailureEngine {
  import opened Wrappers
  import opened Numeric
  import opened Domain

  /** The three shocks `inject` can pick. */
  datatype Shock = SoilDrop | TemperatureSpike | HumidityDrop

  /** `Math.floor(r * 3)` read as a shock: 0, 1 and 2 in that order. */
  function ShockOf(r: Draw): Shock {
    match DrawIndex(r, 3)
    case 0 => SoilDrop
    case 1 => TemperatureSpike
    case _ => HumidityDrop
  }

  /** Each third of the draw range picks one shock. */
  lemma ShockThirds(r: Draw)
    ensures ShockOf(r) == SoilDrop <==> r < 1.0 / 3.0
    ensures ShockOf(r) == TemperatureSpike <==> 1.0 / 3.0 <= r < 2.0 / 3.0
    ensures ShockOf(r) == HumidityDrop <==> 2.0 / 3.0 <= r
  {
  }


  /**
   * The environment after `inject` with draws `r1` (does a shock happen?) and
   * `r2` (which one?): at most one key changes, soil moisture and humidity
   * only downwards and never below 0, temperature by exactly +5.
   */
  function Shocked(e: EnvValues, p: real, r1: Draw, r2: Draw): (r: EnvValues)
    ensures r1 >= p ==> r == e
    ensures forall f, g :: f != g && r.Get(f) != e.Get(f) ==> r.Get(g) == e.Get(g)
    ensures r.soilMoisture != e.soilMoisture ==> r.soilMoisture == Max(0.0, e.soilMoisture - 10.0)
    ensures r.temperature != e.temperature ==> r.temperature == e.temperature + 5.0
    ensures r.humidity != e.humidity ==> r.humidity == Max(0.0, e.humidity - 15.0)
    ensures r.lightLux == e.lightLux && r.oxygenPPM == e.oxygenPPM && r.pH == e.pH
  {
    if r1 < p then
      match ShockOf(r2)
      case SoilDrop => e.(soilMoisture := Max(0.0, e.soilMoisture - 10.0))
      case TemperatureSpike => e.(temperature := e.temperature + 5.0)
      case HumidityDrop => e.(humidity := Max(0.0, e.humidity - 15.0))
    else e
  }

  /** `inject(env)`. */
  method Inject(env: EnvironmentState, p: real, r1: Draw, r2: Draw)
    modifies env
    ensures env.Values() == Shocked(old(env.Values()), p, r1, r2)
  {
    if r1 < p {
      var failureType := DrawIndex(r2, 3);
      if failureType == 0 {
        env.soilMoisture := Max(0.0, env.soilMoisture - 10.0);
      } else if failureType == 1 {
        env.temperature := env.temperature + 5.0;
      } else if failureType == 2 {
        env.humidity := Max(0.0, env.humidity - 15.0);
      }
    }
  }

  /**
   * When a shock fires, the shock picked by `r2` takes effect: the temperature
   * spike is not clamped, and the drops stop at 0.
   */
  lemma ShockFires(e: EnvValues, p: real, r1: Draw, r2: Draw)
    requires r1 < p
    ensures ShockOf(r2) == SoilDrop ==>
      Shocked(e, p, r1, r2).soilMoisture == Max(0.0, e.soilMoisture - 10.0) &&
      Shocked(e, p, r1, r2).soilMoisture >= 0.0
    ensures ShockOf(r2) == TemperatureSpike ==>
      Shocked(e, p, r1, r2).temperature == e.temperature + 5.0
    ensures ShockOf(r2) == HumidityDrop ==>
      Shocked(e, p, r1, r2).humidity == Max(0.0, e.humidity - 15.0) &&
      Shocked(e, p, r1, r2).humidity >= 0.0
  {
  }

  /**
   * The position `injectDeviceFailure` picks with draws `r1` and `r2` in a
   * list of `n` devices: none unless `r1 < p * 0.5`, and none in an empty list.
   */
  function FailureIndex(n: nat, p: real, r1: Draw, r2: Draw): (i: Option<nat>)
    ensures i.Some? <==> r1 < p * 0.5 && n > 0
    ensures i.Some? ==> i.value < n
  {
    if r1 < p * 0.5 && n > 0 then Some(DrawIndex(r2, n)) else None
  }

  /**
   * The device list as values after `injectDeviceFailure`, for a list of
   * distinct devices.
   */
  function FailedRecords(ds: seq<DeviceRecord>, p: real, r1: Draw, r2: Draw): (r: seq<DeviceRecord>)
    ensures |r| == |ds|
    ensures forall i :: 0 <= i < |ds| && r[i] != ds[i] ==>
      FailureIndex(|ds|, p, r1, r2) == Some(i) && r[i] == ds[i].(status := Off)
    ensures var k := FailureIndex(|ds|, p, r1, r2);
      k.Some? ==> r[k.value] == ds[k.value].(status := Off)
  {
    match FailureIndex(|ds|, p, r1, r2)
    case None => ds
    case Some(i) => ds[i := ds[i].(status := Off)]
  }

  /**
   * `injectDeviceFailure(devices)`: the picked device, if it is ON, is
   * switched OFF; nothing else changes.
   */
  method InjectDeviceFailure(devices: seq<Device>, p: real, r1: Draw, r2: Draw)
    modifies devices
    ensures var i := FailureIndex(|devices|, p, r1, r2);
      forall d :: d in devices ==>
        d.deviceType == old(d.deviceType) && d.level == old(d.level) &&
        d.status == (if i.Some? && d == devices[i.value] then Off else old(d.status))
    ensures Distinct(devices) ==> Records(devices) == FailedRecords(old(Records(devices)), p, r1, r2)
  {
    if r1 < p * 0.5 && |devices| > 0 {
      var device := devices[DrawIndex(r2, |devices|)];
      if device.status == On {
        device.status := Off;
      }
    }
  }

  /**
   * `injectDeviceFailure` changes at most one device, only from ON to OFF:
   * it never switches a device on, and an empty list stays as it is.
   */
  lemma DeviceFailureOnlySwitchesOff(ds: seq<DeviceRecord>, p: real, r1: Draw, r2: Draw)
    ensures forall i :: 0 <= i < |ds| && FailedRecords(ds, p, r1, r2)[i].status == On ==> ds[i].status == On
    ensures forall i, j :: 0 <= i < j < |ds| && FailedRecords(ds, p, r1, r2)[i] != ds[i] ==> FailedRecords(ds, p, r1, r2)[j] == ds[j]
    ensures forall i :: 0 <= i < |ds| && FailedRecords(ds, p, r1, r2)[i] != ds[i] ==>
      ds[i].status == On && FailedRecords(ds, p, r1, r2)[i] == ds[i].(status := Off)
    ensures |ds| == 0 || r1 >= p * 0.5 ==> FailedRecords(ds, p, r1, r2) == ds
    ensures var k := FailureIndex(|ds|, p, r1, r2);
      k.Some? && ds[k.value].status == On ==> FailedRecords(ds, p, r1, r2)[k.value].status == Off
  {
  }
}
