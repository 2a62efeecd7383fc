/**
 * The simulation runner: one tick runs the engines in a fixed order, and
 * the initial environment comes from configuration with defaults
 * (src/simulation/SimulationRunner.ts).
 */
module SimulationRunner {
  import opened Wrappers
  import opened Domain
  import EnvironmentEngine
  import DeviceEffectEngine
  import FailureEngine
  import SensorEngine
  import CropGrowthEngine

  /** The `Math.random()` draws of one tick, in the order the engines take them. */
  datatype TickDraws = TickDraws(
    drift: EnvironmentEngine.DriftDraws,
    shockDraw: Draw,
    shockKindDraw: Draw,
    deviceFailureDraw: Draw,
    deviceIndexDraw: Draw)

  /** What the callback of a tick receives: the readings and the crop list. */
  datatype Delivery = Delivery(readings: EnvValues, crops: seq<CropState>)

  /** The environment after the first three engines of a tick. */
  function EnvAfterTick(e: EnvValues, devices: seq<DeviceRecord>, drift: EnvironmentEngine.DriftModel,
                        catalog: DeviceEffectEngine.Catalog, p: real, draws: TickDraws): EnvValues
  {
    var drifted := EnvironmentEngine.Drifted(e, drift, draws.drift);
    var powered := drifted.Plus(DeviceEffectEngine.TotalEffect(devices, catalog));
    FailureEngine.Shocked(powered, p, draws.shockDraw, draws.shockKindDraw)
  }

  /** A `SimulationRunner` with its engines' catalogs and failure probability. */
  class Runner {
    const failureProbability: real
    const drift: EnvironmentEngine.DriftModel
    const deviceCatalog: DeviceEffectEngine.Catalog
    const cropCatalog: CropGrowthEngine.CropCatalog

    constructor (failureProbability: real, drift: EnvironmentEngine.DriftModel,
                 deviceCatalog: DeviceEffectEngine.Catalog, cropCatalog: CropGrowthEngine.CropCatalog)
      ensures this.failureProbability == failureProbability && this.drift == drift
      ensures this.deviceCatalog == deviceCatalog && this.cropCatalog == cropCatalog
    {
      this.failureProbability := failureProbability;
      this.drift := drift;
      this.deviceCatalog := deviceCatalog;
      this.cropCatalog := cropCatalog;
    }

    /**
     * `tick(env, devices, crops, callback)`: drift, device effects, the
     * environmental shock, the device failure, the sensor read and then each
     * crop's evaluation. The readings are taken before the crops are
     * evaluated and are what the callback, when there is one, receives.
     */
    method Tick(env: EnvironmentState, devices: seq<Device>, crops: seq<CropState>, draws: TickDraws, hasCallback: bool)
      returns (readings: EnvValues, delivered: Option<Delivery>)
      modifies env, devices, crops
      ensures env.Values() == EnvAfterTick(old(env.Values()), old(Records(devices)), drift, deviceCatalog, failureProbability, draws)
      ensures readings == SensorEngine.Read(env.Values())
      ensures delivered == if hasCallback then Some(Delivery(readings, crops)) else None
      ensures Distinct(devices) ==>
        Records(devices) == FailureEngine.FailedRecords(old(Records(devices)), failureProbability,
                                                        draws.deviceFailureDraw, draws.deviceIndexDraw)
      ensures Distinct(crops) ==>
        forall i :: 0 <= i < |crops| ==>
          crops[i].Values() == CropGrowthEngine.Evaluated(old(CropRecords(crops))[i], env.Values(),
                                 CropGrowthEngine.LoadCropModel(cropCatalog, crops[i].cropType))
    {
      ghost var cs := CropRecords(crops);
      readings := RunEngines(env, devices, draws);
      assert CropRecords(crops) == cs;
      ghost var e1 := env.Values();
      ghost var rs := Records(devices);
      EvaluateCrops(crops, env);
      assert env.Values() == e1;
      assert Records(devices) == rs;
      delivered := if hasCallback then Some(Delivery(readings, crops)) else None;
    }

    /** The engine steps of `tick` before the crop loop. */
    method RunEngines(env: EnvironmentState, devices: seq<Device>, draws: TickDraws) returns (readings: EnvValues)
      modifies env, devices
      ensures env.Values() == EnvAfterTick(old(env.Values()), old(Records(devices)), drift, deviceCatalog, failureProbability, draws)
      ensures readings == SensorEngine.Read(env.Values())
      ensures Distinct(devices) ==>
        Records(devices) == FailureEngine.FailedRecords(old(Records(devices)), failureProbability,
                                                        draws.deviceFailureDraw, draws.deviceIndexDraw)
    {
      ShiftEnvironment(env, devices, draws);
      ghost var e1 := env.Values();
      FailureEngine.InjectDeviceFailure(devices, failureProbability, draws.deviceFailureDraw, draws.deviceIndexDraw);
      assert env.Values() == e1;
      readings := SensorEngine.Read(env.Values());
    }

    /** Drift, the devices' effects and the environmental shock, which change only the environment. */
    method ShiftEnvironment(env: EnvironmentState, devices: seq<Device>, draws: TickDraws)
      modifies env
      ensures env.Values() == EnvAfterTick(old(env.Values()), Records(devices), drift, deviceCatalog, failureProbability, draws)
    {
      ghost var ds := Records(devices);
      EnvironmentEngine.ApplyDrift(env, drift, draws.drift);
      assert Records(devices) == ds;
      DeviceEffectEngine.Apply(devices, env, deviceCatalog);
      FailureEngine.Inject(env, failureProbability, draws.shockDraw, draws.shockKindDraw);
    }

    /** The crop loop of `tick`: every crop evaluated against the same environment. */
    method EvaluateCrops(crops: seq<CropState>, env: EnvironmentState)
      modifies crops
      ensures Distinct(crops) ==>
        forall i :: 0 <= i < |crops| ==>
          crops[i].Values() == CropGrowthEngine.Evaluated(old(CropRecords(crops))[i], env.Values(),
                                 CropGrowthEngine.LoadCropModel(cropCatalog, crops[i].cropType))
    {
      ghost var before := CropRecords(crops);
      for k := 0 to |crops|
        invariant Distinct(crops) ==>
          forall i :: 0 <= i < |crops| ==>
            crops[i].Values() == if i < k
              then CropGrowthEngine.Evaluated(before[i], env.Values(), CropGrowthEngine.LoadCropModel(cropCatalog, crops[i].cropType))
              else before[i]
      {
        CropGrowthEngine.Evaluate(crops[k], env, cropCatalog);
      }
    }
  }

  /** The `initialEnvironment` section of the configuration file. */
  type InitialConfig = PartialEnv

  /** `configured || fallback` on a number: missing and 0 both give the fallback. */
  function OrNumber(configured: Option<real>, fallback: real): (r: real)
    ensures configured.Some? && configured.value != 0.0 ==> r == configured.value
    ensures configured.None? || configured.value == 0.0 ==> r == fallback
  {
    if configured.Some? && configured.value != 0.0 then configured.value else fallback
  }

  /** A configured value JavaScript treats as true: present and non-zero. */
  predicate TruthyNumber(o: Option<real>) {
    o.Some? && o.value != 0.0
  }

  /** A truthy configured value is the one used. */
  predicate Kept(configured: Option<real>, v: real) {
    TruthyNumber(configured) ==> v == configured.value
  }

  /** The values used when the configuration cannot be read. */
  const FallbackEnvironment := EnvValues(22.0, 60.0, 50.0, 10000.0, 21.0, 7.0)

  /**
   * `createInitialEnvironment()`: `None` stands for a configuration file that
   * cannot be read or parsed, or has no `initialEnvironment`.
   */
  function CreateInitialEnvironment(config: Option<InitialConfig>): (r: EnvValues)
    ensures forall f :: r.Get(f) != 0.0
    ensures config.None? ==> r == FallbackEnvironment
    ensures config.Some? ==>
      Kept(config.value.temperature, r.temperature) && Kept(config.value.humidity, r.humidity) &&
      Kept(config.value.soilMoisture, r.soilMoisture) && Kept(config.value.lightLux, r.lightLux) &&
      Kept(config.value.oxygenPPM, r.oxygenPPM) && Kept(config.value.pH, r.pH)
    ensures config.Some? && !TruthyNumber(config.value.temperature) ==> r.temperature == 22.0
    ensures config.Some? && !TruthyNumber(config.value.humidity) ==> r.humidity == 60.0
    ensures config.Some? && !TruthyNumber(config.value.soilMoisture) ==> r.soilMoisture == 50.0
    ensures config.Some? && !TruthyNumber(config.value.lightLux) ==> r.lightLux == 10000.0
    ensures config.Some? && !TruthyNumber(config.value.oxygenPPM) ==> r.oxygenPPM == 21.0
    ensures config.Some? && !TruthyNumber(config.value.pH) ==> r.pH == 5.0
  {
    match config
    case None => FallbackEnvironment
    case Some(c) =>
      EnvValues(OrNumber(c.temperature, 22.0), OrNumber(c.humidity, 60.0), OrNumber(c.soilMoisture, 50.0),
                OrNumber(c.lightLux, 10000.0), OrNumber(c.oxygenPPM, 21.0), OrNumber(c.pH, 5.0))
  }

  /**
   * An empty (or all-zero) configuration gives the same values as the
   * fallback except pH, which defaults to 5.0 there and 7.0 in the fallback.
   */
  lemma InitialDefaults()
    ensures var empty := PartialEnv(None, None, None, None, None, None);
      CreateInitialEnvironment(Some(empty)) == FallbackEnvironment.(pH := 5.0)
    ensures var zeros := PartialEnv(Some(0.0), Some(0.0), Some(0.0), Some(0.0), Some(0.0), Some(0.0));
      CreateInitialEnvironment(Some(zeros)) == FallbackEnvironment.(pH := 5.0)
    ensures CreateInitialEnvironment(None) == EnvValues(22.0, 60.0, 50.0, 10000.0, 21.0, 7.0)
  {
  }
}
