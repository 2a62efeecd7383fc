/**
 * The closed-loop service: device commands from the backend update the
 * device table, and each tick runs the simulation over the table's
 * devices and sends the environment's readings as telemetry.
 */
module ClosedLoopSimulation {
  import opened Wrappers
  import opened Domain
  import DM = DeviceManager
  import SR = SimulationRunner
  import EnvironmentEngine
  import DeviceEffectEngine
  import CropGrowthEngine
  import FailureEngine
  import STA = SimulationTelemetryAdapter

  /** The failure probability the service gives its runner. */
  const FailureProbability := 0.01

  /** What one tick needs from outside: the random draws, the clock and the telemetry sender. */
  datatype TickInputs = TickInputs(
    draws: SR.TickDraws,
    clock: int -> string,
    send: (DeviceContext, Payload) -> bool)

  /**
   * One runner tick with no crops, on values: the environment as the
   * engines leave it, and the device records after the device failure.
   */
  predicate TickStep(runner: SR.Runner, draws: SR.TickDraws, e0: EnvValues, rs0: seq<DeviceRecord>,
                     e1: EnvValues, rs1: seq<DeviceRecord>)
  {
    e1 == SR.EnvAfterTick(e0, rs0, runner.drift, runner.deviceCatalog, runner.failureProbability, draws) &&
    rs1 == FailureEngine.FailedRecords(rs0, runner.failureProbability, draws.deviceFailureDraw, draws.deviceIndexDraw)
  }

  /** The sends of one tick: every planned payload for `env`, each with the sender's answer. */
  predicate SentFor(adapter: STA.Adapter, env: EnvValues, inputs: TickInputs, attempts: seq<STA.Attempt>) {
    STA.Tried(attempts) == STA.Plan(adapter, Full(env), inputs.clock, |adapter.deviceContexts|) &&
    forall i :: 0 <= i < |attempts| ==> attempts[i].ok == inputs.send(attempts[i].context, attempts[i].payload)
  }

  /** The runner's tick with no crops, as `runTick` calls it; its readings only feed a log line. */
  method TickDevices(runner: SR.Runner, env: EnvironmentState, devices: seq<Device>, draws: SR.TickDraws)
    requires Distinct(devices)
    modifies env, devices
    ensures TickStep(runner, draws, old(env.Values()), old(Records(devices)), env.Values(), Records(devices))
  {
    var readings, delivered := runner.Tick(env, devices, [], draws, true);
  }

  class ClosedLoopSimulation {
    const runner: SR.Runner
    const deviceManager: DM.DeviceManager
    const telemetryAdapter: STA.Adapter
    /** The environment, updated in place by every tick. */
    const environment: EnvironmentState
    var isRunning: bool
    /** The handle of the running interval timer, if any. */
    var tickInterval: Option<nat>
    /** Whether a device-command callback has been set. */
    var hasCallback: bool
    /** The commands handed to the callback, in order. */
    var notified: seq<DM.Command>

    predicate Valid()
      reads deviceManager
    {
      deviceManager.Valid()
    }

    /**
     * `new ClosedLoopSimulation(...)`: a runner with failure probability
     * 0.01, the initial environment from the configuration, and the
     * configured devices filed OFF at level 0.
     */
    constructor (contexts: seq<DeviceContext>, deviceSensorMap: map<string, int>, config: Option<SR.InitialConfig>,
                 devicesList: seq<DM.DeviceSpec>, drift: EnvironmentEngine.DriftModel,
                 deviceCatalog: DeviceEffectEngine.Catalog, cropCatalog: CropGrowthEngine.CropCatalog)
      ensures Valid() && fresh(deviceManager) && fresh(environment)
      ensures runner.failureProbability == FailureProbability && runner.drift == drift
      ensures runner.deviceCatalog == deviceCatalog && runner.cropCatalog == cropCatalog
      ensures telemetryAdapter == STA.Adapter(contexts, deviceSensorMap)
      ensures environment.Values() == SR.CreateInitialEnvironment(config)
      ensures deviceManager.Table() == DM.Initialized(map[], devicesList)
      ensures deviceManager.order == DM.InitializedOrder([], devicesList)
      ensures !isRunning && tickInterval.None? && !hasCallback && notified == []
    {
      runner := new SR.Runner(FailureProbability, drift, deviceCatalog, cropCatalog);
      var manager := new DM.DeviceManager();
      deviceManager := manager;
      telemetryAdapter := STA.Adapter(contexts, deviceSensorMap);
      environment := new EnvironmentState(SR.CreateInitialEnvironment(config));
      isRunning := false;
      tickInterval := None;
      hasCallback := false;
      notified := [];
      new;
      manager.Initialize(devicesList);
    }

    /** `setDeviceCommandHandler(callback)`. */
    method SetDeviceCommandHandler()
      modifies this
      ensures hasCallback
      ensures isRunning == old(isRunning) && tickInterval == old(tickInterval)
      ensures notified == old(notified)
    {
      hasCallback := true;
    }

    /**
     * `processDeviceCommand(command)`: the device table is updated, whether
     * or not the simulation runs, and the callback receives the command
     * exactly when the update applied and a callback is set.
     */
    method ProcessDeviceCommand(cmd: DM.Command)
      requires Valid()
      modifies this, deviceManager, deviceManager.devices.Values
      ensures Valid()
      ensures deviceManager.Table() == DM.Reconcile(old(deviceManager.Table()), cmd).0
      ensures notified == old(notified) + (if DM.Reconcile(old(deviceManager.Table()), cmd).1 && hasCallback then [cmd] else [])
      ensures isRunning == old(isRunning) && tickInterval == old(tickInterval)
      ensures hasCallback == old(hasCallback)
      ensures environment.Values() == old(environment.Values())
    {
      hide DM.Reconcile;
      ghost var before := deviceManager.Table();
      var updated := deviceManager.UpdateDevice(cmd);
      ghost var after := deviceManager.Table();
      assert after == DM.Reconcile(before, cmd).0;
      if updated && hasCallback {
        notified := notified + [cmd];
      }
      assert deviceManager.Table() == after;
    }

    /**
     * `start(tickIntervalMs)`: when already running nothing happens;
     * otherwise the service is marked running, one tick runs at once over
     * `devices` (its sends are `attempts`) and the interval timer (handle
     * `timer`) is recorded.
     */
    method Start(tickIntervalMs: nat, timer: nat, inputs: TickInputs) returns (devices: seq<Device>, attempts: seq<STA.Attempt>)
      requires Valid()
      modifies this, environment, deviceManager.devices.Values
      ensures unchanged(deviceManager) && Valid() && isRunning
      ensures devices == old(deviceManager.AllDevices())
      ensures old(isRunning) ==> unchanged(this, environment) && unchanged(deviceManager.devices.Values) && attempts == []
      ensures !old(isRunning) ==>
        tickInterval == Some(timer) &&
        TickStep(runner, inputs.draws, old(environment.Values()), old(Records(devices)), environment.Values(), Records(devices)) &&
        SentFor(telemetryAdapter, environment.Values(), inputs, attempts)
      ensures hasCallback == old(hasCallback) && notified == old(notified)
    {
      if isRunning {
        return deviceManager.AllDevices(), [];
      }
      devices, attempts := Begin(timer, inputs);
    }

    /** The part of `start` that runs when the service is not yet running. */
    method Begin(timer: nat, inputs: TickInputs) returns (devices: seq<Device>, attempts: seq<STA.Attempt>)
      requires Valid()
      modifies this, environment, deviceManager.devices.Values
      ensures unchanged(deviceManager) && Valid() && isRunning && tickInterval == Some(timer)
      ensures devices == old(deviceManager.AllDevices())
      ensures TickStep(runner, inputs.draws, old(environment.Values()), old(Records(devices)), environment.Values(), Records(devices))
      ensures SentFor(telemetryAdapter, environment.Values(), inputs, attempts)
      ensures hasCallback == old(hasCallback) && notified == old(notified)
    {
      hide TickStep, SentFor;
      ghost var e0, r0 := environment.Values(), Records(deviceManager.AllDevices());
      isRunning := true;
      tickInterval := Some(timer);
      devices, attempts := RunTick(inputs, e0, r0);
    }

    /** `stop()`: when not running nothing happens; otherwise the running flag and the timer are cleared. */
    method Stop()
      modifies this
      ensures !isRunning
      ensures old(isRunning) ==> tickInterval.None?
      ensures !old(isRunning) ==> tickInterval == old(tickInterval)
      ensures hasCallback == old(hasCallback) && notified == old(notified)
    {
      if !isRunning {
        return;
      }
      isRunning := false;
      if tickInterval.Some? {
        tickInterval := None;
      }
    }

    /**
     * `runTick()`: one runner tick over the table's devices (`devices`)
     * with no crops, then the environment's readings are sent
     * (`attempts`), each send's outcome recorded and none stopping the
     * rest. The running flag is left as it was.
     */
    method RunTick(inputs: TickInputs, ghost e0: EnvValues, ghost r0: seq<DeviceRecord>) returns (devices: seq<Device>, attempts: seq<STA.Attempt>)
      requires Valid()
      requires e0 == environment.Values() && r0 == Records(deviceManager.AllDevices())
      modifies environment, deviceManager.devices.Values
      ensures unchanged(deviceManager) && Valid()
      ensures devices == old(deviceManager.AllDevices())
      ensures TickStep(runner, inputs.draws, e0, r0, environment.Values(), Records(devices))
      ensures SentFor(telemetryAdapter, environment.Values(), inputs, attempts)
    {
      hide TickStep;
      devices := deviceManager.AllDevices();
      assert forall i :: 0 <= i < |devices| ==> devices[i] in deviceManager.devices.Values;
      TickDevices(runner, environment, devices, inputs.draws);
      ghost var e1, r1 := environment.Values(), Records(devices);
      assert TickStep(runner, inputs.draws, e0, r0, e1, r1);
      attempts := STA.SendEnvironmentReadings(telemetryAdapter, Full(environment.Values()), map[], inputs.clock, inputs.send);
    }

    /** `getEnvironment()`: a fresh copy, so changing it leaves the service's environment alone. */
    method GetEnvironment() returns (copy: EnvironmentState)
      ensures fresh(copy) && copy.Values() == environment.Values()
    {
      copy := new EnvironmentState(environment.Values());
    }

    /** `getDevices()`: the table's devices, in insertion order. */
    function GetDevices(): (r: seq<Device>)
      requires Valid()
      reads deviceManager
      ensures r == deviceManager.AllDevices()
    {
      deviceManager.AllDevices()
    }
  }
}
