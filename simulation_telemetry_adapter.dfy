/**
 * The telemetry side of the closed loop: which reading each configured
 * sensor reports, and the send loop over the device contexts, where a
 * failed send is reported and the loop goes on.
 */
module SimulationTelemetryAdapter {
  import opened Wrappers
  import opened Domain
  import opened Numeric

  /** The adapter's configuration: the device contexts and the UUID-to-sensor-id map. */
  datatype Adapter = Adapter(deviceContexts: seq<DeviceContext>, deviceSensorMap: map<string, int>)

  /** One attempted send and whether the sender accepted it. */
  datatype Attempt = Attempt(context: DeviceContext, payload: Payload, ok: bool)

  /** `x.toFixed(2)` of an optional reading, as a single payload. */
  function Reading(name: string, v: Option<real>, timestamp: string): (r: seq<Payload>)
    ensures v.None? ==> r == []
    ensures v.Some? ==> r == [Payload(name, ToFixed(v.value, 2), timestamp)]
  {
    if v.Some? then [Payload(name, ToFixed(v.value, 2), timestamp)] else []
  }

  /**
   * `createTelemetryFromEnvironment(env, sensorId)`: the sensor's one
   * reading, when the field it reports is defined.
   */
  function CreateTelemetry(env: PartialEnv, sensorId: int, timestamp: string): (r: seq<Payload>)
    ensures |r| <= 1
    ensures forall i :: 0 <= i < |r| ==> r[i].recievedAt == timestamp
  {
    match sensorId
    case 1 => Reading("pH Level", env.pH, timestamp)
    case 2 => Reading("Solution Temperature", env.temperature, timestamp)
    case 3 => Reading("Water Temperature", env.temperature, timestamp)
    case 4 => Reading("DO Saturation", env.oxygenPPM, timestamp)
    case 5 =>
      if env.soilMoisture.Some? then [Payload("Tank Capacity", MathRound(env.soilMoisture.value / 10.0) as real, timestamp)]
      else []
    case _ => Reading("Temperature", env.temperature, timestamp)
  }

  /**
   * On a complete environment every sensor id yields exactly one payload:
   * pH for sensor 1, the temperature for 2 and 3 (under their own names),
   * dissolved oxygen for 4, the soil moisture in tenths, rounded, for 5,
   * and the temperature for any other id.
   */
  lemma CompleteEnvironmentDispatch(e: EnvValues, sensorId: int, timestamp: string)
    ensures var r := CreateTelemetry(Full(e), sensorId, timestamp);
      |r| == 1 && r[0].recievedAt == timestamp &&
      (sensorId == 1 ==> r[0].variableName == "pH Level" && r[0].value == ToFixed(e.pH, 2)) &&
      (sensorId == 2 ==> r[0].variableName == "Solution Temperature" && r[0].value == ToFixed(e.temperature, 2)) &&
      (sensorId == 3 ==> r[0].variableName == "Water Temperature" && r[0].value == ToFixed(e.temperature, 2)) &&
      (sensorId == 4 ==> r[0].variableName == "DO Saturation" && r[0].value == ToFixed(e.oxygenPPM, 2)) &&
      (sensorId == 5 ==> r[0].variableName == "Tank Capacity" && r[0].value == MathRound(e.soilMoisture / 10.0) as real) &&
      (!(1 <= sensorId <= 5) ==> r[0].variableName == "Temperature" && r[0].value == ToFixed(e.temperature, 2))
  {
  }

  /** A sensor reports nothing when the field it reads is missing, whatever else is known. */
  lemma MissingFieldSendsNothing(env: PartialEnv, sensorId: int, timestamp: string)
    requires sensorId == 1 ==> env.pH.None?
    requires sensorId == 4 ==> env.oxygenPPM.None?
    requires sensorId == 5 ==> env.soilMoisture.None?
    requires sensorId !in {1, 4, 5} ==> env.temperature.None?
    ensures CreateTelemetry(env, sensorId, timestamp) == []
  {
  }

  /** The sensor id of a context: `deviceSensorMap.get(uuid)`, where a missing id and 0 both skip it. */
  function SensorIdOf(a: Adapter, ctx: DeviceContext): (r: Option<int>)
    ensures r.Some? <==> ctx.deviceUuid in a.deviceSensorMap && a.deviceSensorMap[ctx.deviceUuid] != 0
    ensures r.Some? ==> r.value == a.deviceSensorMap[ctx.deviceUuid]
  {
    if ctx.deviceUuid in a.deviceSensorMap && a.deviceSensorMap[ctx.deviceUuid] != 0
    then Some(a.deviceSensorMap[ctx.deviceUuid]) else None
  }

  /** The payloads meant for one context, read at `timestamp`. */
  function ContextPlan(a: Adapter, ctx: DeviceContext, env: PartialEnv, timestamp: string): (r: seq<Payload>)
    ensures SensorIdOf(a, ctx).None? ==> r == []
    ensures |r| <= 1
  {
    match SensorIdOf(a, ctx)
    case None => []
    case Some(id) => CreateTelemetry(env, id, timestamp)
  }

  /** Tags each payload with the context it is sent for. */
  function Addressed(ctx: DeviceContext, ps: seq<Payload>): (r: seq<(DeviceContext, Payload)>)
    ensures |r| == |ps|
    ensures forall i :: 0 <= i < |ps| ==> r[i] == (ctx, ps[i])
  {
    seq(|ps|, i requires 0 <= i < |ps| => (ctx, ps[i]))
  }

  /**
   * Every (context, payload) pair the first `n` contexts are meant to send,
   * in order; `clock(i)` is the time at which the `i`-th context's payloads
   * are built.
   */
  function Plan(a: Adapter, env: PartialEnv, clock: int -> string, n: nat): (r: seq<(DeviceContext, Payload)>)
    requires n <= |a.deviceContexts|
    ensures forall i :: 0 <= i < |r| ==> r[i].0 in a.deviceContexts[..n] && SensorIdOf(a, r[i].0).Some?
  {
    if n == 0 then []
    else
      var before := Plan(a, env, clock, n - 1);
      var ctx := a.deviceContexts[n - 1];
      var r := before + Addressed(ctx, ContextPlan(a, ctx, env, clock(n - 1)));
      assert a.deviceContexts[..n] == a.deviceContexts[..n - 1] + [ctx];
      assert forall i :: |before| <= i < |r| ==> r[i].0 == ctx;
      r
  }

  /** What was sent, forgetting the outcomes. */
  function Tried(attempts: seq<Attempt>): (r: seq<(DeviceContext, Payload)>)
    ensures |r| == |attempts|
    ensures forall i :: 0 <= i < |attempts| ==> r[i] == (attempts[i].context, attempts[i].payload)
  {
    seq(|attempts|, i requires 0 <= i < |attempts| => (attempts[i].context, attempts[i].payload))
  }

  /**
   * `sendEnvironmentReadings(env, sensorMapping)`: every planned payload is
   * handed to `send`, in order, whatever earlier sends returned. The
   * `sensorMapping` argument plays no part.
   */
  method SendEnvironmentReadings(a: Adapter, env: PartialEnv, sensorMapping: map<int, seq<string>>,
                                 clock: int -> string, send: (DeviceContext, Payload) -> bool)
    returns (attempts: seq<Attempt>)
    ensures Tried(attempts) == Plan(a, env, clock, |a.deviceContexts|)
    ensures forall i :: 0 <= i < |attempts| ==> attempts[i].ok == send(attempts[i].context, attempts[i].payload)
  {
    attempts := [];
    for i := 0 to |a.deviceContexts|
      invariant Tried(attempts) == Plan(a, env, clock, i)
      invariant forall j :: 0 <= j < |attempts| ==> attempts[j].ok == send(attempts[j].context, attempts[j].payload)
    {
      var ctx := a.deviceContexts[i];
      var sensorId := SensorIdOf(a, ctx);
      if sensorId.None? {
        assert Addressed(ctx, ContextPlan(a, ctx, env, clock(i))) == [];
        continue;
      }
      var payloads := CreateTelemetry(env, sensorId.value, clock(i));
      var sent := SendEach(ctx, payloads, send);
      assert Tried(attempts + sent) == Tried(attempts) + Tried(sent);
      attempts := attempts + sent;
    }
  }

  /** The inner loop of `sendEnvironmentReadings`: each payload sent for `ctx`, in order. */
  method SendEach(ctx: DeviceContext, payloads: seq<Payload>, send: (DeviceContext, Payload) -> bool)
    returns (sent: seq<Attempt>)
    ensures Tried(sent) == Addressed(ctx, payloads)
    ensures forall i :: 0 <= i < |sent| ==> sent[i].ok == send(sent[i].context, sent[i].payload)
  {
    sent := [];
    for k := 0 to |payloads|
      invariant |sent| == k
      invariant forall j :: 0 <= j < k ==> sent[j] == Attempt(ctx, payloads[j], send(ctx, payloads[j]))
    {
      var ok := send(ctx, payloads[k]);
      sent := sent + [Attempt(ctx, payloads[k], ok)];
    }
  }

  /** A context without a sensor id, or with id 0, adds nothing to the plan. */
  lemma SkippedContextSendsNothing(a: Adapter, env: PartialEnv, clock: int -> string, n: nat)
    requires n < |a.deviceContexts| && SensorIdOf(a, a.deviceContexts[n]).None?
    ensures Plan(a, env, clock, n + 1) == Plan(a, env, clock, n)
  {
    assert Addressed(a.deviceContexts[n], []) == [];
  }

  /** How many of the first `n` contexts have a sensor id. */
  function Mapped(a: Adapter, n: nat): (r: nat)
    requires n <= |a.deviceContexts|
    ensures r <= n
  {
    if n == 0 then 0
    else Mapped(a, n - 1) + (if SensorIdOf(a, a.deviceContexts[n - 1]).Some? then 1 else 0)
  }

  /**
   * At most one payload per mapped context, and exactly one per mapped
   * context when the environment is complete.
   */
  lemma {:induction false} PlanLength(a: Adapter, env: PartialEnv, clock: int -> string, n: nat)
    requires n <= |a.deviceContexts|
    ensures |Plan(a, env, clock, n)| <= Mapped(a, n)
    ensures (exists e :: env == Full(e)) ==> |Plan(a, env, clock, n)| == Mapped(a, n)
  {
    if n > 0 {
      PlanLength(a, env, clock, n - 1);
      var ctx := a.deviceContexts[n - 1];
      if (exists e :: env == Full(e)) && SensorIdOf(a, ctx).Some? {
        var e :| env == Full(e);
        CompleteEnvironmentDispatch(e, SensorIdOf(a, ctx).value, clock(n - 1));
      }
    }
  }
}
