/**
 * The older telemetry boundary: readings become one payload per defined
 * field, and the send loop only reports what it would send.
 */
module TelemetryAdapter {
  import opened Wrappers
  import opened Domain
  import opened Numeric

  /** The variable names, in the order the fields are emitted. */
  const Names: seq<string> := ["Temperature", "Humidity", "Soil Moisture", "Light Lux", "Oxygen PPM"]

  /** `x.toFixed(d)` of an optional reading. */
  function Formatted(v: Option<real>, d: nat): (r: Option<real>)
    ensures r.Some? <==> v.Some?
    ensures v.Some? ==> r.value == ToFixed(v.value, d)
  {
    if v.Some? then Some(ToFixed(v.value, d)) else None
  }

  /** The five reported fields with their names and formatted values; pH is not among them. */
  function Channels(r: PartialEnv): (cs: seq<(string, Option<real>)>)
    ensures |cs| == |Names|
    ensures forall i :: 0 <= i < |cs| ==> cs[i].0 == Names[i]
  {
    [("Temperature", Formatted(r.temperature, 2)), ("Humidity", Formatted(r.humidity, 2)),
     ("Soil Moisture", Formatted(r.soilMoisture, 2)), ("Light Lux", Formatted(r.lightLux, 0)),
     ("Oxygen PPM", Formatted(r.oxygenPPM, 2))]
  }

  /**
   * The payloads for the defined channels, in order; the `k`-th payload
   * pushed carries the time `clock(k)` read when it was built.
   */
  function Emitted(cs: seq<(string, Option<real>)>, clock: nat -> string): (ps: seq<Payload>)
    ensures |ps| <= |cs|
  {
    if |cs| == 0 then []
    else
      var ps := Emitted(cs[..|cs| - 1], clock);
      var c := cs[|cs| - 1];
      if c.1.Some? then ps + [Payload(c.0, c.1.value, clock(|ps|))] else ps
  }

  /** How many channels carry a value. */
  function Defined(cs: seq<(string, Option<real>)>): (n: nat)
    ensures n <= |cs|
  {
    if |cs| == 0 then 0 else Defined(cs[..|cs| - 1]) + (if cs[|cs| - 1].1.Some? then 1 else 0)
  }

  /**
   * `mapEnvironmentToTelemetry(readings, sensorId)`: one push per defined
   * field, checked in the fixed order. The sensor id plays no part.
   */
  method MapEnvironmentToTelemetry(readings: PartialEnv, sensorId: int, clock: nat -> string) returns (payloads: seq<Payload>)
    ensures payloads == Emitted(Channels(readings), clock)
  {
    var cs := Channels(readings);
    payloads := [];
    if readings.temperature.Some? {
      payloads := payloads + [Payload("Temperature", ToFixed(readings.temperature.value, 2), clock(|payloads|))];
    }
    assert payloads == Emitted(cs[..1], clock);
    if readings.humidity.Some? {
      payloads := payloads + [Payload("Humidity", ToFixed(readings.humidity.value, 2), clock(|payloads|))];
    }
    assert cs[..2][..1] == cs[..1];
    assert payloads == Emitted(cs[..2], clock);
    if readings.soilMoisture.Some? {
      payloads := payloads + [Payload("Soil Moisture", ToFixed(readings.soilMoisture.value, 2), clock(|payloads|))];
    }
    assert cs[..3][..2] == cs[..2];
    assert payloads == Emitted(cs[..3], clock);
    if readings.lightLux.Some? {
      payloads := payloads + [Payload("Light Lux", ToFixed(readings.lightLux.value, 0), clock(|payloads|))];
    }
    assert cs[..4][..3] == cs[..3];
    assert payloads == Emitted(cs[..4], clock);
    if readings.oxygenPPM.Some? {
      payloads := payloads + [Payload("Oxygen PPM", ToFixed(readings.oxygenPPM.value, 2), clock(|payloads|))];
    }
    assert cs[..5][..4] == cs[..4];
    assert cs[..5] == cs;
  }

  /** One payload per defined channel. */
  lemma {:induction false} EmittedCount(cs: seq<(string, Option<real>)>, clock: nat -> string)
    ensures |Emitted(cs, clock)| == Defined(cs)
  {
    if |cs| > 0 {
      EmittedCount(cs[..|cs| - 1], clock);
    }
  }

  /**
   * `idx` picks, for each payload in turn, a channel with its name and
   * value, strictly later than the one before.
   */
  predicate Embeds(ps: seq<Payload>, cs: seq<(string, Option<real>)>, idx: seq<nat>) {
    |idx| == |ps| &&
    (forall i :: 0 <= i < |ps| ==> idx[i] < |cs| && cs[idx[i]].1 == Some(ps[i].value) && ps[i].variableName == cs[idx[i]].0) &&
    (forall i, j :: 0 <= i < j < |ps| ==> idx[i] < idx[j])
  }

  /** The payloads follow the channel order, each carrying its channel's name and value. */
  lemma {:induction false} EmittedInOrder(cs: seq<(string, Option<real>)>, clock: nat -> string)
    ensures exists idx: seq<nat> :: Embeds(Emitted(cs, clock), cs, idx)
  {
    if |cs| == 0 {
      var none: seq<nat> := [];
      assert Embeds(Emitted(cs, clock), cs, none);
    } else {
      var init := cs[..|cs| - 1];
      EmittedInOrder(init, clock);
      var ps := Emitted(init, clock);
      var idx: seq<nat> :| Embeds(ps, init, idx);
      var c := cs[|cs| - 1];
      if c.1.Some? {
        var ps' := ps + [Payload(c.0, c.1.value, clock(|ps|))];
        assert Emitted(cs, clock) == ps';
        var idx' := idx + [|cs| - 1];
        assert forall i :: 0 <= i < |ps| ==> cs[idx'[i]] == init[idx[i]];
        assert Embeds(ps', cs, idx');
      } else {
        assert Emitted(cs, clock) == ps;
        assert forall i :: 0 <= i < |ps| ==> cs[idx[i]] == init[idx[i]];
        assert Embeds(ps, cs, idx);
      }
    }
  }

  /** The output never depends on pH: readings differing only in pH give the same payloads. */
  lemma PHNeverEmitted(r: PartialEnv, ph: Option<real>, clock: nat -> string)
    ensures Emitted(Channels(r.(pH := ph)), clock) == Emitted(Channels(r), clock)
  {
  }

  /**
   * Complete readings give all five payloads, named in the fixed order,
   * with the light level to whole lux and the rest to two decimals.
   */
  lemma CompleteReadings(e: EnvValues, clock: nat -> string)
    ensures var ps := Emitted(Channels(Full(e)), clock);
      |ps| == 5 &&
      (forall i :: 0 <= i < 5 ==> ps[i].variableName == Names[i] && ps[i].recievedAt == clock(i)) &&
      ps[0].value == ToFixed(e.temperature, 2) && ps[1].value == ToFixed(e.humidity, 2) &&
      ps[2].value == ToFixed(e.soilMoisture, 2) && ps[3].value == ToFixed(e.lightLux, 0) &&
      ps[4].value == ToFixed(e.oxygenPPM, 2)
  {
    var cs := Channels(Full(e));
    assert cs[..1][..0] == [];
    var p1 := [Payload("Temperature", ToFixed(e.temperature, 2), clock(0))];
    assert Emitted(cs[..1], clock) == p1;
    assert cs[..2][..1] == cs[..1];
    var p2 := p1 + [Payload("Humidity", ToFixed(e.humidity, 2), clock(1))];
    assert Emitted(cs[..2], clock) == p2;
    assert cs[..3][..2] == cs[..2];
    var p3 := p2 + [Payload("Soil Moisture", ToFixed(e.soilMoisture, 2), clock(2))];
    assert Emitted(cs[..3], clock) == p3;
    assert cs[..4][..3] == cs[..3];
    var p4 := p3 + [Payload("Light Lux", ToFixed(e.lightLux, 0), clock(3))];
    assert Emitted(cs[..4], clock) == p4;
    assert cs[..5][..4] == cs[..4];
    var p5 := p4 + [Payload("Oxygen PPM", ToFixed(e.oxygenPPM, 2), clock(4))];
    assert cs[..5] == cs;
    assert Emitted(cs, clock) == p5;
  }

  /** What the log line of a payload shows: its name and its value. */
  function Line(p: Payload): (string, real) {
    (p.variableName, p.value)
  }

  /** The log lines of a payload list, in order. */
  function Lines(ps: seq<Payload>): (r: seq<(string, real)>)
    ensures |r| == |ps|
    ensures forall i :: 0 <= i < |ps| ==> r[i] == Line(ps[i])
  {
    seq(|ps|, i requires 0 <= i < |ps| => Line(ps[i]))
  }

  /** The lines logged do not depend on the times the payloads were stamped with. */
  lemma {:induction false} LinesIgnoreClock(cs: seq<(string, Option<real>)>, c1: nat -> string, c2: nat -> string)
    ensures Lines(Emitted(cs, c1)) == Lines(Emitted(cs, c2))
  {
    if |cs| > 0 {
      var init := cs[..|cs| - 1];
      LinesIgnoreClock(init, c1, c2);
      EmittedCount(init, c1);
      EmittedCount(init, c2);
      var c := cs[|cs| - 1];
      var p1, p2 := Emitted(init, c1), Emitted(init, c2);
      if c.1.Some? {
        assert Lines(p1 + [Payload(c.0, c.1.value, c1(|p1|))]) == Lines(p1) + [(c.0, c.1.value)];
        assert Lines(p2 + [Payload(c.0, c.1.value, c2(|p2|))]) == Lines(p2) + [(c.0, c.1.value)];
      }
    }
  }

  /**
   * `sendSensorReadings(readings)`: for each context with a non-zero sensor
   * id, the payloads are built (the `i`-th context's at the times
   * `clock(i)`) and a line naming each payload's variable and value is
   * logged. No service is called; the result is the lines logged.
   */
  method SendSensorReadings(contexts: seq<DeviceContext>, deviceSensorMap: map<string, int>,
                            readings: PartialEnv, clock: nat -> nat -> string)
    returns (logged: seq<(string, real)>)
    ensures logged == Reports(contexts, deviceSensorMap, Lines(Emitted(Channels(readings), clock(0))))
  {
    ghost var lines := Lines(Emitted(Channels(readings), clock(0)));
    logged := [];
    for i := 0 to |contexts|
      invariant logged == Reports(contexts[..i], deviceSensorMap, lines)
    {
      var ctx := contexts[i];
      assert contexts[..i + 1][..i] == contexts[..i];
      if ctx.deviceUuid !in deviceSensorMap || deviceSensorMap[ctx.deviceUuid] == 0 {
        continue;
      }
      var payloads := MapEnvironmentToTelemetry(readings, deviceSensorMap[ctx.deviceUuid], clock(i));
      LinesIgnoreClock(Channels(readings), clock(i), clock(0));
      var printed := LogEach(payloads);
      logged := logged + printed;
    }
    assert contexts[..|contexts|] == contexts;
  }

  /** The inner loop of `sendSensorReadings`: one line per payload, in order. */
  method LogEach(payloads: seq<Payload>) returns (printed: seq<(string, real)>)
    ensures printed == Lines(payloads)
  {
    printed := [];
    for k := 0 to |payloads|
      invariant printed == Lines(payloads[..k])
    {
      printed := printed + [Line(payloads[k])];
    }
    assert payloads[..|payloads|] == payloads;
  }

  /** The context has a non-zero sensor id. */
  predicate Mapped(ctx: DeviceContext, deviceSensorMap: map<string, int>) {
    ctx.deviceUuid in deviceSensorMap && deviceSensorMap[ctx.deviceUuid] != 0
  }

  /** How many of the contexts have a non-zero sensor id. */
  function MappedCount(contexts: seq<DeviceContext>, deviceSensorMap: map<string, int>): (n: nat)
    ensures n <= |contexts|
  {
    if |contexts| == 0 then 0
    else MappedCount(contexts[..|contexts| - 1], deviceSensorMap) + (if Mapped(contexts[|contexts| - 1], deviceSensorMap) then 1 else 0)
  }

  /**
   * The lines logged for `contexts`: the same lines once for each context
   * with a non-zero sensor id, and nothing else.
   */
  function Reports(contexts: seq<DeviceContext>, deviceSensorMap: map<string, int>, lines: seq<(string, real)>):
    (r: seq<(string, real)>)
    ensures |r| == MappedCount(contexts, deviceSensorMap) * |lines|
    ensures forall i :: 0 <= i < |r| ==> r[i] in lines
  {
    if |contexts| == 0 then []
    else
      var ctx := contexts[|contexts| - 1];
      var before := Reports(contexts[..|contexts| - 1], deviceSensorMap, lines);
      var r := before + (if Mapped(ctx, deviceSensorMap) then lines else []);
      assert forall i :: |before| <= i < |r| ==> r[i] == lines[i - |before|];
      r
  }

  /** The lines of a concatenation of context lists are the lines of each in turn. */
  lemma {:induction false} ReportsConcat(a: seq<DeviceContext>, b: seq<DeviceContext>,
                                         deviceSensorMap: map<string, int>, lines: seq<(string, real)>)
    ensures Reports(a + b, deviceSensorMap, lines) == Reports(a, deviceSensorMap, lines) + Reports(b, deviceSensorMap, lines)
  {
    if |b| == 0 {
      assert a + b == a;
    } else {
      var b' := b[..|b| - 1];
      assert (a + b)[..|a + b| - 1] == a + b';
      ReportsConcat(a, b', deviceSensorMap, lines);
    }
  }

  /** A context without a sensor id, or with id 0, adds no line, wherever it stands. */
  lemma UnmappedNeverReported(a: seq<DeviceContext>, ctx: DeviceContext, b: seq<DeviceContext>,
                              deviceSensorMap: map<string, int>, lines: seq<(string, real)>)
    requires !Mapped(ctx, deviceSensorMap)
    ensures Reports(a + [ctx] + b, deviceSensorMap, lines) == Reports(a + b, deviceSensorMap, lines)
  {
    ReportsConcat(a + [ctx], b, deviceSensorMap, lines);
    ReportsConcat(a, [ctx], deviceSensorMap, lines);
    ReportsConcat(a, b, deviceSensorMap, lines);
    assert [ctx][..0] == [];
  }
}
