/**
 * The device manager: a table of device records keyed by device id, filled
 * from the configured device list and updated by commands from the backend
 * (src/core/DeviceManager.ts). A JavaScript `Map` iterates in insertion
 * order, so the table keeps its keys' insertion order next to the map.
 */
module DeviceManager {
  import opened Wrappers
  import opened Text
  import opened Domain

  /** An entry of the configured device list: `{ id, type }`. */
  datatype DeviceSpec = DeviceSpec(id: string, deviceType: string)

  /** The `metadata` object of a backend-format command. */
  datatype Metadata = Metadata(
    deviceUuid: Option<string>,
    stateName: Option<string>,
    newValue: Option<string>,
    deviceType: Option<string>,
    deviceName: Option<string>)

  /**
   * A command, as the fields `updateDevice` reads from it: with `metadata`
   * it is the backend format, without it the simple format (whose `type` is
   * `typeName` here).
   */
  datatype Command = Command(
    metadata: Option<Metadata>,
    deviceId: Option<string>,
    deviceUuid: Option<string>,
    deviceType: Option<string>,
    status: Option<Status>,
    level: Option<real>,
    typeName: Option<string>)

  /**
   * The status a backend `newValue` asks for: "on", "true" and "1" mean ON,
   * "off", "false" and "0" mean OFF, whatever the case; anything else,
   * or no value, asks for nothing.
   */
  function ParseNewValue(newValue: Option<string>): (r: Option<Status>)
    ensures r == Some(On) <==> newValue.Some? && ToLower(newValue.value) in {"on", "true", "1"}
    ensures r == Some(Off) <==> newValue.Some? && ToLower(newValue.value) in {"off", "false", "0"}
  {
    if newValue.None? then None
    else
      var v := ToLower(newValue.value);
      if v == "on" || v == "true" || v == "1" then Some(On)
      else if v == "off" || v == "false" || v == "0" then Some(Off)
      else None
  }

  /** Upper-case spellings are read like lower-case ones. */
  lemma ParseNewValueExamples()
    ensures ParseNewValue(Some("ON")) == Some(On)
    ensures ParseNewValue(Some("False")) == Some(Off)
    ensures ParseNewValue(Some("yes")) == None
  {
    assert ToLower("ON") == "on";
    assert ToLower("False") == "false";
    assert ToLower("yes") == "yes";
  }

  /** The keyword tests of `inferDeviceTypeFromName`, on the lower-cased name. */
  predicate PumpName(n: string) { Contains(n, "pump") || Contains(n, "water pump") }
  predicate FanName(n: string) { Contains(n, "fan") }
  predicate AcName(n: string) { Contains(n, "ac") || Contains(n, "air conditioner") || Contains(n, "air conditioning") }
  predicate HeaterName(n: string) { Contains(n, "heater") }
  predicate HumidifierName(n: string) { Contains(n, "humidifier") }
  predicate LightName(n: string) { Contains(n, "light") || Contains(n, "grow light") }

  /**
   * `inferDeviceTypeFromName(name)`: the first keyword the lower-cased name
   * contains decides, in the order pump, fan, ac (or air conditioner/ing),
   * heater, humidifier, light; a name with none of them is UNKNOWN.
   */
  function InferDeviceType(deviceName: string): (r: string)
    ensures r in {"WATER_PUMP", "FAN", "AC", "HEATER", "HUMIDIFIER", "GROW_LIGHT", "UNKNOWN"}
    ensures var n := ToLower(deviceName);
      (r == "WATER_PUMP" <==> PumpName(n)) &&
      (r == "FAN" <==> !PumpName(n) && FanName(n)) &&
      (r == "AC" <==> !PumpName(n) && !FanName(n) && AcName(n)) &&
      (r == "HEATER" <==> !PumpName(n) && !FanName(n) && !AcName(n) && HeaterName(n)) &&
      (r == "HUMIDIFIER" <==> !PumpName(n) && !FanName(n) && !AcName(n) && !HeaterName(n) && HumidifierName(n)) &&
      (r == "GROW_LIGHT" <==>
        !PumpName(n) && !FanName(n) && !AcName(n) && !HeaterName(n) && !HumidifierName(n) && LightName(n))
    ensures Contains(ToLower(deviceName), "pump") ==> r == "WATER_PUMP"
    ensures r == "UNKNOWN" <==>
      !Contains(ToLower(deviceName), "pump") && !Contains(ToLower(deviceName), "fan") &&
      !Contains(ToLower(deviceName), "ac") && !Contains(ToLower(deviceName), "air conditioner") &&
      !Contains(ToLower(deviceName), "air conditioning") && !Contains(ToLower(deviceName), "heater") &&
      !Contains(ToLower(deviceName), "humidifier") && !Contains(ToLower(deviceName), "light")
  {
    var name := ToLower(deviceName);
    RedundantKeywords(name);
    if PumpName(name) then "WATER_PUMP"
    else if FanName(name) then "FAN"
    else if AcName(name) then "AC"
    else if HeaterName(name) then "HEATER"
    else if HumidifierName(name) then "HUMIDIFIER"
    else if LightName(name) then "GROW_LIGHT"
    else "UNKNOWN"
  }

  /** The "water pump" and "grow light" tests add nothing to "pump" and "light". */
  lemma RedundantKeywords(name: string)
    ensures Contains(name, "water pump") ==> Contains(name, "pump")
    ensures Contains(name, "grow light") ==> Contains(name, "light")
  {
    if Contains(name, "water pump") {
      assert OccursAt("water pump", "pump", 6);
      ContainsInner(name, "water pump", "pump", 6);
    }
    if Contains(name, "grow light") {
      assert OccursAt("grow light", "light", 5);
      ContainsInner(name, "grow light", "light", 5);
    }
  }

  /** First match wins: "Space Heater" contains "ac" before "heater" is tried. */
  lemma SpaceHeaterIsAC()
    ensures InferDeviceType("Space Heater") == "AC"
  {
    var name := ToLower("Space Heater");
    assert name == "space heater";
    MissingChar(name, "pump", 'u');
    MissingChar(name, "water pump", 'u');
    MissingChar(name, "fan", 'f');
    assert name[2..4] == "ac";
    assert OccursAt(name, "ac", 2);
  }

  /** A name containing only "light" is a grow light. */
  lemma GrowLightExample()
    ensures InferDeviceType("LED Light") == "GROW_LIGHT"
  {
    var name := ToLower("LED Light");
    assert name == "led light";
    assert !Contains(name, "pump") by { MissingChar(name, "pump", 'u'); }
    assert !Contains(name, "water pump") by { MissingChar(name, "water pump", 'u'); }
    assert !Contains(name, "fan") by { MissingChar(name, "fan", 'f'); }
    assert !Contains(name, "ac") by { MissingChar(name, "ac", 'a'); }
    assert !Contains(name, "air conditioner") by { MissingChar(name, "air conditioner", 'a'); }
    assert !Contains(name, "air conditioning") by { MissingChar(name, "air conditioning", 'a'); }
    assert !Contains(name, "heater") by { MissingChar(name, "heater", 'a'); }
    assert !Contains(name, "humidifier") by { MissingChar(name, "humidifier", 'u'); }
    assert OccursAt(name, "light", 4);
  }

  /** The device table as values: id to record. */
  type Table = map<string, DeviceRecord>

  /** What `updateDevice` reads out of a command before it touches the table. */
  datatype Request = Request(
    deviceId: Option<string>,
    status: Option<Status>,
    level: Option<real>,
    deviceType: Option<string>,
    createsMissing: bool)

  /**
   * The parse of a command. Backend format: the command's `deviceUuid` before
   * the metadata's, the status from `newValue`, no level, the type from the
   * command or the metadata or else inferred from `deviceName`, and unknown
   * ids created. Simple format: `deviceId` before `deviceUuid`, and status,
   * level and type as given.
   */
  function Resolve(cmd: Command): (r: Request)
    ensures cmd.metadata.Some? ==> r.createsMissing && r.level.None?
    ensures cmd.metadata.Some? ==> r.status == ParseNewValue(cmd.metadata.value.newValue)
    ensures cmd.metadata.Some? && Truthy(OrElse(cmd.deviceType, cmd.metadata.value.deviceType)) ==>
      r.deviceType == OrElse(cmd.deviceType, cmd.metadata.value.deviceType)
    ensures cmd.metadata.Some? && !Truthy(OrElse(cmd.deviceType, cmd.metadata.value.deviceType)) ==>
      if Truthy(cmd.metadata.value.deviceName)
      then r.deviceType == Some(InferDeviceType(cmd.metadata.value.deviceName.value))
      else !Truthy(r.deviceType)
    ensures cmd.metadata.None? ==>
      !r.createsMissing && r.status == cmd.status && r.level == cmd.level && r.deviceType == cmd.typeName
  {
    match cmd.metadata
    case Some(md) =>
      var deviceType := OrElse(cmd.deviceType, md.deviceType);
      var deviceType' := if !Truthy(deviceType) && Truthy(md.deviceName)
        then Some(InferDeviceType(md.deviceName.value)) else deviceType;
      Request(OrElse(cmd.deviceUuid, md.deviceUuid), ParseNewValue(md.newValue), None, deviceType', true)
    case None =>
      Request(OrElse(cmd.deviceId, cmd.deviceUuid), cmd.status, cmd.level, cmd.typeName, false)
  }

  /** Some record of the table carries the UUID `id`. */
  predicate HasUuid(t: Table, id: string) {
    exists k :: k in t && t[k].deviceUuid == id
  }

  /** The record a backend command creates for an unknown id. */
  function CreatedRecord(id: string, req: Request): DeviceRecord {
    DeviceRecord(id, OrString(req.deviceType, "UNKNOWN"), req.status.GetOr(Off), Some(0.0))
  }

  /** A record with the requested fields written: status and level when given, type when non-empty. */
  function Applied(rec: DeviceRecord, req: Request): DeviceRecord {
    rec.(status := req.status.GetOr(rec.status),
         level := if req.level.Some? then req.level else rec.level,
         deviceType := OrString(req.deviceType, rec.deviceType))
  }

  /** `updateDevice(command)` on the table as values: whether it applied, and the new table. */
  function Reconcile(t: Table, cmd: Command): (r: (Table, bool))
    ensures !r.1 ==> r.0 == t
    ensures r.1 <==> (Truthy(Resolve(cmd).deviceId) &&
      (Resolve(cmd).deviceId.value in t || (Resolve(cmd).createsMissing && !HasUuid(t, Resolve(cmd).deviceId.value))))
    ensures r.1 ==> r.0.Keys == t.Keys + {Resolve(cmd).deviceId.value}
  {
    var req := Resolve(cmd);
    if !Truthy(req.deviceId) then (t, false)
    else
      var id := req.deviceId.value;
      var t1 := if req.createsMissing && id !in t && !HasUuid(t, id) then t[id := CreatedRecord(id, req)] else t;
      if id !in t1 then (t, false)
      else (t1[id := Applied(t1[id], req)], true)
  }

  /** Every record is filed under its own UUID. */
  predicate KeyedByUuid(t: Table) {
    forall k :: k in t ==> t[k].deviceUuid == k
  }

  /** The UUID search of the backend branch never finds anything in a table keyed by UUID. */
  lemma UuidSearchIsDead(t: Table, id: string)
    requires KeyedByUuid(t) && id !in t
    ensures !HasUuid(t, id)
  {
  }

  /** A command without a usable identifier is refused and changes nothing, in either format. */
  lemma NoIdentifierRefused(t: Table, cmd: Command)
    requires cmd.metadata.Some? ==> !Truthy(cmd.deviceUuid) && !Truthy(cmd.metadata.value.deviceUuid)
    requires cmd.metadata.None? ==> !Truthy(cmd.deviceId) && !Truthy(cmd.deviceUuid)
    ensures Reconcile(t, cmd) == (t, false)
  {
  }

  /** Which identifier wins: the command's `deviceUuid` (backend format), `deviceId` (simple format). */
  lemma IdPrecedence(cmd: Command)
    ensures cmd.metadata.Some? && Truthy(cmd.deviceUuid) ==> Resolve(cmd).deviceId == cmd.deviceUuid
    ensures cmd.metadata.Some? && !Truthy(cmd.deviceUuid) ==> Resolve(cmd).deviceId == cmd.metadata.value.deviceUuid
    ensures cmd.metadata.None? && Truthy(cmd.deviceId) ==> Resolve(cmd).deviceId == cmd.deviceId
    ensures cmd.metadata.None? && !Truthy(cmd.deviceId) ==> Resolve(cmd).deviceId == cmd.deviceUuid
  {
  }

  /**
   * A backend command for an unknown id creates the device, with type
   * `deviceType || "UNKNOWN"`, status `status || "OFF"` and level 0, and
   * succeeds.
   */
  lemma BackendCreatesUnknown(t: Table, cmd: Command)
    requires KeyedByUuid(t)
    requires cmd.metadata.Some? && Truthy(Resolve(cmd).deviceId) && Resolve(cmd).deviceId.value !in t
    ensures var id := Resolve(cmd).deviceId.value;
      var req := Resolve(cmd);
      Reconcile(t, cmd) == (t[id := DeviceRecord(id, OrString(req.deviceType, "UNKNOWN"), req.status.GetOr(Off), Some(0.0))], true)
  {
    var req := Resolve(cmd);
    var id := req.deviceId.value;
    UuidSearchIsDead(t, id);
    var rec := CreatedRecord(id, req);
    assert req.level.None?;
    assert Applied(rec, req) == rec;
    var t1 := t[id := rec];
    assert t1[id := Applied(t1[id], req)] == t1;
    assert Reconcile(t, cmd) == (t1, true);
  }

  /** A simple-format command for an unknown id is refused and creates nothing. */
  lemma SimpleUnknownRefused(t: Table, cmd: Command)
    requires cmd.metadata.None? && Truthy(Resolve(cmd).deviceId) && Resolve(cmd).deviceId.value !in t
    ensures Reconcile(t, cmd) == (t, false)
  {
  }

  /**
   * A command for a known id succeeds and writes only the fields it
   * supplies, on that record only: the status if given, the level if given
   * (never in the backend format) and the type if non-empty.
   */
  lemma KnownIdUpdatesSuppliedFields(t: Table, cmd: Command)
    requires Truthy(Resolve(cmd).deviceId) && Resolve(cmd).deviceId.value in t
    ensures var id := Resolve(cmd).deviceId.value;
      var req := Resolve(cmd);
      var t' := Reconcile(t, cmd).0;
      Reconcile(t, cmd).1 && t'.Keys == t.Keys &&
      (forall k :: k in t && k != id ==> t'[k] == t[k]) &&
      t'[id].deviceUuid == t[id].deviceUuid &&
      t'[id].status == (if req.status.Some? then req.status.value else t[id].status) &&
      t'[id].level == (if req.level.Some? then req.level else t[id].level) &&
      (cmd.metadata.Some? ==> t'[id].level == t[id].level) &&
      t'[id].deviceType == (if Truthy(req.deviceType) then req.deviceType.value else t[id].deviceType)
  {
    var req := Resolve(cmd);
    var id := req.deviceId.value;
    var rec := Applied(t[id], req);
    assert Reconcile(t, cmd) == (t[id := rec], true);
    assert rec.status == (if req.status.Some? then req.status.value else t[id].status);
    assert rec.deviceType == (if Truthy(req.deviceType) then req.deviceType.value else t[id].deviceType);
  }

  /** A command, in either format, keeps every existing device record whose id it does not name. */
  lemma OthersUnchanged(t: Table, cmd: Command, k: string)
    requires k in t && (Resolve(cmd).deviceId.None? || Resolve(cmd).deviceId.value != k)
    ensures k in Reconcile(t, cmd).0 && Reconcile(t, cmd).0[k] == t[k]
  {
  }

  /**
   * A backend command for an unconfigured id, carrying only a `newValue` and
   * a device name, creates the device with the type inferred from the name
   * and the requested status, and succeeds.
   */
  lemma BackendCreatesNamedDevice()
    ensures var cmd := Command(Some(Metadata(None, None, Some("ON"), None, Some("Grow Light 2"))),
                               None, Some("x9"), None, None, None, None);
      Reconcile(map[], cmd) == (map["x9" := DeviceRecord("x9", "GROW_LIGHT", On, Some(0.0))], true)
  {
    var cmd := Command(Some(Metadata(None, None, Some("ON"), None, Some("Grow Light 2"))),
                       None, Some("x9"), None, None, None, None);
    assert ToLower("ON") == "on";
    GrowLight2Inferred();
    assert Resolve(cmd) == Request(Some("x9"), Some(On), None, Some("GROW_LIGHT"), true);
    var req := Resolve(cmd);
    var rec := CreatedRecord("x9", req);
    assert rec == DeviceRecord("x9", "GROW_LIGHT", On, Some(0.0));
    assert Applied(rec, req) == rec;
    var t1: Table := map["x9" := rec];
    assert !HasUuid(map[], "x9");
    assert Reconcile(map[], cmd) == (t1["x9" := Applied(t1["x9"], req)], true);
    assert t1["x9" := rec] == t1;
  }

  /** "Grow Light 2" names a grow light. */
  lemma GrowLight2Inferred()
    ensures InferDeviceType("Grow Light 2") == "GROW_LIGHT"
  {
    var name := ToLower("Grow Light 2");
    assert name == "grow light 2";
    MissingChar(name, "pump", 'u');
    MissingChar(name, "water pump", 'u');
    MissingChar(name, "fan", 'f');
    MissingChar(name, "ac", 'a');
    MissingChar(name, "air conditioner", 'a');
    MissingChar(name, "air conditioning", 'a');
    MissingChar(name, "heater", 'a');
    MissingChar(name, "humidifier", 'u');
    assert name[5..10] == "light";
    assert OccursAt(name, "light", 5);
  }

  /** `updateDevice` keeps the table keyed by UUID. */
  lemma ReconcileKeepsKeying(t: Table, cmd: Command)
    requires KeyedByUuid(t)
    ensures KeyedByUuid(Reconcile(t, cmd).0)
  {
  }

  /** The record `initialize` files for a configured device: its id as UUID, OFF, level 0. */
  function OffRecord(s: DeviceSpec): DeviceRecord {
    DeviceRecord(s.id, s.deviceType, Off, Some(0.0))
  }

  /** `initialize(list)` on the table as values: each entry written in turn. */
  function Initialized(t: Table, list: seq<DeviceSpec>): (r: Table)
    ensures t.Keys <= r.Keys
    ensures forall i :: 0 <= i < |list| ==>
      list[i].id in r && r[list[i].id].status == Off && r[list[i].id].level == Some(0.0)
  {
    if |list| == 0 then t
    else Initialized(t, list[..|list| - 1])[list[|list| - 1].id := OffRecord(list[|list| - 1])]
  }

  /**
   * The insertion order after `initialize(list)`: the old order, then each
   * listed id that is new, at its first write; a rewrite keeps its place.
   */
  function InitializedOrder(order: seq<string>, list: seq<DeviceSpec>): (r: seq<string>)
    ensures |order| <= |r| && r[..|order|] == order
    ensures forall k :: k in r <==> k in order || exists i :: 0 <= i < |list| && list[i].id == k
    ensures (forall i, j :: 0 <= i < j < |order| ==> order[i] != order[j]) ==>
      forall i, j :: 0 <= i < j < |r| ==> r[i] != r[j]
  {
    if |list| == 0 then order
    else
      var init := list[..|list| - 1];
      var o := InitializedOrder(order, init);
      var id := list[|list| - 1].id;
      assert list == init + [list[|list| - 1]];
      if id in o then o
      else
        assert (o + [id])[..|order|] == o[..|order|];
        o + [id]
  }

  /** After `initialize` the table holds exactly the old ids and the listed ones. */
  lemma {:induction false} InitializedKeys(t: Table, list: seq<DeviceSpec>, k: string)
    ensures k in Initialized(t, list) <==> k in t || exists i :: 0 <= i < |list| && list[i].id == k
  {
    if |list| > 0 {
      var init := list[..|list| - 1];
      InitializedKeys(t, init, k);
      assert (exists i :: 0 <= i < |list| && list[i].id == k) <==>
        list[|list| - 1].id == k || exists i :: 0 <= i < |init| && init[i].id == k;
    }
  }

  /**
   * After `initialize`, every listed id holds the record of its last entry
   * in the list: a later duplicate overwrites an earlier one.
   */
  lemma {:induction false} InitializedLastWins(t: Table, list: seq<DeviceSpec>, i: nat)
    requires i < |list| && forall j :: i < j < |list| ==> list[j].id != list[i].id
    ensures list[i].id in Initialized(t, list) && Initialized(t, list)[list[i].id] == OffRecord(list[i])
  {
    if i < |list| - 1 {
      var init := list[..|list| - 1];
      InitializedLastWins(t, init, i);
    }
  }

  /** An id the list does not mention keeps its record. */
  lemma {:induction false} InitializedElsewhere(t: Table, list: seq<DeviceSpec>, k: string)
    requires k in t && forall i :: 0 <= i < |list| ==> list[i].id != k
    ensures k in Initialized(t, list) && Initialized(t, list)[k] == t[k]
  {
    if |list| > 0 {
      InitializedElsewhere(t, list[..|list| - 1], k);
    }
  }

  /** `initialize` keeps the table keyed by UUID. */
  lemma {:induction false} InitializedKeepsKeying(t: Table, list: seq<DeviceSpec>)
    requires KeyedByUuid(t)
    ensures KeyedByUuid(Initialized(t, list))
  {
    if |list| > 0 {
      InitializedKeepsKeying(t, list[..|list| - 1]);
    }
  }

  /** The device table of a `DeviceManager`: shared device records keyed by id. */
  class DeviceManager {
    /** The keys in insertion order, which is the order `Map.values()` yields. */
    var order: seq<string>
    var devices: map<string, Device>

    /** The keys listed once each, in `order`, and every device filed under its UUID. */
    predicate Valid()
      reads this
    {
      Indexed(order, devices)
    }

    /** The table as values. */
    function Table(): (t: Table)
      reads this, devices.Values
      ensures t.Keys == devices.Keys
      ensures forall k :: k in devices ==> t[k] == devices[k].Value()
    {
      TableOf(devices)
    }

    constructor ()
      ensures Valid() && order == [] && devices == map[]
    {
      order := [];
      devices := map[];
    }

    /** `initialize(list)`: every listed device filed under its id, OFF, level 0. */
    method Initialize(list: seq<DeviceSpec>)
      requires Valid()
      modifies this
      ensures Valid()
      ensures Table() == Initialized(old(Table()), list)
      ensures order == InitializedOrder(old(order), list)
    {
      ghost var t0 := Table();
      ghost var o0 := order;
      for i := 0 to |list|
        invariant Valid()
        invariant Table() == Initialized(t0, list[..i])
        invariant order == InitializedOrder(o0, list[..i])
      {
        var spec := list[i];
        assert list[..i + 1][..i] == list[..i];
        var device := new Device(spec.id, spec.deviceType, Off, Some(0.0));
        Put(spec.id, device);
      }
      assert list[..|list|] == list;
    }

    /** `devices.set(id, device)`: a new key goes to the end of the insertion order. */
    method Put(id: string, device: Device)
      requires Valid() && device.deviceUuid == id
      modifies this
      ensures Valid()
      ensures devices == old(devices)[id := device]
      ensures order == if id in old(devices) then old(order) else old(order) + [id]
      ensures Table() == old(Table())[id := device.Value()]
    {
      ghost var t0 := Table();
      if id !in devices {
        order := order + [id];
      }
      assert TableOf(old(devices)) == t0;
      devices := devices[id := device];
      assert TableOf(old(devices)) == t0;
      assert Table() == TableOf(old(devices)[id := device]);
      PutKeepsIndexed(old(order), old(devices), id, device);
      TableOfPut(old(devices), id, device);
    }

    /**
     * The first device, in insertion order, whose UUID is `uuid` (the
     * `Array.from(values).find` of the backend branch).
     */
    method FindByUuid(uuid: string) returns (found: Option<Device>)
      requires Valid()
      ensures found.Some? ==> exists i :: 0 <= i < |order| && devices[order[i]] == found.value && found.value.deviceUuid == uuid
      ensures found.None? <==> forall k :: k in devices ==> devices[k].deviceUuid != uuid
    {
      for i := 0 to |order|
        invariant forall j :: 0 <= j < i ==> devices[order[j]].deviceUuid != uuid
      {
        var d := devices[order[i]];
        if d.deviceUuid == uuid {
          return Some(d);
        }
      }
      return None;
    }

    /**
     * `updateDevice(command)`: the table changes as `Reconcile` says, a
     * created device is appended to the insertion order, and existing
     * devices stay the same objects.
     */
    method UpdateDevice(cmd: Command) returns (applied: bool)
      requires Valid()
      modifies this, devices.Values
      ensures Valid()
      ensures (Table(), applied) == Reconcile(old(Table()), cmd)
      ensures forall k :: k in old(devices) ==> k in devices && devices[k] == old(devices[k])
      ensures order == old(order) || (|order| == |old(order)| + 1 && order[..|old(order)|] == old(order))
    {
      var req := Resolve(cmd);
      var deviceId, status, level, deviceType := req.deviceId, req.status, req.level, req.deviceType;
      ghost var t0 := Table();
      ghost var creates := req.createsMissing && Truthy(req.deviceId) && req.deviceId.value !in t0;
      ghost var t1 := if creates then t0[req.deviceId.value := CreatedRecord(req.deviceId.value, req)] else t0;
      if cmd.metadata.Some? && Truthy(deviceId) && deviceId.value !in devices {
        UuidSearchIsDead(t0, deviceId.value);
        CreateMissing(deviceId.value, deviceType, status);
      }
      assert Table() == t1 && Valid();
      applied := WriteRequest(deviceId, status, level, deviceType);
      assert Reconcile(t0, cmd) == if !Truthy(req.deviceId) || req.deviceId.value !in t1 then (t0, false)
        else (t1[req.deviceId.value := Applied(t1[req.deviceId.value], req)], true);
    }

    /** The tail of `updateDevice`: write the requested fields on the device filed under the id, if any. */
    method WriteRequest(deviceId: Option<string>, status: Option<Status>, level: Option<real>, deviceType: Option<string>) returns (applied: bool)
      requires Valid()
      modifies devices.Values
      ensures Valid() && order == old(order) && devices == old(devices)
      ensures applied <==> Truthy(deviceId) && deviceId.value in devices
      ensures Table() == if applied
        then old(Table())[deviceId.value := Applied(old(Table())[deviceId.value], Request(deviceId, status, level, deviceType, false))]
        else old(Table())
    {
      if !Truthy(deviceId) {
        return false;
      }
      if deviceId.value !in devices {
        return false;
      }
      var device := devices[deviceId.value];
      Write(device, status, level, deviceType);
      assert forall k :: k in devices && k != deviceId.value ==> devices[k] != device;
      return true;
    }

    /**
     * The backend branch for an id not in the table: look the id up as a
     * UUID among the devices, and when none carries it create the device.
     */
    method CreateMissing(id: string, deviceType: Option<string>, status: Option<Status>)
      requires Valid() && id !in devices
      modifies this
      ensures Valid()
      ensures Table() == old(Table())[id := DeviceRecord(id, OrString(deviceType, "UNKNOWN"), status.GetOr(Off), Some(0.0))]
      ensures forall k :: k in old(devices) ==> k in devices && devices[k] == old(devices[k])
      ensures forall k :: k in devices && k !in old(devices) ==> k == id && fresh(devices[k])
      ensures order == old(order) || order == old(order) + [id]
    {
      var existing := FindByUuid(id);
      if existing.None? {
        var created := new Device(id, OrString(deviceType, "UNKNOWN"), status.GetOr(Off), Some(0.0));
        Put(id, created);
      }
    }

    /** The field writes of `updateDevice` on the found device. */
    static method Write(device: Device, status: Option<Status>, level: Option<real>, deviceType: Option<string>)
      modifies device
      ensures device.Value() == Applied(old(device.Value()), Request(None, status, level, deviceType, false))
    {
      if status.Some? {
        device.status := status.value;
      }
      if level.Some? {
        device.level := level;
      }
      if Truthy(deviceType) {
        device.deviceType := deviceType.value;
      }
    }

    /** `getAllDevices()`: the device objects themselves, in insertion order, each once. */
    function AllDevices(): (r: seq<Device>)
      requires Valid()
      reads this
      ensures |r| == |order| == |devices|
      ensures forall i :: 0 <= i < |r| ==> r[i] == devices[order[i]]
      ensures forall k :: k in devices ==> devices[k] in r
      ensures Distinct(r)
    {
      KeysCount();
      var r := seq(|order|, i requires 0 <= i < |order| && order[i] in devices reads this => devices[order[i]]);
      assert forall i :: 0 <= i < |order| ==> r[i] == devices[order[i]] && r[i].deviceUuid == order[i];
      assert forall k :: k in devices ==> exists i :: 0 <= i < |order| && order[i] == k;
      r
    }

    /** The insertion order lists exactly the keys, once each. */
    lemma KeysCount()
      requires Valid()
      ensures |order| == |devices|
    {
      var keys := set i | 0 <= i < |order| :: order[i];
      assert keys == devices.Keys;
      DistinctCount(order);
    }

    /** `getDevice(id)`. */
    function GetDevice(deviceId: string): (r: Option<Device>)
      reads this
      ensures r.Some? <==> deviceId in devices
      ensures r.Some? ==> r.value == devices[deviceId]
    {
      if deviceId in devices then Some(devices[deviceId]) else None
    }

    /**
     * `getDevicesByType(type)`: exactly the devices of that type, each once,
     * in insertion order.
     */
    function GetDevicesByType(deviceType: string): (r: seq<Device>)
      requires Valid()
      reads this, devices.Values
      ensures forall i :: 0 <= i < |r| ==> r[i] in devices.Values && r[i].deviceType == deviceType
      ensures forall k :: k in devices && devices[k].deviceType == deviceType ==> devices[k] in r
      ensures Distinct(r)
      ensures exists idx :: Picks(r, AllDevices(), idx)
    {
      var all := AllDevices();
      OfTypeInOrder(all, deviceType);
      OfType(all, deviceType)
    }
  }

  /** `order` lists the keys of `devices` once each, and every device is filed under its UUID. */
  predicate Indexed(order: seq<string>, devices: map<string, Device>) {
    (forall k :: k in devices ==> devices[k].deviceUuid == k) &&
    (forall i :: 0 <= i < |order| ==> order[i] in devices) &&
    (forall k :: k in devices ==> k in order) &&
    (forall i, j :: 0 <= i < j < |order| ==> order[i] != order[j])
  }

  /** The records of the devices filed under each key. */
  function TableOf(devices: map<string, Device>): (t: Table)
    reads devices.Values
    ensures t.Keys == devices.Keys
    ensures forall k :: k in devices ==> t[k] == devices[k].Value()
  {
    map k | k in devices :: devices[k].Value()
  }

  /** Filing a device changes the table at its key only. */
  lemma TableOfPut(devices: map<string, Device>, id: string, device: Device)
    ensures TableOf(devices[id := device]) == TableOf(devices)[id := device.Value()]
  {
  }

  /** Filing a device under its UUID keeps the index, a new key going last. */
  lemma PutKeepsIndexed(order: seq<string>, devices: map<string, Device>, id: string, device: Device)
    requires Indexed(order, devices) && device.deviceUuid == id
    ensures Indexed(if id in devices then order else order + [id], devices[id := device])
  {
  }

  /** A list with no repeats has as many elements as its set. */
  lemma {:induction false} DistinctCount(s: seq<string>)
    requires forall i, j :: 0 <= i < j < |s| ==> s[i] != s[j]
    ensures |set i | 0 <= i < |s| :: s[i]| == |s|
  {
    if |s| > 0 {
      var s' := s[..|s| - 1];
      DistinctCount(s');
      var a := set i | 0 <= i < |s'| :: s'[i];
      var b := set i | 0 <= i < |s| :: s[i];
      assert b == a + {s[|s| - 1]};
      assert s[|s| - 1] !in a;
    }
  }

  /** `ds.filter(d => d.type === deviceType)`, keeping the order. */
  function OfType(ds: seq<Device>, deviceType: string): (r: seq<Device>)
    reads ds
    ensures forall i :: 0 <= i < |r| ==> r[i] in ds && r[i].deviceType == deviceType
    ensures forall i :: 0 <= i < |ds| && ds[i].deviceType == deviceType ==> ds[i] in r
    ensures |r| <= |ds|
    ensures Distinct(ds) ==> Distinct(r)
  {
    if |ds| == 0 then []
    else
      var rest := OfType(ds[1..], deviceType);
      assert Distinct(ds) ==> Distinct(ds[1..]) && ds[0] !in ds[1..];
      if ds[0].deviceType == deviceType then [ds[0]] + rest else rest
  }

  /** Filtering a concatenation filters each part. */
  lemma {:induction false} OfTypeConcat(a: seq<Device>, b: seq<Device>, deviceType: string)
    ensures OfType(a + b, deviceType) == OfType(a, deviceType) + OfType(b, deviceType)
  {
    if |a| == 0 {
      assert a + b == b;
    } else {
      assert (a + b)[1..] == a[1..] + b;
      OfTypeConcat(a[1..], b, deviceType);
    }
  }

  /** Filtering one device keeps it exactly when it has the type. */
  lemma OfTypeSingle(d: Device, deviceType: string)
    ensures OfType([d], deviceType) == if d.deviceType == deviceType then [d] else []
  {
    assert [d][1..] == [];
  }

  /** `r` is `ds` at the strictly increasing positions `idx`. */
  predicate Picks<T(==)>(r: seq<T>, ds: seq<T>, idx: seq<nat>) {
    |idx| == |r| &&
    (forall i :: 0 <= i < |idx| ==> idx[i] < |ds| && r[i] == ds[idx[i]]) &&
    (forall i, j :: 0 <= i < j < |idx| ==> idx[i] < idx[j])
  }

  /** The filter keeps the devices it selects in their order in the list. */
  lemma {:induction false} OfTypeInOrder(ds: seq<Device>, deviceType: string)
    ensures exists idx :: Picks(OfType(ds, deviceType), ds, idx)
  {
    if |ds| == 0 {
      assert Picks(OfType(ds, deviceType), ds, []);
    } else {
      OfTypeInOrder(ds[1..], deviceType);
      var rest := OfType(ds[1..], deviceType);
      var idx' :| Picks(rest, ds[1..], idx');
      PicksShifted(rest, ds, idx');
      var shifted := Shifted(idx');
      if ds[0].deviceType == deviceType {
        PicksHead(rest, ds, shifted);
        assert Picks(OfType(ds, deviceType), ds, [0] + shifted);
      } else {
        assert Picks(OfType(ds, deviceType), ds, shifted);
      }
    }
  }

  /** Every position one further on. */
  function Shifted(idx: seq<nat>): (r: seq<nat>)
    ensures |r| == |idx| && forall i :: 0 <= i < |idx| ==> r[i] == idx[i] + 1
  {
    seq(|idx|, i requires 0 <= i < |idx| => idx[i] + 1)
  }

  /** Positions picked from the tail of a list are positions one further on in the list. */
  lemma PicksShifted<T>(r: seq<T>, ds: seq<T>, idx: seq<nat>)
    requires |ds| > 0 && Picks(r, ds[1..], idx)
    ensures Picks(r, ds, Shifted(idx)) && forall i :: 0 <= i < |idx| ==> Shifted(idx)[i] > 0
  {
  }

  /** Picking the head before positions past it keeps them increasing. */
  lemma PicksHead<T>(r: seq<T>, ds: seq<T>, idx: seq<nat>)
    requires |ds| > 0 && Picks(r, ds, idx) && forall i :: 0 <= i < |idx| ==> idx[i] > 0
    ensures Picks([ds[0]] + r, ds, [0] + idx)
  {
  }
}
