/**
 * The device table of the legacy simulator: one record per configured
 * device, switched off at start-up, and the fixed per-type effects that
 * the switched-on devices add to a farm area's environment each tick.
 * The module-level table object is a `DeviceTable` instance here.
 */
module LegacyDevices {
  import opened Domain
  import opened FarmEnvironment

  /** An entry of the configured device list. */
  datatype ListedDevice = ListedDevice(id: string, deviceType: string)

  /** A device record of the table. */
  datatype LegacyDevice = LegacyDevice(id: string, deviceType: string, on: bool)

  /** The configured device list. */
  const DevicesList: seq<ListedDevice> := [
    ListedDevice("waterPump-1", "WATER_PUMP"),
    ListedDevice("humidifier-1", "HUMIDIFIER"),
    ListedDevice("fan-1", "FAN"),
    ListedDevice("heater-1", "HEATER"),
    ListedDevice("growLight-1", "GROW_LIGHT")]

  /** `{...d, on: false}`. */
  function Switched(d: ListedDevice): LegacyDevice {
    LegacyDevice(d.id, d.deviceType, false)
  }

  /**
   * The table after `devices[d.id] = {...d, on: false}` for each entry in
   * turn: every listed id is present, filed under itself and switched off.
   */
  function Initialized(list: seq<ListedDevice>): (r: map<string, LegacyDevice>)
    ensures forall i :: 0 <= i < |list| ==> list[i].id in r
    ensures forall k :: k in r ==> r[k].id == k && !r[k].on
  {
    if |list| == 0 then map[]
    else Initialized(list[..|list| - 1])[list[|list| - 1].id := Switched(list[|list| - 1])]
  }

  /** Every key listed once in the order, and every record filed under its own id. */
  ghost predicate Indexed(entries: map<string, LegacyDevice>, order: seq<string>) {
    Distinct(order) &&
    (forall k :: k in entries <==> k in order) &&
    (forall k :: k in entries ==> entries[k].id == k)
  }

  /**
   * The key order of that table: a key is placed when first written, so
   * each key of the table appears exactly once.
   */
  function InitialOrder(list: seq<ListedDevice>): (r: seq<string>)
    ensures Indexed(Initialized(list), r)
    ensures |r| <= |list|
  {
    if |list| == 0 then []
    else
      var init := list[..|list| - 1];
      var o := InitialOrder(init);
      var id := list[|list| - 1].id;
      if id in Initialized(init) then o
      else
        assert forall j :: 0 <= j < |o| ==> (o + [id])[j] == o[j];
        assert forall j :: 0 <= j < |o| ==> o[j] in Initialized(init);
        o + [id]
  }

  /** The start-up table holds exactly the listed ids. */
  lemma {:induction false} InitializedKeys(list: seq<ListedDevice>, k: string)
    ensures k in Initialized(list) <==> exists i :: 0 <= i < |list| && list[i].id == k
  {
    if |list| > 0 {
      var init := list[..|list| - 1];
      InitializedKeys(init, k);
      assert (exists i :: 0 <= i < |list| && list[i].id == k) <==>
        list[|list| - 1].id == k || exists i :: 0 <= i < |init| && init[i].id == k;
    }
  }

  /** A later entry with the same id overwrites an earlier one. */
  lemma {:induction false} InitializedLastWins(list: seq<ListedDevice>, i: nat)
    requires i < |list| && forall j :: i < j < |list| ==> list[j].id != list[i].id
    ensures list[i].id in Initialized(list) && Initialized(list)[list[i].id] == Switched(list[i])
  {
    if i < |list| - 1 {
      InitializedLastWins(list[..|list| - 1], i);
    }
  }

  /** The environment change of one device in `applyDeviceEffects`. */
  function DeviceDelta(d: LegacyDevice): (r: FarmEnv)
    ensures !d.on ==> r == NoChange
    ensures r.oxygenPPM == 0.0
  {
    if !d.on then NoChange
    else if d.deviceType == "WATER_PUMP" then NoChange.(soilMoisture := 2.5)
    else if d.deviceType == "HUMIDIFIER" then NoChange.(humidity := 3.0)
    else if d.deviceType == "FAN" then NoChange.(temperature := -1.5, humidity := -4.0)
    else if d.deviceType == "HEATER" then NoChange.(temperature := 2.0)
    else if d.deviceType == "GROW_LIGHT" then NoChange.(lightLux := 5000.0)
    else NoChange
  }

  /** The device types the switch knows. */
  const KnownTypes: set<string> := {"WATER_PUMP", "HUMIDIFIER", "FAN", "HEATER", "GROW_LIGHT"}

  /** The sum of the changes of a list of devices, taken in list order; oxygen never changes. */
  function TotalDelta(ds: seq<LegacyDevice>): (r: FarmEnv)
    ensures r.oxygenPPM == 0.0
  {
    if |ds| == 0 then NoChange
    else TotalDelta(ds[..|ds| - 1]).Plus(DeviceDelta(ds[|ds| - 1]))
  }

  /** The table's records in key order (`Object.values(devices)`). */
  function InOrder(entries: map<string, LegacyDevice>, order: seq<string>): (ds: seq<LegacyDevice>)
    ensures |ds| <= |order|
    ensures forall d :: d in ds ==> d in entries.Values
  {
    if |order| == 0 then []
    else (if order[0] in entries then [entries[order[0]]] else []) + InOrder(entries, order[1..])
  }

  /**
   * Over a key order that lists keys of the table once each, iteration
   * yields exactly the record of every key, in that order.
   */
  lemma {:induction false} InOrderComplete(entries: map<string, LegacyDevice>, order: seq<string>)
    requires (forall k :: k in order ==> k in entries) && Distinct(order)
    ensures |InOrder(entries, order)| == |order|
    ensures forall i :: 0 <= i < |order| ==> InOrder(entries, order)[i] == entries[order[i]]
  {
    if |order| > 0 {
      InOrderComplete(entries, order[1..]);
    }
  }

  /** Every record of the start-up table is yielded by its iteration. */
  lemma StartupYieldsEveryDevice(list: seq<ListedDevice>, k: string)
    requires k in Initialized(list)
    ensures Initialized(list)[k] in InOrder(Initialized(list), InitialOrder(list))
  {
    var order := InitialOrder(list);
    InOrderComplete(Initialized(list), order);
    var i :| 0 <= i < |order| && order[i] == k;
    assert InOrder(Initialized(list), order)[i] == Initialized(list)[k];
  }

  /** Iteration over a concatenation of key orders concatenates the records. */
  lemma {:induction false} InOrderConcat(entries: map<string, LegacyDevice>, a: seq<string>, b: seq<string>)
    ensures InOrder(entries, a + b) == InOrder(entries, a) + InOrder(entries, b)
  {
    if |a| == 0 {
      assert a + b == b;
    } else {
      assert (a + b)[0] == a[0];
      assert (a + b)[1..] == a[1..] + b;
      InOrderConcat(entries, a[1..], b);
    }
  }

  /** Iteration over two orders that are permutations of each other yields the same records. */
  lemma {:induction false} InOrderPermutation(entries: map<string, LegacyDevice>, o1: seq<string>, o2: seq<string>)
    requires multiset(o1) == multiset(o2)
    ensures multiset(InOrder(entries, o1)) == multiset(InOrder(entries, o2))
    decreases |o1|
  {
    if |o1| == 0 {
      assert |o2| == |multiset(o2)| == 0;
    } else {
      var x := o1[0];
      assert x in multiset(o2);
      var k :| 0 <= k < |o2| && o2[k] == x;
      var rest := o2[..k] + o2[k + 1..];
      SplitAt(o2, k);
      assert o1 == [x] + o1[1..];
      assert multiset(o1[1..]) == multiset(o1) - multiset([x]);
      InOrderPermutation(entries, o1[1..], rest);
      InOrderTakeOut(entries, o2, k);
      InOrderConcat(entries, [x], o1[1..]);
    }
  }

  /** A list without repeats holds each of its elements once. */
  lemma {:induction false} DistinctMultiplicity(o: seq<string>, key: string)
    requires Distinct(o)
    ensures multiset(o)[key] == if key in o then 1 else 0
  {
    if |o| > 0 {
      assert o == [o[0]] + o[1..];
      assert o[0] !in o[1..] by {
        forall i | 0 <= i < |o[1..]|
          ensures o[1..][i] != o[0]
        {
          assert o[1..][i] == o[i + 1];
        }
      }
      DistinctMultiplicity(o[1..], key);
    }
  }

  /** Taking the key at `k` out of an order takes its record out of the iteration. */
  lemma InOrderTakeOut(entries: map<string, LegacyDevice>, o: seq<string>, k: nat)
    requires k < |o|
    ensures multiset(InOrder(entries, o)) ==
      multiset(InOrder(entries, o[..k] + o[k + 1..])) + multiset(InOrder(entries, [o[k]]))
  {
    SplitAt(o, k);
    InOrderConcat(entries, o[..k] + [o[k]], o[k + 1..]);
    InOrderConcat(entries, o[..k], [o[k]]);
    InOrderConcat(entries, o[..k], o[k + 1..]);
  }

  /**
   * Any two orders that list the table's keys once each give the same total
   * change; so JavaScript's key order and insertion order agree on it.
   */
  lemma KeyOrderIrrelevant(entries: map<string, LegacyDevice>, o1: seq<string>, o2: seq<string>)
    requires Distinct(o1) && Distinct(o2)
    requires forall k :: k in o1 <==> k in o2
    ensures TotalDelta(InOrder(entries, o1)) == TotalDelta(InOrder(entries, o2))
  {
    forall key
      ensures multiset(o1)[key] == multiset(o2)[key]
    {
      DistinctMultiplicity(o1, key);
      DistinctMultiplicity(o2, key);
    }
    assert multiset(o1) == multiset(o2);
    InOrderPermutation(entries, o1, o2);
    TotalDeltaPermutation(InOrder(entries, o1), InOrder(entries, o2));
  }

  /** The module-level device table. */
  class DeviceTable {
    var entries: map<string, LegacyDevice>
    var order: seq<string>

    /** `DEVICES_LIST.forEach(d => devices[d.id] = {...d, on: false})`. */
    constructor (list: seq<ListedDevice>)
      ensures entries == Initialized(list) && order == InitialOrder(list)
    {
      entries, order := map[], [];
      new;
      for i := 0 to |list|
        invariant entries == Initialized(list[..i]) && order == InitialOrder(list[..i])
      {
        var d := list[i];
        assert list[..i + 1][..i] == list[..i];
        if d.id !in entries {
          order := order + [d.id];
        }
        entries := entries[d.id := LegacyDevice(d.id, d.deviceType, false)];
      }
      assert list[..|list|] == list;
    }

    function Values(): seq<LegacyDevice>
      reads this
    {
      InOrder(entries, order)
    }
  }

  /**
   * `applyDeviceEffects(area)`: each switched-on device adds its change to
   * the area's environment; the table is only read.
   */
  method ApplyDeviceEffects(table: DeviceTable, area: FarmArea)
    modifies area.env
    ensures area.env.Values() == old(area.env.Values()).Plus(TotalDelta(table.Values()))
    ensures unchanged(table)
  {
    var ds := table.Values();
    ghost var start := area.env.Values();
    for i := 0 to |ds|
      invariant area.env.Values() == start.Plus(TotalDelta(ds[..i]))
    {
      assert ds[..i + 1][..i] == ds[..i];
      PlusAssociative(start, TotalDelta(ds[..i]), DeviceDelta(ds[i]));
      ApplyDevice(ds[i], area.env);
    }
    assert ds[..|ds|] == ds;
  }

  /** The body of the `forEach`: one device's `switch` on its type. */
  method ApplyDevice(device: LegacyDevice, env: FarmEnvState)
    modifies env
    ensures env.Values() == old(env.Values()).Plus(DeviceDelta(device))
  {
    if !device.on {
      return;
    }
    if device.deviceType == "WATER_PUMP" {
      env.soilMoisture := env.soilMoisture + 2.5;
    } else if device.deviceType == "HUMIDIFIER" {
      env.humidity := env.humidity + 3.0;
    } else if device.deviceType == "FAN" {
      env.temperature := env.temperature - 1.5;
      env.humidity := env.humidity - 4.0;
    } else if device.deviceType == "HEATER" {
      env.temperature := env.temperature + 2.0;
    } else if device.deviceType == "GROW_LIGHT" {
      env.lightLux := env.lightLux + 5000.0;
    }
  }

  /** A table whose devices are all off changes nothing, as at start-up. */
  lemma {:induction false} AllOffInert(ds: seq<LegacyDevice>)
    requires forall i :: 0 <= i < |ds| ==> !ds[i].on
    ensures TotalDelta(ds) == NoChange
  {
    if |ds| > 0 {
      AllOffInert(ds[..|ds| - 1]);
    }
  }

  /** The start-up table changes nothing. */
  lemma StartupInert(list: seq<ListedDevice>)
    ensures TotalDelta(InOrder(Initialized(list), InitialOrder(list))) == NoChange
  {
    var ds := InOrder(Initialized(list), InitialOrder(list));
    assert Indexed(Initialized(list), InitialOrder(list));
    forall i | 0 <= i < |ds|
      ensures !ds[i].on
    {
      assert ds[i] in ds;
    }
    AllOffInert(ds);
  }

  /** With all five configured devices on, the changes sum to these amounts. */
  lemma AllConfiguredOn()
    ensures TotalDelta(AllOn(DevicesList)) == FarmEnv(0.5, -1.0, 2.5, 5000.0, 0.0)
  {
    var ds := AllOn(DevicesList);
    ConfiguredDeltas();
    assert ds[..1][..0] == [];
    assert TotalDelta(ds[..1]) == FarmEnv(0.0, 0.0, 2.5, 0.0, 0.0);
    assert ds[..2][..1] == ds[..1];
    assert TotalDelta(ds[..2]) == FarmEnv(0.0, 3.0, 2.5, 0.0, 0.0);
    assert ds[..3][..2] == ds[..2];
    assert TotalDelta(ds[..3]) == FarmEnv(-1.5, -1.0, 2.5, 0.0, 0.0);
    assert ds[..4][..3] == ds[..3];
    assert TotalDelta(ds[..4]) == FarmEnv(0.5, -1.0, 2.5, 0.0, 0.0);
    assert ds[..5][..4] == ds[..4] && ds[..5] == ds;
  }

  /** The change of each configured device when switched on. */
  lemma ConfiguredDeltas()
    ensures DeviceDelta(AllOn(DevicesList)[0]) == FarmEnv(0.0, 0.0, 2.5, 0.0, 0.0)
    ensures DeviceDelta(AllOn(DevicesList)[1]) == FarmEnv(0.0, 3.0, 0.0, 0.0, 0.0)
    ensures DeviceDelta(AllOn(DevicesList)[2]) == FarmEnv(-1.5, -4.0, 0.0, 0.0, 0.0)
    ensures DeviceDelta(AllOn(DevicesList)[3]) == FarmEnv(2.0, 0.0, 0.0, 0.0, 0.0)
    ensures DeviceDelta(AllOn(DevicesList)[4]) == FarmEnv(0.0, 0.0, 0.0, 5000.0, 0.0)
  {
    var ds := AllOn(DevicesList);
    assert DeviceDelta(ds[0]) == FarmEnv(0.0, 0.0, 2.5, 0.0, 0.0) by { assert ds[0].deviceType == "WATER_PUMP"; }
    assert DeviceDelta(ds[1]) == FarmEnv(0.0, 3.0, 0.0, 0.0, 0.0) by { assert ds[1].deviceType == "HUMIDIFIER"; }
    assert DeviceDelta(ds[2]) == FarmEnv(-1.5, -4.0, 0.0, 0.0, 0.0) by { assert ds[2].deviceType == "FAN"; }
    assert DeviceDelta(ds[3]) == FarmEnv(2.0, 0.0, 0.0, 0.0, 0.0) by { assert ds[3].deviceType == "HEATER"; }
    assert DeviceDelta(ds[4]) == FarmEnv(0.0, 0.0, 0.0, 5000.0, 0.0) by { assert ds[4].deviceType == "GROW_LIGHT"; }
  }

  /** The listed devices, all switched on. */
  function AllOn(list: seq<ListedDevice>): (ds: seq<LegacyDevice>)
    ensures |ds| == |list|
    ensures forall i :: 0 <= i < |list| ==> ds[i] == LegacyDevice(list[i].id, list[i].deviceType, true)
  {
    seq(|list|, i requires 0 <= i < |list| => LegacyDevice(list[i].id, list[i].deviceType, true))
  }

  /** The total over a concatenation is the sum of the totals. */
  lemma {:induction false} TotalDeltaConcat(a: seq<LegacyDevice>, b: seq<LegacyDevice>)
    ensures TotalDelta(a + b) == TotalDelta(a).Plus(TotalDelta(b))
  {
    if |b| == 0 {
      assert a + b == a;
      PlusNoChange(TotalDelta(a));
    } else {
      var b' := b[..|b| - 1];
      assert (a + b)[..|a + b| - 1] == a + b';
      assert (a + b)[|a + b| - 1] == b[|b| - 1];
      TotalDeltaConcat(a, b');
      PlusAssociative(TotalDelta(a), TotalDelta(b'), DeviceDelta(b[|b| - 1]));
    }
  }

  /** The total change does not depend on the order the table yields its devices in. */
  lemma {:induction false} TotalDeltaPermutation(a: seq<LegacyDevice>, b: seq<LegacyDevice>)
    requires multiset(a) == multiset(b)
    ensures TotalDelta(a) == TotalDelta(b)
    decreases |a|
  {
    if |a| == 0 {
      assert |b| == |multiset(b)| == 0;
    } else {
      var x := a[|a| - 1];
      var a' := a[..|a| - 1];
      assert a == a' + [x];
      assert x in multiset(b);
      var k :| 0 <= k < |b| && b[k] == x;
      var b' := b[..k] + b[k + 1..];
      DeltaRemoveAt(b, k);
      assert multiset(a') == multiset(a) - multiset([x]);
      TotalDeltaPermutation(a', b');
    }
  }

  /** Taking out the device at `k` takes its copy out of the multiset and its change out of the total. */
  lemma DeltaRemoveAt(b: seq<LegacyDevice>, k: nat)
    requires k < |b|
    ensures multiset(b[..k] + b[k + 1..]) == multiset(b) - multiset([b[k]])
    ensures TotalDelta(b) == TotalDelta(b[..k] + b[k + 1..]).Plus(DeviceDelta(b[k]))
  {
    SplitAt(b, k);
    DeltaMoveToEnd(b[..k], b[k], b[k + 1..]);
  }

  /** A list is the part before `k`, the element at `k` and the part after it. */
  lemma SplitAt<T>(b: seq<T>, k: nat)
    requires k < |b|
    ensures b == b[..k] + [b[k]] + b[k + 1..]
    ensures multiset(b[..k] + b[k + 1..]) == multiset(b) - multiset([b[k]])
  {
    assert b == b[..k] + [b[k]] + b[k + 1..];
    assert multiset(b) == multiset(b[..k]) + multiset([b[k]]) + multiset(b[k + 1..]);
  }

  /** A device's change may be added last, wherever it sits in the list. */
  lemma DeltaMoveToEnd(p: seq<LegacyDevice>, x: LegacyDevice, q: seq<LegacyDevice>)
    ensures TotalDelta(p + [x] + q) == TotalDelta(p + q).Plus(DeviceDelta(x))
  {
    var P, C, Q := TotalDelta(p), DeviceDelta(x), TotalDelta(q);
    assert TotalDelta([x]) == C by {
      assert [x][..0] == [];
      PlusNoChange(C);
    }
    calc {
      TotalDelta(p + [x] + q);
      { TotalDeltaConcat(p + [x], q); }
      TotalDelta(p + [x]).Plus(Q);
      { TotalDeltaConcat(p, [x]); }
      P.Plus(C).Plus(Q);
      { PlusAssociative(P, C, Q); PlusCommutative(C, Q); }
      P.Plus(Q.Plus(C));
      { PlusAssociative(P, Q, C); }
      P.Plus(Q).Plus(C);
      { TotalDeltaConcat(p, q); }
      TotalDelta(p + q).Plus(C);
    }
  }

  /** A device that is off, or of a type the switch does not know, can be dropped without effect. */
  lemma InertDeviceDroppable(a: seq<LegacyDevice>, d: LegacyDevice, b: seq<LegacyDevice>)
    requires !d.on || d.deviceType !in KnownTypes
    ensures TotalDelta(a + [d] + b) == TotalDelta(a + b)
  {
    assert DeviceDelta(d) == NoChange;
    DeltaMoveToEnd(a, d, b);
    PlusNoChange(TotalDelta(a + b));
  }
}
