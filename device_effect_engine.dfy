/**
 * The device effect engine: every ON device adds its catalog effects,
 * scaled by its level, to the environment (src/engines/DeviceEffectEngine.ts).
 * The device catalog, read from one JSON file per normalised type name in
 * the original, is a map from that name to the model.
 */
module DeviceEffectEngine {
  import opened Wrappers
  import opened Text
  import opened Domain

  /** A model's `effects`: a per-unit delta for some keys of the environment. */
  datatype Effects = Effects(
    temperature: Option<real>,
    humidity: Option<real>,
    soilMoisture: Option<real>,
    lightLux: Option<real>,
    oxygenPPM: Option<real>,
    pH: Option<real>)
  {
    function Get(f: Field): Option<real> {
      match f
      case Temperature => temperature
      case Humidity => humidity
      case SoilMoisture => soilMoisture
      case LightLux => lightLux
      case OxygenPPM => oxygenPPM
      case PH => pH
    }
  }

  /** A device catalog entry. */
  datatype DeviceModel = DeviceModel(deviceType: string, effects: Effects)

  /** The catalog, keyed by file name (without `.json`). */
  type Catalog = map<string, DeviceModel>

  /** The file name a device type is looked up under: lower-cased, first `_` removed. */
  function NormalizeType(t: string): (r: string)
    ensures '_' !in t ==> r == ToLower(t)
    ensures '_' in t ==> |r| == |t| - 1
    ensures '_' in t ==>
      exists i :: 0 <= i < |t| && t[i] == '_' && '_' !in t[..i] && r == ToLower(t)[..i] + ToLower(t)[i + 1..]
  {
    ToLowerUnderscore(t);
    var r := RemoveFirst(ToLower(t), '_');
    assert '_' in t ==> exists i :: 0 <= i < |t| && t[i] == '_' && '_' !in t[..i] && r == ToLower(t)[..i] + ToLower(t)[i + 1..] by {
      if '_' in t {
        var i :| 0 <= i < |t| && ToLower(t)[i] == '_' && '_' !in ToLower(t)[..i] && r == ToLower(t)[..i] + ToLower(t)[i + 1..];
        assert forall j :: 0 <= j < i ==> t[..i][j] != '_' by {
          forall j | 0 <= j < i ensures t[..i][j] != '_' {
            assert ToLower(t)[..i][j] == ToLower(t)[j];
          }
        }
      }
    }
    r
  }

  /** `loadDeviceModel(type)`: the catalog entry under the normalised type, `None` when there is no such file. */
  function LoadModel(catalog: Catalog, t: string): (r: Option<DeviceModel>)
    ensures r.Some? <==> NormalizeType(t) in catalog
    ensures r.Some? ==> r.value == catalog[NormalizeType(t)]
  {
    if NormalizeType(t) in catalog then Some(catalog[NormalizeType(t)]) else None
  }

  /** The lookup ignores the case of the type name. */
  lemma LoadModelIgnoresCase(catalog: Catalog, t: string)
    ensures LoadModel(catalog, ToLower(t)) == LoadModel(catalog, t)
  {
    ToLowerIdempotent(t);
  }

  /** `device.level ?? 1`. */
  function Scale(level: Option<real>): real {
    level.GetOr(1.0)
  }

  /** The keys `apply` walks, in the order the deltas are added. */
  const Fields: seq<Field> := [Temperature, Humidity, SoilMoisture, LightLux, OxygenPPM, PH]

  /** The position of a key in `Fields`. */
  function FieldIndex(f: Field): (i: nat)
    ensures i < |Fields| && Fields[i] == f
  {
    match f
    case Temperature => 0
    case Humidity => 1
    case SoilMoisture => 2
    case LightLux => 3
    case OxygenPPM => 4
    case PH => 5
  }

  /** The deltas of a model at intensity `k`: `effect * k` for each named key, 0 for the others. */
  function Delta(effects: Effects, k: real): (c: EnvValues)
    ensures forall f :: c.Get(f) == match effects.Get(f) case Some(x) => x * k case None => 0.0
  {
    EnvValues(effects.temperature.GetOr(0.0) * k, effects.humidity.GetOr(0.0) * k,
              effects.soilMoisture.GetOr(0.0) * k, effects.lightLux.GetOr(0.0) * k,
              effects.oxygenPPM.GetOr(0.0) * k, effects.pH.GetOr(0.0) * k)
  }

  /** What one device adds to the environment. */
  function Contribution(d: DeviceRecord, catalog: Catalog): (c: EnvValues)
    ensures d.status != On ==> c == Zero
    ensures LoadModel(catalog, d.deviceType).None? ==> c == Zero
    ensures d.status == On && LoadModel(catalog, d.deviceType).Some? ==>
      c == Delta(LoadModel(catalog, d.deviceType).value.effects, Scale(d.level))
  {
    match LoadModel(catalog, d.deviceType)
    case None => Zero
    case Some(m) => if d.status != On then Zero else Delta(m.effects, Scale(d.level))
  }

  /** The sum of the contributions of a device list. */
  function TotalEffect(ds: seq<DeviceRecord>, catalog: Catalog): (r: EnvValues)
    ensures (forall i :: 0 <= i < |ds| ==> ds[i].status != On) ==> r == Zero
  {
    if |ds| == 0 then Zero
    else TotalEffect(ds[..|ds| - 1], catalog).Plus(Contribution(ds[|ds| - 1], catalog))
  }

  /** The inner loop of `apply`: `env[key] += effect * k` for every key the model names. */
  method AddEffects(env: EnvironmentState, effects: Effects, k: real)
    modifies env
    ensures env.Values() == old(env.Values()).Plus(Delta(effects, k))
  {
    ghost var before := env.Values();
    ghost var c := Delta(effects, k);
    for j := 0 to |Fields|
      invariant forall f :: env.Values().Get(f) == before.Get(f) + (if FieldIndex(f) < j then c.Get(f) else 0.0)
    {
      var key := Fields[j];
      assert FieldIndex(key) == j;
      var effect := effects.Get(key);
      ghost var mid := env.Values();
      if effect.Some? {
        assert c.Get(key) == effect.value * k;
        env.AddTo(key, effect.value * k);
      } else {
        assert c.Get(key) == 0.0;
      }
      assert forall f :: f != key ==> env.Values().Get(f) == mid.Get(f);
      assert env.Values().Get(key) == mid.Get(key) + c.Get(key);
    }
    PlusGet(before, c);
    EnvExt(env.Values(), before.Plus(c));
  }

  /**
   * `apply(devices, env)`: the environment gains the total contribution of
   * the devices; the devices are only read.
   */
  method Apply(devices: seq<Device>, env: EnvironmentState, catalog: Catalog)
    modifies env
    ensures env.Values() == old(env.Values()).Plus(TotalEffect(Records(devices), catalog))
    ensures Records(devices) == old(Records(devices))
  {
    ghost var start := env.Values();
    ghost var ds := Records(devices);
    for i := 0 to |devices|
      invariant Records(devices) == ds
      invariant env.Values() == start.Plus(TotalEffect(ds[..i], catalog))
    {
      var device := devices[i];
      assert ds[..i + 1][..i] == ds[..i];
      ghost var before := env.Values();
      PlusAssoc(start, TotalEffect(ds[..i], catalog), Contribution(ds[i], catalog));
      if device.status != On {
        PlusZero(before);
        continue;
      }
      var model := LoadModel(catalog, device.deviceType);
      if model.None? {
        PlusZero(before);
        continue;
      }
      AddEffects(env, model.value.effects, Scale(device.level));
    }
    assert ds[..|devices|] == ds;
  }

  /** The total over a concatenation is the sum of the totals. */
  lemma {:induction false} TotalEffectConcat(a: seq<DeviceRecord>, b: seq<DeviceRecord>, catalog: Catalog)
    ensures TotalEffect(a + b, catalog) == TotalEffect(a, catalog).Plus(TotalEffect(b, catalog))
  {
    if |b| == 0 {
      assert a + b == a;
      PlusZero(TotalEffect(a, catalog));
    } else {
      var b' := b[..|b| - 1];
      assert (a + b)[..|a + b| - 1] == a + b';
      assert (a + b)[|a + b| - 1] == b[|b| - 1];
      TotalEffectConcat(a, b', catalog);
      PlusAssoc(TotalEffect(a, catalog), TotalEffect(b', catalog), Contribution(b[|b| - 1], catalog));
    }
  }

  /** The total effect does not depend on the order of the device list. */
  lemma {:induction false} TotalEffectPermutation(a: seq<DeviceRecord>, b: seq<DeviceRecord>, catalog: Catalog)
    requires multiset(a) == multiset(b)
    ensures TotalEffect(a, catalog) == TotalEffect(b, catalog)
    decreases |a|
  {
    if |a| == 0 {
      assert |b| == |multiset(b)| == 0;
    } else {
      var x := a[|a| - 1];
      var a' := a[..|a| - 1];
      assert a == a' + [x];
      assert x in multiset(b);
      var k :| 0 <= k < |b| && b[k] == x;
      var b' := b[..k] + b[k + 1..];
      RemoveAt(b, k, catalog);
      assert multiset(a') == multiset(a) - multiset([x]);
      TotalEffectPermutation(a', b', catalog);
    }
  }

  /** Taking out the device at `k`: its copy leaves the multiset ... */
  lemma RemoveAt(b: seq<DeviceRecord>, k: nat, catalog: Catalog)
    requires k < |b|
    ensures multiset(b[..k] + b[k + 1..]) == multiset(b) - multiset([b[k]])
    ensures TotalEffect(b, catalog) == TotalEffect(b[..k] + b[k + 1..], catalog).Plus(Contribution(b[k], catalog))
  {
    var x := b[k];
    assert b == b[..k] + [x] + b[k + 1..];
    assert multiset(b) == multiset(b[..k]) + multiset([x]) + multiset(b[k + 1..]);
    RemoveAtTotal(b[..k], x, b[k + 1..], catalog);
  }

  /** ... and its contribution leaves the total. */
  lemma RemoveAtTotal(p: seq<DeviceRecord>, x: DeviceRecord, q: seq<DeviceRecord>, catalog: Catalog)
    ensures TotalEffect(p + [x] + q, catalog) == TotalEffect(p + q, catalog).Plus(Contribution(x, catalog))
  {
    var P, C, Q := TotalEffect(p, catalog), Contribution(x, catalog), TotalEffect(q, catalog);
    SingleTotal(x, catalog);
    calc {
      TotalEffect(p + [x] + q, catalog);
      { TotalEffectConcat(p + [x], q, catalog); }
      TotalEffect(p + [x], catalog).Plus(Q);
      { TotalEffectConcat(p, [x], catalog); }
      P.Plus(C).Plus(Q);
      { PlusAssoc(P, C, Q); PlusComm(C, Q); }
      P.Plus(Q.Plus(C));
      { PlusAssoc(P, Q, C); }
      P.Plus(Q).Plus(C);
      { TotalEffectConcat(p, q, catalog); }
      TotalEffect(p + q, catalog).Plus(C);
    }
  }

  lemma SingleTotal(x: DeviceRecord, catalog: Catalog)
    ensures TotalEffect([x], catalog) == Contribution(x, catalog)
  {
    assert [x][..0] == [];
    PlusComm(Zero, Contribution(x, catalog));
    PlusZero(Contribution(x, catalog));
  }

  /**
   * A device that is not ON, or whose type has no catalog entry, can be
   * dropped from anywhere in the list without changing the total.
   */
  lemma InertDeviceDroppable(a: seq<DeviceRecord>, d: DeviceRecord, b: seq<DeviceRecord>, catalog: Catalog)
    requires d.status != On || LoadModel(catalog, d.deviceType).None?
    ensures TotalEffect(a + [d] + b, catalog) == TotalEffect(a + b, catalog)
  {
    TotalEffectConcat(a + [d], b, catalog);
    TotalEffectConcat(a, b, catalog);
    assert (a + [d])[..|a|] == a;
    PlusZero(TotalEffect(a, catalog));
  }

  /** An undefined level scales the effects by 1; level 0 makes the device inert. */
  lemma LevelScaling(d: DeviceRecord, catalog: Catalog)
    requires d.status == On && LoadModel(catalog, d.deviceType).Some?
    ensures d.level.None? ==> Contribution(d, catalog) == Delta(LoadModel(catalog, d.deviceType).value.effects, 1.0)
    ensures d.level == Some(0.0) ==> Contribution(d, catalog) == Zero
  {
  }

  /** A key that no ON, catalogued device's model names keeps its value. */
  lemma {:induction false} UnnamedKeyUnchanged(ds: seq<DeviceRecord>, catalog: Catalog, f: Field)
    requires forall i :: 0 <= i < |ds| && ds[i].status == On && LoadModel(catalog, ds[i].deviceType).Some? ==>
      LoadModel(catalog, ds[i].deviceType).value.effects.Get(f).None?
    ensures TotalEffect(ds, catalog).Get(f) == 0.0
  {
    if |ds| > 0 {
      UnnamedKeyUnchanged(ds[..|ds| - 1], catalog, f);
    }
  }

  /** Type names are matched lower-cased, with only the first underscore removed. */
  lemma NormalizeTypeExample()
    ensures NormalizeType("GROW_LIGHT_2") == "growlight_2"
  {
    var lower := ToLower("GROW_LIGHT_2");
    assert lower == "grow_light_2";
    IndexOfFirst(lower, '_', 4);
    Splice();
  }

  lemma Splice()
    ensures "grow_light_2"[..4] + "grow_light_2"[5..] == "growlight_2"
  {
  }
}
