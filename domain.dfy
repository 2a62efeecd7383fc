/**
 * The simulator's state records: the environment, a device and a crop.
 * Each is a plain record that the engines update field by field, so each
 * is a class here, with `Values()` giving its current contents as a value.
 */
module Domain {
  import opened Wrappers

  /** A draw of `Math.random()`. */
  type Draw = r: real | 0.0 <= r < 1.0

  /** A `[min, max]` pair from a catalog. */
  datatype Range = Range(min: real, max: real)

  /** The keys of an environment record. */
  datatype Field = Temperature | Humidity | SoilMoisture | LightLux | OxygenPPM | PH

  /** The contents of an environment record. */
  datatype EnvValues = EnvValues(
    temperature: real,
    humidity: real,
    soilMoisture: real,
    lightLux: real,
    oxygenPPM: real,
    pH: real)
  {
    /** `env[f]`. */
    function Get(f: Field): real {
      match f
      case Temperature => temperature
      case Humidity => humidity
      case SoilMoisture => soilMoisture
      case LightLux => lightLux
      case OxygenPPM => oxygenPPM
      case PH => pH
    }

    /** The record with `env[f] = v` and every other key kept. */
    function Set(f: Field, v: real): (r: EnvValues)
      ensures r.Get(f) == v
      ensures forall g :: g != f ==> r.Get(g) == Get(g)
    {
      match f
      case Temperature => this.(temperature := v)
      case Humidity => this.(humidity := v)
      case SoilMoisture => this.(soilMoisture := v)
      case LightLux => this.(lightLux := v)
      case OxygenPPM => this.(oxygenPPM := v)
      case PH => this.(pH := v)
    }

    /** Key-wise sum, used for adding a vector of deltas. */
    function Plus(d: EnvValues): EnvValues {
      EnvValues(temperature + d.temperature, humidity + d.humidity,
                soilMoisture + d.soilMoisture, lightLux + d.lightLux,
                oxygenPPM + d.oxygenPPM, pH + d.pH)
    }
  }

  /** The all-zero delta. */
  const Zero := EnvValues(0.0, 0.0, 0.0, 0.0, 0.0, 0.0)

  /** Two records that agree on every key are equal. */
  lemma EnvExt(a: EnvValues, b: EnvValues)
    requires forall f :: a.Get(f) == b.Get(f)
    ensures a == b
  {
    assert a.Get(Temperature) == b.Get(Temperature) && a.Get(Humidity) == b.Get(Humidity);
    assert a.Get(SoilMoisture) == b.Get(SoilMoisture) && a.Get(LightLux) == b.Get(LightLux);
    assert a.Get(OxygenPPM) == b.Get(OxygenPPM) && a.Get(PH) == b.Get(PH);
  }

  lemma PlusGet(a: EnvValues, d: EnvValues)
    ensures forall f :: a.Plus(d).Get(f) == a.Get(f) + d.Get(f)
  {
  }

  lemma PlusZero(a: EnvValues)
    ensures a.Plus(Zero) == a
  {
  }

  lemma PlusAssoc(a: EnvValues, b: EnvValues, c: EnvValues)
    ensures a.Plus(b).Plus(c) == a.Plus(b.Plus(c))
  {
  }

  lemma PlusComm(a: EnvValues, b: EnvValues)
    ensures a.Plus(b) == b.Plus(a)
  {
  }

  /** A `Partial<EnvironmentState>`: each key may be missing. */
  datatype PartialEnv = PartialEnv(
    temperature: Option<real>,
    humidity: Option<real>,
    soilMoisture: Option<real>,
    lightLux: Option<real>,
    oxygenPPM: Option<real>,
    pH: Option<real>)

  /** A complete record seen as a partial one: every key present. */
  function Full(e: EnvValues): (r: PartialEnv)
    ensures r.temperature == Some(e.temperature) && r.humidity == Some(e.humidity)
    ensures r.soilMoisture == Some(e.soilMoisture) && r.lightLux == Some(e.lightLux)
    ensures r.oxygenPPM == Some(e.oxygenPPM) && r.pH == Some(e.pH)
  {
    PartialEnv(Some(e.temperature), Some(e.humidity), Some(e.soilMoisture),
               Some(e.lightLux), Some(e.oxygenPPM), Some(e.pH))
  }

  /** The environment record, updated in place by every engine. */
  class EnvironmentState {
    var temperature: real
    var humidity: real
    var soilMoisture: real
    var lightLux: real
    var oxygenPPM: real
    var pH: real

    constructor (v: EnvValues)
      ensures Values() == v
    {
      temperature, humidity, soilMoisture := v.temperature, v.humidity, v.soilMoisture;
      lightLux, oxygenPPM, pH := v.lightLux, v.oxygenPPM, v.pH;
    }

    function Values(): EnvValues
      reads this
    {
      EnvValues(temperature, humidity, soilMoisture, lightLux, oxygenPPM, pH)
    }

    /** `env[f] += d`. */
    method AddTo(f: Field, d: real)
      modifies this
      ensures Values() == old(Values()).Set(f, old(Values()).Get(f) + d)
    {
      match f
      case Temperature => temperature := temperature + d;
      case Humidity => humidity := humidity + d;
      case SoilMoisture => soilMoisture := soilMoisture + d;
      case LightLux => lightLux := lightLux + d;
      case OxygenPPM => oxygenPPM := oxygenPPM + d;
      case PH => pH := pH + d;
    }
  }

  /** A device's power state. */
  datatype Status = On | Off

  /** The contents of a device record. */
  datatype DeviceRecord = DeviceRecord(deviceUuid: string, deviceType: string, status: Status, level: Option<real>)

  /** A device record (its `type` is `deviceType` here); the device table and the engines share these objects. */
  class Device {
    const deviceUuid: string
    var deviceType: string
    var status: Status
    var level: Option<real>

    constructor (uuid: string, deviceType: string, status: Status, level: Option<real>)
      ensures Value() == DeviceRecord(uuid, deviceType, status, level)
    {
      this.deviceUuid := uuid;
      this.deviceType := deviceType;
      this.status := status;
      this.level := level;
    }

    function Value(): DeviceRecord
      reads this
    {
      DeviceRecord(deviceUuid, deviceType, status, level)
    }
  }

  /** The contents of the devices of a list, read in the current state. */
  function Records(ds: seq<Device>): (r: seq<DeviceRecord>)
    reads ds
    ensures |r| == |ds|
    ensures forall i :: 0 <= i < |ds| ==> r[i] == ds[i].Value()
  {
    seq(|ds|, i reads ds requires 0 <= i < |ds| => ds[i].Value())
  }

  /** No object occurs twice in the list. */
  predicate Distinct<T(==)>(s: seq<T>) {
    forall i, j :: 0 <= i < j < |s| ==> s[i] != s[j]
  }

  /** The contents of a crop record. */
  datatype CropValues = CropValues(cropType: string, growthStage: real, healthScore: real, yieldScore: real)

  /** A crop record, updated in place by the crop growth engine. */
  class CropState {
    const cropType: string
    var growthStage: real
    var healthScore: real
    var yieldScore: real

    constructor (v: CropValues)
      ensures Values() == v
    {
      cropType, growthStage, healthScore, yieldScore := v.cropType, v.growthStage, v.healthScore, v.yieldScore;
    }

    function Values(): CropValues
      reads this
    {
      CropValues(cropType, growthStage, healthScore, yieldScore)
    }
  }

  /** The contents of the crops of a list, read in the current state. */
  function CropRecords(cs: seq<CropState>): (r: seq<CropValues>)
    reads set c | c in cs
    ensures |r| == |cs|
    ensures forall i :: 0 <= i < |cs| ==> r[i] == cs[i].Values()
  {
    seq(|cs|, i reads set c | c in cs requires 0 <= i < |cs| => cs[i].Values())
  }

  /** The credentials of one simulated device on the backend. */
  datatype DeviceContext = DeviceContext(deviceUuid: string, deviceToken: string)

  /**
   * One telemetry message: a variable name, its value and when it was read
   * (`recievedAt`, the wire name). Formatted numbers are kept as the
   * rounded number they print.
   */
  datatype Payload = Payload(variableName: string, value: real, recievedAt: string)
}
