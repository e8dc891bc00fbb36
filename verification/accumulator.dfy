/**
  The reading accumulator: the Python dictionary `sensorData` that the
  notification handler of the Ventus W820 library writes into and that the
  weewx driver later reads, as a record with one slot per key. A slot is
  `None` while its key is absent from the dictionary (reading it raises
  `KeyError`); a present key holds a number or Python's `None`.
 */
module Accumulator {

  /** A dictionary slot: `None` is an absent key, never Python's `None`,
      which is `Value.Null` inside `Some`. */
  datatype Option<T> = None | Some(value: T)

  /** A dictionary value: Python's `None` or a number (ints and floats alike, as exact reals). */
  datatype Value = Null | Num(x: real)

  /** The dictionary keys the decoder writes and the driver reads. */
  datatype Key =
    | IndoorTemperature | OutdoorTemperature
    | IndoorHumidity | OutdoorHumidity
    | DegF | LowBat
    | AirPressure
    | UV
    | RainDaily | RainWeekly | RainMonthly | RainTotal
    | WindSpeed | WindChill | WindDirection

  datatype SensorData = SensorData(
    indoorTemperature: Option<Value>,
    outdoorTemperature: Option<Value>,
    indoorHumidity: Option<Value>,
    outdoorHumidity: Option<Value>,
    degF: Option<Value>,
    lowBat: Option<Value>,
    airPressure: Option<Value>,
    uv: Option<Value>,
    rainDaily: Option<Value>,
    rainWeekly: Option<Value>,
    rainMonthly: Option<Value>,
    rainTotal: Option<Value>,
    windSpeed: Option<Value>,
    windChill: Option<Value>,
    windDirection: Option<Value>)

  /** The empty dictionary `{}` the library starts from. */
  const Empty: SensorData :=
    SensorData(None, None, None, None, None, None, None, None, None, None, None, None, None, None, None)

  /** Python's `d.get(k)`, with absence kept apart from a stored `None`. */
  function Get(d: SensorData, k: Key): Option<Value>
  {
    match k
    case IndoorTemperature => d.indoorTemperature
    case OutdoorTemperature => d.outdoorTemperature
    case IndoorHumidity => d.indoorHumidity
    case OutdoorHumidity => d.outdoorHumidity
    case DegF => d.degF
    case LowBat => d.lowBat
    case AirPressure => d.airPressure
    case UV => d.uv
    case RainDaily => d.rainDaily
    case RainWeekly => d.rainWeekly
    case RainMonthly => d.rainMonthly
    case RainTotal => d.rainTotal
    case WindSpeed => d.windSpeed
    case WindChill => d.windChill
    case WindDirection => d.windDirection
  }

  /** `len(d) == 0`. */
  predicate IsEmpty(d: SensorData)
  {
    d == Empty
  }

  /** The Python exceptions the modelled code can raise. */
  datatype Error = IndexError | KeyError(key: Key) | TypeError

  /** The state a dictionary-mutating call leaves behind: the dictionary after a
      normal return, or the dictionary as far as the call got when it raised. */
  datatype Outcome = Returned(acc: SensorData) | Raised(acc: SensorData, error: Error)

  /** The result of a call that builds a fresh value or raises. */
  datatype Result<T> = Ok(value: T) | Err(error: Error)

  /** `a` and `b` agree on key `k`: both lack it, or both map it to the same value. */
  predicate Agree(a: SensorData, b: SensorData, k: Key)
  {
    Get(a, k) == Get(b, k)
  }

  /** `a` and `b` agree on every key outside `keys`. */
  predicate SameOutside(a: SensorData, b: SensorData, keys: set<Key>)
  {
    && (IndoorTemperature !in keys ==> a.indoorTemperature == b.indoorTemperature)
    && (OutdoorTemperature !in keys ==> a.outdoorTemperature == b.outdoorTemperature)
    && (IndoorHumidity !in keys ==> a.indoorHumidity == b.indoorHumidity)
    && (OutdoorHumidity !in keys ==> a.outdoorHumidity == b.outdoorHumidity)
    && (DegF !in keys ==> a.degF == b.degF)
    && (LowBat !in keys ==> a.lowBat == b.lowBat)
    && (AirPressure !in keys ==> a.airPressure == b.airPressure)
    && (UV !in keys ==> a.uv == b.uv)
    && (RainDaily !in keys ==> a.rainDaily == b.rainDaily)
    && (RainWeekly !in keys ==> a.rainWeekly == b.rainWeekly)
    && (RainMonthly !in keys ==> a.rainMonthly == b.rainMonthly)
    && (RainTotal !in keys ==> a.rainTotal == b.rainTotal)
    && (WindSpeed !in keys ==> a.windSpeed == b.windSpeed)
    && (WindChill !in keys ==> a.windChill == b.windChill)
    && (WindDirection !in keys ==> a.windDirection == b.windDirection)
  }

  /** Every key present in `a` is present in `b`. */
  predicate KeysKept(a: SensorData, b: SensorData)
  {
    && (a.indoorTemperature.Some? ==> b.indoorTemperature.Some?)
    && (a.outdoorTemperature.Some? ==> b.outdoorTemperature.Some?)
    && (a.indoorHumidity.Some? ==> b.indoorHumidity.Some?)
    && (a.outdoorHumidity.Some? ==> b.outdoorHumidity.Some?)
    && (a.degF.Some? ==> b.degF.Some?)
    && (a.lowBat.Some? ==> b.lowBat.Some?)
    && (a.airPressure.Some? ==> b.airPressure.Some?)
    && (a.uv.Some? ==> b.uv.Some?)
    && (a.rainDaily.Some? ==> b.rainDaily.Some?)
    && (a.rainWeekly.Some? ==> b.rainWeekly.Some?)
    && (a.rainMonthly.Some? ==> b.rainMonthly.Some?)
    && (a.rainTotal.Some? ==> b.rainTotal.Some?)
    && (a.windSpeed.Some? ==> b.windSpeed.Some?)
    && (a.windChill.Some? ==> b.windChill.Some?)
    && (a.windDirection.Some? ==> b.windDirection.Some?)
  }

  /** A slot that does not hold Python's `None`. */
  predicate NotNull(v: Option<Value>)
  {
    v != Some(Null)
  }

  /** No key holds `None`. */
  predicate NoNull(d: SensorData)
  {
    && NotNull(d.indoorTemperature) && NotNull(d.outdoorTemperature)
    && NotNull(d.indoorHumidity) && NotNull(d.outdoorHumidity)
    && NotNull(d.degF) && NotNull(d.lowBat) && NotNull(d.airPressure) && NotNull(d.uv)
    && NotNull(d.rainDaily) && NotNull(d.rainWeekly) && NotNull(d.rainMonthly) && NotNull(d.rainTotal)
    && NotNull(d.windSpeed) && NotNull(d.windChill) && NotNull(d.windDirection)
  }

  /** A slot that, when present, holds 0 or 1. */
  predicate IsFlag(v: Option<Value>)
  {
    v.Some? ==> v.value == Num(0.0) || v.value == Num(1.0)
  }

  /** The empty record is the dictionary without keys. */
  lemma IsEmptyMeansNoKeys(d: SensorData)
    ensures IsEmpty(d) <==> forall k: Key :: Get(d, k).None?
  {
    if forall k: Key :: Get(d, k).None? {
      assert Get(d, IndoorTemperature).None? && Get(d, OutdoorTemperature).None?;
      assert Get(d, IndoorHumidity).None? && Get(d, OutdoorHumidity).None?;
      assert Get(d, DegF).None? && Get(d, LowBat).None? && Get(d, AirPressure).None?;
      assert Get(d, UV).None? && Get(d, RainDaily).None? && Get(d, RainWeekly).None?;
      assert Get(d, RainMonthly).None? && Get(d, RainTotal).None? && Get(d, WindSpeed).None?;
      assert Get(d, WindChill).None? && Get(d, WindDirection).None?;
    }
  }

  /** Agreement outside `keys` reaches every single key outside `keys`. */
  lemma SameOutsideAt(a: SensorData, b: SensorData, keys: set<Key>, k: Key)
    requires SameOutside(a, b, keys)
    requires k !in keys
    ensures Agree(a, b, k)
  {
  }
}
