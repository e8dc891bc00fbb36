/**
  The weewx side of the Ventus W820 driver: `Station.validate_data`, which
  decides whether a reading dictionary is worth a packet, and
  `Station.data_to_packet`, which renames and rescales its values into a
  weewx loop packet. One pass of the driver's polling loop ties the two
  together.
 */
module Driver {
  import opened Accumulator

  /** A weewx loop packet in metric units. The `usUnits` constant and the
      `rain` delta are not part of this record. */
  datatype Packet = Packet(
    dateTime: int,
    inTemp: Value,
    inHumidity: Value,
    outTemp: Value,
    outHumidity: Value,
    barometer: Value,
    outTempBatteryStatus: Value,
    windSpeed: Value,
    windDir: Value,
    windGust: Value,
    windGustDir: Value,
    rainTotal: Value)

  /** Python truthiness of a dictionary value: `None` and zero are false. */
  predicate Truthy(v: Value)
  {
    v.Num? && v.x != 0.0
  }

  /** `validate_data`: 0 for an empty dictionary or a `None` indoor
      temperature, 1 for a numeric one; a non-empty dictionary without the
      key raises `KeyError`. */
  function ValidateData(d: SensorData): (r: Result<int>)
    ensures r == Ok(1) <==> d.indoorTemperature.Some? && d.indoorTemperature.value.Num?
    ensures r == Ok(0) <==> IsEmpty(d) || d.indoorTemperature == Some(Null)
    ensures r.Err? <==> !IsEmpty(d) && d.indoorTemperature.None?
    ensures r.Err? ==> r.error == KeyError(IndoorTemperature)
  {
    if IsEmpty(d) then Ok(0)
    else match d.indoorTemperature
      case None => Err(KeyError(IndoorTemperature))
      case Some(Null) => Ok(0)
      case Some(Num(_)) => Ok(1)
  }

  /** The keys `data_to_packet` looks up before it converts the wind
      direction, in the order it looks them up. */
  const LeadingKeys: seq<Key> :=
    [IndoorTemperature, IndoorHumidity, OutdoorTemperature, OutdoorHumidity,
     AirPressure, LowBat, WindSpeed, WindDirection]

  /** Every key `data_to_packet` looks up, in order: total rain comes last,
      after the wind direction has been converted. */
  const PacketKeys: seq<Key> := LeadingKeys + [RainTotal]

  /** The position of the first key of `keys` absent from `d`, or `|keys|`
      when all are present: the lookup that raises `KeyError` first. */
  function FirstMissing(d: SensorData, keys: seq<Key>): (i: nat)
    ensures i <= |keys|
    ensures forall j :: 0 <= j < i ==> Get(d, keys[j]).Some?
    ensures i < |keys| ==> Get(d, keys[i]).None?
  {
    if |keys| == 0 then 0
    else if Get(d, keys[0]).None? then 0
    else 1 + FirstMissing(d, keys[1..])
  }

  /** Every key looked up before the wind conversion is present. */
  predicate HasLeadingKeys(d: SensorData)
  {
    && d.indoorTemperature.Some? && d.indoorHumidity.Some?
    && d.outdoorTemperature.Some? && d.outdoorHumidity.Some?
    && d.airPressure.Some? && d.lowBat.Some?
    && d.windSpeed.Some? && d.windDirection.Some?
  }

  /** Every key `data_to_packet` looks up is present. */
  predicate HasPacketKeys(d: SensorData)
  {
    HasLeadingKeys(d) && d.rainTotal.Some?
  }

  lemma HasLeadingKeysMeans(d: SensorData)
    ensures HasLeadingKeys(d) <==> forall j :: 0 <= j < |LeadingKeys| ==> Get(d, LeadingKeys[j]).Some?
  {
    if forall j :: 0 <= j < |LeadingKeys| ==> Get(d, LeadingKeys[j]).Some? {
      assert Get(d, LeadingKeys[0]).Some? && Get(d, LeadingKeys[1]).Some? && Get(d, LeadingKeys[2]).Some?;
      assert Get(d, LeadingKeys[3]).Some? && Get(d, LeadingKeys[4]).Some? && Get(d, LeadingKeys[5]).Some?;
      assert Get(d, LeadingKeys[6]).Some? && Get(d, LeadingKeys[7]).Some?;
    }
  }

  /** The wind direction in degrees: one of 16 compass points, 22.5 degrees
      apart, reported only while the wind speed is non-zero. Multiplying
      `None` raises `TypeError`. */
  function WindDegrees(ws: Value, wd: Value): (r: Result<Value>)
    ensures !Truthy(ws) ==> r == Ok(Null)
    ensures Truthy(ws) && wd.Null? ==> r == Err(TypeError)
    ensures Truthy(ws) && wd.Num? ==> r.Ok? && r.value.Num? && r.value.x / 22.5 == wd.x
  {
    if !Truthy(ws) then Ok(Null)
    else match wd
      case Null => Err(TypeError)
      case Num(x) => Ok(Num(x * 22.5))
  }

  /** `data_to_packet` with wind overflow and invalid flags both 0, as the
      driver fixes them: the packet, or the first exception in evaluation
      order. The eight leading lookups come first, then the wind direction
      conversion, then the total-rain lookup. */
  function DataToPacket(d: SensorData, ts: int): (r: Result<Packet>)
    ensures r.Ok? <==> HasPacketKeys(d) && WindDegrees(d.windSpeed.value, d.windDirection.value).Ok?
    ensures r.Err? && r.error.KeyError? ==>
      exists i :: 0 <= i < |PacketKeys| && PacketKeys[i] == r.error.key
        && Get(d, PacketKeys[i]).None?
        && (forall j :: 0 <= j < i ==> Get(d, PacketKeys[j]).Some?)
    ensures !HasLeadingKeys(d) ==>
      var i := FirstMissing(d, LeadingKeys);
      i < |LeadingKeys| && r == Err(KeyError(LeadingKeys[i]))
    ensures HasLeadingKeys(d) && Truthy(d.windSpeed.value) && d.windDirection.value.Null? ==>
      r == Err(TypeError)
    ensures HasLeadingKeys(d) && WindDegrees(d.windSpeed.value, d.windDirection.value).Ok? && d.rainTotal.None? ==>
      r == Err(KeyError(RainTotal))
    ensures HasPacketKeys(d) ==> r.Ok? || r == Err(TypeError)
    ensures r.Ok? ==>
      && r.value.dateTime == ts
      && Some(r.value.inTemp) == d.indoorTemperature
      && Some(r.value.inHumidity) == d.indoorHumidity
      && Some(r.value.outTemp) == d.outdoorTemperature
      && Some(r.value.outHumidity) == d.outdoorHumidity
      && Some(r.value.barometer) == d.airPressure
      && Some(r.value.outTempBatteryStatus) == d.lowBat
      && Some(r.value.windSpeed) == d.windSpeed
      && (r.value.windDir.Num? <==> Truthy(d.windSpeed.value))
      && (r.value.windDir.Num? ==> r.value.windDir.x / 22.5 == d.windDirection.value.x)
      && r.value.windGust == Null && r.value.windGustDir == Null
      && (r.value.rainTotal.Num? <==> d.rainTotal.value.Num?)
      && (r.value.rainTotal.Num? ==> r.value.rainTotal.x * 10.0 == d.rainTotal.value.x)
  {
    HasLeadingKeysMeans(d);
    var i := FirstMissing(d, LeadingKeys);
    if i < |LeadingKeys| then
      assert PacketKeys[i] == LeadingKeys[i];
      assert forall j :: 0 <= j < i ==> PacketKeys[j] == LeadingKeys[j];
      Err(KeyError(LeadingKeys[i]))
    else
      var ws := d.windSpeed.value;
      match WindDegrees(ws, d.windDirection.value)
      case Err(e) => Err(e)
      case Ok(windDir) =>
        match d.rainTotal
        case None =>
          assert PacketKeys[|LeadingKeys|] == RainTotal;
          assert forall j :: 0 <= j < |LeadingKeys| ==> PacketKeys[j] == LeadingKeys[j];
          Err(KeyError(RainTotal))
        case Some(rain) =>
          var rainTotal := match rain
            case Null => Null
            case Num(x) => Num(x / 10.0);
          Ok(Packet(ts,
            d.indoorTemperature.value, d.indoorHumidity.value,
            d.outdoorTemperature.value, d.outdoorHumidity.value,
            d.airPressure.value, d.lowBat.value,
            ws, windDir, Null, Null, rainTotal))
  }

  /** The wind conversion comes before the total-rain lookup: a truthy wind
      speed with a `None` direction raises `TypeError` even when total rain
      is absent. */
  lemma WindConversionBeforeRainLookup(ts: int)
    ensures
      var d := Empty.(indoorTemperature := Some(Num(20.0)), indoorHumidity := Some(Num(40.0)),
                      outdoorTemperature := Some(Num(10.0)), outdoorHumidity := Some(Num(60.0)),
                      airPressure := Some(Num(1013.0)), lowBat := Some(Num(0.0)),
                      windSpeed := Some(Num(5.0)), windDirection := Some(Null));
      DataToPacket(d, ts) == Err(TypeError)
  {
  }

  /** One pass of the polling loop on a reading: no packet when validation
      yields 0, a packet when it yields 1, or the exception either raises. */
  function Poll(d: SensorData, ts: int): (r: Result<Option<Packet>>)
    ensures r == Ok(None) <==> ValidateData(d) == Ok(0)
    ensures r.Ok? && r.value.Some? ==>
      && d.indoorTemperature.Some? && d.indoorTemperature.value.Num?
      && r.value.value.inTemp == d.indoorTemperature.value
      && r.value.value.dateTime == ts
    ensures r.Ok? && r.value.Some? ==> ValidateData(d) == Ok(1) && DataToPacket(d, ts) == Ok(r.value.value)
    ensures r.Err? <==> ValidateData(d).Err? || (ValidateData(d) == Ok(1) && DataToPacket(d, ts).Err?)
    ensures r.Err? ==>
      r.error == if ValidateData(d).Err? then ValidateData(d).error else DataToPacket(d, ts).error
  {
    match ValidateData(d)
    case Err(e) => Err(e)
    case Ok(valid) =>
      if valid == 0 then Ok(None)
      else match DataToPacket(d, ts)
        case Err(e) => Err(e)
        case Ok(p) => Ok(Some(p))
  }

  /** The reading `get_readings` hands back when the BLE read fails: only an
      indoor temperature of `None`. */
  const FailedReading: SensorData := Empty.(indoorTemperature := Some(Null))

  /** A failed read produces no packet and no exception. */
  lemma FailedReadingIsSkipped(ts: int)
    ensures Poll(FailedReading, ts) == Ok(None)
  {
  }
}
