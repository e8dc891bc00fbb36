/**
  The notification handler of the Ventus W820 BLE library
  (`w820Delegate.handleNotification`): one payload in, dispatched on byte 0,
  metric values written into the reading dictionary. The dictionary is
  threaded through explicitly instead of living in a global; an exception
  leaves behind the writes done before it.
 */
module Ventus {
  import opened Bytes
  import opened Accumulator

  // ---------------------------------------------------------------------
  // Unit-selector bits of byte 1
  // ---------------------------------------------------------------------

  /** `data[1] & 2 != 0`: the station displays Fahrenheit. */
  predicate Fahrenheit(b1: Byte)
  {
    (b1 / 2) % 2 == 1
  }

  /** `data[1] & 8 != 0`: the outdoor sensor reports a low battery. */
  predicate LowBattery(b1: Byte)
  {
    (b1 / 8) % 2 == 1
  }

  /** `(data[1] & 6) >> 1`, clamped to 2: 0 Pascal-like, 1 "mm Hg" (divided
      like 0), 2 inches of mercury. */
  function PressureUnit(b1: Byte): (u: nat)
    ensures u <= 2
  {
    var u := (b1 / 2) % 4;
    if u > 2 then 2 else u
  }

  /** `data[1] & 16 == 16`: rain is reported in hundredths of an inch. */
  predicate RainInches(b1: Byte)
  {
    (b1 / 16) % 2 == 1
  }

  /** `(data[1] & 14) >> 1`, clamped to 4: 0 km/h, 1 mph, 2 m/s, 3 knots, 4 Beaufort. */
  function WindUnit(b1: Byte): (u: nat)
    ensures u <= 4
  {
    var u := (b1 / 2) % 8;
    if u > 4 then 4 else u
  }

  /** The selectors above are the handler's mask-and-shift expressions on byte 1. */
  lemma SelectorsAreMasks(b1: Byte)
    ensures Fahrenheit(b1) <==> And(b1, 2) != 0
    ensures LowBattery(b1) <==> And(b1, 8) != 0
    ensures PressureUnit(b1) == if And(b1, 6) / 2 > 2 then 2 else And(b1, 6) / 2
    ensures RainInches(b1) <==> And(b1, 16) == 16
    ensures WindUnit(b1) == if And(b1, 14) / 2 > 4 then 4 else And(b1, 14) / 2
  {
    AndTwo(b1);
    AndEight(b1);
    AndSixteen(b1);
    AndFieldMasks(b1);
  }

  // ---------------------------------------------------------------------
  // Conversions
  // ---------------------------------------------------------------------

  /** A temperature whose high byte is below 127: big-endian tenths of a degree. */
  function PositiveTemperature(hi: Byte, lo: Byte): real
  {
    BE16(hi, lo) as real / 10.0
  }

  /** A temperature whose high byte is 127 or more: both bytes complemented,
      combined big-endian and negated, in tenths of a degree. */
  function NegativeTemperature(hi: Byte, lo: Byte): real
  {
    -(BE16(255 - hi, 255 - lo) as real) / 10.0
  }

  /** The station's signed temperature encoding. Read as a 16-bit word `w`
      it is `w` below 0x7F00 and `w - 65535` (a ones'-complement reading)
      from 0x7F00 up, in tenths of a degree. */
  function StationTemperature(hi: Byte, lo: Byte): (t: real)
    ensures hi < 127 ==> 0.0 <= t <= 3251.1
    ensures hi >= 127 ==> -3302.3 <= t <= 0.0
    ensures 10.0 * t == (if BE16(hi, lo) < 0x7F00 then BE16(hi, lo) else BE16(hi, lo) - 65535) as real
  {
    if hi < 127 then PositiveTemperature(hi, lo) else NegativeTemperature(hi, lo)
  }

  /** `(t - 32) / 1.8`. */
  function FahrenheitToCelsius(f: real): (c: real)
    ensures c * 1.8 + 32.0 == f
    ensures c == f <==> f == -40.0
  {
    (f - 32.0) / 1.8
  }

  /** A decoded temperature in Celsius, given whether the station displays Fahrenheit. */
  function InCelsius(t: real, fahrenheit: bool): real
  {
    if fahrenheit then FahrenheitToCelsius(t) else t
  }

  /** Raw pressure count to hPa for a clamped pressure unit. */
  function PressureHpa(unit: nat, raw: nat): (p: real)
    requires unit <= 2
    ensures unit <= 1 ==> p * 10.0 == raw as real
    ensures unit == 2 ==> p == raw as real * 0.338639
  {
    if unit == 0 then raw as real / 10.0
    else if unit == 1 then raw as real / 10.0
    else raw as real * 0.338639
  }

  /** A raw rain count in millimetres: the count is in hundredths of an
      inch when bit 4 of byte 1 is set, in tenths of a millimetre otherwise. */
  function RainMm(count: nat, b1: Byte): (mm: real)
    ensures RainInches(b1) ==> mm == count as real * 0.254
    ensures !RainInches(b1) ==> mm * 10.0 == count as real
  {
    if RainInches(b1) then count as real * (0.01 * 25.4) else count as real * 0.1
  }

  /** Firmware defect compensation: with the station set to Celsius (`degF`
      holding 0), every non-km/h wind speed arrives scaled wrongly. */
  predicate CelsiusQuirk(acc: SensorData)
  {
    acc.degF == Some(Num(0.0))
  }

  /** Raw wind-speed count to km/h, by clamped wind unit and firmware quirk:
      the conversion table the handler's branches implement. Beaufort (4)
      is left unscaled. */
  function WindKmh(raw: real, unit: nat, quirk: bool): real
    requires unit <= 4
  {
    match unit
    case 0 => raw * 0.1
    case 1 =>
      if quirk then raw * 0.1 * 1.60934 * 0.01313868613138686131 else raw * 0.1 * 1.60934
    case 2 =>
      if quirk then raw * 0.1 * 3.6 * 0.01157742402315484804 else raw * 0.1 * 3.6
    case 3 =>
      if quirk then raw * 0.1 * 1.85199539525386 * 0.03782505910165484633 else raw * 0.1 * 1.85199539525386
    case _ => raw
  }

  // ---------------------------------------------------------------------
  // Frame kinds
  // ---------------------------------------------------------------------

  const TempHumidityKeys: set<Key> :=
    {DegF, IndoorTemperature, OutdoorTemperature, IndoorHumidity, OutdoorHumidity, LowBat}
  const PressureKeys: set<Key> := {AirPressure}
  const WindRainKeys: set<Key> :=
    {UV, RainDaily, RainWeekly, RainMonthly, RainTotal, WindSpeed, WindChill, WindDirection}

  /** The keys a payload may write: those of its frame kind. */
  function WrittenBy(data: Frame): set<Key>
  {
    if |data| == 0 then {}
    else if data[0] == 1 then TempHumidityKeys
    else if data[0] == 2 then PressureKeys
    else if data[0] == 3 then WindRainKeys
    else {}
  }

  /** The length from which a payload of this kind is read without an IndexError. */
  function MinLength(kind: Byte): nat
  {
    if kind == 1 then 15 else if kind == 2 then 5 else if kind == 3 then 19 else 1
  }

  predicate Complete(data: Frame)
  {
    |data| > 0 && |data| >= MinLength(data[0])
  }

  // ---------------------------------------------------------------------
  // Type 1: temperature and humidity
  // ---------------------------------------------------------------------

  /** The Fahrenheit branch: indoor temperature is converted from whatever the
      dictionary holds, outdoor from the value just decoded, then `degF` is set. */
  function ConvertToCelsius(a: SensorData, outdoor: real): (o: Outcome)
    ensures a.indoorTemperature.None? ==> o == Raised(a, KeyError(IndoorTemperature))
    ensures a.indoorTemperature == Some(Null) ==> o == Raised(a, TypeError)
    ensures a.indoorTemperature.Some? && a.indoorTemperature.value.Num? ==>
      && o.Returned?
      && SameOutside(a, o.acc, {IndoorTemperature, OutdoorTemperature, DegF})
      && o.acc.indoorTemperature.Some? && o.acc.indoorTemperature.value.Num?
      && o.acc.indoorTemperature.value.x * 1.8 + 32.0 == a.indoorTemperature.value.x
      && o.acc.outdoorTemperature.Some? && o.acc.outdoorTemperature.value.Num?
      && o.acc.outdoorTemperature.value.x * 1.8 + 32.0 == outdoor
      && o.acc.degF == Some(Num(1.0))
  {
    match a.indoorTemperature
    case None => Raised(a, KeyError(IndoorTemperature))
    case Some(Null) => Raised(a, TypeError)
    case Some(Num(t)) =>
      Returned(a.(indoorTemperature := Some(Num(FahrenheitToCelsius(t))),
                  outdoorTemperature := Some(Num(FahrenheitToCelsius(outdoor))),
                  degF := Some(Num(1.0))))
  }

  /** Frame type 1. A negative indoor reading is written under the outdoor
      key (and then overwritten), so indoor temperature keeps its earlier
      value in that case. */
  function DecodeTempHumidity(acc: SensorData, data: Frame): (o: Outcome)
    requires |data| > 0 && data[0] == 1
    ensures SameOutside(acc, o.acc, TempHumidityKeys)
    ensures KeysKept(acc, o.acc)
    ensures NoNull(acc) ==> NoNull(o.acc)
    ensures IsFlag(o.acc.degF)
    ensures IsFlag(acc.lowBat) ==> IsFlag(o.acc.lowBat)
    ensures |data| < 15 <==> o == Raised(o.acc, IndexError)
    ensures |data| < 7 ==> o.acc == acc.(degF := Some(Num(0.0)))
    ensures |data| < 15 || o.Raised? ==> o.acc.degF == Some(Num(0.0)) && o.acc.lowBat == acc.lowBat
    ensures 7 <= |data| < 15 && data[5] < 127 ==>
      o.acc.indoorTemperature == Some(Num(StationTemperature(data[5], data[6])))
    ensures 7 <= |data| && data[5] >= 127 && (o.Raised? || !Fahrenheit(data[1])) ==>
      o.acc.indoorTemperature == acc.indoorTemperature
    ensures 7 <= |data| < 14 ==>
      o.acc.outdoorTemperature ==
        if data[5] >= 127 then Some(Num(StationTemperature(data[5], data[6]))) else acc.outdoorTemperature
    ensures |data| == 14 || (|data| >= 15 && o.Raised?) ==>
      o.acc.outdoorTemperature == Some(Num(StationTemperature(data[12], data[13])))
    ensures |data| < 8 ==> o.acc.indoorHumidity == acc.indoorHumidity
    ensures 8 <= |data| ==> o.acc.indoorHumidity == Some(Num(data[7] as real))
    ensures |data| < 15 ==> o.acc.outdoorHumidity == acc.outdoorHumidity
    ensures |data| >= 15 ==>
      var f := Fahrenheit(data[1]);
      && (o.Raised? <==> f && data[5] >= 127 && !(acc.indoorTemperature.Some? && acc.indoorTemperature.value.Num?))
      && o.acc.outdoorHumidity == Some(Num(data[14] as real))
      && (o.Returned? ==>
           && o.acc.degF == Some(Num(if f then 1.0 else 0.0))
           && o.acc.lowBat == Some(Num(if LowBattery(data[1]) then 1.0 else 0.0))
           && o.acc.outdoorTemperature == Some(Num(InCelsius(StationTemperature(data[12], data[13]), f)))
           && (data[5] < 127 ==>
                o.acc.indoorTemperature == Some(Num(InCelsius(StationTemperature(data[5], data[6]), f))))
           && (data[5] >= 127 && !f ==> o.acc.indoorTemperature == acc.indoorTemperature)
           && (data[5] >= 127 && f ==>
                o.acc.indoorTemperature == Some(Num(FahrenheitToCelsius(acc.indoorTemperature.value.x)))))
      && (o.Raised? ==>
           && o.error == (if acc.indoorTemperature.Some? then TypeError else KeyError(IndoorTemperature))
           && o.acc.degF == Some(Num(0.0))
           && o.acc.lowBat == acc.lowBat)
  {
    var a1 := acc.(degF := Some(Num(0.0)));
    if |data| < 7 then Raised(a1, IndexError)
    else
      var a2 :=
        if data[5] < 127 then a1.(indoorTemperature := Some(Num(PositiveTemperature(data[5], data[6]))))
        else a1.(outdoorTemperature := Some(Num(NegativeTemperature(data[5], data[6]))));
      if |data| < 8 then Raised(a2, IndexError)
      else
        var a3 := a2.(indoorHumidity := Some(Num(data[7] as real)));
        if |data| < 14 then Raised(a3, IndexError)
        else
          var outdoor := StationTemperature(data[12], data[13]);
          var a4 := a3.(outdoorTemperature := Some(Num(outdoor)));
          if |data| < 15 then Raised(a4, IndexError)
          else
            var a5 := a4.(outdoorHumidity := Some(Num(data[14] as real)));
            var converted := if Fahrenheit(data[1]) then ConvertToCelsius(a5, outdoor) else Returned(a5);
            match converted
            case Raised(_, _) => converted
            case Returned(a6) => Returned(a6.(lowBat := Some(Num(if LowBattery(data[1]) then 1.0 else 0.0))))
  }

  // ---------------------------------------------------------------------
  // Type 2: barometric pressure
  // ---------------------------------------------------------------------

  /** Frame type 2: `airPressure` in hPa from the 16-bit magnitude in bytes 3-4. */
  function DecodePressure(acc: SensorData, data: Frame): (o: Outcome)
    requires |data| > 0 && data[0] == 2
    ensures |data| < 5 ==> o == Raised(acc, IndexError)
    ensures |data| >= 5 ==>
      && o.Returned?
      && SameOutside(acc, o.acc, PressureKeys)
      && ((data[1] / 2) % 4 <= 1 ==> o.acc.airPressure == Some(Num(BE16(data[3], data[4]) as real / 10.0)))
      && ((data[1] / 2) % 4 >= 2 ==> o.acc.airPressure == Some(Num(BE16(data[3], data[4]) as real * 0.338639)))
  {
    if |data| < 5 then Raised(acc, IndexError)
    else
      var unit := PressureUnit(data[1]);
      Returned(acc.(airPressure := Some(Num(PressureHpa(unit, BE16(data[3], data[4]))))))
  }

  // ---------------------------------------------------------------------
  // Type 3: rain, wind and UV
  // ---------------------------------------------------------------------

  /** A non-km/h wind unit: write the nominal conversion, then apply the
      firmware quirk correction when `degF` holds 0. */
  function ConvertWind(a: SensorData, nominal: real, quirk: real): (o: Outcome)
    ensures a.degF.None? ==> o == Raised(a.(windSpeed := Some(Num(nominal))), KeyError(DegF))
    ensures a.degF.Some? ==> o.Returned? && SameOutside(a, o.acc, {WindSpeed})
    ensures a.degF == Some(Num(0.0)) ==> o.acc.windSpeed == Some(Num(nominal * quirk))
    ensures a.degF.Some? && a.degF != Some(Num(0.0)) ==> o.acc.windSpeed == Some(Num(nominal))
  {
    var a1 := a.(windSpeed := Some(Num(nominal)));
    match a1.degF
    case None => Raised(a1, KeyError(DegF))
    case Some(v) =>
      if v == Num(0.0) then Returned(a1.(windSpeed := Some(Num(nominal * quirk))))
      else Returned(a1)
  }

  /** The wind-unit branches of the type-3 frame, applied to a dictionary
      whose wind speed holds the raw count `raw`. */
  function ConvertWindUnit(a: SensorData, unit: nat, raw: real): (o: Outcome)
    requires unit <= 4
    ensures o.Raised? <==> 1 <= unit <= 3 && a.degF.None?
    ensures o.Raised? ==> o.error == KeyError(DegF)
    ensures SameOutside(a, o.acc, {WindSpeed})
    ensures o.Returned? ==> o.acc.windSpeed == Some(Num(WindKmh(raw, unit, CelsiusQuirk(a))))
    ensures o.Raised? ==> o.acc.windSpeed == Some(Num(WindKmh(raw, unit, false)))
  {
    if unit == 0 then Returned(a.(windSpeed := Some(Num(raw * 0.1))))
    else if unit == 1 then
      ConvertWind(a, raw * 0.1 * 1.60934, 0.01313868613138686131)
    else if unit == 2 then
      ConvertWind(a, raw * 0.1 * 3.6, 0.01157742402315484804)
    else if unit == 3 then
      ConvertWind(a, raw * 0.1 * 1.85199539525386, 0.03782505910165484633)
    else Returned(a.(windSpeed := Some(Num(raw))))
  }

  /** Frame type 3: UV index, four rain totals sharing one factor, wind speed,
      wind chill and wind direction. */
  function DecodeWindRain(acc: SensorData, data: Frame): (o: Outcome)
    requires |data| > 0 && data[0] == 3
    ensures SameOutside(acc, o.acc, WindRainKeys)
    ensures |data| < 19 ==> o == Raised(acc, IndexError)
    ensures |data| >= 19 ==>
      var unit := WindUnit(data[1]);
      var raw := BE16(data[11], data[12]) as real;
      && (o.Raised? <==> 1 <= unit <= 3 && acc.degF.None?)
      && (o.Raised? ==> o.error == KeyError(DegF))
      && o.acc.uv == Some(Num(data[18] as real))
      && o.acc.rainDaily == Some(Num(RainMm(BE16(data[3], data[4]), data[1])))
      && o.acc.rainWeekly == Some(Num(RainMm(BE16(data[5], data[6]), data[1])))
      && o.acc.rainMonthly == Some(Num(RainMm(BE24(data[7], data[8], data[9]), data[1])))
      && o.acc.rainTotal == Some(Num(RainMm(BE24(data[15], data[16], data[17]), data[1])))
      && o.acc.windChill == Some(Num(BE16(data[13], data[14]) as real / 10.0))
      && o.acc.windDirection == Some(Num(data[10] as real))
      && (o.Returned? ==> o.acc.windSpeed == Some(Num(WindKmh(raw, unit, CelsiusQuirk(acc)))))
      && (o.Raised? ==> o.acc.windSpeed == Some(Num(WindKmh(raw, unit, false))))
  {
    if |data| < 19 then Raised(acc, IndexError)
    else
      var unit := WindUnit(data[1]);
      var raw := BE16(data[11], data[12]) as real;
      var a := acc.(
        uv := Some(Num(data[18] as real)),
        rainDaily := Some(Num(RainMm(BE16(data[3], data[4]), data[1]))),
        rainWeekly := Some(Num(RainMm(BE16(data[5], data[6]), data[1]))),
        rainMonthly := Some(Num(RainMm(BE24(data[7], data[8], data[9]), data[1]))),
        rainTotal := Some(Num(RainMm(BE24(data[15], data[16], data[17]), data[1]))),
        windSpeed := Some(Num(raw)),
        windChill := Some(Num(BE16(data[13], data[14]) as real / 10.0)),
        windDirection := Some(Num(data[10] as real)));
      assert CelsiusQuirk(a) == CelsiusQuirk(acc);
      ConvertWindUnit(a, unit, raw)
  }

  // ---------------------------------------------------------------------
  // Dispatch and a sequence of notifications
  // ---------------------------------------------------------------------

  /** One notification: dispatch on byte 0; any other kind is ignored. */
  function Decode(acc: SensorData, data: Frame): (o: Outcome)
    ensures |data| == 0 ==> o == Raised(acc, IndexError)
    ensures |data| > 0 && data[0] !in {1, 2, 3} ==> o == Returned(acc)
    ensures SameOutside(acc, o.acc, WrittenBy(data))
    ensures KeysKept(acc, o.acc)
    ensures NoNull(acc) ==> NoNull(o.acc)
    ensures IsFlag(acc.degF) ==> IsFlag(o.acc.degF)
    ensures IsFlag(acc.lowBat) ==> IsFlag(o.acc.lowBat)
    ensures o.Raised? && o.error == IndexError <==> !Complete(data)
  {
    if |data| == 0 then Raised(acc, IndexError)
    else if data[0] == 1 then DecodeTempHumidity(acc, data)
    else if data[0] == 2 then DecodePressure(acc, data)
    else if data[0] == 3 then DecodeWindRain(acc, data)
    else Returned(acc)
  }

  /** Notifications handled in order; the first exception ends the run with
      the dictionary as it stands, as it ends the library's `read`. */
  function Run(acc: SensorData, frames: seq<Frame>): (o: Outcome)
    ensures KeysKept(acc, o.acc)
    ensures NoNull(acc) ==> NoNull(o.acc)
    ensures IsFlag(acc.degF) ==> IsFlag(o.acc.degF)
    ensures IsFlag(acc.lowBat) ==> IsFlag(o.acc.lowBat)
    decreases |frames|
  {
    if |frames| == 0 then Returned(acc)
    else match Decode(acc, frames[0])
      case Returned(a) => Run(a, frames[1..])
      case Raised(a, e) => Raised(a, e)
  }
}
