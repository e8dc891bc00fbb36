/**
  The temperature/humidity frame as its comments say it is meant to work:
  a negative indoor reading goes to the indoor key, like a non-negative
  one. Pressure and wind/rain frames are those of `Ventus`.
 */
module Intended {
  import opened Bytes
  import opened Accumulator
  import Ventus

  /** Frame type 1 with the indoor temperature always written under its
      own key, whatever its sign. */
  function DecodeTempHumidity(acc: SensorData, data: Frame): (o: Outcome)
    requires |data| > 0 && data[0] == 1
    ensures SameOutside(acc, o.acc, Ventus.TempHumidityKeys)
    ensures o.Raised? <==> |data| < 15
    ensures o.Raised? ==> o.error == IndexError
    ensures |data| >= 15 ==>
      var f := Ventus.Fahrenheit(data[1]);
      && o.acc.indoorTemperature == Some(Num(Ventus.InCelsius(Ventus.StationTemperature(data[5], data[6]), f)))
      && o.acc.outdoorTemperature == Some(Num(Ventus.InCelsius(Ventus.StationTemperature(data[12], data[13]), f)))
      && o.acc.indoorHumidity == Some(Num(data[7] as real))
      && o.acc.outdoorHumidity == Some(Num(data[14] as real))
      && o.acc.degF == Some(Num(if f then 1.0 else 0.0))
      && o.acc.lowBat == Some(Num(if Ventus.LowBattery(data[1]) then 1.0 else 0.0))
  {
    var a1 := acc.(degF := Some(Num(0.0)));
    if |data| < 7 then Raised(a1, IndexError)
    else
      var a2 := a1.(indoorTemperature := Some(Num(Ventus.StationTemperature(data[5], data[6]))));
      if |data| < 8 then Raised(a2, IndexError)
      else
        var a3 := a2.(indoorHumidity := Some(Num(data[7] as real)));
        if |data| < 14 then Raised(a3, IndexError)
        else
          var outdoor := Ventus.StationTemperature(data[12], data[13]);
          var a4 := a3.(outdoorTemperature := Some(Num(outdoor)));
          if |data| < 15 then Raised(a4, IndexError)
          else
            var a5 := a4.(outdoorHumidity := Some(Num(data[14] as real)));
            var converted := if Ventus.Fahrenheit(data[1]) then Ventus.ConvertToCelsius(a5, outdoor) else Returned(a5);
            match converted
            case Raised(_, _) => converted
            case Returned(a6) => Returned(a6.(lowBat := Some(Num(if Ventus.LowBattery(data[1]) then 1.0 else 0.0))))
  }

  /** One notification, with the corrected type-1 frame. */
  function Decode(acc: SensorData, data: Frame): (o: Outcome)
    ensures |data| == 0 ==> o == Raised(acc, IndexError)
    ensures SameOutside(acc, o.acc, Ventus.WrittenBy(data))
    ensures o.Raised? && o.error == IndexError <==> !Ventus.Complete(data)
  {
    if |data| == 0 then Raised(acc, IndexError)
    else if data[0] == 1 then DecodeTempHumidity(acc, data)
    else if data[0] == 2 then Ventus.DecodePressure(acc, data)
    else if data[0] == 3 then Ventus.DecodeWindRain(acc, data)
    else Returned(acc)
  }

  /** Notifications handled in order with the corrected decoder, up to the
      first exception. */
  function Run(acc: SensorData, frames: seq<Frame>): (o: Outcome)
    decreases |frames|
  {
    if |frames| == 0 then Returned(acc)
    else match Decode(acc, frames[0])
      case Returned(a) => Run(a, frames[1..])
      case Raised(a, e) => Raised(a, e)
  }

  /** The correction changes nothing for frames shorter than 7 bytes, which
      end before the indoor reading, and for frames whose indoor reading is
      non-negative. */
  lemma AgreesWithLibrary(acc: SensorData, data: Frame)
    requires |data| > 0 && data[0] == 1
    requires |data| < 7 || data[5] < 127
    ensures DecodeTempHumidity(acc, data) == Ventus.DecodeTempHumidity(acc, data)
  {
  }

  /** A complete corrected type-1 frame overwrites every key of its kind
      from the frame alone: what the dictionary held before does not matter. */
  lemma ForgetsHistory(a: SensorData, b: SensorData, data: Frame)
    requires |data| >= 15 && data[0] == 1
    ensures
      var oa := DecodeTempHumidity(a, data).acc;
      var ob := DecodeTempHumidity(b, data).acc;
      && oa.indoorTemperature == ob.indoorTemperature && oa.outdoorTemperature == ob.outdoorTemperature
      && oa.indoorHumidity == ob.indoorHumidity && oa.outdoorHumidity == ob.outdoorHumidity
      && oa.degF == ob.degF && oa.lowBat == ob.lowBat
  {
  }

  /** Every corrected type-1 frame is idempotent, Fahrenheit and negative
      indoor readings included. */
  lemma Idempotent(acc: SensorData, data: Frame)
    requires |data| > 0 && data[0] == 1
    ensures DecodeTempHumidity(DecodeTempHumidity(acc, data).acc, data) == DecodeTempHumidity(acc, data)
  {
    var o := DecodeTempHumidity(acc, data);
    if |data| >= 15 {
      ForgetsHistory(o.acc, acc, data);
    }
  }

  /** The library's handler loses a negative indoor reading: on an empty
      dictionary a Celsius frame reading -1.0 degrees indoors leaves the
      indoor key absent, where the corrected frame stores -1.0. */
  lemma NegativeIndoorLost()
    ensures
      var t: Frame := [1, 0, 0, 0, 0, 255, 245, 40, 0, 0, 0, 0, 0, 200, 60];
      && Ventus.Decode(Empty, t).Returned?
      // `None` here is the absent key, not a key holding Python's `None`
      && Ventus.Decode(Empty, t).acc.indoorTemperature == None
      && Decode(Empty, t) == Returned(DecodeTempHumidity(Empty, t).acc)
      && Decode(Empty, t).acc.indoorTemperature == Some(Num(-1.0))
  {
    var t: Frame := [1, 0, 0, 0, 0, 255, 245, 40, 0, 0, 0, 0, 0, 200, 60];
    assert !Ventus.Fahrenheit(t[1]);
    assert Ventus.StationTemperature(t[5], t[6]) == -1.0;
  }
}
