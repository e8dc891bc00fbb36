/**
  Properties of the Ventus W820 notification handler that relate several
  calls: pressure selectors pairing up, the wind-speed conversion table,
  which frames commute, which are idempotent, and what a run of
  notifications leaves untouched.
 */
module VentusProperties {
  import opened Bytes
  import opened Accumulator
  import opened Ventus

  /** Pressure selectors 0 and 1 decode alike, and so do 2 and 3: only
      whether bit 2 of byte 1 is set matters, besides bytes 3 and 4. */
  lemma PressureSelectorsPairUp(acc: SensorData, d: Frame, e: Frame)
    requires |d| >= 5 && |e| >= 5 && d[0] == 2 && e[0] == 2
    requires d[3] == e[3] && d[4] == e[4]
    requires (d[1] / 4) % 2 == (e[1] / 4) % 2
    ensures Decode(acc, d) == Decode(acc, e)
  {
    assert (d[1] / 2) % 4 <= 1 <==> (d[1] / 4) % 2 == 0;
    assert (e[1] / 2) % 4 <= 1 <==> (e[1] / 4) % 2 == 0;
    assert PressureUnit(d[1]) <= 1 <==> PressureUnit(e[1]) <= 1;
  }

  /** The four rain totals of one frame use one factor: 0.254 mm per count
      when bit 4 of byte 1 is set, 0.1 mm otherwise. */
  lemma RainSharesOneFactor(acc: SensorData, data: Frame)
    requires |data| >= 19 && data[0] == 3
    ensures
      var o := Decode(acc, data);
      var f := if (data[1] / 16) % 2 == 1 then 0.254 else 0.1;
      && o.acc.rainDaily == Some(Num(BE16(data[3], data[4]) as real * f))
      && o.acc.rainWeekly == Some(Num(BE16(data[5], data[6]) as real * f))
      && o.acc.rainMonthly == Some(Num(BE24(data[7], data[8], data[9]) as real * f))
      && o.acc.rainTotal == Some(Num(BE24(data[15], data[16], data[17]) as real * f))
  {
  }

  /** Wind speed of a decoded type-3 frame, unit by unit, from the raw count
      in bytes 11-12 and the `degF` value an earlier type-1 frame left. */
  lemma WindSpeedByUnit(acc: SensorData, data: Frame)
    requires |data| >= 19 && data[0] == 3
    ensures
      var o := Decode(acc, data);
      var unit := (data[1] / 2) % 8;
      var raw := BE16(data[11], data[12]) as real;
      var quirk := CelsiusQuirk(acc);
      && (unit == 0 ==> o.acc.windSpeed == Some(Num(raw * 0.1)))
      && (unit == 1 && acc.degF.Some? ==>
           o.acc.windSpeed == Some(Num(if quirk then raw * 0.1 * 1.60934 * 0.01313868613138686131
                                             else raw * 0.1 * 1.60934)))
      && (unit == 2 && acc.degF.Some? ==>
           o.acc.windSpeed == Some(Num(if quirk then raw * 0.1 * 3.6 * 0.01157742402315484804
                                             else raw * 0.1 * 3.6)))
      && (unit == 3 && acc.degF.Some? ==>
           o.acc.windSpeed == Some(Num(if quirk then raw * 0.1 * 1.85199539525386 * 0.03782505910165484633
                                             else raw * 0.1 * 1.85199539525386)))
      && (unit >= 4 ==> o.acc.windSpeed == Some(Num(raw)))
      && (1 <= unit <= 3 && acc.degF.None? ==> o.Raised? && o.error == KeyError(DegF))
  {
  }

  /** An outcome with `airPressure` overwritten by `v`. */
  function WithPressure(o: Outcome, v: Option<Value>): Outcome
  {
    o.(acc := o.acc.(airPressure := v))
  }

  lemma ConvertToCelsiusIgnoresPressure(a: SensorData, v: Option<Value>, outdoor: real)
    ensures ConvertToCelsius(a.(airPressure := v), outdoor) == WithPressure(ConvertToCelsius(a, outdoor), v)
  {
  }

  lemma TempHumidityIgnoresPressure(acc: SensorData, v: Option<Value>, data: Frame)
    requires |data| > 0 && data[0] == 1
    ensures DecodeTempHumidity(acc.(airPressure := v), data) == WithPressure(DecodeTempHumidity(acc, data), v)
  {
    if |data| >= 15 {
      var b := acc.(airPressure := v);
      var a2 :=
        if data[5] < 127 then acc.(degF := Some(Num(0.0)), indoorTemperature := Some(Num(PositiveTemperature(data[5], data[6]))))
        else acc.(degF := Some(Num(0.0)), outdoorTemperature := Some(Num(NegativeTemperature(data[5], data[6]))));
      var outdoor := StationTemperature(data[12], data[13]);
      var a5 := a2.(indoorHumidity := Some(Num(data[7] as real)), outdoorTemperature := Some(Num(outdoor)),
                    outdoorHumidity := Some(Num(data[14] as real)));
      ConvertToCelsiusIgnoresPressure(a5, v, outdoor);
    }
  }

  lemma WindRainIgnoresPressure(acc: SensorData, v: Option<Value>, data: Frame)
    requires |data| > 0 && data[0] == 3
    ensures DecodeWindRain(acc.(airPressure := v), data) == WithPressure(DecodeWindRain(acc, data), v)
  {
  }

  /** A frame that is not a pressure frame neither reads nor writes
      `airPressure`: decoding it after setting `airPressure` is setting
      `airPressure` after decoding it. */
  lemma DecodeIgnoresPressure(acc: SensorData, v: Option<Value>, g: Frame)
    requires |g| == 0 || g[0] != 2
    ensures Decode(acc.(airPressure := v), g) == WithPressure(Decode(acc, g), v)
  {
    if |g| > 0 && g[0] == 1 {
      TempHumidityIgnoresPressure(acc, v, g);
    } else if |g| > 0 && g[0] == 3 {
      WindRainIgnoresPressure(acc, v, g);
    }
  }

  /** A complete pressure frame commutes with any other kind of frame that
      does not raise: neither reads a key the other writes. */
  lemma PressureFrameCommutes(acc: SensorData, p: Frame, g: Frame)
    requires |p| >= 5 && p[0] == 2
    requires |g| == 0 || g[0] != 2
    requires Decode(acc, g).Returned?
    ensures Run(acc, [p, g]) == Run(acc, [g, p])
  {
    var ap := Decode(acc, p).acc;
    var ag := Decode(acc, g).acc;
    assert ap == acc.(airPressure := ap.airPressure);
    assert [p, g][1..] == [g] && [g, p][1..] == [p];
    assert [g][1..] == [] && [p][1..] == [];
    DecodeIgnoresPressure(acc, ap.airPressure, g);
    assert Decode(ag, p) == Returned(ag.(airPressure := ap.airPressure));
  }

  /** The order of a temperature frame and a wind frame matters: the wind
      frame reads the `degF` flag the temperature frame writes. Here a
      Fahrenheit temperature frame follows or precedes an mph wind frame on
      a dictionary that holds `degF` = 0. */
  lemma TempAndWindFramesDoNotCommute()
    ensures
      var acc := Empty.(degF := Some(Num(0.0)));
      var t: Frame := [1, 2, 0, 0, 0, 0, 100, 50, 0, 0, 0, 0, 0, 200, 60];
      var w: Frame := [3, 2, 0, 0, 0, 0, 0, 0, 0, 0, 4, 0, 100, 0, 0, 0, 0, 0, 1];
      && Run(acc, [t, w]).acc.windSpeed == Some(Num(100.0 * 0.1 * 1.60934))
      && Run(acc, [w, t]).acc.windSpeed == Some(Num(100.0 * 0.1 * 1.60934 * 0.01313868613138686131))
  {
    var acc := Empty.(degF := Some(Num(0.0)));
    var t: Frame := [1, 2, 0, 0, 0, 0, 100, 50, 0, 0, 0, 0, 0, 200, 60];
    var w: Frame := [3, 2, 0, 0, 0, 0, 0, 0, 0, 0, 4, 0, 100, 0, 0, 0, 0, 0, 1];
    assert Fahrenheit(t[1]) && WindUnit(w[1]) == 1 && BE16(w[11], w[12]) == 100;
    assert [t, w][1..] == [w] && [w, t][1..] == [t];
    var ot := Decode(acc, t);
    assert ot.Returned? && ot.acc.degF == Some(Num(1.0));
    var otw := Decode(ot.acc, w);
    assert otw.Returned? && otw.acc.windSpeed == Some(Num(100.0 * 0.1 * 1.60934));
    assert Run(acc, [t, w]) == Run(otw.acc, []);
    var ow := Decode(acc, w);
    assert ow.Returned? && ow.acc.windSpeed == Some(Num(100.0 * 0.1 * 1.60934 * 0.01313868613138686131));
    var owt := Decode(ow.acc, t);
    assert owt.acc.windSpeed == ow.acc.windSpeed;
    assert Run(acc, [w, t]) == Run(owt.acc, []) || Run(acc, [w, t]) == owt;
  }

  /** Pressure and wind/rain frames are idempotent: decoding one twice is
      decoding it once. */
  lemma PressureAndWindRainIdempotent(acc: SensorData, data: Frame)
    requires |data| > 0 && (data[0] == 2 || data[0] == 3)
    ensures Decode(Decode(acc, data).acc, data) == Decode(acc, data)
  {
    var a := Decode(acc, data).acc;
    if data[0] == 3 && |data| >= 19 {
      assert a.degF == acc.degF;
    }
  }

  /** A temperature frame is idempotent except where its indoor value is
      stale: a frame whose indoor high byte is below 127, or one without the
      Fahrenheit flag, decodes the same when repeated. */
  lemma TempHumidityIdempotent(acc: SensorData, data: Frame)
    requires |data| >= 15 && data[0] == 1
    requires data[5] < 127 || !Fahrenheit(data[1])
    ensures Decode(Decode(acc, data).acc, data) == Decode(acc, data)
  {
  }

  /** The stale-indoor path is not idempotent: a repeated Fahrenheit frame
      with a negative indoor reading converts the old indoor value again. */
  lemma StaleIndoorConvertedTwice()
    ensures
      var acc := Empty.(indoorTemperature := Some(Num(50.0)));
      var t: Frame := [1, 2, 0, 0, 0, 255, 245, 40, 0, 0, 0, 0, 0, 200, 60];
      && Decode(acc, t).acc.indoorTemperature == Some(Num(10.0))
      && Decode(Decode(acc, t).acc, t).acc.indoorTemperature == Some(Num(-12.0 - 2.0 / 9.0))
  {
    var acc := Empty.(indoorTemperature := Some(Num(50.0)));
    var t: Frame := [1, 2, 0, 0, 0, 255, 245, 40, 0, 0, 0, 0, 0, 200, 60];
    assert Fahrenheit(t[1]);
    var a := Decode(acc, t).acc;
    assert a.indoorTemperature == Some(Num(FahrenheitToCelsius(50.0)));
  }

  /** A key that no frame of a run writes keeps its value through the run,
      whether the run completes or stops at an exception. */
  lemma {:induction false} RunKeepsUnwrittenKeys(acc: SensorData, frames: seq<Frame>, k: Key)
    requires forall i :: 0 <= i < |frames| ==> k !in WrittenBy(frames[i])
    ensures Agree(acc, Run(acc, frames).acc, k)
    decreases |frames|
  {
    if |frames| > 0 {
      var o := Decode(acc, frames[0]);
      SameOutsideAt(acc, o.acc, WrittenBy(frames[0]), k);
      if o.Returned? {
        RunKeepsUnwrittenKeys(o.acc, frames[1..], k);
      }
    }
  }

  /** A run of complete frames never raises IndexError. */
  lemma {:induction false} CompleteRunNoIndexError(acc: SensorData, frames: seq<Frame>)
    requires forall i :: 0 <= i < |frames| ==> Complete(frames[i])
    ensures Run(acc, frames).Raised? ==> Run(acc, frames).error != IndexError
    decreases |frames|
  {
    if |frames| > 0 {
      var o := Decode(acc, frames[0]);
      if o.Returned? {
        CompleteRunNoIndexError(o.acc, frames[1..]);
      }
    }
  }
}
