/**
  A reading session end to end: notifications decoded into an empty
  dictionary, then validated and turned into a loop packet by the driver.
 */
module Session {
  import opened Bytes
  import opened Accumulator
  import Ventus
  import Intended
  import opened Driver

  /** One complete frame of each kind: temperature, pressure, wind/rain. */
  predicate FullSet(t: Frame, p: Frame, w: Frame)
  {
    && |t| >= 15 && t[0] == 1
    && |p| >= 5 && p[0] == 2
    && |w| >= 19 && w[0] == 3
  }

  /** What the library's handler leaves after one complete frame of each
      kind on an empty dictionary, when the indoor reading is non-negative. */
  lemma LibraryFullSet(t: Frame, p: Frame, w: Frame)
    requires FullSet(t, p, w) && t[5] < 127
    ensures
      var o := Ventus.Run(Empty, [t, p, w]);
      var f := Ventus.Fahrenheit(t[1]);
      && o.Returned?
      && HasPacketKeys(o.acc)
      && o.acc.indoorTemperature == Some(Num(Ventus.InCelsius(Ventus.StationTemperature(t[5], t[6]), f)))
      && o.acc.outdoorTemperature == Some(Num(Ventus.InCelsius(Ventus.StationTemperature(t[12], t[13]), f)))
      && o.acc.rainTotal == Some(Num(Ventus.RainMm(BE24(w[15], w[16], w[17]), w[1])))
  {
    var o1 := Ventus.Decode(Empty, t);
    assert o1.Returned?;
    var o2 := Ventus.Decode(o1.acc, p);
    assert o2.Returned? && o2.acc == o1.acc.(airPressure := o2.acc.airPressure);
    var o3 := Ventus.Decode(o2.acc, w);
    assert o2.acc.degF.Some?;
    assert o3.Returned?;
    assert [t, p, w][1..] == [p, w] && [p, w][1..] == [w] && [w][1..] == [];
    assert Ventus.Run(Empty, [t, p, w]) == Ventus.Run(o1.acc, [p, w]);
    assert Ventus.Run(o1.acc, [p, w]) == Ventus.Run(o2.acc, [w]);
    assert Ventus.Run(o2.acc, [w]) == Ventus.Run(o3.acc, []);
    assert o3.acc.indoorTemperature == o1.acc.indoorTemperature;
    assert o3.acc.outdoorTemperature == o1.acc.outdoorTemperature;
  }

  /** One frame of each kind, decoded in order into an empty dictionary,
      yields a valid reading and a packet carrying the decoded values: the
      indoor and outdoor temperature in Celsius, the pressure, and the total
      rain in centimetres. */
  lemma FullSessionYieldsPacket(t: Frame, p: Frame, w: Frame, ts: int)
    requires FullSet(t, p, w) && t[5] < 127
    ensures
      var o := Ventus.Run(Empty, [t, p, w]);
      var f := Ventus.Fahrenheit(t[1]);
      var r := DataToPacket(o.acc, ts);
      && o.Returned?
      && ValidateData(o.acc) == Ok(1)
      && r.Ok?
      && r.value.inTemp == Num(Ventus.InCelsius(Ventus.StationTemperature(t[5], t[6]), f))
      && r.value.outTemp == Num(Ventus.InCelsius(Ventus.StationTemperature(t[12], t[13]), f))
      && Some(r.value.barometer) == o.acc.airPressure
      && r.value.rainTotal == Num(Ventus.RainMm(BE24(w[15], w[16], w[17]), w[1]) / 10.0)
  {
    LibraryFullSet(t, p, w);
  }

  /** With the library's handler, a negative indoor reading on a fresh
      dictionary stops the driver: the dictionary that reaches validation
      lacks the indoor key, so validation raises `KeyError`. In Fahrenheit
      the handler has already raised `KeyError` itself, which the library's
      read swallows before handing the dictionary on. */
  lemma NegativeIndoorStopsDriver(t: Frame)
    requires |t| >= 15 && t[0] == 1 && t[5] >= 127
    ensures
      var o := Ventus.Run(Empty, [t]);
      && (o.Raised? <==> Ventus.Fahrenheit(t[1]))
      && (o.Raised? ==> o.error == KeyError(IndoorTemperature))
      && ValidateData(o.acc) == Err(KeyError(IndoorTemperature))
  {
    var o1 := Ventus.Decode(Empty, t);
    assert [t][1..] == [];
    // the indoor key is absent (`None`), not present and holding `Null`
    assert o1.acc.indoorTemperature == None && o1.acc.degF.Some?;
    if o1.Returned? {
      assert Ventus.Run(Empty, [t]) == Ventus.Run(o1.acc, []);
    }
  }

  /** What the corrected handler leaves after one complete frame of each
      kind on an empty dictionary. */
  lemma IntendedFullSet(t: Frame, p: Frame, w: Frame)
    requires FullSet(t, p, w)
    ensures
      var o := Intended.Run(Empty, [t, p, w]);
      && o.Returned?
      && HasPacketKeys(o.acc)
      && o.acc.windDirection == Some(Num(w[10] as real))
      && o.acc.indoorTemperature == Some(Num(Ventus.InCelsius(Ventus.StationTemperature(t[5], t[6]), Ventus.Fahrenheit(t[1]))))
  {
    var o1 := Intended.DecodeTempHumidity(Empty, t);
    assert Intended.Decode(Empty, t) == o1;
    var o2 := Ventus.DecodePressure(o1.acc, p);
    assert Intended.Decode(o1.acc, p) == o2;
    assert o2.acc.degF.Some? && o2.acc.indoorTemperature == o1.acc.indoorTemperature;
    var o3 := Ventus.DecodeWindRain(o2.acc, w);
    assert Intended.Decode(o2.acc, w) == o3;
    assert o3.Returned?;
    assert [t, p, w][1..] == [p, w] && [p, w][1..] == [w] && [w][1..] == [];
    assert Intended.Run(Empty, [t, p, w]) == Intended.Run(o1.acc, [p, w]);
    assert Intended.Run(o1.acc, [p, w]) == Intended.Run(o2.acc, [w]);
    assert Intended.Run(o2.acc, [w]) == Intended.Run(o3.acc, []);
  }

  /** With the corrected handler, one complete frame of each kind always
      validates, and the packet carries the indoor reading whatever its
      sign. */
  lemma IntendedSessionYieldsPacket(t: Frame, p: Frame, w: Frame, ts: int)
    requires FullSet(t, p, w)
    ensures
      var o := Intended.Run(Empty, [t, p, w]);
      var r := DataToPacket(o.acc, ts);
      && o.Returned?
      && ValidateData(o.acc) == Ok(1)
      && r.Ok?
      && r.value.inTemp == Num(Ventus.InCelsius(Ventus.StationTemperature(t[5], t[6]), Ventus.Fahrenheit(t[1])))
  {
    IntendedFullSet(t, p, w);
  }
}
