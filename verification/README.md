# Ventus W820 weather station: notification decoder and weewx packet builder

This project models the core of the Ventus W820 driver for weewx in Dafny. The core has two parts:

- **The notification handler** of the companion BLE library (`w820Delegate.handleNotification` in `ventus.py`). The station answers a data request with three notifications:
  - type 1: temperature and humidity;
  - type 2: barometric pressure;
  - type 3: rain, wind and UV.

  The handler decodes each payload and writes metric values into one module-level dictionary.
- **The two static helpers of the weewx driver** (`Station.validate_data` and `Station.data_to_packet` in `ventusw820.py`). They decide whether that dictionary is worth a packet, then rename and rescale it into a weewx loop packet.

The Python dictionary is the record `Accumulator.SensorData`, with one slot per key. A slot distinguishes three states:

- the key is absent (reading it raises `KeyError`);
- the key holds Python's `None`;
- the key holds a number.

Numbers are exact reals. The dictionary is passed in and returned rather than living in a global.

A Python exception is an `Outcome.Raised` that carries the dictionary with every write done before the exception. So the model covers:

- a short payload that raises `IndexError` part-way through a type-1 frame;
- a Fahrenheit frame whose stale indoor value is missing (`KeyError`) or `None` (`TypeError`);
- a wind frame that reads a `degF` key no temperature frame has written yet.

The bit tests on byte 1 are written with `/` and `%`. `Ventus.SelectorsAreMasks` proves they equal the handler's `&` masks, with Python's `&` modelled bit by bit as `Bytes.And`.

Modules:

- `Bytes`: payload bytes, `&`, big-endian 16- and 24-bit words.
- `Accumulator`: the dictionary, the errors, and the agreement predicates.
- `Ventus`: the handler, frame by frame. `Ventus.Run` handles a sequence of notifications up to the first exception, as the library's `read` does.
- `VentusProperties`: properties that relate several calls.
- `Driver`: validation, packet building, and one pass of the polling loop.
- `Intended`: the type-1 frame with the defect below corrected.
- `Session`: an empty dictionary, decoded frames, validation and packet, end to end.

Three plausible assumptions about the handler do not hold; the model follows the code:

- A malformed (short) payload is not rejected as a whole. The handler writes whatever it decoded before the first out-of-range index, and the model keeps those writes.
- Frames do not commute in general. A type-3 frame reads the `degF` flag a type-1 frame writes (`VentusProperties.TempAndWindFramesDoNotCommute`). A complete pressure frame commutes with any non-raising frame of another kind (`VentusProperties.PressureFrameCommutes`), while a temperature frame and a wind frame can fail to commute.
- Outdoor temperatures do not span ±3276.7. A high byte of 127 takes the negative branch, so decoded temperatures run from -3302.3 to 3251.1 (`Ventus.StationTemperature`).

## Model

| member | source | states |
|---|---|---|
| `Bytes.And` | ventus.py:44-51 | Python's `&` on non-negative integers is at most each operand |
| `Bytes.BE16Splits` | ventus.py:58 | a big-endian 16-bit magnitude splits back into its high and low byte |
| `Bytes.BE24Splits` | ventus.py:77-78 | a big-endian 24-bit magnitude splits back into its three bytes |
| `Ventus.PressureUnit` | ventus.py:55-57 | the pressure selector `(b1 & 6) >> 1` is clamped to at most 2 |
| `Ventus.WindUnit` | ventus.py:71-73 | the wind selector `(b1 & 14) >> 1` is clamped to at most 4 (Beaufort) |
| `Ventus.SelectorsAreMasks` | ventus.py:44-73 | the Fahrenheit, low-battery, pressure, rain and wind selectors equal the handler's mask-and-shift expressions on byte 1 |
| `Ventus.StationTemperature` | ventus.py:34-42 | a high byte below 127 gives a reading in [0, 3251.1], otherwise one in [-3302.3, 0]; ten times the reading is the 16-bit word, or the word minus 65535 from 0x7F00 up |
| `Ventus.FahrenheitToCelsius` | ventus.py:45-46 | the result converts back to the input by `c * 1.8 + 32`, and the conversion fixes only -40 |
| `Ventus.PressureHpa` | ventus.py:59-64 | units 0 and 1 divide the raw count by 10; unit 2 (inches of mercury) multiplies it by 0.338639 |
| `Ventus.RainMm` | ventus.py:66-70 | a rain count is 0.254 mm per count in inch mode and a tenth of a millimetre otherwise |
| `Ventus.ConvertToCelsius` | ventus.py:44-47 | a missing indoor temperature raises `KeyError` and a `None` one `TypeError`, with nothing written; otherwise both temperatures are converted from Fahrenheit, `degF` becomes 1, and no other key changes |
| `Ventus.DecodeTempHumidity` | ventus.py:32-51 | frame type 1 writes only its own six keys. It raises `IndexError` exactly when shorter than 15 bytes, and keeps the writes made before the cut: `degF` 0 always, then indoor temperature (high byte below 127) or outdoor temperature (127 and up) from 7 bytes, indoor humidity from 8, outdoor temperature from bytes 12-13 at 14; `lowBat` and the unread keys stay as they were. A complete frame gives outdoor temperature and both humidities; when it raises, `degF` is 0, `lowBat` unchanged and outdoor temperature unconverted. Indoor temperature is fresh only for a high byte below 127 and is stale otherwise. `degF` and `lowBat` are flags. A stale Fahrenheit reading raises `KeyError` or `TypeError` |
| `Ventus.DecodePressure` | ventus.py:54-64 | frame type 2 raises `IndexError` with nothing written below 5 bytes, and otherwise writes only `airPressure`, scaled by selector |
| `Ventus.ConvertWind` | ventus.py:83-95 | a non-km/h wind unit first writes the nominal speed; a missing `degF` then raises `KeyError`, `degF` 0 applies the quirk factor, anything else keeps the nominal speed |
| `Ventus.ConvertWindUnit` | ventus.py:82-95 | the wind branch raises exactly for units 1-3 without `degF`. It changes only `windSpeed`, to the table's km/h value with the quirk applied exactly when `degF` holds 0 |
| `Ventus.DecodeWindRain` | ventus.py:65-95 | frame type 3 raises `IndexError` with nothing written below 19 bytes. Otherwise it writes UV, the four rain totals with one factor, wind chill in tenths, raw wind direction, and wind speed by unit. Nothing else changes |
| `Ventus.Decode` | ventus.py:29-95 | dispatch on byte 0. An empty payload raises `IndexError`. An unknown kind changes nothing. Only the frame kind's keys change, keys are never removed, `None` is never written, and `degF`/`lowBat` stay flags. `IndexError` is raised exactly for incomplete payloads |
| `Ventus.Run` | ventus.py:114-129 | a sequence of notifications never removes a key, never writes `None`, and keeps `degF` and `lowBat` flags |
| `VentusProperties.PressureSelectorsPairUp` | ventus.py:55-64 | pressure selectors 0 and 1 decode alike, and so do 2 and 3 |
| `VentusProperties.RainSharesOneFactor` | ventus.py:66-78 | all four rain totals of one frame use the same factor, 0.254 or 0.1 |
| `VentusProperties.WindSpeedByUnit` | ventus.py:74-95 | wind speed per unit: km/h tenths, mph/m/s/knots converted and quirk-scaled under Celsius, Beaufort unscaled, and `KeyError` for units 1-3 without `degF` |
| `VentusProperties.DecodeIgnoresPressure` | ventus.py:32-95 | type-1 and type-3 frames neither read nor write `airPressure` |
| `VentusProperties.PressureFrameCommutes` | ventus.py:54-64 | a complete pressure frame and a non-raising frame of another kind give the same run in either order |
| `VentusProperties.TempAndWindFramesDoNotCommute` | ventus.py:33-47 | a Fahrenheit temperature frame and an mph wind frame give different wind speeds in the two orders |
| `VentusProperties.PressureAndWindRainIdempotent` | ventus.py:54-95 | decoding a pressure or wind/rain frame twice is decoding it once |
| `VentusProperties.TempHumidityIdempotent` | ventus.py:32-51 | a complete temperature frame is idempotent when its indoor reading is non-negative or the station is in Celsius |
| `VentusProperties.StaleIndoorConvertedTwice` | ventus.py:36-46 | a repeated Fahrenheit frame with a negative indoor reading converts the old indoor value again (50 becomes 10, then -12.22) |
| `VentusProperties.RunKeepsUnwrittenKeys` | ventus.py:114-129 | a key no frame of a run writes keeps its value through the run |
| `VentusProperties.CompleteRunNoIndexError` | ventus.py:29-95 | a run of complete payloads never raises `IndexError` |
| `Accumulator.IsEmptyMeansNoKeys` | ventusw820.py:108 | the empty dictionary is the one without keys |
| `Driver.ValidateData` | ventusw820.py:105-111 | 1 exactly for a numeric indoor temperature. 0 exactly for an empty dictionary or a `None` indoor temperature. `KeyError` exactly for a non-empty dictionary without the key |
| `Driver.FirstMissing` | ventusw820.py:131-150 | the position of the first absent key in lookup order: every earlier key is present, and the one found is absent |
| `Driver.WindDegrees` | ventusw820.py:138-145 | wind direction in degrees is 22.5 times the compass point while the speed is truthy, `None` otherwise, and `TypeError` for a `None` point |
| `Driver.DataToPacket` | ventusw820.py:113-165 | a packet exactly when all nine keys are present and the wind direction converts. Otherwise it gives the first exception in evaluation order: the `KeyError` of the first absent key among the eight leading lookups, else `TypeError` for a truthy wind speed with a `None` direction (whether or not total rain is present), else `KeyError` for absent total rain; each of these cases is stated as an implication from its condition to its exception. Values are copied under weewx names, the wind direction is in degrees, gusts are `None`, and total rain is in centimetres |
| `Driver.WindConversionBeforeRainLookup` | ventusw820.py:138-150 | a dictionary with a truthy wind speed, a `None` direction and no total rain raises `TypeError`, not `KeyError` |
| `Driver.Poll` | ventusw820.py:70-77 | one pass of the polling loop: no packet exactly when validation gives 0. A packet is yielded only after validation gives 1, and it is exactly the packet `data_to_packet` builds, with a numeric indoor temperature and the given timestamp. It raises exactly when validation or packet building raises, with validation's exception if validation raises and otherwise packet building's |
| `Driver.FailedReadingIsSkipped` | ventusw820.py:85-111 | the dictionary a failed BLE read leaves (`indoorTemperature` `None`) produces no packet and no exception |
| `Intended.DecodeTempHumidity` | ventus.py:32-51 | the corrected type-1 frame raises exactly when shorter than 15 bytes. A complete frame writes all six keys from the frame alone, with indoor temperature from bytes 5-6 whatever its sign |
| `Intended.Decode` | ventus.py:29-95 | corrected dispatch: only the frame kind's keys change, and `IndexError` is raised exactly for incomplete payloads |
| `Intended.AgreesWithLibrary` | ventus.py:34-35 | the correction changes nothing for frames shorter than 7 bytes (they end before the indoor reading) or with a non-negative indoor reading |
| `Intended.ForgetsHistory` | ventus.py:32-51 | a complete corrected type-1 frame gives the same six values whatever the dictionary held before |
| `Intended.Idempotent` | ventus.py:32-51 | every corrected type-1 frame is idempotent |
| `Intended.NegativeIndoorLost` | ventus.py:36-37 | a Celsius frame reading -1.0 indoors leaves the library's indoor key absent, while the corrected frame stores -1.0 |
| `Session.LibraryFullSet` | ventus.py:29-95 | one complete frame of each kind with a non-negative indoor reading, decoded from empty, returns. It leaves every key the packet needs, with the decoded temperatures in Celsius and the total rain in millimetres |
| `Session.IntendedFullSet` | ventus.py:29-95 | with the corrected handler, one complete frame of each kind decoded from empty always returns. It leaves every key the packet needs and the indoor reading whatever its sign |
| `Session.FullSessionYieldsPacket` | ventusw820.py:70-77 | one complete frame of each kind with a non-negative indoor reading, decoded from empty, validates. The packet carries the decoded temperatures in Celsius and the total rain in centimetres |
| `Session.NegativeIndoorStopsDriver` | ventusw820.py:72-73 | a negative indoor reading on a fresh dictionary makes validation raise `KeyError`. In Fahrenheit the handler has raised `KeyError` first |
| `Session.IntendedSessionYieldsPacket` | ventus.py:36-37 | with the corrected handler, one complete frame of each kind always validates, and the packet carries the indoor reading whatever its sign |

## Left out

- BLE I/O is not modelled: connecting, enabling notifications, requesting data, acknowledging, waiting and disconnecting (`ventus.py:97-136`). `Ventus.Run` stands for the notifications one `read` receives. An exception ends the run, and the dictionary is handed on as it stands.
- The driver's loop mechanics are not modelled: `get_readings`, the timestamp from the clock, `last_rain` and sleeping, configuration, the conf editor and logging. `Driver.Poll` takes the dictionary and the timestamp as parameters. `Driver.FailedReading` is the dictionary a failed read returns.
- The library's dictionary is a module-level global that persists across reads. Here it is a parameter, so a session starts from any dictionary the caller passes, including `Accumulator.Empty`.
- The packet's `rain` field is left out. It comes from `weewx.wxformulas.calculate_rain`, which is not part of this model. So is the `usUnits` field (the constant `weewx.METRIC`).
- The "invalid wind reading" branch of `data_to_packet` (`ventusw820.py:142-145`) is not modelled. The overflow and invalid flags are the constants 0, so the branch is dead.
- Lines ventus.py:58 and ventus.py:74 mix tabs and spaces. Both are read at the level of their neighbouring statements, as Python 2's 8-column tabs place them: the pressure count is always written, and so is the UV index.
- Floating point is not modelled. Values are exact reals, so IEEE rounding of `/ 10.0`, `* 0.338639`, `* 0.1 * 1.60934` and the like is absent. Integers and floats share one numeric `Value`: no modelled operation tells an int from a float, because every division is by a float constant.
- `Ventus.Run`'s contract is stated per run of frames. It does not name the frame at which a run stops.
- `Intended.Run` carries no contract of its own. The end-to-end property of the corrected handler is `Session.IntendedSessionYieldsPacket`.

## Findings

| source | as written | input that shows it | evidently intended | confidence | as-written member | corrected member |
|---|---|---|---|---|---|---|
| ventus.py:37 | a negative indoor temperature is written under `outdoorTemperature`, which line 40-42 then overwrites. The indoor key keeps its old value, or stays absent, and the driver's validation then raises `KeyError` | payload `[1,0,0,0,0,255,245,40,0,0,0,0,0,200,60]` on an empty dictionary | `indoorTemperature` = -1.0 | not executed | `Intended.NegativeIndoorLost` (on `Ventus.DecodeTempHumidity`) | `Intended.DecodeTempHumidity` |

The library as written stays the main model (`Ventus`), because the driver is composed with the library as it is. `Session.NegativeIndoorStopsDriver` shows the defect's effect on the driver. `Session.IntendedSessionYieldsPacket` proves the intended end-to-end property for the corrected handler.
