/**
 * Request, response-expected and callback tables of the Barometer Bricklet 2.0 binding.
 * This binding uses the older send_request form without a declared response length.
 */
module BarometerV2 {
  import opened Wrappers
  import opened WireFormat
  import opened Bindings

  /** Device identifier of this bricklet (src/brickv/bindings/bricklet_barometer_v2.py:35). */
  const DEVICE_IDENTIFIER: int := 2117

  const CALLBACK_AIR_PRESSURE: int := 4
  const CALLBACK_ALTITUDE: int := 8
  const CALLBACK_TEMPERATURE: int := 12

  // One constant per send_request call, named after the binding method that makes it.
  const GetAirPressure := Request(1, End, None, Then(Tok(1, I32), End)) // line 159
  const SetAirPressureCallbackConfiguration := Request(2, Then(Tok(1, U32), Then(Tok(1, Bool), Then(Tok(1, Char), Then(Tok(1, I32), Then(Tok(1, I32), End))))), None, End) // line 199
  const GetAirPressureCallbackConfiguration := Request(3, End, None, Then(Tok(1, U32), Then(Tok(1, Bool), Then(Tok(1, Char), Then(Tok(1, I32), Then(Tok(1, I32), End)))))) // line 205
  const GetAltitude := Request(5, End, None, Then(Tok(1, I32), End)) // line 219
  const SetAltitudeCallbackConfiguration := Request(6, Then(Tok(1, U32), Then(Tok(1, Bool), Then(Tok(1, Char), Then(Tok(1, I32), Then(Tok(1, I32), End))))), None, End) // line 259
  const GetAltitudeCallbackConfiguration := Request(7, End, None, Then(Tok(1, U32), Then(Tok(1, Bool), Then(Tok(1, Char), Then(Tok(1, I32), Then(Tok(1, I32), End)))))) // line 265
  const GetTemperature := Request(9, End, None, Then(Tok(1, I32), End)) // line 283
  const SetTemperatureCallbackConfiguration := Request(10, Then(Tok(1, U32), Then(Tok(1, Bool), Then(Tok(1, Char), Then(Tok(1, I32), Then(Tok(1, I32), End))))), None, End) // line 323
  const GetTemperatureCallbackConfiguration := Request(11, End, None, Then(Tok(1, U32), Then(Tok(1, Bool), Then(Tok(1, Char), Then(Tok(1, I32), Then(Tok(1, I32), End)))))) // line 329
  const SetMovingAverageConfiguration := Request(13, Then(Tok(1, U16), Then(Tok(1, U16), End)), None, End) // line 349
  const GetMovingAverageConfiguration := Request(14, End, None, Then(Tok(1, U16), Then(Tok(1, U16), End))) // line 356
  const SetReferenceAirPressure := Request(15, Then(Tok(1, I32), End), None, End) // line 374
  const GetReferenceAirPressure := Request(16, End, None, Then(Tok(1, I32), End)) // line 380
  const SetCalibration := Request(17, Then(Tok(1, I32), Then(Tok(1, I32), End)), None, End) // line 395
  const GetCalibration := Request(18, End, None, Then(Tok(1, I32), Then(Tok(1, I32), End))) // line 401
  const SetSensorConfiguration := Request(19, Then(Tok(1, U8), Then(Tok(1, U8), End)), None, End) // line 410
  const GetSensorConfiguration := Request(20, End, None, Then(Tok(1, U8), Then(Tok(1, U8), End))) // line 416
  const GetSpitfpErrorCount := Request(234, End, None, Then(Tok(1, U32), Then(Tok(1, U32), Then(Tok(1, U32), Then(Tok(1, U32), End))))) // line 432
  const SetBootloaderMode := Request(235, Then(Tok(1, U8), End), None, Then(Tok(1, U8), End)) // line 448
  const GetBootloaderMode := Request(236, End, None, Then(Tok(1, U8), End)) // line 454
  const SetWriteFirmwarePointer := Request(237, Then(Tok(1, U32), End), None, End) // line 467
  const WriteFirmware := Request(238, Then(Tok(64, U8), End), None, Then(Tok(1, U8), End)) // line 482
  const SetStatusLedConfig := Request(239, Then(Tok(1, U8), End), None, End) // line 496
  const GetStatusLedConfig := Request(240, End, None, Then(Tok(1, U8), End)) // line 502
  const GetChipTemperature := Request(242, End, None, Then(Tok(1, I16), End)) // line 513
  const Reset := Request(243, End, None, End) // line 524
  const WriteUid := Request(248, Then(Tok(1, U32), End), None, End) // line 536
  const ReadUid := Request(249, End, None, Then(Tok(1, U32), End)) // line 543
  const GetIdentity := Request(255, End, None, Then(Tok(8, Str), Then(Tok(8, Str), Then(Tok(1, Char), Then(Tok(3, U8), Then(Tok(3, U8), Then(Tok(1, U16), End))))))) // line 556

  /** The response_expected entry the constructor sets for an id, if any. */
  function ExpectedOf(id: int): Option<ResponseExpected>
  {
    match id
    case 1 => Some(AlwaysTrue) // line 113
    case 2 => Some(True) // line 114
    case 3 => Some(AlwaysTrue) // line 115
    case 5 => Some(AlwaysTrue) // line 116
    case 6 => Some(True) // line 117
    case 7 => Some(AlwaysTrue) // line 118
    case 9 => Some(AlwaysTrue) // line 119
    case 10 => Some(True) // line 120
    case 11 => Some(AlwaysTrue) // line 121
    case 13 => Some(False) // line 122
    case 14 => Some(AlwaysTrue) // line 123
    case 15 => Some(False) // line 124
    case 16 => Some(AlwaysTrue) // line 125
    case 17 => Some(False) // line 126
    case 18 => Some(AlwaysTrue) // line 127
    case 19 => Some(False) // line 128
    case 20 => Some(AlwaysTrue) // line 129
    case 234 => Some(AlwaysTrue) // line 130
    case 235 => Some(AlwaysTrue) // line 131
    case 236 => Some(AlwaysTrue) // line 132
    case 237 => Some(False) // line 133
    case 238 => Some(AlwaysTrue) // line 134
    case 239 => Some(False) // line 135
    case 240 => Some(AlwaysTrue) // line 136
    case 242 => Some(AlwaysTrue) // line 137
    case 243 => Some(False) // line 138
    case 248 => Some(False) // line 139
    case 249 => Some(AlwaysTrue) // line 140
    case 255 => Some(AlwaysTrue) // line 141
    case _ => None
  }

  /** The response_expected dictionary the constructor fills; function ids are single bytes. */
  function ResponseExpectedTable(): map<int, ResponseExpected>
  {
    map id | 0 <= id < 256 && ExpectedOf(id).Some? :: ExpectedOf(id).value
  }

  /** The callback_formats entries set by the constructor. */
  function CallbackFormats(): map<int, CallbackFormat>
  {
    map[ CALLBACK_AIR_PRESSURE := CallbackFormat(None, Then(Tok(1, I32), End)),
         CALLBACK_ALTITUDE := CallbackFormat(None, Then(Tok(1, I32), End)),
         CALLBACK_TEMPERATURE := CallbackFormat(None, Then(Tok(1, I32), End)) ]
  }

  /** The constructor: fills the three tables; no callback is registered yet. */
  method Create() returns (d: Device)
    ensures fresh(d) && d.style == PopOnNone && d.registeredCallbacks == map[]
    ensures d.responseExpected == ResponseExpectedTable() && d.callbackFormats == CallbackFormats()
    ensures d.highLevelCallbacks == map[]
  {
    d := new Device(ResponseExpectedTable(), CallbackFormats(), map[], PopOnNone);
  }

  /** Each function is in the response-expected table, ALWAYS_TRUE exactly when it returns a payload (part 1). */
  lemma ExpectationsAgree1()
    ensures ExpectationAgrees(ExpectedOf(GetAirPressure.fid), GetAirPressure)
    ensures ExpectationAgrees(ExpectedOf(SetAirPressureCallbackConfiguration.fid), SetAirPressureCallbackConfiguration)
    ensures ExpectationAgrees(ExpectedOf(GetAirPressureCallbackConfiguration.fid), GetAirPressureCallbackConfiguration)
    ensures ExpectationAgrees(ExpectedOf(GetAltitude.fid), GetAltitude)
    ensures ExpectationAgrees(ExpectedOf(SetAltitudeCallbackConfiguration.fid), SetAltitudeCallbackConfiguration)
  {
  }

  /** Each function is in the response-expected table, ALWAYS_TRUE exactly when it returns a payload (part 2). */
  lemma ExpectationsAgree2()
    ensures ExpectationAgrees(ExpectedOf(GetAltitudeCallbackConfiguration.fid), GetAltitudeCallbackConfiguration)
    ensures ExpectationAgrees(ExpectedOf(GetTemperature.fid), GetTemperature)
    ensures ExpectationAgrees(ExpectedOf(SetTemperatureCallbackConfiguration.fid), SetTemperatureCallbackConfiguration)
    ensures ExpectationAgrees(ExpectedOf(GetTemperatureCallbackConfiguration.fid), GetTemperatureCallbackConfiguration)
    ensures ExpectationAgrees(ExpectedOf(SetMovingAverageConfiguration.fid), SetMovingAverageConfiguration)
  {
  }

  /** Each function is in the response-expected table, ALWAYS_TRUE exactly when it returns a payload (part 3). */
  lemma ExpectationsAgree3()
    ensures ExpectationAgrees(ExpectedOf(GetMovingAverageConfiguration.fid), GetMovingAverageConfiguration)
    ensures ExpectationAgrees(ExpectedOf(SetReferenceAirPressure.fid), SetReferenceAirPressure)
    ensures ExpectationAgrees(ExpectedOf(GetReferenceAirPressure.fid), GetReferenceAirPressure)
    ensures ExpectationAgrees(ExpectedOf(SetCalibration.fid), SetCalibration)
    ensures ExpectationAgrees(ExpectedOf(GetCalibration.fid), GetCalibration)
  {
  }

  /** Each function is in the response-expected table, ALWAYS_TRUE exactly when it returns a payload (part 4). */
  lemma ExpectationsAgree4()
    ensures ExpectationAgrees(ExpectedOf(SetSensorConfiguration.fid), SetSensorConfiguration)
    ensures ExpectationAgrees(ExpectedOf(GetSensorConfiguration.fid), GetSensorConfiguration)
    ensures ExpectationAgrees(ExpectedOf(GetSpitfpErrorCount.fid), GetSpitfpErrorCount)
    ensures ExpectationAgrees(ExpectedOf(SetBootloaderMode.fid), SetBootloaderMode)
    ensures ExpectationAgrees(ExpectedOf(GetBootloaderMode.fid), GetBootloaderMode)
  {
  }

  /** Each function is in the response-expected table, ALWAYS_TRUE exactly when it returns a payload (part 5). */
  lemma ExpectationsAgree5()
    ensures ExpectationAgrees(ExpectedOf(SetWriteFirmwarePointer.fid), SetWriteFirmwarePointer)
    ensures ExpectationAgrees(ExpectedOf(WriteFirmware.fid), WriteFirmware)
    ensures ExpectationAgrees(ExpectedOf(SetStatusLedConfig.fid), SetStatusLedConfig)
    ensures ExpectationAgrees(ExpectedOf(GetStatusLedConfig.fid), GetStatusLedConfig)
    ensures ExpectationAgrees(ExpectedOf(GetChipTemperature.fid), GetChipTemperature)
  {
  }

  /** Each function is in the response-expected table, ALWAYS_TRUE exactly when it returns a payload (part 6). */
  lemma ExpectationsAgree6()
    ensures ExpectationAgrees(ExpectedOf(Reset.fid), Reset)
    ensures ExpectationAgrees(ExpectedOf(WriteUid.fid), WriteUid)
    ensures ExpectationAgrees(ExpectedOf(ReadUid.fid), ReadUid)
    ensures ExpectationAgrees(ExpectedOf(GetIdentity.fid), GetIdentity)
  {
  }

  /** The dictionary holds exactly the ids the constructor assigns. */
  lemma TableKeys()
    ensures forall id :: id in ResponseExpectedTable() <==> ExpectedOf(id).Some?
    ensures forall id | id in ResponseExpectedTable() :: ResponseExpectedTable()[id] == ExpectedOf(id).value
  {
  }

  /** The ids flagged TRUE (acknowledged only on request) are exactly these setters, none of which returns a payload; no id is flagged ALWAYS_FALSE. */
  lemma AcknowledgedSetters()
    ensures forall id :: ExpectedOf(id) == Some(True) <==> id == SetAirPressureCallbackConfiguration.fid || id == SetAltitudeCallbackConfiguration.fid || id == SetTemperatureCallbackConfiguration.fid
    ensures !ReturnsPayload(SetAirPressureCallbackConfiguration)
    ensures !ReturnsPayload(SetAltitudeCallbackConfiguration)
    ensures !ReturnsPayload(SetTemperatureCallbackConfiguration)
    ensures forall id :: ExpectedOf(id) == Some(AlwaysFalse) <==> false
  {
  }

  /** Each setter sends exactly the format its getter returns. */
  lemma SetGetFormatsMirror()
    ensures SetAirPressureCallbackConfiguration.reqFormat == GetAirPressureCallbackConfiguration.respFormat && GetAirPressureCallbackConfiguration.reqFormat == End
    ensures SetAltitudeCallbackConfiguration.reqFormat == GetAltitudeCallbackConfiguration.respFormat && GetAltitudeCallbackConfiguration.reqFormat == End
    ensures SetTemperatureCallbackConfiguration.reqFormat == GetTemperatureCallbackConfiguration.respFormat && GetTemperatureCallbackConfiguration.reqFormat == End
    ensures SetMovingAverageConfiguration.reqFormat == GetMovingAverageConfiguration.respFormat && GetMovingAverageConfiguration.reqFormat == End
    ensures SetReferenceAirPressure.reqFormat == GetReferenceAirPressure.respFormat && GetReferenceAirPressure.reqFormat == End
    ensures SetCalibration.reqFormat == GetCalibration.respFormat && GetCalibration.reqFormat == End
    ensures SetSensorConfiguration.reqFormat == GetSensorConfiguration.respFormat && GetSensorConfiguration.reqFormat == End
    ensures SetBootloaderMode.reqFormat == GetBootloaderMode.respFormat && GetBootloaderMode.reqFormat == End
    ensures SetStatusLedConfig.reqFormat == GetStatusLedConfig.respFormat && GetStatusLedConfig.reqFormat == End
  {
  }
}
