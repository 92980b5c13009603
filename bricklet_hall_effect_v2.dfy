/**
 * Request, response-expected and callback tables of the Hall Effect Bricklet 2.0 binding.
 * This binding uses the older send_request form without a declared response length.
 */
module HallEffectV2 {
  import opened Wrappers
  import opened WireFormat
  import opened Bindings

  /** Device identifier of this bricklet (src/brickv/bindings/bricklet_hall_effect_v2.py:32). */
  const DEVICE_IDENTIFIER: int := 2132

  const CALLBACK_MAGNETIC_FLUX_DENSITY: int := 4
  const CALLBACK_COUNTER: int := 10

  // One constant per send_request call, named after the binding method that makes it.
  const GetMagneticFluxDensity := Request(1, End, None, Then(Tok(1, I16), End)) // line 126
  const SetMagneticFluxDensityCallbackConfiguration := Request(2, Then(Tok(1, U32), Then(Tok(1, Bool), Then(Tok(1, Char), Then(Tok(1, I16), Then(Tok(1, I16), End))))), None, End) // line 166
  const GetMagneticFluxDensityCallbackConfiguration := Request(3, End, None, Then(Tok(1, U32), Then(Tok(1, Bool), Then(Tok(1, Char), Then(Tok(1, I16), Then(Tok(1, I16), End)))))) // line 172
  const GetCounter := Request(5, Then(Tok(1, Bool), End), None, Then(Tok(1, U32), End)) // line 190
  const SetCounterConfig := Request(6, Then(Tok(1, I16), Then(Tok(1, I16), Then(Tok(1, U32), End))), None, End) // line 211
  const GetCounterConfig := Request(7, End, None, Then(Tok(1, I16), Then(Tok(1, I16), Then(Tok(1, U32), End)))) // line 217
  const SetCounterCallbackConfiguration := Request(8, Then(Tok(1, U32), Then(Tok(1, Bool), End)), None, End) // line 236
  const GetCounterCallbackConfiguration := Request(9, End, None, Then(Tok(1, U32), Then(Tok(1, Bool), End))) // line 243
  const GetSpitfpErrorCount := Request(234, End, None, Then(Tok(1, U32), Then(Tok(1, U32), Then(Tok(1, U32), Then(Tok(1, U32), End))))) // line 259
  const SetBootloaderMode := Request(235, Then(Tok(1, U8), End), None, Then(Tok(1, U8), End)) // line 275
  const GetBootloaderMode := Request(236, End, None, Then(Tok(1, U8), End)) // line 281
  const SetWriteFirmwarePointer := Request(237, Then(Tok(1, U32), End), None, End) // line 294
  const WriteFirmware := Request(238, Then(Tok(64, U8), End), None, Then(Tok(1, U8), End)) // line 309
  const SetStatusLedConfig := Request(239, Then(Tok(1, U8), End), None, End) // line 323
  const GetStatusLedConfig := Request(240, End, None, Then(Tok(1, U8), End)) // line 329
  const GetChipTemperature := Request(242, End, None, Then(Tok(1, I16), End)) // line 340
  const Reset := Request(243, End, None, End) // line 351
  const WriteUid := Request(248, Then(Tok(1, U32), End), None, End) // line 363
  const ReadUid := Request(249, End, None, Then(Tok(1, U32), End)) // line 370
  const GetIdentity := Request(255, End, None, Then(Tok(8, Str), Then(Tok(8, Str), Then(Tok(1, Char), Then(Tok(3, U8), Then(Tok(3, U8), Then(Tok(1, U16), End))))))) // line 383

  /** The response_expected entry the constructor sets for an id, if any. */
  function ExpectedOf(id: int): Option<ResponseExpected>
  {
    match id
    case 1 => Some(AlwaysTrue) // line 91
    case 2 => Some(True) // line 92
    case 3 => Some(AlwaysTrue) // line 93
    case 5 => Some(AlwaysTrue) // line 94
    case 6 => Some(False) // line 95
    case 7 => Some(AlwaysTrue) // line 96
    case 8 => Some(True) // line 97
    case 9 => Some(AlwaysTrue) // line 98
    case 234 => Some(AlwaysTrue) // line 99
    case 235 => Some(AlwaysTrue) // line 100
    case 236 => Some(AlwaysTrue) // line 101
    case 237 => Some(False) // line 102
    case 238 => Some(AlwaysTrue) // line 103
    case 239 => Some(False) // line 104
    case 240 => Some(AlwaysTrue) // line 105
    case 242 => Some(AlwaysTrue) // line 106
    case 243 => Some(False) // line 107
    case 248 => Some(False) // line 108
    case 249 => Some(AlwaysTrue) // line 109
    case 255 => Some(AlwaysTrue) // line 110
    case _ => None
  }

  /** The response_expected dictionary the constructor fills; function ids are single bytes. */
  function ResponseExpectedTable(): map<int, ResponseExpected>
  {
    map id | 0 <= id < 256 && ExpectedOf(id).Some? :: ExpectedOf(id).value
  }

  /** The callback_formats entries set by the constructor. */
  function CallbackFormats(): map<int, CallbackFormat>
  {
    map[ CALLBACK_MAGNETIC_FLUX_DENSITY := CallbackFormat(None, Then(Tok(1, I16), End)),
         CALLBACK_COUNTER := CallbackFormat(None, Then(Tok(1, U32), End)) ]
  }

  /** The constructor: fills the three tables; no callback is registered yet. */
  method Create() returns (d: Device)
    ensures fresh(d) && d.style == PopOnNone && d.registeredCallbacks == map[]
    ensures d.responseExpected == ResponseExpectedTable() && d.callbackFormats == CallbackFormats()
    ensures d.highLevelCallbacks == map[]
  {
    d := new Device(ResponseExpectedTable(), CallbackFormats(), map[], PopOnNone);
  }

  /** Each function is in the response-expected table, ALWAYS_TRUE exactly when it returns a payload (part 1). */
  lemma ExpectationsAgree1()
    ensures ExpectationAgrees(ExpectedOf(GetMagneticFluxDensity.fid), GetMagneticFluxDensity)
    ensures ExpectationAgrees(ExpectedOf(SetMagneticFluxDensityCallbackConfiguration.fid), SetMagneticFluxDensityCallbackConfiguration)
    ensures ExpectationAgrees(ExpectedOf(GetMagneticFluxDensityCallbackConfiguration.fid), GetMagneticFluxDensityCallbackConfiguration)
    ensures ExpectationAgrees(ExpectedOf(GetCounter.fid), GetCounter)
    ensures ExpectationAgrees(ExpectedOf(SetCounterConfig.fid), SetCounterConfig)
  {
  }

  /** Each function is in the response-expected table, ALWAYS_TRUE exactly when it returns a payload (part 2). */
  lemma ExpectationsAgree2()
    ensures ExpectationAgrees(ExpectedOf(GetCounterConfig.fid), GetCounterConfig)
    ensures ExpectationAgrees(ExpectedOf(SetCounterCallbackConfiguration.fid), SetCounterCallbackConfiguration)
    ensures ExpectationAgrees(ExpectedOf(GetCounterCallbackConfiguration.fid), GetCounterCallbackConfiguration)
    ensures ExpectationAgrees(ExpectedOf(GetSpitfpErrorCount.fid), GetSpitfpErrorCount)
    ensures ExpectationAgrees(ExpectedOf(SetBootloaderMode.fid), SetBootloaderMode)
  {
  }

  /** Each function is in the response-expected table, ALWAYS_TRUE exactly when it returns a payload (part 3). */
  lemma ExpectationsAgree3()
    ensures ExpectationAgrees(ExpectedOf(GetBootloaderMode.fid), GetBootloaderMode)
    ensures ExpectationAgrees(ExpectedOf(SetWriteFirmwarePointer.fid), SetWriteFirmwarePointer)
    ensures ExpectationAgrees(ExpectedOf(WriteFirmware.fid), WriteFirmware)
    ensures ExpectationAgrees(ExpectedOf(SetStatusLedConfig.fid), SetStatusLedConfig)
    ensures ExpectationAgrees(ExpectedOf(GetStatusLedConfig.fid), GetStatusLedConfig)
  {
  }

  /** Each function is in the response-expected table, ALWAYS_TRUE exactly when it returns a payload (part 4). */
  lemma ExpectationsAgree4()
    ensures ExpectationAgrees(ExpectedOf(GetChipTemperature.fid), GetChipTemperature)
    ensures ExpectationAgrees(ExpectedOf(Reset.fid), Reset)
    ensures ExpectationAgrees(ExpectedOf(WriteUid.fid), WriteUid)
    ensures ExpectationAgrees(ExpectedOf(ReadUid.fid), ReadUid)
    ensures ExpectationAgrees(ExpectedOf(GetIdentity.fid), GetIdentity)
  {
  }

  /** The dictionary holds exactly the ids the constructor assigns. */
  lemma TableKeys()
    ensures forall id :: id in ResponseExpectedTable() <==> ExpectedOf(id).Some?
    ensures forall id | id in ResponseExpectedTable() :: ResponseExpectedTable()[id] == ExpectedOf(id).value
  {
  }

  /** The ids flagged TRUE (acknowledged only on request) are exactly these setters, none of which returns a payload; no id is flagged ALWAYS_FALSE. */
  lemma AcknowledgedSetters()
    ensures forall id :: ExpectedOf(id) == Some(True) <==> id == SetMagneticFluxDensityCallbackConfiguration.fid || id == SetCounterCallbackConfiguration.fid
    ensures !ReturnsPayload(SetMagneticFluxDensityCallbackConfiguration)
    ensures !ReturnsPayload(SetCounterCallbackConfiguration)
    ensures forall id :: ExpectedOf(id) == Some(AlwaysFalse) <==> false
  {
  }

  /** Each setter sends exactly the format its getter returns. */
  lemma SetGetFormatsMirror()
    ensures SetMagneticFluxDensityCallbackConfiguration.reqFormat == GetMagneticFluxDensityCallbackConfiguration.respFormat && GetMagneticFluxDensityCallbackConfiguration.reqFormat == End
    ensures SetCounterConfig.reqFormat == GetCounterConfig.respFormat && GetCounterConfig.reqFormat == End
    ensures SetCounterCallbackConfiguration.reqFormat == GetCounterCallbackConfiguration.respFormat && GetCounterCallbackConfiguration.reqFormat == End
    ensures SetBootloaderMode.reqFormat == GetBootloaderMode.respFormat && GetBootloaderMode.reqFormat == End
    ensures SetStatusLedConfig.reqFormat == GetStatusLedConfig.respFormat && GetStatusLedConfig.reqFormat == End
  {
  }
}
