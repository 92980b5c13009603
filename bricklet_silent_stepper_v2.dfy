/**
 * Request, response-expected and callback tables of the Silent Stepper Bricklet 2.0 binding.
 */
module SilentStepperV2 {
  import opened Wrappers
  import opened WireFormat
  import opened Bindings

  /** Device identifier of this bricklet (src/brickv/bindings/bricklet_silent_stepper_v2.py:37). */
  const DEVICE_IDENTIFIER: int := 2166

  const CALLBACK_UNDER_VOLTAGE: int := 41
  const CALLBACK_POSITION_REACHED: int := 42
  const CALLBACK_ALL_DATA: int := 53
  const CALLBACK_NEW_STATE: int := 54
  const CALLBACK_GPIO_STATE: int := 55

  // One constant per send_request call, named after the binding method that makes it.
  const SetMaxVelocity := Request(1, Then(Tok(1, U16), End), Some(0), End) // line 270
  const GetMaxVelocity := Request(2, End, Some(10), Then(Tok(1, U16), End)) // line 278
  const GetCurrentVelocity := Request(3, End, Some(10), Then(Tok(1, U16), End)) // line 286
  const SetSpeedRamping := Request(4, Then(Tok(1, U16), Then(Tok(1, U16), End)), Some(0), End) // line 306
  const GetSpeedRamping := Request(5, End, Some(12), Then(Tok(1, U16), Then(Tok(1, U16), End))) // line 315
  const FullBrake := Request(6, End, Some(0), End) // line 330
  const SetCurrentPosition := Request(7, Then(Tok(1, I32), End), Some(0), End) // line 342
  const GetCurrentPosition := Request(8, End, Some(12), Then(Tok(1, I32), End)) // line 354
  const SetTargetPosition := Request(9, Then(Tok(1, I32), End), Some(0), End) // line 372
  const GetTargetPosition := Request(10, End, Some(12), Then(Tok(1, I32), End)) // line 380
  const SetSteps := Request(11, Then(Tok(1, I32), End), Some(0), End) // line 393
  const GetSteps := Request(12, End, Some(12), Then(Tok(1, I32), End)) // line 401
  const GetRemainingSteps := Request(13, End, Some(12), Then(Tok(1, I32), End)) // line 412
  const SetStepConfiguration := Request(14, Then(Tok(1, U8), Then(Tok(1, Bool), End)), Some(0), End) // line 433
  const GetStepConfiguration := Request(15, End, Some(10), Then(Tok(1, U8), Then(Tok(1, Bool), End))) // line 441
  const DriveForward := Request(16, End, Some(0), End) // line 451
  const DriveBackward := Request(17, End, Some(0), End) // line 461
  const Stop := Request(18, End, Some(0), End) // line 470
  const GetInputVoltage := Request(19, End, Some(10), Then(Tok(1, U16), End)) // line 489
  const SetMotorCurrent := Request(22, Then(Tok(1, U16), End), Some(0), End) // line 503
  const GetMotorCurrent := Request(23, End, Some(10), Then(Tok(1, U16), End)) // line 511
  const SetEnabled := Request(24, Then(Tok(1, Bool), End), Some(0), End) // line 530
  const GetEnabled := Request(25, End, Some(9), Then(Tok(1, Bool), End)) // line 538
  const SetBasicConfiguration := Request(26, Then(Tok(1, U16), Then(Tok(1, U16), Then(Tok(1, U16), Then(Tok(1, U16), Then(Tok(1, U16), Then(Tok(1, U16), Then(Tok(1, U16), Then(Tok(1, Bool), End)))))))), Some(0), End) // line 593
  const GetBasicConfiguration := Request(27, End, Some(23), Then(Tok(1, U16), Then(Tok(1, U16), Then(Tok(1, U16), Then(Tok(1, U16), Then(Tok(1, U16), Then(Tok(1, U16), Then(Tok(1, U16), Then(Tok(1, Bool), End))))))))) // line 601
  const SetSpreadcycleConfiguration := Request(28, Then(Tok(1, U8), Then(Tok(1, Bool), Then(Tok(1, U8), Then(Tok(1, U8), Then(Tok(1, I8), Then(Tok(1, I8), Then(Tok(1, U8), Then(Tok(1, U8), Then(Tok(1, Bool), End))))))))), Some(0), End) // line 657
  const GetSpreadcycleConfiguration := Request(29, End, Some(17), Then(Tok(1, U8), Then(Tok(1, Bool), Then(Tok(1, U8), Then(Tok(1, U8), Then(Tok(1, I8), Then(Tok(1, I8), Then(Tok(1, U8), Then(Tok(1, U8), Then(Tok(1, Bool), End)))))))))) // line 665
  const SetStealthConfiguration := Request(30, Then(Tok(1, Bool), Then(Tok(1, U8), Then(Tok(1, U8), Then(Tok(1, Bool), Then(Tok(1, Bool), Then(Tok(1, U8), End)))))), Some(0), End) // line 702
  const GetStealthConfiguration := Request(31, End, Some(14), Then(Tok(1, Bool), Then(Tok(1, U8), Then(Tok(1, U8), Then(Tok(1, Bool), Then(Tok(1, Bool), Then(Tok(1, U8), End))))))) // line 710
  const SetCoolstepConfiguration := Request(32, Then(Tok(1, U8), Then(Tok(1, U8), Then(Tok(1, U8), Then(Tok(1, U8), Then(Tok(1, U8), Then(Tok(1, I8), Then(Tok(1, U8), End))))))), Some(0), End) // line 752
  const GetCoolstepConfiguration := Request(33, End, Some(15), Then(Tok(1, U8), Then(Tok(1, U8), Then(Tok(1, U8), Then(Tok(1, U8), Then(Tok(1, U8), Then(Tok(1, I8), Then(Tok(1, U8), End)))))))) // line 760
  const SetMiscConfiguration := Request(34, Then(Tok(1, Bool), Then(Tok(1, U8), End)), Some(0), End) // line 783
  const GetMiscConfiguration := Request(35, End, Some(10), Then(Tok(1, Bool), Then(Tok(1, U8), End))) // line 791
  const SetErrorLedConfig := Request(36, Then(Tok(1, U8), End), Some(0), End) // line 809
  const GetErrorLedConfig := Request(37, End, Some(9), Then(Tok(1, U8), End)) // line 817
  const GetDriverStatus := Request(38, End, Some(16), Then(Tok(1, U8), Then(Tok(1, U8), Then(Tok(1, U8), Then(Tok(1, Bool), Then(Tok(1, U8), Then(Tok(1, Bool), Then(Tok(1, U8), Then(Tok(1, U8), End))))))))) // line 851
  const SetMinimumVoltage := Request(39, Then(Tok(1, U16), End), Some(0), End) // line 866
  const GetMinimumVoltage := Request(40, End, Some(10), Then(Tok(1, U16), End)) // line 874
  const SetTimeBase := Request(43, Then(Tok(1, U32), End), Some(0), End) // line 889
  const GetTimeBase := Request(44, End, Some(12), Then(Tok(1, U32), End)) // line 897
  const GetAllData := Request(45, End, Some(22), Then(Tok(1, U16), Then(Tok(1, I32), Then(Tok(1, I32), Then(Tok(1, U16), Then(Tok(1, U16), End)))))) // line 917
  const SetAllCallbackConfiguration := Request(46, Then(Tok(1, U32), End), Some(0), End) // line 928
  const GetAllDataCallbackConfiguraton := Request(47, End, Some(12), Then(Tok(1, U32), End)) // line 936
  const SetGpioConfiguration := Request(48, Then(Tok(1, U8), Then(Tok(1, U16), Then(Tok(1, U16), End))), Some(0), End) // line 950
  const GetGpioConfiguration := Request(49, Then(Tok(1, U8), End), Some(12), Then(Tok(1, U16), Then(Tok(1, U16), End))) // line 960
  const SetGpioAction := Request(50, Then(Tok(1, U8), Then(Tok(1, U32), End)), Some(0), End) // line 979
  const GetGpioAction := Request(51, Then(Tok(1, U8), End), Some(12), Then(Tok(1, U32), End)) // line 989
  const GetGpioState := Request(52, End, Some(9), Then(Tok(2, Bool), End)) // line 998
  const GetSpitfpErrorCount := Request(234, End, Some(24), Then(Tok(1, U32), Then(Tok(1, U32), Then(Tok(1, U32), Then(Tok(1, U32), End))))) // line 1016
  const SetBootloaderMode := Request(235, Then(Tok(1, U8), End), Some(9), Then(Tok(1, U8), End)) // line 1034
  const GetBootloaderMode := Request(236, End, Some(9), Then(Tok(1, U8), End)) // line 1042
  const SetWriteFirmwarePointer := Request(237, Then(Tok(1, U32), End), Some(0), End) // line 1057
  const WriteFirmware := Request(238, Then(Tok(64, U8), End), Some(9), Then(Tok(1, U8), End)) // line 1074
  const SetStatusLedConfig := Request(239, Then(Tok(1, U8), End), Some(0), End) // line 1090
  const GetStatusLedConfig := Request(240, End, Some(9), Then(Tok(1, U8), End)) // line 1098
  const GetChipTemperature := Request(242, End, Some(10), Then(Tok(1, I16), End)) // line 1111
  const Reset := Request(243, End, Some(0), End) // line 1124
  const WriteUid := Request(248, Then(Tok(1, U32), End), Some(0), End) // line 1138
  const ReadUid := Request(249, End, Some(12), Then(Tok(1, U32), End)) // line 1147
  const GetIdentity := Request(255, End, Some(33), Then(Tok(8, Str), Then(Tok(8, Str), Then(Tok(1, Char), Then(Tok(3, U8), Then(Tok(3, U8), Then(Tok(1, U16), End))))))) // line 1162

  /** The response_expected entry the constructor sets for an id, if any. */
  function ExpectedOf(id: int): Option<ResponseExpected>
  {
    match id
    case 1 => Some(False) // line 189
    case 2 => Some(AlwaysTrue) // line 190
    case 3 => Some(AlwaysTrue) // line 191
    case 4 => Some(False) // line 192
    case 5 => Some(AlwaysTrue) // line 193
    case 6 => Some(False) // line 194
    case 7 => Some(False) // line 195
    case 8 => Some(AlwaysTrue) // line 196
    case 9 => Some(False) // line 197
    case 10 => Some(AlwaysTrue) // line 198
    case 11 => Some(False) // line 199
    case 12 => Some(AlwaysTrue) // line 200
    case 13 => Some(AlwaysTrue) // line 201
    case 14 => Some(False) // line 202
    case 15 => Some(AlwaysTrue) // line 203
    case 16 => Some(False) // line 204
    case 17 => Some(False) // line 205
    case 18 => Some(False) // line 206
    case 19 => Some(AlwaysTrue) // line 207
    case 22 => Some(False) // line 208
    case 23 => Some(AlwaysTrue) // line 209
    case 24 => Some(False) // line 210
    case 25 => Some(AlwaysTrue) // line 211
    case 26 => Some(False) // line 212
    case 27 => Some(AlwaysTrue) // line 213
    case 28 => Some(False) // line 214
    case 29 => Some(AlwaysTrue) // line 215
    case 30 => Some(False) // line 216
    case 31 => Some(AlwaysTrue) // line 217
    case 32 => Some(False) // line 218
    case 33 => Some(AlwaysTrue) // line 219
    case 34 => Some(False) // line 220
    case 35 => Some(AlwaysTrue) // line 221
    case 36 => Some(False) // line 222
    case 37 => Some(AlwaysTrue) // line 223
    case 38 => Some(AlwaysTrue) // line 224
    case 39 => Some(True) // line 225
    case 40 => Some(AlwaysTrue) // line 226
    case 43 => Some(False) // line 227
    case 44 => Some(AlwaysTrue) // line 228
    case 45 => Some(AlwaysTrue) // line 229
    case 46 => Some(True) // line 230
    case 47 => Some(AlwaysTrue) // line 231
    case 48 => Some(False) // line 232
    case 49 => Some(AlwaysTrue) // line 233
    case 50 => Some(False) // line 234
    case 51 => Some(AlwaysTrue) // line 235
    case 52 => Some(AlwaysTrue) // line 236
    case 234 => Some(AlwaysTrue) // line 237
    case 235 => Some(AlwaysTrue) // line 238
    case 236 => Some(AlwaysTrue) // line 239
    case 237 => Some(False) // line 240
    case 238 => Some(AlwaysTrue) // line 241
    case 239 => Some(False) // line 242
    case 240 => Some(AlwaysTrue) // line 243
    case 242 => Some(AlwaysTrue) // line 244
    case 243 => Some(False) // line 245
    case 248 => Some(False) // line 246
    case 249 => Some(AlwaysTrue) // line 247
    case 255 => Some(AlwaysTrue) // line 248
    case _ => None
  }

  /** The response_expected dictionary the constructor fills; function ids are single bytes. */
  function ResponseExpectedTable(): map<int, ResponseExpected>
  {
    map id | 0 <= id < 256 && ExpectedOf(id).Some? :: ExpectedOf(id).value
  }

  /** The callback_formats entries set by the constructor. */
  function CallbackFormats(): map<int, CallbackFormat>
  {
    map[ CALLBACK_UNDER_VOLTAGE := CallbackFormat(Some(10), Then(Tok(1, U16), End)),
         CALLBACK_POSITION_REACHED := CallbackFormat(Some(12), Then(Tok(1, I32), End)),
         CALLBACK_ALL_DATA := CallbackFormat(Some(22), Then(Tok(1, U16), Then(Tok(1, I32), Then(Tok(1, I32), Then(Tok(1, U16), Then(Tok(1, U16), End)))))),
         CALLBACK_NEW_STATE := CallbackFormat(Some(10), Then(Tok(1, U8), Then(Tok(1, U8), End))),
         CALLBACK_GPIO_STATE := CallbackFormat(Some(9), Then(Tok(2, Bool), End)) ]
  }

  /** The constructor: fills the three tables; no callback is registered yet. */
  method Create() returns (d: Device)
    ensures fresh(d) && d.style == PopOnNone && d.registeredCallbacks == map[]
    ensures d.responseExpected == ResponseExpectedTable() && d.callbackFormats == CallbackFormats()
    ensures d.highLevelCallbacks == map[]
  {
    d := new Device(ResponseExpectedTable(), CallbackFormats(), map[], PopOnNone);
  }

  /** Each declared response length is 0 with no payload, or 8 plus the packed response format (part 1). */
  lemma DeclaredLengths1()
    ensures LengthAgrees(SetMaxVelocity)
    ensures LengthAgrees(GetMaxVelocity)
    ensures LengthAgrees(GetCurrentVelocity)
    ensures LengthAgrees(SetSpeedRamping)
    ensures LengthAgrees(GetSpeedRamping)
    ensures LengthAgrees(FullBrake)
  {
  }

  /** Each declared response length is 0 with no payload, or 8 plus the packed response format (part 2). */
  lemma DeclaredLengths2()
    ensures LengthAgrees(SetCurrentPosition)
    ensures LengthAgrees(GetCurrentPosition)
    ensures LengthAgrees(SetTargetPosition)
    ensures LengthAgrees(GetTargetPosition)
    ensures LengthAgrees(SetSteps)
    ensures LengthAgrees(GetSteps)
  {
  }

  /** Each declared response length is 0 with no payload, or 8 plus the packed response format (part 3). */
  lemma DeclaredLengths3()
    ensures LengthAgrees(GetRemainingSteps)
    ensures LengthAgrees(SetStepConfiguration)
    ensures LengthAgrees(GetStepConfiguration)
    ensures LengthAgrees(DriveForward)
    ensures LengthAgrees(DriveBackward)
    ensures LengthAgrees(Stop)
  {
  }

  /** Each declared response length is 0 with no payload, or 8 plus the packed response format (part 4). */
  lemma DeclaredLengths4()
    ensures LengthAgrees(GetInputVoltage)
    ensures LengthAgrees(SetMotorCurrent)
    ensures LengthAgrees(GetMotorCurrent)
    ensures LengthAgrees(SetEnabled)
    ensures LengthAgrees(GetEnabled)
    ensures LengthAgrees(SetBasicConfiguration)
  {
  }

  /** Each declared response length is 0 with no payload, or 8 plus the packed response format (part 5). */
  lemma DeclaredLengths5()
    ensures LengthAgrees(GetBasicConfiguration)
    ensures LengthAgrees(SetSpreadcycleConfiguration)
  {
  }

  /** Each declared response length is 0 with no payload, or 8 plus the packed response format (part 6). */
  lemma DeclaredLengths6()
    ensures LengthAgrees(GetSpreadcycleConfiguration)
  {
  }

  /** Each declared response length is 0 with no payload, or 8 plus the packed response format (part 7). */
  lemma DeclaredLengths7()
    ensures LengthAgrees(SetStealthConfiguration)
    ensures LengthAgrees(GetStealthConfiguration)
    ensures LengthAgrees(SetCoolstepConfiguration)
  {
  }

  /** Each declared response length is 0 with no payload, or 8 plus the packed response format (part 8). */
  lemma DeclaredLengths8()
    ensures LengthAgrees(GetCoolstepConfiguration)
    ensures LengthAgrees(SetMiscConfiguration)
  {
  }

  /** Each declared response length is 0 with no payload, or 8 plus the packed response format (part 9). */
  lemma DeclaredLengths9()
    ensures LengthAgrees(GetMiscConfiguration)
    ensures LengthAgrees(SetErrorLedConfig)
    ensures LengthAgrees(GetErrorLedConfig)
  {
  }

  /** Each declared response length is 0 with no payload, or 8 plus the packed response format (part 10). */
  lemma DeclaredLengths10()
    ensures LengthAgrees(GetDriverStatus)
    ensures LengthAgrees(SetMinimumVoltage)
  {
  }

  /** Each declared response length is 0 with no payload, or 8 plus the packed response format (part 11). */
  lemma DeclaredLengths11()
    ensures LengthAgrees(GetMinimumVoltage)
    ensures LengthAgrees(SetTimeBase)
    ensures LengthAgrees(GetTimeBase)
  {
  }

  /** Each declared response length is 0 with no payload, or 8 plus the packed response format (part 12). */
  lemma DeclaredLengths12()
    ensures LengthAgrees(GetAllData)
    ensures LengthAgrees(SetAllCallbackConfiguration)
    ensures LengthAgrees(GetAllDataCallbackConfiguraton)
    ensures LengthAgrees(SetGpioConfiguration)
  {
  }

  /** Each declared response length is 0 with no payload, or 8 plus the packed response format (part 13). */
  lemma DeclaredLengths13()
    ensures LengthAgrees(GetGpioConfiguration)
    ensures LengthAgrees(SetGpioAction)
    ensures LengthAgrees(GetGpioAction)
    ensures LengthAgrees(GetGpioState)
  {
  }

  /** Each declared response length is 0 with no payload, or 8 plus the packed response format (part 14). */
  lemma DeclaredLengths14()
    ensures LengthAgrees(GetSpitfpErrorCount)
    ensures LengthAgrees(SetBootloaderMode)
    ensures LengthAgrees(GetBootloaderMode)
    ensures LengthAgrees(SetWriteFirmwarePointer)
  {
  }

  /** Each declared response length is 0 with no payload, or 8 plus the packed response format (part 15). */
  lemma DeclaredLengths15()
    ensures LengthAgrees(WriteFirmware)
    ensures LengthAgrees(SetStatusLedConfig)
    ensures LengthAgrees(GetStatusLedConfig)
    ensures LengthAgrees(GetChipTemperature)
    ensures LengthAgrees(Reset)
    ensures LengthAgrees(WriteUid)
  {
  }

  /** Each declared response length is 0 with no payload, or 8 plus the packed response format (part 16). */
  lemma DeclaredLengths16()
    ensures LengthAgrees(ReadUid)
    ensures LengthAgrees(GetIdentity)
  {
  }

  /** Every declared callback length is 8 plus the packed callback format. */
  lemma CallbackLengths()
    ensures forall id | id in CallbackFormats() :: CallbackLengthAgrees(CallbackFormats()[id])
  {
  }

  /** Each function is in the response-expected table, ALWAYS_TRUE exactly when it returns a payload (part 1). */
  lemma ExpectationsAgree1()
    ensures ExpectationAgrees(ExpectedOf(SetMaxVelocity.fid), SetMaxVelocity)
    ensures ExpectationAgrees(ExpectedOf(GetMaxVelocity.fid), GetMaxVelocity)
    ensures ExpectationAgrees(ExpectedOf(GetCurrentVelocity.fid), GetCurrentVelocity)
    ensures ExpectationAgrees(ExpectedOf(SetSpeedRamping.fid), SetSpeedRamping)
    ensures ExpectationAgrees(ExpectedOf(GetSpeedRamping.fid), GetSpeedRamping)
  {
  }

  /** Each function is in the response-expected table, ALWAYS_TRUE exactly when it returns a payload (part 2). */
  lemma ExpectationsAgree2()
    ensures ExpectationAgrees(ExpectedOf(FullBrake.fid), FullBrake)
    ensures ExpectationAgrees(ExpectedOf(SetCurrentPosition.fid), SetCurrentPosition)
    ensures ExpectationAgrees(ExpectedOf(GetCurrentPosition.fid), GetCurrentPosition)
    ensures ExpectationAgrees(ExpectedOf(SetTargetPosition.fid), SetTargetPosition)
    ensures ExpectationAgrees(ExpectedOf(GetTargetPosition.fid), GetTargetPosition)
  {
  }

  /** Each function is in the response-expected table, ALWAYS_TRUE exactly when it returns a payload (part 3). */
  lemma ExpectationsAgree3()
    ensures ExpectationAgrees(ExpectedOf(SetSteps.fid), SetSteps)
    ensures ExpectationAgrees(ExpectedOf(GetSteps.fid), GetSteps)
    ensures ExpectationAgrees(ExpectedOf(GetRemainingSteps.fid), GetRemainingSteps)
    ensures ExpectationAgrees(ExpectedOf(SetStepConfiguration.fid), SetStepConfiguration)
    ensures ExpectationAgrees(ExpectedOf(GetStepConfiguration.fid), GetStepConfiguration)
  {
  }

  /** Each function is in the response-expected table, ALWAYS_TRUE exactly when it returns a payload (part 4). */
  lemma ExpectationsAgree4()
    ensures ExpectationAgrees(ExpectedOf(DriveForward.fid), DriveForward)
    ensures ExpectationAgrees(ExpectedOf(DriveBackward.fid), DriveBackward)
    ensures ExpectationAgrees(ExpectedOf(Stop.fid), Stop)
    ensures ExpectationAgrees(ExpectedOf(GetInputVoltage.fid), GetInputVoltage)
    ensures ExpectationAgrees(ExpectedOf(SetMotorCurrent.fid), SetMotorCurrent)
  {
  }

  /** Each function is in the response-expected table, ALWAYS_TRUE exactly when it returns a payload (part 5). */
  lemma ExpectationsAgree5()
    ensures ExpectationAgrees(ExpectedOf(GetMotorCurrent.fid), GetMotorCurrent)
    ensures ExpectationAgrees(ExpectedOf(SetEnabled.fid), SetEnabled)
    ensures ExpectationAgrees(ExpectedOf(GetEnabled.fid), GetEnabled)
    ensures ExpectationAgrees(ExpectedOf(SetBasicConfiguration.fid), SetBasicConfiguration)
    ensures ExpectationAgrees(ExpectedOf(GetBasicConfiguration.fid), GetBasicConfiguration)
  {
  }

  /** Each function is in the response-expected table, ALWAYS_TRUE exactly when it returns a payload (part 6). */
  lemma ExpectationsAgree6()
    ensures ExpectationAgrees(ExpectedOf(SetSpreadcycleConfiguration.fid), SetSpreadcycleConfiguration)
    ensures ExpectationAgrees(ExpectedOf(GetSpreadcycleConfiguration.fid), GetSpreadcycleConfiguration)
    ensures ExpectationAgrees(ExpectedOf(SetStealthConfiguration.fid), SetStealthConfiguration)
    ensures ExpectationAgrees(ExpectedOf(GetStealthConfiguration.fid), GetStealthConfiguration)
    ensures ExpectationAgrees(ExpectedOf(SetCoolstepConfiguration.fid), SetCoolstepConfiguration)
  {
  }

  /** Each function is in the response-expected table, ALWAYS_TRUE exactly when it returns a payload (part 7). */
  lemma ExpectationsAgree7()
    ensures ExpectationAgrees(ExpectedOf(GetCoolstepConfiguration.fid), GetCoolstepConfiguration)
    ensures ExpectationAgrees(ExpectedOf(SetMiscConfiguration.fid), SetMiscConfiguration)
    ensures ExpectationAgrees(ExpectedOf(GetMiscConfiguration.fid), GetMiscConfiguration)
    ensures ExpectationAgrees(ExpectedOf(SetErrorLedConfig.fid), SetErrorLedConfig)
    ensures ExpectationAgrees(ExpectedOf(GetErrorLedConfig.fid), GetErrorLedConfig)
  {
  }

  /** Each function is in the response-expected table, ALWAYS_TRUE exactly when it returns a payload (part 8). */
  lemma ExpectationsAgree8()
    ensures ExpectationAgrees(ExpectedOf(GetDriverStatus.fid), GetDriverStatus)
    ensures ExpectationAgrees(ExpectedOf(SetMinimumVoltage.fid), SetMinimumVoltage)
    ensures ExpectationAgrees(ExpectedOf(GetMinimumVoltage.fid), GetMinimumVoltage)
    ensures ExpectationAgrees(ExpectedOf(SetTimeBase.fid), SetTimeBase)
    ensures ExpectationAgrees(ExpectedOf(GetTimeBase.fid), GetTimeBase)
  {
  }

  /** Each function is in the response-expected table, ALWAYS_TRUE exactly when it returns a payload (part 9). */
  lemma ExpectationsAgree9()
    ensures ExpectationAgrees(ExpectedOf(GetAllData.fid), GetAllData)
    ensures ExpectationAgrees(ExpectedOf(SetAllCallbackConfiguration.fid), SetAllCallbackConfiguration)
    ensures ExpectationAgrees(ExpectedOf(GetAllDataCallbackConfiguraton.fid), GetAllDataCallbackConfiguraton)
    ensures ExpectationAgrees(ExpectedOf(SetGpioConfiguration.fid), SetGpioConfiguration)
    ensures ExpectationAgrees(ExpectedOf(GetGpioConfiguration.fid), GetGpioConfiguration)
  {
  }

  /** Each function is in the response-expected table, ALWAYS_TRUE exactly when it returns a payload (part 10). */
  lemma ExpectationsAgree10()
    ensures ExpectationAgrees(ExpectedOf(SetGpioAction.fid), SetGpioAction)
    ensures ExpectationAgrees(ExpectedOf(GetGpioAction.fid), GetGpioAction)
    ensures ExpectationAgrees(ExpectedOf(GetGpioState.fid), GetGpioState)
    ensures ExpectationAgrees(ExpectedOf(GetSpitfpErrorCount.fid), GetSpitfpErrorCount)
    ensures ExpectationAgrees(ExpectedOf(SetBootloaderMode.fid), SetBootloaderMode)
  {
  }

  /** Each function is in the response-expected table, ALWAYS_TRUE exactly when it returns a payload (part 11). */
  lemma ExpectationsAgree11()
    ensures ExpectationAgrees(ExpectedOf(GetBootloaderMode.fid), GetBootloaderMode)
    ensures ExpectationAgrees(ExpectedOf(SetWriteFirmwarePointer.fid), SetWriteFirmwarePointer)
    ensures ExpectationAgrees(ExpectedOf(WriteFirmware.fid), WriteFirmware)
    ensures ExpectationAgrees(ExpectedOf(SetStatusLedConfig.fid), SetStatusLedConfig)
    ensures ExpectationAgrees(ExpectedOf(GetStatusLedConfig.fid), GetStatusLedConfig)
  {
  }

  /** Each function is in the response-expected table, ALWAYS_TRUE exactly when it returns a payload (part 12). */
  lemma ExpectationsAgree12()
    ensures ExpectationAgrees(ExpectedOf(GetChipTemperature.fid), GetChipTemperature)
    ensures ExpectationAgrees(ExpectedOf(Reset.fid), Reset)
    ensures ExpectationAgrees(ExpectedOf(WriteUid.fid), WriteUid)
    ensures ExpectationAgrees(ExpectedOf(ReadUid.fid), ReadUid)
    ensures ExpectationAgrees(ExpectedOf(GetIdentity.fid), GetIdentity)
  {
  }

  /** The dictionary holds exactly the ids the constructor assigns. */
  lemma TableKeys()
    ensures forall id :: id in ResponseExpectedTable() <==> ExpectedOf(id).Some?
    ensures forall id | id in ResponseExpectedTable() :: ResponseExpectedTable()[id] == ExpectedOf(id).value
  {
  }

  /** The ids flagged TRUE (acknowledged only on request) are exactly these setters, none of which returns a payload; no id is flagged ALWAYS_FALSE. */
  lemma AcknowledgedSetters()
    ensures forall id :: ExpectedOf(id) == Some(True) <==> id == SetMinimumVoltage.fid || id == SetAllCallbackConfiguration.fid
    ensures !ReturnsPayload(SetMinimumVoltage)
    ensures !ReturnsPayload(SetAllCallbackConfiguration)
    ensures forall id :: ExpectedOf(id) == Some(AlwaysFalse) <==> false
  {
  }

  /** Each setter sends exactly the format its getter returns. */
  lemma SetGetFormatsMirror()
    ensures SetMaxVelocity.reqFormat == GetMaxVelocity.respFormat && GetMaxVelocity.reqFormat == End
    ensures SetSpeedRamping.reqFormat == GetSpeedRamping.respFormat && GetSpeedRamping.reqFormat == End
    ensures SetCurrentPosition.reqFormat == GetCurrentPosition.respFormat && GetCurrentPosition.reqFormat == End
    ensures SetTargetPosition.reqFormat == GetTargetPosition.respFormat && GetTargetPosition.reqFormat == End
    ensures SetSteps.reqFormat == GetSteps.respFormat && GetSteps.reqFormat == End
    ensures SetStepConfiguration.reqFormat == GetStepConfiguration.respFormat && GetStepConfiguration.reqFormat == End
    ensures SetMotorCurrent.reqFormat == GetMotorCurrent.respFormat && GetMotorCurrent.reqFormat == End
    ensures SetEnabled.reqFormat == GetEnabled.respFormat && GetEnabled.reqFormat == End
    ensures SetBasicConfiguration.reqFormat == GetBasicConfiguration.respFormat && GetBasicConfiguration.reqFormat == End
    ensures SetSpreadcycleConfiguration.reqFormat == GetSpreadcycleConfiguration.respFormat && GetSpreadcycleConfiguration.reqFormat == End
    ensures SetStealthConfiguration.reqFormat == GetStealthConfiguration.respFormat && GetStealthConfiguration.reqFormat == End
    ensures SetCoolstepConfiguration.reqFormat == GetCoolstepConfiguration.respFormat && GetCoolstepConfiguration.reqFormat == End
    ensures SetMiscConfiguration.reqFormat == GetMiscConfiguration.respFormat && GetMiscConfiguration.reqFormat == End
    ensures SetErrorLedConfig.reqFormat == GetErrorLedConfig.respFormat && GetErrorLedConfig.reqFormat == End
    ensures SetMinimumVoltage.reqFormat == GetMinimumVoltage.respFormat && GetMinimumVoltage.reqFormat == End
    ensures SetTimeBase.reqFormat == GetTimeBase.respFormat && GetTimeBase.reqFormat == End
    ensures SetBootloaderMode.reqFormat == GetBootloaderMode.respFormat && GetBootloaderMode.reqFormat == End
    ensures SetStatusLedConfig.reqFormat == GetStatusLedConfig.respFormat && GetStatusLedConfig.reqFormat == End
  {
  }

  /** Each per-channel setter sends the getter's request (the channel) followed by what the getter returns. */
  lemma ChannelSetGetFormatsMirror()
    ensures SetGpioConfiguration.reqFormat == Append(GetGpioConfiguration.reqFormat, GetGpioConfiguration.respFormat)
    ensures SetGpioAction.reqFormat == Append(GetGpioAction.reqFormat, GetGpioAction.respFormat)
  {
  }

  /** A lone '!' takes a whole byte, and '2!' packs both booleans into one byte. */
  lemma BooleanPacking()
    ensures PackedSize(GetEnabled.respFormat) == 1
    ensures PackedSize(CallbackFormats()[CALLBACK_GPIO_STATE].format) == 1
    ensures PackedSize(GetStepConfiguration.respFormat) == 2
  {
  }

  /** write_firmware sends a 64-byte block and gets a one-byte status back, 9 bytes with the header. */
  lemma FirmwareBlock()
    ensures PackedSize(WriteFirmware.reqFormat) == 64 && WriteFirmware.respLength == Some(HEADER_SIZE + 1)
  {
  }
}
