/**
 * Request, response-expected and callback tables of the Industrial Digital In 4 Bricklet 2.0 binding.
 */
module IndustrialDigitalIn4V2 {
  import opened Wrappers
  import opened WireFormat
  import opened Bindings

  /** Device identifier of this bricklet (src/brickv/bindings/bricklet_industrial_digital_in_4_v2.py:30). */
  const DEVICE_IDENTIFIER: int := 2100

  const CALLBACK_VALUE: int := 11
  const CALLBACK_ALL_VALUE: int := 12

  // One constant per send_request call, named after the binding method that makes it.
  const GetValue := Request(1, End, Some(9), Then(Tok(4, Bool), End)) // line 131
  const SetValueCallbackConfiguration := Request(2, Then(Tok(1, U8), Then(Tok(1, U32), Then(Tok(1, Bool), End))), Some(0), End) // line 153
  const GetValueCallbackConfiguration := Request(3, Then(Tok(1, U8), End), Some(13), Then(Tok(1, U32), Then(Tok(1, Bool), End))) // line 164
  const SetAllValueCallbackConfiguration := Request(4, Then(Tok(1, U32), Then(Tok(1, Bool), End)), Some(0), End) // line 183
  const GetAllValueCallbackConfiguration := Request(5, End, Some(13), Then(Tok(1, U32), Then(Tok(1, Bool), End))) // line 192
  const GetEdgeCount := Request(6, Then(Tok(1, U8), Then(Tok(1, Bool), End)), Some(12), Then(Tok(1, U32), End)) // line 207
  const SetEdgeCountConfiguration := Request(7, Then(Tok(1, U8), Then(Tok(1, U8), Then(Tok(1, U8), End))), Some(0), End) // line 231
  const GetEdgeCountConfiguration := Request(8, Then(Tok(1, U8), End), Some(10), Then(Tok(1, U8), Then(Tok(1, U8), End))) // line 242
  const SetChannelLedConfig := Request(9, Then(Tok(1, U8), Then(Tok(1, U8), End)), Some(0), End) // line 257
  const GetChannelLedConfig := Request(10, Then(Tok(1, U8), End), Some(9), Then(Tok(1, U8), End)) // line 267
  const GetSpitfpErrorCount := Request(234, End, Some(24), Then(Tok(1, U32), Then(Tok(1, U32), Then(Tok(1, U32), Then(Tok(1, U32), End))))) // line 285
  const SetBootloaderMode := Request(235, Then(Tok(1, U8), End), Some(9), Then(Tok(1, U8), End)) // line 303
  const GetBootloaderMode := Request(236, End, Some(9), Then(Tok(1, U8), End)) // line 311
  const SetWriteFirmwarePointer := Request(237, Then(Tok(1, U32), End), Some(0), End) // line 326
  const WriteFirmware := Request(238, Then(Tok(64, U8), End), Some(9), Then(Tok(1, U8), End)) // line 343
  const SetStatusLedConfig := Request(239, Then(Tok(1, U8), End), Some(0), End) // line 359
  const GetStatusLedConfig := Request(240, End, Some(9), Then(Tok(1, U8), End)) // line 367
  const GetChipTemperature := Request(242, End, Some(10), Then(Tok(1, I16), End)) // line 380
  const Reset := Request(243, End, Some(0), End) // line 393
  const WriteUid := Request(248, Then(Tok(1, U32), End), Some(0), End) // line 407
  const ReadUid := Request(249, End, Some(12), Then(Tok(1, U32), End)) // line 416
  const GetIdentity := Request(255, End, Some(33), Then(Tok(8, Str), Then(Tok(8, Str), Then(Tok(1, Char), Then(Tok(3, U8), Then(Tok(3, U8), Then(Tok(1, U16), End))))))) // line 431

  /** The response_expected entry the constructor sets for an id, if any. */
  function ExpectedOf(id: int): Option<ResponseExpected>
  {
    match id
    case 1 => Some(AlwaysTrue) // line 97
    case 2 => Some(True) // line 98
    case 3 => Some(AlwaysTrue) // line 99
    case 4 => Some(True) // line 100
    case 5 => Some(AlwaysTrue) // line 101
    case 6 => Some(AlwaysTrue) // line 102
    case 7 => Some(False) // line 103
    case 8 => Some(AlwaysTrue) // line 104
    case 9 => Some(False) // line 105
    case 10 => Some(AlwaysTrue) // line 106
    case 234 => Some(AlwaysTrue) // line 107
    case 235 => Some(AlwaysTrue) // line 108
    case 236 => Some(AlwaysTrue) // line 109
    case 237 => Some(False) // line 110
    case 238 => Some(AlwaysTrue) // line 111
    case 239 => Some(False) // line 112
    case 240 => Some(AlwaysTrue) // line 113
    case 242 => Some(AlwaysTrue) // line 114
    case 243 => Some(False) // line 115
    case 248 => Some(False) // line 116
    case 249 => Some(AlwaysTrue) // line 117
    case 255 => Some(AlwaysTrue) // line 118
    case _ => None
  }

  /** The response_expected dictionary the constructor fills; function ids are single bytes. */
  function ResponseExpectedTable(): map<int, ResponseExpected>
  {
    map id | 0 <= id < 256 && ExpectedOf(id).Some? :: ExpectedOf(id).value
  }

  /** The callback_formats entries set by the constructor. */
  function CallbackFormats(): map<int, CallbackFormat>
  {
    map[ CALLBACK_VALUE := CallbackFormat(Some(11), Then(Tok(1, U8), Then(Tok(1, Bool), Then(Tok(1, Bool), End)))),
         CALLBACK_ALL_VALUE := CallbackFormat(Some(10), Then(Tok(4, Bool), Then(Tok(4, Bool), End))) ]
  }

  /** The constructor: fills the three tables; no callback is registered yet. */
  method Create() returns (d: Device)
    ensures fresh(d) && d.style == PopOnNone && d.registeredCallbacks == map[]
    ensures d.responseExpected == ResponseExpectedTable() && d.callbackFormats == CallbackFormats()
    ensures d.highLevelCallbacks == map[]
  {
    d := new Device(ResponseExpectedTable(), CallbackFormats(), map[], PopOnNone);
  }

  /** Each declared response length is 0 with no payload, or 8 plus the packed response format (part 1). */
  lemma DeclaredLengths1()
    ensures LengthAgrees(GetValue)
    ensures LengthAgrees(SetValueCallbackConfiguration)
    ensures LengthAgrees(GetValueCallbackConfiguration)
    ensures LengthAgrees(SetAllValueCallbackConfiguration)
    ensures LengthAgrees(GetAllValueCallbackConfiguration)
  {
  }

  /** Each declared response length is 0 with no payload, or 8 plus the packed response format (part 2). */
  lemma DeclaredLengths2()
    ensures LengthAgrees(GetEdgeCount)
    ensures LengthAgrees(SetEdgeCountConfiguration)
    ensures LengthAgrees(GetEdgeCountConfiguration)
    ensures LengthAgrees(SetChannelLedConfig)
    ensures LengthAgrees(GetChannelLedConfig)
  {
  }

  /** Each declared response length is 0 with no payload, or 8 plus the packed response format (part 3). */
  lemma DeclaredLengths3()
    ensures LengthAgrees(GetSpitfpErrorCount)
    ensures LengthAgrees(SetBootloaderMode)
    ensures LengthAgrees(GetBootloaderMode)
    ensures LengthAgrees(SetWriteFirmwarePointer)
  {
  }

  /** Each declared response length is 0 with no payload, or 8 plus the packed response format (part 4). */
  lemma DeclaredLengths4()
    ensures LengthAgrees(WriteFirmware)
    ensures LengthAgrees(SetStatusLedConfig)
    ensures LengthAgrees(GetStatusLedConfig)
    ensures LengthAgrees(GetChipTemperature)
    ensures LengthAgrees(Reset)
    ensures LengthAgrees(WriteUid)
  {
  }

  /** Each declared response length is 0 with no payload, or 8 plus the packed response format (part 5). */
  lemma DeclaredLengths5()
    ensures LengthAgrees(ReadUid)
    ensures LengthAgrees(GetIdentity)
  {
  }

  /** Every declared callback length is 8 plus the packed callback format. */
  lemma CallbackLengths()
    ensures forall id | id in CallbackFormats() :: CallbackLengthAgrees(CallbackFormats()[id])
  {
  }

  /** Each function is in the response-expected table, ALWAYS_TRUE exactly when it returns a payload (part 1). */
  lemma ExpectationsAgree1()
    ensures ExpectationAgrees(ExpectedOf(GetValue.fid), GetValue)
    ensures ExpectationAgrees(ExpectedOf(SetValueCallbackConfiguration.fid), SetValueCallbackConfiguration)
    ensures ExpectationAgrees(ExpectedOf(GetValueCallbackConfiguration.fid), GetValueCallbackConfiguration)
    ensures ExpectationAgrees(ExpectedOf(SetAllValueCallbackConfiguration.fid), SetAllValueCallbackConfiguration)
    ensures ExpectationAgrees(ExpectedOf(GetAllValueCallbackConfiguration.fid), GetAllValueCallbackConfiguration)
  {
  }

  /** Each function is in the response-expected table, ALWAYS_TRUE exactly when it returns a payload (part 2). */
  lemma ExpectationsAgree2()
    ensures ExpectationAgrees(ExpectedOf(GetEdgeCount.fid), GetEdgeCount)
    ensures ExpectationAgrees(ExpectedOf(SetEdgeCountConfiguration.fid), SetEdgeCountConfiguration)
    ensures ExpectationAgrees(ExpectedOf(GetEdgeCountConfiguration.fid), GetEdgeCountConfiguration)
    ensures ExpectationAgrees(ExpectedOf(SetChannelLedConfig.fid), SetChannelLedConfig)
    ensures ExpectationAgrees(ExpectedOf(GetChannelLedConfig.fid), GetChannelLedConfig)
  {
  }

  /** Each function is in the response-expected table, ALWAYS_TRUE exactly when it returns a payload (part 3). */
  lemma ExpectationsAgree3()
    ensures ExpectationAgrees(ExpectedOf(GetSpitfpErrorCount.fid), GetSpitfpErrorCount)
    ensures ExpectationAgrees(ExpectedOf(SetBootloaderMode.fid), SetBootloaderMode)
    ensures ExpectationAgrees(ExpectedOf(GetBootloaderMode.fid), GetBootloaderMode)
    ensures ExpectationAgrees(ExpectedOf(SetWriteFirmwarePointer.fid), SetWriteFirmwarePointer)
    ensures ExpectationAgrees(ExpectedOf(WriteFirmware.fid), WriteFirmware)
  {
  }

  /** Each function is in the response-expected table, ALWAYS_TRUE exactly when it returns a payload (part 4). */
  lemma ExpectationsAgree4()
    ensures ExpectationAgrees(ExpectedOf(SetStatusLedConfig.fid), SetStatusLedConfig)
    ensures ExpectationAgrees(ExpectedOf(GetStatusLedConfig.fid), GetStatusLedConfig)
    ensures ExpectationAgrees(ExpectedOf(GetChipTemperature.fid), GetChipTemperature)
    ensures ExpectationAgrees(ExpectedOf(Reset.fid), Reset)
    ensures ExpectationAgrees(ExpectedOf(WriteUid.fid), WriteUid)
  {
  }

  /** Each function is in the response-expected table, ALWAYS_TRUE exactly when it returns a payload (part 5). */
  lemma ExpectationsAgree5()
    ensures ExpectationAgrees(ExpectedOf(ReadUid.fid), ReadUid)
    ensures ExpectationAgrees(ExpectedOf(GetIdentity.fid), GetIdentity)
  {
  }

  /** The dictionary holds exactly the ids the constructor assigns. */
  lemma TableKeys()
    ensures forall id :: id in ResponseExpectedTable() <==> ExpectedOf(id).Some?
    ensures forall id | id in ResponseExpectedTable() :: ResponseExpectedTable()[id] == ExpectedOf(id).value
  {
  }

  /** The ids flagged TRUE (acknowledged only on request) are exactly these setters, none of which returns a payload; no id is flagged ALWAYS_FALSE. */
  lemma AcknowledgedSetters()
    ensures forall id :: ExpectedOf(id) == Some(True) <==> id == SetValueCallbackConfiguration.fid || id == SetAllValueCallbackConfiguration.fid
    ensures !ReturnsPayload(SetValueCallbackConfiguration)
    ensures !ReturnsPayload(SetAllValueCallbackConfiguration)
    ensures forall id :: ExpectedOf(id) == Some(AlwaysFalse) <==> false
  {
  }

  /** Each setter sends exactly the format its getter returns. */
  lemma SetGetFormatsMirror()
    ensures SetAllValueCallbackConfiguration.reqFormat == GetAllValueCallbackConfiguration.respFormat && GetAllValueCallbackConfiguration.reqFormat == End
    ensures SetBootloaderMode.reqFormat == GetBootloaderMode.respFormat && GetBootloaderMode.reqFormat == End
    ensures SetStatusLedConfig.reqFormat == GetStatusLedConfig.respFormat && GetStatusLedConfig.reqFormat == End
  {
  }

  /** Each per-channel setter sends the getter's request (the channel) followed by what the getter returns. */
  lemma ChannelSetGetFormatsMirror()
    ensures SetValueCallbackConfiguration.reqFormat == Append(GetValueCallbackConfiguration.reqFormat, GetValueCallbackConfiguration.respFormat)
    ensures SetEdgeCountConfiguration.reqFormat == Append(GetEdgeCountConfiguration.reqFormat, GetEdgeCountConfiguration.respFormat)
    ensures SetChannelLedConfig.reqFormat == Append(GetChannelLedConfig.reqFormat, GetChannelLedConfig.respFormat)
  {
  }

  /** '4!' packs into one byte, '4! 4!' into two, 'B ! !' takes three bytes and 'I !' five. */
  lemma BooleanPacking()
    ensures PackedSize(GetValue.respFormat) == 1
    ensures PackedSize(CallbackFormats()[CALLBACK_ALL_VALUE].format) == 2
    ensures PackedSize(CallbackFormats()[CALLBACK_VALUE].format) == 3
    ensures PackedSize(GetAllValueCallbackConfiguration.respFormat) == 5
  {
  }
}
