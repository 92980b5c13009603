/**
 * Request, response-expected and callback tables of the Laser Range Finder Bricklet binding.
 * This binding uses the older send_request form, and its register_callback
 * stores whatever it is given, None included.
 */
module LaserRangeFinder {
  import opened Wrappers
  import opened WireFormat
  import opened Bindings

  /** Device identifier of this bricklet (src/brickv/bindings/bricklet_laser_range_finder.py:33). */
  const DEVICE_IDENTIFIER: int := 255

  const CALLBACK_DISTANCE: int := 8
  const CALLBACK_DISTANCE_REACHED: int := 9

  // One constant per send_request call, named after the binding method that makes it.
  const GetDistanceValue := Request(1, End, None, Then(Tok(1, U16), End)) // line 89
  const SetDistanceCallbackPeriod := Request(2, Then(Tok(1, U32), End), None, End) // line 101
  const GetDistanceCallbackPeriod := Request(3, End, None, Then(Tok(1, U32), End)) // line 107
  const SetDistanceCallbackThreshold := Request(4, Then(Tok(1, Char), Then(Tok(1, I16), Then(Tok(1, I16), End))), None, End) // line 127
  const GetDistanceCallbackThreshold := Request(5, End, None, Then(Tok(1, Char), Then(Tok(1, I16), Then(Tok(1, I16), End)))) // line 133
  const SetDebouncePeriod := Request(6, Then(Tok(1, U32), End), None, End) // line 149
  const GetDebouncePeriod := Request(7, End, None, Then(Tok(1, U32), End)) // line 155
  const SetMovingAverage := Request(10, Then(Tok(1, U8), End), None, End) // line 169
  const GetMovingAverage := Request(11, End, None, Then(Tok(1, U8), End)) // line 175
  const GetIdentity := Request(255, End, None, Then(Tok(8, Str), Then(Tok(8, Str), Then(Tok(1, Char), Then(Tok(3, U8), Then(Tok(3, U8), Then(Tok(1, U16), End))))))) // line 188

  /** The response_expected entry the constructor sets for an id, if any. */
  function ExpectedOf(id: int): Option<ResponseExpected>
  {
    match id
    case 1 => Some(AlwaysTrue) // line 65
    case 2 => Some(True) // line 66
    case 3 => Some(AlwaysTrue) // line 67
    case 4 => Some(True) // line 68
    case 5 => Some(AlwaysTrue) // line 69
    case 6 => Some(True) // line 70
    case 7 => Some(AlwaysTrue) // line 71
    case 8 => Some(AlwaysFalse) // line 72
    case 9 => Some(AlwaysFalse) // line 73
    case 10 => Some(False) // line 74
    case 11 => Some(AlwaysTrue) // line 75
    case 255 => Some(AlwaysTrue) // line 76
    case _ => None
  }

  /** The response_expected dictionary the constructor fills; function ids are single bytes. */
  function ResponseExpectedTable(): map<int, ResponseExpected>
  {
    map id | 0 <= id < 256 && ExpectedOf(id).Some? :: ExpectedOf(id).value
  }

  /** The callback_formats entries set by the constructor. */
  function CallbackFormats(): map<int, CallbackFormat>
  {
    map[ CALLBACK_DISTANCE := CallbackFormat(None, Then(Tok(1, U16), End)),
         CALLBACK_DISTANCE_REACHED := CallbackFormat(None, Then(Tok(1, U16), End)) ]
  }

  /** The constructor: fills the three tables; no callback is registered yet. */
  method Create() returns (d: Device)
    ensures fresh(d) && d.style == StoreAlways && d.registeredCallbacks == map[]
    ensures d.responseExpected == ResponseExpectedTable() && d.callbackFormats == CallbackFormats()
    ensures d.highLevelCallbacks == map[]
  {
    d := new Device(ResponseExpectedTable(), CallbackFormats(), map[], StoreAlways);
  }

  /** Each function is in the response-expected table, ALWAYS_TRUE exactly when it returns a payload (part 1). */
  lemma ExpectationsAgree1()
    ensures ExpectationAgrees(ExpectedOf(GetDistanceValue.fid), GetDistanceValue)
    ensures ExpectationAgrees(ExpectedOf(SetDistanceCallbackPeriod.fid), SetDistanceCallbackPeriod)
    ensures ExpectationAgrees(ExpectedOf(GetDistanceCallbackPeriod.fid), GetDistanceCallbackPeriod)
    ensures ExpectationAgrees(ExpectedOf(SetDistanceCallbackThreshold.fid), SetDistanceCallbackThreshold)
    ensures ExpectationAgrees(ExpectedOf(GetDistanceCallbackThreshold.fid), GetDistanceCallbackThreshold)
  {
  }

  /** Each function is in the response-expected table, ALWAYS_TRUE exactly when it returns a payload (part 2). */
  lemma ExpectationsAgree2()
    ensures ExpectationAgrees(ExpectedOf(SetDebouncePeriod.fid), SetDebouncePeriod)
    ensures ExpectationAgrees(ExpectedOf(GetDebouncePeriod.fid), GetDebouncePeriod)
    ensures ExpectationAgrees(ExpectedOf(SetMovingAverage.fid), SetMovingAverage)
    ensures ExpectationAgrees(ExpectedOf(GetMovingAverage.fid), GetMovingAverage)
    ensures ExpectationAgrees(ExpectedOf(GetIdentity.fid), GetIdentity)
  {
  }

  /** The dictionary holds exactly the ids the constructor assigns. */
  lemma TableKeys()
    ensures forall id :: id in ResponseExpectedTable() <==> ExpectedOf(id).Some?
    ensures forall id | id in ResponseExpectedTable() :: ResponseExpectedTable()[id] == ExpectedOf(id).value
  {
  }

  /** The ids flagged TRUE (acknowledged only on request) are exactly these setters, none of which returns a payload; the ids flagged ALWAYS_FALSE are exactly the callbacks listed. */
  lemma AcknowledgedSetters()
    ensures forall id :: ExpectedOf(id) == Some(True) <==> id == SetDistanceCallbackPeriod.fid || id == SetDistanceCallbackThreshold.fid || id == SetDebouncePeriod.fid
    ensures !ReturnsPayload(SetDistanceCallbackPeriod)
    ensures !ReturnsPayload(SetDistanceCallbackThreshold)
    ensures !ReturnsPayload(SetDebouncePeriod)
    ensures forall id :: ExpectedOf(id) == Some(AlwaysFalse) <==> id == CALLBACK_DISTANCE || id == CALLBACK_DISTANCE_REACHED
  {
  }

  /** Each setter sends exactly the format its getter returns. */
  lemma SetGetFormatsMirror()
    ensures SetDistanceCallbackPeriod.reqFormat == GetDistanceCallbackPeriod.respFormat && GetDistanceCallbackPeriod.reqFormat == End
    ensures SetDistanceCallbackThreshold.reqFormat == GetDistanceCallbackThreshold.respFormat && GetDistanceCallbackThreshold.reqFormat == End
    ensures SetDebouncePeriod.reqFormat == GetDebouncePeriod.respFormat && GetDebouncePeriod.reqFormat == End
    ensures SetMovingAverage.reqFormat == GetMovingAverage.respFormat && GetMovingAverage.reqFormat == End
  {
  }
}
