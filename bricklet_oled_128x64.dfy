/**
 * Request and response-expected tables of the OLED 128x64 Bricklet binding.
 * It declares no callbacks and has no register_callback of its own.
 */
module Oled128x64 {
  import opened Wrappers
  import opened WireFormat
  import opened Bindings

  /** Device identifier of this bricklet (src/brickv/bindings/bricklet_oled_128x64.py:27). */
  const DEVICE_IDENTIFIER: int := 263

  // One constant per send_request call, named after the binding method that makes it.
  const Write := Request(1, Then(Tok(64, U8), End), Some(0), End) // line 89
  const NewWindow := Request(2, Then(Tok(1, U8), Then(Tok(1, U8), Then(Tok(1, U8), Then(Tok(1, U8), End)))), Some(0), End) // line 103
  const ClearDisplay := Request(3, End, Some(0), End) // line 111
  const SetDisplayConfiguration := Request(4, Then(Tok(1, U8), Then(Tok(1, Bool), End)), Some(0), End) // line 125
  const GetDisplayConfiguration := Request(5, End, Some(10), Then(Tok(1, U8), Then(Tok(1, Bool), End))) // line 133
  const WriteLine := Request(6, Then(Tok(1, U8), Then(Tok(1, U8), Then(Tok(26, Str), End))), Some(0), End) // line 155
  const GetIdentity := Request(255, End, Some(33), Then(Tok(8, Str), Then(Tok(8, Str), Then(Tok(1, Char), Then(Tok(3, U8), Then(Tok(3, U8), Then(Tok(1, U16), End))))))) // line 170

  /** The response_expected entry the constructor sets for an id, if any. */
  function ExpectedOf(id: int): Option<ResponseExpected>
  {
    match id
    case 1 => Some(False) // line 51
    case 2 => Some(False) // line 52
    case 3 => Some(False) // line 53
    case 4 => Some(False) // line 54
    case 5 => Some(AlwaysTrue) // line 55
    case 6 => Some(False) // line 56
    case 255 => Some(AlwaysTrue) // line 57
    case _ => None
  }

  /** The response_expected dictionary the constructor fills; function ids are single bytes. */
  function ResponseExpectedTable(): map<int, ResponseExpected>
  {
    map id | 0 <= id < 256 && ExpectedOf(id).Some? :: ExpectedOf(id).value
  }

  /** The callback_formats entries set by the constructor. */
  function CallbackFormats(): map<int, CallbackFormat>
  {
    map[]
  }

  /** The constructor: fills the three tables; no callback is registered yet. */
  method Create() returns (d: Device)
    ensures fresh(d) && d.style == PopOnNone && d.registeredCallbacks == map[]
    ensures d.responseExpected == ResponseExpectedTable() && d.callbackFormats == CallbackFormats()
    ensures d.highLevelCallbacks == map[]
  {
    d := new Device(ResponseExpectedTable(), CallbackFormats(), map[], PopOnNone);
  }

  /** Each declared response length is 0 with no payload, or 8 plus the packed response format (part 1). */
  lemma DeclaredLengths1()
    ensures LengthAgrees(Write)
    ensures LengthAgrees(NewWindow)
    ensures LengthAgrees(ClearDisplay)
    ensures LengthAgrees(SetDisplayConfiguration)
    ensures LengthAgrees(GetDisplayConfiguration)
    ensures LengthAgrees(WriteLine)
  {
  }

  /** Each declared response length is 0 with no payload, or 8 plus the packed response format (part 2). */
  lemma DeclaredLengths2()
    ensures LengthAgrees(GetIdentity)
  {
  }

  /** Each function is in the response-expected table, ALWAYS_TRUE exactly when it returns a payload (part 1). */
  lemma ExpectationsAgree1()
    ensures ExpectationAgrees(ExpectedOf(Write.fid), Write)
    ensures ExpectationAgrees(ExpectedOf(NewWindow.fid), NewWindow)
    ensures ExpectationAgrees(ExpectedOf(ClearDisplay.fid), ClearDisplay)
    ensures ExpectationAgrees(ExpectedOf(SetDisplayConfiguration.fid), SetDisplayConfiguration)
    ensures ExpectationAgrees(ExpectedOf(GetDisplayConfiguration.fid), GetDisplayConfiguration)
  {
  }

  /** Each function is in the response-expected table, ALWAYS_TRUE exactly when it returns a payload (part 2). */
  lemma ExpectationsAgree2()
    ensures ExpectationAgrees(ExpectedOf(WriteLine.fid), WriteLine)
    ensures ExpectationAgrees(ExpectedOf(GetIdentity.fid), GetIdentity)
  {
  }

  /** The dictionary holds exactly the ids the constructor assigns. */
  lemma TableKeys()
    ensures forall id :: id in ResponseExpectedTable() <==> ExpectedOf(id).Some?
    ensures forall id | id in ResponseExpectedTable() :: ResponseExpectedTable()[id] == ExpectedOf(id).value
  {
  }

  /** The ids flagged TRUE (acknowledged only on request) are exactly these setters, none of which returns a payload; no id is flagged ALWAYS_FALSE. */
  lemma AcknowledgedSetters()
    ensures forall id :: ExpectedOf(id) == Some(True) <==> false
    ensures forall id :: ExpectedOf(id) == Some(AlwaysFalse) <==> false
  {
  }

  /** Each setter sends exactly the format its getter returns. */
  lemma SetGetFormatsMirror()
    ensures SetDisplayConfiguration.reqFormat == GetDisplayConfiguration.respFormat && GetDisplayConfiguration.reqFormat == End
  {
  }

  /** write sends exactly 64 bytes; write_line sends line and position bytes and a 26-byte text field. */
  lemma FixedWritePayloads()
    ensures PackedSize(Write.reqFormat) == 64
    ensures WriteLine.reqFormat == Append(Then(Tok(1, U8), Then(Tok(1, U8), End)), Then(Tok(26, Str), End))
    ensures PackedSize(WriteLine.reqFormat) == 2 + 26
  {
  }
}
