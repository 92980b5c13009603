/**
 * The Energy Monitor Bricklet binding: its tables, and `get_waveform`, which
 * reassembles the 1536-value waveform from 30-value low-level chunks.
 * This binding uses the older send_request form without a declared response length.
 */
module EnergyMonitor {
  import opened Wrappers
  import opened WireFormat
  import opened Bindings
  import opened Streams

  /** Device identifier of this bricklet (src/brickv/bindings/bricklet_energy_monitor.py:34). */
  const DEVICE_IDENTIFIER: int := 2152

  const CALLBACK_ENERGY_DATA: int := 10

  // One constant per send_request call, named after the binding method that makes it.
  const GetEnergyData := Request(1, End, None, Then(Tok(1, I32), Then(Tok(1, I32), Then(Tok(1, I32), Then(Tok(1, I32), Then(Tok(1, I32), Then(Tok(1, I32), Then(Tok(1, U16), Then(Tok(1, U16), End))))))))) // line 117
  const ResetEnergy := Request(2, End, None, End) // line 123
  const GetWaveformLowLevel := Request(3, End, None, Then(Tok(1, U16), Then(Tok(30, I16), End))) // line 129
  const GetTransformerStatus := Request(4, End, None, Then(Tok(1, Bool), Then(Tok(1, Bool), End))) // line 135
  const SetTransformerCalibration := Request(5, Then(Tok(1, U16), Then(Tok(1, U16), Then(Tok(1, I16), End))), None, End) // line 145
  const GetTransformerCalibration := Request(6, End, None, Then(Tok(1, U16), Then(Tok(1, U16), Then(Tok(1, I16), End)))) // line 151
  const CalibrateOffset := Request(7, End, None, End) // line 157
  const SetEnergyDataCallbackConfiguration := Request(8, Then(Tok(1, U32), Then(Tok(1, Bool), End)), None, End) // line 176
  const GetEnergyDataCallbackConfiguration := Request(9, End, None, Then(Tok(1, U32), Then(Tok(1, Bool), End))) // line 183
  const GetSpitfpErrorCount := Request(234, End, None, Then(Tok(1, U32), Then(Tok(1, U32), Then(Tok(1, U32), Then(Tok(1, U32), End))))) // line 199
  const SetBootloaderMode := Request(235, Then(Tok(1, U8), End), None, Then(Tok(1, U8), End)) // line 215
  const GetBootloaderMode := Request(236, End, None, Then(Tok(1, U8), End)) // line 221
  const SetWriteFirmwarePointer := Request(237, Then(Tok(1, U32), End), None, End) // line 234
  const WriteFirmware := Request(238, Then(Tok(64, U8), End), None, Then(Tok(1, U8), End)) // line 249
  const SetStatusLedConfig := Request(239, Then(Tok(1, U8), End), None, End) // line 263
  const GetStatusLedConfig := Request(240, End, None, Then(Tok(1, U8), End)) // line 269
  const GetChipTemperature := Request(242, End, None, Then(Tok(1, I16), End)) // line 280
  const Reset := Request(243, End, None, End) // line 291
  const WriteUid := Request(248, Then(Tok(1, U32), End), None, End) // line 303
  const ReadUid := Request(249, End, None, Then(Tok(1, U32), End)) // line 310
  const GetIdentity := Request(255, End, None, Then(Tok(8, Str), Then(Tok(8, Str), Then(Tok(1, Char), Then(Tok(3, U8), Then(Tok(3, U8), Then(Tok(1, U16), End))))))) // line 323

  /** The response_expected entry the constructor sets for an id, if any. */
  function ExpectedOf(id: int): Option<ResponseExpected>
  {
    match id
    case 1 => Some(AlwaysTrue) // line 88
    case 2 => Some(False) // line 89
    case 3 => Some(AlwaysTrue) // line 90
    case 4 => Some(AlwaysTrue) // line 91
    case 5 => Some(False) // line 92
    case 6 => Some(AlwaysTrue) // line 93
    case 7 => Some(False) // line 94
    case 8 => Some(True) // line 95
    case 9 => Some(AlwaysTrue) // line 96
    case 234 => Some(AlwaysTrue) // line 97
    case 235 => Some(AlwaysTrue) // line 98
    case 236 => Some(AlwaysTrue) // line 99
    case 237 => Some(False) // line 100
    case 238 => Some(AlwaysTrue) // line 101
    case 239 => Some(False) // line 102
    case 240 => Some(AlwaysTrue) // line 103
    case 242 => Some(AlwaysTrue) // line 104
    case 243 => Some(False) // line 105
    case 248 => Some(False) // line 106
    case 249 => Some(AlwaysTrue) // line 107
    case 255 => Some(AlwaysTrue) // line 108
    case _ => None
  }

  /** The response_expected dictionary the constructor fills; function ids are single bytes. */
  function ResponseExpectedTable(): map<int, ResponseExpected>
  {
    map id | 0 <= id < 256 && ExpectedOf(id).Some? :: ExpectedOf(id).value
  }

  /** The callback_formats entries set by the constructor. */
  function CallbackFormats(): map<int, CallbackFormat>
  {
    map[ CALLBACK_ENERGY_DATA := CallbackFormat(None, Then(Tok(1, I32), Then(Tok(1, I32), Then(Tok(1, I32), Then(Tok(1, I32), Then(Tok(1, I32), Then(Tok(1, I32), Then(Tok(1, U16), Then(Tok(1, U16), End))))))))) ]
  }

  /** The constructor: fills the three tables; no callback is registered yet. */
  method Create() returns (d: Device)
    ensures fresh(d) && d.style == PopOnNone && d.registeredCallbacks == map[]
    ensures d.responseExpected == ResponseExpectedTable() && d.callbackFormats == CallbackFormats()
    ensures d.highLevelCallbacks == map[]
  {
    d := new Device(ResponseExpectedTable(), CallbackFormats(), map[], PopOnNone);
  }

  /** Each function is in the response-expected table, ALWAYS_TRUE exactly when it returns a payload (part 1). */
  lemma ExpectationsAgree1()
    ensures ExpectationAgrees(ExpectedOf(GetEnergyData.fid), GetEnergyData)
    ensures ExpectationAgrees(ExpectedOf(ResetEnergy.fid), ResetEnergy)
    ensures ExpectationAgrees(ExpectedOf(GetWaveformLowLevel.fid), GetWaveformLowLevel)
    ensures ExpectationAgrees(ExpectedOf(GetTransformerStatus.fid), GetTransformerStatus)
    ensures ExpectationAgrees(ExpectedOf(SetTransformerCalibration.fid), SetTransformerCalibration)
  {
  }

  /** Each function is in the response-expected table, ALWAYS_TRUE exactly when it returns a payload (part 2). */
  lemma ExpectationsAgree2()
    ensures ExpectationAgrees(ExpectedOf(GetTransformerCalibration.fid), GetTransformerCalibration)
    ensures ExpectationAgrees(ExpectedOf(CalibrateOffset.fid), CalibrateOffset)
    ensures ExpectationAgrees(ExpectedOf(SetEnergyDataCallbackConfiguration.fid), SetEnergyDataCallbackConfiguration)
    ensures ExpectationAgrees(ExpectedOf(GetEnergyDataCallbackConfiguration.fid), GetEnergyDataCallbackConfiguration)
    ensures ExpectationAgrees(ExpectedOf(GetSpitfpErrorCount.fid), GetSpitfpErrorCount)
  {
  }

  /** Each function is in the response-expected table, ALWAYS_TRUE exactly when it returns a payload (part 3). */
  lemma ExpectationsAgree3()
    ensures ExpectationAgrees(ExpectedOf(SetBootloaderMode.fid), SetBootloaderMode)
    ensures ExpectationAgrees(ExpectedOf(GetBootloaderMode.fid), GetBootloaderMode)
    ensures ExpectationAgrees(ExpectedOf(SetWriteFirmwarePointer.fid), SetWriteFirmwarePointer)
    ensures ExpectationAgrees(ExpectedOf(WriteFirmware.fid), WriteFirmware)
    ensures ExpectationAgrees(ExpectedOf(SetStatusLedConfig.fid), SetStatusLedConfig)
  {
  }

  /** Each function is in the response-expected table, ALWAYS_TRUE exactly when it returns a payload (part 4). */
  lemma ExpectationsAgree4()
    ensures ExpectationAgrees(ExpectedOf(GetStatusLedConfig.fid), GetStatusLedConfig)
    ensures ExpectationAgrees(ExpectedOf(GetChipTemperature.fid), GetChipTemperature)
    ensures ExpectationAgrees(ExpectedOf(Reset.fid), Reset)
    ensures ExpectationAgrees(ExpectedOf(WriteUid.fid), WriteUid)
    ensures ExpectationAgrees(ExpectedOf(ReadUid.fid), ReadUid)
  {
  }

  /** Each function is in the response-expected table, ALWAYS_TRUE exactly when it returns a payload (part 5). */
  lemma ExpectationsAgree5()
    ensures ExpectationAgrees(ExpectedOf(GetIdentity.fid), GetIdentity)
  {
  }

  /** The dictionary holds exactly the ids the constructor assigns. */
  lemma TableKeys()
    ensures forall id :: id in ResponseExpectedTable() <==> ExpectedOf(id).Some?
    ensures forall id | id in ResponseExpectedTable() :: ResponseExpectedTable()[id] == ExpectedOf(id).value
  {
  }

  /** The ids flagged TRUE (acknowledged only on request) are exactly these setters, none of which returns a payload; no id is flagged ALWAYS_FALSE. */
  lemma AcknowledgedSetters()
    ensures forall id :: ExpectedOf(id) == Some(True) <==> id == SetEnergyDataCallbackConfiguration.fid
    ensures !ReturnsPayload(SetEnergyDataCallbackConfiguration)
    ensures forall id :: ExpectedOf(id) == Some(AlwaysFalse) <==> false
  {
  }

  /** Each setter sends exactly the format its getter returns. */
  lemma SetGetFormatsMirror()
    ensures SetTransformerCalibration.reqFormat == GetTransformerCalibration.respFormat && GetTransformerCalibration.reqFormat == End
    ensures SetEnergyDataCallbackConfiguration.reqFormat == GetEnergyDataCallbackConfiguration.respFormat && GetEnergyDataCallbackConfiguration.reqFormat == End
    ensures SetBootloaderMode.reqFormat == GetBootloaderMode.respFormat && GetBootloaderMode.reqFormat == End
    ensures SetStatusLedConfig.reqFormat == GetStatusLedConfig.respFormat && GetStatusLedConfig.reqFormat == End
  {
  }

  /** The waveform always has this many values. */
  const WAVEFORM_LENGTH: nat := 1536

  /** The largest 16-bit chunk offset: the device has no waveform data. */
  const NO_DATA_OFFSET: nat := 0xFFFF

  /** Low-level responses of an in-sync waveform: ceil(1536 / 30). */
  const WAVEFORM_CHUNKS: nat := 52

  /** One response of get_waveform_low_level: this chunk's offset and its values. */
  datatype WaveformLowLevel = WaveformLowLevel(chunkOffset: nat, chunkData: seq<int>)

  /** The low-level response format 'H 30h': a 16-bit offset and exactly 30 values. */
  predicate WellFormed(c: WaveformLowLevel)
  {
    c.chunkOffset < 0x1_0000 && |c.chunkData| == CHUNK_SIZE
  }

  predicate AllWellFormed(rs: seq<WaveformLowLevel>)
  {
    forall k :: 0 <= k < |rs| ==> WellFormed(rs[k])
  }

  /** The chunk values of the given responses, one after the other. */
  function Concat(rs: seq<WaveformLowLevel>): (r: seq<int>)
    ensures AllWellFormed(rs) ==> |r| == CHUNK_SIZE * |rs|
  {
    if |rs| == 0 then [] else Concat(rs[..|rs| - 1]) + rs[|rs| - 1].chunkData
  }

  lemma ConcatStep(rs: seq<WaveformLowLevel>, i: nat)
    requires i < |rs|
    ensures Concat(rs[..i + 1]) == Concat(rs[..i]) + rs[i].chunkData
  {
    assert rs[..i + 1][..i] == rs[..i];
  }

  /**
   * The loop that discards the rest of an out-of-sync stream, against the
   * fixed length: it never returns a value, and consumes no response it was
   * not given.
   */
  function Drain(rs: seq<WaveformLowLevel>, i: nat, offset: nat): (r: Outcome)
    requires i <= |rs|
    ensures r.result.Err? && i <= r.used <= |rs|
    decreases |rs| - i
  {
    if offset + CHUNK_SIZE >= WAVEFORM_LENGTH then Outcome(Err(StreamOutOfSync), i)
    else if i == |rs| then Outcome(Err(NoResponse), i)
    else Drain(rs, i + 1, rs[i].chunkOffset)
  }

  /** The in-sync loop with `data` accumulated so far: a value it returns has exactly 1536 entries. */
  function Collect(rs: seq<WaveformLowLevel>, i: nat, data: seq<int>): (r: Outcome)
    requires i <= |rs|
    ensures i <= r.used <= |rs|
    ensures r.result.Ok? ==> |r.result.value| == WAVEFORM_LENGTH
    decreases |rs| - i
  {
    if |data| >= WAVEFORM_LENGTH then Outcome(Ok(data[..WAVEFORM_LENGTH]), i)
    else if i == |rs| then Outcome(Err(NoResponse), i)
    else if rs[i].chunkOffset != |data| then Drain(rs, i + 1, rs[i].chunkOffset)
    else Collect(rs, i + 1, data + rs[i].chunkData)
  }

  /**
   * What get_waveform returns or raises when the low-level getter answers
   * `rs` in turn: a waveform is empty after the no-data sentinel and has
   * exactly 1536 values otherwise; at least one request is made.
   */
  function Waveform(rs: seq<WaveformLowLevel>): (r: Outcome)
    ensures r.used <= |rs| && (|rs| > 0 ==> 1 <= r.used)
    ensures r.result.Ok? ==>
      |rs| > 0 && |r.result.value| == if rs[0].chunkOffset == NO_DATA_OFFSET then 0 else WAVEFORM_LENGTH
  {
    if |rs| == 0 then Outcome(Err(NoResponse), 0)
    else if rs[0].chunkOffset == NO_DATA_OFFSET then Outcome(Ok([]), 1)
    else if rs[0].chunkOffset != 0 then Drain(rs, 1, rs[0].chunkOffset)
    else Collect(rs, 1, rs[0].chunkData)
  }

  /** get_waveform: the no-data sentinel, then the in-sync loop, then draining and raising. */
  method GetWaveform(responses: seq<WaveformLowLevel>) returns (result: Result<seq<int>, StreamError>, used: nat)
    ensures Outcome(result, used) == Waveform(responses)
  {
    var waveformLength := WAVEFORM_LENGTH;
    if |responses| == 0 {
      return Err(NoResponse), 0;
    }
    var ret := responses[0];
    used := 1;
    var outOfSync: bool;
    var data: seq<int>;
    if ret.chunkOffset == NO_DATA_OFFSET {
      waveformLength := 0;
      outOfSync := false;
      data := [];
    } else {
      outOfSync := ret.chunkOffset != 0;
      data := ret.chunkData;
    }
    while !outOfSync && |data| < waveformLength
      invariant 1 <= used <= |responses| && ret == responses[used - 1]
      invariant waveformLength == 0 ==> Waveform(responses) == Outcome(Ok([]), 1) && used == 1 && data == [] && !outOfSync
      invariant waveformLength != 0 ==> waveformLength == WAVEFORM_LENGTH
      invariant waveformLength != 0 && !outOfSync ==> Waveform(responses) == Collect(responses, used, data)
      invariant waveformLength != 0 && outOfSync ==> Waveform(responses) == Drain(responses, used, ret.chunkOffset)
      decreases |responses| - used, if outOfSync then 0 else 1
    {
      if used == |responses| {
        return Err(NoResponse), used;
      }
      ret := responses[used];
      used := used + 1;
      outOfSync := ret.chunkOffset != |data|;
      data := data + ret.chunkData;
    }
    if outOfSync {
      while ret.chunkOffset + CHUNK_SIZE < waveformLength
        invariant 1 <= used <= |responses| && waveformLength == WAVEFORM_LENGTH
        invariant Waveform(responses) == Drain(responses, used, ret.chunkOffset)
        decreases |responses| - used
      {
        if used == |responses| {
          return Err(NoResponse), used;
        }
        ret := responses[used];
        used := used + 1;
      }
      return Err(StreamOutOfSync), used;
    }
    result := Ok(data[..waveformLength]);
  }

  /** A first chunk at offset 0xFFFF means no data: an empty waveform, no error, no further request. */
  lemma NoDataSentinel(rs: seq<WaveformLowLevel>)
    requires |rs| > 0 && rs[0].chunkOffset == NO_DATA_OFFSET
    ensures Waveform(rs) == Outcome(Ok([]), 1)
  {
  }

  /** The first `WAVEFORM_CHUNKS` responses are in sync: chunk k starts at offset 30 * k. */
  predicate InSyncRun(rs: seq<WaveformLowLevel>)
  {
    WAVEFORM_CHUNKS <= |rs| && forall k :: 0 <= k < WAVEFORM_CHUNKS ==> rs[k].chunkOffset == CHUNK_SIZE * k
  }

  lemma {:induction false} CollectInSync(rs: seq<WaveformLowLevel>, i: nat)
    requires AllWellFormed(rs) && InSyncRun(rs) && 1 <= i <= WAVEFORM_CHUNKS
    ensures Collect(rs, i, Concat(rs[..i])) == Outcome(Ok(Concat(rs[..WAVEFORM_CHUNKS])[..WAVEFORM_LENGTH]), WAVEFORM_CHUNKS)
    decreases WAVEFORM_CHUNKS - i
  {
    if i < WAVEFORM_CHUNKS {
      ConcatStep(rs, i);
      CollectInSync(rs, i + 1);
    }
  }

  lemma {:induction false} CollectOkInSync(rs: seq<WaveformLowLevel>, i: nat)
    requires AllWellFormed(rs) && 1 <= i <= |rs| && i <= WAVEFORM_CHUNKS
    requires forall k :: 0 <= k < i ==> rs[k].chunkOffset == CHUNK_SIZE * k
    requires Collect(rs, i, Concat(rs[..i])).result.Ok?
    ensures InSyncRun(rs) && Collect(rs, i, Concat(rs[..i])).used == WAVEFORM_CHUNKS
    decreases WAVEFORM_CHUNKS - i
  {
    if i < WAVEFORM_CHUNKS {
      ConcatStep(rs, i);
      CollectOkInSync(rs, i + 1);
    }
  }

  /** An in-sync run consumes exactly 52 responses and returns the first 1536 values of their chunks. */
  lemma InSyncWaveform(rs: seq<WaveformLowLevel>)
    requires AllWellFormed(rs) && InSyncRun(rs)
    ensures Waveform(rs) == Outcome(Ok(Concat(rs[..WAVEFORM_CHUNKS])[..WAVEFORM_LENGTH]), WAVEFORM_CHUNKS)
    ensures |Waveform(rs).result.value| == WAVEFORM_LENGTH
  {
    assert rs[..1] == [rs[0]];
    assert Concat(rs[..1]) == rs[0].chunkData;
    CollectInSync(rs, 1);
  }

  /** Apart from the no-data sentinel, get_waveform returns a value only after a 52-response in-sync run. */
  lemma WaveformOkIsInSync(rs: seq<WaveformLowLevel>)
    requires AllWellFormed(rs) && Waveform(rs).result.Ok? && rs[0].chunkOffset != NO_DATA_OFFSET
    ensures InSyncRun(rs) && Waveform(rs).used == WAVEFORM_CHUNKS
  {
    assert rs[..1] == [rs[0]];
    assert Concat(rs[..1]) == rs[0].chunkData;
    CollectOkInSync(rs, 1);
  }

  lemma {:induction false} DrainEnds(rs: seq<WaveformLowLevel>, i: nat, offset: nat)
    requires 1 <= i <= |rs|
    requires offset == rs[i - 1].chunkOffset
    ensures var o := Drain(rs, i, offset);
      i <= o.used <= |rs| &&
      (o.result == Err(StreamOutOfSync) ==> rs[o.used - 1].chunkOffset + CHUNK_SIZE >= WAVEFORM_LENGTH)
    decreases |rs| - i
  {
    if offset + CHUNK_SIZE < WAVEFORM_LENGTH && i < |rs| {
      DrainEnds(rs, i + 1, rs[i].chunkOffset);
    }
  }

  lemma {:induction false} CollectOutOfSyncDrained(rs: seq<WaveformLowLevel>, i: nat, data: seq<int>)
    requires 1 <= i <= |rs|
    ensures var o := Collect(rs, i, data);
      o.result == Err(StreamOutOfSync) ==> 1 <= o.used <= |rs| && rs[o.used - 1].chunkOffset + CHUNK_SIZE >= WAVEFORM_LENGTH
    decreases |rs| - i
  {
    if |data| < WAVEFORM_LENGTH && i < |rs| {
      if rs[i].chunkOffset != |data| {
        DrainEnds(rs, i + 1, rs[i].chunkOffset);
      } else {
        CollectOutOfSyncDrained(rs, i + 1, data + rs[i].chunkData);
      }
    }
  }

  /** STREAM_OUT_OF_SYNC is raised only once the last response consumed reached the end of the 1536 values. */
  lemma OutOfSyncIsDrained(rs: seq<WaveformLowLevel>)
    requires Waveform(rs).result == Err(StreamOutOfSync)
    ensures 1 <= Waveform(rs).used <= |rs|
    ensures rs[Waveform(rs).used - 1].chunkOffset + CHUNK_SIZE >= WAVEFORM_LENGTH
  {
    if rs[0].chunkOffset != 0 {
      DrainEnds(rs, 1, rs[0].chunkOffset);
    } else {
      CollectOutOfSyncDrained(rs, 1, rs[0].chunkData);
    }
  }
}
