/**
 * The Sound Pressure Level Bricklet binding: its tables, and `get_spectrum`,
 * which reassembles the spectrum from 30-value low-level chunks.
 */
module SoundPressureLevel {
  import opened Wrappers
  import opened WireFormat
  import opened Bindings
  import opened Streams

  /** Device identifier of this bricklet (src/brickv/bindings/bricklet_sound_pressure_level.py:30). */
  const DEVICE_IDENTIFIER: int := 290

  const CALLBACK_DECIBEL: int := 4
  const CALLBACK_SPECTRUM_LOW_LEVEL: int := 8
  const CALLBACK_SPECTRUM: int := -8

  // One constant per send_request call, named after the binding method that makes it.
  const GetDecibel := Request(1, End, Some(10), Then(Tok(1, U16), End)) // line 143
  const SetDecibelCallbackConfiguration := Request(2, Then(Tok(1, U32), Then(Tok(1, Bool), Then(Tok(1, Char), Then(Tok(1, U16), Then(Tok(1, U16), End))))), Some(0), End) // line 183
  const GetDecibelCallbackConfiguration := Request(3, End, Some(18), Then(Tok(1, U32), Then(Tok(1, Bool), Then(Tok(1, Char), Then(Tok(1, U16), Then(Tok(1, U16), End)))))) // line 191
  const GetSpectrumLowLevel := Request(5, End, Some(72), Then(Tok(1, U16), Then(Tok(1, U16), Then(Tok(30, U16), End)))) // line 216
  const SetSpectrumCallbackConfiguration := Request(6, Then(Tok(1, U32), End), Some(0), End) // line 230
  const GetSpectrumCallbackConfiguration := Request(7, End, Some(12), Then(Tok(1, U32), End)) // line 239
  const SetConfiguration := Request(9, Then(Tok(1, U8), Then(Tok(1, U8), End)), Some(0), End) // line 270
  const GetConfiguration := Request(10, End, Some(10), Then(Tok(1, U8), Then(Tok(1, U8), End))) // line 278
  const GetSpitfpErrorCount := Request(234, End, Some(24), Then(Tok(1, U32), Then(Tok(1, U32), Then(Tok(1, U32), Then(Tok(1, U32), End))))) // line 296
  const SetBootloaderMode := Request(235, Then(Tok(1, U8), End), Some(9), Then(Tok(1, U8), End)) // line 314
  const GetBootloaderMode := Request(236, End, Some(9), Then(Tok(1, U8), End)) // line 322
  const SetWriteFirmwarePointer := Request(237, Then(Tok(1, U32), End), Some(0), End) // line 337
  const WriteFirmware := Request(238, Then(Tok(64, U8), End), Some(9), Then(Tok(1, U8), End)) // line 354
  const SetStatusLedConfig := Request(239, Then(Tok(1, U8), End), Some(0), End) // line 370
  const GetStatusLedConfig := Request(240, End, Some(9), Then(Tok(1, U8), End)) // line 378
  const GetChipTemperature := Request(242, End, Some(10), Then(Tok(1, I16), End)) // line 391
  const Reset := Request(243, End, Some(0), End) // line 404
  const WriteUid := Request(248, Then(Tok(1, U32), End), Some(0), End) // line 418
  const ReadUid := Request(249, End, Some(12), Then(Tok(1, U32), End)) // line 427
  const GetIdentity := Request(255, End, Some(33), Then(Tok(8, Str), Then(Tok(8, Str), Then(Tok(1, Char), Then(Tok(3, U8), Then(Tok(3, U8), Then(Tok(1, U16), End))))))) // line 442

  /** The response_expected entry the constructor sets for an id, if any. */
  function ExpectedOf(id: int): Option<ResponseExpected>
  {
    match id
    case 1 => Some(AlwaysTrue) // line 100
    case 2 => Some(True) // line 101
    case 3 => Some(AlwaysTrue) // line 102
    case 5 => Some(AlwaysTrue) // line 103
    case 6 => Some(True) // line 104
    case 7 => Some(AlwaysTrue) // line 105
    case 9 => Some(False) // line 106
    case 10 => Some(AlwaysTrue) // line 107
    case 234 => Some(AlwaysTrue) // line 108
    case 235 => Some(AlwaysTrue) // line 109
    case 236 => Some(AlwaysTrue) // line 110
    case 237 => Some(False) // line 111
    case 238 => Some(AlwaysTrue) // line 112
    case 239 => Some(False) // line 113
    case 240 => Some(AlwaysTrue) // line 114
    case 242 => Some(AlwaysTrue) // line 115
    case 243 => Some(False) // line 116
    case 248 => Some(False) // line 117
    case 249 => Some(AlwaysTrue) // line 118
    case 255 => Some(AlwaysTrue) // line 119
    case _ => None
  }

  /** The response_expected dictionary the constructor fills; function ids are single bytes. */
  function ResponseExpectedTable(): map<int, ResponseExpected>
  {
    map id | 0 <= id < 256 && ExpectedOf(id).Some? :: ExpectedOf(id).value
  }

  /** The callback_formats entries set by the constructor. */
  function CallbackFormats(): map<int, CallbackFormat>
  {
    map[ CALLBACK_DECIBEL := CallbackFormat(Some(10), Then(Tok(1, U16), End)),
         CALLBACK_SPECTRUM_LOW_LEVEL := CallbackFormat(Some(72), Then(Tok(1, U16), Then(Tok(1, U16), Then(Tok(30, U16), End)))) ]
  }

  /** The high_level_callbacks entries set by the constructor. */
  function HighLevelCallbacks(): map<int, HighLevelCallback>
  {
    map[CALLBACK_SPECTRUM := HighLevelCallback(None, false)]
  }

  /** The constructor: fills the three tables; no callback is registered yet. */
  method Create() returns (d: Device)
    ensures fresh(d) && d.style == PopOnNone && d.registeredCallbacks == map[]
    ensures d.responseExpected == ResponseExpectedTable() && d.callbackFormats == CallbackFormats()
    ensures d.highLevelCallbacks == HighLevelCallbacks()
  {
    d := new Device(ResponseExpectedTable(), CallbackFormats(), HighLevelCallbacks(), PopOnNone);
  }

  /** Each declared response length is 0 with no payload, or 8 plus the packed response format (part 1). */
  lemma DeclaredLengths1()
    ensures LengthAgrees(GetDecibel)
    ensures LengthAgrees(SetDecibelCallbackConfiguration)
    ensures LengthAgrees(GetDecibelCallbackConfiguration)
  {
  }

  /** Each declared response length is 0 with no payload, or 8 plus the packed response format (part 2). */
  lemma DeclaredLengths2()
    ensures LengthAgrees(GetSpectrumLowLevel)
    ensures LengthAgrees(SetSpectrumCallbackConfiguration)
    ensures LengthAgrees(GetSpectrumCallbackConfiguration)
    ensures LengthAgrees(SetConfiguration)
  {
  }

  /** Each declared response length is 0 with no payload, or 8 plus the packed response format (part 3). */
  lemma DeclaredLengths3()
    ensures LengthAgrees(GetConfiguration)
    ensures LengthAgrees(GetSpitfpErrorCount)
    ensures LengthAgrees(SetBootloaderMode)
  {
  }

  /** Each declared response length is 0 with no payload, or 8 plus the packed response format (part 4). */
  lemma DeclaredLengths4()
    ensures LengthAgrees(GetBootloaderMode)
    ensures LengthAgrees(SetWriteFirmwarePointer)
    ensures LengthAgrees(WriteFirmware)
    ensures LengthAgrees(SetStatusLedConfig)
    ensures LengthAgrees(GetStatusLedConfig)
    ensures LengthAgrees(GetChipTemperature)
  {
  }

  /** Each declared response length is 0 with no payload, or 8 plus the packed response format (part 5). */
  lemma DeclaredLengths5()
    ensures LengthAgrees(Reset)
    ensures LengthAgrees(WriteUid)
    ensures LengthAgrees(ReadUid)
  {
  }

  /** Each declared response length is 0 with no payload, or 8 plus the packed response format (part 6). */
  lemma DeclaredLengths6()
    ensures LengthAgrees(GetIdentity)
  {
  }

  /** Every declared callback length is 8 plus the packed callback format. */
  lemma CallbackLengths()
    ensures forall id | id in CallbackFormats() :: CallbackLengthAgrees(CallbackFormats()[id])
  {
  }

  /** Each function is in the response-expected table, ALWAYS_TRUE exactly when it returns a payload (part 1). */
  lemma ExpectationsAgree1()
    ensures ExpectationAgrees(ExpectedOf(GetDecibel.fid), GetDecibel)
    ensures ExpectationAgrees(ExpectedOf(SetDecibelCallbackConfiguration.fid), SetDecibelCallbackConfiguration)
    ensures ExpectationAgrees(ExpectedOf(GetDecibelCallbackConfiguration.fid), GetDecibelCallbackConfiguration)
    ensures ExpectationAgrees(ExpectedOf(GetSpectrumLowLevel.fid), GetSpectrumLowLevel)
    ensures ExpectationAgrees(ExpectedOf(SetSpectrumCallbackConfiguration.fid), SetSpectrumCallbackConfiguration)
  {
  }

  /** Each function is in the response-expected table, ALWAYS_TRUE exactly when it returns a payload (part 2). */
  lemma ExpectationsAgree2()
    ensures ExpectationAgrees(ExpectedOf(GetSpectrumCallbackConfiguration.fid), GetSpectrumCallbackConfiguration)
    ensures ExpectationAgrees(ExpectedOf(SetConfiguration.fid), SetConfiguration)
    ensures ExpectationAgrees(ExpectedOf(GetConfiguration.fid), GetConfiguration)
    ensures ExpectationAgrees(ExpectedOf(GetSpitfpErrorCount.fid), GetSpitfpErrorCount)
    ensures ExpectationAgrees(ExpectedOf(SetBootloaderMode.fid), SetBootloaderMode)
  {
  }

  /** Each function is in the response-expected table, ALWAYS_TRUE exactly when it returns a payload (part 3). */
  lemma ExpectationsAgree3()
    ensures ExpectationAgrees(ExpectedOf(GetBootloaderMode.fid), GetBootloaderMode)
    ensures ExpectationAgrees(ExpectedOf(SetWriteFirmwarePointer.fid), SetWriteFirmwarePointer)
    ensures ExpectationAgrees(ExpectedOf(WriteFirmware.fid), WriteFirmware)
    ensures ExpectationAgrees(ExpectedOf(SetStatusLedConfig.fid), SetStatusLedConfig)
    ensures ExpectationAgrees(ExpectedOf(GetStatusLedConfig.fid), GetStatusLedConfig)
  {
  }

  /** Each function is in the response-expected table, ALWAYS_TRUE exactly when it returns a payload (part 4). */
  lemma ExpectationsAgree4()
    ensures ExpectationAgrees(ExpectedOf(GetChipTemperature.fid), GetChipTemperature)
    ensures ExpectationAgrees(ExpectedOf(Reset.fid), Reset)
    ensures ExpectationAgrees(ExpectedOf(WriteUid.fid), WriteUid)
    ensures ExpectationAgrees(ExpectedOf(ReadUid.fid), ReadUid)
    ensures ExpectationAgrees(ExpectedOf(GetIdentity.fid), GetIdentity)
  {
  }

  /** The dictionary holds exactly the ids the constructor assigns. */
  lemma TableKeys()
    ensures forall id :: id in ResponseExpectedTable() <==> ExpectedOf(id).Some?
    ensures forall id | id in ResponseExpectedTable() :: ResponseExpectedTable()[id] == ExpectedOf(id).value
  {
  }

  /** The ids flagged TRUE (acknowledged only on request) are exactly these setters, none of which returns a payload; no id is flagged ALWAYS_FALSE. */
  lemma AcknowledgedSetters()
    ensures forall id :: ExpectedOf(id) == Some(True) <==> id == SetDecibelCallbackConfiguration.fid || id == SetSpectrumCallbackConfiguration.fid
    ensures !ReturnsPayload(SetDecibelCallbackConfiguration)
    ensures !ReturnsPayload(SetSpectrumCallbackConfiguration)
    ensures forall id :: ExpectedOf(id) == Some(AlwaysFalse) <==> false
  {
  }

  /** Each setter sends exactly the format its getter returns. */
  lemma SetGetFormatsMirror()
    ensures SetDecibelCallbackConfiguration.reqFormat == GetDecibelCallbackConfiguration.respFormat && GetDecibelCallbackConfiguration.reqFormat == End
    ensures SetSpectrumCallbackConfiguration.reqFormat == GetSpectrumCallbackConfiguration.respFormat && GetSpectrumCallbackConfiguration.reqFormat == End
    ensures SetConfiguration.reqFormat == GetConfiguration.respFormat && GetConfiguration.reqFormat == End
    ensures SetBootloaderMode.reqFormat == GetBootloaderMode.respFormat && GetBootloaderMode.reqFormat == End
    ensures SetStatusLedConfig.reqFormat == GetStatusLedConfig.respFormat && GetStatusLedConfig.reqFormat == End
  {
  }

  /** One response of get_spectrum_low_level: the spectrum's total length, this chunk's offset and its values. */
  datatype SpectrumLowLevel = SpectrumLowLevel(spectrumLength: nat, chunkOffset: nat, chunkData: seq<int>)

  /** The low-level response format 'H H 30H': two 16-bit fields and exactly 30 values. */
  predicate WellFormed(c: SpectrumLowLevel)
  {
    c.spectrumLength < 0x1_0000 && c.chunkOffset < 0x1_0000 && |c.chunkData| == CHUNK_SIZE
  }

  predicate AllWellFormed(rs: seq<SpectrumLowLevel>)
  {
    forall k :: 0 <= k < |rs| ==> WellFormed(rs[k])
  }

  /** The chunk values of the given responses, one after the other. */
  function Concat(rs: seq<SpectrumLowLevel>): (r: seq<int>)
    ensures AllWellFormed(rs) ==> |r| == CHUNK_SIZE * |rs|
  {
    if |rs| == 0 then [] else Concat(rs[..|rs| - 1]) + rs[|rs| - 1].chunkData
  }

  lemma ConcatStep(rs: seq<SpectrumLowLevel>, i: nat)
    requires i < |rs|
    ensures Concat(rs[..i + 1]) == Concat(rs[..i]) + rs[i].chunkData
  {
    assert rs[..i + 1][..i] == rs[..i];
  }

  /**
   * The loop that discards the rest of an out-of-sync stream: it stops once
   * the last response's chunk reaches the end of the stream, re-reading the
   * length from every response. It never returns a value, and consumes no
   * response it was not given.
   */
  function Drain(rs: seq<SpectrumLowLevel>, i: nat, offset: nat, length: nat): (r: Outcome)
    requires i <= |rs|
    ensures r.result.Err? && i <= r.used <= |rs|
    decreases |rs| - i
  {
    if offset + CHUNK_SIZE >= length then Outcome(Err(StreamOutOfSync), i)
    else if i == |rs| then Outcome(Err(NoResponse), i)
    else Drain(rs, i + 1, rs[i].chunkOffset, rs[i].spectrumLength)
  }

  /**
   * The in-sync loop, with `data` accumulated so far and `length` the latest
   * reported length: a value it returns has the length the last response it
   * consumed reported.
   */
  function Collect(rs: seq<SpectrumLowLevel>, i: nat, length: nat, data: seq<int>): (r: Outcome)
    requires i <= |rs|
    ensures i <= r.used <= |rs|
    ensures r.result.Ok? && 1 <= i && length == rs[i - 1].spectrumLength ==>
      1 <= r.used && |r.result.value| == rs[r.used - 1].spectrumLength
    decreases |rs| - i
  {
    if |data| >= length then Outcome(Ok(data[..length]), i)
    else if i == |rs| then Outcome(Err(NoResponse), i)
    else if rs[i].chunkOffset != |data| then Drain(rs, i + 1, rs[i].chunkOffset, rs[i].spectrumLength)
    else Collect(rs, i + 1, rs[i].spectrumLength, data + rs[i].chunkData)
  }

  /**
   * What get_spectrum returns or raises when the low-level getter answers
   * `rs` in turn: at least one request is made, and a spectrum has the length
   * the last response consumed reported.
   */
  function Spectrum(rs: seq<SpectrumLowLevel>): (r: Outcome)
    ensures r.used <= |rs| && (|rs| > 0 ==> 1 <= r.used)
    ensures r.result.Ok? ==> 1 <= r.used && |r.result.value| == rs[r.used - 1].spectrumLength
  {
    if |rs| == 0 then Outcome(Err(NoResponse), 0)
    else if rs[0].chunkOffset != 0 then Drain(rs, 1, rs[0].chunkOffset, rs[0].spectrumLength)
    else Collect(rs, 1, rs[0].spectrumLength, rs[0].chunkData)
  }

  /** get_spectrum: read chunks while they are in sync, then drain an out-of-sync stream and raise. */
  method GetSpectrum(responses: seq<SpectrumLowLevel>) returns (result: Result<seq<int>, StreamError>, used: nat)
    ensures Outcome(result, used) == Spectrum(responses)
  {
    if |responses| == 0 {
      return Err(NoResponse), 0;
    }
    var ret := responses[0];
    used := 1;
    var length := ret.spectrumLength;
    var outOfSync := ret.chunkOffset != 0;
    var data := ret.chunkData;
    while !outOfSync && |data| < length
      invariant 1 <= used <= |responses| && ret == responses[used - 1] && length == ret.spectrumLength
      invariant !outOfSync ==> Spectrum(responses) == Collect(responses, used, length, data)
      invariant outOfSync ==> Spectrum(responses) == Drain(responses, used, ret.chunkOffset, length)
      decreases |responses| - used, if outOfSync then 0 else 1
    {
      if used == |responses| {
        return Err(NoResponse), used;
      }
      ret := responses[used];
      used := used + 1;
      length := ret.spectrumLength;
      outOfSync := ret.chunkOffset != |data|;
      data := data + ret.chunkData;
    }
    if outOfSync {
      while ret.chunkOffset + CHUNK_SIZE < length
        invariant 1 <= used <= |responses| && length == ret.spectrumLength
        invariant Spectrum(responses) == Drain(responses, used, ret.chunkOffset, length)
        decreases |responses| - used
      {
        if used == |responses| {
          return Err(NoResponse), used;
        }
        ret := responses[used];
        used := used + 1;
        length := ret.spectrumLength;
      }
      return Err(StreamOutOfSync), used;
    }
    result := Ok(data[..length]);
  }

  /**
   * The first n responses form a complete in-sync run: chunk k starts at
   * offset 30 * k, every response before the last still reports a length
   * beyond the values collected so far, and the last one's length is covered.
   */
  predicate InSyncRun(rs: seq<SpectrumLowLevel>, n: nat)
  {
    1 <= n <= |rs| &&
    (forall k :: 0 <= k < n ==> rs[k].chunkOffset == CHUNK_SIZE * k) &&
    (forall k :: 0 <= k < n - 1 ==> CHUNK_SIZE * (k + 1) < rs[k].spectrumLength) &&
    rs[n - 1].spectrumLength <= CHUNK_SIZE * n
  }

  lemma {:induction false} CollectInSync(rs: seq<SpectrumLowLevel>, i: nat, n: nat)
    requires AllWellFormed(rs) && InSyncRun(rs, n) && 1 <= i <= n
    ensures Collect(rs, i, rs[i - 1].spectrumLength, Concat(rs[..i]))
         == Outcome(Ok(Concat(rs[..n])[..rs[n - 1].spectrumLength]), n)
    decreases n - i
  {
    if i < n {
      assert CHUNK_SIZE * ((i - 1) + 1) < rs[i - 1].spectrumLength;
      ConcatStep(rs, i);
      CollectInSync(rs, i + 1, n);
    }
  }

  lemma {:induction false} CollectOkInSync(rs: seq<SpectrumLowLevel>, i: nat)
    requires AllWellFormed(rs) && 1 <= i <= |rs|
    requires forall k :: 0 <= k < i ==> rs[k].chunkOffset == CHUNK_SIZE * k
    requires forall k :: 0 <= k < i - 1 ==> CHUNK_SIZE * (k + 1) < rs[k].spectrumLength
    requires Collect(rs, i, rs[i - 1].spectrumLength, Concat(rs[..i])).result.Ok?
    ensures InSyncRun(rs, Collect(rs, i, rs[i - 1].spectrumLength, Concat(rs[..i])).used)
    decreases |rs| - i
  {
    if |Concat(rs[..i])| < rs[i - 1].spectrumLength {
      ConcatStep(rs, i);
      CollectOkInSync(rs, i + 1);
    }
  }

  /** An in-sync run returns the first `spectrum_length` values of its chunks, as many as the last response reports. */
  lemma InSyncSpectrum(rs: seq<SpectrumLowLevel>, n: nat)
    requires AllWellFormed(rs) && InSyncRun(rs, n)
    ensures Spectrum(rs) == Outcome(Ok(Concat(rs[..n])[..rs[n - 1].spectrumLength]), n)
    ensures |Spectrum(rs).result.value| == rs[n - 1].spectrumLength
  {
    assert rs[..1] == [rs[0]];
    assert Concat(rs[..1]) == rs[0].chunkData;
    CollectInSync(rs, 1, n);
  }

  /** get_spectrum returns a value only after a complete in-sync run, of exactly the responses it consumed. */
  lemma SpectrumOkIsInSync(rs: seq<SpectrumLowLevel>)
    requires AllWellFormed(rs) && Spectrum(rs).result.Ok?
    ensures InSyncRun(rs, Spectrum(rs).used)
  {
    assert rs[..1] == [rs[0]];
    assert Concat(rs[..1]) == rs[0].chunkData;
    CollectOkInSync(rs, 1);
  }

  lemma {:induction false} DrainEnds(rs: seq<SpectrumLowLevel>, i: nat)
    requires 1 <= i <= |rs|
    ensures Drain(rs, i, rs[i - 1].chunkOffset, rs[i - 1].spectrumLength).result.Err?
    ensures var o := Drain(rs, i, rs[i - 1].chunkOffset, rs[i - 1].spectrumLength);
      i <= o.used <= |rs| &&
      (o.result == Err(StreamOutOfSync) <==> o.used >= 1 && rs[o.used - 1].chunkOffset + CHUNK_SIZE >= rs[o.used - 1].spectrumLength)
    decreases |rs| - i
  {
    if rs[i - 1].chunkOffset + CHUNK_SIZE < rs[i - 1].spectrumLength && i < |rs| {
      DrainEnds(rs, i + 1);
    }
  }

  /**
   * A first chunk with a nonzero offset is out of sync: no value is returned,
   * and if that chunk already reaches the end of the stream the error is
   * raised without a further request.
   */
  lemma FirstChunkOutOfSync(rs: seq<SpectrumLowLevel>)
    requires |rs| > 0 && rs[0].chunkOffset != 0
    ensures Spectrum(rs).result.Err?
    ensures rs[0].chunkOffset + CHUNK_SIZE >= rs[0].spectrumLength ==> Spectrum(rs) == Outcome(Err(StreamOutOfSync), 1)
  {
    DrainEnds(rs, 1);
  }

  lemma {:induction false} CollectOutOfSyncDrained(rs: seq<SpectrumLowLevel>, i: nat, length: nat, data: seq<int>)
    requires 1 <= i <= |rs|
    ensures var o := Collect(rs, i, length, data);
      o.result == Err(StreamOutOfSync) ==> 1 <= o.used <= |rs| && rs[o.used - 1].chunkOffset + CHUNK_SIZE >= rs[o.used - 1].spectrumLength
    decreases |rs| - i
  {
    if |data| < length && i < |rs| {
      if rs[i].chunkOffset != |data| {
        DrainEnds(rs, i + 1);
      } else {
        CollectOutOfSyncDrained(rs, i + 1, rs[i].spectrumLength, data + rs[i].chunkData);
      }
    }
  }

  /** STREAM_OUT_OF_SYNC is raised only once the last response consumed reached the end of the stream. */
  lemma OutOfSyncIsDrained(rs: seq<SpectrumLowLevel>)
    requires Spectrum(rs).result == Err(StreamOutOfSync)
    ensures 1 <= Spectrum(rs).used <= |rs|
    ensures rs[Spectrum(rs).used - 1].chunkOffset + CHUNK_SIZE >= rs[Spectrum(rs).used - 1].spectrumLength
  {
    if rs[0].chunkOffset != 0 {
      DrainEnds(rs, 1);
    } else {
      CollectOutOfSyncDrained(rs, 1, rs[0].spectrumLength, rs[0].chunkData);
    }
  }
}
