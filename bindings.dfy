/**
 * What the generated bricklet bindings share: the response-expected flags,
 * the callback-format table, and the dictionary of registered user callbacks
 * that `register_callback` maintains.
 *
 * The transport that sends requests and dispatches callbacks (the IP
 * connection) is not part of this model; a binding here is its tables plus
 * the callback dictionary.
 */
module Bindings {
  import opened Wrappers
  import opened WireFormat

  /** The four RESPONSE_EXPECTED_* flags a binding's constructor assigns. */
  datatype ResponseExpected = AlwaysTrue | AlwaysFalse | True | False

  /**
   * A callback's packet format: the newer bindings declare the packet length
   * next to the format, the older ones only the format.
   */
  datatype CallbackFormat = CallbackFormat(length: Option<nat>, format: Format)

  /** Options of a high-level (streamed) callback. */
  datatype HighLevelCallback = HighLevelCallback(fixedLength: Option<nat>, singleChunk: bool)

  /** A user function handed to `register_callback`, identified by an opaque tag. */
  datatype Handler = Handler(tag: nat)

  /**
   * How a binding's `register_callback` treats a `None` function: almost all
   * bindings remove the entry, the laser range finder stores `None` as is.
   */
  datatype RegisterStyle = PopOnNone | StoreAlways

  /** A declared callback length is the header plus the packed payload. */
  predicate CallbackLengthAgrees(c: CallbackFormat)
  {
    c.length.Some? ==> c.length.value == HEADER_SIZE + PackedSize(c.format)
  }

  /** A function returns a payload: a nonzero declared length, or (older bindings) a non-empty response format. */
  predicate ReturnsPayload(r: Request)
  {
    match r.respLength
    case Some(n) => n > 0
    case None => r.respFormat != End
  }

  /**
   * The response-expected entry of a function exists, and flags it
   * ALWAYS_TRUE exactly when the call returns a payload.
   */
  predicate ExpectationAgrees(entry: Option<ResponseExpected>, r: Request)
  {
    entry.Some? && (entry.value == AlwaysTrue <==> ReturnsPayload(r))
  }

  /** The callback dictionary after `register_callback(id, handler)`. */
  function AfterRegister(style: RegisterStyle, m: map<int, Option<Handler>>, id: int, handler: Option<Handler>)
    : (r: map<int, Option<Handler>>)
    ensures style == PopOnNone && handler == None ==> id !in r
    ensures style == StoreAlways || handler.Some? ==> id in r && r[id] == handler
    ensures forall k :: k != id ==> (k in r <==> k in m) && (k in m ==> r[k] == m[k])
  {
    if style == PopOnNone && handler == None then m - {id} else m[id := handler]
  }

  /** Registering a function and then `None` under a fresh id restores the dictionary, for the popping bindings only. */
  lemma RegisterThenUnregister(m: map<int, Option<Handler>>, id: int, h: Handler)
    requires id !in m
    ensures AfterRegister(PopOnNone, AfterRegister(PopOnNone, m, id, Some(h)), id, None) == m
    ensures AfterRegister(StoreAlways, AfterRegister(StoreAlways, m, id, Some(h)), id, None) == m[id := None]
  {
  }

  /** A popping binding's dictionary never holds `None`. */
  lemma PopNeverStoresNone(m: map<int, Option<Handler>>, id: int, handler: Option<Handler>)
    requires forall k :: k in m ==> m[k].Some?
    ensures forall k :: k in AfterRegister(PopOnNone, m, id, handler) ==> AfterRegister(PopOnNone, m, id, handler)[k].Some?
  {
  }

  /** The state of one binding object: the tables its constructor fills and its callback dictionary. */
  class Device {
    var responseExpected: map<int, ResponseExpected>
    var callbackFormats: map<int, CallbackFormat>
    var highLevelCallbacks: map<int, HighLevelCallback>
    var registeredCallbacks: map<int, Option<Handler>>
    const style: RegisterStyle

    constructor (expected: map<int, ResponseExpected>, formats: map<int, CallbackFormat>,
                 highLevel: map<int, HighLevelCallback>, style: RegisterStyle)
      ensures responseExpected == expected && callbackFormats == formats
      ensures highLevelCallbacks == highLevel && this.style == style
      ensures registeredCallbacks == map[]
    {
      responseExpected := expected;
      callbackFormats := formats;
      highLevelCallbacks := highLevel;
      registeredCallbacks := map[];
      this.style := style;
    }

    /** register_callback: pop or store, as the binding's style says; other ids are untouched. */
    method RegisterCallback(id: int, handler: Option<Handler>)
      modifies this`registeredCallbacks
      ensures registeredCallbacks == AfterRegister(style, old(registeredCallbacks), id, handler)
    {
      if style == PopOnNone && handler == None {
        registeredCallbacks := registeredCallbacks - {id};
      } else {
        registeredCallbacks := registeredCallbacks[id := handler];
      }
    }
  }
}
