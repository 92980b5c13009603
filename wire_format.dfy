/**
 * The packet formats of the Tinkerforge binding layer.
 *
 * Every request and response of a binding is described by a struct-style
 * format string such as 'H H 30H' or '8s 8s c 3B 3B H'. A token is an
 * optional repeat count followed by one type letter; booleans ('!') are
 * bit-packed, eight to a byte, and strings ('s') and characters ('c') take
 * one byte per character. Every response packet carries an 8-byte header in
 * front of its payload.
 *
 * A format is a cons-list of tokens (not a seq) so that the verifier can
 * evaluate sizes of the literal tables in the binding modules.
 */
module WireFormat {
  import opened Wrappers

  /** B b H h I i ! c s */
  datatype Kind = U8 | I8 | U16 | I16 | U32 | I32 | Bool | Char | Str

  datatype Token = Tok(count: nat, kind: Kind)

  datatype Format = End | Then(head: Token, rest: Format)

  /** Size in bytes of one element, for the kinds that are not bit-packed. */
  function ElementSize(k: Kind): nat
  {
    match k
    case U8 => 1
    case I8 => 1
    case Char => 1
    case Str => 1
    case U16 => 2
    case I16 => 2
    case U32 => 4
    case I32 => 4
    case Bool => 1
  }

  /** Bytes a token occupies in a packet: 'n!' packs n booleans into ceil(n/8) bytes. */
  function TokenSize(t: Token): (r: nat)
    ensures t.kind == Bool ==> 8 * r >= t.count && 8 * r < t.count + 8
    ensures t.kind != Bool ==> r == t.count * ElementSize(t.kind)
  {
    if t.kind == Bool then (t.count + 7) / 8 else t.count * ElementSize(t.kind)
  }

  function PackedSize(f: Format): nat
  {
    match f
    case End => 0
    case Then(t, rest) => TokenSize(t) + PackedSize(rest)
  }

  /** The format of one packet part followed by another. */
  function Append(f: Format, g: Format): Format
  {
    match f
    case End => g
    case Then(t, rest) => Then(t, Append(rest, g))
  }

  /** The size of two formats written one after the other is the sum of their sizes. */
  lemma {:induction false} AppendSize(f: Format, g: Format)
    ensures PackedSize(Append(f, g)) == PackedSize(f) + PackedSize(g)
  {
    match f
    case End =>
    case Then(t, rest) => AppendSize(rest, g);
  }

  /** Bytes of the header in front of every response payload. */
  const HEADER_SIZE: nat := 8

  /**
   * One `send_request` call of a binding: the function id, the request
   * format, the declared response length (the older bindings do not pass
   * one) and the response format.
   */
  datatype Request = Request(fid: int, reqFormat: Format, respLength: Option<nat>, respFormat: Format)

  /**
   * A declared response length is either 0 for a call without a response
   * payload, or the header plus the packed size of the response format.
   */
  predicate LengthAgrees(r: Request)
  {
    match r.respLength
    case None => true
    case Some(n) => if n == 0 then r.respFormat == End else n == HEADER_SIZE + PackedSize(r.respFormat)
  }
}
