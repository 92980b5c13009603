/**
 * What the two streamed getters share: the errors they raise and the shape of
 * their outcome.
 *
 * A streamed getter calls a low-level getter again and again. Here the
 * low-level getter is an oracle: a sequence of its successive responses,
 * consumed one per call. When the oracle has no response left, the call
 * fails the way the IP connection's request does when no answer arrives.
 */
module Streams {
  import opened Wrappers

  /** Values in one low-level chunk. */
  const CHUNK_SIZE: nat := 30

  datatype StreamError =
    | StreamOutOfSync  // Error.STREAM_OUT_OF_SYNC raised by the getter
    | NoResponse       // the low-level request itself failed; modelled as running out of responses

  /** The value or error a streamed getter ends with, and how many low-level responses it consumed. */
  datatype Outcome = Outcome(result: Result<seq<int>, StreamError>, used: nat)
}
