/**
 * The buffered Go channels of fbs.go, seen as what they hold. Both kinds of
 * channel in the file are made with capacity 1; a channel is described by the
 * messages still buffered in it and, for the proofs, by the history of every
 * message ever sent on it.
 */
module Channels {

  /** `make(chan backInfo, 1)` and `make(chan string, 1)`. */
  const Capacity: nat := 1

  /**
   * The buffer of a channel that is sent at most one message over its
   * lifetime: empty (nothing sent yet, or the message already received) or
   * holding exactly that message.
   */
  ghost predicate Buffered<E>(buf: seq<E>, sent: seq<E>)
  {
    buf == [] || buf == sent
  }

  /**
   * A send that completes at once. It is only defined while the buffer has
   * room: a send on a full channel would block, so every call site has to
   * prove that it never does.
   */
  function Send<E>(buf: seq<E>, m: E): seq<E>
    requires |buf| < Capacity
  {
    buf + [m]
  }
}
