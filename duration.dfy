/**
 * The result mapping of the duration lookup. The request itself is not part
 * of the model: the server's answer is given as a `Reply`, and every failure
 * collapses to the sentinel 0.
 */
module Duration {
  import opened Wrappers

  /** How one lookup request ends. */
  datatype Reply =
    | TransportError                   // the error callback fires
    | Malformed                        // the body is not JSON, or reading `data.data` throws
    | Parsed(duration: Option<int>)    // `data.data?.duration`; None when missing or null

  /** The value the lookup resolves to: `data.data?.duration || 0`, or 0 on any failure. */
  function Resolve(reply: Reply): (d: int)
    ensures d != 0 ==> reply == Parsed(Some(d))
    ensures reply.Parsed? && reply.duration.Some? ==> d == reply.duration.value
  {
    match reply
    case TransportError => 0
    case Malformed => 0
    case Parsed(None) => 0
    case Parsed(Some(v)) => v  // `v || 0` on an integer maps only 0 to 0, so it is v itself
  }

  /** A reply that carries no duration is indistinguishable from a zero-length video. */
  lemma FailureIsZero(reply: Reply)
    requires !(reply.Parsed? && reply.duration.Some?)
    ensures Resolve(reply) == Resolve(Parsed(Some(0))) == 0
  {
  }
}
