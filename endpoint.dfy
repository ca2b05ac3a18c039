/** What the two prediction endpoints share: how a request fails once its body has been
    validated, and how the scoring latency is measured. */
module Endpoint {
  import opened Loader

  /** Why a request fails after validation: the registry or the scoring call raised, or
      the commit of the prediction row was refused. */
  datatype RequestError = ScoringFailed(cause: LoaderError) | PersistenceError

  /** Milliseconds between two readings of a monotonic clock that counts seconds. */
  function LatencyMs(t0: real, t1: real): (ms: real)
    requires t0 <= t1
    ensures ms >= 0.0
    ensures ms / 1000.0 == t1 - t0
  {
    (t1 - t0) * 1000.0
  }
}
