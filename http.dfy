/**
 * What a `requests.post` call followed by `raise_for_status()` does, seen from
 * the caller: the server's answer, or the exception that comes out.
 */
module Http {
  import opened Wrappers
  import opened Exceptions

  /** How one POST ends. */
  datatype Outcome =
    | Answered(status: int)
      /** the connection failed or timed out */
    | Unreachable
      /** `requests` refused the URL before sending (no scheme, unknown scheme, bad host) */
    | RejectedUrl

  /**
   * The exception the POST and `raise_for_status()` raise, if any:
   * `raise_for_status` raises for a 4xx or 5xx status and for nothing else.
   */
  function Raised(o: Outcome): (r: Option<Error>)
    ensures r.None? <==> o.Answered? && !(400 <= o.status < 600)
    ensures r.Some? && o.Answered? ==> r.value == HttpError(o.status)
    ensures r.Some? ==> (IsValueError(r.value) <==> o.RejectedUrl?)
  {
    match o
    case Answered(status) => if 400 <= status < 600 then Some(HttpError(status)) else None
    case Unreachable => Some(ConnectionFailure)
    case RejectedUrl => Some(InvalidUrl)
  }
}
