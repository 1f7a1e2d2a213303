/** Optional values, fetch results and the pass/fail outcome of one metrics half. */
module Results {

  /** An optional field of a record returned by the remote API. */
  datatype Option<T> = None | Some(value: T) {
    /** The carried value, or `default` when there is none. */
    function GetOr(default: T): (r: T)
      ensures Some? ==> r == value
      ensures None? ==> r == default
    {
      match this
      case Some(v) => v
      case None => default
    }
  }

  /** The description of a failed remote call (a transport, authentication or API error). */
  datatype FetchError = FetchError(description: string)

  /** What a remote fetch delivered: the decoded response, or the error it failed with. */
  datatype Result<T> = Ok(value: T) | Err(error: FetchError)

  /** The `Result<(), Box<dyn Error>>` a metrics half returns. */
  datatype Outcome = Pass | Fail(error: FetchError)
}
