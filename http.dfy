/** The network boundary. A call into `fetch` is not executed here: the caller of an
    operation supplies the outcome the network produced, and every request the session
    sends is recorded so that "no request was issued" can be stated. */
module Http {
  import opened JsValues

  /** What an awaited `fetch` (and the JSON decoding of its body) produced. */
  datatype Response<T> =
    | Ok(payload: T)          // response.ok, body decoded to payload
    | HttpFail(status: int)   // a response whose status is not 2xx
    | Threw(message: string)  // fetch or the body decoding rejected with this message

  /** A settled operation: resolved with a value, or rejected with an Error whose message is given. */
  datatype Result<T> = Success(value: T) | Failure(message: string)

  /** The API endpoints the resource fetchers call, with the query values put into their URLs
      (the search text is kept before percent-encoding). */
  datatype Endpoint =
    | PlaylistsPage(limit: string, offset: string)
    | SearchQuery(q: string, typeParam: string, limit: string)

  /** A request sent to the network. */
  datatype Request =
    | RefreshCall(refreshToken: string)           // POST /api/spotify/refresh
    | ApiCall(endpoint: Endpoint, bearer: string) // GET with `Authorization: Bearer <bearer>`
}
