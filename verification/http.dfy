/**
 * The transport the client talks through.  The model never performs I/O: a
 * GET and a HEAD are oracles passed in as functions, and whatever the real
 * transport would do (connection reuse, TLS, proxies, status checks, JSON
 * decoding) is folded into the value they return.
 */
module Http {
  import opened Wrappers
  import opened JsonValues

  /** A GET request: the URL and the `params` keyword, if one is passed. */
  datatype Request = Request(url: string, params: Option<Params>)

  /** A GET through the session: the decoded body, or the exception raised
      on a connection error, by `raise_for_status` or by `response.json()`. */
  type Server = Request -> Result<Json, Fault>

  /** A HEAD request to a URL: the status code, or the connection error raised. */
  type Head = string -> Result<int, Fault>
}
