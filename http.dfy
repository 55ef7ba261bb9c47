/** The parts of Go's net/http the relay relies on, as values. */
module Http {

  const STATUS_OK := 200
  const STATUS_BAD_REQUEST := 400
  const STATUS_UNAUTHORIZED := 401
  const STATUS_NOT_FOUND := 404
  const STATUS_METHOD_NOT_ALLOWED := 405
  const STATUS_INTERNAL_SERVER_ERROR := 500

  /** What `http.Post` came back with: a reply carrying an HTTP status, or a transport error. */
  datatype PostOutcome = Reply(status: int) | TransportError(message: string)

  /** One outbound `http.Post(url, contentType, json(payload))`. */
  datatype Post = Post(url: string, contentType: string, payload: map<string, string>)

  /** What a handler writes: `w.WriteHeader(status)` then `w.Write(body)`. */
  datatype Response = Response(status: int, body: string)
}
