/**
 * What crosses the boundary between a resource handle and the FluidDB
 * connector: requests, responses, the connector itself and the exceptions
 * a call can end in.
 */
module Wire {
  import opened Wrappers

  /** The HTTP methods a handle issues. */
  datatype Method = GET | POST | PUT | DELETE

  /** 200 OK, section 15.3.1 of RFC 9110. */
  const OK: int := 200
  /** 204 No Content, section 15.3.5 of RFC 9110. */
  const NO_CONTENT: int := 204
  /** 401 Unauthorized, section 15.5.2 of RFC 9110. */
  const UNAUTHORIZED: int := 401

  /** Content type the gateway sends unless a caller supplies another. */
  const DEFAULT_CONTENT_TYPE: string := "application/json; charset=utf-8"
  /** The only response content type a handle converts to JSON. */
  const JSON_CONTENT_TYPE: string := "application/json"

  /**
   * One call handed to the connector. `contentType` is `None` when the
   * connector's own four-argument call is used, whose default is the
   * connector's business.
   */
  datatype Request = Request(
    verb: Method,
    path: string,
    body: string,
    args: map<string, string>,
    contentType: Option<string>)

  /** A `FluidResponse`: status code, content type and body text. */
  datatype Response = Response(status: int, contentType: string, content: string)

  /** What the connector's call gives back: a response, or an `IOException`. */
  datatype Transport = Delivered(response: Response) | Fault(message: string)

  /**
   * The connection to FluidDB as the handle sees it at the moment of a call:
   * the answer the service gives to a request, and the diagnostic message
   * the connector builds from a response it did not expect.
   */
  datatype Connector = Connector(send: Request -> Transport, describe: Response -> string)

  /** The exceptions of the object model. */
  datatype Error =
    | FomException(message: string)    // FOMException: raised locally
    | FluidException(message: string)  // FluidException: unexpected status code
    | IOException(message: string)     // transport fault, passed through
    | JsonException                    // JSONException: payload not of the expected shape
}
