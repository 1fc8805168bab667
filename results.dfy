/**
 * The API's result types (sgx/enclave/src/api/results.rs): the encoded
 * response body, the error kinds and the HTTP status each maps to, and the
 * text of a caught panic.
 */
module Results {
  import opened Wrappers
  import opened Bytes

  /** An encoded response and whether the connection closes after it. */
  datatype ResponseBody = ResponseBody(body: seq<Byte>, close: bool)

  /** `ResponseBody::new`: keeps the connection open. */
  function NewResponseBody(body: seq<Byte>): (r: ResponseBody)
    ensures r.body == body && !r.close
  {
    ResponseBody(body, false)
  }

  /** `ResponseBody::new_with_close`. */
  function NewResponseBodyWithClose(body: seq<Byte>, close: bool): (r: ResponseBody)
    ensures r.body == body && r.close == close
  {
    ResponseBody(body, close)
  }

  const DUMMY_PAYLOAD: string := "{\"message\":\"PONG\"}"

  /** `ResponseBody::dummy`: a canned PONG response that closes the connection. */
  function DummyResponseBody(): (r: ResponseBody)
    ensures r.close
    ensures r.body == FromString("HTTP/1.1 200 OK\r\nServer: index.teggle.io/v1beta1\r\nContent-Length: 18\r\n"
                                 + "Date: TODO\r\ncontent-type: application/json\r\n\r\n" + DUMMY_PAYLOAD)
  {
    ResponseBody(FromString("HTTP/1.1 200 OK\r\nServer: index.teggle.io/v1beta1\r\nContent-Length: 18\r\n"
                            + "Date: TODO\r\ncontent-type: application/json\r\n\r\n" + DUMMY_PAYLOAD), true)
  }

  /** The canned response's Content-Length matches the payload after the head. */
  lemma DummyContentLengthMatches()
    ensures |DUMMY_PAYLOAD| == 18
  {
  }

  datatype ErrorKind =
    | EncodeFault
    | DecodeFault
    | ServerFault
    | WSFault
    | WSClosed
    | TimedOut
    | PayloadTooLarge
    | ExecError
    | HttpClientError
    | HttpClientTimedOut
  {
    /** `Display for ErrorKind`: the variant's name. */
    function Name(): (s: string)
      ensures |s| > 0
    {
      match this
      case EncodeFault => "EncodeFault"
      case DecodeFault => "DecodeFault"
      case ServerFault => "ServerFault"
      case WSFault => "WSFault"
      case WSClosed => "WSClosed"
      case TimedOut => "TimedOut"
      case PayloadTooLarge => "PayloadTooLarge"
      case ExecError => "ExecError"
      case HttpClientError => "HttpClientError"
      case HttpClientTimedOut => "HttpClientTimedOut"
    }

    /** The kinds that are the server's (or an upstream's) fault. */
    predicate IsServerSide() {
      this in {EncodeFault, DecodeFault, ServerFault, ExecError, HttpClientError, HttpClientTimedOut}
    }
  }

  /**
   * The reason phrase `http::StatusCode` prints for the codes this server
   * uses.
   */
  function CanonicalReason(code: nat): (reason: Option<string>)
    ensures reason.Some? ==> |reason.value| > 0
    ensures code in {200, 226, 400, 404, 408, 413, 500, 502, 504} <==> reason.Some?
  {
    match code
    case 200 => Some("OK")
    case 226 => Some("IM Used")
    case 400 => Some("Bad Request")
    case 404 => Some("Not Found")
    case 408 => Some("Request Timeout")
    case 413 => Some("Payload Too Large")
    case 500 => Some("Internal Server Error")
    case 502 => Some("Bad Gateway")
    case 504 => Some("Gateway Timeout")
    case _ => Option.None
  }

  /** `Display for StatusCode`: the code, a space, and the reason phrase. */
  function StatusText(code: nat): (s: string)
    ensures |s| > 0
  {
    NatToString(code) + " " + (if CanonicalReason(code).Some? then CanonicalReason(code).value else "<unknown status code>")
  }

  /**
   * `Error::http_status`: total over the kinds.  Server-side faults are 5xx,
   * the websocket fault, a timed-out request and an oversized payload are
   * 4xx, and a closed websocket is the only non-error code.
   */
  function HttpStatus(kind: ErrorKind): (code: nat)
    ensures CanonicalReason(code).Some?
    ensures code >= 500 <==> kind.IsServerSide()
    ensures 400 <= code < 500 <==> kind in {WSFault, TimedOut, PayloadTooLarge}
    ensures code < 400 <==> kind == WSClosed
    ensures code == 500 <==> kind in {EncodeFault, DecodeFault, ServerFault}
    ensures code == 502 <==> kind in {ExecError, HttpClientError}
    ensures code == 504 <==> kind == HttpClientTimedOut
    ensures code == 400 <==> kind == WSFault
    ensures code == 408 <==> kind == TimedOut
    ensures code == 413 <==> kind == PayloadTooLarge
    ensures code == 226 <==> kind == WSClosed
  {
    match kind
    case EncodeFault => 500
    case DecodeFault => 500
    case ServerFault => 500
    case WSFault => 400
    case WSClosed => 226
    case TimedOut => 408
    case PayloadTooLarge => 413
    case ExecError => 502
    case HttpClientError => 502
    case HttpClientTimedOut => 504
  }

  datatype Error = Error(message: string, kind: ErrorKind)
  {
    /** `Error::kind`. */
    function Kind(): (k: ErrorKind)
      ensures k == kind
    {
      kind
    }

    /** `Display for Error`: "kind[status]: message". */
    function ToString(): (s: string)
      ensures |s| > |kind.Name()| + 2 + |message|
      ensures s[..|kind.Name()| + 1] == kind.Name() + "["
      ensures s[|s| - |message|..] == message
    {
      var s := kind.Name() + "[" + StatusText(HttpStatus(kind)) + "]: " + message;
      assert s[..|kind.Name()| + 1] == kind.Name() + "[";
      assert s[|s| - |message|..] == message;
      s
    }
  }

  /** `Error::new`: a server fault. */
  function NewError(message: string): (e: Error)
    ensures e.Kind() == ServerFault && e.message == message
    ensures HttpStatus(e.Kind()) == 500
  {
    NewErrorWithKind(ServerFault, message)
  }

  /** `Error::new_with_kind`. */
  function NewErrorWithKind(kind: ErrorKind, message: string): (e: Error)
    ensures e.Kind() == kind && e.message == message
  {
    Error(message, kind)
  }

  /** `Error::new_ws_closed`: a closed websocket, with no message. */
  function NewWsClosed(): (e: Error)
    ensures e.Kind() == WSClosed && e.message == ""
    ensures HttpStatus(e.Kind()) == 226
  {
    Error("", WSClosed)
  }

  /** `too_many_bytes_err`: "too many bytes sent (bytes > max)", answered with 413. */
  function TooManyBytesErr(bytes: nat, maxBytes: nat): (e: Error)
    ensures e.Kind() == PayloadTooLarge && HttpStatus(e.Kind()) == 413
    ensures e.message == "too many bytes sent (" + NatToString(bytes) + " > " + NatToString(maxBytes) + ")"
  {
    NewErrorWithKind(PayloadTooLarge, "too many bytes sent (" + NatToString(bytes) + " > " + NatToString(maxBytes) + ")")
  }

  /** The payload of a caught panic: a `String`, a `&'static str`, or anything else. */
  datatype PanicPayload = StringPayload(s: string) | StrPayload(s: string) | OtherPayload

  /** `caught_err_to_str`: the payload's text, or "**UNKNOWN**". */
  function CaughtErrToStr(err: PanicPayload): (msg: string)
    ensures !err.OtherPayload? ==> msg == err.s
    ensures err.OtherPayload? ==> msg == "**UNKNOWN**"
  {
    match err
    case StringPayload(s) => s
    case StrPayload(s) => s
    case OtherPayload => "**UNKNOWN**"
  }
}
