/**
 * The first request pipeline of the API (sgx/enclave/src/api/handler/mod.rs
 * and sgx/enclave/src/api/handler/dispatch.rs): raw request bytes are
 * decoded with a codec of its own, the request is dispatched on its path
 * alone, and the answer is encoded; anything that goes wrong on the way is
 * answered with a 500 "Server Fault".
 *
 * What httparse found in the bytes is the `ParseStatus` input of
 * `Codec.DecodeResult`.  Building the JSON body and writing the response
 * out is the `encode` parameter, which may fail.
 */
module Handler {
  import opened Wrappers
  import opened Bytes
  import opened Results
  import opened Codec

  /** `GLOBAL_CODEC` of this pipeline, named after the indexer's host. */
  const PIPELINE_CODEC: HttpCodec := HttpCodec("d42aa7c4-ee7c-4082-9e4c-525aac4057bc.idx.teggle.io")

  /** The JSON bodies: `Msg` for answers, `ErrorMsg` for errors. */
  datatype JsonMsg = Msg(message: string) | ErrorMsg(status: nat, message: string)

  /** A response before it is written: status, content type and JSON body. */
  datatype JsonResponse = JsonResponse(status: nat, contentType: string, body: JsonMsg)

  const JSON: string := "application/json"

  /** `ok_response`: a 200 whose body carries `message`. */
  function OkResponse(message: string): (r: JsonResponse)
    ensures r.status == 200 && r.contentType == JSON && r.body.Msg? && r.body.message == message
  {
    JsonResponse(200, JSON, Msg(message))
  }

  /** `error_response`: the status, repeated in the body beside `message`. */
  function ErrorResponse(status: nat, message: string): (r: JsonResponse)
    ensures r.status == status && r.contentType == JSON
    ensures r.body == ErrorMsg(status, message)
  {
    JsonResponse(status, JSON, ErrorMsg(status, message))
  }

  /** Where the path of a request target ends: at its query or its fragment. */
  predicate EndsPath(c: char)
  {
    c == '?' || c == '#'
  }

  /** `Uri::path`: everything before the first '?' or '#'. */
  function UriPath(uri: string): (p: string)
    ensures |p| <= |uri| && p == uri[..|p|]
    ensures forall i :: 0 <= i < |p| ==> !EndsPath(p[i])
    ensures |p| < |uri| ==> EndsPath(uri[|p|])
  {
    if uri == [] || EndsPath(uri[0]) then [] else [uri[0]] + UriPath(uri[1..])
  }

  /** A query string or a fragment never changes the path. */
  lemma {:induction false} QueryIgnored(path: string, sep: char, rest: string)
    requires forall i :: 0 <= i < |path| ==> !EndsPath(path[i])
    requires EndsPath(sep)
    ensures UriPath(path + [sep] + rest) == path
  {
    if path != [] {
      assert (path + [sep] + rest)[1..] == path[1..] + [sep] + rest;
      QueryIgnored(path[1..], sep, rest);
    }
  }

  /** A target without '?' or '#' is all path. */
  lemma NoQuery(path: string)
    requires forall i :: 0 <= i < |path| ==> !EndsPath(path[i])
    ensures UriPath(path) == path
  {
    assert path[..|path|] == path;
  }

  /** `dispatch_request`: "/ping" answers "PONG", every other path 404. */
  function Dispatch(head: RequestHead): (r: Result<JsonResponse, Error>)
    ensures r.Ok?
    ensures r.value.status == 200 <==> UriPath(head.uri) == "/ping"
  {
    if UriPath(head.uri) == "/ping" then Ok(OkResponse("PONG"))
    else Ok(ErrorResponse(404, "Not Found"))
  }

  /** Only the path is looked at: neither the method, the query, the version nor the headers. */
  lemma DispatchOnPathOnly(a: RequestHead, b: RequestHead)
    requires UriPath(a.uri) == UriPath(b.uri)
    ensures Dispatch(a) == Dispatch(b)
  {
  }

  /** Any method on "/ping", with or without a query or a fragment, is answered "PONG". */
  lemma PingAnswersPong(head: RequestHead, tail: Option<(char, string)>)
    requires tail.Some? ==> EndsPath(tail.value.0)
    requires head.uri == if tail.Some? then "/ping" + [tail.value.0] + tail.value.1 else "/ping"
    ensures Dispatch(head) == Ok(OkResponse("PONG"))
  {
    if tail.Some? {
      QueryIgnored("/ping", tail.value.0, tail.value.1);
    } else {
      NoQuery("/ping");
    }
  }

  /** Every path other than "/ping" is answered 404 "Not Found". */
  lemma OtherPathsNotFound(head: RequestHead)
    requires UriPath(head.uri) != "/ping"
    ensures Dispatch(head) == Ok(ErrorResponse(404, "Not Found"))
    ensures Dispatch(head).value.body == ErrorMsg(404, "Not Found")
  {
  }

  /** `encode_response`: the encoded bytes, or the encoder's error as text. */
  function EncodeResponse(res: JsonResponse, encode: JsonResponse -> Result<seq<Byte>, Error>)
    : (r: Result<seq<Byte>, string>)
    ensures encode(res).Ok? ==> r == Ok(encode(res).value)
    ensures encode(res).Err? ==> r == Err(encode(res).error.ToString())
  {
    match encode(res)
    case Ok(bytes) => Ok(bytes)
    case Err(e) => Err(e.ToString())
  }

  /** The response every failure is answered with: 500 "Server Fault". */
  function ServerFaultResponse(): (r: JsonResponse)
    ensures r.status == 500 && r.body == ErrorMsg(500, "Server Fault")
  {
    ErrorResponse(500, "Server Fault")
  }

  /** `encode_response_server_fault`. */
  function EncodeServerFault(encode: JsonResponse -> Result<seq<Byte>, Error>): (r: Result<seq<Byte>, string>)
    ensures r == EncodeResponse(ServerFaultResponse(), encode)
  {
    EncodeResponse(ErrorResponse(500, "Server Fault"), encode)
  }

  /**
   * `process_raw_request` with the dispatcher as a parameter: a decoded
   * request is dispatched and its answer encoded; a decode error, an
   * incomplete head or a dispatch error is answered with the server fault.
   */
  function ProcessWith(status: ParseStatus, dispatch: RequestHead -> Result<JsonResponse, Error>,
                       encode: JsonResponse -> Result<seq<Byte>, Error>): (r: Result<seq<Byte>, string>)
  {
    match DecodeResult(status)
    case Err(_) => EncodeServerFault(encode)
    case Ok(None) => EncodeServerFault(encode)
    case Ok(Some(head)) =>
      match dispatch(head)
      case Ok(res) => EncodeResponse(res, encode)
      case Err(_) => EncodeServerFault(encode)
  }

  /** `process_raw_request`. */
  function ProcessRawRequest(status: ParseStatus, encode: JsonResponse -> Result<seq<Byte>, Error>)
    : (r: Result<seq<Byte>, string>)
    ensures DecodeResult(status).Err? || DecodeResult(status) == Ok(None) ==> r == EncodeServerFault(encode)
    ensures DecodeResult(status).Ok? && DecodeResult(status).value.Some? ==>
              r == EncodeResponse(Dispatch(DecodeResult(status).value.value).value, encode)
  {
    ProcessWith(status, Dispatch, encode)
  }

  /** Every way a request can fail before it is answered leads to the server fault. */
  lemma FailuresAnswerServerFault(status: ParseStatus, dispatch: RequestHead -> Result<JsonResponse, Error>,
                                  encode: JsonResponse -> Result<seq<Byte>, Error>)
    ensures status.ParseFailed? || status.Partial? ==> ProcessWith(status, dispatch, encode) == EncodeServerFault(encode)
    ensures status.Complete? && !AllValid(status.headers) ==> ProcessWith(status, dispatch, encode) == EncodeServerFault(encode)
    ensures status.Complete? && VersionOf(status.version).Err? ==> ProcessWith(status, dispatch, encode) == EncodeServerFault(encode)
    ensures DecodeResult(status).Ok? && DecodeResult(status).value.Some? && dispatch(DecodeResult(status).value.value).Err? ==>
              ProcessWith(status, dispatch, encode) == EncodeServerFault(encode)
  {
  }

  /**
   * A complete request for "/ping" is answered with the encoded "PONG",
   * and any other complete request with the encoded 404, whatever the
   * method.
   */
  lemma DecodedRequestsAreDispatched(status: ParseStatus, encode: JsonResponse -> Result<seq<Byte>, Error>)
    requires status.Complete? && VersionOf(status.version).Ok? && AllValid(status.headers)
    ensures UriPath(status.path) == "/ping" ==> ProcessRawRequest(status, encode) == EncodeResponse(OkResponse("PONG"), encode)
    ensures UriPath(status.path) != "/ping" ==>
              ProcessRawRequest(status, encode) == EncodeResponse(ErrorResponse(404, "Not Found"), encode)
  {
  }
}
