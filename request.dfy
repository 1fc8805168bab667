/**
 * Incoming requests (sgx/enclave/src/api/handler/request.rs).  A
 * `RawRequest` collects the bytes of one request as they arrive, decodes
 * the head once it is complete, and caches whether the client asks for a
 * websocket upgrade and how long the body is.  A `Request` is what the
 * routes see: the head, the body and the captured path variables.
 */
module Request {
  import opened Wrappers
  import opened Bytes
  import opened Results
  import opened Codec

  const HEADER_CONNECTION_KEEPALIVE: string := "keep-alive"
  const HEADER_CONNECTION_UPGRADE: string := "upgrade"
  const HEADER_UPGRADE_WEBSOCKET: string := "websocket"

  /** The header names looked up here, as `http::header` spells them. */
  const CONNECTION: string := "connection"
  const UPGRADE: string := "upgrade"
  const CONTENT_LENGTH: string := "content-length"

  /** `usize::MAX` on the 64-bit enclave target. */
  const USIZE_MAX: nat := 0xFFFF_FFFF_FFFF_FFFF

  // ---------------------------------------------------------------------
  // Header lookup

  /** The position of the first header called `name`; header names compare without case. */
  function HeaderIndex(headers: seq<Header>, name: string): (r: Option<nat>)
    ensures r.Some? ==> r.value < |headers| && EqIgnoreAsciiCase(headers[r.value].name, name)
    ensures r.Some? ==> forall j :: 0 <= j < r.value ==> !EqIgnoreAsciiCase(headers[j].name, name)
    ensures r.None? ==> forall j :: 0 <= j < |headers| ==> !EqIgnoreAsciiCase(headers[j].name, name)
  {
    if headers == [] then Option.None
    else if EqIgnoreAsciiCase(headers[0].name, name) then Some(0)
    else
      var rest := HeaderIndex(headers[1..], name);
      if rest.Some? then Some(rest.value + 1) else Option.None
  }

  /** `HeaderMap::get`: the value of the first header called `name`. */
  function HeaderGet(headers: seq<Header>, name: string): Option<seq<Byte>>
  {
    var i := HeaderIndex(headers, name);
    if i.Some? then Some(headers[i.value].value) else Option.None
  }

  /** `HeaderValue::to_str` succeeds on tab and visible ASCII only. */
  predicate VisibleAscii(v: seq<Byte>)
  {
    forall i :: 0 <= i < |v| ==> v[i] == 9 || 32 <= v[i] < 127
  }

  /** `headers.get(key)?.to_str().ok()`: the value as text, if present and visible. */
  function HeaderText(headers: seq<Header>, name: string): (r: Option<string>)
    ensures r.Some? <==> HeaderGet(headers, name).Some? && VisibleAscii(HeaderGet(headers, name).value)
    ensures r.Some? ==> r.value == ToChars(HeaderGet(headers, name).value)
  {
    var v := HeaderGet(headers, name);
    if v.Some? && VisibleAscii(v.value) then Some(ToChars(v.value)) else Option.None
  }

  /**
   * `has_header`: the first `key` header's whole value equals `val`
   * ignoring ASCII case.  A missing or non-visible value gives false.
   */
  predicate HasHeader(headers: seq<Header>, key: string, val: string)
    ensures HasHeader(headers, key, val) <==>
              HeaderIndex(headers, key).Some?
              && VisibleAscii(headers[HeaderIndex(headers, key).value].value)
              && EqIgnoreAsciiCase(ToChars(headers[HeaderIndex(headers, key).value].value), val)
  {
    var text := HeaderText(headers, key);
    text.Some? && EqIgnoreAsciiCase(text.value, val)
  }

  /**
   * Only the first header of a name is consulted: a later header with the
   * same name never makes `has_header` true or false.
   */
  lemma HasHeaderFirstOnly(h: Header, rest: seq<Header>, key: string, val: string)
    requires EqIgnoreAsciiCase(h.name, key)
    ensures HasHeader([h] + rest, key, val) <==> VisibleAscii(h.value) && EqIgnoreAsciiCase(ToChars(h.value), val)
  {
    assert HeaderIndex([h] + rest, key) == Some(0);
  }

  /** A match is on the whole value: a value with anything more in it does not match. */
  lemma HasHeaderWholeValue(headers: seq<Header>, key: string, val: string)
    requires HasHeader(headers, key, val)
    ensures HeaderIndex(headers, key).Some?
    ensures |headers[HeaderIndex(headers, key).value].value| == |val|
  {
  }

  /** Only the case of ASCII letters is ignored: spelling `val` in another case matches too. */
  lemma HasHeaderIgnoresCase(headers: seq<Header>, key: string, val: string, other: string)
    requires HasHeader(headers, key, val)
    requires EqIgnoreAsciiCase(val, other)
    ensures HasHeader(headers, key, other)
  {
    var text := HeaderText(headers, key).value;
    forall i | 0 <= i < |text|
      ensures AsciiLower(text[i]) == AsciiLower(other[i])
    {
      assert AsciiLower(text[i]) == AsciiLower(val[i]);
    }
  }

  /** "Keep-Alive" in any case keeps the connection open; a list of tokens does not. */
  lemma KeepAliveExamples()
    ensures HasHeader([Header("Connection", FromString("Keep-Alive"))], CONNECTION, HEADER_CONNECTION_KEEPALIVE)
    ensures !HasHeader([Header("connection", FromString("keep-alive, Upgrade"))], CONNECTION, HEADER_CONNECTION_KEEPALIVE)
  {
    var h1 := [Header("Connection", FromString("Keep-Alive"))];
    assert EqIgnoreAsciiCase(h1[0].name, CONNECTION);
    assert HeaderIndex(h1, CONNECTION) == Some(0);
    ToCharsFromString("Keep-Alive");
    assert HeaderText(h1, CONNECTION) == Some("Keep-Alive");
    var h2 := [Header("connection", FromString("keep-alive, Upgrade"))];
    assert EqIgnoreAsciiCase(h2[0].name, CONNECTION);
    assert HeaderIndex(h2, CONNECTION) == Some(0);
    assert |HeaderGet(h2, CONNECTION).value| != |HEADER_CONNECTION_KEEPALIVE|;
  }

  // ---------------------------------------------------------------------
  // Request

  /** A request as the routes see it. */
  datatype Request = Request(head: RequestHead, body: seq<Byte>, vars: Option<map<string, string>>, websocket: bool)
  {
    /** `vars`: stores the captures of the matched route. */
    function WithVars(captures: map<string, string>): (r: Request)
      ensures r.vars == Some(captures)
      ensures r.head == head && r.body == body && r.websocket == websocket
    {
      this.(vars := Some(captures))
    }

    /**
     * `var::<String>`: the captured text, or None when there are no
     * variables or no variable of that name.
     */
    function Var(key: string): (r: Option<string>)
      ensures r.Some? <==> vars.Some? && key in vars.value
      ensures r.Some? ==> r.value == vars.value[key]
    {
      if vars.Some? && key in vars.value then Some(vars.value[key]) else Option.None
    }

    /** `var::<u32>`: the captured text parsed as a `u32`, or None. */
    function VarU32(key: string): (r: Option<nat>)
      ensures r.Some? ==> Var(key).Some? && r.value <= U32_MAX
      ensures Var(key).Some? ==> r == ParseUnsigned(Var(key).value, U32_MAX + 1)
    {
      if Var(key).Some? then ParseUnsigned(Var(key).value, U32_MAX + 1) else Option.None
    }

    /** `header::<String>`: the value of a header as text. */
    function HeaderValue(key: string): (r: Option<string>)
      ensures r.None? ==> forall val :: !HasHeader(head.headers, key, val)
      ensures r.Some? ==> forall val :: HasHeader(head.headers, key, val) <==> EqIgnoreAsciiCase(r.value, val)
      ensures r.Some? <==> HeaderGet(head.headers, key).Some? && VisibleAscii(HeaderGet(head.headers, key).value)
      ensures r.Some? ==> r.value == ToChars(HeaderGet(head.headers, key).value)
    {
      HeaderText(head.headers, key)
    }

    /**
     * `should_keep_alive`: any version other than HTTP/1.0 keeps the
     * connection, and HTTP/1.0 keeps it only when asked to.
     */
    function ShouldKeepAlive(): (r: bool)
      ensures head.version != Http10 ==> r
      ensures head.version == Http10 ==> (r <==> HasHeader(head.headers, CONNECTION, HEADER_CONNECTION_KEEPALIVE))
    {
      head.version != Http10 || HasHeader(head.headers, CONNECTION, HEADER_CONNECTION_KEEPALIVE)
    }
  }

  /** A variable set by the router reads back through `var`. */
  lemma VarReadsCapture(req: Request, captures: map<string, string>, key: string)
    requires key in captures
    ensures req.WithVars(captures).Var(key) == Some(captures[key])
  {
  }

  // ---------------------------------------------------------------------
  // RawRequest

  /** The client asks to switch to a websocket. */
  predicate UpgradeRequested(head: Option<RequestHead>)
  {
    head.Some? && HasHeader(head.value.headers, CONNECTION, HEADER_CONNECTION_UPGRADE)
      && HasHeader(head.value.headers, UPGRADE, HEADER_UPGRADE_WEBSOCKET)
  }

  /** The Content-Length of a head: its value parsed as a `usize`, or 0 when absent or unreadable. */
  function ContentLengthOf(head: Option<RequestHead>): (n: nat)
    ensures n > 0 ==>
              head.Some? && HeaderText(head.value.headers, CONTENT_LENGTH).Some?
              && ParseUnsigned(HeaderText(head.value.headers, CONTENT_LENGTH).value, USIZE_MAX + 1).Some?
    ensures n <= USIZE_MAX
    ensures head.Some? && HeaderText(head.value.headers, CONTENT_LENGTH).Some?
      && ParseUnsigned(HeaderText(head.value.headers, CONTENT_LENGTH).value, USIZE_MAX + 1).Some?
      ==> n == ParseUnsigned(HeaderText(head.value.headers, CONTENT_LENGTH).value, USIZE_MAX + 1).value
  {
    if head.None? then 0
    else
      var text := HeaderText(head.value.headers, CONTENT_LENGTH);
      if text.None? then 0
      else
        var parsed := ParseUnsigned(text.value, USIZE_MAX + 1);
        if parsed.Some? then parsed.value else 0
  }

  class RawRequest {
    /** The decoded head (the `http` request builder), once the head is complete. */
    var request: Option<RequestHead>
    /** The bytes not yet taken by the head. */
    const data: ByteBuf
    /** The number of bytes read, head included. */
    var bytes: nat
    var timeout: Option<nat>
    var upgradeWebsocket: bool
    var contentLength: nat
    /** Every byte given to `new` and `next`, in order. */
    ghost var fed: seq<Byte>
    /** The bytes the decoded head took off the front. */
    ghost var consumed: seq<Byte>

    /**
     * No byte is lost: the head that was cut off and the bytes still held
     * make up everything read.  The cached flags are those of the head.
     */
    ghost predicate Valid()
      reads this, data
    {
      && bytes == |fed|
      && fed == consumed + data.data
      && timeout.Some?
      && upgradeWebsocket == UpgradeRequested(request)
      && contentLength == ContentLengthOf(request)
    }

    /** The fields of a new raw request, before its first decode. */
    constructor Init(first: seq<Byte>, deadline: nat)
      ensures Valid() && fresh(data)
      ensures request.None? && data.data == first && fed == first && consumed == []
      ensures timeout == Some(deadline)
    {
      request := Option.None;
      bytes := |first|;
      data := new ByteBuf(first);
      timeout := Some(deadline);
      upgradeWebsocket := false;
      contentLength := 0;
      fed := first;
      consumed := [];
    }

    /**
     * `try_decode`: decodes only while there is no head yet; a decode
     * error is returned at once.  Then both cached flags are taken from
     * the head again.
     */
    method TryDecode(status: ParseStatus) returns (r: Result<(), Error>)
      requires Valid() && ParseFits(status, data.data)
      modifies this, data
      ensures Valid()
      ensures fed == old(fed) && bytes == old(bytes) && timeout == old(timeout)
      ensures old(request).Some? ==> r.Ok? && request == old(request) && data.data == old(data.data)
      ensures old(request).None? && DecodeResult(status).Err? ==>
                r == Err(DecodeResult(status).error) && request.None?
      ensures old(request).None? && DecodeResult(status).Ok? ==>
                r.Ok? && request == DecodeResult(status).value
      ensures old(request).None? && status.Complete? ==> data.data == old(data.data)[status.amt..]
      ensures old(request).Some? || !status.Complete? ==> data.data == old(data.data)
    {
      if request.None? {
        r := DecodeHead(status);
        if r.Err? {
          return;
        }
      }
      ExtractUpgradeOpts();
      ExtractContentLength();
      r := Ok(());
    }

    /** The decoding step of `try_decode`: the decoded bytes move from the buffer to what was consumed. */
    method DecodeHead(status: ParseStatus) returns (r: Result<(), Error>)
      requires request.None? && fed == consumed + data.data && ParseFits(status, data.data)
      modifies this, data
      ensures fed == old(fed) && bytes == old(bytes) && timeout == old(timeout) && fed == consumed + data.data
      ensures upgradeWebsocket == old(upgradeWebsocket) && contentLength == old(contentLength)
      ensures DecodeResult(status).Err? ==> r == Err(DecodeResult(status).error) && request.None?
      ensures DecodeResult(status).Ok? ==> r.Ok? && request == DecodeResult(status).value
      ensures status.Complete? ==> data.data == old(data.data)[status.amt..]
      ensures !status.Complete? ==> data.data == old(data.data)
    {
      ghost var before := data.data;
      var decoded := Decode(GLOBAL_CODEC, data, status);
      if status.Complete? {
        consumed := consumed + before[..status.amt];
        assert before == before[..status.amt] + data.data;
      }
      if decoded.Err? {
        return Err(decoded.error);
      }
      request := decoded.value;
      r := Ok(());
    }

    /**
     * `extract_upgrade_opts`: sets the flag when the head asks for a
     * websocket; it never clears it.
     */
    method ExtractUpgradeOpts()
      modifies this
      ensures upgradeWebsocket == (old(upgradeWebsocket) || UpgradeRequested(request))
      ensures request == old(request) && contentLength == old(contentLength) && bytes == old(bytes)
      ensures timeout == old(timeout) && fed == old(fed) && consumed == old(consumed)
    {
      if request.Some? {
        var headers := request.value.headers;
        if HasHeader(headers, CONNECTION, HEADER_CONNECTION_UPGRADE) && HasHeader(headers, UPGRADE, HEADER_UPGRADE_WEBSOCKET) {
          upgradeWebsocket := true;
        }
      }
    }

    /**
     * `extract_content_length`: resets the length to 0, then takes it from
     * a Content-Length header that reads as a `usize`.
     */
    method ExtractContentLength()
      modifies this
      ensures contentLength == ContentLengthOf(request)
      ensures request == old(request) && upgradeWebsocket == old(upgradeWebsocket) && bytes == old(bytes)
      ensures timeout == old(timeout) && fed == old(fed) && consumed == old(consumed)
    {
      contentLength := 0;
      if request.Some? {
        var text := HeaderText(request.value.headers, CONTENT_LENGTH);
        if text.Some? {
          var parsed := ParseUnsigned(text.value, USIZE_MAX + 1);
          if parsed.Some? {
            contentLength := parsed.value;
          }
        }
      }
    }

    /**
     * `next`: counts and buffers the new bytes (an empty read changes
     * nothing), then tries to decode again.
     */
    method Next(more: seq<Byte>, status: ParseStatus) returns (r: Result<(), Error>)
      requires Valid() && ParseFits(status, data.data + more)
      modifies this, data
      ensures Valid()
      ensures fed == old(fed) + more && bytes == old(bytes) + |more| && timeout == old(timeout)
      ensures old(request).Some? ==> r.Ok? && request == old(request) && data.data == old(data.data) + more
      ensures old(request).None? && DecodeResult(status).Err? ==>
                r == Err(DecodeResult(status).error) && request.None?
      ensures old(request).None? && DecodeResult(status).Ok? ==>
                r.Ok? && request == DecodeResult(status).value
      ensures old(request).None? && status.Complete? ==> data.data == (old(data.data) + more)[status.amt..]
    {
      if |more| > 0 {
        bytes := bytes + |more|;
        Push(more);
      }
      assert data.data == old(data.data) + more;
      r := TryDecode(status);
    }

    /** `push`: appends to the buffered bytes. */
    method Push(more: seq<Byte>)
      requires fed == consumed + data.data
      modifies this, data
      ensures data.data == old(data.data) + more && fed == old(fed) + more
      ensures consumed == old(consumed) && request == old(request) && bytes == old(bytes)
      ensures timeout == old(timeout) && upgradeWebsocket == old(upgradeWebsocket)
      ensures contentLength == old(contentLength)
    {
      data.data := data.data + more;
      fed := fed + more;
    }

    /** `len`: every byte read so far, through `new` and all `next` calls. */
    function Len(): (n: nat)
      requires Valid()
      reads this, data
      ensures n == |fed|
    {
      bytes
    }

    /** `is_upgrade_websocket`. */
    function IsUpgradeWebsocket(): (b: bool)
      requires Valid()
      reads this, data
      ensures b <==> UpgradeRequested(request)
    {
      upgradeWebsocket
    }

    /**
     * `ready`: the head is decoded and, when it announces a body, all of
     * the body has arrived.
     */
    function Ready(): (b: bool)
      requires Valid()
      reads this, data
      ensures b <==> request.Some? && |data.data| >= ContentLengthOf(request)
    {
      if request.None? then false
      else if contentLength > 0 && |data.data| < contentLength then false
      else true
    }

    /** `check_timeout`: the deadline has passed, strictly. */
    function CheckTimeout(now: nat): (b: bool)
      requires Valid()
      reads this, data
      ensures b <==> now > timeout.value
    {
      if timeout.Some? && now > timeout.value then true else false
    }

    /**
     * `validate`: a request without a head is a server fault, a body
     * announced as longer than the configured limit is too large.
     */
    function Validate(maxBytesReceived: nat): (r: Result<(), Error>)
      requires Valid()
      reads this, data
      ensures request.None? ==> r == Err(NewErrorWithKind(ServerFault, "request validation failed - no request object"))
      ensures request.Some? && ContentLengthOf(request) > maxBytesReceived ==>
                r == Err(TooManyBytesErr(ContentLengthOf(request), maxBytesReceived))
      ensures r.Ok? <==> request.Some? && ContentLengthOf(request) <= maxBytesReceived
    {
      if request.None? then
        Err(NewErrorWithKind(ServerFault, "request validation failed - no request object"))
      else if contentLength > 0 && contentLength > maxBytesReceived then
        Err(TooManyBytesErr(contentLength, maxBytesReceived))
      else Ok(())
    }

    /**
     * `extract`: the request with the bytes after the head as its body,
     * once there is a head.
     */
    function Extract(): (r: Option<Request>)
      requires Valid()
      reads this, data
      ensures r.Some? <==> request.Some?
      ensures r.Some? ==> r.value == Request(request.value, data.data, Option.None, UpgradeRequested(request))
      ensures r.Some? ==> consumed + r.value.body == fed
    {
      if request.Some? then Some(Request(request.value, data.data, Option.None, upgradeWebsocket)) else Option.None
    }
  }

  /**
   * `RawRequest::new`: a raw request holding the first bytes read, with a
   * deadline, decoded once; a decode error is returned instead.
   */
  method NewRawRequest(first: seq<Byte>, deadline: nat, status: ParseStatus) returns (result: Result<RawRequest, Error>)
    requires ParseFits(status, first)
    ensures result.Err? ==> DecodeResult(status).Err? && result.error == DecodeResult(status).error
    ensures result.Ok? ==> DecodeResult(status).Ok?
    ensures result.Ok? ==> fresh(result.value) && fresh(result.value.data) && result.value.Valid()
    ensures result.Ok? ==> result.value.request == DecodeResult(status).value
    ensures result.Ok? ==> result.value.fed == first && result.value.timeout == Some(deadline)
    ensures result.Ok? && status.Complete? ==> result.value.data.data == first[status.amt..]
    ensures result.Ok? && !status.Complete? ==> result.value.data.data == first
  {
    var req := new RawRequest.Init(first, deadline);
    var decoded := req.TryDecode(status);
    if decoded.Err? {
      return Err(decoded.error);
    }
    return Ok(req);
  }
}
