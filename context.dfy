/**
 * The context a route handler works with (sgx/enclave/src/api/handler/context.rs):
 * the request, a type-erased data map that middleware fills for handlers,
 * the websocket attached to the connection (if any), and builders for
 * outgoing HTTP calls that are handed to the HTTP client reactor once.
 */
module Context {
  import opened Wrappers
  import opened Bytes
  import opened Results
  import R = Request
  import opened Connection
  import opened WebSocket

  /** `FETCH_DEFAULT_TIMEOUT_MS`. */
  const FETCH_DEFAULT_TIMEOUT_MS: nat := 2500

  /**
   * A value in the data map, with the Rust type it was boxed as: a
   * `&'static str`, an owned `String`, or some other type, named.
   */
  datatype ContextValue = StaticStr(s: string) | OwnedString(s: string) | OtherValue(typeName: string)

  /** The type `downcast_ref` compares against. */
  datatype ValueType = StaticStrType | OwnedStringType | OtherType(name: string)

  function TypeOf(v: ContextValue): ValueType
  {
    match v
    case StaticStr(_) => StaticStrType
    case OwnedString(_) => OwnedStringType
    case OtherValue(name) => OtherType(name)
  }

  /**
   * `get::<V>`: the value under `key` if there is one and it was stored as
   * a `V`; a value of another type reads as missing.
   */
  function GetAs(data: map<string, ContextValue>, key: string, want: ValueType): (r: Option<ContextValue>)
    ensures r.Some? <==> key in data && TypeOf(data[key]) == want
    ensures r.Some? ==> r.value == data[key] && TypeOf(r.value) == want
  {
    if key in data && TypeOf(data[key]) == want then Some(data[key]) else Option.None
  }

  /** The error of a websocket call on a context that has no websocket. */
  function NotAWebSocket(call: string): (e: Error)
    ensures e.Kind() == WSFault && HttpStatus(e.Kind()) == 400
    ensures e.message == "attempt to call Context->" + call + " when request is not a web socket"
  {
    NewErrorWithKind(WSFault, "attempt to call Context->" + call + " when request is not a web socket")
  }

  /** The HTTP methods of the client. */
  datatype HttpMethod = GET | POST | PUT | PATCH | DELETE | OPTIONS | HEAD

  /**
   * The parts of an outgoing call that the builder sets.  `segments` are
   * path segments added one at a time, `url` a full URL that was accepted.
   */
  datatype CallBuilder = CallBuilder(timeoutMs: nat, https: bool, host: string, port: Option<nat>,
                                     httpMethod: HttpMethod, path: string, segments: seq<string>,
                                     url: Option<string>, headers: seq<(string, string)>, body: seq<Byte>)

  /** `CallBuilder::new()` followed by `timeout_ms(FETCH_DEFAULT_TIMEOUT_MS)`: a plain GET. */
  function DefaultCall(): (c: CallBuilder)
    ensures c.timeoutMs == FETCH_DEFAULT_TIMEOUT_MS && !c.https && c.httpMethod == GET
  {
    CallBuilder(FETCH_DEFAULT_TIMEOUT_MS, false, "", Option.None, GET, "", [], Option.None, [], [])
  }

  /** The HTTP client reactor, seen as the queue of calls handed to it. */
  class HttpcReactor {
    var calls: seq<CallBuilder>

    constructor ()
      ensures calls == []
    {
      calls := [];
    }

    /** `call`: queues the call; the future refers to its place in the queue. */
    method Call(c: CallBuilder) returns (f: CallFuture)
      modifies this
      ensures calls == old(calls) + [c] && f == Queued(|old(calls)|)
    {
      f := Queued(|calls|);
      calls := calls + [c];
    }
  }

  /** `HttpcCallFuture`: a queued call, or a future that resolves to an error at once. */
  datatype CallFuture = Queued(index: nat) | FailedCall(error: Error)

  /** The error `fetch` gives once the builder has been used. */
  function NoBuilder(): (e: Error)
    ensures e.Kind() == HttpClientError && HttpStatus(e.Kind()) == 502
    ensures e.message == "fetch() called with no builder."
  {
    NewErrorWithKind(HttpClientError, "fetch() called with no builder.")
  }

  /**
   * `HttpFetchBuilder`: a call under construction.  Every setter unwraps the
   * builder, so it may only be used before `fetch`; `fetch` hands the call
   * to the reactor and keeps nothing.
   */
  class HttpFetchBuilder {
    const httpc: HttpcReactor
    var builder: Option<CallBuilder>

    /** `HttpFetchBuilder::http`: a plain call with the default timeout. */
    constructor Http(httpc: HttpcReactor)
      ensures this.httpc == httpc && builder == Some(DefaultCall())
    {
      this.httpc := httpc;
      builder := Some(DefaultCall());
    }

    /** `HttpFetchBuilder::https`: the same, over TLS. */
    constructor Https(httpc: HttpcReactor)
      ensures this.httpc == httpc && builder == Some(DefaultCall().(https := true))
    {
      this.httpc := httpc;
      builder := Some(DefaultCall().(https := true));
    }

    method Host(host: string)
      requires builder.Some?
      modifies this
      ensures builder == Some(old(builder).value.(host := host))
    {
      builder := Some(builder.value.(host := host));
    }

    /** `port`: a `u16`. */
    method Port(port: nat)
      requires builder.Some? && port < 0x1_0000
      modifies this
      ensures builder == Some(old(builder).value.(port := Some(port)))
    {
      builder := Some(builder.value.(port := Some(port)));
    }

    method Method(m: HttpMethod)
      requires builder.Some?
      modifies this
      ensures builder == Some(old(builder).value.(httpMethod := m))
    {
      builder := Some(builder.value.(httpMethod := m));
    }

    method Path(path: string)
      requires builder.Some?
      modifies this
      ensures builder == Some(old(builder).value.(path := path))
    {
      builder := Some(builder.value.(path := path));
    }

    /** `path_segment`: adds one more segment. */
    method PathSegment(segment: string)
      requires builder.Some?
      modifies this
      ensures builder == Some(old(builder).value.(segments := old(builder).value.segments + [segment]))
    {
      builder := Some(builder.value.(segments := builder.value.segments + [segment]));
    }

    /**
     * `url`: `accepted` is whether the client library parsed the URL.  A
     * rejected URL is an HTTP client error and leaves the call as it was.
     */
    method Url(url: string, accepted: bool) returns (r: Result<(), Error>)
      requires builder.Some?
      modifies this
      ensures accepted ==> r.Ok? && builder == Some(old(builder).value.(url := Some(url)))
      ensures !accepted ==> builder == old(builder)
                            && r == Err(NewErrorWithKind(HttpClientError, "failed to set url"))
    {
      if !accepted {
        return Err(NewErrorWithKind(HttpClientError, "failed to set url"));
      }
      builder := Some(builder.value.(url := Some(url)));
      r := Ok(());
    }

    method Header(key: string, value: string)
      requires builder.Some?
      modifies this
      ensures builder == Some(old(builder).value.(headers := old(builder).value.headers + [(key, value)]))
    {
      builder := Some(builder.value.(headers := builder.value.headers + [(key, value)]));
    }

    method Body(body: seq<Byte>)
      requires builder.Some?
      modifies this
      ensures builder == Some(old(builder).value.(body := body))
    {
      builder := Some(builder.value.(body := body));
    }

    /**
     * `fetch`: with the builder already used, an HTTP client error and
     * nothing queued; otherwise the call is taken out of the builder and
     * queued on the reactor.
     */
    method Fetch() returns (f: CallFuture)
      modifies this, httpc
      ensures old(builder).None? ==> f == FailedCall(NoBuilder()) && builder.None? && unchanged(httpc)
      ensures old(builder).Some? ==>
                builder.None? && httpc.calls == old(httpc.calls) + [old(builder).value]
                && f == Queued(|old(httpc.calls)|)
    {
      if builder.None? {
        return FailedCall(NoBuilder());
      }
      var call := builder.value;
      builder := Option.None;
      f := httpc.Call(call);
    }

    /** `get`, `delete`, `options`, `head`: set the method only, then fetch. */
    method FetchWith(m: HttpMethod) returns (f: CallFuture)
      requires builder.Some?
      modifies this, httpc
      ensures builder.None? && httpc.calls == old(httpc.calls) + [old(builder).value.(httpMethod := m)]
      ensures f == Queued(|old(httpc.calls)|)
    {
      Method(m);
      f := Fetch();
    }

    /** `post`, `put`, `patch`: set the method and the body, then fetch. */
    method FetchWithBody(m: HttpMethod, body: seq<Byte>) returns (f: CallFuture)
      requires builder.Some?
      modifies this, httpc
      ensures builder.None?
      ensures httpc.calls == old(httpc.calls) + [old(builder).value.(httpMethod := m, body := body)]
      ensures f == Queued(|old(httpc.calls)|)
    {
      Method(m);
      Body(body);
      f := Fetch();
    }

    method Get() returns (f: CallFuture)
      requires builder.Some?
      modifies this, httpc
      ensures builder.None? && httpc.calls == old(httpc.calls) + [old(builder).value.(httpMethod := GET)]
      ensures f == Queued(|old(httpc.calls)|)
    {
      f := FetchWith(GET);
    }

    method Post(body: seq<Byte>) returns (f: CallFuture)
      requires builder.Some?
      modifies this, httpc
      ensures builder.None?
      ensures httpc.calls == old(httpc.calls) + [old(builder).value.(httpMethod := POST, body := body)]
      ensures f == Queued(|old(httpc.calls)|)
    {
      f := FetchWithBody(POST, body);
    }

    method Put(body: seq<Byte>) returns (f: CallFuture)
      requires builder.Some?
      modifies this, httpc
      ensures builder.None?
      ensures httpc.calls == old(httpc.calls) + [old(builder).value.(httpMethod := PUT, body := body)]
      ensures f == Queued(|old(httpc.calls)|)
    {
      f := FetchWithBody(PUT, body);
    }

    method Patch(body: seq<Byte>) returns (f: CallFuture)
      requires builder.Some?
      modifies this, httpc
      ensures builder.None?
      ensures httpc.calls == old(httpc.calls) + [old(builder).value.(httpMethod := PATCH, body := body)]
      ensures f == Queued(|old(httpc.calls)|)
    {
      f := FetchWithBody(PATCH, body);
    }

    method Delete() returns (f: CallFuture)
      requires builder.Some?
      modifies this, httpc
      ensures builder.None? && httpc.calls == old(httpc.calls) + [old(builder).value.(httpMethod := DELETE)]
      ensures f == Queued(|old(httpc.calls)|)
    {
      f := FetchWith(DELETE);
    }

    method Options() returns (f: CallFuture)
      requires builder.Some?
      modifies this, httpc
      ensures builder.None? && httpc.calls == old(httpc.calls) + [old(builder).value.(httpMethod := OPTIONS)]
      ensures f == Queued(|old(httpc.calls)|)
    {
      f := FetchWith(OPTIONS);
    }

    method Head() returns (f: CallFuture)
      requires builder.Some?
      modifies this, httpc
      ensures builder.None? && httpc.calls == old(httpc.calls) + [old(builder).value.(httpMethod := HEAD)]
      ensures f == Queued(|old(httpc.calls)|)
    {
      f := FetchWith(HEAD);
    }
  }

  /** A built call is fetched once: a second `fetch` fails and queues nothing more. */
  method FetchIsOneShot(b: HttpFetchBuilder) returns (first: CallFuture, second: CallFuture)
    requires b.builder.Some?
    modifies b, b.httpc
    ensures first.Queued? && second == FailedCall(NoBuilder())
    ensures b.httpc.calls == old(b.httpc.calls) + [old(b.builder).value]
  {
    first := b.Fetch();
    second := b.Fetch();
  }

  /**
   * `Context`: the request, the HTTP client reactor, the websocket of the
   * connection (its subscribers are handlers `H`, run with a context) and
   * the data map.
   */
  class Context<H> {
    const request: R.Request
    const httpc: HttpcReactor
    const ws: Option<WebSocket<H, Context<H>>>
    var data: map<string, ContextValue>

    /** `Context::new`: an empty data map. */
    constructor (request: R.Request, httpc: HttpcReactor, ws: Option<WebSocket<H, Context<H>>>)
      ensures this.request == request && this.httpc == httpc && this.ws == ws && data == map[]
    {
      this.request := request;
      this.httpc := httpc;
      this.ws := ws;
      data := map[];
    }

    /** The objects a websocket call may change. */
    function WsObjects(): set<object>
      reads this
    {
      if ws.Some? then {ws.value, ws.value.deferral} else {}
    }

    /** `is_websocket`: a websocket is attached and the request asked for one. */
    predicate IsWebsocket()
      reads this
    {
      ws.Some? && request.websocket
    }

    /**
     * `subscribe`: on a context without a websocket a websocket fault that
     * changes nothing; otherwise the handler joins the websocket's
     * subscribers.
     */
    method Subscribe(handler: H) returns (r: Result<(), Error>)
      modifies WsObjects()
      ensures !IsWebsocket() ==> r == Err(NotAWebSocket("subscribe")) && unchanged(WsObjects())
      ensures IsWebsocket() ==>
                r.Ok? && ws.value.subscriptions == old(ws.value.subscriptions) + [handler]
                && ws.value.context == old(ws.value.context) && ws.value.pending == old(ws.value.pending)
                && ws.value.ready == old(ws.value.ready) && ws.value.written == old(ws.value.written)
                && unchanged(ws.value.deferral)
    {
      if !IsWebsocket() {
        return Err(NotAWebSocket("subscribe"));
      }
      r := ws.value.Subscribe(handler);
    }

    /**
     * `send`: on a context without a websocket a websocket fault that
     * changes nothing; otherwise the websocket's own `send` with `data` as
     * the message.
     */
    method Send(data: Message, triggerOk: bool) returns (r: Result<(), Error>)
      modifies WsObjects()
      ensures !IsWebsocket() ==> r == Err(NotAWebSocket("send")) && unchanged(WsObjects())
      ensures IsWebsocket() ==>
                ws.value.subscriptions == old(ws.value.subscriptions) && ws.value.context == old(ws.value.context)
                && ws.value.ready == old(ws.value.ready) && ws.value.written == old(ws.value.written)
      ensures IsWebsocket() && !old(ws.value.ready) ==>
                r.Ok? && ws.value.pending == Some(Buffered(old(ws.value.pending)) + [data])
                && unchanged(ws.value.deferral)
      ensures IsWebsocket() && old(ws.value.ready) && !Full(|old(ws.value.deferral.defers)|, ws.value.deferral.maxDefersQueue) ==>
                r.Ok? && ws.value.pending == old(ws.value.pending)
                && ws.value.deferral.defers == old(ws.value.deferral.defers) + [WsSend(data)]
                && ws.value.deferral.futures == old(ws.value.deferral.futures)
                && ws.value.deferral.readable == (old(ws.value.deferral.readable) || triggerOk)
      ensures IsWebsocket() && old(ws.value.ready) && Full(|old(ws.value.deferral.defers)|, ws.value.deferral.maxDefersQueue) ==>
                r == Err(LimitExceeded("deferral", ws.value.deferral.maxDefersQueue.value))
                && ws.value.pending == old(ws.value.pending) && unchanged(ws.value.deferral)
    {
      if !IsWebsocket() {
        return Err(NotAWebSocket("send"));
      }
      r := ws.value.Send(data, triggerOk);
    }

    /** `http`: a builder for a plain call on this context's reactor. */
    method Http() returns (b: HttpFetchBuilder)
      ensures fresh(b) && b.httpc == httpc && b.builder == Some(DefaultCall())
    {
      b := new HttpFetchBuilder.Http(httpc);
    }

    /** `https`: a builder for a call over TLS on this context's reactor. */
    method Https() returns (b: HttpFetchBuilder)
      ensures fresh(b) && b.httpc == httpc && b.builder == Some(DefaultCall().(https := true))
    {
      b := new HttpFetchBuilder.Https(httpc);
    }

    /** `insert`: stores the value under `key`, replacing an earlier one. */
    method Insert(key: string, value: ContextValue)
      modifies this
      ensures data == old(data)[key := value]
      ensures ContainsKey(key) && Get(key, TypeOf(value)) == Some(value)
    {
      data := data[key := value];
    }

    /** `get::<V>` on this context's data. */
    function Get(key: string, want: ValueType): (r: Option<ContextValue>)
      reads this
      ensures r.Some? <==> key in data && TypeOf(data[key]) == want
      ensures r.Some? ==> r.value == data[key] && TypeOf(r.value) == want
    {
      GetAs(data, key, want)
    }

    /** `contains_key`. */
    predicate ContainsKey(key: string)
      reads this
    {
      key in data
    }
  }

  /**
   * `contains_key` ignores the type: a key is present exactly when `get`
   * finds it at some type, namely the type it was stored with.
   */
  lemma ContainsIffGettable<H>(c: Context<H>, key: string)
    ensures c.ContainsKey(key) <==> exists want :: c.Get(key, want).Some?
    ensures c.ContainsKey(key) ==> c.Get(key, TypeOf(c.data[key])) == Some(c.data[key])
  {
    if c.ContainsKey(key) {
      assert c.Get(key, TypeOf(c.data[key])).Some?;
    }
  }

  /**
   * `is_websocket` needs the request's own upgrade flag as well as an
   * attached websocket: a context on a request whose head did not ask for
   * a websocket upgrade is never a websocket context, so `subscribe` and
   * `send` refuse it.
   */
  lemma PlainRequestIsNotWebsocket<H>(c: Context<H>, raw: R.RawRequest)
    requires raw.Valid() && raw.Extract() == Some(c.request)
    requires !R.UpgradeRequested(raw.request)
    ensures !c.IsWebsocket()
  {
  }

  /**
   * What the test middleware stores is a `&'static str`, so reading it back
   * as a `String` finds nothing, while reading it as a `&str` finds it.
   */
  lemma StaticStrIsNotAString(data: map<string, ContextValue>)
    ensures GetAs(data["test" := StaticStr("value")], "test", OwnedStringType).None?
    ensures GetAs(data["test" := StaticStr("value")], "test", StaticStrType) == Some(StaticStr("value"))
  {
  }
}
