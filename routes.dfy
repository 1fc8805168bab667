/**
 * The API's route table (sgx/enclave/src/api/handler/routes.rs): the
 * routes `build_routes` registers, the middleware each one runs behind,
 * and what each handler answers.  The handlers' calls into libraries (JSON
 * decoding, the outgoing fetch, the websocket subscription) are inputs.
 */
module Routes {
  import opened Wrappers
  import opened Bytes
  import opened Results
  import opened Router
  import R = Request
  import opened Context
  import opened RouteKeys
  import W = WebSocket
  import Conn = Connection

  /** The handlers `build_routes` registers. */
  datatype Handler = TestPing | TestPanic | TestPost | TestFetch | Ping | Hello | Calc | Ws

  /** `middleware_recovery`, and the "/test" scope's middleware that stores "test". */
  datatype Middleware = Recovery | TestInserter

  const TEST_MIDDLEWARE: seq<Middleware> := [Recovery, TestInserter]
  const TOP_MIDDLEWARE: seq<Middleware> := [Recovery]

  /** The four routes of the "/test" scope. */
  function TestRoutes(): map<string, RouteHandler<Handler, Middleware>>
  {
    map[
      "GET/test/ping" := RouteHandler("GET/test/ping", "GET", [PathToken("test"), PathToken("ping")], TestPing, TEST_MIDDLEWARE),
      "GET/test/panic" := RouteHandler("GET/test/panic", "GET", [PathToken("test"), PathToken("panic")], TestPanic, TEST_MIDDLEWARE),
      "POST/test/post" := RouteHandler("POST/test/post", "POST", [PathToken("test"), PathToken("post")], TestPost, TEST_MIDDLEWARE),
      "GET/test/fetch" := RouteHandler("GET/test/fetch", "GET", [PathToken("test"), PathToken("fetch")], TestFetch, TEST_MIDDLEWARE)
    ]
  }

  /** The table once "/ping" is registered at top level. */
  function WithPing(): map<string, RouteHandler<Handler, Middleware>>
  {
    TestRoutes()["GET/ping" := RouteHandler("GET/ping", "GET", [PathToken("ping")], Ping, TOP_MIDDLEWARE)]
  }

  /** The table once "/hello/:name" is registered too. */
  function WithHello(): map<string, RouteHandler<Handler, Middleware>>
  {
    WithPing()["GET/hello/*CAPTURE*" := RouteHandler("GET/hello/*CAPTURE*", "GET", [PathToken("hello"), CaptureToken("name")], Hello, TOP_MIDDLEWARE)]
  }

  /** The table once "/calc/:a/:b" is registered too. */
  function WithCalc(): map<string, RouteHandler<Handler, Middleware>>
  {
    WithHello()["GET/calc/*CAPTURE*/*CAPTURE*" := RouteHandler("GET/calc/*CAPTURE*/*CAPTURE*", "GET",
                                                               [PathToken("calc"), CaptureToken("a"), CaptureToken("b")], Calc, TOP_MIDDLEWARE)]
  }

  /** The table `build_routes` produces: the test routes and four top-level routes, eight distinct keys. */
  function ExpectedRoutes(): map<string, RouteHandler<Handler, Middleware>>
  {
    WithCalc()["GET/ws" := RouteHandler("GET/ws", "GET", [PathToken("ws")], Ws, TOP_MIDDLEWARE)]
  }

  /** `get("/ping", ...)` in the "/test" scope: one new table entry, under the route's key. */
  method RegisterTestPing(r: Router<Handler, Middleware>)
    requires r.top.Valid() && r.path == Some("/test")
    requires "GET/test/ping" !in r.top.routes
    modifies r.top
    ensures r.top.Valid()
    ensures r.top.routes == old(r.top.routes)["GET/test/ping" := RouteHandler("GET/test/ping", "GET", [PathToken("test"), PathToken("ping")], TestPing, r.middleware)]
  {
    TestPingKey(r.path);
    r.Get("/ping", TestPing);
  }

  /** `get("/panic", ...)` in the "/test" scope: one new table entry, under the route's key. */
  method RegisterTestPanic(r: Router<Handler, Middleware>)
    requires r.top.Valid() && r.path == Some("/test")
    requires "GET/test/panic" !in r.top.routes
    modifies r.top
    ensures r.top.Valid()
    ensures r.top.routes == old(r.top.routes)["GET/test/panic" := RouteHandler("GET/test/panic", "GET", [PathToken("test"), PathToken("panic")], TestPanic, r.middleware)]
  {
    TestPanicKey(r.path);
    r.Get("/panic", TestPanic);
  }

  /** `post("/post", ...)` in the "/test" scope: one new table entry, under the route's key. */
  method RegisterTestPost(r: Router<Handler, Middleware>)
    requires r.top.Valid() && r.path == Some("/test")
    requires "POST/test/post" !in r.top.routes
    modifies r.top
    ensures r.top.Valid()
    ensures r.top.routes == old(r.top.routes)["POST/test/post" := RouteHandler("POST/test/post", "POST", [PathToken("test"), PathToken("post")], TestPost, r.middleware)]
  {
    TestPostKey(r.path);
    r.Post("/post", TestPost);
  }

  /** `get("/fetch", ...)` in the "/test" scope: one new table entry, under the route's key. */
  method RegisterTestFetch(r: Router<Handler, Middleware>)
    requires r.top.Valid() && r.path == Some("/test")
    requires "GET/test/fetch" !in r.top.routes
    modifies r.top
    ensures r.top.Valid()
    ensures r.top.routes == old(r.top.routes)["GET/test/fetch" := RouteHandler("GET/test/fetch", "GET", [PathToken("test"), PathToken("fetch")], TestFetch, r.middleware)]
  {
    TestFetchKey(r.path);
    r.Get("/fetch", TestFetch);
  }

  /** `get("/ping", ...)` at top level: one new table entry, under the route's key. */
  method RegisterPing(r: Router<Handler, Middleware>)
    requires r.top.Valid() && r.path.None?
    requires "GET/ping" !in r.top.routes
    modifies r.top
    ensures r.top.Valid()
    ensures r.top.routes == old(r.top.routes)["GET/ping" := RouteHandler("GET/ping", "GET", [PathToken("ping")], Ping, r.middleware)]
  {
    PingKey(r.path);
    r.Get("/ping", Ping);
  }

  /** `get("/hello/:name", ...)` at top level: one new table entry, under the route's key. */
  method RegisterHello(r: Router<Handler, Middleware>)
    requires r.top.Valid() && r.path.None?
    requires "GET/hello/*CAPTURE*" !in r.top.routes
    modifies r.top
    ensures r.top.Valid()
    ensures r.top.routes == old(r.top.routes)["GET/hello/*CAPTURE*" := RouteHandler("GET/hello/*CAPTURE*", "GET", [PathToken("hello"), CaptureToken("name")], Hello, r.middleware)]
  {
    HelloKey(r.path);
    r.Get("/hello/:name", Hello);
  }

  /** `get("/calc/:a/:b", ...)` at top level: one new table entry, under the route's key. */
  method RegisterCalc(r: Router<Handler, Middleware>)
    requires r.top.Valid() && r.path.None?
    requires "GET/calc/*CAPTURE*/*CAPTURE*" !in r.top.routes
    modifies r.top
    ensures r.top.Valid()
    ensures r.top.routes == old(r.top.routes)["GET/calc/*CAPTURE*/*CAPTURE*" := RouteHandler("GET/calc/*CAPTURE*/*CAPTURE*", "GET", [PathToken("calc"), CaptureToken("a"), CaptureToken("b")], Calc, r.middleware)]
  {
    CalcKey(r.path);
    r.Get("/calc/:a/:b", Calc);
  }

  /** `get("/ws", ...)` at top level: one new table entry, under the route's key. */
  method RegisterWs(r: Router<Handler, Middleware>)
    requires r.top.Valid() && r.path.None?
    requires "GET/ws" !in r.top.routes
    modifies r.top
    ensures r.top.Valid()
    ensures r.top.routes == old(r.top.routes)["GET/ws" := RouteHandler("GET/ws", "GET", [PathToken("ws")], Ws, r.middleware)]
  {
    WsKey(r.path);
    r.Get("/ws", Ws);
  }

  /** The "/test" scope of `build_routes`: the test middleware and four routes. */
  method RegisterTestScope(r: Router<Handler, Middleware>)
    requires r.top.Valid() && r.top.routes == map[]
    requires r.path.None? && r.middleware == TOP_MIDDLEWARE
    modifies r.top
    ensures r.top.Valid() && r.top.routes == TestRoutes()
  {
    var t := r.Route("/test");
    t.Require(TestInserter);
    assert t.middleware == TEST_MIDDLEWARE;
    RegisterTestPing(t);
    RegisterTestPanic(t);
    RegisterTestPost(t);
    RegisterTestFetch(t);
  }

  /**
   * `build_routes`: recovery for every route; a "/test" scope that adds
   * the test middleware and four routes; four top-level routes.  No key is
   * registered twice, so the duplicate-route panic never fires.
   */
  method BuildRoutes() returns (r: Router<Handler, Middleware>)
    ensures fresh(r.top) && r.top.Valid()
    ensures r.top.routes == ExpectedRoutes()
    ensures r.path.None? && r.middleware == TOP_MIDDLEWARE
  {
    r := new Router();
    r.Require(Recovery);
    assert r.middleware == TOP_MIDDLEWARE;
    RegisterTestScope(r);
    RegisterPing(r);
    RegisterHello(r);
    RegisterCalc(r);
    RegisterWs(r);
  }

  // ---------------------------------------------------------------------
  // What the handlers answer

  /** The subscriber the "/ws" handler registers: it sends a greeting back. */
  datatype Subscriber = WsGreeter

  /** `b"Hello, World"`, what the subscriber sends. */
  const GREETING: seq<Byte> := FromString("Hello, World")

  /**
   * The "/ws" handler run on a context: it subscribes the greeter, passing
   * on the refusal of a context that is not a websocket.  This is the
   * handler's answer in `Answer`, whatever the environment.
   */
  method WsHandler(ctx: Context<Subscriber>) returns (o: Outcome)
    modifies ctx.WsObjects()
    ensures forall env :: o == Answer(Ws, ctx.request, ctx.IsWebsocket(), env)
    ensures ctx.IsWebsocket() ==> ctx.ws.value.subscriptions == old(ctx.ws.value.subscriptions) + [WsGreeter]
    ensures !ctx.IsWebsocket() ==> unchanged(ctx.WsObjects())
  {
    var r := ctx.Subscribe(WsGreeter);
    if r.Err? {
      return Failed(r.error);
    }
    o := Completed;
  }

  /**
   * The greeter run on a message: `ctx.send(b"Hello, World")?`.  Outside a
   * websocket it fails; before activation the greeting is buffered; after
   * it the greeting is deferred, unless the deferral queue is full.
   */
  method Greet(ctx: Context<Subscriber>, triggerOk: bool) returns (r: Result<(), Error>)
    modifies ctx.WsObjects()
    ensures !ctx.IsWebsocket() ==> r == Err(NotAWebSocket("send")) && unchanged(ctx.WsObjects())
    ensures ctx.IsWebsocket() && !old(ctx.ws.value.ready) ==>
              r.Ok? && ctx.ws.value.pending == Some(W.Buffered(old(ctx.ws.value.pending)) + [GREETING])
    ensures ctx.IsWebsocket() && old(ctx.ws.value.ready)
            && !Conn.Full(|old(ctx.ws.value.deferral.defers)|, ctx.ws.value.deferral.maxDefersQueue) ==>
              r.Ok? && ctx.ws.value.deferral.defers == old(ctx.ws.value.deferral.defers) + [W.WsSend(GREETING)]
    ensures ctx.IsWebsocket() && old(ctx.ws.value.ready)
            && Conn.Full(|old(ctx.ws.value.deferral.defers)|, ctx.ws.value.deferral.maxDefersQueue) ==>
              r == Err(Conn.LimitExceeded("deferral", ctx.ws.value.deferral.maxDefersQueue.value))
              && unchanged(ctx.ws.value.deferral)
  {
    r := ctx.Send(GREETING, triggerOk);
    if r.Err? {
      return r;
    }
    r := Ok(());
  }

  /**
   * What running a handler (or a route, middleware included) comes to: an
   * ok reply with a message, a reply whose body is given, success with no
   * reply, an error, or a panic with its payload.
   */
  datatype Outcome =
    | Replied(message: string)
    | RepliedBody(contentType: string, body: seq<Byte>)
    | Completed
    | Failed(error: Error)
    | Panicked(payload: PanicPayload)

  /**
   * What the handlers get from libraries: the JSON decoder's error text
   * for the "/test/post" body (None when it decodes), the awaited result of
   * the "/test/fetch" call (a body, no body, or an error), and whether the
   * build checks integer overflow.
   */
  datatype Env = Env(jsonError: Option<string>, fetched: Result<Option<seq<Byte>>, Error>, overflowChecks: bool)

  const UNWRAP_NONE: string := "called `Option::unwrap()` on a `None` value"
  const ADD_OVERFLOW: string := "attempt to add with overflow"

  /** `a + b` on two `u32`: a panic where overflow is checked, wrap-around where it is not. */
  function AddU32(a: nat, b: nat, overflowChecks: bool): (r: Result<nat, PanicPayload>)
    requires a <= U32_MAX && b <= U32_MAX
    ensures a + b <= U32_MAX ==> r == Ok(a + b)
    ensures a + b > U32_MAX && overflowChecks ==> r == Err(StrPayload(ADD_OVERFLOW))
    ensures a + b > U32_MAX && !overflowChecks ==> r.Ok? && r.value == a + b - (U32_MAX + 1)
    ensures r.Ok? ==> r.value <= U32_MAX && r.value % (U32_MAX + 1) == (a + b) % (U32_MAX + 1)
  {
    if a + b <= U32_MAX then Ok(a + b)
    else if overflowChecks then Err(StrPayload(ADD_OVERFLOW))
    else Ok(a + b - (U32_MAX + 1))
  }

  /** The /calc answer for the two variables read as `u32` values: both unwrapped, then added. */
  function SumAnswer(a: Option<nat>, b: Option<nat>, overflowChecks: bool): (o: Outcome)
    requires a.Some? ==> a.value <= U32_MAX
    requires b.Some? ==> b.value <= U32_MAX
    ensures o.Panicked? || o.Replied?
  {
    if a.None? || b.None? then Panicked(StrPayload(UNWRAP_NONE))
    else
      var sum := AddU32(a.value, b.value, overflowChecks);
      if sum.Err? then Panicked(sum.error) else Replied("Sum " + NatToString(sum.value))
  }

  /**
   * What each handler of `build_routes` answers for `req`, on a context
   * that is (`isWebsocket`) or is not a websocket.
   */
  function Answer(h: Handler, req: R.Request, isWebsocket: bool, env: Env): (o: Outcome)
    ensures o.Panicked? ==> h in {TestPanic, Hello, Calc}
    ensures o.Failed? ==> h in {TestPost, TestFetch, Ws}
    ensures o.Replied? ==> h in {TestPing, TestPost, TestFetch, Ping, Hello, Calc}
  {
    match h
    case TestPing => Replied("PONG")
    case TestPanic => Panicked(StrPayload("YELP"))
    case TestPost =>
      if env.jsonError.Some? then Failed(NewErrorWithKind(DecodeFault, env.jsonError.value)) else Replied("Ok")
    case TestFetch =>
      if env.fetched.Err? then Failed(env.fetched.error)
      else if env.fetched.value.Some? then RepliedBody("application/json", env.fetched.value.value)
      else Replied("No results")
    case Ping => Replied("PONG")
    case Hello =>
      if req.Var("name").None? then Panicked(StrPayload(UNWRAP_NONE)) else Replied("Hello " + req.Var("name").value)
    case Calc => SumAnswer(req.VarU32("a"), req.VarU32("b"), env.overflowChecks)
    case Ws =>
      if isWebsocket then Completed else Failed(NotAWebSocket("subscribe"))
  }

  /** `middleware_recovery`: a panic inside becomes a server fault naming the payload; anything else passes. */
  function Recovered(o: Outcome): (r: Outcome)
    ensures !r.Panicked?
    ensures !o.Panicked? ==> r == o
    ensures o.Panicked? ==> r.Failed? && r.error.Kind() == ServerFault && HttpStatus(r.error.Kind()) == 500
  {
    if o.Panicked? then
      Failed(NewErrorWithKind(ServerFault, "recovered from panic during request: " + CaughtErrToStr(o.payload)))
    else o
  }

  /**
   * `RouteHandler::route` with `_invoke_middleware`: the first middleware
   * is the outermost, each one calling the next, the last one the handler.
   * The test middleware only stores a value, so it passes the outcome on.
   */
  function Serve(middleware: seq<Middleware>, h: Handler, req: R.Request, isWebsocket: bool, env: Env): (o: Outcome)
    ensures Recovery in middleware ==> !o.Panicked?
    ensures Recovery !in middleware ==> o == Answer(h, req, isWebsocket, env)
    decreases |middleware|
  {
    if middleware == [] then Answer(h, req, isWebsocket, env)
    else
      var inner := Serve(middleware[1..], h, req, isWebsocket, env);
      assert middleware == [middleware[0]] + middleware[1..];
      match middleware[0]
      case Recovery => Recovered(inner)
      case TestInserter => inner
  }

  /** The data map after the middleware ran: the test middleware stores "test" as a `&'static str`. */
  function DataAfter(middleware: seq<Middleware>, data: map<string, ContextValue>): (d: map<string, ContextValue>)
    ensures TestInserter in middleware ==> d == data["test" := StaticStr("value")]
    ensures TestInserter !in middleware ==> d == data
  {
    if TestInserter in middleware then data["test" := StaticStr("value")] else data
  }

  // ---------------------------------------------------------------------
  // Which route serves a request

  /**
   * An independent statement of which route of `build_routes` serves a
   * request: by method, number of segments and literal segments.
   */
  function RouteFor(httpMethod: string, segments: seq<string>): (key: Option<string>)
    ensures key.Some? ==> key.value in ExpectedRoutes()
  {
    if httpMethod == "GET" && |segments| == 2 && segments[0] == "test" && segments[1] == "ping" then Some("GET/test/ping")
    else if httpMethod == "GET" && |segments| == 2 && segments[0] == "test" && segments[1] == "panic" then Some("GET/test/panic")
    else if httpMethod == "POST" && |segments| == 2 && segments[0] == "test" && segments[1] == "post" then Some("POST/test/post")
    else if httpMethod == "GET" && |segments| == 2 && segments[0] == "test" && segments[1] == "fetch" then Some("GET/test/fetch")
    else if httpMethod == "GET" && |segments| == 1 && segments[0] == "ping" then Some("GET/ping")
    else if httpMethod == "GET" && |segments| == 2 && segments[0] == "hello" then Some("GET/hello/*CAPTURE*")
    else if httpMethod == "GET" && |segments| == 3 && segments[0] == "calc" then Some("GET/calc/*CAPTURE*/*CAPTURE*")
    else if httpMethod == "GET" && |segments| == 1 && segments[0] == "ws" then Some("GET/ws")
    else Option.None
  }

  /**
   * A route of the table matches a request exactly when it is the one
   * `RouteFor` names, so at most one route matches any request and the
   * table's iteration order never decides which handler runs.
   */
  lemma MatchIsRouteFor(httpMethod: string, segments: seq<string>, key: string)
    requires key in ExpectedRoutes()
    ensures RouteMatches(ExpectedRoutes()[key], httpMethod, segments) <==> RouteFor(httpMethod, segments) == Some(key)
  {
  }

  // ---------------------------------------------------------------------
  // What the routes answer

  /** GET /test/ping and GET /ping both answer "PONG", whatever the request. */
  lemma PingsAnswerPong(req: R.Request, isWebsocket: bool, env: Env)
    ensures Serve(TEST_MIDDLEWARE, TestPing, req, isWebsocket, env) == Replied("PONG")
    ensures Serve(TOP_MIDDLEWARE, Ping, req, isWebsocket, env) == Replied("PONG")
  {
    assert TEST_MIDDLEWARE[1..][1..] == [];
    assert TOP_MIDDLEWARE[1..] == [];
  }

  /** The text of a panic caught by the recovery middleware. */
  function RecoveredPanic(payload: string): (e: Error)
    ensures e.Kind() == ServerFault && HttpStatus(e.Kind()) == 500
    ensures e.message == "recovered from panic during request: " + payload
  {
    NewErrorWithKind(ServerFault, "recovered from panic during request: " + payload)
  }

  /** GET /test/panic panics with "YELP", which recovery turns into a 500 naming it. */
  lemma PanicRouteIsRecovered(req: R.Request, isWebsocket: bool, env: Env)
    ensures Answer(TestPanic, req, isWebsocket, env).Panicked?
    ensures Serve(TEST_MIDDLEWARE, TestPanic, req, isWebsocket, env) == Failed(RecoveredPanic("YELP"))
  {
    assert TEST_MIDDLEWARE[1..][1..] == [];
  }

  /**
   * GET /hello/:name: the segment after "hello" is captured as `name`, and
   * the answer is "Hello " followed by it.
   */
  lemma HelloGreetsCapture(req: R.Request, name: string, isWebsocket: bool, env: Env)
    ensures RouteMatches(ExpectedRoutes()["GET/hello/*CAPTURE*"], "GET", ["hello", name])
    ensures CapturesOf([PathToken("hello"), CaptureToken("name")], ["hello", name]) == map["name" := name]
    ensures Serve(TOP_MIDDLEWARE, Hello, req.WithVars(map["name" := name]), isWebsocket, env) == Replied("Hello " + name)
  {
    var tokens := [PathToken("hello"), CaptureToken("name")];
    var segments := ["hello", name];
    assert tokens[..1] == [PathToken("hello")] && segments[..1] == ["hello"];
    assert tokens[..1][..0] == [];
    assert TOP_MIDDLEWARE[1..] == [];
  }

  /** A request without a `name` variable panics at `unwrap`; recovery answers 500. */
  lemma HelloWithoutNamePanics(req: R.Request, isWebsocket: bool, env: Env)
    requires req.Var("name").None?
    ensures Answer(Hello, req, isWebsocket, env) == Panicked(StrPayload(UNWRAP_NONE))
    ensures Serve(TOP_MIDDLEWARE, Hello, req, isWebsocket, env) == Failed(RecoveredPanic(UNWRAP_NONE))
  {
    assert TOP_MIDDLEWARE[1..] == [];
  }

  /**
   * GET /calc/:a/:b with two rendered `u32` values answers "Sum " and
   * their sum; a sum past `u32::MAX` panics where overflow is checked
   * (recovered as a 500) and wraps where it is not.
   */
  lemma CalcSums(req: R.Request, a: nat, b: nat, isWebsocket: bool, env: Env)
    requires a <= U32_MAX && b <= U32_MAX
    ensures var r := req.WithVars(map["a" := NatToString(a), "b" := NatToString(b)]);
            Serve(TOP_MIDDLEWARE, Calc, r, isWebsocket, env)
            == if a + b <= U32_MAX then Replied("Sum " + NatToString(a + b))
               else if env.overflowChecks then Failed(RecoveredPanic(ADD_OVERFLOW))
               else Replied("Sum " + NatToString(a + b - (U32_MAX + 1)))
  {
    var r := req.WithVars(map["a" := NatToString(a), "b" := NatToString(b)]);
    CalcReadsRendered(req, a, b);
    CalcAnswer(a, b, env.overflowChecks);
    assert TOP_MIDDLEWARE[1..] == [];
  }

  /** The /calc answer once both variables have been read as `u32` values. */
  lemma CalcAnswer(a: nat, b: nat, overflowChecks: bool)
    requires a <= U32_MAX && b <= U32_MAX
    ensures SumAnswer(Some(a), Some(b), overflowChecks)
            == if a + b <= U32_MAX then Replied("Sum " + NatToString(a + b))
               else if overflowChecks then Panicked(StrPayload(ADD_OVERFLOW))
               else Replied("Sum " + NatToString(a + b - (U32_MAX + 1)))
  {
    var sum := AddU32(a, b, overflowChecks);
    if a + b <= U32_MAX {
      assert sum == Ok(a + b);
    } else if overflowChecks {
      assert sum == Err(StrPayload(ADD_OVERFLOW));
    } else {
      assert sum == Ok(a + b - (U32_MAX + 1));
    }
  }

  /** Rendered `u32` values read back through `var::<u32>`. */
  lemma CalcReadsRendered(req: R.Request, a: nat, b: nat)
    requires a <= U32_MAX && b <= U32_MAX
    ensures var r := req.WithVars(map["a" := NatToString(a), "b" := NatToString(b)]);
            r.VarU32("a") == Some(a) && r.VarU32("b") == Some(b)
  {
    var r := req.WithVars(map["a" := NatToString(a), "b" := NatToString(b)]);
    ParseRendered(a, U32_MAX + 1);
    ParseRendered(b, U32_MAX + 1);
    assert r.Var("a") == Some(NatToString(a));
    assert r.Var("b") == Some(NatToString(b));
  }

  /** A capture of /calc that is missing or not a `u32` panics at `unwrap`; recovery answers 500. */
  lemma CalcRejectsNonNumbers(req: R.Request, isWebsocket: bool, env: Env)
    requires req.VarU32("a").None? || req.VarU32("b").None?
    ensures Serve(TOP_MIDDLEWARE, Calc, req, isWebsocket, env) == Failed(RecoveredPanic(UNWRAP_NONE))
  {
    assert TOP_MIDDLEWARE[1..] == [];
  }

  /** POST /test/post: a body the JSON decoder rejects is a decode fault (500) carrying its text; otherwise "Ok". */
  lemma PostDecodes(req: R.Request, isWebsocket: bool, env: Env)
    ensures env.jsonError.Some? ==>
              Serve(TEST_MIDDLEWARE, TestPost, req, isWebsocket, env) == Failed(Error(env.jsonError.value, DecodeFault))
              && HttpStatus(DecodeFault) == 500
    ensures env.jsonError.None? ==> Serve(TEST_MIDDLEWARE, TestPost, req, isWebsocket, env) == Replied("Ok")
  {
    assert TEST_MIDDLEWARE[1..][1..] == [];
  }

  /**
   * GET /test/fetch: a fetched body is returned as JSON, no body answers
   * "No results", and a failed call is passed on as its error.
   */
  lemma FetchAnswers(req: R.Request, isWebsocket: bool, env: Env)
    ensures env.fetched.Err? ==> Serve(TEST_MIDDLEWARE, TestFetch, req, isWebsocket, env) == Failed(env.fetched.error)
    ensures env.fetched == Ok(Option.None) ==> Serve(TEST_MIDDLEWARE, TestFetch, req, isWebsocket, env) == Replied("No results")
    ensures env.fetched.Ok? && env.fetched.value.Some? ==>
              Serve(TEST_MIDDLEWARE, TestFetch, req, isWebsocket, env) == RepliedBody("application/json", env.fetched.value.value)
  {
    assert TEST_MIDDLEWARE[1..][1..] == [];
  }

  /** GET /ws succeeds only on a websocket; elsewhere the subscription is a websocket fault (400). */
  lemma WsNeedsWebsocket(req: R.Request, isWebsocket: bool, env: Env)
    ensures Serve(TOP_MIDDLEWARE, Ws, req, isWebsocket, env).Completed? <==> isWebsocket
    ensures !isWebsocket ==> Serve(TOP_MIDDLEWARE, Ws, req, isWebsocket, env) == Failed(NotAWebSocket("subscribe"))
                             && HttpStatus(NotAWebSocket("subscribe").Kind()) == 400
  {
    assert TOP_MIDDLEWARE[1..] == [];
  }

  /** Recovery is idempotent: a second recovery layer changes nothing. */
  lemma RecoveredIdempotent(o: Outcome)
    ensures Recovered(Recovered(o)) == Recovered(o)
  {
  }
}
