/**
 * The keys and tokens of the routes `build_routes` registers, worked out
 * from the tokenisation in sgx/enclave/src/api/handler/router.rs: one
 * lemma per shape of route path, then one per route.
 */
module RouteKeys {
  import opened Wrappers
  import opened Bytes
  import opened Router

  /** A path with no empty part keeps all its parts. */
  lemma {:induction false} NonEmptyOfClean(parts: seq<string>)
    requires forall i :: 0 <= i < |parts| ==> parts[i] != ""
    ensures NonEmpty(parts) == parts
  {
    if parts != [] {
      NonEmptyOfClean(parts[1..]);
      assert parts == [parts[0]] + parts[1..];
    }
  }

  /**
   * A route path written as '/' followed by clean parts joined with '/'
   * has one token per part, and its key is the method and the parts'
   * key parts joined with '/'.
   */
  lemma RouteKey(httpMethod: string, parts: seq<string>)
    requires |parts| >= 1
    requires forall i :: 0 <= i < |parts| ==> parts[i] != "" && NoSlash(parts[i])
    ensures Tokenize("/" + JoinSlash(parts)) == TokensOf(parts)
    ensures UniqueKey(httpMethod, "/" + JoinSlash(parts)) == JoinSlash([httpMethod] + KeyParts(TokensOf(parts)))
  {
    var path := "/" + JoinSlash(parts);
    assert TrimLeadingSlash(path) == JoinSlash(parts);
    SplitJoin(parts);
    NonEmptyOfClean(parts);
  }

  lemma Join2(a: string, b: string)
    ensures JoinSlash([a, b]) == a + "/" + b
  {
    assert [a, b][1..] == [b];
  }

  lemma Join3(a: string, b: string, c: string)
    ensures JoinSlash([a, b, c]) == a + "/" + b + "/" + c
  {
    assert [a, b, c][1..] == [b, c];
    Join2(b, c);
  }

  lemma Join4(a: string, b: string, c: string, d: string)
    ensures JoinSlash([a, b, c, d]) == a + "/" + b + "/" + c + "/" + d
  {
    assert [a, b, c, d][1..] == [b, c, d];
    Join3(b, c, d);
  }

  /** A segment not starting with ':' is a literal token and its own key part. */
  lemma PlainPart(s: string)
    requires |s| > 0 && s[0] != ':'
    ensures TokenOf(s) == PathToken(s) && KeyPart(TokenOf(s)) == s
  {}

  /** A segment ':' + name is a capture of that name, keyed by the placeholder. */
  lemma CapturePart(name: string)
    ensures TokenOf(":" + name) == CaptureToken(name) && KeyPart(TokenOf(":" + name)) == CAPTURE_PLACEHOLDER
  {
    assert (":" + name)[1..] == name;
  }

  /** The tokens and key of a one-segment route path. */
  lemma Key1(m: string, a: string)
    requires a != "" && NoSlash(a)
    ensures Tokenize("/" + a) == [TokenOf(a)]
    ensures UniqueKey(m, "/" + a) == m + "/" + KeyPart(TokenOf(a))
  {
    assert "/" + a == "/" + JoinSlash([a]);
    RouteKey(m, [a]);
    assert [m] + KeyParts([TokenOf(a)]) == [m, KeyPart(TokenOf(a))];
    Join2(m, KeyPart(TokenOf(a)));
  }

  /** The tokens and key of a two-segment route path. */
  lemma Key2(m: string, a: string, b: string)
    requires a != "" && NoSlash(a) && b != "" && NoSlash(b)
    ensures Tokenize("/" + a + "/" + b) == [TokenOf(a), TokenOf(b)]
    ensures UniqueKey(m, "/" + a + "/" + b) == m + "/" + KeyPart(TokenOf(a)) + "/" + KeyPart(TokenOf(b))
  {
    Join2(a, b);
    assert "/" + a + "/" + b == "/" + JoinSlash([a, b]);
    RouteKey(m, [a, b]);
    assert TokensOf([a, b]) == [TokenOf(a), TokenOf(b)];
    assert [m] + KeyParts([TokenOf(a), TokenOf(b)]) == [m, KeyPart(TokenOf(a)), KeyPart(TokenOf(b))];
    Join3(m, KeyPart(TokenOf(a)), KeyPart(TokenOf(b)));
  }

  /** The tokens and key of a three-segment route path. */
  lemma Key3(m: string, a: string, b: string, c: string)
    requires a != "" && NoSlash(a) && b != "" && NoSlash(b) && c != "" && NoSlash(c)
    ensures Tokenize("/" + a + "/" + b + "/" + c) == [TokenOf(a), TokenOf(b), TokenOf(c)]
    ensures UniqueKey(m, "/" + a + "/" + b + "/" + c)
            == m + "/" + KeyPart(TokenOf(a)) + "/" + KeyPart(TokenOf(b)) + "/" + KeyPart(TokenOf(c))
  {
    Join3(a, b, c);
    assert "/" + a + "/" + b + "/" + c == "/" + JoinSlash([a, b, c]);
    RouteKey(m, [a, b, c]);
    assert TokensOf([a, b, c]) == [TokenOf(a), TokenOf(b), TokenOf(c)];
    assert [m] + KeyParts([TokenOf(a), TokenOf(b), TokenOf(c)])
           == [m, KeyPart(TokenOf(a)), KeyPart(TokenOf(b)), KeyPart(TokenOf(c))];
    Join4(m, KeyPart(TokenOf(a)), KeyPart(TokenOf(b)), KeyPart(TokenOf(c)));
  }

  predicate PlainSegment(s: string) { |s| > 0 && s[0] != ':' && NoSlash(s) }

  /** A route path "/a": one literal token, key "m/a". */
  lemma PlainKey1(m: string, path: string, a: string, key: string)
    requires PlainSegment(a)
    requires path == "/" + a && key == m + "/" + a
    ensures UniqueKey(m, path) == key && Tokenize(path) == [PathToken(a)]
  {
    Key1(m, a);
    PlainPart(a);
  }

  /** A route path "/a/b": two literal tokens, key "m/a/b". */
  lemma PlainKey2(m: string, path: string, a: string, b: string, key: string)
    requires PlainSegment(a) && PlainSegment(b)
    requires path == "/" + a + "/" + b && key == m + "/" + a + "/" + b
    ensures UniqueKey(m, path) == key && Tokenize(path) == [PathToken(a), PathToken(b)]
  {
    Key2(m, a, b);
    PlainPart(a);
    PlainPart(b);
  }

  /** A route path "/a/:n": a literal and a capture, key "m/a/" followed by the capture placeholder. */
  lemma CaptureKey2(m: string, path: string, a: string, n: string, key: string)
    requires PlainSegment(a) && NoSlash(n)
    requires path == "/" + a + "/" + (":" + n) && key == m + "/" + a + "/" + CAPTURE_PLACEHOLDER
    ensures UniqueKey(m, path) == key && Tokenize(path) == [PathToken(a), CaptureToken(n)]
  {
    Key2(m, a, ":" + n);
    PlainPart(a);
    CapturePart(n);
  }

  /** A route path "/a/:n1/:n2": a literal and two captures. */
  lemma CaptureKey3(m: string, path: string, a: string, n1: string, n2: string, key: string)
    requires PlainSegment(a) && NoSlash(n1) && NoSlash(n2)
    requires path == "/" + a + "/" + (":" + n1) + "/" + (":" + n2)
    requires key == m + "/" + a + "/" + CAPTURE_PLACEHOLDER + "/" + CAPTURE_PLACEHOLDER
    ensures UniqueKey(m, path) == key && Tokenize(path) == [PathToken(a), CaptureToken(n1), CaptureToken(n2)]
  {
    Key3(m, a, ":" + n1, ":" + n2);
    PlainPart(a);
    CapturePart(n1);
    CapturePart(n2);
  }

  // The key and tokens of each route `build_routes` registers; `scope` is
  // the path of the router the route is registered on.

  lemma TestPingKey(scope: Option<string>)
    requires scope == Some("/test")
    ensures UniqueKey("GET", PushPath(scope, "/ping")) == "GET/test/ping"
    ensures Tokenize(PushPath(scope, "/ping")) == [PathToken("test"), PathToken("ping")]
  {
    PlainKey2("GET", PushPath(scope, "/ping"), "test", "ping", "GET/test/ping");
  }

  lemma TestPanicKey(scope: Option<string>)
    requires scope == Some("/test")
    ensures UniqueKey("GET", PushPath(scope, "/panic")) == "GET/test/panic"
    ensures Tokenize(PushPath(scope, "/panic")) == [PathToken("test"), PathToken("panic")]
  {
    PlainKey2("GET", PushPath(scope, "/panic"), "test", "panic", "GET/test/panic");
  }

  lemma TestPostKey(scope: Option<string>)
    requires scope == Some("/test")
    ensures UniqueKey("POST", PushPath(scope, "/post")) == "POST/test/post"
    ensures Tokenize(PushPath(scope, "/post")) == [PathToken("test"), PathToken("post")]
  {
    PlainKey2("POST", PushPath(scope, "/post"), "test", "post", "POST/test/post");
  }

  lemma TestFetchKey(scope: Option<string>)
    requires scope == Some("/test")
    ensures UniqueKey("GET", PushPath(scope, "/fetch")) == "GET/test/fetch"
    ensures Tokenize(PushPath(scope, "/fetch")) == [PathToken("test"), PathToken("fetch")]
  {
    PlainKey2("GET", PushPath(scope, "/fetch"), "test", "fetch", "GET/test/fetch");
  }

  lemma PingKey(scope: Option<string>)
    requires scope.None?
    ensures UniqueKey("GET", PushPath(scope, "/ping")) == "GET/ping"
    ensures Tokenize(PushPath(scope, "/ping")) == [PathToken("ping")]
  {
    PlainKey1("GET", PushPath(scope, "/ping"), "ping", "GET/ping");
  }

  lemma HelloKey(scope: Option<string>)
    requires scope.None?
    ensures UniqueKey("GET", PushPath(scope, "/hello/:name")) == "GET/hello/*CAPTURE*"
    ensures Tokenize(PushPath(scope, "/hello/:name")) == [PathToken("hello"), CaptureToken("name")]
  {
    CaptureKey2("GET", PushPath(scope, "/hello/:name"), "hello", "name", "GET/hello/*CAPTURE*");
  }

  lemma CalcKey(scope: Option<string>)
    requires scope.None?
    ensures UniqueKey("GET", PushPath(scope, "/calc/:a/:b")) == "GET/calc/*CAPTURE*/*CAPTURE*"
    ensures Tokenize(PushPath(scope, "/calc/:a/:b")) == [PathToken("calc"), CaptureToken("a"), CaptureToken("b")]
  {
    var path := PushPath(scope, "/calc/:a/:b");
    assert path == "/" + "calc" + "/" + (":" + "a") + "/" + (":" + "b");
    assert "GET/calc/*CAPTURE*/*CAPTURE*" == "GET" + "/" + "calc" + "/" + CAPTURE_PLACEHOLDER + "/" + CAPTURE_PLACEHOLDER;
    CaptureKey3("GET", path, "calc", "a", "b", "GET/calc/*CAPTURE*/*CAPTURE*");
  }

  lemma WsKey(scope: Option<string>)
    requires scope.None?
    ensures UniqueKey("GET", PushPath(scope, "/ws")) == "GET/ws"
    ensures Tokenize(PushPath(scope, "/ws")) == [PathToken("ws")]
  {
    PlainKey1("GET", PushPath(scope, "/ws"), "ws", "GET/ws");
  }

}
