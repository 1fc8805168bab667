/**
 * The request router (sgx/enclave/src/api/handler/router.rs).  A route's
 * path is cut into tokens, literal segments and ":name" captures; its
 * unique key is the method and the segments joined by '/', with every
 * capture written as "*CAPTURE*".  All routes live in one table owned by
 * the top router; scoped routers add a path prefix and their middleware.
 * Lookup walks the table in the hash map's iteration order, which is an
 * input here.
 */
module Router {
  import opened Wrappers
  import opened Bytes

  const CAPTURE_PLACEHOLDER: string := "*CAPTURE*"

  predicate StartsWithSlash(s: string) { |s| > 0 && s[0] == '/' }

  /** `path_into_trimmed_string`: drops one leading '/', if there is one. */
  function TrimLeadingSlash(path: string): (r: string)
    ensures StartsWithSlash(path) ==> "/" + r == path
    ensures !StartsWithSlash(path) ==> r == path
  {
    if StartsWithSlash(path) then path[1..] else path
  }

  /** The parts that are not empty, in order (`filter(|p| !p.is_empty())`). */
  function NonEmpty(parts: seq<string>): (r: seq<string>)
    ensures forall i :: 0 <= i < |r| ==> r[i] != ""
    ensures |r| <= |parts|
  {
    if parts == [] then []
    else (if parts[0] == "" then [] else [parts[0]]) + NonEmpty(parts[1..])
  }

  lemma {:induction false} NonEmptyAppend(a: seq<string>, b: seq<string>)
    ensures NonEmpty(a + b) == NonEmpty(a) + NonEmpty(b)
  {
    if a == [] {
      assert a + b == b;
    } else {
      assert (a + b)[0] == a[0];
      assert (a + b)[1..] == a[1..] + b;
      NonEmptyAppend(a[1..], b);
      var first := if a[0] == "" then [] else [a[0]];
      assert first + (NonEmpty(a[1..]) + NonEmpty(b)) == (first + NonEmpty(a[1..])) + NonEmpty(b);
    }
  }

  lemma {:induction false} NonEmptyKeepsNoSlash(parts: seq<string>)
    requires forall i :: 0 <= i < |parts| ==> NoSlash(parts[i])
    ensures forall i :: 0 <= i < |NonEmpty(parts)| ==> NoSlash(NonEmpty(parts)[i])
  {
    if parts != [] {
      NonEmptyKeepsNoSlash(parts[1..]);
    }
  }

  /** The non-empty '/'-separated segments of a path. */
  function Segments(path: string): seq<string>
  {
    NonEmpty(SplitSlash(path))
  }

  /** Every segment is non-empty and free of '/'. */
  lemma SegmentsAreClean(path: string)
    ensures forall i :: 0 <= i < |Segments(path)| ==> Segments(path)[i] != "" && NoSlash(Segments(path)[i])
  {
    SplitPartsHaveNoSlash(path);
    NonEmptyKeepsNoSlash(SplitSlash(path));
  }

  /** The segments of `a/b` are those of `a` followed by those of `b`. */
  lemma SegmentsAround(a: string, b: string)
    ensures Segments(a + "/" + b) == Segments(a) + Segments(b)
  {
    SplitAround(a, b);
    NonEmptyAppend(SplitSlash(a), SplitSlash(b));
  }

  /** Trimming the leading '/' never changes the segments. */
  lemma SegmentsOfTrimmed(path: string)
    ensures Segments(TrimLeadingSlash(path)) == Segments(path)
  {
    if StartsWithSlash(path) {
      assert path == "" + "/" + path[1..];
      SegmentsAround("", path[1..]);
    }
  }

  datatype Token = PathToken(value: string) | CaptureToken(name: string)

  /** A segment starting with ':' is a capture of the name after it. */
  function TokenOf(segment: string): (t: Token)
    ensures t.CaptureToken? <==> |segment| > 0 && segment[0] == ':'
    ensures t.CaptureToken? ==> [':'] + t.name == segment
    ensures t.PathToken? ==> t.value == segment
  {
    if |segment| > 0 && segment[0] == ':' then CaptureToken(segment[1..]) else PathToken(segment)
  }

  /** A token's part of the unique key. */
  function KeyPart(t: Token): string
  {
    if t.CaptureToken? then CAPTURE_PLACEHOLDER else t.value
  }

  function TokensOf(segments: seq<string>): (tokens: seq<Token>)
    ensures |tokens| == |segments|
    ensures forall i :: 0 <= i < |segments| ==> tokens[i] == TokenOf(segments[i])
  {
    seq(|segments|, i requires 0 <= i < |segments| => TokenOf(segments[i]))
  }

  function KeyParts(tokens: seq<Token>): (parts: seq<string>)
    ensures |parts| == |tokens|
    ensures forall i :: 0 <= i < |tokens| ==> parts[i] == KeyPart(tokens[i])
  {
    seq(|tokens|, i requires 0 <= i < |tokens| => KeyPart(tokens[i]))
  }

  /** The tokens of a route path: one per non-empty segment, in order. */
  function Tokenize(path: string): seq<Token>
  {
    TokensOf(Segments(TrimLeadingSlash(path)))
  }

  /** The table key of a route. */
  function UniqueKey(httpMethod: string, path: string): string
  {
    JoinSlash([httpMethod] + KeyParts(Tokenize(path)))
  }

  lemma TokensOfAppend(segments: seq<string>, s: string)
    ensures TokensOf(segments + [s]) == TokensOf(segments) + [TokenOf(s)]
  {
  }

  lemma KeyPartsAppend(tokens: seq<Token>, t: Token)
    ensures KeyParts(tokens + [t]) == KeyParts(tokens) + [KeyPart(t)]
  {
  }

  /** One more part of the split path adds at most one token, and its key part. */
  lemma ExtractStep(prefix: seq<string>, part: string)
    ensures TokensOf(NonEmpty(prefix + [part]))
            == TokensOf(NonEmpty(prefix)) + (if part == "" then [] else [TokenOf(part)])
  {
    NonEmptyAppend(prefix, [part]);
    assert NonEmpty([part]) == if part == "" then [] else [part];
    if part != "" {
      TokensOfAppend(NonEmpty(prefix), part);
    } else {
      assert NonEmpty(prefix + [part]) == NonEmpty(prefix);
    }
  }

  /**
   * `extract_route_handler_tokens`: the key and the tokens, built segment
   * by segment, skipping empty segments.
   */
  method ExtractRouteHandlerTokens(httpMethod: string, path: string) returns (unique: string, tokens: seq<Token>)
    ensures tokens == Tokenize(path)
    ensures unique == UniqueKey(httpMethod, path)
  {
    var trimmed := TrimLeadingSlash(path);
    var parts := SplitSlash(trimmed);
    tokens := [];
    var keyParts := [httpMethod];
    var i := 0;
    while i < |parts|
      invariant 0 <= i <= |parts|
      invariant tokens == TokensOf(NonEmpty(parts[..i]))
      invariant keyParts == [httpMethod] + KeyParts(tokens)
    {
      var part := parts[i];
      assert parts[..i + 1] == parts[..i] + [part];
      ExtractStep(parts[..i], part);
      if part != "" {
        KeyPartsAppend(tokens, TokenOf(part));
        if part[0] == ':' {
          keyParts := keyParts + [CAPTURE_PLACEHOLDER];
          tokens := tokens + [CaptureToken(part[1..])];
        } else {
          keyParts := keyParts + [part];
          tokens := tokens + [PathToken(part)];
        }
      }
      i := i + 1;
    }
    assert parts[..|parts|] == parts;
    unique := JoinSlash(keyParts);
  }

  /** No part of a key contains '/', given a httpMethod without one. */
  lemma KeyPartsClean(httpMethod: string, path: string)
    requires NoSlash(httpMethod)
    ensures forall i :: 0 <= i < |[httpMethod] + KeyParts(Tokenize(path))| ==> NoSlash(([httpMethod] + KeyParts(Tokenize(path)))[i])
  {
    SegmentsAreClean(TrimLeadingSlash(path));
  }

  /**
   * Two routes share a key exactly when they have the same httpMethod and the
   * same segments with every capture in the same place: capture names do
   * not matter, anything else does.
   */
  lemma SameKeyIffSameShape(m1: string, p1: string, m2: string, p2: string)
    requires NoSlash(m1) && NoSlash(m2)
    ensures UniqueKey(m1, p1) == UniqueKey(m2, p2) <==>
              m1 == m2 && KeyParts(Tokenize(p1)) == KeyParts(Tokenize(p2))
  {
    var k1 := [m1] + KeyParts(Tokenize(p1));
    var k2 := [m2] + KeyParts(Tokenize(p2));
    if UniqueKey(m1, p1) == UniqueKey(m2, p2) {
      KeyPartsClean(m1, p1);
      KeyPartsClean(m2, p2);
      SplitJoin(k1);
      SplitJoin(k2);
      assert k1 == k2;
      assert k1[1..] == KeyParts(Tokenize(p1)) && k2[1..] == KeyParts(Tokenize(p2));
    }
  }

  /**
   * `PathBuf::push`: an absolute path replaces the base; otherwise a
   * separator is added unless the base is empty or already ends in one.
   */
  function PathPush(base: string, rel: string): (r: string)
    ensures StartsWithSlash(rel) ==> r == rel
  {
    if StartsWithSlash(rel) then rel
    else if |base| > 0 && base[|base| - 1] != '/' then base + "/" + rel
    else base + rel
  }

  /**
   * `push_path`: at top level the path is used as given; inside a scope it
   * must start with '/' (`strip_prefix("/").unwrap()`) and is pushed onto
   * the scope's path.
   */
  function PushPath(scope: Option<string>, path: string): (r: string)
    requires scope.Some? ==> StartsWithSlash(path)
    ensures scope.None? ==> r == path
  {
    if scope.None? then path else PathPush(scope.value, path[1..])
  }

  /**
   * A route registered inside a scope has the scope's segments followed by
   * its own (unless its path starts with "//", which `PathBuf` treats as
   * absolute).
   */
  lemma ScopedSegments(prefix: string, path: string)
    requires StartsWithSlash(path) && !StartsWithSlash(path[1..])
    ensures Segments(PushPath(Some(prefix), path)) == Segments(prefix) + Segments(path)
  {
    var rel := path[1..];
    assert path == "" + "/" + rel;
    SegmentsAround("", rel);
    PushSegments(prefix, rel);
  }

  /** Pushing a relative path appends its segments to the base's. */
  lemma PushSegments(base: string, rel: string)
    requires !StartsWithSlash(rel)
    ensures Segments(PathPush(base, rel)) == Segments(base) + Segments(rel)
  {
    if |base| > 0 && base[|base| - 1] != '/' {
      SegmentsAround(base, rel);
    } else if |base| > 0 {
      PushAfterSlash(base, rel);
    } else {
      assert base + rel == rel;
    }
  }

  /** A base ending in '/' is joined to the path without a new separator. */
  lemma PushAfterSlash(base: string, rel: string)
    requires |base| > 0 && base[|base| - 1] == '/'
    ensures Segments(base + rel) == Segments(base) + Segments(rel)
  {
    var front := base[..|base| - 1];
    assert base == front + "/" + "";
    assert base + rel == front + "/" + rel;
    SegmentsAround(front, "");
    SegmentsAround(front, rel);
  }

  /** An entry of the route table. */
  datatype RouteHandler<H, M> = RouteHandler(unique: string, httpMethod: string, tokens: seq<Token>,
                                             handler: H, middleware: seq<M>)

  /** `RouteHandler::new`. */
  method NewRouteHandler<H, M>(httpMethod: string, path: string, handler: H, middleware: seq<M>)
    returns (r: RouteHandler<H, M>)
    ensures r == RouteHandler(UniqueKey(httpMethod, path), httpMethod, Tokenize(path), handler, middleware)
  {
    var unique, tokens := ExtractRouteHandlerTokens(httpMethod, path);
    r := RouteHandler(unique, httpMethod, tokens, handler, middleware);
  }

  /** The segments a request path is matched on. */
  function RequestSegments(path: string): seq<string>
  {
    Segments(TrimLeadingSlash(path))
  }

  /** Literal tokens equal their segments, and the counts agree. */
  predicate TokensMatch(tokens: seq<Token>, segments: seq<string>)
  {
    |tokens| == |segments| &&
    forall i :: 0 <= i < |tokens| ==> (tokens[i].PathToken? ==> tokens[i].value == segments[i])
  }

  predicate RouteMatches<H, M>(route: RouteHandler<H, M>, httpMethod: string, segments: seq<string>)
  {
    route.httpMethod == httpMethod && TokensMatch(route.tokens, segments)
  }

  /**
   * The captures of a match: each capture's name bound to its segment,
   * a later capture of the same name winning.
   */
  function CapturesOf(tokens: seq<Token>, segments: seq<string>): (captures: map<string, string>)
    requires |tokens| == |segments|
    ensures forall name :: name in captures <==> exists i :: 0 <= i < |tokens| && tokens[i] == CaptureToken(name)
    ensures forall name :: name in captures ==>
              exists i :: 0 <= i < |tokens| && tokens[i] == CaptureToken(name) && captures[name] == segments[i]
    decreases |tokens|
  {
    if tokens == [] then map[]
    else
      var n := |tokens| - 1;
      var earlier := CapturesOf(tokens[..n], segments[..n]);
      if tokens[n].CaptureToken? then earlier[tokens[n].name := segments[n]] else earlier
  }

  /**
   * With a capture name used twice, as in "/a/:n/:n", the segment under
   * the last capture of that name is the one kept, since each
   * `HashMap::insert` replaces the one before.
   */
  lemma {:induction false} CapturesOfLastWins(tokens: seq<Token>, segments: seq<string>, i: nat, name: string)
    requires |tokens| == |segments| && i < |tokens| && tokens[i] == CaptureToken(name)
    requires forall j :: i < j < |tokens| ==> tokens[j] != CaptureToken(name)
    ensures name in CapturesOf(tokens, segments) && CapturesOf(tokens, segments)[name] == segments[i]
    decreases |tokens|
  {
    var n := |tokens| - 1;
    if i < n {
      var front, frontSegments := tokens[..n], segments[..n];
      assert front[i] == tokens[i] && frontSegments[i] == segments[i];
      assert forall j :: i < j < n ==> front[j] == tokens[j];
      CapturesOfLastWins(front, frontSegments, i, name);
      assert tokens[n] != CaptureToken(name);
      CapturesOfKeeps(tokens, segments, name);
    } else {
      CapturesOfSetsLast(tokens, segments);
    }
  }

  /** A final capture token binds its name to the final segment. */
  lemma CapturesOfSetsLast(tokens: seq<Token>, segments: seq<string>)
    requires |tokens| == |segments| > 0 && tokens[|tokens| - 1].CaptureToken?
    ensures var name := tokens[|tokens| - 1].name;
            name in CapturesOf(tokens, segments) && CapturesOf(tokens, segments)[name] == segments[|tokens| - 1]
  {
  }

  /** A final token that is not a capture of `name` leaves the segment under `name` as it was. */
  lemma CapturesOfKeeps(tokens: seq<Token>, segments: seq<string>, name: string)
    requires |tokens| == |segments| > 0 && tokens[|tokens| - 1] != CaptureToken(name)
    requires name in CapturesOf(tokens[..|tokens| - 1], segments[..|tokens| - 1])
    ensures name in CapturesOf(tokens, segments)
    ensures CapturesOf(tokens, segments)[name] == CapturesOf(tokens[..|tokens| - 1], segments[..|tokens| - 1])[name]
  {
    var n := |tokens| - 1;
    if tokens[n].CaptureToken? {
      assert tokens[n].name != name;
    }
  }

  /** `order` lists each key of `routes` exactly once. */
  predicate IsIterationOrder<H, M>(order: seq<string>, routes: map<string, RouteHandler<H, M>>)
  {
    && (forall i :: 0 <= i < |order| ==> order[i] in routes)
    && (forall k :: k in routes ==> k in order)
    && (forall i, j :: 0 <= i < j < |order| ==> order[i] != order[j])
  }

  /**
   * The token loop of `Router::find` for one candidate whose token count
   * equals the segment count: a literal that differs from its segment
   * stops the walk; each capture is inserted into `captures`.
   */
  method MatchTokens(tokens: seq<Token>, pathParts: seq<string>, captures0: map<string, string>)
    returns (skipped: bool, captures: map<string, string>)
    requires |tokens| == |pathParts|
    requires captures0 == map[]
    ensures skipped <==> !TokensMatch(tokens, pathParts)
    ensures !skipped ==> captures == CapturesOf(tokens, pathParts)
  {
    captures := captures0;
    skipped := false;
    var curI := 0;
    while curI < |tokens|
      invariant 0 <= curI <= |tokens|
      invariant forall j :: 0 <= j < curI ==> (tokens[j].PathToken? ==> tokens[j].value == pathParts[j])
      invariant captures == CapturesOf(tokens[..curI], pathParts[..curI])
    {
      if curI >= |pathParts| {
        skipped := true;
        break;
      }
      var p := pathParts[curI];
      var token := tokens[curI];
      assert tokens[..curI + 1][..curI] == tokens[..curI];
      assert pathParts[..curI + 1][..curI] == pathParts[..curI];
      match token {
        case PathToken(value) =>
          if value != p {
            skipped := true;
            break;
          }
        case CaptureToken(name) =>
          captures := captures[name := p];
      }
      curI := curI + 1;
    }
    if !skipped {
      assert tokens[..|tokens|] == tokens;
      assert pathParts[..|pathParts|] == pathParts;
    }
  }

  /** The route table the top router owns. */
  class RouteTable<H, M> {
    var routes: map<string, RouteHandler<H, M>>

    /** Every route is filed under its own key. */
    ghost predicate Valid()
      reads this
    {
      forall k :: k in routes ==> routes[k].unique == k
    }

    constructor ()
      ensures routes == map[] && Valid()
    {
      routes := map[];
    }

    /**
     * `add_route_from_top`: a route whose key is already taken panics
     * ("duplicate route detected"); otherwise the table gains exactly that
     * entry.
     */
    method AddRouteFromTop(httpMethod: string, path: string, handler: H, middleware: seq<M>)
      requires Valid()
      requires UniqueKey(httpMethod, path) !in routes
      modifies this
      ensures Valid()
      ensures routes == old(routes)[UniqueKey(httpMethod, path) :=
                RouteHandler(UniqueKey(httpMethod, path), httpMethod, Tokenize(path), handler, middleware)]
    {
      var routeHandler := NewRouteHandler(httpMethod, path, handler, middleware);
      routes := routes[routeHandler.unique := routeHandler];
    }

    /**
     * `Router::find`: the first route in iteration order whose httpMethod is
     * equal, whose token count is the number of request segments, and whose
     * literal tokens equal their segments, with its captures.  Captures
     * gathered for a rejected candidate are cleared.
     */
    method Find(httpMethod: string, path: string, order: seq<string>)
      returns (found: Option<(RouteHandler<H, M>, map<string, string>)>)
      requires IsIterationOrder(order, routes)
      ensures found.Some? ==>
                exists i :: 0 <= i < |order| && found.value.0 == routes[order[i]]
                  && RouteMatches(routes[order[i]], httpMethod, RequestSegments(path))
                  && forall j :: 0 <= j < i ==> !RouteMatches(routes[order[j]], httpMethod, RequestSegments(path))
      ensures found.Some? ==> found.value.1 == CapturesOf(found.value.0.tokens, RequestSegments(path))
      ensures found.None? <==> forall k :: k in routes ==> !RouteMatches(routes[k], httpMethod, RequestSegments(path))
    {
      var trimmed := TrimLeadingSlash(path);
      var pathParts := Segments(trimmed);
      var captures: map<string, string> := map[];
      var i := 0;
      while i < |order|
        invariant 0 <= i <= |order|
        invariant captures == map[]
        invariant forall j :: 0 <= j < i ==> !RouteMatches(routes[order[j]], httpMethod, pathParts)
      {
        var cur := routes[order[i]];
        if cur.httpMethod != httpMethod || |cur.tokens| != |pathParts| {
          i := i + 1;
          continue;
        }
        var skipped;
        skipped, captures := MatchTokens(cur.tokens, pathParts, captures);
        if skipped {
          captures := map[];
          i := i + 1;
          continue;
        }
        return Some((cur, captures));
      }
      forall k | k in routes
        ensures !RouteMatches(routes[k], httpMethod, pathParts)
      {
        var j :| 0 <= j < |order| && order[j] == k;
      }
      return Option.None;
    }
  }

  /**
   * A router: the shared table, the path of its scope and the middleware
   * its routes get.
   */
  class Router<H, M> {
    const top: RouteTable<H, M>
    const path: Option<string>
    var middleware: seq<M>

    /** `Router::new`: a fresh, empty table and no scope. */
    constructor ()
      ensures fresh(top) && top.routes == map[] && top.Valid()
      ensures path.None? && middleware == []
    {
      top := new RouteTable();
      path := Option.None;
      middleware := [];
    }

    constructor Scoped(top: RouteTable<H, M>, path: Option<string>, middleware: seq<M>)
      ensures this.top == top && this.path == path && this.middleware == middleware
    {
      this.top := top;
      this.path := path;
      this.middleware := middleware;
    }

    /**
     * `route`: a router for the sub-scope `p`, sharing the table and
     * starting with a copy of this router's middleware.  The caller then
     * registers the scope's routes on it.
     */
    method Route(p: string) returns (sub: Router<H, M>)
      requires path.Some? ==> StartsWithSlash(p)
      ensures fresh(sub)
      ensures sub.top == top && sub.path == Some(PushPath(path, p)) && sub.middleware == middleware
    {
      sub := new Router.Scoped(top, Some(PushPath(path, p)), middleware);
    }

    /** `require`: later routes of this router run behind `m` as well. */
    method Require(m: M)
      modifies this
      ensures middleware == old(middleware) + [m]
    {
      middleware := middleware + [m];
    }

    /** `handle`: registers `handler` under the pushed path with this router's middleware. */
    method Handle(httpMethod: string, p: string, handler: H)
      requires top.Valid()
      requires path.Some? ==> StartsWithSlash(p)
      requires UniqueKey(httpMethod, PushPath(path, p)) !in top.routes
      modifies top
      ensures top.Valid()
      ensures top.routes == old(top.routes)[UniqueKey(httpMethod, PushPath(path, p)) :=
                RouteHandler(UniqueKey(httpMethod, PushPath(path, p)), httpMethod, Tokenize(PushPath(path, p)), handler, middleware)]
    {
      top.AddRouteFromTop(httpMethod, PushPath(path, p), handler, middleware);
    }

    method Get(p: string, handler: H)
      requires top.Valid()
      requires path.Some? ==> StartsWithSlash(p)
      requires UniqueKey("GET", PushPath(path, p)) !in top.routes
      modifies top
      ensures top.Valid()
      ensures top.routes == old(top.routes)[UniqueKey("GET", PushPath(path, p)) :=
                RouteHandler(UniqueKey("GET", PushPath(path, p)), "GET", Tokenize(PushPath(path, p)), handler, middleware)]
    {
      Handle("GET", p, handler);
    }

    method Put(p: string, handler: H)
      requires top.Valid()
      requires path.Some? ==> StartsWithSlash(p)
      requires UniqueKey("PUT", PushPath(path, p)) !in top.routes
      modifies top
      ensures top.Valid()
      ensures top.routes == old(top.routes)[UniqueKey("PUT", PushPath(path, p)) :=
                RouteHandler(UniqueKey("PUT", PushPath(path, p)), "PUT", Tokenize(PushPath(path, p)), handler, middleware)]
    {
      Handle("PUT", p, handler);
    }

    method Post(p: string, handler: H)
      requires top.Valid()
      requires path.Some? ==> StartsWithSlash(p)
      requires UniqueKey("POST", PushPath(path, p)) !in top.routes
      modifies top
      ensures top.Valid()
      ensures top.routes == old(top.routes)[UniqueKey("POST", PushPath(path, p)) :=
                RouteHandler(UniqueKey("POST", PushPath(path, p)), "POST", Tokenize(PushPath(path, p)), handler, middleware)]
    {
      Handle("POST", p, handler);
    }

    method Delete(p: string, handler: H)
      requires top.Valid()
      requires path.Some? ==> StartsWithSlash(p)
      requires UniqueKey("DELETE", PushPath(path, p)) !in top.routes
      modifies top
      ensures top.Valid()
      ensures top.routes == old(top.routes)[UniqueKey("DELETE", PushPath(path, p)) :=
                RouteHandler(UniqueKey("DELETE", PushPath(path, p)), "DELETE", Tokenize(PushPath(path, p)), handler, middleware)]
    {
      Handle("DELETE", p, handler);
    }

    method Patch(p: string, handler: H)
      requires top.Valid()
      requires path.Some? ==> StartsWithSlash(p)
      requires UniqueKey("PATCH", PushPath(path, p)) !in top.routes
      modifies top
      ensures top.Valid()
      ensures top.routes == old(top.routes)[UniqueKey("PATCH", PushPath(path, p)) :=
                RouteHandler(UniqueKey("PATCH", PushPath(path, p)), "PATCH", Tokenize(PushPath(path, p)), handler, middleware)]
    {
      Handle("PATCH", p, handler);
    }

    method Head(p: string, handler: H)
      requires top.Valid()
      requires path.Some? ==> StartsWithSlash(p)
      requires UniqueKey("HEAD", PushPath(path, p)) !in top.routes
      modifies top
      ensures top.Valid()
      ensures top.routes == old(top.routes)[UniqueKey("HEAD", PushPath(path, p)) :=
                RouteHandler(UniqueKey("HEAD", PushPath(path, p)), "HEAD", Tokenize(PushPath(path, p)), handler, middleware)]
    {
      Handle("HEAD", p, handler);
    }
  }

  /** What `route_request` does: run the matched route, or answer 404. */
  datatype RouteOutcome<H, M> =
    | Routed(route: RouteHandler<H, M>, captures: map<string, string>)
    | NotFound(status: nat, message: string)

  /**
   * `route_request`: looks the request up in the table; with no match the
   * response is a 404 "Not Found" error.  `path` is the target's
   * `uri().path()`, without its query or fragment.
   */
  method RouteRequest<H, M>(table: RouteTable<H, M>, httpMethod: string, path: string, order: seq<string>)
    returns (outcome: RouteOutcome<H, M>)
    requires IsIterationOrder(order, table.routes)
    ensures outcome.NotFound? <==> forall k :: k in table.routes ==> !RouteMatches(table.routes[k], httpMethod, RequestSegments(path))
    ensures outcome.NotFound? ==> outcome.status == 404 && outcome.message == "Not Found"
    ensures outcome.Routed? ==>
              RouteMatches(outcome.route, httpMethod, RequestSegments(path))
              && outcome.captures == CapturesOf(outcome.route.tokens, RequestSegments(path))
  {
    var found := table.Find(httpMethod, path, order);
    match found {
      case Some((handler, captures)) =>
        outcome := Routed(handler, captures);
      case None =>
        outcome := NotFound(404, "Not Found");
    }
  }
}
