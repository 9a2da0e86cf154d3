/** The request logic of `unifiedServer` in lib/server.js: the path with
    its slashes trimmed, the lower-cased method, the router lookup with its
    `notFound` fallback, and the defaults applied to whatever a handler
    calls back with. URL parsing, body buffering, `JSON.parse` and the
    response write are outside; the handler receives the parse result,
    `None` when parsing failed. */
module Server {
  import opened JsValues
  import opened JsStrings
  import opened DataStore
  import opened Http
  import Config
  import Helpers
  import Handlers

  // ---- the path ----

  /** `path.replace(/^\/+|\/+$/g, '')` */
  function TrimPath(path: string): (r: string)
    ensures r != [] ==> r[0] != '/' && r[|r| - 1] != '/'
    ensures var a := LeadEnd(path, IsSlash, 0);
      && a + |r| <= |path| && r == path[a..a + |r|]
      && (forall i :: 0 <= i < a ==> path[i] == '/')
      && (forall i :: a + |r| <= i < |path| ==> path[i] == '/')
  {
    Strip(path, IsSlash)
  }

  /** Trimming a trimmed path changes nothing. */
  lemma TrimPathIdempotent(path: string)
    ensures TrimPath(TrimPath(path)) == TrimPath(path)
  {
    StripIdempotent(path, IsSlash);
  }

  /** A path with no slash at either end is its own trimmed form, interior
      slashes included. */
  lemma TrimPathKeepsInterior(path: string)
    requires path != [] ==> path[0] != '/' && path[|path| - 1] != '/'
    ensures TrimPath(path) == path
  {
    StripUnchanged(path, IsSlash);
  }

  /** Slashes added at either end of a trimmed path are removed again. */
  lemma TrimPathDropsAddedSlashes(path: string, lead: nat, trail: nat)
    requires path != [] && path[0] != '/' && path[|path| - 1] != '/'
    ensures TrimPath(Slashes(lead) + path + Slashes(trail)) == path
  {
    var s := Slashes(lead) + path + Slashes(trail);
    PaddedLeadEnd(path, lead, trail);
    PaddedTrailStart(path, lead, trail);
    assert s[lead..lead + |path|] == path;
  }

  lemma PaddedLeadEnd(path: string, lead: nat, trail: nat)
    requires path != [] && path[0] != '/'
    ensures LeadEnd(Slashes(lead) + path + Slashes(trail), IsSlash, 0) == lead
  {
    var s := Slashes(lead) + path + Slashes(trail);
    assert forall k :: 0 <= k < lead ==> s[k] == Slashes(lead)[k];
    assert s[lead] == path[0];
    LeadEndIs(s, IsSlash, 0, lead);
  }

  lemma PaddedTrailStart(path: string, lead: nat, trail: nat)
    requires path != [] && path[|path| - 1] != '/'
    ensures var s := Slashes(lead) + path + Slashes(trail);
      TrailStart(s, IsSlash, lead, |s|) == lead + |path|
  {
    var s := Slashes(lead) + path + Slashes(trail);
    var b := lead + |path|;
    assert forall k :: b <= k < |s| ==> s[k] == Slashes(trail)[k - b];
    assert s[b - 1] == path[|path| - 1];
    TrailStartIs(s, IsSlash, lead, |s|, b);
  }

  function Slashes(n: nat): (r: string)
    ensures |r| == n && forall i :: 0 <= i < n ==> r[i] == '/'
  {
    if n == 0 then "" else "/" + Slashes(n - 1)
  }

  /** `req.method.toLowerCase()` */
  function LowerMethod(m: string): (r: string)
    ensures |r| == |m|
    ensures forall i :: 0 <= i < |r| ==> !('A' <= r[i] <= 'Z')
  {
    ToLowerAscii(m)
  }

  /** Every spelling of an accepted method reaches its handler. */
  lemma MethodCaseIgnored(m: string)
    requires LowerMethod(m) in ["post", "get", "put", "delete"]
    ensures Handlers.Acceptable(LowerMethod(m))
  {
  }

  // ---- the router ----

  datatype Route = PingRoute | UsersRoute | TokensRoute | ChecksRoute | NotFoundRoute

  /** `router[trimmedPath] || handlers.notFound`, on the router's own keys. */
  function Lookup(trimmedPath: string): (r: Route)
    ensures r == PingRoute <==> trimmedPath == "ping"
    ensures r == UsersRoute <==> trimmedPath == "users"
    ensures r == TokensRoute <==> trimmedPath == "tokens"
    ensures r == ChecksRoute <==> trimmedPath == "checks"
  {
    match trimmedPath
    case "ping" => PingRoute
    case "users" => UsersRoute
    case "tokens" => TokensRoute
    case "checks" => ChecksRoute
    case _ => NotFoundRoute
  }

  /** What the lookup `router[trimmedPath]` finds as written: the router is
      an object literal, so a path naming an `Object.prototype` member
      finds that member, which is truthy and wins over `notFound`. */
  datatype Found = Handler(route: Route) | Inherited(name: string)

  function LookupAsWritten(trimmedPath: string): (r: Found)
    ensures r.Handler? ==> r.route == Lookup(trimmedPath)
  {
    if trimmedPath in Config.PrototypeMembers then Inherited(trimmedPath)
    else Handler(Lookup(trimmedPath))
  }

  /** `GET /constructor` (with any slashes around it) does not reach
      `notFound`: the lookup finds `Object`, which never calls back, so no
      response is sent. */
  lemma ConstructorPathMissesNotFound(lead: nat, trail: nat)
    ensures LookupAsWritten(TrimPath(Slashes(lead) + "constructor" + Slashes(trail)))
            == Inherited("constructor")
  {
    TrimPathDropsAddedSlashes("constructor", lead, trail);
  }

  /** `GET /__proto__` finds `Object.prototype`, which is not callable. */
  lemma ProtoPathMissesNotFound(lead: nat, trail: nat)
    ensures LookupAsWritten(TrimPath(Slashes(lead) + "__proto__" + Slashes(trail)))
            == Inherited("__proto__")
  {
    TrimPathDropsAddedSlashes("__proto__", lead, trail);
  }

  /** Off the prototype members the lookup as written and the corrected one
      agree. */
  lemma LookupAgreesOffPrototype(trimmedPath: string)
    requires trimmedPath !in Config.PrototypeMembers
    ensures LookupAsWritten(trimmedPath) == Handler(Lookup(trimmedPath))
  {
  }

  // ---- the paths test/api.js requests ----

  /** `/ping` reaches the ping handler. */
  lemma PingPathIsPing()
    ensures Lookup(TrimPath("/ping")) == PingRoute
  {
    assert Slashes(1) + "ping" + Slashes(0) == "/ping";
    TrimPathDropsAddedSlashes("ping", 1, 0);
  }

  /** `/api/users` is not a route: the router's keys carry no `api/`
      prefix, so the request reaches `notFound`. */
  lemma ApiUsersPathIsNotFound()
    ensures Lookup(TrimPath("/api/users")) == NotFoundRoute
  {
    assert Slashes(1) + "api/users" + Slashes(0) == "/api/users";
    TrimPathDropsAddedSlashes("api/users", 1, 0);
  }

  /** A path of two or more segments, such as `/this/path/shouldnt/exist`,
      is never a route: every route name is a single segment. */
  lemma SegmentedPathIsNotFound(first: string, rest: string)
    requires first != [] && first[0] != '/' && rest != [] && rest[|rest| - 1] != '/'
    ensures Lookup(TrimPath("/" + first + "/" + rest)) == NotFoundRoute
  {
    var p := first + "/" + rest;
    assert Slashes(1) + p + Slashes(0) == "/" + first + "/" + rest;
    TrimPathDropsAddedSlashes(p, 1, 0);
    assert p[|first|] == '/';
    SlashedIsNotARoute(p);
  }

  lemma SlashedIsNotARoute(p: string)
    requires '/' in p
    ensures Lookup(p) == NotFoundRoute
  {
    assert '/' !in "ping" && '/' !in "users" && '/' !in "tokens" && '/' !in "checks";
  }

  // ---- the defaults ----

  /** `typeof statusCode === 'number' ? statusCode : 200` */
  function DefaultStatus(statusCode: Value): (r: real)
    ensures statusCode.Num? ==> r == statusCode.n
    ensures !statusCode.Num? ==> r == 200.0
  {
    if statusCode.Num? then statusCode.n else 200.0
  }

  /** `typeof payload === 'object' && payload !== null ? payload : {}` */
  function DefaultPayload(payload: Value): (r: Value)
    ensures r.Obj? || r.Arr?
    ensures payload.Obj? || payload.Arr? ==> r == payload
    ensures !(payload.Obj? || payload.Arr?) ==> r == Obj(map[])
  {
    if payload.Obj? || payload.Arr? then payload else Obj(map[])
  }

  lemma DefaultPayloadIdempotent(payload: Value)
    ensures DefaultPayload(DefaultPayload(payload)) == DefaultPayload(payload)
  {
  }

  /** The status and body `unifiedServer` writes. */
  datatype Response = Response(status: real, payload: Value)

  function Respond(reply: Reply): (r: Response)
    ensures r.payload.Obj? || r.payload.Arr?
  {
    Response(DefaultStatus(reply.status), DefaultPayload(reply.payload))
  }

  /** The `data` object `unifiedServer` builds for the handler. */
  function RequestOf(pathname: string, query: map<string, string>, rawMethod: string,
                     headers: map<string, string>, parsed: Option<Value>): Request {
    Request(TrimPath(pathname), query, LowerMethod(rawMethod), headers, Helpers.ParseJsonToObject(parsed))
  }

  /** The handler the router chose for `data`, and what it did: ping and
      notFound answer without touching the store, and an API path is
      dispatched on its method. */
  ghost predicate Served(before: map<Key, Record>, after: map<Key, Record>, cfg: Config.Environment,
                         hmac: (string, string) -> string, resolves: (string, string) -> bool, now: int,
                         data: Request, reply: Reply) {
    match Lookup(data.trimmedPath)
    case PingRoute => reply == Handlers.Ping(data) && after == before
    case UsersRoute => Handlers.UsersOutcome(before, after, cfg, hmac, data, now, reply)
    case TokensRoute => Handlers.TokensOutcome(before, after, cfg, hmac, data, now, reply)
    case ChecksRoute => Handlers.ChecksOutcome(before, after, cfg, data, now, resolves, reply)
    case NotFoundRoute => reply == Handlers.NotFound(data) && after == before
  }

  /** `unifiedServer` from the parsed URL to the response. */
  method UnifiedServer(db: Store, cfg: Config.Environment, hmac: (string, string) -> string,
                       resolves: (string, string) -> bool, now: int,
                       pathname: string, query: map<string, string>, rawMethod: string,
                       headers: map<string, string>, parsed: Option<Value>)
    returns (response: Response)
    modifies db
    ensures Lookup(TrimPath(pathname)) == NotFoundRoute ==>
      response == Response(404.0, Obj(map[])) && db.records == old(db.records)
    ensures Lookup(TrimPath(pathname)) == PingRoute ==>
      response == Response(200.0, Obj(map[])) && db.records == old(db.records)
    ensures Lookup(TrimPath(pathname)) != NotFoundRoute && Lookup(TrimPath(pathname)) != PingRoute
            && !Handlers.Acceptable(LowerMethod(rawMethod)) ==>
      response == Response(405.0, Obj(map[])) && db.records == old(db.records)
    ensures response.payload.Obj? || response.payload.Arr?
    ensures exists reply ::
      && response == Respond(reply)
      && Served(old(db.records), db.records, cfg, hmac, resolves, now,
                RequestOf(pathname, query, rawMethod, headers, parsed), reply)
  {
    var data := RequestOf(pathname, query, rawMethod, headers, parsed);
    var reply := Dispatch(db, cfg, hmac, resolves, now, data);
    ServedPlainReplies(old(db.records), db.records, cfg, hmac, resolves, now, data, reply);
    response := Respond(reply);
  }

  /** The replies no handler body decides: notFound, ping, and a method
      an API route does not accept. */
  lemma ServedPlainReplies(before: map<Key, Record>, after: map<Key, Record>, cfg: Config.Environment,
                           hmac: (string, string) -> string, resolves: (string, string) -> bool, now: int,
                           data: Request, reply: Reply)
    requires Served(before, after, cfg, hmac, resolves, now, data, reply)
    ensures Lookup(data.trimmedPath) == NotFoundRoute ==> reply == StatusOnly(404) && after == before
    ensures Lookup(data.trimmedPath) == PingRoute ==> reply == StatusOnly(200) && after == before
    ensures Lookup(data.trimmedPath) != NotFoundRoute && Lookup(data.trimmedPath) != PingRoute
            && !Handlers.Acceptable(data.httpMethod) ==>
      reply == StatusOnly(405) && after == before
  {
  }

  /** `chosenHandler(data, callback)`: the handler the router picked. */
  method Dispatch(db: Store, cfg: Config.Environment, hmac: (string, string) -> string,
                  resolves: (string, string) -> bool, now: int, data: Request) returns (reply: Reply)
    modifies db
    ensures Served(old(db.records), db.records, cfg, hmac, resolves, now, data, reply)
  {
    match Lookup(data.trimmedPath) {
      case PingRoute => reply := Handlers.Ping(data);
      case UsersRoute => reply := Handlers.Users(db, cfg, hmac, data, now);
      case TokensRoute => reply := Handlers.Tokens(db, cfg, hmac, data, now);
      case ChecksRoute => reply := Handlers.Checks(db, cfg, data, now, resolves);
      case NotFoundRoute => reply := Handlers.NotFound(data);
    }
  }
}
