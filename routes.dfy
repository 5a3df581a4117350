/**
  Request dispatch of the room service's HTTP surface: the CORS middleware
  that answers every OPTIONS request before routing, the six routes, and the
  404 fallback that lists them.
 */
module Routes {
  /** Which piece of the service answers a request. */
  datatype Endpoint =
    | Preflight
    | JoinRoom
    | QueryRoom
    | RecreateRoom
    | SubmitData
    | QueryData
    | HealthCheck
    | NotFound

  /** A registered route: HTTP method, path, handler and its line in the 404 listing. */
  datatype RouteEntry = RouteEntry(verb: string, path: string, endpoint: Endpoint, description: string)

  const JoinPath := "/api/room/join"
  const QueryRoomPath := "/api/room/query"
  const RecreatePath := "/api/room/recreate"
  const SubmitPath := "/api/data/submit"
  const QueryDataPath := "/api/data/query"
  const HealthPath := "/health"

  /** The routes in registration order. */
  const RouteTable: seq<RouteEntry> := [
    RouteEntry("POST", JoinPath, JoinRoom, "加入房间"),
    RouteEntry("GET", QueryRoomPath, QueryRoom, "查询房间"),
    RouteEntry("POST", RecreatePath, RecreateRoom, "重新创建房间"),
    RouteEntry("POST", SubmitPath, SubmitData, "提交数据"),
    RouteEntry("GET", QueryDataPath, QueryData, "查询数据"),
    RouteEntry("GET", HealthPath, HealthCheck, "健康检查")
  ]

  /** The headers the CORS middleware puts on every response it lets through. */
  const CorsHeaders: seq<(string, string)> := [
    ("Access-Control-Allow-Origin", "*"),
    ("Access-Control-Allow-Methods", "GET, POST, OPTIONS"),
    ("Access-Control-Allow-Headers", "Content-Type")
  ]

  /** One line of the `available` listing: method, path and description. */
  function Listing(e: RouteEntry): string {
    e.verb + " " + e.path + " - " + e.description
  }

  /** The `available` listing of the 404 reply: one line per route, in order. */
  function Available(): (lines: seq<string>)
    ensures lines == [
      "POST /api/room/join - 加入房间",
      "GET /api/room/query - 查询房间",
      "POST /api/room/recreate - 重新创建房间",
      "POST /api/data/submit - 提交数据",
      "GET /api/data/query - 查询数据",
      "GET /health - 健康检查"
    ]
    ensures forall i :: 0 <= i < |RouteTable| ==> lines[i] == Listing(RouteTable[i])
  {
    ListingLines();
    seq(|RouteTable|, i requires 0 <= i < |RouteTable| => Listing(RouteTable[i]))
  }

  /** The listing lines of the six routes, written out. */
  lemma ListingLines()
    ensures Listing(RouteTable[0]) == "POST /api/room/join - 加入房间"
    ensures Listing(RouteTable[1]) == "GET /api/room/query - 查询房间"
    ensures Listing(RouteTable[2]) == "POST /api/room/recreate - 重新创建房间"
    ensures Listing(RouteTable[3]) == "POST /api/data/submit - 提交数据"
    ensures Listing(RouteTable[4]) == "GET /api/data/query - 查询数据"
    ensures Listing(RouteTable[5]) == "GET /health - 健康检查"
  {
    ListingLine0();
    ListingLine1();
    ListingLine2();
    ListingLine3();
    ListingLine4();
    ListingLine5();
  }

  lemma ListingLine0()
    ensures Listing(RouteTable[0]) == "POST /api/room/join - 加入房间"
  {
    var e := RouteEntry("POST", JoinPath, JoinRoom, "加入房间");
    assert RouteTable[0] == e;
    assert e.verb + " " + e.path == "POST /api/room/join";
  }

  lemma ListingLine1()
    ensures Listing(RouteTable[1]) == "GET /api/room/query - 查询房间"
  {
    var e := RouteEntry("GET", QueryRoomPath, QueryRoom, "查询房间");
    assert RouteTable[1] == e;
    assert e.verb + " " + e.path == "GET /api/room/query";
  }

  lemma ListingLine2()
    ensures Listing(RouteTable[2]) == "POST /api/room/recreate - 重新创建房间"
  {
    var e := RouteEntry("POST", RecreatePath, RecreateRoom, "重新创建房间");
    assert RouteTable[2] == e;
    assert e.verb + " " + e.path == "POST /api/room/recreate";
  }

  lemma ListingLine3()
    ensures Listing(RouteTable[3]) == "POST /api/data/submit - 提交数据"
  {
    var e := RouteEntry("POST", SubmitPath, SubmitData, "提交数据");
    assert RouteTable[3] == e;
    assert e.verb + " " + e.path == "POST /api/data/submit";
  }

  lemma ListingLine4()
    ensures Listing(RouteTable[4]) == "GET /api/data/query - 查询数据"
  {
    var e := RouteEntry("GET", QueryDataPath, QueryData, "查询数据");
    assert RouteTable[4] == e;
    assert e.verb + " " + e.path == "GET /api/data/query";
  }

  lemma ListingLine5()
    ensures Listing(RouteTable[5]) == "GET /health - 健康检查"
  {
    var e := RouteEntry("GET", HealthPath, HealthCheck, "健康检查");
    assert RouteTable[5] == e;
    assert e.verb + " " + e.path == "GET /health";
  }

  function LowerChar(c: char): char {
    if 'A' <= c <= 'Z' then (c as int + 32) as char else c
  }

  /** ASCII lower-casing; the route paths are lower-case ASCII. */
  function Lower(s: string): (r: string)
    ensures |r| == |s|
    ensures forall i :: 0 <= i < |s| ==> r[i] == LowerChar(s[i])
  {
    if s == [] then [] else [LowerChar(s[0])] + Lower(s[1..])
  }

  /**
    Route paths match without regard to ASCII letter case and with one
    optional trailing slash (the router's default, non-strict matching).
   */
  predicate PathMatches(path: string, routePath: string) {
    && (|path| == |routePath| || (|path| == |routePath| + 1 && path[|routePath|] == '/'))
    && forall i :: 0 <= i < |routePath| ==> LowerChar(path[i]) == routePath[i]
  }

  /** A GET route also answers HEAD requests. */
  predicate VerbMatches(verb: string, routeVerb: string) {
    verb == routeVerb || (routeVerb == "GET" && verb == "HEAD")
  }

  predicate Matches(verb: string, path: string, routeVerb: string, routePath: string) {
    VerbMatches(verb, routeVerb) && PathMatches(path, routePath)
  }

  /**
    Which endpoint answers `verb path` (the path without its query string):
    OPTIONS is answered before routing, then the routes are tried in
    registration order, then the 404 fallback.
   */
  function Route(verb: string, path: string): Endpoint {
    if verb == "OPTIONS" then Preflight
    else if Matches(verb, path, "POST", JoinPath) then JoinRoom
    else if Matches(verb, path, "GET", QueryRoomPath) then QueryRoom
    else if Matches(verb, path, "POST", RecreatePath) then RecreateRoom
    else if Matches(verb, path, "POST", SubmitPath) then SubmitData
    else if Matches(verb, path, "GET", QueryDataPath) then QueryData
    else if Matches(verb, path, "GET", HealthPath) then HealthCheck
    else NotFound
  }

  /** Every OPTIONS request is answered by the preflight, whatever its path. */
  lemma OptionsAlwaysPreflight(path: string)
    ensures Route("OPTIONS", path) == Preflight
  {
  }

  /** Each registered route, requested as registered, reaches its own handler. */
  lemma RegisteredRoutesReachHandlers(i: nat)
    requires i < |RouteTable|
    ensures Route(RouteTable[i].verb, RouteTable[i].path) == RouteTable[i].endpoint
  {
    if i == 0 { JoinRouted(); }
    else if i == 1 { QueryRoomRouted(); }
    else if i == 2 { RecreateRouted(); }
    else if i == 3 { SubmitRouted(); }
    else if i == 4 { QueryDataRouted(); }
    else { HealthRouted(); }
  }

  lemma JoinRouted() ensures Route("POST", JoinPath) == JoinRoom { }

  lemma QueryRoomRouted() ensures Route("GET", QueryRoomPath) == QueryRoom { }

  lemma RecreateRouted() ensures Route("POST", RecreatePath) == RecreateRoom { }

  lemma SubmitRouted() ensures Route("POST", SubmitPath) == SubmitData { }

  lemma QueryDataRouted() ensures Route("GET", QueryDataPath) == QueryData {
    assert QueryDataPath[5] != QueryRoomPath[5];
  }

  lemma HealthRouted() ensures Route("GET", HealthPath) == HealthCheck { }

  /** The 404 fallback answers exactly the non-OPTIONS requests that no route matches. */
  lemma NotFoundIffNoRoute(verb: string, path: string)
    ensures Route(verb, path) == NotFound <==>
      verb != "OPTIONS" &&
      forall i :: 0 <= i < |RouteTable| ==> !Matches(verb, path, RouteTable[i].verb, RouteTable[i].path)
  {
    var t := RouteTable;
    assert t[0].verb == "POST" && t[0].path == JoinPath;
    assert t[1].verb == "GET" && t[1].path == QueryRoomPath;
    assert t[2].verb == "POST" && t[2].path == RecreatePath;
    assert t[3].verb == "POST" && t[3].path == SubmitPath;
    assert t[4].verb == "GET" && t[4].path == QueryDataPath;
    assert t[5].verb == "GET" && t[5].path == HealthPath;
  }

  /** Letter case in the path never changes where a request goes. */
  lemma RouteIgnoresCase(verb: string, path: string)
    ensures Route(verb, Lower(path)) == Route(verb, path)
  {
    forall rp: string ensures PathMatches(Lower(path), rp) == PathMatches(path, rp) {
      if |path| == |rp| + 1 {
        assert Lower(path)[|rp|] == '/' <==> path[|rp|] == '/';
      }
    }
  }

}

/**
  Where `startRoomService` ends up listening: the configured port, or, when
  that port is taken, one retry on the next port and no more.
 */
module Listen {
  import opened Wrappers

  /** What one attempt to listen on a port reports. */
  datatype ListenOutcome = Listening | AddressInUse | OtherError

  /** Where a start ends. */
  datatype ListenResult =
    | BoundTo(port: nat)  // the handle kept in `server` listens on `port`
    | HandleUnbound       // the first attempt failed otherwise: the error is logged, the handle is kept
    | UnhandledError      // the retry failed: its handle has no 'error' listener, so the error escapes

  /**
    The outcome of a start, given what an attempt on each port would report:
    only `AddressInUse` triggers the single retry on `port + 1`.
   */
  function StartListening(port: nat, attempt: nat -> ListenOutcome): ListenResult {
    match attempt(port)
    case Listening => BoundTo(port)
    case OtherError => HandleUnbound
    case AddressInUse =>
      if attempt(port + 1) == Listening then BoundTo(port + 1) else UnhandledError
  }

  /**
    At most one fallback is tried, and only after the address was in use; a
    failed fallback is not handled, and any other first failure leaves the
    handle in place without a port.
   */
  lemma AtMostOneFallback(port: nat, attempt: nat -> ListenOutcome)
    ensures StartListening(port, attempt) == BoundTo(port) <==> attempt(port) == Listening
    ensures StartListening(port, attempt) == BoundTo(port + 1) <==>
      attempt(port) == AddressInUse && attempt(port + 1) == Listening
    ensures StartListening(port, attempt).BoundTo? ==>
      StartListening(port, attempt).port == port || StartListening(port, attempt).port == port + 1
    ensures StartListening(port, attempt) == UnhandledError <==>
      attempt(port) == AddressInUse && attempt(port + 1) != Listening
    ensures StartListening(port, attempt) == HandleUnbound <==> attempt(port) == OtherError
  {
  }

}
