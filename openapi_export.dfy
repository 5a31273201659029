/**
 * The route-to-OpenAPI projection of api/internal/handler/data_loader/route_export.go:
 * a list of routes becomes an OpenAPI 3.0.0 document whose Paths object
 * (section 4.7.8 of the OpenAPI Specification 3.0.0) maps path keys to Path
 * Item objects (section 4.7.9) holding one Operation object (section 4.7.10)
 * per HTTP method, with the gateway's own attributes as `x-apisix-*`
 * specification extensions (section 4.8).
 */
module OpenApiExport {
  import opened Wrappers
  import opened Strings
  import opened Entity
  import opened Errors
  import opened External
  import opened Enumerations

  const OpenApiVersion := "3.0.0"
  const Title := "RoutesExport"
  /** The infix that marks a path key made unique by the route's counter value. */
  const RepeatMarker := "-APISIX-REPEAT-URI-"

  const RequestValidation := "request-validation"
  const KeyAuth := "key-auth"
  const BasicAuth := "basic-auth"
  const JwtAuth := "jwt-auth"

  /* ---------------------------------------------------------------- document shapes */

  datatype HttpMethod = GET | POST | PUT | DELETE | PATCH | HEAD | CONNECT | TRACE | OPTIONS {
    /** The `net/http` constant for the method. */
    function Name(): string {
      match this
      case GET => "GET"
      case POST => "POST"
      case PUT => "PUT"
      case DELETE => "DELETE"
      case PATCH => "PATCH"
      case HEAD => "HEAD"
      case CONNECT => "CONNECT"
      case TRACE => "TRACE"
      case OPTIONS => "OPTIONS"
    }
  }

  /** `_allHTTPMethods`, used when a route lists no methods. */
  const AllHttpMethods: seq<string> := MethodNames(AllMethods)

  /** The nine methods in the order of `_allHTTPMethods`. */
  const AllMethods: seq<HttpMethod> := [GET, POST, PUT, DELETE, PATCH, HEAD, CONNECT, TRACE, OPTIONS]

  /** The `net/http` constants of `ms`, in order. */
  function MethodNames(ms: seq<HttpMethod>): (names: seq<string>)
    ensures |names| == |ms| && forall i :: 0 <= i < |ms| ==> names[i] == ms[i].Name()
  {
    if ms == [] then [] else [ms[0].Name()] + MethodNames(ms[1..])
  }

  /** A Parameter object; `schemaType` is the `type` of its schema, `None` when it has none. */
  datatype Parameter = Parameter(location: string, name: string, required: bool, description: string, schemaType: Option<string>)

  /** The parameter every wildcard URI adds. */
  const WildcardParam := Parameter("path", "params", true, "params in path", Some("string"))

  /**
   * A Security Scheme object: `CsrfScheme` and `JwtScheme` stand for the values of
   * `openapi3.NewCSRFSecurityScheme()` and `openapi3.NewJWTSecurityScheme()`.
   */
  datatype SecurityScheme = CsrfScheme | JwtScheme | NamedScheme(schemeType: string, name: string, location: string)

  /** A Security Requirement object: scheme name to scopes. */
  type SecurityRequirement = map<string, seq<string>>

  /** `NoResponses` is an unset field; `DefaultResponses` stands for `openapi3.NewResponses()`. */
  datatype Responses = NoResponses | DefaultResponses

  /** What `ParseRouteUpstream` returns: nothing, an inline definition, or a stored upstream. */
  datatype ResolvedUpstream = NoUpstream | InlineUpstream(def: UpstreamDef) | StoredUpstream(upstream: Upstream)

  /** The value of one specification extension. */
  datatype ExtValue =
    | XUpstream(up: ResolvedUpstream)
    | XString(s: string)
    | XStrings(ss: seq<string>)
    | XLabels(labels: Labels)
    | XJson(j: Json)
    | XJsonList(js: seq<Json>)
    | XPlugins(plugins: PluginMap)
    | XInt(i: int)
    | XBool(b: bool)
    | XId(id: Id)

  /** The `x-apisix-*` specification extensions a route's operation can carry. */
  datatype ExtensionName =
    | UpstreamExt | HostExt | HostsExt | LabelsExt | RemoteAddrExt | RemoteAddrsExt | FilterFuncExt
    | ScriptExt | ServiceProtocolExt | VarsExt | IdExt | PluginsExt | PriorityExt | StatusExt | EnableWebsocketExt
  {
    /** The key the extension is written under. */
    function Name(): string {
      match this
      case UpstreamExt => "x-apisix-upstream"
      case HostExt => "x-apisix-host"
      case HostsExt => "x-apisix-hosts"
      case LabelsExt => "x-apisix-labels"
      case RemoteAddrExt => "x-apisix-remote_addr"
      case RemoteAddrsExt => "x-apisix-remote_addrs"
      case FilterFuncExt => "x-apisix-filter_func"
      case ScriptExt => "x-apisix-script"
      case ServiceProtocolExt => "x-apisix-service_protocol"
      case VarsExt => "x-apisix-vars"
      case IdExt => "x-apisix-id"
      case PluginsExt => "x-apisix-plugins"
      case PriorityExt => "x-apisix-priority"
      case StatusExt => "x-apisix-status"
      case EnableWebsocketExt => "x-apisix-enable_websocket"
    }
  }

  /**
   * An Operation object. Its `requestBody` is left out here: every operation of
   * one call points at the same request body object, which the document
   * carries once as `sharedRequestBody`.
   */
  datatype Operation = Operation(
    extensions: map<ExtensionName, ExtValue>,
    tags: seq<string>,
    summary: string,
    description: string,
    operationId: string,
    parameters: seq<Parameter>,
    responses: Responses,
    deprecated: bool,
    security: Option<seq<SecurityRequirement>>)

  datatype PathItem = PathItem(operations: map<HttpMethod, Operation>)

  /** A Request Body object: content type to schema, `None` while nothing was set. */
  datatype RequestBody = RequestBody(content: Option<map<string, Json>>)

  datatype DocInfo = DocInfo(title: string, version: string)

  datatype Document = Document(
    openapi: string,
    info: DocInfo,
    paths: map<string, PathItem>,
    securitySchemes: map<string, SecurityScheme>,
    sharedRequestBody: RequestBody)

  /* ---------------------------------------------------------------- upstream resolution */

  /** Dereferences an upstream identifier; a missing one is the `IDNotFound` error for kind "upstream". */
  function LookupUpstream(id: Id, upstreams: Store<Upstream>, toString: Id -> string): (r: Result<ResolvedUpstream>)
    ensures r.Ok? <==> toString(id) in upstreams
    ensures r.Ok? ==> r.value == StoredUpstream(upstreams[toString(id)])
    ensures r.Err? ==> r.error == IdNotFound("upstream", id)
  {
    var key := toString(id);
    if key in upstreams then Ok(StoredUpstream(upstreams[key])) else Err(IdNotFound("upstream", id))
  }

  /**
   * `ParseRouteUpstream`. `service` is the service the caller looked up for
   * this route (the package-level `service` variable of the source).
   */
  function ParseRouteUpstream(route: Route, service: Option<Service>, upstreams: Store<Upstream>, toString: Id -> string): (r: Result<ResolvedUpstream>)
    requires route.upstream.None? && route.upstreamId == NoId && route.serviceId != NoId ==> service.Some?
    ensures route.upstream.Some? ==> r == Ok(InlineUpstream(route.upstream.value))
    ensures route.upstream.None? && route.upstreamId != NoId ==> r == LookupUpstream(route.upstreamId, upstreams, toString)
    ensures route.upstream.None? && route.upstreamId == NoId && route.serviceId == NoId ==> r == Ok(NoUpstream)
  {
    if route.upstream.Some? then Ok(InlineUpstream(route.upstream.value))
    else if route.upstreamId != NoId then LookupUpstream(route.upstreamId, upstreams, toString)
    else if route.serviceId != NoId then
      var svc := service.value;
      if svc.upstream.Some? then Ok(InlineUpstream(svc.upstream.value))
      else if svc.upstreamId != NoId then LookupUpstream(svc.upstreamId, upstreams, toString)
      else Ok(NoUpstream)
    else Ok(NoUpstream)
  }

  /** The two-step rule of one entity: its inline upstream first, then its upstream reference. */
  function OwnUpstream(inline: Option<UpstreamDef>, ref: Id, upstreams: Store<Upstream>, toString: Id -> string): (r: Result<ResolvedUpstream>)
    ensures inline.Some? ==> r == Ok(InlineUpstream(inline.value))
    ensures inline.None? && ref == NoId ==> r == Ok(NoUpstream)
  {
    if inline.Some? then Ok(InlineUpstream(inline.value))
    else if ref != NoId then LookupUpstream(ref, upstreams, toString)
    else Ok(NoUpstream)
  }

  /**
   * Resolution is first match over route then service: a route that has either
   * upstream form is resolved by the two-step rule on the route alone; one that
   * has neither but names a service, by the same rule on the service.
   */
  lemma {:induction false} ResolutionIsTwoStepPrecedence(route: Route, service: Option<Service>, upstreams: Store<Upstream>, toString: Id -> string)
    requires route.upstream.None? && route.upstreamId == NoId && route.serviceId != NoId ==> service.Some?
    ensures ParseRouteUpstream(route, service, upstreams, toString) ==
      if route.upstream.Some? || route.upstreamId != NoId then OwnUpstream(route.upstream, route.upstreamId, upstreams, toString)
      else if route.serviceId != NoId then OwnUpstream(service.value.upstream, service.value.upstreamId, upstreams, toString)
      else Ok(NoUpstream)
  {
    if route.upstream.None? && route.upstreamId == NoId && route.serviceId != NoId {
      var svc := service.value;
      if svc.upstream.None? && svc.upstreamId != NoId {
        assert OwnUpstream(svc.upstream, svc.upstreamId, upstreams, toString) == LookupUpstream(svc.upstreamId, upstreams, toString);
      }
    }
  }

  /** An inline route upstream is returned without looking at the store at all. */
  lemma InlineUpstreamIgnoresStore(route: Route, service: Option<Service>, s1: Store<Upstream>, s2: Store<Upstream>, toString: Id -> string)
    requires route.upstream.Some?
    ensures ParseRouteUpstream(route, service, s1, toString) == ParseRouteUpstream(route, service, s2, toString)
  {
  }

  /* ---------------------------------------------------------------- labels and methods */

  /** `ParseLabels`: the route's labels, else the service's when the route names one, else nil. */
  function ParseLabels(route: Route, serviceLabels: Option<Labels>): (r: Option<Labels>)
    ensures route.labels.Some? ==> r == route.labels
    ensures route.labels.None? && route.serviceId != NoId ==> r == serviceLabels
    ensures route.labels.None? && route.serviceId == NoId ==> r == None
  {
    if route.labels.Some? then route.labels
    else if route.serviceId != NoId then serviceLabels
    else None
  }

  /** The case-insensitive match of one `switch strings.ToUpper(m)` arm; `None` for an unknown method. */
  function MethodNamed(s: string): (r: Option<HttpMethod>)
    ensures r.Some? ==> r.value.Name() == ToUpper(s)
    ensures r.None? ==> forall m: HttpMethod :: m.Name() != ToUpper(s)
  {
    MethodOfUpper(ToUpper(s))
  }

  /** The arms of the switch, on the upper-cased name. */
  function MethodOfUpper(u: string): (r: Option<HttpMethod>)
    ensures r.Some? ==> r.value.Name() == u
    ensures r.None? ==> forall m: HttpMethod :: m.Name() != u
  {
    if u == "GET" then Some(GET)
    else if u == "POST" then Some(POST)
    else if u == "PUT" then Some(PUT)
    else if u == "DELETE" then Some(DELETE)
    else if u == "PATCH" then Some(PATCH)
    else if u == "HEAD" then Some(HEAD)
    else if u == "CONNECT" then Some(CONNECT)
    else if u == "TRACE" then Some(TRACE)
    else if u == "OPTIONS" then Some(OPTIONS)
    else None
  }

  /** The method list a route generates operations for: its own if non-empty, else all nine. */
  function RouteMethods(route: Route): seq<string>
  {
    if |route.methods| > 0 then route.methods else AllHttpMethods
  }

  /** The path item slots a route fills. */
  function MethodSet(route: Route): set<HttpMethod>
  {
    set s | s in RouteMethods(route) && MethodNamed(s).Some? :: MethodNamed(s).value
  }

  /** Each method's own name selects its slot. */
  lemma MethodNameSelectsItself(m: HttpMethod)
    ensures MethodNamed(m.Name()) == Some(m)
  {
    UpperFixed(m.Name());
    assert MethodOfUpper(m.Name()) == Some(m);
  }

  lemma InMethodSet(route: Route, s: string)
    requires s in RouteMethods(route) && MethodNamed(s).Some?
    ensures MethodNamed(s).value in MethodSet(route)
  {
  }

  /** A route with no methods gets all nine slots. */
  lemma {:induction false} NoMethodsMeansAllNine(route: Route)
    requires route.methods == []
    ensures forall m: HttpMethod :: m in MethodSet(route)
  {
    forall m: HttpMethod ensures m in MethodSet(route) {
      var s := m.Name();
      MethodNameSelectsItself(m);
      assert s in AllHttpMethods by {
        var i := match m case GET => 0 case POST => 1 case PUT => 2 case DELETE => 3 case PATCH => 4
                         case HEAD => 5 case CONNECT => 6 case TRACE => 7 case OPTIONS => 8;
        assert AllMethods[i] == m && AllHttpMethods[i] == s;
      }
      InMethodSet(route, s);
    }
  }

  /** Lower- and mixed-case method names select the same slot as the upper-case name. */
  lemma MethodMatchIgnoresCase(s: string)
    ensures MethodNamed(s) == MethodNamed(ToUpper(s))
  {
    ToUpperIdempotent(s);
  }

  /** A non-ASCII spelling Go upper-cases into a method name selects it: `poſt` is POST. */
  lemma LongSSpellingSelectsPost()
    ensures MethodNamed("po\U{017F}t") == Some(POST)
  {
    assert ToUpper("po\U{017F}t") == "POST";
  }

  /** Likewise `optıons`, with a dotless `ı`, is OPTIONS. */
  lemma DotlessISpellingSelectsOptions()
    ensures MethodNamed("opt\U{0131}ons") == Some(OPTIONS)
  {
    assert ToUpper("opt\U{0131}ons") == "OPTIONS";
  }

  /**
   * `ParsePathItem`: the operation for one method is the route's operation
   * with the method's name appended to the operation identifier; every other
   * field is shared.
   */
  function ParsePathItem(op: Operation, methodName: string): (r: Operation)
    ensures r.operationId == op.operationId + methodName
    ensures r.(operationId := op.operationId) == op
  {
    op.(operationId := op.operationId + methodName)
  }

  /* ---------------------------------------------------------------- path keys */

  /** `GetPathNumber`: a closure over a counter, modelled as the counter object. */
  class PathCounter {
    var count: nat

    constructor ()
      ensures count == 0
    {
      count := 0;
    }

    /** Each call yields the next number: 1, 2, 3, ... */
    method Next() returns (n: nat)
      modifies this
      ensures n == old(count) + 1 && count == n
    {
      count := count + 1;
      n := count;
    }
  }

  /** The URIs a route is published under: `uris` when non-nil, else `uri` when non-empty. */
  function RouteUris(route: Route): (r: seq<string>)
    ensures route.uris.Some? ==> r == route.uris.value
    ensures route.uris.None? && route.uri != "" ==> r == [route.uri]
    ensures route.uris.None? && route.uri == "" ==> r == []
  {
    if route.uris.Some? then route.uris.value else if route.uri != "" then [route.uri] else []
  }

  /** The path key of a URI: a wildcard URI is cut at its first `*` and ends in `{params}`. */
  function PathKey(uri: string): (k: string)
    ensures '*' in uri ==> k == BeforeFirst(uri, '*') + "{params}"
    ensures '*' !in uri ==> k == uri
  {
    if '*' in uri then BeforeFirst(uri, '*') + "{params}" else uri
  }

  function RepeatKey(key: string, n: nat): string
  {
    key + RepeatMarker + Itoa(n)
  }

  /** One insertion into `paths`: a fresh key gets the item, an existing one its repeat key with the route's number. */
  function InsertPath(paths: map<string, nat>, key: string, handle: nat, n: nat): (r: map<string, nat>)
    ensures key !in paths ==> r == paths[key := handle]
    ensures key in paths ==> r == paths[RepeatKey(key, n) := handle]
  {
    if key !in paths then paths[key := handle] else paths[RepeatKey(key, n) := handle]
  }

  /**
   * The effect of `ParseRouteUris` on `paths`; a key maps to a handle that
   * names the route whose path item it is (the source stores one reference per route).
   */
  function InsertUris(paths: map<string, nat>, uris: seq<string>, handle: nat, n: nat): map<string, nat>
  {
    if uris == [] then paths
    else InsertPath(InsertUris(paths, uris[..|uris| - 1], handle, n), PathKey(uris[|uris| - 1]), handle, n)
  }

  /** The parameters `ParseRouteUris` appends: one wildcard parameter per URI containing `*`. */
  function WildcardParams(uris: seq<string>): (ps: seq<Parameter>)
    ensures |ps| <= |uris|
    ensures forall i :: 0 <= i < |ps| ==> ps[i] == WildcardParam
  {
    if uris == [] then []
    else WildcardParams(uris[..|uris| - 1]) + (if '*' in uris[|uris| - 1] then [WildcardParam] else [])
  }

  /** Exactly one wildcard parameter per wildcard URI, none for the others. */
  lemma {:induction false} WildcardParamsCount(uris: seq<string>)
    ensures (forall i :: 0 <= i < |uris| ==> '*' in uris[i]) ==> |WildcardParams(uris)| == |uris|
    ensures (forall i :: 0 <= i < |uris| ==> '*' !in uris[i]) ==> WildcardParams(uris) == []
  {
    if uris != [] {
      var init := uris[..|uris| - 1];
      assert forall i :: 0 <= i < |init| ==> init[i] == uris[i];
      WildcardParamsCount(init);
    }
  }

  /** After the insertions every URI's key is present. */
  lemma {:induction false} InsertUrisAddsEveryKey(paths: map<string, nat>, uris: seq<string>, handle: nat, n: nat)
    ensures forall i :: 0 <= i < |uris| ==> PathKey(uris[i]) in InsertUris(paths, uris, handle, n)
  {
    if uris != [] {
      var init := uris[..|uris| - 1];
      InsertUrisAddsEveryKey(paths, init, handle, n);
      forall i | 0 <= i < |uris| - 1 ensures PathKey(uris[i]) in InsertUris(paths, uris, handle, n) {
        assert init[i] == uris[i];
      }
    }
  }

  /** Only the URIs' keys or their repeat keys are added. */
  lemma {:induction false} InsertUrisAddsOnlyTheirKeys(paths: map<string, nat>, uris: seq<string>, handle: nat, n: nat, k: string)
    requires k in InsertUris(paths, uris, handle, n) && k !in paths
    ensures exists i :: 0 <= i < |uris| && (k == PathKey(uris[i]) || k == RepeatKey(PathKey(uris[i]), n))
  {
    var init := uris[..|uris| - 1];
    var last := |uris| - 1;
    if k in InsertUris(paths, init, handle, n) {
      InsertUrisAddsOnlyTheirKeys(paths, init, handle, n, k);
      var i :| 0 <= i < |init| && (k == PathKey(init[i]) || k == RepeatKey(PathKey(init[i]), n));
      assert init[i] == uris[i];
    } else {
      assert k == PathKey(uris[last]) || k == RepeatKey(PathKey(uris[last]), n);
    }
  }

  /** Each key holds the new handle or the value it had. */
  lemma {:induction false} InsertUrisValues(paths: map<string, nat>, uris: seq<string>, handle: nat, n: nat)
    ensures forall k :: k in InsertUris(paths, uris, handle, n) ==>
      InsertUris(paths, uris, handle, n)[k] == handle || (k in paths && InsertUris(paths, uris, handle, n)[k] == paths[k])
  {
    if uris != [] {
      InsertUrisValues(paths, uris[..|uris| - 1], handle, n);
    }
  }

  /**
   * A key already present is never reassigned, unless it is exactly the repeat
   * key that a colliding URI of this route produces with the route's number.
   */
  lemma {:induction false} InsertUrisKeepsExistingKeys(paths: map<string, nat>, uris: seq<string>, handle: nat, n: nat, k: string)
    requires k in paths
    requires forall i :: 0 <= i < |uris| ==> k != RepeatKey(PathKey(uris[i]), n)
    ensures k in InsertUris(paths, uris, handle, n) && InsertUris(paths, uris, handle, n)[k] == paths[k]
  {
    if uris != [] {
      var init := uris[..|uris| - 1];
      assert forall i :: 0 <= i < |init| ==> init[i] == uris[i];
      InsertUrisKeepsExistingKeys(paths, init, handle, n, k);
    }
  }

  /** The handles of the whole call: route `i` (0-based) inserts with handle `i` and number `i + 1`. */
  function PathHandles(routes: seq<Route>): map<string, nat>
  {
    if routes == [] then map[]
    else
      var init := routes[..|routes| - 1];
      InsertUris(PathHandles(init), RouteUris(routes[|routes| - 1]), |routes| - 1, |routes|)
  }

  /** Every handle names one of the routes. */
  lemma {:induction false} PathHandlesBounded(routes: seq<Route>)
    ensures forall k :: k in PathHandles(routes) ==> PathHandles(routes)[k] < |routes|
  {
    if routes != [] {
      var init := routes[..|routes| - 1];
      PathHandlesBounded(init);
      InsertUrisValues(PathHandles(init), RouteUris(routes[|routes| - 1]), |routes| - 1, |routes|);
    }
  }

  lemma InsertSingleUri(paths: map<string, nat>, uri: string, handle: nat, n: nat)
    ensures InsertUris(paths, [uri], handle, n) == InsertPath(paths, PathKey(uri), handle, n)
  {
    assert [uri][..0] == [];
  }

  lemma PathHandlesOfTwo(r1: Route, r2: Route)
    ensures PathHandles([r1]) == InsertUris(map[], RouteUris(r1), 0, 1)
    ensures PathHandles([r1, r2]) == InsertUris(PathHandles([r1]), RouteUris(r2), 1, 2)
  {
    assert [r1, r2][..1] == [r1] && [r1][..0] == [];
  }

  /**
   * Two routes published under the same URI get two distinct keys, the second
   * one the repeat key with number 2; neither overwrites the other.
   */
  lemma {:induction false} TwoRoutesSameUriGetTwoKeys(r1: Route, r2: Route, uri: string)
    requires RouteUris(r1) == [uri] && RouteUris(r2) == [uri]
    ensures PathHandles([r1, r2]) == map[PathKey(uri) := 0, RepeatKey(PathKey(uri), 2) := 1]
    ensures PathKey(uri) != RepeatKey(PathKey(uri), 2)
  {
    PathHandlesOfTwo(r1, r2);
    InsertSingleUri(map[], uri, 0, 1);
    InsertSingleUri(map[PathKey(uri) := 0], uri, 1, 2);
    assert |RepeatKey(PathKey(uri), 2)| > |PathKey(uri)|;
  }

  /**
   * The repeat key is written without checking it: when an earlier route
   * published the literal repeat key of a URI, a later route colliding on
   * that URI reassigns it, and the earlier route's path item loses that key.
   */
  lemma {:induction false} RepeatKeyCanReassignEarlierKey(r1: Route, r2: Route, uri: string)
    requires '*' !in uri
    requires RouteUris(r1) == [uri, RepeatKey(uri, 2)] && RouteUris(r2) == [uri]
    ensures RepeatKey(uri, 2) in PathHandles([r1]) && PathHandles([r1])[RepeatKey(uri, 2)] == 0
    ensures RepeatKey(uri, 2) in PathHandles([r1, r2]) && PathHandles([r1, r2])[RepeatKey(uri, 2)] == 1
  {
    var lit := RepeatKey(uri, 2);
    assert '*' !in lit by {
      assert lit == uri + RepeatMarker + Itoa(2);
      assert '*' !in RepeatMarker;
    }
    assert |lit| > |uri|;
    var u := [uri, lit];
    assert u[..1] == [uri];
    InsertSingleUri(map[], uri, 0, 1);
    PathHandlesOfTwo(r1, r2);
    assert PathHandles([r1]) == map[uri := 0][lit := 0];
    InsertSingleUri(PathHandles([r1]), uri, 1, 2);
  }

  /** The loop's effect on `paths` after one more URI. */
  lemma InsertUrisSnoc(paths: map<string, nat>, uris: seq<string>, i: nat, handle: nat, n: nat)
    requires i < |uris|
    ensures InsertUris(paths, uris[..i + 1], handle, n) == InsertPath(InsertUris(paths, uris[..i], handle, n), PathKey(uris[i]), handle, n)
  {
    assert uris[..i + 1][..i] == uris[..i] && uris[..i + 1][i] == uris[i];
  }

  /** The loop's effect on the parameters after one more URI. */
  lemma WildcardParamsSnoc(params: seq<Parameter>, uris: seq<string>, i: nat)
    requires i < |uris|
    ensures params + WildcardParams(uris[..i + 1]) == (params + WildcardParams(uris[..i])) + (if '*' in uris[i] then [WildcardParam] else [])
  {
    assert uris[..i + 1][..i] == uris[..i] && uris[..i + 1][i] == uris[i];
  }

  /** One more wildcard URI in the loop of `ParseRouteUris`: its cut key is inserted and one parameter appended. */
  lemma WildcardUriStep(paths: map<string, nat>, params: seq<Parameter>, uris: seq<string>, i: nat, handle: nat, n: nat)
    requires i < |uris| && '*' in uris[i]
    ensures var key, before := BeforeFirst(uris[i], '*') + "{params}", InsertUris(paths, uris[..i], handle, n);
      && (key !in before ==> InsertUris(paths, uris[..i + 1], handle, n) == before[key := handle])
      && (key in before ==> InsertUris(paths, uris[..i + 1], handle, n) == before[key + RepeatMarker + Itoa(n) := handle])
    ensures params + WildcardParams(uris[..i + 1]) == (params + WildcardParams(uris[..i])) + [WildcardParam]
  {
    InsertUrisSnoc(paths, uris, i, handle, n);
    WildcardParamsSnoc(params, uris, i);
  }

  /** One more plain URI in the loop of `ParseRouteUris`: the URI itself is inserted and no parameter appended. */
  lemma PlainUriStep(paths: map<string, nat>, params: seq<Parameter>, uris: seq<string>, i: nat, handle: nat, n: nat)
    requires i < |uris| && '*' !in uris[i]
    ensures var before := InsertUris(paths, uris[..i], handle, n);
      && (uris[i] !in before ==> InsertUris(paths, uris[..i + 1], handle, n) == before[uris[i] := handle])
      && (uris[i] in before ==> InsertUris(paths, uris[..i + 1], handle, n) == before[uris[i] + RepeatMarker + Itoa(n) := handle])
    ensures params + WildcardParams(uris[..i + 1]) == params + WildcardParams(uris[..i])
  {
    InsertUrisSnoc(paths, uris, i, handle, n);
    WildcardParamsSnoc(params, uris, i);
  }

  /**
   * `ParseRouteUris`: inserts the route's path keys into `paths` and appends
   * one wildcard parameter per wildcard URI to the shared parameter list.
   */
  method ParseRouteUris(route: Route, paths: map<string, nat>, params: seq<Parameter>, handle: nat, pathNumber: nat)
    returns (paths': map<string, nat>, params': seq<Parameter>)
    ensures paths' == InsertUris(paths, RouteUris(route), handle, pathNumber)
    ensures params' == params + WildcardParams(RouteUris(route))
  {
    var uris: seq<string> := [];
    if route.uri != "" {
      uris := uris + [route.uri];
    }
    if route.uris.Some? {
      uris := route.uris.value;
    }
    assert uris == RouteUris(route);
    paths', params' := paths, params;
    for i := 0 to |uris|
      invariant paths' == InsertUris(paths, uris[..i], handle, pathNumber)
      invariant params' == params + WildcardParams(uris[..i])
    {
      var uri := uris[i];
      if '*' in uri {
        var key := BeforeFirst(uri, '*') + "{params}";
        WildcardUriStep(paths, params, uris, i, handle, pathNumber);
        if key !in paths' {
          paths' := paths'[key := handle];
        } else {
          paths' := paths'[key + RepeatMarker + Itoa(pathNumber) := handle];
        }
        params' := params' + [WildcardParam];
      } else {
        PlainUriStep(paths, params, uris, i, handle, pathNumber);
        if uri !in paths' {
          paths' := paths'[uri := handle];
        } else {
          paths' := paths'[uri + RepeatMarker + Itoa(pathNumber) := handle];
        }
      }
    }
    assert uris[..|uris|] == uris;
  }

  /* ---------------------------------------------------------------- plugins */

  predicate IsAuthKey(k: string)
  {
    k == KeyAuth || k == BasicAuth || k == JwtAuth
  }

  /** Plugin keys that the route loop never copies into the generic plugin map. */
  predicate IsClassified(k: string)
  {
    k == RequestValidation || IsAuthKey(k)
  }

  /** The fixed scheme name each authentication plugin registers. */
  function SchemeNameOf(k: string): string
    requires IsAuthKey(k)
  {
    if k == KeyAuth then "api_key" else if k == BasicAuth then "basicAuth" else "bearerAuth"
  }

  function SchemeOf(k: string): SecurityScheme
    requires IsAuthKey(k)
  {
    if k == KeyAuth then CsrfScheme
    else if k == BasicAuth then NamedScheme("basicAuth", "basicAuth", "header")
    else JwtScheme
  }

  /** The requirement `securityEnv.Authenticate(name, " ")` builds. */
  function RequirementOf(k: string): SecurityRequirement
    requires IsAuthKey(k)
  {
    map[SchemeNameOf(k) := [" "]]
  }

  /** The schemes registered for the authentication plugins among `keys`. */
  function AuthSchemes(keys: set<string>): (r: map<string, SecurityScheme>)
    ensures r.Keys <= {"api_key", "basicAuth", "bearerAuth"}
    ensures ("api_key" in r) == (KeyAuth in keys) && ("basicAuth" in r) == (BasicAuth in keys) && ("bearerAuth" in r) == (JwtAuth in keys)
  {
    (if KeyAuth in keys then map["api_key" := CsrfScheme] else map[])
    + (if BasicAuth in keys then map["basicAuth" := NamedScheme("basicAuth", "basicAuth", "header")] else map[])
    + (if JwtAuth in keys then map["bearerAuth" := JwtScheme] else map[])
  }

  /** The requirements appended for the authentication plugins among `keys`, one each, in any order. */
  function Requirements(keys: set<string>): (r: multiset<SecurityRequirement>)
    ensures |r| <= 3
  {
    RequirementsOf(KeyAuth in keys, BasicAuth in keys, JwtAuth in keys)
  }

  /** A requirement is present exactly for each authentication plugin among `keys`, and no other is. */
  lemma RequirementsMeaning(keys: set<string>)
    ensures (RequirementOf(KeyAuth) in Requirements(keys)) == (KeyAuth in keys)
    ensures (RequirementOf(BasicAuth) in Requirements(keys)) == (BasicAuth in keys)
    ensures (RequirementOf(JwtAuth) in Requirements(keys)) == (JwtAuth in keys)
    ensures forall q :: q in Requirements(keys) ==> q == RequirementOf(KeyAuth) || q == RequirementOf(BasicAuth) || q == RequirementOf(JwtAuth)
  {
    RequirementsDistinct();
    OneOfThreeMembers(RequirementOf(KeyAuth), RequirementOf(BasicAuth), RequirementOf(JwtAuth), KeyAuth in keys, BasicAuth in keys, JwtAuth in keys);
  }

  /** The three authentication plugins require three different schemes. */
  lemma RequirementsDistinct()
    ensures RequirementOf(KeyAuth) != RequirementOf(BasicAuth) && RequirementOf(KeyAuth) != RequirementOf(JwtAuth)
    ensures RequirementOf(BasicAuth) != RequirementOf(JwtAuth)
  {
    AuthKeysDistinct();
    assert "api_key" in RequirementOf(KeyAuth) && "basicAuth" in RequirementOf(BasicAuth) && "bearerAuth" in RequirementOf(JwtAuth);
    assert "api_key" !in RequirementOf(BasicAuth) && "api_key" !in RequirementOf(JwtAuth) && "basicAuth" !in RequirementOf(JwtAuth);
  }

  /** The requirements of `key-auth`, `basic-auth` and `jwt-auth`, for those present. */
  function RequirementsOf(withKey: bool, withBasic: bool, withJwt: bool): multiset<SecurityRequirement>
  {
    OneOfThree(RequirementOf(KeyAuth), RequirementOf(BasicAuth), RequirementOf(JwtAuth), withKey, withBasic, withJwt)
  }

  /** Of three distinct values, each is present exactly when its flag is set, and nothing else is. */
  lemma OneOfThreeMembers<T>(x: T, y: T, z: T, a: bool, b: bool, c: bool)
    requires x != y && x != z && y != z
    ensures (x in OneOfThree(x, y, z, a, b, c)) == a && (y in OneOfThree(x, y, z, a, b, c)) == b
    ensures (z in OneOfThree(x, y, z, a, b, c)) == c
    ensures forall q :: q in OneOfThree(x, y, z, a, b, c) ==> q == x || q == y || q == z
  {
  }

  /** `x`, `y` and `z`, each when its flag is set. */
  function OneOfThree<T>(x: T, y: T, z: T, a: bool, b: bool, c: bool): (r: multiset<T>)
    ensures |r| <= 3
  {
    (if a then multiset{x} else multiset{}) + (if b then multiset{y} else multiset{}) + (if c then multiset{z} else multiset{})
  }

  /** The plugins among `keys` that the route loop copies unchanged: every key but the four classified ones. */
  function FilteredOf(p: PluginMap, keys: set<string>): (r: PluginMap)
    ensures forall k :: k in r <==> k in p && k in keys && !IsClassified(k)
    ensures forall k :: k in r ==> r[k] == p[k]
  {
    map k | k in p && k in keys && !IsClassified(k) :: p[k]
  }

  function FilteredPlugins(p: PluginMap): (r: PluginMap)
    ensures forall k :: k in r <==> k in p && !IsClassified(k)
    ensures forall k :: k in r ==> r[k] == p[k]
  {
    FilteredOf(p, p.Keys)
  }

  /** The fields of `entity.RequestValidation` the code reads. */
  datatype RequestValidationSchema = RequestValidationSchema(required: seq<string>, properties: Json)

  /**
   * Whether `encoding/json` stores object key `key` into the struct field
   * tagged `name`, a word of lower-case ASCII letters: the key is the tag or
   * the tag spelt in any case, where `ſ` (U+017F) also stands for `s` and the
   * Kelvin sign (U+212A) for `k`.
   */
  predicate FoldsTo(key: string, name: string)
  {
    |key| == |name| && forall i :: 0 <= i < |key| ==> FoldsCharTo(key[i], name[i])
  }

  predicate FoldsCharTo(c: char, n: char)
  {
    c == n || c as int == n as int - 32 || (n == 's' && c == '\U{017F}') || (n == 'k' && c == '\U{212A}')
  }

  /** The keys of an object that decode into the field tagged `name`. */
  function KeysFor(fields: map<string, Json>, name: string): set<string>
  {
    set k | k in fields && FoldsTo(k, name)
  }

  /** The `[]string` an array decodes to: entries that are not strings read as "". */
  function StringsOf(items: seq<Json>): (r: seq<string>)
    ensures |r| == |items|
    ensures forall i :: 0 <= i < |items| ==> r[i] == (if items[i].JStr? then items[i].s else "")
  {
    seq(|items|, i requires 0 <= i < |items| => if items[i].JStr? then items[i].s else "")
  }

  /**
   * Decoding `header_schema` into `entity.RequestValidation`, after
   * `json.Marshal` has written its keys in `sort.Strings` order. A non-object
   * leaves the zero value. Every key that folds to a field's tag is decoded
   * into that field in turn, so the last one in key order wins: any value for
   * `properties` (a missing one is nil), an array or null for `required`,
   * whose other values are type errors that leave the field as it was.
   */
  function DecodeRequestValidation(j: Json): RequestValidationSchema
  {
    if !j.JObj? then RequestValidationSchema([], JNull)
    else
      var rk := set k | k in j.fields && FoldsTo(k, "required") && (j.fields[k].JArr? || j.fields[k].JNull?);
      var required := if rk == {} then [] else
        var v := j.fields[Greatest(rk)];
        if v.JArr? then StringsOf(v.items) else [];
      var pk := KeysFor(j.fields, "properties");
      var properties := if pk == {} then JNull else j.fields[Greatest(pk)];
      RequestValidationSchema(required, properties)
  }

  /**
   * When every key is spelt as its tag, the decoding reads exactly the
   * `required` and `properties` keys.
   */
  lemma DecodeTagSpelt(j: Json)
    requires j.JObj?
    requires forall k :: k in j.fields && FoldsTo(k, "properties") ==> k == "properties"
    requires forall k :: k in j.fields && FoldsTo(k, "required") ==> k == "required"
    ensures DecodeRequestValidation(j).properties == (if "properties" in j.fields then j.fields["properties"] else JNull)
    ensures DecodeRequestValidation(j).required ==
      (if "required" in j.fields && j.fields["required"].JArr? then StringsOf(j.fields["required"].items) else [])
  {
    assert FoldsTo("properties", "properties");
    assert FoldsTo("required", "required");
    var pk := KeysFor(j.fields, "properties");
    assert pk == if "properties" in j.fields then {"properties"} else {};
    var rk := set k | k in j.fields && FoldsTo(k, "required") && (j.fields[k].JArr? || j.fields[k].JNull?);
    assert rk == if "required" in j.fields && (j.fields["required"].JArr? || j.fields["required"].JNull?) then {"required"} else {};
  }

  /** A key spelt in another case is decoded too: `{"Properties": p}` gives `p`. */
  lemma CapitalisedPropertiesDecoded(p: Json)
    ensures DecodeRequestValidation(JObj(map["Properties" := p])).properties == p
  {
    var fields := map["Properties" := p];
    assert FoldsTo("Properties", "properties");
    assert KeysFor(fields, "properties") == {"Properties"};
  }

  /**
   * Of two keys that fold to `properties`, the later in key order wins:
   * with both `Properties` and `properties`, the value of `properties`.
   */
  lemma LaterPropertiesKeyWins(p: Json, q: Json)
    ensures DecodeRequestValidation(JObj(map["Properties" := p, "properties" := q])).properties == q
  {
    var fields := map["Properties" := p, "properties" := q];
    assert FoldsTo("Properties", "properties");
    assert FoldsTo("properties", "properties");
    assert KeysFor(fields, "properties") == {"Properties", "properties"};
    assert Less("Properties", "properties");
  }

  /** A header property the loop can read: an object whose `type` is a string. */
  predicate WellTypedProperty(v: Json)
  {
    v.JObj? && "type" in v.fields && v.fields["type"].JStr?
  }

  function PropertyType(v: Json): string
    requires WellTypedProperty(v)
  {
    v.fields["type"].s
  }

  const HeaderSchemaPanic := "request-validation header_schema: interface conversion"

  /** The one parameter object a route's header properties share, once its location is set. */
  const HeaderParam := Parameter("header", "", false, "", None)

  /** When the `request-validation` value makes the header loop panic. */
  predicate HeaderSchemaPanics(v: Json)
  {
    && v.JObj? && "header_schema" in v.fields
    && var rv := DecodeRequestValidation(v.fields["header_schema"]);
       (!rv.properties.JObj? || exists k :: k in rv.properties.fields && !WellTypedProperty(rv.properties.fields[k]))
  }

  /** The property names the header loop ranges over. */
  function HeaderProperties(v: Json): set<string>
  {
    if v.JObj? && "header_schema" in v.fields then
      var rv := DecodeRequestValidation(v.fields["header_schema"]);
      if rv.properties.JObj? then rv.properties.fields.Keys else {}
    else {}
  }

  /** The shared request body after a `request-validation` value: its `body_schema` under the any-media-type key, if present. */
  function NextRequestBody(rb: RequestBody, v: Json): (r: RequestBody)
    ensures v.JObj? && "body_schema" in v.fields ==> r.content == Some(map["*/*" := v.fields["body_schema"]])
    ensures !(v.JObj? && "body_schema" in v.fields) ==> r == rb
  {
    if v.JObj? && "body_schema" in v.fields then RequestBody(Some(map["*/*" := v.fields["body_schema"]])) else rb
  }

  /** `n` references to one parameter. */
  function Copies(p: Parameter, n: nat): (r: seq<Parameter>)
    ensures |r| == n
    ensures forall i :: 0 <= i < n ==> r[i] == p
  {
    if n == 0 then [] else Copies(p, n - 1) + [p]
  }

  /* ---------------------------------------------------------------- the header loop */

  /** One pass of the header loop over property `key`: it names the shared parameter before reading the property's type. */
  function HeaderStep(param: Parameter, key: string, props: map<string, Json>, required: seq<string>): Result<Parameter>
    requires key in props
  {
    var named := (if key in required then param.(required := true) else param).(name := key);
    if WellTypedProperty(props[key]) then Ok(named.(schemaType := Some(PropertyType(props[key]))))
    else Err(Panic(HeaderSchemaPanic))
  }

  /** The shared parameter after the header loop has visited the properties in `order`. */
  function HeaderFold(props: map<string, Json>, order: seq<string>, required: seq<string>, param: Parameter): Result<Parameter>
    requires forall i :: 0 <= i < |order| ==> order[i] in props
  {
    if order == [] then Ok(param)
    else
      match HeaderFold(props, order[..|order| - 1], required, param)
      case Err(e) => Err(e)
      case Ok(p) => HeaderStep(p, order[|order| - 1], props, required)
  }

  /** What the header loop appends: one reference to the shared parameter per property. */
  function HeaderParams(props: map<string, Json>, order: seq<string>, required: seq<string>, param: Parameter): Result<seq<Parameter>>
    requires forall i :: 0 <= i < |order| ==> order[i] in props
  {
    match HeaderFold(props, order, required, param)
    case Err(e) => Err(e)
    case Ok(p) => Ok(Copies(p, |order|))
  }

  /** The loop fails exactly when some visited property is ill-typed, with the conversion panic. */
  lemma {:induction false} HeaderFoldFails(props: map<string, Json>, order: seq<string>, required: seq<string>, param: Parameter)
    requires forall i :: 0 <= i < |order| ==> order[i] in props
    ensures HeaderFold(props, order, required, param).Err? <==> exists i :: 0 <= i < |order| && !WellTypedProperty(props[order[i]])
    ensures HeaderFold(props, order, required, param).Err? ==> HeaderFold(props, order, required, param).error == Panic(HeaderSchemaPanic)
  {
    if order != [] {
      var n := |order| - 1;
      var init := order[..n];
      HeaderFoldFails(props, init, required, param);
      if HeaderFold(props, init, required, param).Err? {
        var i :| 0 <= i < |init| && !WellTypedProperty(props[init[i]]);
        assert order[i] == init[i];
      }
    }
  }

  /** On success the shared parameter keeps its location and description, is required when a visited property is, and is named and typed by the last one. */
  lemma {:induction false} HeaderFoldValue(props: map<string, Json>, order: seq<string>, required: seq<string>, param: Parameter)
    requires forall i :: 0 <= i < |order| ==> order[i] in props
    requires HeaderFold(props, order, required, param).Ok?
    ensures var p := HeaderFold(props, order, required, param).value;
      && p.location == param.location && p.description == param.description
      && (p.required <==> param.required || exists i :: 0 <= i < |order| && order[i] in required)
      && (order == [] ==> p == param)
      && (order != [] ==> p.name == order[|order| - 1] && WellTypedProperty(props[p.name]) && p.schemaType == Some(PropertyType(props[p.name])))
  {
    if order != [] {
      var n := |order| - 1;
      var init := order[..n];
      HeaderFoldValue(props, init, required, param);
      var p := HeaderFold(props, order, required, param).value;
      if p.required && !param.required && !(order[n] in required) {
        var i :| 0 <= i < |init| && init[i] in required;
        assert order[i] in required;
      }
      if exists i :: 0 <= i < |order| && order[i] in required {
        var i :| 0 <= i < |order| && order[i] in required;
        if i < n {
          assert init[i] in required;
        }
      }
    }
  }

  /** A failure of the loop is final: the properties visited after it do not matter. */
  lemma {:induction false} HeaderFoldErrExtends(props: map<string, Json>, a: seq<string>, b: seq<string>, required: seq<string>, param: Parameter)
    requires forall i :: 0 <= i < |a| ==> a[i] in props
    requires forall i :: 0 <= i < |b| ==> b[i] in props
    requires HeaderFold(props, a, required, param).Err?
    ensures forall i :: 0 <= i < |a + b| ==> (a + b)[i] in props
    ensures HeaderFold(props, a + b, required, param) == HeaderFold(props, a, required, param)
  {
    assert forall i :: 0 <= i < |a + b| ==> (a + b)[i] in props by {
      forall i | 0 <= i < |a + b| ensures (a + b)[i] in props {
        if i < |a| {
          assert (a + b)[i] == a[i];
        } else {
          assert (a + b)[i] == b[i - |a|];
        }
      }
    }
    if b != [] {
      var init := b[..|b| - 1];
      HeaderFoldErrExtends(props, a, init, required, param);
      assert (a + b)[..|a + b| - 1] == a + init;
    } else {
      assert a + b == a;
    }
  }

  /**
   * The header parameters appended for one `properties` map: one per property,
   * all the same value because the source appends one shared reference; it is
   * a header parameter, required when any property is listed as required,
   * named after one of the properties and typed by it.
   */
  ghost predicate HeaderParameters(added: seq<Parameter>, props: map<string, Json>, required: seq<string>, param: Parameter)
  {
    && |added| == |props.Keys|
    && (|added| > 0 ==>
         var p := added[0];
         && added == Copies(p, |added|)
         && p.location == param.location && p.description == param.description
         && (p.required <==> param.required || exists k :: k in props && k in required)
         && p.name in props && WellTypedProperty(props[p.name])
         && p.schemaType == Some(PropertyType(props[p.name])))
  }

  /** Whatever order the loop takes, it fails exactly on an ill-typed property and otherwise appends the header parameters. */
  lemma HeaderParamsMeaning(props: map<string, Json>, order: seq<string>, required: seq<string>, param: Parameter)
    requires IsEnumeration(order, props.Keys)
    ensures var r := HeaderParams(props, order, required, param);
      && (r.Err? <==> exists k :: k in props && !WellTypedProperty(props[k]))
      && (r.Err? ==> r.error == Panic(HeaderSchemaPanic))
      && (r.Ok? ==> HeaderParameters(r.value, props, required, param))
  {
    HeaderFoldFails(props, order, required, param);
    EnumerationLength(order, props.Keys);
    if exists k :: k in props && !WellTypedProperty(props[k]) {
      var k :| k in props && !WellTypedProperty(props[k]);
      assert k in order;
      var i :| 0 <= i < |order| && order[i] == k;
    }
    if HeaderFold(props, order, required, param).Ok? {
      HeaderFoldValue(props, order, required, param);
      var p := HeaderFold(props, order, required, param).value;
      if exists k :: k in props && k in required {
        var k :| k in props && k in required;
        assert k in order;
        var i :| 0 <= i < |order| && order[i] == k;
      }
    }
  }

  /** Leaving the header loop at a failing property: completing the visited keys with the unvisited ones fails the same way. */
  lemma HeaderLoopExit(props: map<string, Json>, order: seq<string>, todo: set<string>, required: seq<string>, param: Parameter)
    returns (full: seq<string>)
    requires todo <= props.Keys && IsEnumeration(order, props.Keys - todo)
    requires HeaderFold(props, order, required, param).Err?
    ensures IsEnumeration(full, props.Keys)
    ensures HeaderFold(props, full, required, param) == HeaderFold(props, order, required, param)
  {
    var rest := Enumerate(todo);
    EnumerationConcat(order, props.Keys - todo, rest, todo);
    assert props.Keys - todo + todo == props.Keys;
    HeaderFoldErrExtends(props, order, rest, required, param);
    full := order + rest;
  }

  /** The loop over `header_schema.properties`, in whatever order the map yields; `param` is the one shared parameter. */
  method ParseHeaderProperties(props: map<string, Json>, required: seq<string>, param: Parameter)
    returns (r: Result<seq<Parameter>>, ghost order: seq<string>)
    ensures IsEnumeration(order, props.Keys)
    ensures r == HeaderParams(props, order, required, param)
  {
    var p := param;
    var todo := props.Keys;
    order := [];
    var count := 0;
    while todo != {}
      invariant todo <= props.Keys && IsEnumeration(order, props.Keys - todo)
      invariant count == |order|
      invariant HeaderFold(props, order, required, param) == Ok(p)
      decreases |todo|
    {
      var key :| key in todo;
      EnumerationSingle(key);
      EnumerationConcat(order, props.Keys - todo, [key], {key});
      TakeNext(props.Keys, todo, key);
      todo := todo - {key};
      assert (order + [key])[..|order|] == order;
      order := order + [key];
      if key in required {
        p := p.(required := true);
      }
      p := p.(name := key);
      var value := props[key];
      if !WellTypedProperty(value) {
        order := HeaderLoopExit(props, order, todo, required, param);
        r := Err(Panic(HeaderSchemaPanic));
        return;
      }
      p := p.(schemaType := Some(value.fields["type"].s));
      count := count + 1;
    }
    r := Ok(Copies(p, count));
  }

  /* ---------------------------------------------------------------- the request-validation plugin */

  /** The header parameters one `request-validation` value adds, visiting its properties in `propOrder`. */
  function HeaderSchemaParams(v: Json, propOrder: seq<string>): Result<seq<Parameter>>
    requires forall i :: 0 <= i < |propOrder| ==> propOrder[i] in HeaderProperties(v)
  {
    if v.JObj? && "header_schema" in v.fields then
      var rv := DecodeRequestValidation(v.fields["header_schema"]);
      if rv.properties.JObj? then
        assert HeaderProperties(v) == rv.properties.fields.Keys;
        HeaderParams(rv.properties.fields, propOrder, rv.required, HeaderParam)
      else Err(Panic(HeaderSchemaPanic))
    else Ok([])
  }

  /** What a `request-validation` value adds to the shared parameter list. */
  ghost predicate HeaderParamsFor(added: seq<Parameter>, v: Json)
  {
    if v.JObj? && "header_schema" in v.fields then
      var rv := DecodeRequestValidation(v.fields["header_schema"]);
      && rv.properties.JObj?
      && HeaderParameters(added, rv.properties.fields, rv.required, HeaderParam)
    else added == []
  }

  /** The `request-validation` branch fails exactly when the header loop panics, and otherwise adds the header parameters. */
  lemma HeaderSchemaParamsMeaning(v: Json, propOrder: seq<string>)
    requires IsEnumeration(propOrder, HeaderProperties(v))
    ensures var r := HeaderSchemaParams(v, propOrder);
      && (r.Err? <==> HeaderSchemaPanics(v))
      && (r.Err? ==> r.error == Panic(HeaderSchemaPanic))
      && (r.Ok? ==> HeaderParamsFor(r.value, v))
  {
    if v.JObj? && "header_schema" in v.fields {
      var rv := DecodeRequestValidation(v.fields["header_schema"]);
      if rv.properties.JObj? {
        HeaderParamsMeaning(rv.properties.fields, propOrder, rv.required, HeaderParam);
      }
    }
  }

  /** The `request-validation` branch of the plugin loop. */
  method ParseRequestValidation(value: Json, params: seq<Parameter>, requestBody: RequestBody)
    returns (r: Result<(seq<Parameter>, RequestBody)>, ghost propOrder: seq<string>)
    ensures IsEnumeration(propOrder, HeaderProperties(value))
    ensures r == match HeaderSchemaParams(value, propOrder)
                 case Err(e) => Err(e)
                 case Ok(added) => Ok((params + added, NextRequestBody(requestBody, value)))
  {
    propOrder := [];
    var ps, rb := params, requestBody;
    assert params + [] == params;
    if value.JObj? {
      if "header_schema" in value.fields {
        var param := Parameter("header", "", false, "", None);
        var rv := DecodeRequestValidation(value.fields["header_schema"]);
        if !rv.properties.JObj? {
          r := Err(Panic(HeaderSchemaPanic));
          return;
        }
        var added;
        added, propOrder := ParseHeaderProperties(rv.properties.fields, rv.required, param);
        if added.Err? {
          r := Err(added.error);
          return;
        }
        ps := ps + added.value;
      }
      if "body_schema" in value.fields {
        rb := RequestBody(Some(map["*/*" := value.fields["body_schema"]]));
      }
    }
    r := Ok((ps, rb));
  }

  /* ---------------------------------------------------------------- the plugin loop */

  /** What the classifying loop of `ParseRoutePlugins` accumulates. */
  datatype Classified = Classified(
    plugins: PluginMap,
    security: seq<SecurityRequirement>,
    secSchemas: map<string, SecurityScheme>,
    parameters: seq<Parameter>,
    requestBody: RequestBody)

  /** `propOrder` lists only header properties of the map's `request-validation` value. */
  predicate PropOrderFits(propOrder: seq<string>, p: PluginMap)
  {
    RequestValidation in p ==> forall i :: 0 <= i < |propOrder| ==> propOrder[i] in HeaderProperties(p[RequestValidation])
  }

  /**
   * One pass of the plugin loop for `key` with configuration `value`:
   * `request-validation` feeds the parameters and the request body, the
   * three authentication plugins register their scheme and requirement,
   * every other plugin is copied.
   */
  function ClassifyKey(key: string, value: Json, c: Classified, propOrder: seq<string>): Result<Classified>
    requires key == RequestValidation ==> forall i :: 0 <= i < |propOrder| ==> propOrder[i] in HeaderProperties(value)
  {
    if key == RequestValidation then
      match HeaderSchemaParams(value, propOrder)
      case Err(e) => Err(e)
      case Ok(added) => Ok(c.(parameters := c.parameters + added, requestBody := NextRequestBody(c.requestBody, value)))
    else if IsAuthKey(key) then
      Ok(c.(secSchemas := c.secSchemas[SchemeNameOf(key) := SchemeOf(key)], security := c.security + [RequirementOf(key)]))
    else Ok(c.(plugins := c.plugins[key := value]))
  }

  /** The loop's state after visiting the keys in `order`, the header properties in `propOrder`. */
  function ClassifyFold(p: PluginMap, order: seq<string>, propOrder: seq<string>, c0: Classified): Result<Classified>
    requires forall i :: 0 <= i < |order| ==> order[i] in p
    requires PropOrderFits(propOrder, p)
  {
    if order == [] then Ok(c0)
    else
      match ClassifyFold(p, order[..|order| - 1], propOrder, c0)
      case Err(e) => Err(e)
      case Ok(c) => ClassifyKey(order[|order| - 1], p[order[|order| - 1]], c, propOrder)
  }

  /** A panic ends the loop: the keys visited after it do not matter. */
  lemma {:induction false} ClassifyFoldErrExtends(p: PluginMap, a: seq<string>, b: seq<string>, propOrder: seq<string>, c0: Classified)
    requires forall i :: 0 <= i < |a| ==> a[i] in p
    requires forall i :: 0 <= i < |b| ==> b[i] in p
    requires PropOrderFits(propOrder, p)
    requires ClassifyFold(p, a, propOrder, c0).Err?
    ensures forall i :: 0 <= i < |a + b| ==> (a + b)[i] in p
    ensures ClassifyFold(p, a + b, propOrder, c0) == ClassifyFold(p, a, propOrder, c0)
  {
    assert forall i :: 0 <= i < |a + b| ==> (a + b)[i] in p by {
      forall i | 0 <= i < |a + b| ensures (a + b)[i] in p {
        if i < |a| {
          assert (a + b)[i] == a[i];
        } else {
          assert (a + b)[i] == b[i - |a|];
        }
      }
    }
    if b != [] {
      var init := b[..|b| - 1];
      ClassifyFoldErrExtends(p, a, init, propOrder, c0);
      assert (a + b)[..|a + b| - 1] == a + init;
    } else {
      assert a + b == a;
    }
  }

  /** Before `request-validation` is visited, the header order plays no part. */
  lemma {:induction false} ClassifyFoldWithoutValidation(p: PluginMap, order: seq<string>, po1: seq<string>, po2: seq<string>, c0: Classified)
    requires forall i :: 0 <= i < |order| ==> order[i] in p && order[i] != RequestValidation
    requires PropOrderFits(po1, p) && PropOrderFits(po2, p)
    ensures ClassifyFold(p, order, po1, c0) == ClassifyFold(p, order, po2, c0)
  {
    if order != [] {
      ClassifyFoldWithoutValidation(p, order[..|order| - 1], po1, po2, c0);
    }
  }

  /** Leaving the plugin loop at a panic: completing the visited keys with the unvisited ones fails the same way. */
  lemma ClassifyLoopExit(p: PluginMap, order: seq<string>, todo: set<string>, propOrder: seq<string>, c0: Classified)
    returns (full: seq<string>)
    requires todo <= p.Keys && IsEnumeration(order, p.Keys - todo)
    requires PropOrderFits(propOrder, p)
    requires ClassifyFold(p, order, propOrder, c0).Err?
    ensures IsEnumeration(full, p.Keys)
    ensures ClassifyFold(p, full, propOrder, c0) == ClassifyFold(p, order, propOrder, c0)
  {
    var rest := Enumerate(todo);
    EnumerationConcat(order, p.Keys - todo, rest, todo);
    assert p.Keys - todo + todo == p.Keys;
    ClassifyFoldErrExtends(p, order, rest, propOrder, c0);
    full := order + rest;
  }

  /** Visiting one more key after a successful prefix is one pass of the loop body. */
  lemma ClassifyFoldSnoc(p: PluginMap, order: seq<string>, key: string, propOrder: seq<string>, c0: Classified, c: Classified)
    requires (forall i :: 0 <= i < |order| ==> order[i] in p) && key in p
    requires PropOrderFits(propOrder, p)
    requires ClassifyFold(p, order, propOrder, c0) == Ok(c)
    ensures forall i :: 0 <= i < |order + [key]| ==> (order + [key])[i] in p
    ensures ClassifyFold(p, order + [key], propOrder, c0) == ClassifyKey(key, p[key], c, propOrder)
  {
    assert (order + [key])[..|order|] == order;
  }

  /** One pass of the plugin loop, for the plugin `key` with configuration `value`. */
  method ClassifyPlugin(key: string, value: Json, c: Classified) returns (r: Result<Classified>, ghost propOrder: seq<string>)
    ensures key == RequestValidation ==> IsEnumeration(propOrder, HeaderProperties(value))
    ensures key == RequestValidation ==> forall i :: 0 <= i < |propOrder| ==> propOrder[i] in HeaderProperties(value)
    ensures r == ClassifyKey(key, value, c, propOrder)
  {
    propOrder := [];
    if key == RequestValidation {
      var out;
      out, propOrder := ParseRequestValidation(value, c.parameters, c.requestBody);
      if out.Err? {
        r := Err(out.error);
        return;
      }
      r := Ok(c.(parameters := out.value.0, requestBody := out.value.1));
    } else if key == KeyAuth {
      r := Ok(c.(secSchemas := c.secSchemas["api_key" := CsrfScheme], security := c.security + [map["api_key" := [" "]]]));
    } else if key == BasicAuth {
      r := Ok(c.(secSchemas := c.secSchemas["basicAuth" := NamedScheme("basicAuth", "basicAuth", "header")],
                 security := c.security + [map["basicAuth" := [" "]]]));
    } else if key == JwtAuth {
      r := Ok(c.(secSchemas := c.secSchemas["bearerAuth" := JwtScheme], security := c.security + [map["bearerAuth" := [" "]]]));
    } else {
      r := Ok(c.(plugins := c.plugins[key := value]));
    }
  }

  /**
   * The loop of `ParseRoutePlugins` over the route's plugins, in whatever
   * order the map yields them; `order` is the order taken over the plugins,
   * `propOrder` the one taken over the header properties of `request-validation`.
   */
  method ClassifyPlugins(p: PluginMap, params: seq<Parameter>, secSchemas: map<string, SecurityScheme>, requestBody: RequestBody)
    returns (r: Result<Classified>, ghost order: seq<string>, ghost propOrder: seq<string>)
    ensures IsEnumeration(order, p.Keys)
    ensures PropOrderFits(propOrder, p)
    ensures RequestValidation in p ==> IsEnumeration(propOrder, HeaderProperties(p[RequestValidation]))
    ensures r == ClassifyFold(p, order, propOrder, Classified(map[], [], secSchemas, params, requestBody))
  {
    var c := Classified(map[], [], secSchemas, params, requestBody);
    ghost var c0 := c;
    var todo := p.Keys;
    order, propOrder := [], [];
    while todo != {}
      invariant todo <= p.Keys && IsEnumeration(order, p.Keys - todo)
      invariant PropOrderFits(propOrder, p)
      invariant RequestValidation in p && RequestValidation !in todo ==> IsEnumeration(propOrder, HeaderProperties(p[RequestValidation]))
      invariant ClassifyFold(p, order, propOrder, c0) == Ok(c)
      decreases |todo|
    {
      var key :| key in todo;
      var next;
      ghost var keyOrder;
      next, keyOrder := ClassifyPlugin(key, p[key], c);
      if key == RequestValidation {
        ClassifyFoldWithoutValidation(p, order, propOrder, keyOrder, c0);
        propOrder := keyOrder;
      }
      EnumerationSingle(key);
      EnumerationConcat(order, p.Keys - todo, [key], {key});
      TakeNext(p.Keys, todo, key);
      todo := todo - {key};
      ClassifyFoldSnoc(p, order, key, propOrder, c0, c);
      order := order + [key];
      if next.Err? {
        order := ClassifyLoopExit(p, order, todo, propOrder, c0);
        r := next;
        return;
      }
      c := next.value;
    }
    r := Ok(c);
  }

  /** The loop panics exactly when it reaches a `request-validation` value whose header properties fail. */
  lemma {:induction false} ClassifyFoldFails(p: PluginMap, order: seq<string>, done: set<string>, propOrder: seq<string>, c0: Classified)
    requires IsEnumeration(order, done) && done <= p.Keys
    requires PropOrderFits(propOrder, p)
    ensures var r := ClassifyFold(p, order, propOrder, c0);
      && (r.Err? <==> RequestValidation in done && HeaderSchemaParams(p[RequestValidation], propOrder).Err?)
      && (r.Err? ==> r.error == HeaderSchemaParams(p[RequestValidation], propOrder).error)
  {
    if order != [] {
      var last := order[|order| - 1];
      EnumerationInit(order, done);
      ClassifyFoldFails(p, order[..|order| - 1], done - {last}, propOrder, c0);
    }
  }

  /** The last visited key of a successful loop, by kind: what it adds to the copied plugins, the schemes and the requirements. */
  lemma ClassifyFoldLast(p: PluginMap, order: seq<string>, propOrder: seq<string>, c0: Classified)
    requires order != [] && (forall i :: 0 <= i < |order| ==> order[i] in p)
    requires PropOrderFits(propOrder, p)
    requires ClassifyFold(p, order, propOrder, c0).Ok?
    ensures ClassifyFold(p, order[..|order| - 1], propOrder, c0).Ok?
    ensures var c, last := ClassifyFold(p, order[..|order| - 1], propOrder, c0).value, order[|order| - 1];
      var r := ClassifyFold(p, order, propOrder, c0).value;
      && r.plugins == (if IsClassified(last) then c.plugins else c.plugins[last := p[last]])
      && r.secSchemas == (if IsAuthKey(last) then c.secSchemas[SchemeNameOf(last) := SchemeOf(last)] else c.secSchemas)
      && r.security == (if IsAuthKey(last) then c.security + [RequirementOf(last)] else c.security)
  {
    assert forall i :: 0 <= i < |order| - 1 ==> order[..|order| - 1][i] == order[i];
  }

  /** Exactly the unclassified visited plugins are copied, with their configurations. */
  lemma {:induction false} ClassifyFoldPlugins(p: PluginMap, order: seq<string>, done: set<string>, propOrder: seq<string>, c0: Classified)
    requires IsEnumeration(order, done) && done <= p.Keys
    requires PropOrderFits(propOrder, p)
    requires ClassifyFold(p, order, propOrder, c0).Ok?
    ensures ClassifyFold(p, order, propOrder, c0).value.plugins == c0.plugins + FilteredOf(p, done)
  {
    if order != [] {
      var last := order[|order| - 1];
      EnumerationInit(order, done);
      ClassifyFoldPlugins(p, order[..|order| - 1], done - {last}, propOrder, c0);
      ClassifyFoldLast(p, order, propOrder, c0);
      FilteredOfStep(p, done - {last}, last);
      PutBack(done, last);
      if !IsClassified(last) {
        UnionUpdate(c0.plugins, FilteredOf(p, done - {last}), last, p[last]);
      }
    }
  }

  lemma FilteredOfStep(p: PluginMap, done: set<string>, key: string)
    requires key in p
    ensures !IsClassified(key) ==> FilteredOf(p, done + {key}) == FilteredOf(p, done)[key := p[key]]
    ensures IsClassified(key) ==> FilteredOf(p, done + {key}) == FilteredOf(p, done)
  {
  }

  /** The visited authentication plugins, and only they, register their schemes. */
  lemma {:induction false} ClassifyFoldSchemes(p: PluginMap, order: seq<string>, done: set<string>, propOrder: seq<string>, c0: Classified)
    requires IsEnumeration(order, done) && done <= p.Keys
    requires PropOrderFits(propOrder, p)
    requires ClassifyFold(p, order, propOrder, c0).Ok?
    ensures ClassifyFold(p, order, propOrder, c0).value.secSchemas == c0.secSchemas + AuthSchemes(done)
  {
    if order == [] {
      assert AuthSchemes(done) == map[] by {
        assert KeyAuth !in done && BasicAuth !in done && JwtAuth !in done;
      }
    } else {
      var last := order[|order| - 1];
      EnumerationInit(order, done);
      ClassifyFoldSchemes(p, order[..|order| - 1], done - {last}, propOrder, c0);
      ClassifyFoldLast(p, order, propOrder, c0);
      AuthSchemesStep(c0.secSchemas, done - {last}, last);
      PutBack(done, last);
    }
  }

  /** One requirement per visited authentication plugin. */
  lemma {:induction false} ClassifyFoldSecurity(p: PluginMap, order: seq<string>, done: set<string>, propOrder: seq<string>, c0: Classified)
    requires IsEnumeration(order, done) && done <= p.Keys
    requires PropOrderFits(propOrder, p)
    requires ClassifyFold(p, order, propOrder, c0).Ok?
    ensures multiset(ClassifyFold(p, order, propOrder, c0).value.security) == multiset(c0.security) + Requirements(done)
  {
    if order == [] {
      assert Requirements(done) == multiset{} by {
        assert KeyAuth !in done && BasicAuth !in done && JwtAuth !in done;
      }
    } else {
      var init, last := order[..|order| - 1], order[|order| - 1];
      EnumerationInit(order, done);
      ClassifyFoldSecurity(p, init, done - {last}, propOrder, c0);
      ClassifyFoldLast(p, order, propOrder, c0);
      RequirementsStep(done - {last}, last);
      PutBack(done, last);
    }
  }

  /** Only `request-validation` touches the parameters and the request body. */
  lemma {:induction false} ClassifyFoldValidation(p: PluginMap, order: seq<string>, done: set<string>, propOrder: seq<string>, c0: Classified)
    requires IsEnumeration(order, done) && done <= p.Keys
    requires PropOrderFits(propOrder, p)
    requires ClassifyFold(p, order, propOrder, c0).Ok?
    ensures var c := ClassifyFold(p, order, propOrder, c0).value;
      && (RequestValidation !in done ==> c.parameters == c0.parameters && c.requestBody == c0.requestBody)
      && (RequestValidation in done ==>
           && HeaderSchemaParams(p[RequestValidation], propOrder).Ok?
           && c.parameters == c0.parameters + HeaderSchemaParams(p[RequestValidation], propOrder).value
           && c.requestBody == NextRequestBody(c0.requestBody, p[RequestValidation]))
  {
    if order != [] {
      var last := order[|order| - 1];
      EnumerationInit(order, done);
      ClassifyFoldValidation(p, order[..|order| - 1], done - {last}, propOrder, c0);
    }
  }

  /** What the request-validation branch does to the shared parameter list. */
  ghost predicate HeaderParamsAdded(before: seq<Parameter>, after: seq<Parameter>, v: Json)
  {
    && |before| <= |after| && after[..|before|] == before
    && HeaderParamsFor(after[|before|..], v)
  }

  /**
   * Whatever orders the two map ranges take, the plugin loop of one route
   * panics exactly on a failing `request-validation` value, and otherwise
   * copies the unclassified plugins, registers one scheme and one
   * requirement per authentication plugin and adds the header parameters.
   */
  lemma ClassifiedPlugins(p: PluginMap, order: seq<string>, propOrder: seq<string>,
                          params: seq<Parameter>, secSchemas: map<string, SecurityScheme>, requestBody: RequestBody)
    requires IsEnumeration(order, p.Keys) && PropOrderFits(propOrder, p)
    requires RequestValidation in p ==> IsEnumeration(propOrder, HeaderProperties(p[RequestValidation]))
    ensures var r := ClassifyFold(p, order, propOrder, Classified(map[], [], secSchemas, params, requestBody));
      && (r.Err? <==> RequestValidation in p && HeaderSchemaPanics(p[RequestValidation]))
      && (r.Err? ==> r.error == Panic(HeaderSchemaPanic))
      && (r.Ok? ==>
           && r.value.plugins == FilteredPlugins(p)
           && r.value.secSchemas == secSchemas + AuthSchemes(p.Keys)
           && multiset(r.value.security) == Requirements(p.Keys)
           && (RequestValidation in p ==> HeaderParamsAdded(params, r.value.parameters, p[RequestValidation])
                                          && r.value.requestBody == NextRequestBody(requestBody, p[RequestValidation]))
           && (RequestValidation !in p ==> r.value.parameters == params && r.value.requestBody == requestBody))
  {
    var c0 := Classified(map[], [], secSchemas, params, requestBody);
    ClassifyFoldFails(p, order, p.Keys, propOrder, c0);
    if RequestValidation in p {
      HeaderSchemaParamsMeaning(p[RequestValidation], propOrder);
    }
    var r := ClassifyFold(p, order, propOrder, c0);
    if r.Ok? {
      ClassifyFoldPlugins(p, order, p.Keys, propOrder, c0);
      assert map[] + FilteredOf(p, p.Keys) == FilteredPlugins(p);
      ClassifyFoldSchemes(p, order, p.Keys, propOrder, c0);
      ClassifyFoldSecurity(p, order, p.Keys, propOrder, c0);
      ClassifyFoldValidation(p, order, p.Keys, propOrder, c0);
      if RequestValidation in p {
        var added := HeaderSchemaParams(p[RequestValidation], propOrder).value;
        assert (params + added)[..|params|] == params && (params + added)[|params|..] == added;
      }
    }
  }

  lemma RequirementsStep(done: set<string>, key: string)
    requires key !in done
    ensures IsAuthKey(key) ==> Requirements(done + {key}) == Requirements(done) + multiset{RequirementOf(key)}
    ensures !IsAuthKey(key) ==> Requirements(done + {key}) == Requirements(done)
  {
    if key == KeyAuth {
      RequirementsAddKeyAuth(done);
    } else if key == BasicAuth {
      RequirementsAddBasicAuth(done);
    } else if key == JwtAuth {
      RequirementsAddJwtAuth(done);
    } else {
      assert Requirements(done + {key}) == Requirements(done) by {
        assert (KeyAuth in done + {key}) == (KeyAuth in done);
        assert (BasicAuth in done + {key}) == (BasicAuth in done);
        assert (JwtAuth in done + {key}) == (JwtAuth in done);
      }
    }
  }

  lemma RequirementsAddKeyAuth(done: set<string>)
    requires KeyAuth !in done
    ensures Requirements(done + {KeyAuth}) == Requirements(done) + multiset{RequirementOf(KeyAuth)}
  {
    AuthKeysDistinct();
    var d := done + {KeyAuth};
    var b, j := BasicAuth in done, JwtAuth in done;
    assert KeyAuth in d && (BasicAuth in d) == b && (JwtAuth in d) == j;
    RequirementsOfAdd(false, b, j);
  }

  lemma RequirementsAddBasicAuth(done: set<string>)
    requires BasicAuth !in done
    ensures Requirements(done + {BasicAuth}) == Requirements(done) + multiset{RequirementOf(BasicAuth)}
  {
    AuthKeysDistinct();
    var d := done + {BasicAuth};
    var a, j := KeyAuth in done, JwtAuth in done;
    assert BasicAuth in d && (KeyAuth in d) == a && (JwtAuth in d) == j;
    RequirementsOfAdd(a, false, j);
  }

  lemma RequirementsAddJwtAuth(done: set<string>)
    requires JwtAuth !in done
    ensures Requirements(done + {JwtAuth}) == Requirements(done) + multiset{RequirementOf(JwtAuth)}
  {
    AuthKeysDistinct();
    var d := done + {JwtAuth};
    var a, b := KeyAuth in done, BasicAuth in done;
    assert JwtAuth in d && (KeyAuth in d) == a && (BasicAuth in d) == b;
    RequirementsOfAdd(a, b, false);
  }

  /** Adding one authentication plugin adds its one requirement. */
  lemma RequirementsOfAdd(a: bool, b: bool, j: bool)
    ensures RequirementsOf(true, b, j) == RequirementsOf(false, b, j) + multiset{RequirementOf(KeyAuth)}
    ensures RequirementsOf(a, true, j) == RequirementsOf(a, false, j) + multiset{RequirementOf(BasicAuth)}
    ensures RequirementsOf(a, b, true) == RequirementsOf(a, b, false) + multiset{RequirementOf(JwtAuth)}
  {
    OneOfThreeAdd(RequirementOf(KeyAuth), RequirementOf(BasicAuth), RequirementOf(JwtAuth), a, b, j);
  }

  lemma OneOfThreeAdd<T>(x: T, y: T, z: T, a: bool, b: bool, j: bool)
    ensures OneOfThree(x, y, z, true, b, j) == OneOfThree(x, y, z, false, b, j) + multiset{x}
    ensures OneOfThree(x, y, z, a, true, j) == OneOfThree(x, y, z, a, false, j) + multiset{y}
    ensures OneOfThree(x, y, z, a, b, true) == OneOfThree(x, y, z, a, b, false) + multiset{z}
  {
    var e: multiset<T> := multiset{};
    var pa, pb, pj := (if a then multiset{x} else e), (if b then multiset{y} else e), (if j then multiset{z} else e);
    MoveFirstToEnd(multiset{x}, pb, pj);
    MoveMiddleToEnd(pa, multiset{y}, pj);
    AddLast(pa, pb, multiset{z});
  }

  lemma MoveFirstToEnd<T>(x: multiset<T>, b: multiset<T>, c: multiset<T>)
    ensures x + b + c == (multiset{} + b + c) + x
  {
  }

  lemma MoveMiddleToEnd<T>(a: multiset<T>, y: multiset<T>, c: multiset<T>)
    ensures a + y + c == (a + multiset{} + c) + y
  {
  }

  lemma AddLast<T>(a: multiset<T>, b: multiset<T>, z: multiset<T>)
    ensures a + b + z == (a + b + multiset{}) + z
  {
  }

  lemma AuthKeysDistinct()
    ensures KeyAuth != BasicAuth && KeyAuth != JwtAuth && BasicAuth != JwtAuth && RequestValidation != KeyAuth
    ensures RequestValidation != BasicAuth && RequestValidation != JwtAuth
  {
    assert KeyAuth[0] != JwtAuth[0];
    assert |KeyAuth| != |BasicAuth| && |JwtAuth| != |BasicAuth| && |RequestValidation| != |KeyAuth|;
    assert |RequestValidation| != |BasicAuth| && |RequestValidation| != |JwtAuth|;
  }

  lemma AuthSchemesStep(base: map<string, SecurityScheme>, done: set<string>, key: string)
    ensures IsAuthKey(key) ==> base + AuthSchemes(done + {key}) == (base + AuthSchemes(done))[SchemeNameOf(key) := SchemeOf(key)]
    ensures !IsAuthKey(key) ==> AuthSchemes(done + {key}) == AuthSchemes(done)
  {
    if IsAuthKey(key) {
      AuthSchemesAdd(done, key);
      UnionUpdate(base, AuthSchemes(done), SchemeNameOf(key), SchemeOf(key));
    } else {
      assert AuthSchemes(done + {key}) == AuthSchemes(done);
    }
  }

  lemma AuthSchemesAdd(done: set<string>, key: string)
    requires IsAuthKey(key)
    ensures AuthSchemes(done + {key}) == AuthSchemes(done)[SchemeNameOf(key) := SchemeOf(key)]
  {
  }

  /* ---------------------------------------------------------------- ParseRoutePlugins */

  /** The orders one route's plugin loop takes: over the plugins, and over the header properties. */
  datatype PluginOrder = PluginOrder(keys: seq<string>, properties: seq<string>)

  /** `o` names only keys the route's plugin maps have (what the specification functions below need). */
  predicate FitsRoute(o: PluginOrder, route: Route)
  {
    route.plugins.Some? ==>
      && (forall i :: 0 <= i < |o.keys| ==> o.keys[i] in route.plugins.value)
      && PropOrderFits(o.properties, route.plugins.value)
  }

  /** `o` is an order the two map ranges of the route's plugin loop can take. */
  ghost predicate IsRouteOrder(o: PluginOrder, route: Route)
  {
    route.plugins.Some? ==>
      var p := route.plugins.value;
      && IsEnumeration(o.keys, p.Keys)
      && PropOrderFits(o.properties, p)
      && (RequestValidation in p ==> IsEnumeration(o.properties, HeaderProperties(p[RequestValidation])))
  }

  /** The five results of `ParseRoutePlugins`. */
  datatype PluginOutput = PluginOutput(
    operation: Operation,
    secSchemas: map<string, SecurityScheme>,
    parameters: seq<Parameter>,
    plugins: Option<PluginMap>,
    requestBody: RequestBody)

  /** `ParseRoutePlugins` when its loops take the orders `o`. */
  function RoutePlugins(route: Route, params: seq<Parameter>, op: Operation, servicePlugins: Option<PluginMap>,
                        secSchemas: map<string, SecurityScheme>, requestBody: RequestBody,
                        mergeJson: (PluginMap, PluginMap) -> Option<PluginMap>, o: PluginOrder): Result<PluginOutput>
    requires FitsRoute(o, route)
  {
    if route.plugins.None? then
      Ok(PluginOutput(op, secSchemas, params, if route.serviceId != NoId then servicePlugins else Some(map[]), requestBody))
    else
      match ClassifyFold(route.plugins.value, o.keys, o.properties, Classified(map[], [], secSchemas, params, requestBody))
      case Err(e) => Err(e)
      case Ok(c) =>
        match MergeServicePlugins(route, servicePlugins, mergeJson, c.plugins)
        case Err(e) => Err(e)
        case Ok(plugins) => Ok(PluginOutput(op.(security := Some(c.security)), c.secSchemas, c.parameters, Some(plugins), c.requestBody))
  }

  /** The merge with the service's plugins, when the route names a service that has some. */
  function MergeServicePlugins(route: Route, servicePlugins: Option<PluginMap>, mergeJson: (PluginMap, PluginMap) -> Option<PluginMap>,
                               own: PluginMap): (r: Result<PluginMap>)
    ensures !(route.serviceId != NoId && servicePlugins.Some?) ==> r == Ok(own)
    ensures r.Err? ==> r == Err(MergeFailed)
  {
    if route.serviceId != NoId && servicePlugins.Some? then
      match mergeJson(servicePlugins.value, own)
      // json.Unmarshal into the non-nil route map adds the merged keys to it
      case Some(merged) => Ok(own + merged)
      case None => Err(MergeFailed)
    else Ok(own)
  }

  /**
   * `ParseRoutePlugins`: classifies the route's plugins, then merges with or
   * inherits the service's plugins; `o` is the order its loops took.
   */
  method ParseRoutePlugins(route: Route, params: seq<Parameter>, op: Operation, servicePlugins: Option<PluginMap>,
                           secSchemas: map<string, SecurityScheme>, requestBody: RequestBody,
                           mergeJson: (PluginMap, PluginMap) -> Option<PluginMap>)
    returns (r: Result<PluginOutput>, ghost o: PluginOrder)
    ensures IsRouteOrder(o, route) && FitsRoute(o, route)
    ensures r == RoutePlugins(route, params, op, servicePlugins, secSchemas, requestBody, mergeJson, o)
  {
    o := PluginOrder([], []);
    if route.plugins.None? {
      var plugins := if route.serviceId != NoId then servicePlugins else Some(map[]);
      r := Ok(PluginOutput(op, secSchemas, params, plugins, requestBody));
      return;
    }
    var c;
    ghost var keys, props;
    c, keys, props := ClassifyPlugins(route.plugins.value, params, secSchemas, requestBody);
    o := PluginOrder(keys, props);
    if c.Err? {
      r := Err(c.error);
      return;
    }
    var plugins := c.value.plugins;
    var result := Some(plugins);
    if route.serviceId != NoId && servicePlugins.Some? {
      var merged := mergeJson(servicePlugins.value, plugins);
      if merged.None? {
        r := Err(MergeFailed);
        return;
      }
      result := Some(plugins + merged.value);
    }
    r := Ok(PluginOutput(op.(security := Some(c.value.security)), c.value.secSchemas, c.value.parameters, result, c.value.requestBody));
  }

  /** The plugin map a route ends up with, and whether computing it fails, independent of any iteration order. */
  function EffectivePlugins(route: Route, servicePlugins: Option<PluginMap>, mergeJson: (PluginMap, PluginMap) -> Option<PluginMap>): Result<Option<PluginMap>>
  {
    if route.plugins.Some? then
      var p := route.plugins.value;
      if RequestValidation in p && HeaderSchemaPanics(p[RequestValidation]) then Err(Panic(HeaderSchemaPanic))
      else
        match MergeServicePlugins(route, servicePlugins, mergeJson, FilteredPlugins(p))
        case Err(e) => Err(e)
        case Ok(plugins) => Ok(Some(plugins))
    else if route.serviceId != NoId then Ok(servicePlugins)
    else Ok(Some(map[]))
  }

  /** The schemes one route registers. */
  function RouteSchemes(route: Route): map<string, SecurityScheme>
  {
    if route.plugins.Some? then AuthSchemes(route.plugins.value.Keys) else map[]
  }

  /** The shared request body after one route. */
  function RouteRequestBody(rb: RequestBody, route: Route): RequestBody
  {
    if route.plugins.Some? && RequestValidation in route.plugins.value then NextRequestBody(rb, route.plugins.value[RequestValidation]) else rb
  }

  /** What the route adds to the shared parameter list. */
  ghost predicate RouteParamsAdded(before: seq<Parameter>, after: seq<Parameter>, route: Route)
  {
    if route.plugins.Some? && RequestValidation in route.plugins.value then
      HeaderParamsAdded(before, after, route.plugins.value[RequestValidation])
    else after == before
  }

  /**
   * Whatever orders its loops take, `ParseRoutePlugins` fails exactly when
   * `EffectivePlugins` does, with the same error; otherwise it yields the
   * effective plugins, registers the route's schemes, sets the request body,
   * appends the header parameters and gives the operation one requirement per
   * authentication plugin, leaving every other field of the operation alone.
   */
  lemma RoutePluginsMeaning(route: Route, params: seq<Parameter>, op: Operation, servicePlugins: Option<PluginMap>,
                            secSchemas: map<string, SecurityScheme>, requestBody: RequestBody,
                            mergeJson: (PluginMap, PluginMap) -> Option<PluginMap>, o: PluginOrder)
    requires IsRouteOrder(o, route) && FitsRoute(o, route)
    ensures var r := RoutePlugins(route, params, op, servicePlugins, secSchemas, requestBody, mergeJson, o);
      var e := EffectivePlugins(route, servicePlugins, mergeJson);
      && (r.Err? <==> e.Err?)
      && (r.Err? ==> r.error == e.error)
      && (r.Ok? ==>
           && r.value.plugins == e.value
           && r.value.secSchemas == secSchemas + RouteSchemes(route)
           && r.value.requestBody == RouteRequestBody(requestBody, route)
           && RouteParamsAdded(params, r.value.parameters, route)
           && r.value.operation == op.(security := r.value.operation.security)
           && (route.plugins.None? ==> r.value.operation == op)
           && (route.plugins.Some? ==> r.value.operation.security.Some?
                                       && multiset(r.value.operation.security.value) == Requirements(route.plugins.value.Keys)))
  {
    if route.plugins.Some? {
      var p := route.plugins.value;
      ClassifiedPlugins(p, o.keys, o.properties, params, secSchemas, requestBody);
    }
  }

  /** Without own plugins a route that names a service inherits the service's map unchanged. */
  lemma InheritedPluginsUnchanged(route: Route, servicePlugins: Option<PluginMap>, mergeJson: (PluginMap, PluginMap) -> Option<PluginMap>)
    requires route.plugins.None? && route.serviceId != NoId
    ensures EffectivePlugins(route, servicePlugins, mergeJson) == Ok(servicePlugins)
  {
  }

  /**
   * With own plugins and no service, the result holds exactly the route's
   * unclassified plugins: `request-validation` and the three authentication
   * plugins never reach it.
   */
  lemma OwnPluginsWithoutService(route: Route, servicePlugins: Option<PluginMap>, mergeJson: (PluginMap, PluginMap) -> Option<PluginMap>)
    requires route.plugins.Some? && route.serviceId == NoId
    requires !(RequestValidation in route.plugins.value && HeaderSchemaPanics(route.plugins.value[RequestValidation]))
    ensures var r := EffectivePlugins(route, servicePlugins, mergeJson);
      && r.Ok? && r.value.Some?
      && (forall k :: k in r.value.value <==> k in route.plugins.value && !IsClassified(k))
      && (forall k :: k in r.value.value ==> r.value.value[k] == route.plugins.value[k])
  {
  }

  /**
   * The merged map is what `MergeJson(service, routeFiltered)` returns whenever
   * that result keeps every key of the filtered route map, as a merge patch does.
   */
  lemma MergedPluginsAreMergeResult(route: Route, servicePlugins: Option<PluginMap>, mergeJson: (PluginMap, PluginMap) -> Option<PluginMap>)
    requires route.plugins.Some? && route.serviceId != NoId && servicePlugins.Some?
    requires !(RequestValidation in route.plugins.value && HeaderSchemaPanics(route.plugins.value[RequestValidation]))
    requires var m := mergeJson(servicePlugins.value, FilteredPlugins(route.plugins.value));
             m.Some? && FilteredPlugins(route.plugins.value).Keys <= m.value.Keys
    ensures EffectivePlugins(route, servicePlugins, mergeJson) == Ok(mergeJson(servicePlugins.value, FilteredPlugins(route.plugins.value)))
  {
    var f := FilteredPlugins(route.plugins.value);
    var m := mergeJson(servicePlugins.value, f).value;
    assert f + m == m;
  }

  /* ---------------------------------------------------------------- one route */

  /** Every extension is written under an `x-apisix-` key. */
  lemma ExtensionNamesArePrefixed(e: ExtensionName)
    ensures |e.Name()| > 9 && e.Name()[..9] == "x-apisix-"
  {
    match e
    case UpstreamExt =>
    case HostExt =>
    case HostsExt =>
    case LabelsExt =>
    case RemoteAddrExt =>
    case RemoteAddrsExt =>
    case FilterFuncExt =>
    case ScriptExt =>
    case ServiceProtocolExt =>
    case VarsExt =>
    case IdExt =>
    case PluginsExt =>
    case PriorityExt =>
    case StatusExt =>
    case EnableWebsocketExt =>
  }

  /** What the call resolves for one route besides its operation: upstream, labels and effective plugins. */
  datatype RouteView = RouteView(upstream: ResolvedUpstream, labels: Option<Labels>, plugins: Option<PluginMap>)

  /** All fifteen extensions. */
  const AllExtensions: set<ExtensionName> := {UpstreamExt, HostExt, HostsExt, LabelsExt, RemoteAddrExt, RemoteAddrsExt,
    FilterFuncExt, ScriptExt, ServiceProtocolExt, VarsExt, IdExt, PluginsExt, PriorityExt, StatusExt, EnableWebsocketExt}

  /** The value the route loop stores under extension `e`, `None` when it stores none. */
  function ExtensionValue(e: ExtensionName, route: Route, view: RouteView): Option<ExtValue>
  {
    match e
    case UpstreamExt => if !view.upstream.NoUpstream? then Some(XUpstream(view.upstream)) else None
    case HostExt => if route.host != "" then Some(XString(route.host)) else None
    case HostsExt => if route.hosts.Some? then Some(XStrings(route.hosts.value)) else None
    case LabelsExt => if view.labels.Some? then Some(XLabels(view.labels.value)) else None
    case RemoteAddrExt => if route.remoteAddr != "" then Some(XString(route.remoteAddr)) else None
    case RemoteAddrsExt => if route.remoteAddrs.Some? then Some(XStrings(route.remoteAddrs.value)) else None
    case FilterFuncExt => if route.filterFunc != "" then Some(XString(route.filterFunc)) else None
    case ScriptExt => if route.script != JNull then Some(XJson(route.script)) else None
    case ServiceProtocolExt => if route.serviceProtocol != "" then Some(XString(route.serviceProtocol)) else None
    case VarsExt => if route.vars.Some? then Some(XJsonList(route.vars.value)) else None
    case IdExt => if route.base.id != NoId then Some(XId(route.base.id)) else None
    case PluginsExt => if view.plugins.Some? && |view.plugins.value| > 0 then Some(XPlugins(view.plugins.value)) else None
    case PriorityExt => Some(XInt(route.priority))
    case StatusExt => Some(XInt(route.status))
    case EnableWebsocketExt => Some(XBool(route.enableWebsocket))
  }

  /**
   * The extensions of a route's operation: the route loop adds each one whose
   * attribute is set, and always the priority, the status and the websocket flag.
   */
  function RouteExtensions(route: Route, view: RouteView): (x: map<ExtensionName, ExtValue>)
    ensures forall e :: e in x <==> ExtensionValue(e, route, view).Some?
    ensures forall e :: e in x ==> x[e] == ExtensionValue(e, route, view).value
  {
    map e | e in AllExtensions && ExtensionValue(e, route, view).Some? :: ExtensionValue(e, route, view).value
  }

  /** The operation a route starts from: summary and identifier from the route, nothing else set. */
  function BaseOperation(route: Route): Operation
  {
    Operation(map[], [], route.desc, "", route.name, [], NoResponses, false, None)
  }

  /** The slots the method loop fills for `methods`, later entries overwriting earlier ones. */
  function MethodOperations(methods: seq<string>, op: Operation): map<HttpMethod, Operation>
  {
    if methods == [] then map[]
    else
      var ops := MethodOperations(methods[..|methods| - 1], op);
      var m := MethodNamed(methods[|methods| - 1]);
      if m.Some? then ops[m.value := ParsePathItem(op, m.value.Name())] else ops
  }

  /**
   * The method loop fills exactly the slots of the known methods listed, each
   * with the operation under the identifier suffixed by the method's constant.
   */
  lemma {:induction false} MethodOperationsMeaning(methods: seq<string>, op: Operation)
    ensures MethodOperations(methods, op).Keys == set s | s in methods && MethodNamed(s).Some? :: MethodNamed(s).value
    ensures forall m :: m in MethodOperations(methods, op) ==> MethodOperations(methods, op)[m] == ParsePathItem(op, m.Name())
  {
    if methods != [] {
      var init := methods[..|methods| - 1];
      MethodOperationsMeaning(init, op);
      assert methods == init + [methods[|methods| - 1]];
    }
  }

  /** The state the route loop carries from one route to the next. */
  datatype Projection = Projection(
    paths: map<string, nat>,
    items: seq<PathItem>,
    parameters: seq<Parameter>,
    secSchemas: map<string, SecurityScheme>,
    requestBody: RequestBody)

  /** The service a route names, its plugins and its labels; an unknown service is the `IDNotFound` error for kind "service". */
  datatype ServiceView = ServiceView(service: Option<Service>, plugins: Option<PluginMap>, labels: Option<Labels>)

  function LookupService(route: Route, services: Store<Service>, toString: Id -> string): (r: Result<ServiceView>)
    ensures route.serviceId == NoId ==> r == Ok(ServiceView(None, Some(map[]), Some(map[])))
    ensures route.serviceId != NoId ==>
      && (r.Ok? <==> toString(route.serviceId) in services)
      && (r.Err? ==> r.error == IdNotFound("service", route.serviceId))
      && (r.Ok? ==> var s := services[toString(route.serviceId)]; r.value == ServiceView(Some(s), s.plugins, s.labels))
  {
    if route.serviceId == NoId then Ok(ServiceView(None, Some(map[]), Some(map[])))
    else
      var sid := toString(route.serviceId);
      if sid !in services then Err(IdNotFound("service", route.serviceId))
      else Ok(ServiceView(Some(services[sid]), services[sid].plugins, services[sid].labels))
  }

  /** One pass of the route loop for route `index` with path number `n`, when its plugin loops take the orders `o`. */
  function ProjectRouteSpec(route: Route, index: nat, n: nat, state: Projection, services: Store<Service>,
                            upstreams: Store<Upstream>, helpers: Helpers, o: PluginOrder): Result<Projection>
    requires FitsRoute(o, route)
  {
    match LookupService(route, services, helpers.interfaceToString)
    case Err(e) => Err(e)
    case Ok(sv) =>
      match ParseRouteUpstream(route, sv.service, upstreams, helpers.interfaceToString)
      case Err(e) => Err(e)
      case Ok(up) => ProjectResolved(route, index, n, state, sv, up, helpers.mergeJson, o)
  }

  /** The rest of the pass once the service and the upstream are resolved: path keys, plugins, path item. */
  function ProjectResolved(route: Route, index: nat, n: nat, state: Projection, sv: ServiceView, up: ResolvedUpstream,
                           mergeJson: (PluginMap, PluginMap) -> Option<PluginMap>, o: PluginOrder): Result<Projection>
    requires FitsRoute(o, route)
  {
    var params := state.parameters + WildcardParams(RouteUris(route));
    match RoutePlugins(route, params, BaseOperation(route), sv.plugins, state.secSchemas, state.requestBody, mergeJson, o)
    case Err(e) => Err(e)
    case Ok(out) =>
      var item := RouteItem(route, RouteView(up, ParseLabels(route, sv.labels), out.plugins), out);
      Ok(Projection(InsertUris(state.paths, RouteUris(route), index, n), state.items + [item],
                    out.parameters, out.secSchemas, out.requestBody))
  }

  /** The path item of one route: its operation completed with extensions, parameters and responses, once per method. */
  function RouteItem(route: Route, view: RouteView, out: PluginOutput): PathItem
  {
    var op := out.operation.(extensions := RouteExtensions(route, view), parameters := out.parameters, responses := DefaultResponses);
    PathItem(MethodOperations(RouteMethods(route), op))
  }

  /** Some pair of orders the plugin loops of `route` can take (the orders a failing route would have taken). */
  ghost function SomeRouteOrder(route: Route): (o: PluginOrder)
    ensures IsRouteOrder(o, route) && FitsRoute(o, route)
  {
    if route.plugins.Some? && RequestValidation in route.plugins.value then
      PluginOrder(Enumerate(route.plugins.value.Keys), Enumerate(HeaderProperties(route.plugins.value[RequestValidation])))
    else if route.plugins.Some? then PluginOrder(Enumerate(route.plugins.value.Keys), [])
    else PluginOrder([], [])
  }

  /**
   * The body of the route loop of `RouteToOpenAPI3` for route `index`, whose
   * path item is the handle `index`, with path number `n`; `o` is the order its
   * plugin loops took.
   */
  method ProjectRoute(route: Route, index: nat, n: nat, state: Projection,
                      services: Store<Service>, upstreams: Store<Upstream>, helpers: Helpers)
    returns (r: Result<Projection>, ghost o: PluginOrder)
    ensures IsRouteOrder(o, route) && FitsRoute(o, route)
    ensures r == ProjectRouteSpec(route, index, n, state, services, upstreams, helpers, o)
  {
    o := SomeRouteOrder(route);
    var service: Option<Service> := None;
    var servicePlugins: Option<PluginMap> := Some(map[]);
    var serviceLabels: Option<Labels> := Some(map[]);
    if route.serviceId != NoId {
      var sid := helpers.interfaceToString(route.serviceId);
      if sid !in services {
        return Err(IdNotFound("service", route.serviceId)), o;
      }
      service := Some(services[sid]);
      servicePlugins := services[sid].plugins;
      serviceLabels := services[sid].labels;
    }
    assert LookupService(route, services, helpers.interfaceToString) == Ok(ServiceView(service, servicePlugins, serviceLabels));
    var up := ParseRouteUpstream(route, service, upstreams, helpers.interfaceToString);
    if up.Err? {
      return Err(up.error), o;
    }
    var labels := ParseLabels(route, serviceLabels);
    var paths, params := ParseRouteUris(route, state.paths, state.parameters, index, n);
    var out;
    out, o := ParseRoutePlugins(route, params, BaseOperation(route), servicePlugins, state.secSchemas, state.requestBody, helpers.mergeJson);
    if out.Err? {
      return Err(out.error), o;
    }
    var view := RouteView(up.value, labels, out.value.plugins);
    var op := out.value.operation.(extensions := RouteExtensions(route, view), parameters := out.value.parameters,
                                   responses := DefaultResponses);
    var methods := if |route.methods| > 0 then route.methods else AllHttpMethods;
    var ops := FillPathItem(methods, op);
    assert PathItem(ops) == RouteItem(route, view, out.value);
    r := Ok(Projection(paths, state.items + [PathItem(ops)], out.value.parameters, out.value.secSchemas, out.value.requestBody));
  }

  /** The method loop at the end of the route loop: one `ParsePathItem` per listed method the switch knows. */
  method FillPathItem(methods: seq<string>, op: Operation) returns (ops: map<HttpMethod, Operation>)
    ensures ops == MethodOperations(methods, op)
  {
    ops := map[];
    for i := 0 to |methods|
      invariant ops == MethodOperations(methods[..i], op)
    {
      assert methods[..i + 1][..i] == methods[..i];
      var m := MethodNamed(methods[i]);
      if m.Some? {
        ops := ops[m.value := ParsePathItem(op, m.value.Name())];
      }
    }
    assert methods[..|methods|] == methods;
  }

  /**
   * The resolution part of one route: service lookup, upstream, labels and
   * effective plugins, in the order the source performs them.
   */
  function ResolveRoute(route: Route, services: Store<Service>, upstreams: Store<Upstream>, helpers: Helpers): Result<RouteView>
  {
    match LookupService(route, services, helpers.interfaceToString)
    case Err(e) => Err(e)
    case Ok(sv) =>
      match ParseRouteUpstream(route, sv.service, upstreams, helpers.interfaceToString)
      case Err(e) => Err(e)
      case Ok(up) =>
        match EffectivePlugins(route, sv.plugins, helpers.mergeJson)
        case Err(e) => Err(e)
        case Ok(plugins) => Ok(RouteView(up, ParseLabels(route, sv.labels), plugins))
  }

  /**
   * The operations of one route's path item: one slot per known method it
   * lists, each under the route name plus the method as identifier, all
   * sharing summary, extensions, parameters, responses and security.
   */
  ghost predicate RouteOperations(item: PathItem, route: Route, view: RouteView, params: seq<Parameter>)
  {
    && item.operations.Keys == MethodSet(route)
    && forall m :: m in item.operations ==>
         var op := item.operations[m];
         && op.operationId == route.name + m.Name()
         && op.summary == route.desc && op.description == "" && op.tags == [] && !op.deprecated
         && op.extensions == RouteExtensions(route, view)
         && op.parameters == params
         && op.responses == DefaultResponses
         && (route.plugins.Some? <==> op.security.Some?)
         && (route.plugins.Some? ==> multiset(op.security.value) == Requirements(route.plugins.value.Keys))
  }

  /** The path item holds the operations `RouteOperations` describes once the plugin pass kept the base operation. */
  lemma RouteItemOperations(route: Route, view: RouteView, out: PluginOutput)
    requires out.operation == BaseOperation(route).(security := out.operation.security)
    requires route.plugins.None? ==> out.operation.security.None?
    requires route.plugins.Some? ==> out.operation.security.Some? && multiset(out.operation.security.value) == Requirements(route.plugins.value.Keys)
    ensures RouteOperations(RouteItem(route, view, out), route, view, out.parameters)
  {
    var op := out.operation.(extensions := RouteExtensions(route, view), parameters := out.parameters, responses := DefaultResponses);
    MethodOperationsMeaning(RouteMethods(route), op);
  }

  /** The parameter list after `route` was projected onto `before`: wildcard parameters, then header parameters. */
  ghost predicate RouteParams(before: seq<Parameter>, after: seq<Parameter>, route: Route)
  {
    RouteParamsAdded(before + WildcardParams(RouteUris(route)), after, route)
  }

  /** What a successful pass leaves in the loop state. */
  ghost predicate ProjectedRoute(state: Projection, next: Projection, route: Route, index: nat, n: nat, view: RouteView)
  {
    && next.paths == InsertUris(state.paths, RouteUris(route), index, n)
    && |next.items| == |state.items| + 1 && next.items[..|state.items|] == state.items
    && RouteOperations(next.items[|state.items|], route, view, next.parameters)
    && RouteParams(state.parameters, next.parameters, route)
    && next.secSchemas == state.secSchemas + RouteSchemes(route)
    && next.requestBody == RouteRequestBody(state.requestBody, route)
  }

  /** Once service and upstream are resolved, the pass fails exactly when the effective plugins do. */
  lemma ProjectResolvedMeaning(route: Route, index: nat, n: nat, state: Projection, sv: ServiceView, up: ResolvedUpstream,
                               mergeJson: (PluginMap, PluginMap) -> Option<PluginMap>, o: PluginOrder)
    requires IsRouteOrder(o, route) && FitsRoute(o, route)
    ensures var r := ProjectResolved(route, index, n, state, sv, up, mergeJson, o);
      var e := EffectivePlugins(route, sv.plugins, mergeJson);
      && (r.Err? <==> e.Err?)
      && (r.Err? ==> r.error == e.error)
      && (r.Ok? ==> ProjectedRoute(state, r.value, route, index, n, RouteView(up, ParseLabels(route, sv.labels), e.value)))
  {
    var params := state.parameters + WildcardParams(RouteUris(route));
    RoutePluginsMeaning(route, params, BaseOperation(route), sv.plugins, state.secSchemas, state.requestBody, mergeJson, o);
    var out := RoutePlugins(route, params, BaseOperation(route), sv.plugins, state.secSchemas, state.requestBody, mergeJson, o);
    if out.Ok? {
      RouteItemOperations(route, RouteView(up, ParseLabels(route, sv.labels), out.value.plugins), out.value);
    }
  }

  /**
   * Whatever orders its plugin loops take, one route fails exactly when its
   * resolution does, with the same error; otherwise it inserts its path keys,
   * appends its path item, extends the parameters, registers its schemes and
   * sets the request body.
   */
  lemma ProjectRouteMeaning(route: Route, index: nat, n: nat, state: Projection, services: Store<Service>,
                            upstreams: Store<Upstream>, helpers: Helpers, o: PluginOrder)
    requires IsRouteOrder(o, route) && FitsRoute(o, route)
    ensures var r := ProjectRouteSpec(route, index, n, state, services, upstreams, helpers, o);
      var v := ResolveRoute(route, services, upstreams, helpers);
      && (r.Err? <==> v.Err?)
      && (r.Err? ==> r.error == v.error)
      && (r.Ok? ==> ProjectedRoute(state, r.value, route, index, n, v.value))
  {
    var sv := LookupService(route, services, helpers.interfaceToString);
    if sv.Ok? {
      var up := ParseRouteUpstream(route, sv.value.service, upstreams, helpers.interfaceToString);
      if up.Ok? {
        ProjectResolvedMeaning(route, index, n, state, sv.value, up.value, helpers.mergeJson, o);
      }
    }
  }

  /* ---------------------------------------------------------------- the route loop */

  /** The state before the first route: no paths, no parameters, no schemes, an empty request body. */
  const NoProjection := Projection(map[], [], [], map[], RequestBody(None))

  /** `orders` gives each route an order its plugin loops can take. */
  ghost predicate OrdersFor(orders: seq<PluginOrder>, routes: seq<Route>)
  {
    |orders| == |routes| && forall i :: 0 <= i < |routes| ==> IsRouteOrder(orders[i], routes[i]) && FitsRoute(orders[i], routes[i])
  }

  predicate OrdersFit(orders: seq<PluginOrder>, routes: seq<Route>)
  {
    |orders| == |routes| && forall i :: 0 <= i < |routes| ==> FitsRoute(orders[i], routes[i])
  }

  /** The route loop over `routes` when route `i` takes plugin orders `orders[i]`: route `i` has handle `i` and path number `i + 1`. */
  function ProjectRoutes(routes: seq<Route>, services: Store<Service>, upstreams: Store<Upstream>, helpers: Helpers,
                         orders: seq<PluginOrder>): (r: Result<Projection>)
    requires OrdersFit(orders, routes)
    ensures r.Ok? ==> |r.value.items| == |routes|
  {
    if routes == [] then Ok(NoProjection)
    else
      var k := |routes| - 1;
      match ProjectRoutes(routes[..k], services, upstreams, helpers, orders[..k])
      case Err(e) => Err(e)
      case Ok(state) => ProjectRouteSpec(routes[k], k, k + 1, state, services, upstreams, helpers, orders[k])
  }

  /** The document the call returns from the final state: each path key resolves its handle to a path item. */
  function DocumentOf(state: Projection): (doc: Document)
    ensures doc.paths.Keys == set k | k in state.paths && state.paths[k] < |state.items|
    ensures forall k :: k in doc.paths ==> doc.paths[k] == state.items[state.paths[k]]
  {
    var paths := map k | k in state.paths && state.paths[k] < |state.items| :: state.items[state.paths[k]];
    Document(OpenApiVersion, DocInfo(Title, OpenApiVersion), paths, state.secSchemas, state.requestBody)
  }

  /** `RouteToOpenAPI3` when route `i`'s plugin loops take the orders `orders[i]`. */
  function Export(routes: seq<Route>, services: Store<Service>, upstreams: Store<Upstream>, helpers: Helpers,
                  orders: seq<PluginOrder>): Result<Document>
    requires OrdersFit(orders, routes)
  {
    match ProjectRoutes(routes, services, upstreams, helpers, orders)
    case Err(e) => Err(e)
    case Ok(state) => Ok(DocumentOf(state))
  }

  /** A failure in the first `i` routes is the failure of the whole loop. */
  lemma ProjectRoutesErrExtends(routes: seq<Route>, i: nat, services: Store<Service>, upstreams: Store<Upstream>,
                                helpers: Helpers, orders: seq<PluginOrder>)
    requires OrdersFit(orders, routes) && i <= |routes|
    requires ProjectRoutes(routes[..i], services, upstreams, helpers, orders[..i]).Err?
    ensures ProjectRoutes(routes, services, upstreams, helpers, orders) == ProjectRoutes(routes[..i], services, upstreams, helpers, orders[..i])
  {
    PrefixProjected(routes, services, upstreams, helpers, orders, i);
    PrefixProjected(routes, services, upstreams, helpers, orders, |routes|);
    forall j | i <= j < |routes| && PrefixProjection(routes, services, upstreams, helpers, orders, j).Err?
      ensures PrefixProjection(routes, services, upstreams, helpers, orders, j + 1) == PrefixProjection(routes, services, upstreams, helpers, orders, j)
    {
      PrefixErrStep(routes, j, services, upstreams, helpers, orders);
    }
    ErrChain(j => PrefixProjection(routes, services, upstreams, helpers, orders, j), i, |routes|);
  }

  /** The route loop over the first `j` routes, when the orders fit them. */
  ghost function PrefixProjection(routes: seq<Route>, services: Store<Service>, upstreams: Store<Upstream>, helpers: Helpers,
                                  orders: seq<PluginOrder>, j: nat): Result<Projection>
  {
    if j <= |routes| && j <= |orders| && OrdersFit(orders[..j], routes[..j]) then ProjectRoutes(routes[..j], services, upstreams, helpers, orders[..j])
    else Ok(NoProjection)
  }

  lemma PrefixProjected(routes: seq<Route>, services: Store<Service>, upstreams: Store<Upstream>, helpers: Helpers,
                        orders: seq<PluginOrder>, j: nat)
    requires OrdersFit(orders, routes) && j <= |routes|
    ensures OrdersFit(orders[..j], routes[..j])
    ensures PrefixProjection(routes, services, upstreams, helpers, orders, j) == ProjectRoutes(routes[..j], services, upstreams, helpers, orders[..j])
    ensures j == |routes| ==> routes[..j] == routes && orders[..j] == orders
  {
  }

  lemma PrefixErrStep(routes: seq<Route>, j: nat, services: Store<Service>, upstreams: Store<Upstream>,
                      helpers: Helpers, orders: seq<PluginOrder>)
    requires OrdersFit(orders, routes) && j < |routes|
    requires PrefixProjection(routes, services, upstreams, helpers, orders, j).Err?
    ensures PrefixProjection(routes, services, upstreams, helpers, orders, j + 1) == PrefixProjection(routes, services, upstreams, helpers, orders, j)
  {
    PrefixProjected(routes, services, upstreams, helpers, orders, j);
    ProjectRoutesErrStep(routes, j, services, upstreams, helpers, orders);
  }

  /** Once a chain of results reaches an error that each next link keeps, it ends at that error. */
  lemma {:induction false} ErrChain<T>(p: nat -> Result<T>, i: nat, n: nat)
    requires i <= n && p(i).Err?
    requires forall j :: i <= j < n && p(j).Err? ==> p(j + 1) == p(j)
    ensures p(n) == p(i)
    decreases n - i
  {
    if i < n {
      ErrChain(p, i + 1, n);
    }
  }

  /** A failure of the first `j` routes is the failure of the first `j + 1`. */
  lemma ProjectRoutesErrStep(routes: seq<Route>, j: nat, services: Store<Service>, upstreams: Store<Upstream>,
                             helpers: Helpers, orders: seq<PluginOrder>)
    requires OrdersFit(orders, routes) && j < |routes|
    requires ProjectRoutes(routes[..j], services, upstreams, helpers, orders[..j]).Err?
    ensures OrdersFit(orders[..j + 1], routes[..j + 1])
    ensures ProjectRoutes(routes[..j + 1], services, upstreams, helpers, orders[..j + 1])
         == ProjectRoutes(routes[..j], services, upstreams, helpers, orders[..j])
  {
    assert routes[..j + 1][..j] == routes[..j] && orders[..j + 1][..j] == orders[..j];
  }

  /** Some orders for every route, to complete the orders of a loop that stopped early. */
  ghost function SomeOrders(routes: seq<Route>): (orders: seq<PluginOrder>)
    ensures OrdersFor(orders, routes)
  {
    if routes == [] then []
    else
      var init, last := routes[..|routes| - 1], routes[|routes| - 1];
      OrdersConcat(SomeOrders(init), init, [SomeRouteOrder(last)], [last]);
      InitLast(routes);
      SomeOrders(init) + [SomeRouteOrder(last)]
  }

  /**
   * `RouteToOpenAPI3`: one pass over the routes in order with a fresh
   * counter; the paths map, the parameter list, the security schemes and the
   * request body are shared by all routes of the call. `orders` are the orders
   * the plugin loops took; whatever they were, the result is a projection.
   */
  method RouteToOpenAPI3(routes: seq<Route>, services: Store<Service>, upstreams: Store<Upstream>, helpers: Helpers)
    returns (r: Result<Document>, ghost orders: seq<PluginOrder>)
    ensures OrdersFor(orders, routes) && OrdersFit(orders, routes)
    ensures r == Export(routes, services, upstreams, helpers, orders)
    ensures IsProjection(routes, services, upstreams, helpers, r)
  {
    var state := NoProjection;
    var counter := new PathCounter();
    orders := [];
    for i := 0 to |routes|
      invariant counter.count == i
      invariant OrdersFor(orders, routes[..i]) && OrdersFit(orders, routes[..i])
      invariant ProjectRoutes(routes[..i], services, upstreams, helpers, orders) == Ok(state)
    {
      var n := counter.Next();
      var next;
      ghost var o;
      next, o := ProjectRoute(routes[i], i, n, state, services, upstreams, helpers);
      if next.Err? {
        OrdersExtend(orders, routes, i, o);
        orders := RouteLoopExit(routes, i, services, upstreams, helpers, orders, state, o);
        return Err(next.error), orders;
      }
      OrdersExtend(orders, routes, i, o);
      RouteLoopStep(routes, i, services, upstreams, helpers, orders, state, o);
      orders := orders + [o];
      state := next.value;
    }
    TakeAll(routes);
    r := Ok(DocumentOf(state));
    ExportMeaning(routes, services, upstreams, helpers, orders);
  }

  /** The orders of the first `i` routes and an order of route `i` are orders of the first `i + 1`. */
  lemma OrdersExtend(orders: seq<PluginOrder>, routes: seq<Route>, i: nat, o: PluginOrder)
    requires i < |routes| && OrdersFor(orders, routes[..i])
    requires IsRouteOrder(o, routes[i]) && FitsRoute(o, routes[i])
    ensures OrdersFor(orders + [o], routes[..i + 1]) && OrdersFit(orders + [o], routes[..i + 1])
  {
    forall j | 0 <= j <= i
      ensures IsRouteOrder((orders + [o])[j], routes[..i + 1][j]) && FitsRoute((orders + [o])[j], routes[..i + 1][j])
    {
      if j < i {
        assert (orders + [o])[j] == orders[j] && routes[..i + 1][j] == routes[..i][j];
      }
    }
  }

  /** Orders of two lists of routes are orders of the concatenation. */
  lemma OrdersConcat(o1: seq<PluginOrder>, r1: seq<Route>, o2: seq<PluginOrder>, r2: seq<Route>)
    requires OrdersFor(o1, r1) && OrdersFor(o2, r2)
    ensures OrdersFor(o1 + o2, r1 + r2) && OrdersFit(o1 + o2, r1 + r2)
  {
    forall j | 0 <= j < |r1| + |r2|
      ensures IsRouteOrder((o1 + o2)[j], (r1 + r2)[j]) && FitsRoute((o1 + o2)[j], (r1 + r2)[j])
    {
      if j < |r1| {
        assert (o1 + o2)[j] == o1[j] && (r1 + r2)[j] == r1[j];
      } else {
        assert (o1 + o2)[j] == o2[j - |r1|] && (r1 + r2)[j] == r2[j - |r1|];
      }
    }
  }

  /** One successful pass extends the loop by route `i`. */
  lemma RouteLoopStep(routes: seq<Route>, i: nat, services: Store<Service>, upstreams: Store<Upstream>, helpers: Helpers,
                      orders: seq<PluginOrder>, state: Projection, o: PluginOrder)
    requires i < |routes| && OrdersFit(orders, routes[..i]) && OrdersFit(orders + [o], routes[..i + 1])
    requires ProjectRoutes(routes[..i], services, upstreams, helpers, orders) == Ok(state)
    ensures FitsRoute(o, routes[i])
    ensures ProjectRoutes(routes[..i + 1], services, upstreams, helpers, orders + [o])
         == ProjectRouteSpec(routes[i], i, i + 1, state, services, upstreams, helpers, o)
  {
    TakeTake(routes, i, i + 1);
    TakeSnoc(orders, o);
    assert routes[..i + 1][i] == routes[i] && (orders + [o])[i] == o;
  }

  /**
   * A pass that fails ends the loop with its error: completed by any orders for
   * the routes not reached, the orders give that error and a projection.
   */
  lemma RouteLoopExit(routes: seq<Route>, i: nat, services: Store<Service>, upstreams: Store<Upstream>, helpers: Helpers,
                      orders: seq<PluginOrder>, state: Projection, o: PluginOrder)
    returns (full: seq<PluginOrder>)
    requires i < |routes| && OrdersFor(orders, routes[..i]) && OrdersFit(orders, routes[..i])
    requires ProjectRoutes(routes[..i], services, upstreams, helpers, orders) == Ok(state)
    requires IsRouteOrder(o, routes[i]) && FitsRoute(o, routes[i])
    requires ProjectRouteSpec(routes[i], i, i + 1, state, services, upstreams, helpers, o).Err?
    ensures OrdersFor(full, routes) && OrdersFit(full, routes)
    ensures Export(routes, services, upstreams, helpers, full) == Err(ProjectRouteSpec(routes[i], i, i + 1, state, services, upstreams, helpers, o).error)
    ensures IsProjection(routes, services, upstreams, helpers, Export(routes, services, upstreams, helpers, full))
  {
    OrdersExtend(orders, routes, i, o);
    RouteLoopStep(routes, i, services, upstreams, helpers, orders, state, o);
    var rest := SomeOrders(routes[i + 1..]);
    full := orders + [o] + rest;
    SplitAt(routes, i + 1);
    OrdersConcat(orders + [o], routes[..i + 1], rest, routes[i + 1..]);
    assert full[..i + 1] == orders + [o];
    ProjectRoutesErrExtends(routes, i + 1, services, upstreams, helpers, full);
    ExportMeaning(routes, services, upstreams, helpers, full);
  }

  /* ---------------------------------------------------------------- what the loop computes */

  /** The first failing route's error, in route order. */
  function FirstRouteError(routes: seq<Route>, services: Store<Service>, upstreams: Store<Upstream>, helpers: Helpers): Option<Error>
  {
    if routes == [] then None
    else
      var earlier := FirstRouteError(routes[..|routes| - 1], services, upstreams, helpers);
      if earlier.Some? then earlier
      else
        match ResolveRoute(routes[|routes| - 1], services, upstreams, helpers)
        case Err(e) => Some(e)
        case Ok(_) => None
  }

  /** Security schemes registered by all routes. */
  function SchemesOf(routes: seq<Route>): map<string, SecurityScheme>
  {
    if routes == [] then map[] else SchemesOf(routes[..|routes| - 1]) + RouteSchemes(routes[|routes| - 1])
  }

  /** The shared request body after all routes: the last `body_schema` wins. */
  function RequestBodyOf(routes: seq<Route>): RequestBody
  {
    if routes == [] then RequestBody(None) else RouteRequestBody(RequestBodyOf(routes[..|routes| - 1]), routes[|routes| - 1])
  }

  /** The parameter list route `i` starts from. */
  function ParamsBefore(ps: seq<seq<Parameter>>, i: nat): seq<Parameter>
    requires i <= |ps|
  {
    if i == 0 then [] else ps[i - 1]
  }

  /** `ps[i]` is the shared parameter list as route `i` leaves it. */
  ghost predicate ParamsChain(routes: seq<Route>, ps: seq<seq<Parameter>>)
  {
    && |ps| == |routes|
    && forall i :: 0 <= i < |routes| ==> RouteParams(ParamsBefore(ps, i), ps[i], routes[i])
  }

  /** `item` is the path item of `route`, which resolves, with the parameter list `params`. */
  ghost predicate RouteProjected(item: PathItem, route: Route, services: Store<Service>, upstreams: Store<Upstream>,
                                 helpers: Helpers, params: seq<Parameter>)
  {
    && ResolveRoute(route, services, upstreams, helpers).Ok?
    && RouteOperations(item, route, ResolveRoute(route, services, upstreams, helpers).value, params)
  }

  /** The parts of the final state all routes share: path handles, one item per route, schemes and request body. */
  ghost predicate SharedProjected(routes: seq<Route>, state: Projection)
  {
    && state.paths == PathHandles(routes)
    && |state.items| == |routes|
    && state.secSchemas == SchemesOf(routes)
    && state.requestBody == RequestBodyOf(routes)
  }

  /** Item `i` of `state` is the path item of route `i`, with parameter list `ps[i]`. */
  ghost predicate ItemsProjected(routes: seq<Route>, services: Store<Service>, upstreams: Store<Upstream>, helpers: Helpers,
                                 state: Projection, ps: seq<seq<Parameter>>)
  {
    && |state.items| == |routes| && |ps| == |routes|
    && forall i :: 0 <= i < |routes| ==> RouteProjected(state.items[i], routes[i], services, upstreams, helpers, ps[i])
  }

  /** What a successful route loop leaves: the shared parts, the parameter lists `ps` and one path item per route. */
  ghost predicate ProjectedAll(routes: seq<Route>, services: Store<Service>, upstreams: Store<Upstream>, helpers: Helpers,
                               state: Projection, ps: seq<seq<Parameter>>)
  {
    && SharedProjected(routes, state)
    && ParamsChain(routes, ps)
    && state.parameters == ParamsBefore(ps, |routes|)
    && ItemsProjected(routes, services, upstreams, helpers, state, ps)
  }

  /**
   * Whatever orders the plugin loops take, the route loop fails exactly when
   * some route's resolution fails, with the first such error; otherwise it
   * leaves what `ProjectedAll` describes, `ps` being the parameter lists.
   */
  lemma {:induction false} ProjectRoutesMeaning(routes: seq<Route>, services: Store<Service>, upstreams: Store<Upstream>,
                                                helpers: Helpers, orders: seq<PluginOrder>)
    returns (ps: seq<seq<Parameter>>)
    requires OrdersFor(orders, routes) && OrdersFit(orders, routes)
    ensures var r := ProjectRoutes(routes, services, upstreams, helpers, orders);
      && (r.Err? <==> FirstRouteError(routes, services, upstreams, helpers).Some?)
      && (r.Err? ==> FirstRouteError(routes, services, upstreams, helpers) == Some(r.error))
      && (r.Ok? ==> ProjectedAll(routes, services, upstreams, helpers, r.value, ps))
  {
    ps := [];
    if routes == [] {
      assert ProjectedAll(routes, services, upstreams, helpers, NoProjection, ps);
      return;
    }
    var k := |routes| - 1;
    var init, last := routes[..k], routes[k];
    var before := ProjectRoutesMeaning(init, services, upstreams, helpers, orders[..k]);
    var prev := ProjectRoutes(init, services, upstreams, helpers, orders[..k]);
    if prev.Ok? {
      var state := prev.value;
      ProjectRouteMeaning(last, k, k + 1, state, services, upstreams, helpers, orders[k]);
      var next := ProjectRouteSpec(last, k, k + 1, state, services, upstreams, helpers, orders[k]);
      if next.Ok? {
        ps := before + [next.value.parameters];
        ProjectedAllStep(routes, services, upstreams, helpers, state, next.value, before);
      }
    }
  }

  /** The induction step of `ProjectRoutesMeaning` for a successful last route. */
  lemma ProjectedAllStep(routes: seq<Route>, services: Store<Service>, upstreams: Store<Upstream>, helpers: Helpers,
                         state: Projection, next: Projection, before: seq<seq<Parameter>>)
    requires routes != []
    requires ProjectedAll(routes[..|routes| - 1], services, upstreams, helpers, state, before)
    requires ResolveRoute(routes[|routes| - 1], services, upstreams, helpers).Ok?
    requires ProjectedRoute(state, next, routes[|routes| - 1], |routes| - 1, |routes|,
                            ResolveRoute(routes[|routes| - 1], services, upstreams, helpers).value)
    ensures ProjectedAll(routes, services, upstreams, helpers, next, before + [next.parameters])
  {
    StepShared(routes, services, upstreams, helpers, state, next, before);
    StepChain(routes, services, upstreams, helpers, state, next, before);
    StepParameters(routes, services, upstreams, helpers, state, next, before);
    StepRoutesProjected(routes, services, upstreams, helpers, state, next, before);
  }

  lemma StepShared(routes: seq<Route>, services: Store<Service>, upstreams: Store<Upstream>, helpers: Helpers,
                         state: Projection, next: Projection, before: seq<seq<Parameter>>)
    requires routes != []
    requires ProjectedAll(routes[..|routes| - 1], services, upstreams, helpers, state, before)
    requires ResolveRoute(routes[|routes| - 1], services, upstreams, helpers).Ok?
    requires ProjectedRoute(state, next, routes[|routes| - 1], |routes| - 1, |routes|,
                            ResolveRoute(routes[|routes| - 1], services, upstreams, helpers).value)
    ensures SharedProjected(routes, next)
  {
    StepPaths(routes, services, upstreams, helpers, state, next, before);
    StepSchemes(routes, services, upstreams, helpers, state, next, before);
    StepBody(routes, services, upstreams, helpers, state, next, before);
  }

  lemma StepChain(routes: seq<Route>, services: Store<Service>, upstreams: Store<Upstream>, helpers: Helpers,
                         state: Projection, next: Projection, before: seq<seq<Parameter>>)
    requires routes != []
    requires ProjectedAll(routes[..|routes| - 1], services, upstreams, helpers, state, before)
    requires ResolveRoute(routes[|routes| - 1], services, upstreams, helpers).Ok?
    requires ProjectedRoute(state, next, routes[|routes| - 1], |routes| - 1, |routes|,
                            ResolveRoute(routes[|routes| - 1], services, upstreams, helpers).value)
    ensures ParamsChain(routes, before + [next.parameters])
  {
    StepChainLast(routes, services, upstreams, helpers, state, next, before);
    StepChainInit(routes, services, upstreams, helpers, state, next, before);
  }

  lemma StepPaths(routes: seq<Route>, services: Store<Service>, upstreams: Store<Upstream>, helpers: Helpers,
                         state: Projection, next: Projection, before: seq<seq<Parameter>>)
    requires routes != []
    requires ProjectedAll(routes[..|routes| - 1], services, upstreams, helpers, state, before)
    requires ResolveRoute(routes[|routes| - 1], services, upstreams, helpers).Ok?
    requires ProjectedRoute(state, next, routes[|routes| - 1], |routes| - 1, |routes|,
                            ResolveRoute(routes[|routes| - 1], services, upstreams, helpers).value)
    ensures next.paths == PathHandles(routes)
  {
  }

  lemma StepSchemes(routes: seq<Route>, services: Store<Service>, upstreams: Store<Upstream>, helpers: Helpers,
                         state: Projection, next: Projection, before: seq<seq<Parameter>>)
    requires routes != []
    requires ProjectedAll(routes[..|routes| - 1], services, upstreams, helpers, state, before)
    requires ResolveRoute(routes[|routes| - 1], services, upstreams, helpers).Ok?
    requires ProjectedRoute(state, next, routes[|routes| - 1], |routes| - 1, |routes|,
                            ResolveRoute(routes[|routes| - 1], services, upstreams, helpers).value)
    ensures |next.items| == |routes| && next.secSchemas == SchemesOf(routes)
  {
  }

  lemma StepBody(routes: seq<Route>, services: Store<Service>, upstreams: Store<Upstream>, helpers: Helpers,
                         state: Projection, next: Projection, before: seq<seq<Parameter>>)
    requires routes != []
    requires ProjectedAll(routes[..|routes| - 1], services, upstreams, helpers, state, before)
    requires ResolveRoute(routes[|routes| - 1], services, upstreams, helpers).Ok?
    requires ProjectedRoute(state, next, routes[|routes| - 1], |routes| - 1, |routes|,
                            ResolveRoute(routes[|routes| - 1], services, upstreams, helpers).value)
    ensures next.requestBody == RequestBodyOf(routes)
  {
  }

  lemma StepParameters(routes: seq<Route>, services: Store<Service>, upstreams: Store<Upstream>, helpers: Helpers,
                         state: Projection, next: Projection, before: seq<seq<Parameter>>)
    requires routes != []
    requires ProjectedAll(routes[..|routes| - 1], services, upstreams, helpers, state, before)
    requires ResolveRoute(routes[|routes| - 1], services, upstreams, helpers).Ok?
    requires ProjectedRoute(state, next, routes[|routes| - 1], |routes| - 1, |routes|,
                            ResolveRoute(routes[|routes| - 1], services, upstreams, helpers).value)
    ensures next.parameters == ParamsBefore(before + [next.parameters], |routes|)
  {
  }

  lemma StepChainLast(routes: seq<Route>, services: Store<Service>, upstreams: Store<Upstream>, helpers: Helpers,
                         state: Projection, next: Projection, before: seq<seq<Parameter>>)
    requires routes != []
    requires ProjectedAll(routes[..|routes| - 1], services, upstreams, helpers, state, before)
    requires ResolveRoute(routes[|routes| - 1], services, upstreams, helpers).Ok?
    requires ProjectedRoute(state, next, routes[|routes| - 1], |routes| - 1, |routes|,
                            ResolveRoute(routes[|routes| - 1], services, upstreams, helpers).value)
    ensures RouteParams(ParamsBefore((before + [next.parameters]), |routes| - 1), next.parameters, routes[|routes| - 1])
  {
  }

  lemma StepChainInit(routes: seq<Route>, services: Store<Service>, upstreams: Store<Upstream>, helpers: Helpers,
                         state: Projection, next: Projection, before: seq<seq<Parameter>>)
    requires routes != []
    requires ProjectedAll(routes[..|routes| - 1], services, upstreams, helpers, state, before)
    requires ResolveRoute(routes[|routes| - 1], services, upstreams, helpers).Ok?
    requires ProjectedRoute(state, next, routes[|routes| - 1], |routes| - 1, |routes|,
                            ResolveRoute(routes[|routes| - 1], services, upstreams, helpers).value)
    ensures forall i :: 0 <= i < |routes| - 1 ==> RouteParams(ParamsBefore((before + [next.parameters]), i), (before + [next.parameters])[i], routes[i])
  {
  }

  lemma StepRoutesProjected(routes: seq<Route>, services: Store<Service>, upstreams: Store<Upstream>, helpers: Helpers,
                         state: Projection, next: Projection, before: seq<seq<Parameter>>)
    requires routes != []
    requires ProjectedAll(routes[..|routes| - 1], services, upstreams, helpers, state, before)
    requires ResolveRoute(routes[|routes| - 1], services, upstreams, helpers).Ok?
    requires ProjectedRoute(state, next, routes[|routes| - 1], |routes| - 1, |routes|,
                            ResolveRoute(routes[|routes| - 1], services, upstreams, helpers).value)
    ensures ItemsProjected(routes, services, upstreams, helpers, next, before + [next.parameters])
  {
    StepItemsInit(routes, services, upstreams, helpers, state, next, before);
    StepItemLast(routes, services, upstreams, helpers, state, next, before);
    var k, ps := |routes| - 1, before + [next.parameters];
    forall i | 0 <= i < |routes| ensures RouteProjected(next.items[i], routes[i], services, upstreams, helpers, ps[i]) {
      if i == k {
        assert ps[k] == next.parameters;
      }
    }
  }

  lemma StepItemsInit(routes: seq<Route>, services: Store<Service>, upstreams: Store<Upstream>, helpers: Helpers,
                         state: Projection, next: Projection, before: seq<seq<Parameter>>)
    requires routes != []
    requires ProjectedAll(routes[..|routes| - 1], services, upstreams, helpers, state, before)
    requires ResolveRoute(routes[|routes| - 1], services, upstreams, helpers).Ok?
    requires ProjectedRoute(state, next, routes[|routes| - 1], |routes| - 1, |routes|,
                            ResolveRoute(routes[|routes| - 1], services, upstreams, helpers).value)
    ensures forall i :: 0 <= i < |routes| - 1 ==> RouteProjected(next.items[i], routes[i], services, upstreams, helpers, (before + [next.parameters])[i])
  {
    var k, ps := |routes| - 1, before + [next.parameters];
    forall i | 0 <= i < k ensures RouteProjected(next.items[i], routes[i], services, upstreams, helpers, ps[i]) {
      assert next.items[i] == state.items[i] && routes[i] == routes[..k][i] && ps[i] == before[i];
    }
  }

  lemma StepItemLast(routes: seq<Route>, services: Store<Service>, upstreams: Store<Upstream>, helpers: Helpers,
                         state: Projection, next: Projection, before: seq<seq<Parameter>>)
    requires routes != []
    requires ProjectedAll(routes[..|routes| - 1], services, upstreams, helpers, state, before)
    requires ResolveRoute(routes[|routes| - 1], services, upstreams, helpers).Ok?
    requires ProjectedRoute(state, next, routes[|routes| - 1], |routes| - 1, |routes|,
                            ResolveRoute(routes[|routes| - 1], services, upstreams, helpers).value)
    ensures RouteProjected(next.items[|routes| - 1], routes[|routes| - 1], services, upstreams, helpers, next.parameters)
  {
  }

  /** What `RouteToOpenAPI3` returns for `routes`, whatever orders its plugin loops take. */
  ghost predicate IsProjection(routes: seq<Route>, services: Store<Service>, upstreams: Store<Upstream>, helpers: Helpers, r: Result<Document>)
  {
    && (r.Err? <==> FirstRouteError(routes, services, upstreams, helpers).Some?)
    && (r.Err? ==> FirstRouteError(routes, services, upstreams, helpers) == Some(r.error))
    && (r.Ok? ==>
         var doc := r.value;
         && doc.openapi == OpenApiVersion
         && doc.info == DocInfo(Title, OpenApiVersion)
         && doc.paths.Keys == PathHandles(routes).Keys
         && doc.securitySchemes == SchemesOf(routes)
         && doc.sharedRequestBody == RequestBodyOf(routes)
         && exists ps :: ParamsChain(routes, ps) && forall k :: k in doc.paths ==>
              var i := PathHandles(routes)[k];
              i < |routes| && RouteProjected(doc.paths[k], routes[i], services, upstreams, helpers, ps[i]))
  }

  /** The document of any run of the route loop is a projection of the routes. */
  lemma ExportMeaning(routes: seq<Route>, services: Store<Service>, upstreams: Store<Upstream>, helpers: Helpers,
                      orders: seq<PluginOrder>)
    requires OrdersFor(orders, routes) && OrdersFit(orders, routes)
    ensures IsProjection(routes, services, upstreams, helpers, Export(routes, services, upstreams, helpers, orders))
  {
    var ps := ProjectRoutesMeaning(routes, services, upstreams, helpers, orders);
    var r := ProjectRoutes(routes, services, upstreams, helpers, orders);
    if r.Ok? {
      PathHandlesBounded(routes);
      var doc := DocumentOf(r.value);
      assert doc.paths.Keys == PathHandles(routes).Keys;
      assert ParamsChain(routes, ps);
      forall k | k in doc.paths
        ensures PathHandles(routes)[k] < |routes| && RouteProjected(doc.paths[k], routes[PathHandles(routes)[k]], services, upstreams, helpers, ps[PathHandles(routes)[k]])
      {
        var i := PathHandles(routes)[k];
        assert doc.paths[k] == r.value.items[i];
      }
    }
  }

  /** A scheme appears in the document exactly when some route has the matching authentication plugin. */
  lemma SchemesOfNames(routes: seq<Route>)
    ensures SchemesOf(routes).Keys <= {"api_key", "basicAuth", "bearerAuth"}
    ensures ("api_key" in SchemesOf(routes)) <==> exists i :: 0 <= i < |routes| && routes[i].plugins.Some? && KeyAuth in routes[i].plugins.value
    ensures ("basicAuth" in SchemesOf(routes)) <==> exists i :: 0 <= i < |routes| && routes[i].plugins.Some? && BasicAuth in routes[i].plugins.value
    ensures ("bearerAuth" in SchemesOf(routes)) <==> exists i :: 0 <= i < |routes| && routes[i].plugins.Some? && JwtAuth in routes[i].plugins.value
  {
    SchemesOfKeys(routes);
    SchemeNamed(routes, "api_key", KeyAuth);
    SchemeNamed(routes, "basicAuth", BasicAuth);
    SchemeNamed(routes, "bearerAuth", JwtAuth);
  }

  /** Only the three scheme names ever appear. */
  lemma {:induction false} SchemesOfKeys(routes: seq<Route>)
    ensures SchemesOf(routes).Keys <= {"api_key", "basicAuth", "bearerAuth"}
  {
    if routes != [] {
      SchemesOfKeys(routes[..|routes| - 1]);
    }
  }

  /** One scheme name is present exactly when some route has its plugin. */
  lemma {:induction false} SchemeNamed(routes: seq<Route>, name: string, plugin: string)
    requires || (name == "api_key" && plugin == KeyAuth)
             || (name == "basicAuth" && plugin == BasicAuth)
             || (name == "bearerAuth" && plugin == JwtAuth)
    ensures (name in SchemesOf(routes)) <==> exists i :: 0 <= i < |routes| && routes[i].plugins.Some? && plugin in routes[i].plugins.value
  {
    if routes != [] {
      var init := routes[..|routes| - 1];
      var last := routes[|routes| - 1];
      SchemeNamed(init, name, plugin);
      assert (name in RouteSchemes(last)) <==> last.plugins.Some? && plugin in last.plugins.value;
      if name in SchemesOf(routes) {
        if name in SchemesOf(init) {
          var i :| 0 <= i < |init| && init[i].plugins.Some? && plugin in init[i].plugins.value;
          assert routes[i] == init[i];
        } else {
          assert routes[|routes| - 1] == last;
        }
      } else {
        forall i | 0 <= i < |routes| ensures !(routes[i].plugins.Some? && plugin in routes[i].plugins.value) {
          if i < |init| {
            assert routes[i] == init[i];
          }
        }
      }
    }
  }

  /* ---------------------------------------------------------------- entry points */

  /** The routes named by `ids`, in order; the first missing one is reported (under the kind "upstream", as written). */
  function SelectRoutes(ids: seq<string>, routeStore: Store<Route>): (r: Result<seq<Route>>)
  {
    if ids == [] then Ok([])
    else
      var k := |ids| - 1;
      match SelectRoutes(ids[..k], routeStore)
      case Err(e) => Err(e)
      case Ok(routes) => if ids[k] in routeStore then Ok(routes + [routeStore[ids[k]]]) else Err(IdNotFound("upstream", StrId(ids[k])))
  }

  /** Selection succeeds exactly when every id is stored, yields the stored routes in order, and otherwise names the first missing id. */
  lemma {:induction false} SelectRoutesMeaning(ids: seq<string>, routeStore: Store<Route>)
    ensures var r := SelectRoutes(ids, routeStore);
      && (r.Ok? <==> forall i :: 0 <= i < |ids| ==> ids[i] in routeStore)
      && (r.Ok? ==> |r.value| == |ids| && forall i :: 0 <= i < |ids| ==> r.value[i] == routeStore[ids[i]])
      && (r.Err? ==> exists i :: 0 <= i < |ids| && ids[i] !in routeStore && (forall j :: 0 <= j < i ==> ids[j] in routeStore)
                                && r.error == IdNotFound("upstream", StrId(ids[i])))
  {
    if ids != [] {
      var k := |ids| - 1;
      SelectRoutesMeaning(ids[..k], routeStore);
      assert forall i :: 0 <= i < k ==> ids[..k][i] == ids[i];
    }
  }

  /** `ExportRoutes`: an empty id string is refused; otherwise the comma-separated routes are projected. */
  method ExportRoutes(ids: string, routeStore: Store<Route>, services: Store<Service>, upstreams: Store<Upstream>, helpers: Helpers)
    returns (r: Result<Document>)
    ensures ids == "" ==> r == Err(ParameterIdMissing)
    ensures ids != "" ==>
      var selected := SelectRoutes(Split(ids, ','), routeStore);
      && (selected.Err? ==> r == Err(selected.error))
      && (selected.Ok? ==> IsProjection(selected.value, services, upstreams, helpers, r))
  {
    if ids == "" {
      return Err(ParameterIdMissing);
    }
    var parts := Split(ids, ',');
    var routes: seq<Route> := [];
    for i := 0 to |parts|
      invariant SelectRoutes(parts[..i], routeStore) == Ok(routes)
    {
      assert parts[..i + 1][..i] == parts[..i];
      if parts[i] !in routeStore {
        SelectRoutesErrExtends(parts, i + 1, routeStore);
        return Err(IdNotFound("upstream", StrId(parts[i])));
      }
      routes := routes + [routeStore[parts[i]]];
    }
    assert parts[..|parts|] == parts;
    ghost var orders;
    r, orders := RouteToOpenAPI3(routes, services, upstreams, helpers);
  }

  /** A missing id among the first `i` decides the selection. */
  lemma {:induction false} SelectRoutesErrExtends(ids: seq<string>, i: nat, routeStore: Store<Route>)
    requires i <= |ids| && SelectRoutes(ids[..i], routeStore).Err?
    ensures SelectRoutes(ids, routeStore) == SelectRoutes(ids[..i], routeStore)
    decreases |ids|
  {
    if i < |ids| {
      var k := |ids| - 1;
      assert ids[..k][..i] == ids[..i];
      SelectRoutesErrExtends(ids[..k], i, routeStore);
    } else {
      assert ids[..i] == ids;
    }
  }

  /**
   * `ExportAllRoutes`: a store error is returned unchanged, an empty store is
   * refused, otherwise every listed route is projected.
   */
  method ExportAllRoutes(rows: Result<seq<Route>>, services: Store<Service>, upstreams: Store<Upstream>, helpers: Helpers)
    returns (r: Result<Document>)
    ensures rows.Err? ==> r == Err(rows.error)
    ensures rows.Ok? && |rows.value| == 0 ==> r == Err(RouteDataMissing)
    ensures rows.Ok? && |rows.value| > 0 ==> IsProjection(rows.value, services, upstreams, helpers, r)
  {
    if rows.Err? {
      return Err(rows.error);
    }
    if |rows.value| < 1 {
      return Err(RouteDataMissing);
    }
    var routes: seq<Route> := [];
    for i := 0 to |rows.value|
      invariant routes == rows.value[..i]
    {
      routes := routes + [rows.value[i]];
    }
    assert routes == rows.value;
    ghost var orders;
    r, orders := RouteToOpenAPI3(routes, services, upstreams, helpers);
  }
}
