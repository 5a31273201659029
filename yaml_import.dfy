/**
 * The YAML loader's `Import`: records already decoded from the bundle
 * become the entity data sets. An inline upstream is taken over only when
 * the record has no `upstream_id`; a referenced upstream keeps only the
 * reference.
 */
module YamlImport {
  import opened Wrappers
  import opened Entity
  import opened Errors

  /** The panic on a nil input. */
  const InputNil := "input is nil"
  /** The panic of indexing the first route of an empty route list. */
  const IndexOutOfRange := "index out of range [0] with length 0"

  /** The panic on an input that is not a byte slice, naming the input's kind. */
  function InputNotBytes(kind: string): string
  {
    "input format error: expected []byte but it is " + kind
  }

  /** What `Import` is handed: nil, a byte slice, or a value of some other kind. */
  datatype Input = NilInput | Bytes(data: seq<bv8>) | OtherInput(kind: string)

  /** `entity.RouteImport`: a route as it appears in the bundle. */
  datatype RouteImport = RouteImport(
    id: Id,
    createTime: int,
    updateTime: int,
    uri: string,
    uris: Option<seq<string>>,
    name: string,
    desc: string,
    priority: int,
    methods: seq<string>,
    host: string,
    hosts: Option<seq<string>>,
    remoteAddr: string,
    remoteAddrs: Option<seq<string>>,
    vars: Option<seq<Json>>,
    filterFunc: string,
    script: Json,
    scriptId: Json,
    plugins: Option<PluginMap>,
    pluginConfigId: Json,
    upstream: Option<UpstreamDef>,
    serviceId: Id,
    upstreamId: Id,
    serviceProtocol: string,
    labels: Option<Labels>,
    enableWebsocket: bool,
    status: Status)

  /** `entity.UpstreamImport`: identifier and times, with the upstream definition embedded. */
  datatype UpstreamImport = UpstreamImport(id: Id, createTime: int, updateTime: int, def: UpstreamDef)

  /** `entity.ServiceImport`: a service as it appears in the bundle. */
  datatype ServiceImport = ServiceImport(
    id: Id,
    createTime: int,
    updateTime: int,
    name: string,
    desc: string,
    upstream: Option<UpstreamDef>,
    upstreamId: Id,
    plugins: Option<PluginMap>,
    script: string,
    labels: Option<Labels>,
    enableWebsocket: bool,
    hosts: Option<seq<string>>)

  /** The decoded bundle, shaped as `loader.DataSetsImport` without variables. */
  datatype Bundle = Bundle(
    consumers: seq<Consumer>,
    routes: seq<RouteImport>,
    upstreams: seq<UpstreamImport>,
    services: seq<ServiceImport>)

  /**
   * `loader.DataSets`. The entities no import fills (SSLs, stream routes,
   * global plugins, plugin configs and protos) are kept as raw records.
   */
  datatype DataSets = DataSets(
    routes: seq<Route>,
    upstreams: seq<Upstream>,
    services: seq<Service>,
    consumers: seq<Consumer>,
    ssls: seq<Json>,
    streamRoutes: seq<Json>,
    globalPlugins: seq<Json>,
    pluginConfigs: seq<Json>,
    protos: seq<Json>)

  /** The upstream loop's per-record literal: base info from the record, the definition copied field for field. */
  function ImportedUpstream(u: UpstreamImport): Upstream
  {
    Upstream(Info(u.id, u.createTime, u.updateTime), u.def)
  }

  /** A route record the route loop panics on: no `upstream_id` and no upstream to copy. */
  predicate RoutePanics(r: RouteImport)
  {
    r.upstreamId == NoId && r.upstream.None?
  }

  /** The route loop's per-record literal: the inline upstream copied when there is no `upstream_id`, dropped otherwise. */
  function ImportedRoute(r: RouteImport): Route
  {
    Route(Info(r.id, r.createTime, r.updateTime), r.uri, r.uris, r.name, r.desc, r.priority, r.methods, r.host, r.hosts,
          r.remoteAddr, r.remoteAddrs, r.vars, r.filterFunc, r.script, r.scriptId, r.plugins, r.pluginConfigId,
          if r.upstreamId == NoId then r.upstream else None,
          r.serviceId, r.upstreamId, r.serviceProtocol, r.labels, r.enableWebsocket, r.status)
  }

  /** A service record the service loop panics on: no `upstream_id` and no upstream to copy. */
  predicate ServicePanics(s: ServiceImport)
  {
    s.upstreamId == NoId && s.upstream.None?
  }

  /** The service loop's per-record literal, with the same inline-or-reference rule as routes. */
  function ImportedService(s: ServiceImport): Service
  {
    Service(Info(s.id, s.createTime, s.updateTime), s.name, s.desc,
            if s.upstreamId == NoId then s.upstream else None,
            s.upstreamId, s.plugins, s.script, s.labels, s.enableWebsocket, s.hosts)
  }

  /** Each record in the bundle mapped by its loop's literal, the other collections empty. */
  function Mapped(b: Bundle): DataSets
  {
    DataSets(seq(|b.routes|, k requires 0 <= k < |b.routes| => ImportedRoute(b.routes[k])),
             seq(|b.upstreams|, k requires 0 <= k < |b.upstreams| => ImportedUpstream(b.upstreams[k])),
             seq(|b.services|, k requires 0 <= k < |b.services| => ImportedService(b.services[k])),
             b.consumers, [], [], [], [], [])
  }

  /**
   * What `Import` returns: the panics on a nil or non-byte input, the decoder's
   * error with no data, the nil dereference of the route loop and then of the
   * service loop, the panic of indexing the first route, or the mapped bundle.
   */
  function Imported(input: Input, decode: seq<bv8> -> Result<Bundle>): Result<DataSets>
  {
    match input
    case NilInput => Err(Panic(InputNil))
    case OtherInput(kind) => Err(Panic(InputNotBytes(kind)))
    case Bytes(data) =>
      match decode(data)
      case Err(e) => Err(e)
      case Ok(b) =>
        if exists k :: 0 <= k < |b.routes| && RoutePanics(b.routes[k]) then Err(Panic(NilDereference))
        else if exists k :: 0 <= k < |b.services| && ServicePanics(b.services[k]) then Err(Panic(NilDereference))
        else if |b.routes| == 0 then Err(Panic(IndexOutOfRange))
        else Ok(Mapped(b))
  }

  /**
   * `Loader.Import`: decodes the bytes with `decode` (the YAML decoder) and
   * builds the data sets by appending in four loops, over the upstreams, the
   * routes, the consumers and the services.
   */
  method Import(input: Input, decode: seq<bv8> -> Result<Bundle>) returns (r: Result<DataSets>)
    ensures r == Imported(input, decode)
  {
    if input.NilInput? {
      return Err(Panic(InputNil));
    }
    if input.OtherInput? {
      return Err(Panic(InputNotBytes(input.kind)));
    }
    var decoded := decode(input.data);
    if decoded.Err? {
      return Err(decoded.error);
    }
    var b := decoded.value;

    var upstreams: seq<Upstream> := [];
    for i := 0 to |b.upstreams|
      invariant upstreams == seq(i, k requires 0 <= k < i => ImportedUpstream(b.upstreams[k]))
    {
      upstreams := upstreams + [ImportedUpstream(b.upstreams[i])];
    }

    var routes: seq<Route> := [];
    for i := 0 to |b.routes|
      invariant forall k :: 0 <= k < i ==> !RoutePanics(b.routes[k])
      invariant routes == seq(i, k requires 0 <= k < i => ImportedRoute(b.routes[k]))
    {
      var route := b.routes[i];
      var rte;
      if route.upstreamId == NoId {
        if route.upstream.None? {
          assert RoutePanics(b.routes[i]);
          return Err(Panic(NilDereference));
        }
        var upstream := route.upstream.value;
        rte := Route(Info(route.id, route.createTime, route.updateTime), route.uri, route.uris, route.name, route.desc,
                     route.priority, route.methods, route.host, route.hosts, route.remoteAddr, route.remoteAddrs, route.vars,
                     route.filterFunc, route.script, route.scriptId, route.plugins, route.pluginConfigId, Some(upstream),
                     route.serviceId, route.upstreamId, route.serviceProtocol, route.labels, route.enableWebsocket, route.status);
      } else {
        rte := Route(Info(route.id, route.createTime, route.updateTime), route.uri, route.uris, route.name, route.desc,
                     route.priority, route.methods, route.host, route.hosts, route.remoteAddr, route.remoteAddrs, route.vars,
                     route.filterFunc, route.script, route.scriptId, route.plugins, route.pluginConfigId, None,
                     route.serviceId, route.upstreamId, route.serviceProtocol, route.labels, route.enableWebsocket, route.status);
      }
      routes := routes + [rte];
    }

    var consumers: seq<Consumer> := [];
    for i := 0 to |b.consumers|
      invariant consumers == b.consumers[..i]
    {
      consumers := consumers + [b.consumers[i]];
    }

    var services: seq<Service> := [];
    for i := 0 to |b.services|
      invariant forall k :: 0 <= k < i ==> !ServicePanics(b.services[k])
      invariant services == seq(i, k requires 0 <= k < i => ImportedService(b.services[k]))
    {
      var service := b.services[i];
      var svc;
      if service.upstreamId == NoId {
        if service.upstream.None? {
          assert ServicePanics(b.services[i]);
          return Err(Panic(NilDereference));
        }
        var upstream := service.upstream.value;
        svc := Service(Info(service.id, service.createTime, service.updateTime), service.name, service.desc, Some(upstream),
                       service.upstreamId, service.plugins, service.script, service.labels, service.enableWebsocket, service.hosts);
      } else {
        svc := Service(Info(service.id, service.createTime, service.updateTime), service.name, service.desc, None,
                       service.upstreamId, service.plugins, service.script, service.labels, service.enableWebsocket, service.hosts);
      }
      services := services + [svc];
    }

    if |routes| == 0 {
      return Err(Panic(IndexOutOfRange));
    }
    assert consumers == b.consumers;
    assert DataSets(routes, upstreams, services, consumers, [], [], [], [], []) == Mapped(b);
    r := Ok(DataSets(routes, upstreams, services, consumers, [], [], [], [], []));
  }

  /**
   * `Import` fails exactly on a nil or non-byte input, a decoding error (returned
   * unchanged), a route or service without `upstream_id` and without upstream,
   * or a bundle without routes.
   */
  lemma ImportFails(input: Input, decode: seq<bv8> -> Result<Bundle>)
    ensures var r := Imported(input, decode);
      && (r.Err? <==>
            || !input.Bytes?
            || decode(input.data).Err?
            || (exists k :: 0 <= k < |decode(input.data).value.routes| && RoutePanics(decode(input.data).value.routes[k]))
            || (exists k :: 0 <= k < |decode(input.data).value.services| && ServicePanics(decode(input.data).value.services[k]))
            || |decode(input.data).value.routes| == 0)
      && (input.Bytes? && decode(input.data).Err? ==> r == Err(decode(input.data).error))
      && (input.NilInput? ==> r == Err(Panic(InputNil)))
  {
  }

  /**
   * A successful import keeps every collection's length and order: each
   * upstream has the record's identifier, times and definition; each route and
   * service has every field of its record, the inline upstream when it has no
   * `upstream_id` and none when it has one, so the two are never both set;
   * the consumers pass through, every other collection is empty, and there
   * is at least one route.
   */
  lemma ImportOk(input: Input, decode: seq<bv8> -> Result<Bundle>)
    requires Imported(input, decode).Ok?
    ensures var d := Imported(input, decode).value;
      var b := decode(input.data).value;
      && input.Bytes? && decode(input.data).Ok?
      && |d.routes| == |b.routes| >= 1 && |d.upstreams| == |b.upstreams| && |d.services| == |b.services|
      && d.consumers == b.consumers
      && d.ssls == d.streamRoutes == d.globalPlugins == d.pluginConfigs == d.protos == []
      && (forall k :: 0 <= k < |b.upstreams| ==>
            d.upstreams[k].base == Info(b.upstreams[k].id, b.upstreams[k].createTime, b.upstreams[k].updateTime)
            && d.upstreams[k].def == b.upstreams[k].def)
      && (forall k :: 0 <= k < |b.routes| ==> RouteTakenOver(b.routes[k], d.routes[k]))
      && (forall k :: 0 <= k < |b.services| ==> ServiceTakenOver(b.services[k], d.services[k]))
  {
    var b := decode(input.data).value;
    var d := Imported(input, decode).value;
    forall k | 0 <= k < |b.routes|
      ensures RouteTakenOver(b.routes[k], d.routes[k])
    {
      ImportedRouteTakesOver(b.routes[k]);
    }
    forall k | 0 <= k < |b.services|
      ensures ServiceTakenOver(b.services[k], d.services[k])
    {
      ImportedServiceTakesOver(b.services[k]);
    }
  }

  /** `ro` carries every field of the record `r`, and its upstream follows the inline-or-reference rule. */
  ghost predicate RouteTakenOver(r: RouteImport, ro: Route)
  {
    !RoutePanics(r) ==> (
      && ro.base == Info(r.id, r.createTime, r.updateTime)
      && ro.upstreamId == r.upstreamId && ro.serviceId == r.serviceId
      && (r.upstreamId == NoId ==> ro.upstream == r.upstream && ro.upstream.Some?)
      && (r.upstreamId != NoId ==> ro.upstream.None?)
      && !(ro.upstream.Some? && ro.upstreamId != NoId)
      && (ro.uri, ro.uris, ro.name, ro.desc, ro.priority, ro.methods, ro.host, ro.hosts) == (r.uri, r.uris, r.name, r.desc, r.priority, r.methods, r.host, r.hosts)
      && (ro.remoteAddr, ro.remoteAddrs, ro.vars, ro.filterFunc, ro.script, ro.scriptId) == (r.remoteAddr, r.remoteAddrs, r.vars, r.filterFunc, r.script, r.scriptId)
      && (ro.plugins, ro.pluginConfigId, ro.serviceProtocol, ro.labels, ro.enableWebsocket, ro.status) == (r.plugins, r.pluginConfigId, r.serviceProtocol, r.labels, r.enableWebsocket, r.status))
  }

  /** `se` carries every field of the record `s`, and its upstream follows the inline-or-reference rule. */
  ghost predicate ServiceTakenOver(s: ServiceImport, se: Service)
  {
    !ServicePanics(s) ==> (
      && se.base == Info(s.id, s.createTime, s.updateTime)
      && se.upstreamId == s.upstreamId
      && (s.upstreamId == NoId ==> se.upstream == s.upstream && se.upstream.Some?)
      && (s.upstreamId != NoId ==> se.upstream.None?)
      && !(se.upstream.Some? && se.upstreamId != NoId)
      && (se.name, se.desc, se.plugins, se.script, se.labels, se.enableWebsocket, se.hosts) == (s.name, s.desc, s.plugins, s.script, s.labels, s.enableWebsocket, s.hosts))
  }

  lemma ImportedRouteTakesOver(r: RouteImport)
    ensures RouteTakenOver(r, ImportedRoute(r))
  {
  }

  lemma ImportedServiceTakesOver(s: ServiceImport)
    ensures ServiceTakenOver(s, ImportedService(s))
  {
  }
}
