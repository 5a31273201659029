/**
 * The gateway's configuration entities (api/internal/core/entity/entity.go) as
 * values, plus the `BaseInfo` receiver whose lifecycle methods update it in place.
 */
module Entity {
  import opened Wrappers

  /**
   * A decoded `interface{}` value: what JSON or YAML gives for a plugin
   * configuration, a script or node metadata. `JNull` stands for Go's `nil`.
   */
  datatype Json =
    | JNull
    | JBool(b: bool)
    | JNum(n: int)
    | JStr(s: string)
    | JArr(items: seq<Json>)
    | JObj(fields: map<string, Json>)

  type PluginMap = map<string, Json>
  type Labels = map<string, string>

  /** The polymorphic identifier: absent (`nil`), a string, or a number as it came from input. */
  datatype Id = NoId | StrId(s: string) | NumId(n: int)

  /** The value of a `BaseInfo`, as embedded in every entity. */
  datatype Info = Info(id: Id, createTime: int, updateTime: int)

  /** `BaseInfo.Creating` on a value: the identifier normalised to a string, both times from the clock. */
  function CreatedInfo(info: Info, flakeId: string, interfaceToString: Id -> string, createNow: int, updateNow: int): (r: Info)
    ensures r.id.StrId?
    ensures info.id.StrId? ==> r.id == info.id
    ensures info.id == NoId ==> r.id == StrId(flakeId)
    ensures info.id.NumId? ==> r.id == StrId(interfaceToString(info.id))
    ensures r.createTime == createNow && r.updateTime == updateNow
  {
    var id := match info.id
      case NoId => StrId(flakeId)
      case StrId(_) => info.id
      case NumId(_) => StrId(interfaceToString(info.id));
    Info(id, createNow, updateNow)
  }

  /** `BaseInfo.Updating` on a value. */
  function UpdatedInfo(stored: Info, now: int): (r: Info)
    ensures r.id == stored.id && r.createTime == stored.createTime && r.updateTime == now
  {
    Info(stored.id, stored.createTime, now)
  }

  /** `BaseInfo.KeyCompat` on a value. */
  function KeyCompatInfo(info: Info, key: string): (r: Info)
    ensures info.id == NoId && key != "" ==> r == info.(id := StrId(key))
    ensures !(info.id == NoId && key != "") ==> r == info
  {
    if info.id == NoId && key != "" then info.(id := StrId(key)) else info
  }

  /** Normalisation happens once: creating an already-created value again keeps its identifier. */
  lemma CreatingKeepsNormalisedId(info: Info, flakeId: string, flakeId': string, interfaceToString: Id -> string,
                                  t1: int, t2: int, t3: int, t4: int)
    ensures var once := CreatedInfo(info, flakeId, interfaceToString, t1, t2);
            CreatedInfo(once, flakeId', interfaceToString, t3, t4).id == once.id
  {
  }

  /** `KeyCompat` applied twice equals applying it once. */
  lemma KeyCompatIdempotent(info: Info, key: string)
    ensures KeyCompatInfo(KeyCompatInfo(info, key), key) == KeyCompatInfo(info, key)
  {
  }

  /**
   * The shared base of every stored entity, with the three by-reference receiver
   * methods that update it in place.
   */
  class BaseInfo {
    var id: Id
    var createTime: int
    var updateTime: int

    function Value(): Info
      reads this
    {
      Info(id, createTime, updateTime)
    }

    constructor (info: Info)
      ensures Value() == info
    {
      id, createTime, updateTime := info.id, info.createTime, info.updateTime;
    }

    /** `GetBaseInfo` hands back the receiver itself. */
    method GetBaseInfo() returns (b: BaseInfo)
      ensures b == this
    {
      b := this;
    }

    /**
     * `Creating`: an absent identifier gets the generated `flakeId`, a
     * non-string one its string form, a string one stays; both times come from
     * the clock (`time.Now` is read twice, hence two readings).
     */
    method Creating(flakeId: string, interfaceToString: Id -> string, createNow: int, updateNow: int)
      modifies this
      ensures Value() == CreatedInfo(old(Value()), flakeId, interfaceToString, createNow, updateNow)
      ensures old(id) == NoId ==> id == StrId(flakeId)
      ensures old(id).StrId? ==> id == old(id)
      ensures old(id).NumId? ==> id == StrId(interfaceToString(old(id)))
      ensures createTime == createNow && updateTime == updateNow
      ensures createNow <= updateNow ==> createTime <= updateTime
    {
      if id == NoId {
        id := StrId(flakeId);
      } else if !id.StrId? {
        id := StrId(interfaceToString(id));
      }
      createTime := createNow;
      updateTime := updateNow;
    }

    /** `Updating`: identifier and creation time come from the stored copy; only the update time is new. */
    method Updating(stored: BaseInfo, now: int)
      modifies this
      ensures Value() == UpdatedInfo(old(stored.Value()), now)
      ensures id == old(stored.id) && createTime == old(stored.createTime) && updateTime == now
      ensures stored != this ==> unchanged(stored)
    {
      id := stored.id;
      createTime := stored.createTime;
      updateTime := now;
    }

    /** `KeyCompat`: the key becomes the identifier only when none is set and the key is non-empty. */
    method KeyCompat(key: string)
      modifies this
      ensures Value() == KeyCompatInfo(old(Value()), key)
      ensures old(id) == NoId && key != "" ==> id == StrId(key)
      ensures !(old(id) == NoId && key != "") ==> Value() == old(Value())
    {
      if id == NoId && key != "" {
        id := StrId(key);
      }
    }
  }

  /** Go's `Status uint8`. */
  type Status = x: int | 0 <= x < 256

  /** A `float32` timeout, carried as its bit pattern: the model never computes with it. */
  datatype TimeoutValue = TimeoutValue(bits: bv32)

  datatype Timeout = Timeout(connect: TimeoutValue, send: TimeoutValue, read: TimeoutValue)

  datatype Node = Node(host: string, port: int, weight: int, metadata: Json, priority: int)

  /**
   * An upstream's `Nodes interface{}`: either already a node list, or the raw
   * decoded form (for example a `"host:port": weight` map) that `NodesFormat` turns into one.
   */
  datatype Nodes = NodeList(list: seq<Node>) | RawNodes(raw: Json)

  datatype UpstreamTLS = UpstreamTLS(clientCert: string, clientKey: string)

  datatype KeepalivePool = KeepalivePool(idleTimeout: Option<TimeoutValue>, requests: int, size: int)

  datatype UpstreamDef = UpstreamDef(
    nodes: Nodes,
    retries: Option<int>,
    timeout: Option<Timeout>,
    upstreamType: string,
    checks: Json,
    hashOn: string,
    key: string,
    scheme: string,
    discoveryType: string,
    discoveryArgs: Option<PluginMap>,
    passHost: string,
    upstreamHost: string,
    name: string,
    desc: string,
    serviceName: string,
    labels: Option<Labels>,
    tls: Option<UpstreamTLS>,
    keepalivePool: Option<KeepalivePool>,
    retryTimeout: TimeoutValue)

  /** A standalone upstream: `BaseInfo` and `UpstreamDef` embedded. */
  datatype Upstream = Upstream(base: Info, def: UpstreamDef)

  /**
   * A route. `uris`, `hosts`, `remoteAddrs`, `vars`, `plugins` and `labels`
   * keep Go's distinction between a nil and an empty collection, because the
   * export code tests them against nil.
   */
  datatype Route = Route(
    base: Info,
    uri: string,
    uris: Option<seq<string>>,
    name: string,
    desc: string,
    priority: int,
    methods: seq<string>,
    host: string,
    hosts: Option<seq<string>>,
    remoteAddr: string,
    remoteAddrs: Option<seq<string>>,
    vars: Option<seq<Json>>,
    filterFunc: string,
    script: Json,
    scriptId: Json,
    plugins: Option<PluginMap>,
    pluginConfigId: Json,
    upstream: Option<UpstreamDef>,
    serviceId: Id,
    upstreamId: Id,
    serviceProtocol: string,
    labels: Option<Labels>,
    enableWebsocket: bool,
    status: Status)

  datatype Service = Service(
    base: Info,
    name: string,
    desc: string,
    upstream: Option<UpstreamDef>,
    upstreamId: Id,
    plugins: Option<PluginMap>,
    script: string,
    labels: Option<Labels>,
    enableWebsocket: bool,
    hosts: Option<seq<string>>)

  datatype Consumer = Consumer(
    username: string,
    desc: string,
    plugins: Option<PluginMap>,
    labels: Option<Labels>,
    createTime: int,
    updateTime: int)

  /** One externalised value of an export bundle. */
  datatype Variable = Variable(key: string, value: string)

  datatype UpstreamNameResponse = UpstreamNameResponse(id: Id, name: string)

  /** `Upstream.Parse2NameResponse`: exactly the identifier and the name; the error result is always nil. */
  function Parse2NameResponse(upstream: Upstream): (r: (UpstreamNameResponse, Option<string>))
    ensures r.0.id == upstream.base.id && r.0.name == upstream.def.name
    ensures r.1 == None
  {
    (UpstreamNameResponse(upstream.base.id, upstream.def.name), None)
  }
}
