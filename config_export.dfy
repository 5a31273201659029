/**
 * The configuration export of api/internal/handler/data_loader/route_export.go
 * (`ExportConfiguration` and the list functions it calls): every consumer,
 * route, upstream and service of the store goes into one bundle, and the
 * hosts, upstream node hosts and selected plugin secrets of the exported
 * copies are replaced by `${key}` placeholders whose values the bundle lists
 * as variables.
 */
module ConfigExport {
  import opened Wrappers
  import opened Strings
  import opened Entity
  import opened Errors
  import opened External
  import opened Enumerations

  /** The panic of `.([]*entity.Node)` on what `NodesFormat` could not convert. */
  const NodesNotList := "interface conversion: interface {} is not []*entity.Node"
  /** The panic of `.ID.(string)` on an identifier that is not a string. */
  const IdNotString := "interface conversion: interface {} is not string"

  /** `"${" + key + "}"`: what the export writes in place of a value it moves into a variable. */
  function Placeholder(key: string): string
  {
    "${" + key + "}"
  }

  /* ---------------------------------------------------------------- route hosts */

  /** The key one pass over a route's `hosts` gives entry `i`. */
  function HostsKey(prefix: string, i: nat): string
  {
    prefix + "Hosts" + Itoa(i)
  }

  /** The variables one pass over `hosts` emits: entry `i` under `HostsKey(prefix, i)`, in index order. */
  function HostsVariables(prefix: string, hosts: seq<string>): seq<Variable>
  {
    seq(|hosts|, i requires 0 <= i < |hosts| => Variable(HostsKey(prefix, i), hosts[i]))
  }

  /** What one pass leaves in a `hosts` list of length `n`: entry `i` refers to `HostsKey(prefix, i)`. */
  function HostsPlaceholders(prefix: string, n: nat): seq<string>
  {
    seq(n, i requires 0 <= i < n => Placeholder(HostsKey(prefix, i)))
  }

  /**
   * One `for index, host := range ro.Hosts` pass: every entry is emitted as a
   * variable and replaced in place by the placeholder of its key.
   */
  method HostsPass(prefix: string, hosts: seq<string>) returns (rewritten: seq<string>, vars: seq<Variable>)
    ensures rewritten == HostsPlaceholders(prefix, |hosts|)
    ensures vars == HostsVariables(prefix, hosts)
  {
    rewritten, vars := hosts, [];
    for index := 0 to |hosts|
      invariant |rewritten| == |hosts| && |vars| == index
      invariant forall j :: 0 <= j < index ==> rewritten[j] == Placeholder(HostsKey(prefix, j))
      invariant forall j :: index <= j < |hosts| ==> rewritten[j] == hosts[j]
      invariant forall j :: 0 <= j < index ==> vars[j] == Variable(HostsKey(prefix, j), hosts[j])
    {
      var key := HostsKey(prefix, index);
      vars := vars + [Variable(key, rewritten[index])];
      rewritten := rewritten[index := Placeholder(key)];
    }
  }

  /**
   * The four host passes of `RouteList` on one route: the host under `Host`,
   * every `hosts` entry under `Hosts<i>`, then the (already rewritten) host
   * under `<name>.Host` and every rewritten entry under `<name>.Hosts<i>`.
   */
  function HostsVariablized(route: Route): (Route, seq<Variable>)
  {
    var h, hs := route.host, route.hosts.GetOr([]);
    var scoped := route.name + ".";
    var host := if h == "" then "" else Placeholder(route.name + ".Host");
    var hosts := if route.hosts.Some? then Some(HostsPlaceholders(scoped, |hs|)) else None;
    var first := if h == "" then [] else [Variable("Host", h)];
    var second := if h == "" then [] else [Variable(route.name + ".Host", Placeholder("Host"))];
    (route.(host := host, hosts := hosts),
     first + HostsVariables("", hs) + second + HostsVariables(scoped, HostsPlaceholders("", |hs|)))
  }

  /** The host and hosts variablization of `RouteList`, on the deep copy `ro`. */
  method VariablizeHosts(ro: Route) returns (r: Route, vars: seq<Variable>)
    ensures (r, vars) == HostsVariablized(ro)
  {
    r, vars := ro, [];
    if r.host != "" {
      var key := "Host";
      vars := vars + [Variable(key, r.host)];
      r := r.(host := Placeholder(key));
    }
    if r.hosts.Some? {
      var hosts, vs := HostsPass("", r.hosts.value);
      vars := vars + vs;
      r := r.(hosts := Some(hosts));
    }
    if r.host != "" {
      var key := r.name + ".Host";
      vars := vars + [Variable(key, r.host)];
      r := r.(host := Placeholder(key));
    }
    if r.hosts.Some? {
      var hosts, vs := HostsPass(r.name + ".", r.hosts.value);
      vars := vars + vs;
      r := r.(hosts := Some(hosts));
    }
    ghost var hs := ro.hosts.GetOr([]);
    assert |HostsPlaceholders("", |hs|)| == |hs|;
    assert ro.hosts.None? ==> HostsVariables("", hs) == [] && HostsVariables(ro.name + ".", HostsPlaceholders("", |hs|)) == [];
    assert r.host == HostsVariablized(ro).0.host;
    assert r.hosts == HostsVariablized(ro).0.hosts;
    assert r == HostsVariablized(ro).0;
    assert vars == HostsVariablized(ro).1;
  }

  /* ---------------------------------------------------------------- upstream nodes */

  /** The string of an identifier that `.(string)` accepts. */
  function IdString(id: Id): string
  {
    if id.StrId? then id.s else ""
  }

  /** Node `i` rewritten: its host refers to `prefix + i`; every other field is kept. */
  function NodePlaceholders(prefix: string, nodes: seq<Node>): seq<Node>
  {
    seq(|nodes|, i requires 0 <= i < |nodes| => nodes[i].(host := Placeholder(prefix + Itoa(i))))
  }

  /** The variables of the nodes: node `i`'s host under `prefix + i`. */
  function NodeVariables(prefix: string, nodes: seq<Node>): seq<Variable>
  {
    seq(|nodes|, i requires 0 <= i < |nodes| => Variable(prefix + Itoa(i), nodes[i].host))
  }

  /**
   * The body shared by the three `VariablizationOfNode*` functions on the
   * upstream definition `def`: node `i`'s key is `head + id + tail + i`.
   * The `[]*entity.Node` assertion panics first; the `.(string)` assertion on
   * the identifier is evaluated per node, so it panics only when there is one.
   */
  function NodesVariablized(head: string, id: Id, tail: string, def: UpstreamDef,
                            nodesFormat: Nodes -> Option<seq<Node>>): Result<(UpstreamDef, seq<Variable>)>
  {
    match nodesFormat(def.nodes)
    case None => Err(Panic(NodesNotList))
    case Some(nodes) =>
      if |nodes| > 0 && !id.StrId? then Err(Panic(IdNotString))
      else
        var prefix := head + IdString(id) + tail;
        Ok((def.(nodes := NodeList(NodePlaceholders(prefix, nodes))), NodeVariables(prefix, nodes)))
  }

  /** The loop of the `VariablizationOfNode*` functions, rewriting the node list in place. */
  method VariablizeNodes(head: string, id: Id, tail: string, def: UpstreamDef, nodesFormat: Nodes -> Option<seq<Node>>)
    returns (r: Result<(UpstreamDef, seq<Variable>)>)
    ensures r == NodesVariablized(head, id, tail, def, nodesFormat)
  {
    var formatted := nodesFormat(def.nodes);
    if formatted.None? {
      return Err(Panic(NodesNotList));
    }
    var nodes := formatted.value;
    ghost var original := nodes;
    ghost var prefix := head + IdString(id) + tail;
    var vars := [];
    for index := 0 to |nodes|
      invariant |nodes| == |original| && |vars| == index
      invariant index > 0 ==> id.StrId?
      invariant forall j :: 0 <= j < index ==> nodes[j] == original[j].(host := Placeholder(prefix + Itoa(j)))
      invariant forall j :: index <= j < |nodes| ==> nodes[j] == original[j]
      invariant forall j :: 0 <= j < index ==> vars[j] == Variable(prefix + Itoa(j), original[j].host)
    {
      if !id.StrId? {
        return Err(Panic(IdNotString));
      }
      var key := head + id.s + tail + Itoa(index);
      vars := vars + [Variable(key, nodes[index].host)];
      nodes := nodes[index := nodes[index].(host := Placeholder(key))];
    }
    assert nodes == NodePlaceholders(prefix, original);
    assert vars == NodeVariables(prefix, original);
    r := Ok((def.(nodes := NodeList(nodes)), vars));
  }

  /**
   * Whatever `NodesFormat` yields, the variablization fails exactly on its
   * assertion's panic or on a node list under a non-string identifier;
   * otherwise node `i` keeps every field but its host, which now refers to the
   * key of variable `i`, and variable `i` holds node `i`'s original host.
   * The keys are pairwise distinct.
   */
  lemma NodesVariablizedMeaning(head: string, id: Id, tail: string, def: UpstreamDef, nodesFormat: Nodes -> Option<seq<Node>>)
    ensures var r := NodesVariablized(head, id, tail, def, nodesFormat);
      var f := nodesFormat(def.nodes);
      && (r.Err? <==> f.None? || (|f.value| > 0 && !id.StrId?))
      && (f.None? ==> r == Err(Panic(NodesNotList)))
      && (r.Ok? ==>
           var (def', vars) := r.value;
           && def' == def.(nodes := def'.nodes) && def'.nodes.NodeList?
           && |def'.nodes.list| == |vars| == |f.value|
           && (forall i :: 0 <= i < |vars| ==> def'.nodes.list[i] == f.value[i].(host := Placeholder(vars[i].key)))
           && (forall i :: 0 <= i < |vars| ==> vars[i].value == f.value[i].host)
           && (forall i :: 0 <= i < |vars| ==> vars[i].key == head + id.s + tail + Itoa(i))
           && (forall i, j :: 0 <= i < j < |vars| ==> vars[i].key != vars[j].key))
  {
    var f := nodesFormat(def.nodes);
    if f.Some? && !(|f.value| > 0 && !id.StrId?) {
      var vars := NodesVariablized(head, id, tail, def, nodesFormat).value.1;
      var prefix := head + IdString(id) + tail;
      forall i, j | 0 <= i < j < |vars| ensures vars[i].key != vars[j].key {
        if vars[i].key == vars[j].key {
          assert prefix + Itoa(i) == prefix + Itoa(j);
          assert Itoa(i) == (prefix + Itoa(i))[|prefix|..];
          assert Itoa(j) == (prefix + Itoa(j))[|prefix|..];
          ItoaInjective(i, j);
        }
      }
    }
  }

  /** No two variables of `vars` share a key. */
  predicate DistinctKeys(vars: seq<Variable>)
  {
    forall i, j :: 0 <= i < j < |vars| ==> vars[i].key != vars[j].key
  }

  /** No key of `a` is a key of `b`. */
  predicate DisjointKeys(a: seq<Variable>, b: seq<Variable>)
  {
    forall i, j :: 0 <= i < |a| && 0 <= j < |b| ==> a[i].key != b[j].key
  }

  lemma DistinctConcat(a: seq<Variable>, b: seq<Variable>)
    requires DistinctKeys(a) && DistinctKeys(b) && DisjointKeys(a, b)
    ensures DistinctKeys(a + b)
  {
    forall i, j | 0 <= i < j < |a + b| ensures (a + b)[i].key != (a + b)[j].key {
      if j < |a| {
        assert (a + b)[i] == a[i] && (a + b)[j] == a[j];
      } else if i >= |a| {
        assert (a + b)[i] == b[i - |a|] && (a + b)[j] == b[j - |a|];
      } else {
        assert (a + b)[i] == a[i] && (a + b)[j] == b[j - |a|];
      }
    }
  }

  lemma HostsKeyInjective(prefix: string, i: nat, j: nat)
    requires HostsKey(prefix, i) == HostsKey(prefix, j)
    ensures i == j
  {
    var p := prefix + "Hosts";
    assert Itoa(i) == HostsKey(prefix, i)[|p|..];
    assert Itoa(j) == HostsKey(prefix, j)[|p|..];
    ItoaInjective(i, j);
  }

  lemma HostsVariablesDistinct(prefix: string, hosts: seq<string>)
    ensures DistinctKeys(HostsVariables(prefix, hosts))
  {
    var vs := HostsVariables(prefix, hosts);
    forall i, j | 0 <= i < j < |vs| ensures vs[i].key != vs[j].key {
      if vs[i].key == vs[j].key {
        HostsKeyInjective(prefix, i, j);
      }
    }
  }

  /** The unscoped keys contain no `.`; the route-scoped ones do. */
  lemma UnscopedHostsKey(i: nat)
    ensures '.' !in HostsKey("", i) && |HostsKey("", i)| >= 6
  {
    assert HostsKey("", i) == "Hosts" + Itoa(i);
  }

  lemma ScopedHostsKey(name: string, i: nat)
    ensures '.' in HostsKey(name + ".", i) && |HostsKey(name + ".", i)| >= |name| + 7
  {
    assert HostsKey(name + ".", i)[|name|] == '.';
  }

  /**
   * A route's host passes emit pairwise distinct keys: the unscoped `Host`,
   * `Hosts<i>` never meet the `<name>.`-scoped ones, and indices never collide.
   */
  lemma HostsKeysDistinct(route: Route)
    ensures DistinctKeys(HostsVariablized(route).1)
  {
    var h, hs := route.host, route.hosts.GetOr([]);
    var scoped := route.name + ".";
    var first := if h == "" then [] else [Variable("Host", h)];
    var second := if h == "" then [] else [Variable(route.name + ".Host", Placeholder("Host"))];
    var a, c := HostsVariables("", hs), HostsVariables(scoped, HostsPlaceholders("", |hs|));
    HostsVariablesDistinct("", hs);
    HostsVariablesDistinct(scoped, HostsPlaceholders("", |hs|));
    forall j | 0 <= j < |a| ensures "Host" != a[j].key {
      UnscopedHostsKey(j);
    }
    DistinctConcat(first, a);
    forall j | 0 <= j < |c| ensures route.name + ".Host" != c[j].key {
      ScopedHostsKey(route.name, j);
    }
    DistinctConcat(second, c);
    forall i, j | 0 <= i < |first + a| && 0 <= j < |second + c| ensures (first + a)[i].key != (second + c)[j].key {
      var x, y := (first + a)[i].key, (second + c)[j].key;
      if j < |second| {
        assert y == route.name + ".Host" && y[|route.name|] == '.' && '.' in y;
      } else {
        ScopedHostsKey(route.name, j - |second|);
      }
      if i < |first| {
        assert x == "Host" && '.' !in x;
      } else {
        UnscopedHostsKey(i - |first|);
      }
    }
    DistinctConcat(first + a, second + c);
    assert first + a + second + c == (first + a) + (second + c);
  }

  /**
   * After the host passes, the route's host refers to `<name>.Host`, whose
   * variable refers to `Host`, whose variable holds the original host; every
   * `hosts` entry likewise goes through `<name>.Hosts<i>` and `Hosts<i>` to its
   * original value. The list keeps its length, an empty host stays empty, a
   * nil list stays nil, and nothing else of the route changes.
   */
  lemma HostsVariablizedMeaning(route: Route)
    ensures var (r, vars) := HostsVariablized(route);
      var h, hs, n := route.host, route.hosts.GetOr([]), route.name;
      && r == route.(host := r.host, hosts := r.hosts)
      && (h == "" ==> r.host == "")
      && (h != "" ==> && r.host == Placeholder(n + ".Host")
                      && Variable(n + ".Host", Placeholder("Host")) in vars
                      && Variable("Host", h) in vars)
      && (route.hosts.None? ==> r.hosts.None?)
      && (route.hosts.Some? ==> r.hosts.Some? && |r.hosts.value| == |hs|)
      && (forall i :: 0 <= i < |hs| ==>
            && r.hosts.value[i] == Placeholder(HostsKey(n + ".", i))
            && Variable(HostsKey(n + ".", i), Placeholder(HostsKey("", i))) in vars
            && Variable(HostsKey("", i), hs[i]) in vars)
      && |vars| == 2 * |hs| + (if h == "" then 0 else 2)
  {
    var h, hs := route.host, route.hosts.GetOr([]);
    var scoped := route.name + ".";
    var first := if h == "" then [] else [Variable("Host", h)];
    var second := if h == "" then [] else [Variable(route.name + ".Host", Placeholder("Host"))];
    var a, c := HostsVariables("", hs), HostsVariables(scoped, HostsPlaceholders("", |hs|));
    var vars := first + a + second + c;
    assert vars == HostsVariablized(route).1;
    forall i | 0 <= i < |hs|
      ensures Variable(HostsKey(scoped, i), Placeholder(HostsKey("", i))) in vars && Variable(HostsKey("", i), hs[i]) in vars
    {
      assert a[i] == Variable(HostsKey("", i), hs[i]);
      assert vars[|first| + i] == a[i];
      assert c[i] == Variable(HostsKey(scoped, i), Placeholder(HostsKey("", i)));
      assert vars[|first| + |a| + |second| + i] == c[i];
    }
    if h != "" {
      assert vars[0] == Variable("Host", h);
      assert vars[|first| + |a|] == Variable(route.name + ".Host", Placeholder("Host"));
    }
  }

  /** Two routes with hosts both emit the unscoped key `Host`, each with its own host. */
  lemma UnscopedHostKeyShared(r1: Route, r2: Route)
    requires r1.host != "" && r2.host != ""
    ensures Variable("Host", r1.host) in HostsVariablized(r1).1 + HostsVariablized(r2).1
    ensures Variable("Host", r2.host) in HostsVariablized(r1).1 + HostsVariablized(r2).1
  {
    var v1, v2 := HostsVariablized(r1).1, HostsVariablized(r2).1;
    assert v1[0] == Variable("Host", r1.host);
    assert (v1 + v2)[|v1|] == v2[0] == Variable("Host", r2.host);
  }

  /* ---------------------------------------------------------------- plugin secrets */

  const OnBehalfJwt := "onbehalf-jwt"
  const CasAuth := "3ds-cas-auth"

  /** The two plugins whose secrets `RouteList` moves into variables. */
  predicate IsSecretPlugin(k: string)
  {
    k == OnBehalfJwt || k == CasAuth
  }

  /** The configuration fields it moves, in either plugin. */
  predicate IsSecretField(k: string)
  {
    k == "secret" || k == "idp_url" || k == "encryption_key" || k == "encryption_salt"
  }

  /** The key of field `field` of a route named `name`: `secret` goes under `OnBehalf`, the others under `3dsCasAuth`. */
  function SecretKey(name: string, field: string): string
  {
    if field == "secret" then "Route." + name + ".Plugin.OnBehalf"
    else "Route." + name + ".Plugin.3dsCasAuth." + field
  }

  /** The secret fields a plugin configuration has. */
  function SecretFields(fields: map<string, Json>): set<string>
  {
    set k | k in fields && IsSecretField(k)
  }

  /** A plugin configuration with every secret field replaced by the placeholder of its key. */
  function RewrittenFields(name: string, fields: map<string, Json>): map<string, Json>
  {
    map k | k in fields :: if IsSecretField(k) then JStr(Placeholder(SecretKey(name, k))) else fields[k]
  }

  /** The inner loop of `RouteList` over one plugin's configuration, when it visits the fields in `order`. */
  function FieldsFold(name: string, fields: map<string, Json>, order: seq<string>, formatValue: Json -> string)
    : (map<string, Json>, seq<Variable>)
  {
    if order == [] then (fields, [])
    else
      var (m, vars) := FieldsFold(name, fields, order[..|order| - 1], formatValue);
      var k := order[|order| - 1];
      if IsSecretField(k) && k in fields then
        (m[k := JStr(Placeholder(SecretKey(name, k)))], vars + [Variable(SecretKey(name, k), formatValue(fields[k]))])
      else (m, vars)
  }

  /** One more field visited after the fields in `order`. */
  lemma FieldsFoldSnoc(name: string, fields: map<string, Json>, order: seq<string>, key: string, formatValue: Json -> string)
    ensures var (m, vars) := FieldsFold(name, fields, order, formatValue);
      FieldsFold(name, fields, order + [key], formatValue) ==
        if IsSecretField(key) && key in fields then
          (m[key := JStr(Placeholder(SecretKey(name, key)))], vars + [Variable(SecretKey(name, key), formatValue(fields[key]))])
        else (m, vars)
  {
    assert (order + [key])[..|order|] == order;
  }

  /**
   * `for key, value := range pluginMap`: each secret field is emitted with
   * its `%v` form and replaced by its placeholder; `order` is the order taken.
   */
  method VariablizeFields(name: string, fields: map<string, Json>, formatValue: Json -> string)
    returns (m: map<string, Json>, vars: seq<Variable>, ghost order: seq<string>)
    ensures IsEnumeration(order, fields.Keys)
    ensures (m, vars) == FieldsFold(name, fields, order, formatValue)
  {
    m, vars, order := fields, [], [];
    var todo := fields.Keys;
    while todo != {}
      invariant todo <= fields.Keys && IsEnumeration(order, fields.Keys - todo)
      invariant forall k :: k in todo ==> k in m && m[k] == fields[k]
      invariant (m, vars) == FieldsFold(name, fields, order, formatValue)
      decreases |todo|
    {
      var key :| key in todo;
      var value := m[key];
      FieldsFoldSnoc(name, fields, order, key, formatValue);
      if key == "secret" {
        var newSecret := "Route." + name + ".Plugin.OnBehalf";
        m := m[key := JStr(Placeholder(newSecret))];
        vars := vars + [Variable(newSecret, formatValue(value))];
      }
      if key == "idp_url" || key == "encryption_key" || key == "encryption_salt" {
        var newSecret := "Route." + name + ".Plugin.3dsCasAuth." + key;
        m := m[key := JStr(Placeholder(newSecret))];
        vars := vars + [Variable(newSecret, formatValue(value))];
      }
      EnumerationExtend(order, fields.Keys, todo, key);
      todo := todo - {key};
      order := order + [key];
    }
  }

  /** The placeholders of the secret fields among `done`. */
  function PlaceholdersAmong(name: string, done: set<string>): map<string, Json>
  {
    map k | k in done && IsSecretField(k) :: JStr(Placeholder(SecretKey(name, k)))
  }

  lemma PlaceholdersAmongStep(name: string, done: set<string>, k: string)
    ensures IsSecretField(k) ==> PlaceholdersAmong(name, done + {k}) == PlaceholdersAmong(name, done)[k := JStr(Placeholder(SecretKey(name, k)))]
    ensures !IsSecretField(k) ==> PlaceholdersAmong(name, done + {k}) == PlaceholdersAmong(name, done)
  {
  }

  /** Whatever order the inner loop takes, exactly the visited secret fields are rewritten. */
  lemma {:induction false} FieldsFoldMap(name: string, fields: map<string, Json>, order: seq<string>, done: set<string>,
                                         formatValue: Json -> string)
    requires IsEnumeration(order, done) && done <= fields.Keys
    ensures FieldsFold(name, fields, order, formatValue).0 == fields + PlaceholdersAmong(name, done)
  {
    if order != [] {
      var init, last := order[..|order| - 1], order[|order| - 1];
      EnumerationInit(order, done);
      FieldsFoldMap(name, fields, init, done - {last}, formatValue);
      FieldsFoldSnoc(name, fields, init, last, formatValue);
      assert init + [last] == order;
      PlaceholdersAmongStep(name, done - {last}, last);
      PutBack(done, last);
      if IsSecretField(last) {
        UnionUpdate(fields, PlaceholdersAmong(name, done - {last}), last, JStr(Placeholder(SecretKey(name, last))));
      }
    }
  }

  /**
   * Whatever order the inner loop takes, the variables are one per secret
   * field the configuration has, each under its key with the `%v` form of its
   * value, in the order the loop met them.
   */
  lemma {:induction false} FieldsFoldVars(name: string, fields: map<string, Json>, order: seq<string>, done: set<string>,
                                          formatValue: Json -> string)
    requires IsEnumeration(order, done) && done <= fields.Keys
    ensures var vars := FieldsFold(name, fields, order, formatValue).1;
      var e := Filter(order, IsSecretField);
      && |vars| == |e|
      && forall i :: 0 <= i < |e| ==> e[i] in fields && vars[i] == Variable(SecretKey(name, e[i]), formatValue(fields[e[i]]))
  {
    if order != [] {
      var last := order[|order| - 1];
      EnumerationInit(order, done);
      FieldsFoldVars(name, fields, order[..|order| - 1], done - {last}, formatValue);
    }
  }

  /**
   * After a full inner loop the configuration is `RewrittenFields`, and the
   * fields its variables name are an enumeration of the secret fields.
   */
  lemma FieldsRewritten(name: string, fields: map<string, Json>, order: seq<string>, formatValue: Json -> string)
    requires IsEnumeration(order, fields.Keys)
    ensures FieldsFold(name, fields, order, formatValue).0 == RewrittenFields(name, fields)
    ensures IsEnumeration(Filter(order, IsSecretField), SecretFields(fields))
  {
    FieldsFoldMap(name, fields, order, fields.Keys, formatValue);
    RewrittenIsUnion(name, fields);
    FilterEnumeration(order, fields.Keys, IsSecretField);
    assert (set k | k in fields.Keys && IsSecretField(k)) == SecretFields(fields);
  }

  /** Rewriting a configuration overrides its secret fields with their placeholders. */
  lemma RewrittenIsUnion(name: string, fields: map<string, Json>)
    ensures fields + PlaceholdersAmong(name, fields.Keys) == RewrittenFields(name, fields)
  {
  }

  /** The plugins the outer loop opens: the two secret plugins, when configured with an object. */
  predicate OpensPlugin(plugins: PluginMap, k: string)
  {
    IsSecretPlugin(k) && k in plugins && plugins[k].JObj?
  }

  /** The field order recorded for plugin `k`, if any. */
  function FieldOrder(fieldOrders: map<string, seq<string>>, k: string): seq<string>
  {
    if k in fieldOrders then fieldOrders[k] else []
  }

  /** The orders one route's plugin pass takes: over the plugins, and over the fields of each plugin it opens. */
  datatype SecretOrder = SecretOrder(plugins: seq<string>, fields: map<string, seq<string>>)

  ghost predicate IsSecretOrder(so: SecretOrder, plugins: PluginMap)
  {
    && IsEnumeration(so.plugins, plugins.Keys)
    && forall k :: OpensPlugin(plugins, k) ==> IsEnumeration(FieldOrder(so.fields, k), plugins[k].fields.Keys)
  }

  /** The outer loop of `RouteList` over the route's plugins, when it visits them in `order`. */
  function PluginsFold(name: string, plugins: PluginMap, order: seq<string>, fieldOrders: map<string, seq<string>>,
                       formatValue: Json -> string): (PluginMap, seq<Variable>)
  {
    if order == [] then (plugins, [])
    else
      var (p, vars) := PluginsFold(name, plugins, order[..|order| - 1], fieldOrders, formatValue);
      var k := order[|order| - 1];
      if OpensPlugin(plugins, k) then
        var (m, vs) := FieldsFold(name, plugins[k].fields, FieldOrder(fieldOrders, k), formatValue);
        (p[k := JObj(m)], vars + vs)
      else (p, vars)
  }

  /** One more plugin visited after the plugins in `order`: the plugin map. */
  lemma PluginsFoldMapSnoc(name: string, plugins: PluginMap, order: seq<string>, k: string, fieldOrders: map<string, seq<string>>,
                           formatValue: Json -> string)
    ensures PluginsFold(name, plugins, order + [k], fieldOrders, formatValue).0 ==
      if OpensPlugin(plugins, k) then
        PluginsFold(name, plugins, order, fieldOrders, formatValue).0[k := JObj(FieldsFold(name, plugins[k].fields, FieldOrder(fieldOrders, k), formatValue).0)]
      else PluginsFold(name, plugins, order, fieldOrders, formatValue).0
  {
    assert (order + [k])[..|order|] == order;
  }

  /** One more plugin visited after the plugins in `order`: the variables. */
  lemma PluginsFoldVarsSnoc(name: string, plugins: PluginMap, order: seq<string>, k: string, fieldOrders: map<string, seq<string>>,
                            formatValue: Json -> string)
    ensures PluginsFold(name, plugins, order + [k], fieldOrders, formatValue).1 ==
      PluginsFold(name, plugins, order, fieldOrders, formatValue).1 + PluginVars(name, plugins, fieldOrders, k, formatValue)
  {
    assert (order + [k])[..|order|] == order;
  }

  /** The fold only reads the field orders of the plugins it visits. */
  lemma {:induction false} PluginsFoldFrame(name: string, plugins: PluginMap, order: seq<string>, fieldOrders: map<string, seq<string>>,
                                            k: string, fo: seq<string>, formatValue: Json -> string)
    requires k !in order
    ensures PluginsFold(name, plugins, order, fieldOrders[k := fo], formatValue) == PluginsFold(name, plugins, order, fieldOrders, formatValue)
  {
    if order != [] {
      PluginsFoldFrame(name, plugins, order[..|order| - 1], fieldOrders, k, fo, formatValue);
    }
  }

  /** One more plugin visited, with the field order `fo` its inner loop took. */
  lemma PluginsFoldStep(name: string, plugins: PluginMap, order: seq<string>, fieldOrders: map<string, seq<string>>,
                        k: string, fo: seq<string>, formatValue: Json -> string, p: PluginMap, vars: seq<Variable>)
    requires k !in order && PluginsFold(name, plugins, order, fieldOrders, formatValue) == (p, vars)
    ensures OpensPlugin(plugins, k) ==>
      PluginsFold(name, plugins, order + [k], fieldOrders[k := fo], formatValue) ==
        (p[k := JObj(FieldsFold(name, plugins[k].fields, fo, formatValue).0)], vars + FieldsFold(name, plugins[k].fields, fo, formatValue).1)
    ensures !OpensPlugin(plugins, k) ==> PluginsFold(name, plugins, order + [k], fieldOrders[k := fo], formatValue) == (p, vars)
  {
    PluginsFoldFrame(name, plugins, order, fieldOrders, k, fo, formatValue);
    assert (order + [k])[..|order|] == order;
  }

  /** Recording the field order of one more visited plugin keeps every opened plugin's order an enumeration. */
  lemma FieldOrdersExtend(plugins: PluginMap, fieldOrders: map<string, seq<string>>, todo: set<string>, plugin: string, fo: seq<string>)
    requires forall k :: k !in todo && OpensPlugin(plugins, k) ==> IsEnumeration(FieldOrder(fieldOrders, k), plugins[k].fields.Keys)
    requires OpensPlugin(plugins, plugin) ==> IsEnumeration(fo, plugins[plugin].fields.Keys)
    ensures forall k :: k !in todo - {plugin} && OpensPlugin(plugins, k) ==>
      IsEnumeration(FieldOrder(fieldOrders[plugin := fo], k), plugins[k].fields.Keys)
  {
    forall k | k !in todo - {plugin} && OpensPlugin(plugins, k)
      ensures IsEnumeration(FieldOrder(fieldOrders[plugin := fo], k), plugins[k].fields.Keys)
    {
      if k != plugin {
        assert FieldOrder(fieldOrders[plugin := fo], k) == FieldOrder(fieldOrders, k);
      }
    }
  }

  /**
   * The plugin pass of `RouteList`: each of the two secret plugins holding an
   * object has its secret fields moved into variables, in place.
   */
  method VariablizeSecrets(name: string, plugins: PluginMap, formatValue: Json -> string)
    returns (p: PluginMap, vars: seq<Variable>, ghost so: SecretOrder)
    ensures IsSecretOrder(so, plugins)
    ensures (p, vars) == PluginsFold(name, plugins, so.plugins, so.fields, formatValue)
  {
    p, vars := plugins, [];
    ghost var order: seq<string>, fieldOrders: map<string, seq<string>> := [], map[];
    var todo := plugins.Keys;
    while todo != {}
      invariant todo <= plugins.Keys && IsEnumeration(order, plugins.Keys - todo)
      invariant forall k :: k in todo ==> k in p && p[k] == plugins[k]
      invariant forall k :: k !in todo && OpensPlugin(plugins, k) ==> IsEnumeration(FieldOrder(fieldOrders, k), plugins[k].fields.Keys)
      invariant (p, vars) == PluginsFold(name, plugins, order, fieldOrders, formatValue)
      decreases |todo|
    {
      var plugin :| plugin in todo;
      PluginsFoldStep(name, plugins, order, fieldOrders, plugin, [], formatValue, p, vars);
      ghost var fo: seq<string> := [];
      if plugin == OnBehalfJwt || plugin == CasAuth {
        if p[plugin] != JNull {
          if p[plugin].JObj? {
            var m, vs;
            m, vs, fo := VariablizeFields(name, p[plugin].fields, formatValue);
            PluginsFoldStep(name, plugins, order, fieldOrders, plugin, fo, formatValue, p, vars);
            p := p[plugin := JObj(m)];
            vars := vars + vs;
          }
        }
      }
      EnumerationExtend(order, plugins.Keys, todo, plugin);
      FieldOrdersExtend(plugins, fieldOrders, todo, plugin, fo);
      todo := todo - {plugin};
      order := order + [plugin];
      fieldOrders := fieldOrders[plugin := fo];
    }
    so := SecretOrder(order, fieldOrders);
  }

  /** The route's plugins with the secret fields of the two secret plugins replaced by placeholders. */
  function RewrittenPlugins(name: string, plugins: PluginMap): PluginMap
  {
    map k | k in plugins :: if OpensPlugin(plugins, k) then JObj(RewrittenFields(name, plugins[k].fields)) else plugins[k]
  }

  /** The variables the inner loop emits for plugin `k`, none when the outer loop does not open it. */
  function PluginVars(name: string, plugins: PluginMap, fieldOrders: map<string, seq<string>>, k: string,
                      formatValue: Json -> string): seq<Variable>
  {
    if OpensPlugin(plugins, k) then FieldsFold(name, plugins[k].fields, FieldOrder(fieldOrders, k), formatValue).1 else []
  }

  /** `PluginVars` of `k` when the loop has visited `k`. */
  function VisitedVars(name: string, plugins: PluginMap, fieldOrders: map<string, seq<string>>, done: set<string>, k: string,
                       formatValue: Json -> string): seq<Variable>
  {
    if k in done then PluginVars(name, plugins, fieldOrders, k, formatValue) else []
  }

  /** The rewritten configurations of the secret plugins among `done`. */
  function RewrittenAmong(name: string, plugins: PluginMap, done: set<string>): PluginMap
  {
    map k | k in done && OpensPlugin(plugins, k) :: JObj(RewrittenFields(name, plugins[k].fields))
  }

  lemma RewrittenAmongStep(name: string, plugins: PluginMap, done: set<string>, k: string)
    requires k !in done
    ensures OpensPlugin(plugins, k) ==>
      RewrittenAmong(name, plugins, done + {k}) == RewrittenAmong(name, plugins, done)[k := JObj(RewrittenFields(name, plugins[k].fields))]
    ensures !OpensPlugin(plugins, k) ==> RewrittenAmong(name, plugins, done + {k}) == RewrittenAmong(name, plugins, done)
  {
  }

  /** One step of the outer fold on the plugin map, given what the inner loop made of `last`. */
  lemma PluginsFoldMapStep(name: string, plugins: PluginMap, order: seq<string>, fieldOrders: map<string, seq<string>>,
                           formatValue: Json -> string, rest: PluginMap)
    requires order != []
    requires PluginsFold(name, plugins, order[..|order| - 1], fieldOrders, formatValue).0 == plugins + rest
    requires var last := order[|order| - 1];
      OpensPlugin(plugins, last) ==>
        FieldsFold(name, plugins[last].fields, FieldOrder(fieldOrders, last), formatValue).0 == RewrittenFields(name, plugins[last].fields)
    ensures var last := order[|order| - 1];
      PluginsFold(name, plugins, order, fieldOrders, formatValue).0 ==
        plugins + if OpensPlugin(plugins, last) then rest[last := JObj(RewrittenFields(name, plugins[last].fields))] else rest
  {
    var init, last := order[..|order| - 1], order[|order| - 1];
    PluginsFoldMapSnoc(name, plugins, init, last, fieldOrders, formatValue);
    assert init + [last] == order;
    if OpensPlugin(plugins, last) {
      UnionUpdate(plugins, rest, last, JObj(RewrittenFields(name, plugins[last].fields)));
    }
  }

  /** Whatever order the outer loop takes, exactly the visited secret plugins are rewritten. */
  lemma {:induction false} PluginsFoldMap(name: string, plugins: PluginMap, order: seq<string>, done: set<string>,
                                          fieldOrders: map<string, seq<string>>, formatValue: Json -> string)
    requires IsEnumeration(order, done) && done <= plugins.Keys
    requires forall k :: k in done && OpensPlugin(plugins, k) ==> IsEnumeration(FieldOrder(fieldOrders, k), plugins[k].fields.Keys)
    ensures PluginsFold(name, plugins, order, fieldOrders, formatValue).0 == plugins + RewrittenAmong(name, plugins, done)
  {
    if order != [] {
      var last := order[|order| - 1];
      var before := done - {last};
      EnumerationInit(order, done);
      PluginsFoldMap(name, plugins, order[..|order| - 1], before, fieldOrders, formatValue);
      if OpensPlugin(plugins, last) {
        FieldsRewritten(name, plugins[last].fields, FieldOrder(fieldOrders, last), formatValue);
      }
      PluginsFoldMapStep(name, plugins, order, fieldOrders, formatValue, RewrittenAmong(name, plugins, before));
      RewrittenAmongStep(name, plugins, before, last);
      assert before + {last} == done;
    }
  }

  /**
   * Whatever order the outer loop takes, its variables are those of
   * `onbehalf-jwt` followed by those of `3ds-cas-auth`, or the other way round.
   */
  lemma {:induction false} PluginsFoldVars(name: string, plugins: PluginMap, order: seq<string>, done: set<string>,
                                           fieldOrders: map<string, seq<string>>, formatValue: Json -> string)
    requires IsEnumeration(order, done)
    ensures var vars := PluginsFold(name, plugins, order, fieldOrders, formatValue).1;
      var a := VisitedVars(name, plugins, fieldOrders, done, OnBehalfJwt, formatValue);
      var b := VisitedVars(name, plugins, fieldOrders, done, CasAuth, formatValue);
      vars == a + b || vars == b + a
  {
    if order != [] {
      var init, last := order[..|order| - 1], order[|order| - 1];
      var before := done - {last};
      EnumerationInit(order, done);
      PluginsFoldVars(name, plugins, init, before, fieldOrders, formatValue);
      PluginsFoldVarsSnoc(name, plugins, init, last, fieldOrders, formatValue);
      assert init + [last] == order;
      PutBack(done, last);
      VisitedVarsStep(name, plugins, fieldOrders, before, last, formatValue);
      EitherOrderStep(PluginsFold(name, plugins, init, fieldOrders, formatValue).1,
                      VisitedVars(name, plugins, fieldOrders, before, OnBehalfJwt, formatValue),
                      VisitedVars(name, plugins, fieldOrders, before, CasAuth, formatValue),
                      VisitedVars(name, plugins, fieldOrders, done, OnBehalfJwt, formatValue),
                      VisitedVars(name, plugins, fieldOrders, done, CasAuth, formatValue),
                      PluginVars(name, plugins, fieldOrders, last, formatValue));
    }
  }

  /** Visiting `last` adds its variables to the secret plugin it is, and changes nothing otherwise. */
  lemma VisitedVarsStep(name: string, plugins: PluginMap, fieldOrders: map<string, seq<string>>, before: set<string>, last: string,
                        formatValue: Json -> string)
    requires last !in before
    ensures var a0, b0 := VisitedVars(name, plugins, fieldOrders, before, OnBehalfJwt, formatValue),
                          VisitedVars(name, plugins, fieldOrders, before, CasAuth, formatValue);
      var a, b := VisitedVars(name, plugins, fieldOrders, before + {last}, OnBehalfJwt, formatValue),
                  VisitedVars(name, plugins, fieldOrders, before + {last}, CasAuth, formatValue);
      var pv := PluginVars(name, plugins, fieldOrders, last, formatValue);
      || (a0 == [] && a == pv && b == b0)
      || (b0 == [] && b == pv && a == a0)
      || (pv == [] && a == a0 && b == b0)
  {
    assert OnBehalfJwt != CasAuth;
  }

  /** Appending the variables of one plugin to either order of the two lists. */
  lemma EitherOrderStep(v0: seq<Variable>, a0: seq<Variable>, b0: seq<Variable>, a: seq<Variable>, b: seq<Variable>, pv: seq<Variable>)
    requires v0 == a0 + b0 || v0 == b0 + a0
    requires || (a0 == [] && a == pv && b == b0)
             || (b0 == [] && b == pv && a == a0)
             || (pv == [] && a == a0 && b == b0)
    ensures v0 + pv == a + b || v0 + pv == b + a
  {
    if a0 == [] && a == pv && b == b0 {
      assert v0 == b0 by { assert a0 + b0 == b0 && b0 + a0 == b0; }
    } else if b0 == [] && b == pv && a == a0 {
      assert v0 == a0 by { assert a0 + b0 == a0 && b0 + a0 == a0; }
    } else {
      assert v0 + pv == v0;
    }
  }

  /**
   * For every order `RouteList`'s plugin pass may take, the plugins come out
   * as `RewrittenPlugins`, and the variables are the secret-field variables of
   * the two secret plugins, one plugin after the other; each plugin's
   * variables name an enumeration of its secret fields.
   */
  lemma SecretsMeaning(name: string, plugins: PluginMap, so: SecretOrder, formatValue: Json -> string)
    requires IsSecretOrder(so, plugins)
    ensures var (p, vars) := PluginsFold(name, plugins, so.plugins, so.fields, formatValue);
      var a := PluginVars(name, plugins, so.fields, OnBehalfJwt, formatValue);
      var b := PluginVars(name, plugins, so.fields, CasAuth, formatValue);
      && p == RewrittenPlugins(name, plugins)
      && (vars == a + b || vars == b + a)
    ensures forall k :: OpensPlugin(plugins, k) ==> IsEnumeration(Filter(FieldOrder(so.fields, k), IsSecretField), SecretFields(plugins[k].fields))
  {
    PluginsFoldMap(name, plugins, so.plugins, plugins.Keys, so.fields, formatValue);
    assert plugins + RewrittenAmong(name, plugins, plugins.Keys) == RewrittenPlugins(name, plugins);
    PluginsFoldVars(name, plugins, so.plugins, plugins.Keys, so.fields, formatValue);
    assert VisitedVars(name, plugins, so.fields, plugins.Keys, OnBehalfJwt, formatValue) == PluginVars(name, plugins, so.fields, OnBehalfJwt, formatValue);
    assert VisitedVars(name, plugins, so.fields, plugins.Keys, CasAuth, formatValue) == PluginVars(name, plugins, so.fields, CasAuth, formatValue);
    forall k | OpensPlugin(plugins, k)
      ensures IsEnumeration(Filter(FieldOrder(so.fields, k), IsSecretField), SecretFields(plugins[k].fields))
    {
      FieldsRewritten(name, plugins[k].fields, FieldOrder(so.fields, k), formatValue);
    }
  }

  /* ---------------------------------------------------------------- one route, upstream, service */

  /** `VariablizationOfNodeRoute`: node keys `Route.<name>_<id>.Upstream.Host.<i>`; an absent upstream is a nil dereference. */
  function RouteNodesVariablized(ro: Route, nodesFormat: Nodes -> Option<seq<Node>>): Result<(Route, seq<Variable>)>
  {
    if ro.upstream.None? then Err(Panic(NilDereference))
    else
      match NodesVariablized("Route." + ro.name + "_", ro.base.id, ".Upstream.Host.", ro.upstream.value, nodesFormat)
      case Err(e) => Err(e)
      case Ok((def, vars)) => Ok((ro.(upstream := Some(def)), vars))
  }

  method VariablizationOfNodeRoute(ro: Route, nodesFormat: Nodes -> Option<seq<Node>>) returns (r: Result<(Route, seq<Variable>)>)
    ensures r == RouteNodesVariablized(ro, nodesFormat)
  {
    if ro.upstream.None? {
      return Err(Panic(NilDereference));
    }
    var n := VariablizeNodes("Route." + ro.name + "_", ro.base.id, ".Upstream.Host.", ro.upstream.value, nodesFormat);
    if n.Err? {
      return Err(n.error);
    }
    r := Ok((ro.(upstream := Some(n.value.0)), n.value.1));
  }

  /** `RouteList` on one listed route, when its plugin loops take the orders `so`. */
  function RouteVariablized(route: Route, helpers: Helpers, so: SecretOrder): Result<(Route, seq<Variable>)>
  {
    var (hosted, hostVars) := HostsVariablized(route);
    var noded := if hosted.upstream.Some? then RouteNodesVariablized(hosted, helpers.nodesFormat) else Ok((hosted, []));
    match noded
    case Err(e) => Err(e)
    case Ok((ro, nodeVars)) =>
      if ro.plugins.Some? then
        var (p, secretVars) := PluginsFold(ro.name, ro.plugins.value, so.plugins, so.fields, helpers.formatValue);
        Ok((ro.(plugins := Some(p)), hostVars + nodeVars + secretVars))
      else Ok((ro, hostVars + nodeVars))
  }

  /** The body of `RouteList`'s loop: the deep copy (a value copy here) is variablized pass by pass. */
  method VariablizeRoute(route: Route, helpers: Helpers) returns (r: Result<(Route, seq<Variable>)>, ghost so: SecretOrder)
    ensures r.Ok? && route.plugins.Some? ==> IsSecretOrder(so, route.plugins.value)
    ensures r == RouteVariablized(route, helpers, so)
  {
    so := SecretOrder([], map[]);
    var ro := route;
    var variables;
    ro, variables := VariablizeHosts(ro);
    ghost var hosted, hostVars := ro, variables;
    ghost var nodeVars := [];
    if ro.upstream.Some? {
      var n := VariablizationOfNodeRoute(ro, helpers.nodesFormat);
      if n.Err? {
        r := Err(n.error);
        return;
      }
      ro := n.value.0;
      nodeVars := n.value.1;
      variables := variables + n.value.1;
    }
    assert (if hosted.upstream.Some? then RouteNodesVariablized(hosted, helpers.nodesFormat) else Ok((hosted, []))) == Ok((ro, nodeVars));
    assert (hosted, hostVars) == HostsVariablized(route);
    assert variables == hostVars + nodeVars;
    ghost var noded := ro;
    if ro.plugins.Some? {
      var p, vs;
      p, vs, so := VariablizeSecrets(ro.name, ro.plugins.value, helpers.formatValue);
      ro := ro.(plugins := Some(p));
      variables := variables + vs;
      assert (ro, variables) == (noded.(plugins := Some(PluginsFold(noded.name, noded.plugins.value, so.plugins, so.fields, helpers.formatValue).0)),
        hostVars + nodeVars + PluginsFold(noded.name, noded.plugins.value, so.plugins, so.fields, helpers.formatValue).1);
    }
    r := Ok((ro, variables));
  }

  /** `VariablizationOfNodeUpstream`: node keys `Upstream.<name>_<id>.Host.<i>`. */
  function UpstreamVariablized(up: Upstream, nodesFormat: Nodes -> Option<seq<Node>>): Result<(Upstream, seq<Variable>)>
  {
    match NodesVariablized("Upstream." + up.def.name + "_", up.base.id, ".Host.", up.def, nodesFormat)
    case Err(e) => Err(e)
    case Ok((def, vars)) => Ok((up.(def := def), vars))
  }

  method VariablizationOfNodeUpstream(up: Upstream, nodesFormat: Nodes -> Option<seq<Node>>) returns (r: Result<(Upstream, seq<Variable>)>)
    ensures r == UpstreamVariablized(up, nodesFormat)
  {
    var n := VariablizeNodes("Upstream." + up.def.name + "_", up.base.id, ".Host.", up.def, nodesFormat);
    if n.Err? {
      return Err(n.error);
    }
    r := Ok((up.(def := n.value.0), n.value.1));
  }

  /** `VariablizationOfNodeService`: node keys `Service.<name>_<id>.Upstream.Host.<i>`; an absent upstream is a nil dereference. */
  function ServiceNodesVariablized(se: Service, nodesFormat: Nodes -> Option<seq<Node>>): Result<(Service, seq<Variable>)>
  {
    if se.upstream.None? then Err(Panic(NilDereference))
    else
      match NodesVariablized("Service." + se.name + "_", se.base.id, ".Upstream.Host.", se.upstream.value, nodesFormat)
      case Err(e) => Err(e)
      case Ok((def, vars)) => Ok((se.(upstream := Some(def)), vars))
  }

  method VariablizationOfNodeService(se: Service, nodesFormat: Nodes -> Option<seq<Node>>) returns (r: Result<(Service, seq<Variable>)>)
    ensures r == ServiceNodesVariablized(se, nodesFormat)
  {
    if se.upstream.None? {
      return Err(Panic(NilDereference));
    }
    var n := VariablizeNodes("Service." + se.name + "_", se.base.id, ".Upstream.Host.", se.upstream.value, nodesFormat);
    if n.Err? {
      return Err(n.error);
    }
    r := Ok((se.(upstream := Some(n.value.0)), n.value.1));
  }

  /** `ServiceList` on one service's deep copy: only a service without `upstream_id` is variablized. */
  function ServiceVariablized(se: Service, nodesFormat: Nodes -> Option<seq<Node>>): Result<(Service, seq<Variable>)>
  {
    if se.upstreamId == NoId then ServiceNodesVariablized(se, nodesFormat) else Ok((se, []))
  }

  /* ---------------------------------------------------------------- meaning of one route */

  /** The node variables of a route's upstream pass, none without an upstream. */
  function RouteNodeVars(route: Route, nodesFormat: Nodes -> Option<seq<Node>>): seq<Variable>
  {
    if route.upstream.Some? then
      match NodesVariablized("Route." + route.name + "_", route.base.id, ".Upstream.Host.", route.upstream.value, nodesFormat)
      case Ok((_, vars)) => vars
      case Err(_) => []
    else []
  }

  /** The error of the node pass on the route's upstream, if it fails. */
  function RouteNodesError(route: Route, nodesFormat: Nodes -> Option<seq<Node>>): Option<Error>
  {
    if route.upstream.None? then None
    else
      match NodesVariablized("Route." + route.name + "_", route.base.id, ".Upstream.Host.", route.upstream.value, nodesFormat)
      case Err(e) => Some(e)
      case Ok(_) => None
  }

  /**
   * For every order its plugin loops may take, `RouteList` fails on a route
   * exactly when the route has an upstream whose nodes cannot be variablized,
   * with that error.
   */
  lemma RouteVariablizedFails(route: Route, helpers: Helpers, so: SecretOrder)
    ensures var r := RouteVariablized(route, helpers, so);
      && (r.Err? <==> route.upstream.Some? && RouteNodesError(route, helpers.nodesFormat).Some?)
      && (r.Err? ==> r.error == RouteNodesError(route, helpers.nodesFormat).value)
  {
  }

  /**
   * For every order its plugin loops may take, the exported copy of a route
   * differs from it in host, hosts, upstream and plugins only: hosts as
   * `HostsVariablized` says, the upstream's nodes rewritten, the plugins
   * `RewrittenPlugins`; nil stays nil.
   */
  lemma RouteVariablizedRoute(route: Route, helpers: Helpers, so: SecretOrder)
    requires route.plugins.Some? ==> IsSecretOrder(so, route.plugins.value)
    requires RouteVariablized(route, helpers, so).Ok?
    ensures var ro := RouteVariablized(route, helpers, so).value.0;
      var hosted := HostsVariablized(route).0;
      && ro == route.(host := hosted.host, hosts := hosted.hosts, upstream := ro.upstream, plugins := ro.plugins)
      && (route.upstream.None? ==> ro.upstream.None?)
      && (route.upstream.Some? ==>
           ro.upstream == Some(NodesVariablized("Route." + route.name + "_", route.base.id, ".Upstream.Host.", route.upstream.value,
                                                helpers.nodesFormat).value.0))
      && (route.plugins.None? ==> ro.plugins.None?)
      && (route.plugins.Some? ==> ro.plugins == Some(RewrittenPlugins(route.name, route.plugins.value)))
  {
    HostsVariablizedMeaning(route);
    if route.plugins.Some? {
      SecretsMeaning(route.name, route.plugins.value, so, helpers.formatValue);
    }
  }

  /**
   * The variables of one route: the host variables, then the node variables,
   * then the secret variables of `onbehalf-jwt` and `3ds-cas-auth` in one of
   * the two orders.
   */
  lemma RouteVariablizedVars(route: Route, helpers: Helpers, so: SecretOrder)
    requires route.plugins.Some? ==> IsSecretOrder(so, route.plugins.value)
    requires RouteVariablized(route, helpers, so).Ok?
    ensures var vars := RouteVariablized(route, helpers, so).value.1;
      var front := HostsVariablized(route).1 + RouteNodeVars(route, helpers.nodesFormat);
      if route.plugins.Some? then
        var a := PluginVars(route.name, route.plugins.value, so.fields, OnBehalfJwt, helpers.formatValue);
        var b := PluginVars(route.name, route.plugins.value, so.fields, CasAuth, helpers.formatValue);
        vars == front + (a + b) || vars == front + (b + a)
      else vars == front
  {
    HostsVariablizedMeaning(route);
    if route.plugins.Some? {
      SecretsMeaning(route.name, route.plugins.value, so, helpers.formatValue);
    }
  }


  /* ---------------------------------------------------------------- the lists */

  /**
   * The loop of the three list functions: row `k` of the listing rewritten by
   * `f(k, row)`, the rewritten rows collected and their variables appended,
   * the first error ending the loop.
   */
  function RowsFold<T>(rows: seq<T>, f: (nat, T) -> Result<(T, seq<Variable>)>): Result<(seq<T>, seq<Variable>)>
  {
    if rows == [] then Ok(([], []))
    else
      match RowsFold(rows[..|rows| - 1], f)
      case Err(e) => Err(e)
      case Ok((done, vars)) =>
        match f(|rows| - 1, rows[|rows| - 1])
        case Err(e) => Err(e)
        case Ok((row, vs)) => Ok((done + [row], vars + vs))
  }

  /** The variables one rewritten row contributes, none when it fails. */
  function VarsOf<T>(r: Result<(T, seq<Variable>)>): seq<Variable>
  {
    if r.Ok? then r.value.1 else []
  }

  /** The variables of every row, row by row. */
  function RowsVars<T>(rows: seq<T>, f: (nat, T) -> Result<(T, seq<Variable>)>): seq<Variable>
  {
    if rows == [] then [] else RowsVars(rows[..|rows| - 1], f) + VarsOf(f(|rows| - 1, rows[|rows| - 1]))
  }

  /** The first row whose rewriting fails. */
  ghost predicate FirstFailing<T>(rows: seq<T>, f: (nat, T) -> Result<(T, seq<Variable>)>, k: int)
  {
    && 0 <= k < |rows| && f(k, rows[k]).Err?
    && (forall j :: 0 <= j < k ==> f(j, rows[j]).Ok?)
  }

  /** A failing prefix makes the whole loop fail with its error. */
  lemma {:induction false} RowsFoldErrExtends<T>(rows: seq<T>, n: nat, f: (nat, T) -> Result<(T, seq<Variable>)>)
    requires n <= |rows| && RowsFold(rows[..n], f).Err?
    ensures RowsFold(rows, f) == RowsFold(rows[..n], f)
    decreases |rows| - n
  {
    if n < |rows| {
      assert rows[..n + 1][..n] == rows[..n];
      RowsFoldErrExtends(rows, n + 1, f);
    } else {
      assert rows[..n] == rows;
    }
  }

  /** One more row: the loop goes on with it, or stops with its error. */
  lemma RowsFoldStep<T>(rows: seq<T>, i: nat, f: (nat, T) -> Result<(T, seq<Variable>)>, done: seq<T>, vars: seq<Variable>)
    requires i < |rows| && RowsFold(rows[..i], f) == Ok((done, vars))
    ensures f(i, rows[i]).Err? ==> RowsFold(rows[..i + 1], f) == Err(f(i, rows[i]).error)
    ensures f(i, rows[i]).Ok? ==> RowsFold(rows[..i + 1], f) == Ok((done + [f(i, rows[i]).value.0], vars + f(i, rows[i]).value.1))
  {
    assert rows[..i + 1][..i] == rows[..i];
    assert rows[..i + 1][i] == rows[i];
  }

  /** The loop only calls `f` on the rows, so two functions that agree there give the same result. */
  lemma {:induction false} RowsFoldAgree<T>(rows: seq<T>, f: (nat, T) -> Result<(T, seq<Variable>)>, g: (nat, T) -> Result<(T, seq<Variable>)>)
    requires forall k :: 0 <= k < |rows| ==> f(k, rows[k]) == g(k, rows[k])
    ensures RowsFold(rows, f) == RowsFold(rows, g)
  {
    if rows != [] {
      var p := rows[..|rows| - 1];
      assert forall k :: 0 <= k < |p| ==> p[k] == rows[k];
      RowsFoldAgree(p, f, g);
    }
  }

  /**
   * The loop fails exactly when some row fails, with the error of the first
   * failing row; otherwise it yields one rewritten row per row, in order,
   * and the rows' variables row by row.
   */
  lemma {:induction false} RowsFoldMeaning<T>(rows: seq<T>, f: (nat, T) -> Result<(T, seq<Variable>)>)
    ensures var r := RowsFold(rows, f);
      && (r.Err? <==> exists k :: 0 <= k < |rows| && f(k, rows[k]).Err?)
      && (r.Err? ==> exists k :: FirstFailing(rows, f, k) && r.error == f(k, rows[k]).error)
      && (r.Ok? ==> |r.value.0| == |rows| && r.value.1 == RowsVars(rows, f))
      && (r.Ok? ==> forall k :: 0 <= k < |rows| ==> f(k, rows[k]).Ok? && r.value.0[k] == f(k, rows[k]).value.0)
  {
    if rows != [] {
      var p := rows[..|rows| - 1];
      var n := |rows| - 1;
      assert forall k :: 0 <= k < |p| ==> p[k] == rows[k];
      RowsFoldMeaning(p, f);
      var rp := RowsFold(p, f);
      if rp.Err? {
        var k :| FirstFailing(p, f, k) && rp.error == f(k, p[k]).error;
        assert FirstFailing(rows, f, k);
      } else if f(n, rows[n]).Err? {
        assert FirstFailing(rows, f, n);
      }
    }
  }

  /** The orders of route `k`; the placeholder value is for rows past the orders, which no fitting call reaches. */
  function OrderAt(orders: seq<SecretOrder>, k: nat): SecretOrder
  {
    if k < |orders| then orders[k] else SecretOrder([], map[])
  }

  /** `RouteList`'s rewriting of route `k`, its plugin loops taking the orders `OrderAt(orders, k)`. */
  function RouteRow(helpers: Helpers, orders: seq<SecretOrder>): (nat, Route) -> Result<(Route, seq<Variable>)>
  {
    (k: nat, route: Route) => RouteVariablized(route, helpers, OrderAt(orders, k))
  }

  /** The loop of `RouteList` over the listed routes. */
  function RoutesVariablized(rows: seq<Route>, helpers: Helpers, orders: seq<SecretOrder>): Result<(seq<Route>, seq<Variable>)>
  {
    RowsFold(rows, RouteRow(helpers, orders))
  }

  /** The loop only reads the orders of the routes it visits. */
  lemma RoutesFrame(rows: seq<Route>, helpers: Helpers, orders: seq<SecretOrder>, more: seq<SecretOrder>)
    requires |rows| <= |orders|
    ensures RoutesVariablized(rows, helpers, orders + more) == RoutesVariablized(rows, helpers, orders)
  {
    forall k | 0 <= k < |rows|
      ensures RouteRow(helpers, orders + more)(k, rows[k]) == RouteRow(helpers, orders)(k, rows[k])
    {
      assert OrderAt(orders + more, k) == OrderAt(orders, k);
    }
    RowsFoldAgree(rows, RouteRow(helpers, orders + more), RouteRow(helpers, orders));
  }

  /** `UpstreamList`'s rewriting of one upstream. */
  function UpstreamRow(nodesFormat: Nodes -> Option<seq<Node>>): (nat, Upstream) -> Result<(Upstream, seq<Variable>)>
  {
    (k: nat, up: Upstream) => UpstreamVariablized(up, nodesFormat)
  }

  /** The loop of `UpstreamList`. */
  function UpstreamsVariablized(rows: seq<Upstream>, nodesFormat: Nodes -> Option<seq<Node>>): Result<(seq<Upstream>, seq<Variable>)>
  {
    RowsFold(rows, UpstreamRow(nodesFormat))
  }

  /**
   * `ServiceList`'s rewriting of one service as written (line 724): the
   * variables come from the variablized deep copy, but the original service
   * is what is appended.
   */
  function ServiceRowAsWritten(nodesFormat: Nodes -> Option<seq<Node>>): (nat, Service) -> Result<(Service, seq<Variable>)>
  {
    (k: nat, se: Service) =>
      match ServiceVariablized(se, nodesFormat)
      case Err(e) => Err(e)
      case Ok((_, vs)) => Ok((se, vs))
  }

  /** `ServiceList`'s rewriting of one service as evidently intended: the variablized copy is appended, as in `RouteList` and `UpstreamList`. */
  function ServiceRow(nodesFormat: Nodes -> Option<seq<Node>>): (nat, Service) -> Result<(Service, seq<Variable>)>
  {
    (k: nat, se: Service) => ServiceVariablized(se, nodesFormat)
  }

  /** The loop of `ServiceList` as written. */
  function ServicesAsWritten(rows: seq<Service>, nodesFormat: Nodes -> Option<seq<Node>>): Result<(seq<Service>, seq<Variable>)>
  {
    RowsFold(rows, ServiceRowAsWritten(nodesFormat))
  }

  /** The loop of `ServiceList` as evidently intended. */
  function ServicesVariablized(rows: seq<Service>, nodesFormat: Nodes -> Option<seq<Node>>): Result<(seq<Service>, seq<Variable>)>
  {
    RowsFold(rows, ServiceRow(nodesFormat))
  }

  /* ---------------------------------------------------------------- the bundle */

  /** The value of a `loader.DataSetsExport`. */
  datatype ExportData = ExportData(
    consumers: seq<Consumer>,
    routes: seq<Route>,
    upstreams: seq<Upstream>,
    services: seq<Service>,
    variables: seq<Variable>)

  /** The orders of `RouteList`'s plugin loops fit the routes they were taken on. */
  ghost predicate OrdersFit(orders: seq<SecretOrder>, rows: seq<Route>)
  {
    forall k :: 0 <= k < |orders| && k < |rows| && rows[k].plugins.Some? ==> IsSecretOrder(orders[k], rows[k].plugins.value)
  }

  /** The order of one more route's secrets keeps the orders fitting. */
  lemma OrdersFitSnoc(orders: seq<SecretOrder>, rows: seq<Route>, so: SecretOrder)
    requires OrdersFit(orders, rows) && |orders| < |rows|
    requires rows[|orders|].plugins.Some? ==> IsSecretOrder(so, rows[|orders|].plugins.value)
    ensures OrdersFit(orders + [so], rows)
  {
    forall k | 0 <= k < |orders| + 1 && rows[k].plugins.Some?
      ensures IsSecretOrder((orders + [so])[k], rows[k].plugins.value)
    {
      if k < |orders| {
        assert (orders + [so])[k] == orders[k];
      }
    }
  }

  /** `RouteList`: the store's error, or the loop over the listed routes. */
  function RouteStage(listed: Result<seq<Route>>, helpers: Helpers, orders: seq<SecretOrder>): Result<(seq<Route>, seq<Variable>)>
  {
    if listed.Err? then Err(listed.error) else RoutesVariablized(listed.value, helpers, orders)
  }

  /** `UpstreamList`: the store's error, or the loop over the listed upstreams. */
  function UpstreamStage(listed: Result<seq<Upstream>>, nodesFormat: Nodes -> Option<seq<Node>>): Result<(seq<Upstream>, seq<Variable>)>
  {
    if listed.Err? then Err(listed.error) else UpstreamsVariablized(listed.value, nodesFormat)
  }

  /** `ServiceList` as evidently intended: the store's error, or the loop over the listed services. */
  function ServiceStage(listed: Result<seq<Service>>, nodesFormat: Nodes -> Option<seq<Node>>): Result<(seq<Service>, seq<Variable>)>
  {
    if listed.Err? then Err(listed.error) else ServicesVariablized(listed.value, nodesFormat)
  }

  /** The export bundle the list functions fill in through the `conf` reference. */
  class DataSetsExport {
    var consumers: seq<Consumer>
    var routes: seq<Route>
    var upstreams: seq<Upstream>
    var services: seq<Service>
    var variables: seq<Variable>

    function Value(): ExportData
      reads this
    {
      ExportData(consumers, routes, upstreams, services, variables)
    }

    constructor ()
      ensures Value() == ExportData([], [], [], [], [])
    {
      consumers, routes, upstreams, services, variables := [], [], [], [], [];
    }

    /** `ConsumerList`: the listed consumers unchanged; on a store error the consumers are set empty and the error returned. */
    method ConsumerList(listed: Result<seq<Consumer>>) returns (err: Option<Error>)
      modifies this
      ensures listed.Err? ==> err == Some(listed.error) && Value() == old(Value()).(consumers := [])
      ensures listed.Ok? ==> err == None && Value() == old(Value()).(consumers := listed.value)
    {
      var list: seq<Consumer> := [];
      if listed.Err? {
        consumers := list;
        return Some(listed.error);
      }
      for i := 0 to |listed.value|
        invariant list == listed.value[..i]
      {
        list := list + [listed.value[i]];
      }
      assert list == listed.value;
      consumers := list;
      err := None;
    }

    /**
     * `RouteList`: every listed route's copy variablized, the variables
     * appended to the bundle's; on an error the bundle is left as it was.
     */
    method RouteList(listed: Result<seq<Route>>, helpers: Helpers) returns (err: Option<Error>, ghost orders: seq<SecretOrder>)
      modifies this
      ensures RouteStage(listed, helpers, orders).Err? ==> err == Some(RouteStage(listed, helpers, orders).error) && Value() == old(Value())
      ensures RouteStage(listed, helpers, orders).Ok? ==>
        && err == None && |orders| == |listed.value| && OrdersFit(orders, listed.value)
        && Value() == old(Value()).(routes := RouteStage(listed, helpers, orders).value.0,
                                    variables := old(variables) + RouteStage(listed, helpers, orders).value.1)
    {
      orders := [];
      if listed.Err? {
        return Some(listed.error), orders;
      }
      var rows := listed.value;
      var list: seq<Route> := [];
      var vars: seq<Variable> := [];
      for i := 0 to |rows|
        invariant |orders| == i && OrdersFit(orders, rows)
        invariant RoutesVariablized(rows[..i], helpers, orders) == Ok((list, vars))
        invariant Value() == old(Value())
      {
        var r;
        ghost var so;
        r, so := VariablizeRoute(rows[i], helpers);
        RoutesFrame(rows[..i], helpers, orders, [so]);
        assert OrderAt(orders + [so], i) == so;
        RowsFoldStep(rows, i, RouteRow(helpers, orders + [so]), list, vars);
        if r.Err? {
          RowsFoldErrExtends(rows, i + 1, RouteRow(helpers, orders + [so]));
          return Some(r.error), orders + [so];
        }
        OrdersFitSnoc(orders, rows, so);
        orders := orders + [so];
        list := list + [r.value.0];
        vars := vars + r.value.1;
      }
      TakeAll(rows);
      routes := list;
      variables := variables + vars;
      err := None;
    }

    /** `UpstreamList`: every listed upstream's copy variablized, the variables appended. */
    method UpstreamList(listed: Result<seq<Upstream>>, nodesFormat: Nodes -> Option<seq<Node>>) returns (err: Option<Error>)
      modifies this
      ensures UpstreamStage(listed, nodesFormat).Err? ==> err == Some(UpstreamStage(listed, nodesFormat).error) && Value() == old(Value())
      ensures UpstreamStage(listed, nodesFormat).Ok? ==>
        && err == None
        && Value() == old(Value()).(upstreams := UpstreamStage(listed, nodesFormat).value.0,
                                    variables := old(variables) + UpstreamStage(listed, nodesFormat).value.1)
    {
      if listed.Err? {
        return Some(listed.error);
      }
      var rows := listed.value;
      var list: seq<Upstream> := [];
      var vars: seq<Variable> := [];
      for i := 0 to |rows|
        invariant UpstreamsVariablized(rows[..i], nodesFormat) == Ok((list, vars))
        invariant Value() == old(Value())
      {
        var r := VariablizationOfNodeUpstream(rows[i], nodesFormat);
        RowsFoldStep(rows, i, UpstreamRow(nodesFormat), list, vars);
        if r.Err? {
          RowsFoldErrExtends(rows, i + 1, UpstreamRow(nodesFormat));
          return Some(r.error);
        }
        list := list + [r.value.0];
        vars := vars + r.value.1;
      }
      TakeAll(rows);
      upstreams := list;
      variables := variables + vars;
      err := None;
    }

    /**
     * `ServiceList` as evidently intended: every listed service's copy, variablized
     * when it has no `upstream_id`, is appended, and its variables after the bundle's.
     */
    method ServiceList(listed: Result<seq<Service>>, nodesFormat: Nodes -> Option<seq<Node>>) returns (err: Option<Error>)
      modifies this
      ensures ServiceStage(listed, nodesFormat).Err? ==> err == Some(ServiceStage(listed, nodesFormat).error) && Value() == old(Value())
      ensures ServiceStage(listed, nodesFormat).Ok? ==>
        && err == None
        && Value() == old(Value()).(services := ServiceStage(listed, nodesFormat).value.0,
                                    variables := old(variables) + ServiceStage(listed, nodesFormat).value.1)
    {
      if listed.Err? {
        return Some(listed.error);
      }
      var rows := listed.value;
      var list: seq<Service> := [];
      var vars: seq<Variable> := [];
      for i := 0 to |rows|
        invariant ServicesVariablized(rows[..i], nodesFormat) == Ok((list, vars))
        invariant Value() == old(Value())
      {
        var se := rows[i];
        var vs := [];
        RowsFoldStep(rows, i, ServiceRow(nodesFormat), list, vars);
        if se.upstreamId == NoId {
          var r := VariablizationOfNodeService(se, nodesFormat);
          if r.Err? {
            RowsFoldErrExtends(rows, i + 1, ServiceRow(nodesFormat));
            return Some(r.error);
          }
          se, vs := r.value.0, r.value.1;
        }
        list := list + [se];
        vars := vars + vs;
      }
      TakeAll(rows);
      services := list;
      variables := variables + vars;
      err := None;
    }
  }

  /** What `ExportConfiguration` returns, when route `k`'s plugin loops take the orders `OrderAt(orders, k)`. */
  function Configuration(consumers: Result<seq<Consumer>>, routes: Result<seq<Route>>, upstreams: Result<seq<Upstream>>,
                         services: Result<seq<Service>>, helpers: Helpers, orders: seq<SecretOrder>): Result<ExportData>
  {
    if consumers.Err? then Err(consumers.error)
    else match RouteStage(routes, helpers, orders)
    case Err(e) => Err(e)
    case Ok((rs, routeVars)) =>
      match UpstreamStage(upstreams, helpers.nodesFormat)
      case Err(e) => Err(e)
      case Ok((ups, upstreamVars)) =>
        match ServiceStage(services, helpers.nodesFormat)
        case Err(e) => Err(e)
        case Ok((ses, serviceVars)) =>
          Ok(ExportData(consumers.value, rs, ups, ses, routeVars + upstreamVars + serviceVars))
  }

  /**
   * `ExportConfiguration`: consumers, routes, upstreams and services in that
   * order into one fresh bundle, stopping at the first error.
   */
  method ExportConfiguration(consumers: Result<seq<Consumer>>, routes: Result<seq<Route>>, upstreams: Result<seq<Upstream>>,
                             services: Result<seq<Service>>, helpers: Helpers)
    returns (r: Result<ExportData>, ghost orders: seq<SecretOrder>)
    ensures r.Ok? ==> routes.Ok? && |orders| == |routes.value| && OrdersFit(orders, routes.value)
    ensures r == Configuration(consumers, routes, upstreams, services, helpers, orders)
  {
    orders := [];
    var configuration := new DataSetsExport();
    var err := configuration.ConsumerList(consumers);
    if err.Some? {
      return Err(err.value), orders;
    }
    assert configuration.Value() == ExportData(consumers.value, [], [], [], []);
    err, orders := configuration.RouteList(routes, helpers);
    ghost var rs := RouteStage(routes, helpers, orders);
    if err.Some? {
      return Err(err.value), orders;
    }
    assert configuration.Value() == ExportData(consumers.value, rs.value.0, [], [], rs.value.1);
    err := configuration.UpstreamList(upstreams, helpers.nodesFormat);
    ghost var us := UpstreamStage(upstreams, helpers.nodesFormat);
    if err.Some? {
      return Err(err.value), orders;
    }
    assert configuration.Value() == ExportData(consumers.value, rs.value.0, us.value.0, [], rs.value.1 + us.value.1);
    err := configuration.ServiceList(services, helpers.nodesFormat);
    ghost var ss := ServiceStage(services, helpers.nodesFormat);
    if err.Some? {
      return Err(err.value), orders;
    }
    assert configuration.Value() == ExportData(consumers.value, rs.value.0, us.value.0, ss.value.0, rs.value.1 + us.value.1 + ss.value.1);
    r := Ok(configuration.Value());
  }

  /* ---------------------------------------------------------------- meaning of the lists */

  /** `def'` is `def` with its nodes in list form, each host the placeholder of `prefix` and the node's index. */
  ghost predicate NodesPlaceheld(def: UpstreamDef, def': UpstreamDef, prefix: string, nodesFormat: Nodes -> Option<seq<Node>>)
  {
    var f := nodesFormat(def.nodes);
    && f.Some? && def' == def.(nodes := def'.nodes) && def'.nodes.NodeList?
    && |def'.nodes.list| == |f.value|
    && (forall i :: 0 <= i < |f.value| ==> def'.nodes.list[i] == f.value[i].(host := Placeholder(prefix + Itoa(i))))
  }

  lemma NodesVariablizedPlaceheld(head: string, id: Id, tail: string, def: UpstreamDef, nodesFormat: Nodes -> Option<seq<Node>>)
    requires NodesVariablized(head, id, tail, def, nodesFormat).Ok?
    ensures id.StrId? || |nodesFormat(def.nodes).value| == 0
    ensures NodesPlaceheld(def, NodesVariablized(head, id, tail, def, nodesFormat).value.0, head + IdString(id) + tail, nodesFormat)
  {
    NodesVariablizedMeaning(head, id, tail, def, nodesFormat);
  }

  /** A route the export fails on: its upstream's nodes cannot be variablized. */
  predicate RouteFails(route: Route, nodesFormat: Nodes -> Option<seq<Node>>)
  {
    route.upstream.Some? && RouteNodesError(route, nodesFormat).Some?
  }

  /** Whatever orders the plugin loops take, `RouteList`'s loop fails exactly when one of the routes does, with the first one's error. */
  lemma RoutesVariablizedFails(rows: seq<Route>, helpers: Helpers, orders: seq<SecretOrder>)
    ensures var r := RoutesVariablized(rows, helpers, orders);
      && (r.Err? <==> exists k :: 0 <= k < |rows| && RouteFails(rows[k], helpers.nodesFormat))
      && (r.Err? ==> exists k :: 0 <= k < |rows| && RouteFails(rows[k], helpers.nodesFormat)
                                && r.error == RouteNodesError(rows[k], helpers.nodesFormat).value
                                && forall j :: 0 <= j < k ==> !RouteFails(rows[j], helpers.nodesFormat))
  {
    var f := RouteRow(helpers, orders);
    RowsFoldMeaning(rows, f);
    forall k | 0 <= k < |rows|
      ensures f(k, rows[k]).Err? <==> RouteFails(rows[k], helpers.nodesFormat)
      ensures f(k, rows[k]).Err? ==> f(k, rows[k]).error == RouteNodesError(rows[k], helpers.nodesFormat).value
    {
      RouteVariablizedFails(rows[k], helpers, OrderAt(orders, k));
    }
  }

  /**
   * With orders that fit, a successful `RouteList` loop exports one copy per
   * route, in order; each differs from its route in host, hosts, upstream
   * and plugins only, as `RouteVariablizedRoute` says.
   */
  lemma RoutesVariablizedRoutes(rows: seq<Route>, helpers: Helpers, orders: seq<SecretOrder>)
    requires |rows| <= |orders| && OrdersFit(orders, rows)
    requires RoutesVariablized(rows, helpers, orders).Ok?
    ensures var routes := RoutesVariablized(rows, helpers, orders).value.0;
      && |routes| == |rows|
      && (forall k :: 0 <= k < |rows| ==>
           && routes[k] == rows[k].(host := HostsVariablized(rows[k]).0.host, hosts := HostsVariablized(rows[k]).0.hosts,
                                    upstream := routes[k].upstream, plugins := routes[k].plugins)
           && (rows[k].upstream.None? <==> routes[k].upstream.None?)
           && (rows[k].plugins.None? ==> routes[k].plugins.None?)
           && (rows[k].plugins.Some? ==> routes[k].plugins == Some(RewrittenPlugins(rows[k].name, rows[k].plugins.value))))
  {
    var f := RouteRow(helpers, orders);
    RowsFoldMeaning(rows, f);
    forall k | 0 <= k < |rows|
      ensures f(k, rows[k]).Ok?
      ensures var ro := f(k, rows[k]).value.0;
        && ro == rows[k].(host := HostsVariablized(rows[k]).0.host, hosts := HostsVariablized(rows[k]).0.hosts,
                          upstream := ro.upstream, plugins := ro.plugins)
        && (rows[k].upstream.None? <==> ro.upstream.None?)
        && (rows[k].plugins.None? ==> ro.plugins.None?)
        && (rows[k].plugins.Some? ==> ro.plugins == Some(RewrittenPlugins(rows[k].name, rows[k].plugins.value)))
    {
      RouteVariablizedRoute(rows[k], helpers, orders[k]);
    }
  }

  /** The key prefix of an upstream's node variables. */
  function UpstreamNodePrefix(up: Upstream): string
  {
    "Upstream." + up.def.name + "_" + IdString(up.base.id) + ".Host."
  }

  /**
   * `UpstreamList`'s loop fails exactly when some upstream's nodes cannot be
   * variablized; otherwise it exports one copy per upstream, in order, each
   * differing from it only in its nodes, whose hosts became placeholders.
   */
  lemma UpstreamsVariablizedMeaning(rows: seq<Upstream>, nodesFormat: Nodes -> Option<seq<Node>>)
    ensures var r := UpstreamsVariablized(rows, nodesFormat);
      && (r.Err? <==> exists k :: 0 <= k < |rows| &&
                        NodesVariablized("Upstream." + rows[k].def.name + "_", rows[k].base.id, ".Host.", rows[k].def, nodesFormat).Err?)
      && (r.Ok? ==> |r.value.0| == |rows|)
      && (r.Ok? ==> forall k :: 0 <= k < |rows| ==>
           && r.value.0[k] == rows[k].(def := r.value.0[k].def)
           && NodesPlaceheld(rows[k].def, r.value.0[k].def, UpstreamNodePrefix(rows[k]), nodesFormat))
  {
    var f := UpstreamRow(nodesFormat);
    RowsFoldMeaning(rows, f);
    forall k | 0 <= k < |rows| && f(k, rows[k]).Ok?
      ensures NodesPlaceheld(rows[k].def, f(k, rows[k]).value.0.def, UpstreamNodePrefix(rows[k]), nodesFormat)
    {
      NodesVariablizedPlaceheld("Upstream." + rows[k].def.name + "_", rows[k].base.id, ".Host.", rows[k].def, nodesFormat);
    }
  }

  /** The key prefix of a service's node variables. */
  function ServiceNodePrefix(se: Service): string
  {
    "Service." + se.name + "_" + IdString(se.base.id) + ".Upstream.Host."
  }

  /** A service the export fails on: it has no `upstream_id` and its inline upstream is nil or its nodes cannot be variablized. */
  predicate ServiceFails(se: Service, nodesFormat: Nodes -> Option<seq<Node>>)
  {
    se.upstreamId == NoId && ServiceNodesVariablized(se, nodesFormat).Err?
  }

  /**
   * The corrected `ServiceList` loop fails exactly when some service does;
   * otherwise it exports one copy per service, in order: a service with an
   * `upstream_id` unchanged and without variables, any other with its inline
   * upstream's node hosts turned into the placeholders of its variables.
   */
  lemma ServicesVariablizedMeaning(rows: seq<Service>, nodesFormat: Nodes -> Option<seq<Node>>)
    ensures var r := ServicesVariablized(rows, nodesFormat);
      && (r.Err? <==> exists k :: 0 <= k < |rows| && ServiceFails(rows[k], nodesFormat))
      && (forall k :: 0 <= k < |rows| && rows[k].upstreamId == NoId && rows[k].upstream.None? ==> ServiceFails(rows[k], nodesFormat))
      && (forall k :: 0 <= k < |rows| && rows[k].upstreamId != NoId ==> VarsOf(ServiceRow(nodesFormat)(k, rows[k])) == [])
      && (r.Ok? ==> |r.value.0| == |rows|)
      && (r.Ok? ==> forall k :: 0 <= k < |rows| && rows[k].upstreamId != NoId ==> r.value.0[k] == rows[k])
      && (r.Ok? ==> forall k :: 0 <= k < |rows| && rows[k].upstreamId == NoId ==>
           && rows[k].upstream.Some? && r.value.0[k].upstream.Some?
           && r.value.0[k] == rows[k].(upstream := r.value.0[k].upstream)
           && NodesPlaceheld(rows[k].upstream.value, r.value.0[k].upstream.value, ServiceNodePrefix(rows[k]), nodesFormat))
  {
    var f := ServiceRow(nodesFormat);
    RowsFoldMeaning(rows, f);
    forall k | 0 <= k < |rows| && rows[k].upstreamId == NoId && f(k, rows[k]).Ok?
      ensures NodesPlaceheld(rows[k].upstream.value, f(k, rows[k]).value.0.upstream.value, ServiceNodePrefix(rows[k]), nodesFormat)
    {
      NodesVariablizedPlaceheld("Service." + rows[k].name + "_", rows[k].base.id, ".Upstream.Host.", rows[k].upstream.value, nodesFormat);
    }
  }

  /**
   * As written, `ServiceList` fails exactly when the corrected loop does and
   * exports the same variables, but the services it exports are the listed
   * ones unchanged: the node hosts the variables were taken from are still
   * in them, and the variables' placeholders appear nowhere.
   */
  lemma {:induction false} ServicesAsWrittenKeepsOriginals(rows: seq<Service>, nodesFormat: Nodes -> Option<seq<Node>>)
    ensures var w := ServicesAsWritten(rows, nodesFormat);
      var c := ServicesVariablized(rows, nodesFormat);
      && (w.Err? <==> c.Err?)
      && (w.Err? ==> w.error == c.error)
      && (w.Ok? ==> w.value.0 == rows && w.value.1 == c.value.1)
  {
    if rows != [] {
      ServicesAsWrittenKeepsOriginals(rows[..|rows| - 1], nodesFormat);
      InitLast(rows);
    }
  }

  /** The node format of a listing whose nodes are already a list. */
  function ListedNodes(n: Nodes): Option<seq<Node>>
  {
    if n.NodeList? then Some(n.list) else None
  }

  /** An upstream definition with the given nodes and every other field empty. */
  function BareUpstream(nodes: Nodes): UpstreamDef
  {
    UpstreamDef(nodes, None, None, "", JNull, "", "", "", "", None, "", "", "", "", "", None, None, None, TimeoutValue(0))
  }

  /** The loop over a single row. */
  lemma RowsFoldSingle<T>(x: T, f: (nat, T) -> Result<(T, seq<Variable>)>)
    ensures f(0, x).Err? ==> RowsFold([x], f) == Err(f(0, x).error)
    ensures f(0, x).Ok? ==> RowsFold([x], f) == Ok(([f(0, x).value.0], f(0, x).value.1))
  {
    assert [x][..0] == [];
    if f(0, x).Ok? {
      assert [] + [f(0, x).value.0] == [f(0, x).value.0];
      assert [] + f(0, x).value.1 == f(0, x).value.1;
    }
  }

  /** The service of the counterexample: `svc`, id `s1`, one inline node `10.0.0.1:80`. */
  function SampleService(): Service
  {
    Service(Info(StrId("s1"), 0, 0), "svc", "", Some(BareUpstream(NodeList([Node("10.0.0.1", 80, 1, JNull, 0)]))), NoId, None, "", None, false, None)
  }

  lemma SampleServiceKey()
    ensures ServiceNodePrefix(SampleService()) + Itoa(0) == "Service.svc_s1.Upstream.Host.0"
  {
    assert Itoa(0) == "0";
  }

  /**
   * The sample service: as written the export carries the variable
   * `Service.svc_s1.Upstream.Host.0 = 10.0.0.1` but a service whose node host
   * is still `10.0.0.1`, so the placeholder that variable is for appears
   * nowhere; the corrected loop exports that placeholder as the host.
   */
  lemma ServicesAsWrittenCounterexample()
    ensures var w := ServicesAsWritten([SampleService()], ListedNodes);
      var c := ServicesVariablized([SampleService()], ListedNodes);
      && w.Ok? && c.Ok?
      && w.value.1 == c.value.1 == [Variable("Service.svc_s1.Upstream.Host.0", "10.0.0.1")]
      && w.value.0[0].upstream.value.nodes.list[0].host == "10.0.0.1"
      && c.value.0[0].upstream.value.nodes.list[0].host == Placeholder("Service.svc_s1.Upstream.Host.0")
  {
    var se := SampleService();
    SampleServiceVariablized();
    RowsFoldSingle(se, ServiceRow(ListedNodes));
    RowsFoldSingle(se, ServiceRowAsWritten(ListedNodes));
  }

  /** The sample service on its own: one variable for its one node, whose host becomes that variable's placeholder. */
  lemma SampleServiceVariablized()
    ensures var r := ServiceVariablized(SampleService(), ListedNodes);
      && r.Ok? && r.value.1 == [Variable("Service.svc_s1.Upstream.Host.0", "10.0.0.1")]
      && r.value.0.upstream.Some? && r.value.0.upstream.value.nodes.NodeList?
      && |r.value.0.upstream.value.nodes.list| == 1
      && r.value.0.upstream.value.nodes.list[0].host == Placeholder("Service.svc_s1.Upstream.Host.0")
  {
    var se := SampleService();
    var def := se.upstream.value;
    SampleServiceKey();
    NodesVariablizedMeaning("Service." + se.name + "_", se.base.id, ".Upstream.Host.", def, ListedNodes);
    var n := NodesVariablized("Service." + se.name + "_", se.base.id, ".Upstream.Host.", def, ListedNodes);
    assert n.Ok? && |n.value.1| == 1;
    assert n.value.1[0] == Variable("Service.svc_s1.Upstream.Host.0", "10.0.0.1");
  }

  /* ---------------------------------------------------------------- meaning of the whole export */

  /**
   * Whatever orders the plugin loops take, `ExportConfiguration` fails
   * exactly when a listing fails or one of its entities does, and a failing
   * listing's error is returned when every earlier stage succeeded.
   */
  lemma ConfigurationFails(consumers: Result<seq<Consumer>>, routes: Result<seq<Route>>, upstreams: Result<seq<Upstream>>,
                           services: Result<seq<Service>>, helpers: Helpers, orders: seq<SecretOrder>)
    ensures var r := Configuration(consumers, routes, upstreams, services, helpers, orders);
      var nf := helpers.nodesFormat;
      && (r.Err? <==>
            || consumers.Err? || routes.Err? || upstreams.Err? || services.Err?
            || (exists k :: 0 <= k < |routes.value| && RouteFails(routes.value[k], nf))
            || UpstreamsVariablized(upstreams.value, nf).Err?
            || (exists k :: 0 <= k < |services.value| && ServiceFails(services.value[k], nf)))
      && (consumers.Err? ==> r == Err(consumers.error))
      && (consumers.Ok? && routes.Err? ==> r == Err(routes.error))
  {
    if routes.Ok? {
      RoutesVariablizedFails(routes.value, helpers, orders);
    }
    if services.Ok? {
      ServicesVariablizedMeaning(services.value, helpers.nodesFormat);
    }
  }

  /**
   * A successful export holds the listed consumers unchanged, one exported
   * copy per route, upstream and service, and the route variables, then the
   * upstream variables, then the service variables, each row by row.
   */
  lemma ConfigurationOk(consumers: Result<seq<Consumer>>, routes: Result<seq<Route>>, upstreams: Result<seq<Upstream>>,
                        services: Result<seq<Service>>, helpers: Helpers, orders: seq<SecretOrder>)
    requires Configuration(consumers, routes, upstreams, services, helpers, orders).Ok?
    ensures var d := Configuration(consumers, routes, upstreams, services, helpers, orders).value;
      && consumers.Ok? && routes.Ok? && upstreams.Ok? && services.Ok?
      && d.consumers == consumers.value
      && |d.routes| == |routes.value| && |d.upstreams| == |upstreams.value| && |d.services| == |services.value|
      && d.variables == RowsVars(routes.value, RouteRow(helpers, orders))
                        + RowsVars(upstreams.value, UpstreamRow(helpers.nodesFormat))
                        + RowsVars(services.value, ServiceRow(helpers.nodesFormat))
  {
    RowsFoldMeaning(routes.value, RouteRow(helpers, orders));
    RowsFoldMeaning(upstreams.value, UpstreamRow(helpers.nodesFormat));
    RowsFoldMeaning(services.value, ServiceRow(helpers.nodesFormat));
  }
}
