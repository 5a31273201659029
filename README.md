# Import and export of APISIX dashboard configuration

This project models the data loader of the APISIX dashboard's management API.
That is the code which moves gateway configuration out of and into the dashboard.
It models three parts of the Go code base and proves properties of each.

- **OpenAPI export** (`route_export.go`, `ExportRoutes`, `ExportAllRoutes`,
  `RouteToOpenAPI3` and their helpers). The export projects stored routes into one
  OpenAPI 3 document:
  - every URI of a route becomes a path key;
  - wildcard URIs are cut at `*` and get a `{params}` path parameter;
  - colliding keys get a `-APISIX-REPEAT-URI-<n>` suffix;
  - every listed HTTP method gets an operation;
  - the route's attributes become `x-apisix-*` extensions;
  - `request-validation` header properties become header parameters;
  - its body schema becomes the request body;
  - the three authentication plugins become security schemes and requirements;
  - a route's plugins are merged with, or inherit, its service's plugins;
  - the upstream is resolved route-first, then service.

  The paths map, the parameter list, the schemes and the request body are
  shared by all routes of one call, as in the source.
- **Configuration export** (`route_export.go`, `ExportConfiguration`, the
  `DataSetsExport` list methods and the `VariablizationOfNode*` helpers). The
  export collects consumers, routes, upstreams and services into one bundle.
  While collecting, it replaces deployment-specific values with `${<key>}`
  placeholders, and each replaced value is also recorded as a variable. The
  replaced values are:
  - route hosts;
  - upstream node hosts;
  - secret plugin fields;
  - the CAS IdP URIs.
- **YAML import** (`import.go`, `Import`). Each decoded record is turned into
  the management API's entities:
  - an inline upstream, or an upstream reference;
  - the routes, where every panic and error path of the source is kept;
  - the consumers;
  - the services.
- **Entities** (`entity.go`). The `BaseInfo` bookkeeping covers `Creating`,
  `Updating`, `KeyCompat` and `GetBaseInfo`, plus `Parse2NameResponse`.

Several Go loops range over maps, whose order Go leaves unspecified. Each such
loop is a Dafny `while` loop that picks an arbitrary unvisited key. That loop
returns the visit order as a ghost out-parameter, and its contract ties the
result to a fold over that order. The lemmas then prove their properties for
every possible order. Stores are values: either a `map` from id to object, or
the `Result` of a listing.

## Model

| member | source | states |
|---|---|---|
| `Strings.Itoa` | api/internal/handler/data_loader/route_export.go:597 | the decimal rendering of a natural number is non-empty and made of digits only |
| `Strings.ItoaInjective` | api/internal/handler/data_loader/route_export.go:738 | distinct indexes render to distinct strings, so indexed variable names never collide |
| `Strings.ToUpper` | api/internal/handler/data_loader/route_export.go:263 | upper-casing keeps the length and maps each character as `unicode.ToUpper` does whenever the upper-case form is an ASCII letter: `a`-`z`, `ı` to `I` and `ſ` to `S`; other characters are kept |
| `Strings.ToUpperIdempotent` | api/internal/handler/data_loader/route_export.go:263 | upper-casing twice is upper-casing once |
| `Strings.BeforeFirst` | api/internal/handler/data_loader/route_export.go:446 | the prefix before the first `*` is a prefix of the URI and holds no `*`; it is the whole URI when there is none |
| `Strings.Split` | api/internal/handler/data_loader/route_export.go:78 | splitting on a separator yields pieces without that separator |
| `Strings.JoinSplit` | api/internal/handler/data_loader/route_export.go:78 | joining the pieces of a split with the separator gives back the original string |
| `Strings.SplitJoin` | api/internal/handler/data_loader/route_export.go:78 | splitting a join of separator-free pieces gives back the pieces |
| `Entity.CreatedInfo` | api/internal/core/entity/entity.go:36-47 | the id ends up a string: a string id is kept, a missing one becomes the flake id, a number becomes its `InterfaceToString` form; the creation and update times are the clock readings given |
| `Entity.UpdatedInfo` | api/internal/core/entity/entity.go:49-53 | updating keeps the id and the creation time and sets only the update time |
| `Entity.KeyCompatInfo` | api/internal/core/entity/entity.go:55-59 | a missing id takes the key when the key is not empty; otherwise, and when an id is present, nothing changes |
| `Entity.CreatingKeepsNormalisedId` | api/internal/core/entity/entity.go:39-43 | creating twice keeps the id the first call normalised |
| `Entity.KeyCompatIdempotent` | api/internal/core/entity/entity.go:55-59 | applying the key compatibility twice is applying it once |
| `Entity.BaseInfo.constructor` | api/internal/core/entity/entity.go:26-30 | a new base info holds exactly the given id and times |
| `Entity.BaseInfo.GetBaseInfo` | api/internal/core/entity/entity.go:32-34 | the accessor returns the object's own state and changes nothing |
| `Entity.BaseInfo.Creating` | api/internal/core/entity/entity.go:36-47 | creating in place: a missing id becomes the flake id, a non-string id its string form, a string id is kept, and both times are set |
| `Entity.BaseInfo.Updating` | api/internal/core/entity/entity.go:49-53 | updating in place takes the stored id and creation time and sets the update time; the stored object is untouched |
| `Entity.BaseInfo.KeyCompat` | api/internal/core/entity/entity.go:55-59 | key compatibility in place sets a missing id from a non-empty key and nothing else |
| `Entity.Parse2NameResponse` | api/internal/core/entity/entity.go:197-203 | the name response carries the upstream's id and name, and there is never an error |
| `Enumerations.Enumerate` | api/internal/handler/data_loader/route_export.go:334 | every key set has an order that visits each key exactly once, as a map range does |
| `Enumerations.FilterEnumeration` | api/internal/handler/data_loader/route_export.go:334-402 | the visited keys that pass a test are an enumeration of the keys that pass it |
| `OpenApiExport.MethodNames` | api/internal/handler/data_loader/route_export.go:113 | the method list keeps its length and gives each method its `net/http` name |
| `OpenApiExport.LookupUpstream` | api/internal/handler/data_loader/route_export.go:479-487 | a reference resolves exactly when the store holds it; otherwise it is the upstream not-found error |
| `OpenApiExport.ParseRouteUpstream` | api/internal/handler/data_loader/route_export.go:471-505 | route inline upstream, then route reference, then service inline upstream, then service reference, else none |
| `OpenApiExport.OwnUpstream` | api/internal/handler/data_loader/route_export.go:476-487 | one entity's rule: its inline upstream wins over its reference, and with neither there is no upstream |
| `OpenApiExport.ResolutionIsTwoStepPrecedence` | api/internal/handler/data_loader/route_export.go:471-505 | the service is consulted only when the route has neither upstream form |
| `OpenApiExport.InlineUpstreamIgnoresStore` | api/internal/handler/data_loader/route_export.go:476-477 | an inline route upstream is the result whatever the store holds |
| `OpenApiExport.ParseLabels` | api/internal/handler/data_loader/route_export.go:298-305 | the route's labels, else the service's when the route names one, else nil |
| `OpenApiExport.MethodNamed` | api/internal/handler/data_loader/route_export.go:262-282 | a selected method's name is the name upper-cased, non-ASCII `ı` and `ſ` included; no method is selected when none has that name |
| `OpenApiExport.LongSSpellingSelectsPost` | api/internal/handler/data_loader/route_export.go:262-266 | `poſt`, with a long `ſ`, upper-cases to `POST` and selects that method |
| `OpenApiExport.DotlessISpellingSelectsOptions` | api/internal/handler/data_loader/route_export.go:262-280 | `optıons`, with a dotless `ı`, upper-cases to `OPTIONS` and selects that method |
| `OpenApiExport.MethodNameSelectsItself` | api/internal/handler/data_loader/route_export.go:262-282 | every method's own name selects that method |
| `OpenApiExport.InMethodSet` | api/internal/handler/data_loader/route_export.go:256-283 | every listed name that selects a method fills that method's slot |
| `OpenApiExport.NoMethodsMeansAllNine` | api/internal/handler/data_loader/route_export.go:256-260 | a route without methods fills all nine slots |
| `OpenApiExport.MethodMatchIgnoresCase` | api/internal/handler/data_loader/route_export.go:263 | names that upper-case alike, under the mapping of `Strings.ToUpper`, select the same method |
| `OpenApiExport.ParsePathItem` | api/internal/handler/data_loader/route_export.go:308-325 | the operation for one method is the route's operation with the method appended to its id, all else shared |
| `OpenApiExport.PathCounter.constructor` | api/internal/handler/data_loader/route_export.go:508 | the counter starts at zero |
| `OpenApiExport.PathCounter.Next` | api/internal/handler/data_loader/route_export.go:507-513 | each call returns the next number, 1, 2, 3, … |
| `OpenApiExport.RouteUris` | api/internal/handler/data_loader/route_export.go:435-442 | `uris` when non-nil, else `uri` when non-empty, else none |
| `OpenApiExport.PathKey` | api/internal/handler/data_loader/route_export.go:445-447 | a wildcard URI's key is the part before the first `*` followed by `{params}`; any other URI is its own key |
| `OpenApiExport.InsertPath` | api/internal/handler/data_loader/route_export.go:446-464 | a fresh key gets the item; an existing key leaves it and writes the repeat key with the route's number |
| `OpenApiExport.WildcardParams` | api/internal/handler/data_loader/route_export.go:452-458 | at most one parameter per URI, each the `params` path parameter |
| `OpenApiExport.WildcardParamsCount` | api/internal/handler/data_loader/route_export.go:445-458 | the number of parameters is exactly the number of wildcard URIs |
| `OpenApiExport.InsertUrisAddsEveryKey` | api/internal/handler/data_loader/route_export.go:444-466 | after the insertions every URI's key is present |
| `OpenApiExport.InsertUrisAddsOnlyTheirKeys` | api/internal/handler/data_loader/route_export.go:444-466 | only the URIs' keys and their repeat keys are added |
| `OpenApiExport.InsertUrisValues` | api/internal/handler/data_loader/route_export.go:444-466 | each key holds the route's handle or the value it had |
| `OpenApiExport.InsertUrisKeepsExistingKeys` | api/internal/handler/data_loader/route_export.go:446-464 | an existing key is reassigned only when it is the repeat key a colliding URI of this route produces |
| `OpenApiExport.PathHandlesBounded` | api/internal/handler/data_loader/route_export.go:444-466 | every path key names one of the routes inserted so far |
| `OpenApiExport.TwoRoutesSameUriGetTwoKeys` | api/internal/handler/data_loader/route_export.go:460-464 | two routes under one URI get two distinct keys, the second one the repeat key with number 2 |
| `OpenApiExport.RepeatKeyCanReassignEarlierKey` | api/internal/handler/data_loader/route_export.go:463 | a route published under a literal repeat key loses it to a later colliding route |
| `OpenApiExport.ParseRouteUris` | api/internal/handler/data_loader/route_export.go:434-468 | the path map gains the route's keys as `InsertUris` says and the shared parameters gain the wildcard parameters |
| `OpenApiExport.AuthSchemes` | api/internal/handler/data_loader/route_export.go:380-400 | a scheme is registered exactly for each authentication plugin among the keys |
| `OpenApiExport.RequirementsMeaning` | api/internal/handler/data_loader/route_export.go:379-403 | a requirement is present exactly for each authentication plugin among the keys, and no other requirement is |
| `OpenApiExport.FilteredPlugins` | api/internal/handler/data_loader/route_export.go:334-402 | the copied plugins are all but `request-validation` and the three authentication plugins, with their values |
| `OpenApiExport.NextRequestBody` | api/internal/handler/data_loader/route_export.go:360-374 | a `body_schema` replaces the shared request body under the any-media-type key; without one it is kept |
| `OpenApiExport.Copies` | api/internal/handler/data_loader/route_export.go:340-357 | the header loop appends the very same parameter once per property |
| `OpenApiExport.HeaderFoldFails` | api/internal/handler/data_loader/route_export.go:346-357 | the header loop panics exactly on the first visited property whose type is not a string |
| `OpenApiExport.HeaderFoldValue` | api/internal/handler/data_loader/route_export.go:346-357 | on success the shared parameter is required when any property is, and is named and typed by the last one |
| `OpenApiExport.HeaderParamsMeaning` | api/internal/handler/data_loader/route_export.go:346-357 | in any visit order the loop fails exactly on an ill-typed property, and otherwise appends one reference per property |
| `OpenApiExport.ParseHeaderProperties` | api/internal/handler/data_loader/route_export.go:346-357 | the header loop over the properties map, in any order, is the fold over that order |
| `Strings.Greatest` | api/internal/handler/data_loader/route_export.go:341-342 | the chosen key is in the set and every other key precedes it in `sort.Strings` order, the order `json.Marshal` writes keys in |
| `OpenApiExport.DecodeTagSpelt` | api/internal/handler/data_loader/route_export.go:341-343 | when the keys are spelt as the tags, the decoding reads exactly `required` (an array, else empty) and `properties` (else nil) |
| `OpenApiExport.CapitalisedPropertiesDecoded` | api/internal/handler/data_loader/route_export.go:341-343 | a `Properties` key is decoded into the `properties` field, as Go's case-insensitive field match does |
| `OpenApiExport.LaterPropertiesKeyWins` | api/internal/handler/data_loader/route_export.go:341-343 | with both `Properties` and `properties`, the later key in sorted order, `properties`, decides the field |
| `OpenApiExport.HeaderSchemaParamsMeaning` | api/internal/handler/data_loader/route_export.go:336-358 | the validation branch fails exactly when the header loop does, and otherwise adds its parameters |
| `OpenApiExport.ParseRequestValidation` | api/internal/handler/data_loader/route_export.go:336-377 | the `request-validation` branch updates the parameters and the request body as its specification says |
| `OpenApiExport.ClassifyFoldWithoutValidation` | api/internal/handler/data_loader/route_export.go:334-402 | the header order plays no part until `request-validation` is reached |
| `OpenApiExport.ClassifyPlugin` | api/internal/handler/data_loader/route_export.go:335-401 | one pass of the plugin loop for one plugin is the fold step |
| `OpenApiExport.ClassifyPlugins` | api/internal/handler/data_loader/route_export.go:334-402 | the plugin loop, over plugins in any order, is the fold over the order it took |
| `OpenApiExport.ClassifyFoldFails` | api/internal/handler/data_loader/route_export.go:334-377 | the loop panics exactly when it reaches a `request-validation` value whose header properties fail |
| `OpenApiExport.ClassifyFoldPlugins` | api/internal/handler/data_loader/route_export.go:401 | exactly the unclassified visited plugins are copied |
| `OpenApiExport.ClassifyFoldSchemes` | api/internal/handler/data_loader/route_export.go:380-400 | the visited authentication plugins, and no other plugin, register their schemes |
| `OpenApiExport.ClassifyFoldSecurity` | api/internal/handler/data_loader/route_export.go:379-403 | one requirement per visited authentication plugin |
| `OpenApiExport.ClassifyFoldValidation` | api/internal/handler/data_loader/route_export.go:336-377 | only `request-validation` touches the parameters and the request body |
| `OpenApiExport.ClassifiedPlugins` | api/internal/handler/data_loader/route_export.go:334-403 | in any orders of both map ranges the plugin loop fails only on bad header properties, otherwise copies, registers and appends as stated |
| `OpenApiExport.MergeServicePlugins` | api/internal/handler/data_loader/route_export.go:405-426 | without a service that has plugins the route keeps its own map; a failing merge is the merge error |
| `OpenApiExport.ParseRoutePlugins` | api/internal/handler/data_loader/route_export.go:328-431 | classification, then merge with or inheritance of the service's plugins, as the specification function says |
| `OpenApiExport.RoutePluginsMeaning` | api/internal/handler/data_loader/route_export.go:328-431 | in any loop order the plugins fail exactly when the effective plugins do, and otherwise yield them with the schemes, body and parameters |
| `OpenApiExport.InheritedPluginsUnchanged` | api/internal/handler/data_loader/route_export.go:427-429 | a route without plugins inherits its service's map unchanged |
| `OpenApiExport.OwnPluginsWithoutService` | api/internal/handler/data_loader/route_export.go:334-402 | without a service the result holds exactly the route's unclassified plugins |
| `OpenApiExport.MergedPluginsAreMergeResult` | api/internal/handler/data_loader/route_export.go:405-426 | the merged map is the merge helper's result over the service and the filtered route plugins |
| `OpenApiExport.ExtensionNamesArePrefixed` | api/internal/handler/data_loader/route_export.go:186-254 | every extension is written under an `x-apisix-` key |
| `OpenApiExport.RouteExtensions` | api/internal/handler/data_loader/route_export.go:186-254 | each set attribute adds its extension; priority, status and websocket are always added |
| `OpenApiExport.MethodOperationsMeaning` | api/internal/handler/data_loader/route_export.go:256-283 | the method loop fills exactly the slots of the known listed methods, each with its suffixed operation |
| `OpenApiExport.LookupService` | api/internal/handler/data_loader/route_export.go:161-174 | a named service resolves exactly when stored; otherwise it is the service not-found error |
| `OpenApiExport.ProjectRoute` | api/internal/handler/data_loader/route_export.go:150-283 | one pass of the route loop for one route is the specification step in the orders its plugin loops took |
| `OpenApiExport.FillPathItem` | api/internal/handler/data_loader/route_export.go:256-283 | one `ParsePathItem` per listed method the switch knows |
| `OpenApiExport.RouteItemOperations` | api/internal/handler/data_loader/route_export.go:256-283 | the path item holds the operations of the listed methods |
| `OpenApiExport.ProjectResolvedMeaning` | api/internal/handler/data_loader/route_export.go:176-283 | once service and upstream are resolved, a route fails exactly when its effective plugins do |
| `OpenApiExport.ProjectRouteMeaning` | api/internal/handler/data_loader/route_export.go:150-283 | a route fails exactly when its resolution does, and otherwise inserts its keys, item, parameters, schemes and body |
| `OpenApiExport.ProjectRoutes` | api/internal/handler/data_loader/route_export.go:150-284 | the route loop in which route `i` has handle `i` and path number `i + 1` |
| `OpenApiExport.DocumentOf` | api/internal/handler/data_loader/route_export.go:286-293 | the document has exactly the path keys whose handle names a path item, each resolving to that item |
| `OpenApiExport.RouteToOpenAPI3` | api/internal/handler/data_loader/route_export.go:142-294 | the document over all routes with a fresh counter and shared state, in whatever orders the plugin loops took |
| `OpenApiExport.ProjectRoutesMeaning` | api/internal/handler/data_loader/route_export.go:150-284 | the loop fails exactly on the first route whose resolution fails, and otherwise leaves the projection of all routes |
| `OpenApiExport.ExportMeaning` | api/internal/handler/data_loader/route_export.go:142-294 | every document the export returns is a projection of the routes |
| `OpenApiExport.SchemesOfNames` | api/internal/handler/data_loader/route_export.go:286-290 | a scheme appears in the document exactly when some route has the matching authentication plugin |
| `OpenApiExport.SelectRoutesMeaning` | api/internal/handler/data_loader/route_export.go:78-90 | selection succeeds exactly when every id is stored, keeps the order, and otherwise names the first missing id |
| `OpenApiExport.ExportRoutes` | api/internal/handler/data_loader/route_export.go:71-97 | an empty id string is refused, otherwise the comma-separated routes are selected and projected |
| `OpenApiExport.ExportAllRoutes` | api/internal/handler/data_loader/route_export.go:117-139 | a store error is returned, an empty store is refused, otherwise every listed route is projected |
| `ConfigExport.HostsPass` | api/internal/handler/data_loader/route_export.go:595-605 | one pass over the hosts records one variable per host, holding that host, and replaces each host by its placeholder |
| `ConfigExport.VariablizeHosts` | api/internal/handler/data_loader/route_export.go:584-628 | the host and hosts rewriting of the route copy is as its specification function says |
| `ConfigExport.HostsKeysDistinct` | api/internal/handler/data_loader/route_export.go:584-628 | the variable names of one route's hosts are pairwise distinct |
| `ConfigExport.HostsVariablizedMeaning` | api/internal/handler/data_loader/route_export.go:584-628 | each host becomes the placeholder of the variable that records its old value |
| `ConfigExport.UnscopedHostKeyShared` | api/internal/handler/data_loader/route_export.go:586-597 | the first, unscoped pass writes variable `Host` for every route with a host, so two routes both export a variable of that name |
| `ConfigExport.VariablizeNodes` | api/internal/handler/data_loader/route_export.go:733-791 | the node loop rewrites the node list as its specification function says |
| `ConfigExport.NodesVariablizedMeaning` | api/internal/handler/data_loader/route_export.go:733-791 | node `i`'s host becomes the placeholder `<prefix><i>`, recorded with the old host |
| `ConfigExport.VariablizeFields` | api/internal/handler/data_loader/route_export.go:643-663 | the secret fields of one plugin, in any map order, are the field fold over that order |
| `ConfigExport.FieldsFoldMap` | api/internal/handler/data_loader/route_export.go:643-663 | exactly the secret fields are replaced by placeholders; all others keep their values |
| `ConfigExport.FieldsFoldVars` | api/internal/handler/data_loader/route_export.go:643-663 | one variable per visited secret field, holding its old value |
| `ConfigExport.FieldsRewritten` | api/internal/handler/data_loader/route_export.go:643-663 | after a full inner loop, in whatever order, the field map is the same rewritten map |
| `ConfigExport.VariablizeSecrets` | api/internal/handler/data_loader/route_export.go:636-668 | the plugin loop, in any order, is the plugin fold over that order |
| `ConfigExport.PluginsFoldMap` | api/internal/handler/data_loader/route_export.go:636-668 | exactly the secret plugins' fields are rewritten; other plugins are kept |
| `ConfigExport.PluginsFoldVars` | api/internal/handler/data_loader/route_export.go:636-668 | the variables are those of `onbehalf-jwt` then `3ds-cas-auth`, or the other way round, by the order taken |
| `ConfigExport.SecretsMeaning` | api/internal/handler/data_loader/route_export.go:636-668 | whatever the orders, the plugins are the same rewritten map, and each secret plugin's variables enumerate its secret fields |
| `ConfigExport.VariablizationOfNodeRoute` | api/internal/handler/data_loader/route_export.go:772-791 | a route's inline upstream nodes are rewritten under `Route.<name>_<id>.Upstream.Host.<i>` |
| `ConfigExport.VariablizeRoute` | api/internal/handler/data_loader/route_export.go:578-670 | the rewriting of one route copy is the route specification, in the orders its loops took |
| `ConfigExport.VariablizationOfNodeUpstream` | api/internal/handler/data_loader/route_export.go:733-749 | an upstream's nodes are rewritten under `Upstream.<name>_<id>.Host.<i>` |
| `ConfigExport.VariablizationOfNodeService` | api/internal/handler/data_loader/route_export.go:751-770 | a service's inline upstream nodes are rewritten under `Service.<name>_<id>.Upstream.Host.<i>`, and a nil upstream is a nil dereference |
| `ConfigExport.RouteVariablizedFails` | api/internal/handler/data_loader/route_export.go:630-633 | whatever the plugin orders, a route fails exactly when it has an upstream whose nodes cannot be rewritten, with that error |
| `ConfigExport.RouteVariablizedRoute` | api/internal/handler/data_loader/route_export.go:578-670 | the rewritten route differs from the stored one only in hosts, upstream nodes and secret plugin fields |
| `ConfigExport.RouteVariablizedVars` | api/internal/handler/data_loader/route_export.go:584-668 | a route's variables are its host, node and secret variables, in that order |
| `ConfigExport.RowsFoldMeaning` | api/internal/handler/data_loader/route_export.go:578-674 | a list pass fails exactly on the first failing row, and otherwise holds every rewritten row and all their variables in order |
| `ConfigExport.DataSetsExport.constructor` | api/internal/handler/data_loader/route_export.go:518 | the bundle starts empty |
| `ConfigExport.DataSetsExport.ConsumerList` | api/internal/handler/data_loader/route_export.go:543-566 | a store error empties the consumers and is returned; otherwise the consumers are stored as listed |
| `ConfigExport.DataSetsExport.RouteList` | api/internal/handler/data_loader/route_export.go:569-677 | a store or node error is returned with nothing changed; otherwise the rewritten routes and their variables are added |
| `ConfigExport.DataSetsExport.UpstreamList` | api/internal/handler/data_loader/route_export.go:680-703 | a store error is returned with nothing changed; otherwise the rewritten upstreams and their variables are added |
| `ConfigExport.DataSetsExport.ServiceList` | api/internal/handler/data_loader/route_export.go:706-731 | a store error, or a service without `upstream_id` whose inline upstream is nil, whose nodes `NodesFormat` rejects, or whose non-string id meets a non-empty node list, is returned with nothing changed; otherwise the rewritten services and their variables are added |
| `ConfigExport.ExportConfiguration` | api/internal/handler/data_loader/route_export.go:516-540 | the four list calls in order, stopping at the first error |
| `ConfigExport.RoutesVariablizedFails` | api/internal/handler/data_loader/route_export.go:578-583 | the route list fails exactly when some route fails, with the first one's error, in any orders |
| `ConfigExport.RoutesVariablizedRoutes` | api/internal/handler/data_loader/route_export.go:578-674 | every exported route is its stored route with placeholders for hosts, nodes and secrets |
| `ConfigExport.UpstreamsVariablizedMeaning` | api/internal/handler/data_loader/route_export.go:690-697 | the upstream list fails exactly when some upstream's nodes `NodesFormat` rejects, or its id is not a string while it has nodes; otherwise it holds every upstream, changed only in its nodes' placeholder hosts |
| `ConfigExport.ServicesVariablizedMeaning` | api/internal/handler/data_loader/route_export.go:715-725 | the list fails exactly when some service without `upstream_id` fails: its inline upstream is nil, `NodesFormat` rejects its nodes, or its id is not a string while it has nodes; a referencing service is kept and adds no variables; the others get placeholder hosts |
| `ConfigExport.ServicesAsWrittenKeepsOriginals` | api/internal/handler/data_loader/route_export.go:724 | as written, the exported services are the stored ones, although their variables are recorded |
| `ConfigExport.ServicesAsWrittenCounterexample` | api/internal/handler/data_loader/route_export.go:720-724 | one service with one node: as written its host stays literal while the variable for it is exported |
| `ConfigExport.ConfigurationFails` | api/internal/handler/data_loader/route_export.go:516-540 | the export fails exactly when one of the lists fails, with the first failing list's error |
| `ConfigExport.ConfigurationOk` | api/internal/handler/data_loader/route_export.go:516-540 | on success the consumers are as listed, every list keeps its length, and the variables are those of routes, upstreams and services in order |
| `YamlImport.Import` | api/internal/handler/data_loader/loader/yaml_config/import.go:30-301 | the import follows the decode, panic and error paths of the source and otherwise returns the mapped data sets |
| `YamlImport.ImportFails` | api/internal/handler/data_loader/loader/yaml_config/import.go:30-300 | the import fails exactly on a nil input (a panic), a non-byte input, a decode error (returned unchanged), a route or service with neither upstream form, or a bundle without routes |
| `YamlImport.ImportOk` | api/internal/handler/data_loader/loader/yaml_config/import.go:47-300 | on success every record maps to one entity in order, there is at least one route, and the other collections are empty |
| `YamlImport.ImportedRouteTakesOver` | api/internal/handler/data_loader/loader/yaml_config/import.go:158-238 | an imported route keeps its record's fields and takes the inline upstream only when there is no upstream reference |
| `YamlImport.ImportedServiceTakesOver` | api/internal/handler/data_loader/loader/yaml_config/import.go:244-296 | an imported service keeps its record's fields and takes the inline upstream only when there is no upstream reference |

## Left out

- The HTTP handlers, the router wiring, the dashboard UI and the store backends are not modelled. A store is a `map` from id to object, or the `Result` of a listing.
- `Strings.ToUpper`: characters whose upper-case form is not ASCII are kept, where Go's `unicode.ToUpper` maps them (`é` to `É`). No HTTP method name holds such a form, so which method a name selects is unaffected.
- `OpenApiExport.DecodeRequestValidation`: when two keys of `header_schema` fold to `required` and the later array has a non-string entry, Go may leave the earlier array's string in that slot, because it decodes into the same slice; the model reads "".
- JSON numbers are integers (`Json.JNum(int)`); fractional numbers and their `float64` rounding are not modelled.
- JSON and YAML encoding are not modelled. YAML decoding is the `decode` parameter of `YamlImport.Import`, and JSON values are an abstract `Json` datatype.
- The deep copies of `route_export.go:793-839` are value copies that never fail. Their marshalling errors and the `omitempty` normalisation a JSON round trip performs are not modelled.
- Foreign helpers are function values in `External.Helpers`. These are `MergeJson`, `NodesFormat`, `InterfaceToString`, `fmt`'s `%v` rendering and the `openapi3` constructors. Nothing is assumed of them, so no merge-patch law is asserted.
- `GetFlakeUidStr` is the `flakeId` parameter, and the clock is the `now` parameter.
- The `float32` timeout values are carried as opaque 32-bit patterns, with no floating-point arithmetic.
- The package-level variables of `route_export.go` are locals of each call, so concurrent exports sharing them are not modelled.
- The order of Go map ranges is not modelled. It is a ghost out-parameter, and the lemmas hold for every order.
- Logging is not modelled.
- SSL, stream route, global rule, plugin config and proto records are raw `Json` values; their own fields are not modelled.
- `DataSetsImport` is declared twice in `loader.go`. The model uses its shape without the variables list.
- `ConfigExport.DataSetsExport.ServiceList`: appends the rewritten copy of each service where `route_export.go:724` appends the stored service; the loop as written is `ConfigExport.ServicesAsWritten` (see Findings).
- `ConfigExport.ExportConfiguration`: uses the corrected `DataSetsExport.ServiceList`, which appends the rewritten service. The code as written is `ConfigExport.ServicesAsWritten` (see Findings).

## Findings

| source | as written | input that shows it | evidently intended | confidence | as-written member | corrected member |
|---|---|---|---|---|---|---|
| api/internal/handler/data_loader/route_export.go:724 | `ServiceList` rewrites a copy of each service but appends the original, so placeholder variables are exported while the service keeps its literal hosts | one service `svc` with id `s1`, no upstream reference and one node `10.0.0.1`: the exported service keeps `10.0.0.1` although variable `Service.svc_s1.Upstream.Host.0` is exported for it | append the rewritten copy, as `RouteList` and `UpstreamList` do | high, not executed | `ConfigExport.ServicesAsWrittenCounterexample` | `ConfigExport.ServicesVariablizedMeaning` |
