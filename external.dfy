/**
 * What the modelled code calls but whose source is not part of this model:
 * the entity store, and helper functions from the `utils`, `entity` and `fmt`
 * packages, passed in as values so that every property holds for all of them.
 */
module External {
  import opened Wrappers
  import opened Entity

  /** A store seen through `Get`: identifier to entity; a missing key is `data.ErrNotFound`. */
  type Store<T> = map<string, T>

  datatype Helpers = Helpers(
    /** `utils.InterfaceToString`: the string form of an identifier. */
    interfaceToString: Id -> string,
    /** `utils.MergeJson(service, route)` with the marshalling around it; `None` is any of its errors. */
    mergeJson: (PluginMap, PluginMap) -> Option<PluginMap>,
    /** `entity.NodesFormat` followed by the `[]*entity.Node` assertion; `None` is the assertion's panic. */
    nodesFormat: Nodes -> Option<seq<Node>>,
    /** `fmt.Sprintf("%v", value)`. */
    formatValue: Json -> string)
}
