/** The error values the export and import code returns, and the result type that carries them. */
module Errors {
  import opened Entity

  datatype Error =
    /** `consts.ErrParameterID`: no route identifiers were given. */
    | ParameterIdMissing
    /** `consts.ErrRouteData`: the store holds no routes. */
    | RouteDataMissing
    /** `consts.IDNotFound`, formatted with an entity kind and the identifier that was looked up. */
    | IdNotFound(kind: string, id: Id)
    /** An error of the store's `List`, returned unchanged. */
    | StoreFailed(message: string)
    /** A failure of the JSON marshalling or of `utils.MergeJson` while merging plugins. */
    | MergeFailed
    /** The bundle decoder's error, returned unchanged. */
    | DecodeFailed(message: string)
    /** A Go runtime panic: failed type assertion, nil dereference or index out of range. */
    | Panic(message: string)

  /** The message of the runtime panic on dereferencing nil. */
  const NilDereference := "invalid memory address or nil pointer dereference"

  datatype Result<+T> = Ok(value: T) | Err(error: Error)
}
