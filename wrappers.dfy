/** Optional values and success/failure results, shared by every module. */
module Wrappers {

  datatype Option<+T> = None | Some(value: T)

  datatype Result<+T, +E> = Success(value: T) | Failure(error: E)

  /** The exceptions the modelled code raises or lets through, each with
      its message. An OS error names the path the call was given, where
      Python may name a directory on the way to it instead. */
  datatype Exc =
    | ValueError(message: string)
    | AttributeError(message: string)
    /** An OS-level failure (permission, path conflict, missing path). */
    | OSError(message: string)
    /** A plain `Exception`, as `salvar_contrato` re-raises non-ValueErrors. */
    | Exception(message: string)
    /** The interactive input ended before a prompt was answered. */
    | InputEnded(message: string)

  /** Python truthiness of an `Optional[str]`: neither `None` nor `''`. */
  predicate Given(o: Option<string>) {
    o.Some? && o.value != ""
  }
}
