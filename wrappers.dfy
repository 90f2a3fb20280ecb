/** Optional fields and the outcome of a validation. */
module Wrappers {

  /** A field of a configuration object or request that may be left unset. */
  datatype Option<+T> = None | Some(value: T)

  /** What a validator produces: success, or the single message of the check that failed. */
  datatype Result = Ok | Err(msg: string)
}
