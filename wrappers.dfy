/** Optional values and the `{ error }` / `{ success, ... }` result shape shared by the store and the actions. */
module Wrappers {

  /** A value that may be missing: a JavaScript `null` result or an absent form entry. */
  datatype Option<+T> = None | Some(value: T)

  /** `{ success: true, ...value }` or `{ success: false, error }`; error messages are plain strings. */
  datatype Result<+T> = Success(value: T) | Failure(error: string)
}
