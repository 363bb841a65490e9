/** Optional values and the tagged result shape shared by every server action. */
module Wrappers {

  /** A value that may be absent (`undefined` / `null` in the TypeScript). */
  datatype Option<+T> = None | Some(value: T) {

    /** Returns the value, or `default` when absent. */
    function GetOr(default: T): T {
      match this
      case Some(v) => v
      case None => default
    }
  }

  /** `{ success: true; data: T } | { success: false; error: string }`. */
  datatype ActionResult<+T> = Success(data: T) | Failure(error: string)
}
