/** Optional values: JavaScript's `null`/`undefined` on one side, a present value on the other. */
module Wrappers {

  datatype Option<+T> = None | Some(value: T) {

    /** The `??` operator: the value if present, the fallback otherwise. */
    function GetOr(fallback: T): T {
      match this
      case Some(v) => v
      case None => fallback
    }
  }

  /**
   * A field of a JSON request body, where an absent key (`undefined`) and an explicit
   * `null` are told apart because the persistence layer treats them differently.
   */
  datatype Field<+T> = Absent | Null | Value(value: T)
}
