/** Small value wrappers shared by every module of the model. */
module Wrappers {

  /** A value that may be missing (`null` in the source). */
  datatype Option<+T> = None | Some(value: T)

  /** A JavaScript object property that may be absent (`undefined`), `null`, or hold a value. */
  datatype Field<+T> = Undefined | Null | Val(value: T) {
    /** `x ?? null`: both nullish forms collapse to `null`. */
    function OrNull(): Field<T> {
      if Val? then this else Null
    }

    /** `x ?? d`. */
    function Or(d: T): T {
      if Val? then value else d
    }
  }
}
