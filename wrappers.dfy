/** The optional-value type used for TypeScript's `T | null` fields. */
module Wrappers {

  datatype Option<+T> = None | Some(value: T)
}
