/** The optional value used where the TypeScript code has `T | null` or an
    absent property. */
module Wrappers {

  datatype Option<+T> = None | Some(value: T)

}
