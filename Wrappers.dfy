/** An optional value: TypeScript's `undefined` for an absent rule field,
    and `void` for a rejected form. */
module Wrappers {
  datatype Option<+T> = None | Some(value: T)
}
