/** An optional value: `None` stands for JavaScript's `undefined` or a failed lookup. */
module Wrappers {
  datatype Option<+T> = None | Some(value: T)
}
