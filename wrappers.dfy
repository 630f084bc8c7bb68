/** An optional value: `None` stands for the absent value (a `null` state field,
    or a `parseFloat` that produced NaN). */
module Wrappers {
  datatype Option<+T> = None | Some(value: T)
}
