/** Option values: `None` stands for a JavaScript `NaN` or a missing value. */
module Wrappers {

  datatype Option<+T> = None | Some(value: T)
}
