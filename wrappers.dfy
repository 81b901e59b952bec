/** Optional values: `None` stands for a computation the source aborts
    (a Python ZeroDivisionError or KeyError). */
module Wrappers {
  datatype Option<+T> = None | Some(value: T)
}
