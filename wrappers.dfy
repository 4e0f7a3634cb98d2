/** Optional values: `None` stands for C#'s `null` (and for an absent `int?`). */
module Wrappers {

  datatype Option<+T> = None | Some(value: T)
}
