/** An optional value: `None` stands for JavaScript's NaN or for "nothing to show". */
module Wrappers {

  datatype Option<+T> = None | Some(value: T)
}
