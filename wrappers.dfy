/** An optional argument: `None` stands for JavaScript's `undefined`, the value a
    parameter such as `reason?` or `data?` takes when the caller omits it. */
module Wrappers {

  datatype Option<+T> = None | Some(value: T)
}
