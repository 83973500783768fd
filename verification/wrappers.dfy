/** The Some/None datatype used where the Go code returns an interface value
    together with a `found` flag: `None` stands for Go's `(nil, false)`. */
module Wrappers {

  datatype Option<+T> = None | Some(value: T)
}
