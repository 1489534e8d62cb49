/** An optional value: PHP's "not set" (`isset` false, an absent option, `false`) is `None`. */
module Wrappers {

  datatype Option<+T> = None | Some(value: T)
}
