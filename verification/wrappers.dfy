/** The optional value used wherever the Ruby code may hand back `nil`. */
module Wrappers {

  /** `None` stands for Ruby's `nil`; `Some(v)` for a present value. */
  datatype Option<+T> = None | Some(value: T)
}
