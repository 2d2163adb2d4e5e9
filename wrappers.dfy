// Small value wrappers shared by the modules of the model.
module Wrappers {
  /** An optional value: Rust's `Option<T>`. */
  datatype Option<T> = None | Some(value: T)

  /** An unsigned byte: Rust's `u8`. */
  type Byte = x: nat | x < 256
}
