/** The conventional optional value, standing in for Swift's `T?`. */
module Wrappers {

  /** `None` is Swift's `nil`; two `None`s are equal, as two `nil`s are in Swift. */
  datatype Option<+T> = None | Some(value: T)
}
