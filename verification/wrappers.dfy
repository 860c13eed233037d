/** The optional value used wherever the host can read `undefined`. */
module Wrappers {

  /** `None` stands for JavaScript's `undefined`, e.g. a typed-array read past its length. */
  datatype Option<+T> = None | Some(value: T)
}
