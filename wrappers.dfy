/** The "value or null" results of the kernel. */
module Wrappers {

  /** `None` stands for JavaScript's `null` (or `undefined`) result. */
  datatype Option<+T> = None | Some(value: T)
}
