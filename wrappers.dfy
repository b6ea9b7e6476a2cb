/** The absent-or-present value used wherever the source has `undefined`,
    `null` or a failed request. */
module Wrappers {

  datatype Option<+T> = None | Some(value: T)
}
