/** The "value or nothing" wrapper used for JavaScript values that may be
    `null` or `undefined`. */
module Options {
  datatype Option<+T> = None | Some(value: T)
}
