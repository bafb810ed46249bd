/** The optional value used where the modelled code produces `null`, `undefined`,
    `NaN` or `Infinity` instead of an ordinary value. */
module Options {
  datatype Option<+T> = None | Some(value: T)
}
