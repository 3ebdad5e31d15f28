/** The optional value used wherever a page holds `null` or a parser yields `NaN`. */
module Options {

  datatype Option<+T> = None | Some(value: T)
}
