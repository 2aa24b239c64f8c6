/** The optional value used for raw fields that may be missing or unparseable,
    and for the depletion year, which is `null` until the portfolio runs dry. */
module Options {

  datatype Option<+T> = None | Some(value: T)
}
