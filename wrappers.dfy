/** The JavaScript `null` / missing value, as an explicit option. */
module Wrappers {

  datatype Option<+T> = None | Some(value: T)
}
