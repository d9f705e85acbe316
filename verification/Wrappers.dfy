/** The failure-carrying values shared by every module. */
module Wrappers {

  datatype Option<+T> = None | Some(value: T)

  /** SQL's COALESCE. */
  function Coalesce<T>(first: Option<T>, second: Option<T>): Option<T> {
    if first.Some? then first else second
  }
}
