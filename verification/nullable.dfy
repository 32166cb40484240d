/** Kotlin's nullable types (`T?`) as an explicit option. */
module Nullable {

  datatype Option<+T> = None | Some(value: T)
}
