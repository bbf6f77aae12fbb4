/** Kotlin's nullable types (`T?`): a value is either absent (`null`) or present. */
module Options {
  datatype Option<T> = None | Some(value: T)
}
