/** An optional value: a started coroutine, a chosen direction. */
module Optional {
  datatype Option<T> = None | Some(value: T)
}
